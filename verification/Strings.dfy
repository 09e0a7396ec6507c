/** The JavaScript string operations the sources rely on, over sequences of characters. */
module Strings {
  import opened Basics

  /** White space and line terminators removed by String.prototype.trim. */
  predicate IsSpace(c: char) {
    || c == ' ' || '\t' <= c <= '\r' || c == '\U{A0}' || c == '\U{1680}' || '\U{2000}' <= c <= '\U{200A}'
    || c == '\U{2028}' || c == '\U{2029}' || c == '\U{202F}' || c == '\U{205F}' || c == '\U{3000}' || c == '\U{FEFF}'
  }

  function TrimStart(s: string): (r: string)
    ensures r == [] || !IsSpace(r[0])
    ensures |r| <= |s| && r == s[|s| - |r|..]
  {
    if s == [] || !IsSpace(s[0]) then s else TrimStart(s[1..])
  }

  function TrimEnd(s: string): (r: string)
    ensures r == [] || !IsSpace(r[|r| - 1])
    ensures |r| <= |s| && r == s[..|r|]
  {
    if s == [] || !IsSpace(s[|s| - 1]) then s else TrimEnd(s[..|s| - 1])
  }

  function Trim(s: string): (r: string)
    ensures r == [] || (!IsSpace(r[0]) && !IsSpace(r[|r| - 1]))
  {
    var t := TrimStart(s);
    var r := TrimEnd(t);
    assert r != [] ==> r[0] == t[0];
    r
  }

  /** Text that starts and ends with something else than white space survives trimming. */
  lemma TrimKeeps(s: string)
    requires s == [] || (!IsSpace(s[0]) && !IsSpace(s[|s| - 1]))
    ensures Trim(s) == s && TrimStart(s) == s && TrimEnd(s) == s
  {
  }

  predicate AllSpace(s: string) { forall i :: 0 <= i < |s| ==> IsSpace(s[i]) }

  lemma {:induction false} LeadIsSpace(s: string)
    ensures AllSpace(s[..|s| - |TrimStart(s)|])
  {
    if s == [] || !IsSpace(s[0]) {
      assert TrimStart(s) == s;
    } else {
      LeadIsSpace(s[1..]);
      var n := |s[1..]| - |TrimStart(s[1..])|;
      assert s[..n + 1] == [s[0]] + s[1..][..n];
    }
  }

  lemma {:induction false} TailIsSpace(s: string)
    ensures AllSpace(s[|TrimEnd(s)|..])
  {
    if s == [] || !IsSpace(s[|s| - 1]) {
      assert TrimEnd(s) == s;
    } else {
      var most := s[..|s| - 1];
      TailIsSpace(most);
      assert s[|TrimEnd(most)|..] == most[|TrimEnd(most)|..] + [s[|s| - 1]];
    }
  }

  lemma CutTwice(s: string, t: string, r: string)
    requires |t| <= |s| && t == s[|s| - |t|..] && |r| <= |t| && r == t[..|r|]
    ensures s == s[..|s| - |t|] + r + t[|r|..]
  {
  }

  /** Trimming takes white space off both ends and nothing else. */
  lemma TrimExactly(s: string) returns (lead: string, tail: string)
    ensures s == lead + Trim(s) + tail && AllSpace(lead) && AllSpace(tail)
  {
    var t := TrimStart(s);
    var r := TrimEnd(t);
    assert Trim(s) == r;
    lead, tail := s[..|s| - |t|], t[|r|..];
    assert AllSpace(lead) by { LeadIsSpace(s); }
    assert AllSpace(tail) by { TailIsSpace(t); }
    CutTwice(s, t, r);
  }

  lemma {:induction false} SpaceBefore(lead: string, s: string)
    requires AllSpace(lead) && (s == [] || !IsSpace(s[0]))
    ensures TrimStart(lead + s) == s
  {
    if lead == [] {
      assert lead + s == s;
    } else {
      assert (lead + s)[1..] == lead[1..] + s;
      assert AllSpace(lead[1..]);
      SpaceBefore(lead[1..], s);
    }
  }

  lemma {:induction false} SpaceAfter(s: string, tail: string)
    requires AllSpace(tail) && (s == [] || !IsSpace(s[|s| - 1]))
    ensures TrimEnd(s + tail) == s
  {
    if tail == [] {
      assert s + tail == s;
    } else {
      assert (s + tail)[..|s + tail| - 1] == s + tail[..|tail| - 1];
      assert AllSpace(tail[..|tail| - 1]);
      SpaceAfter(s, tail[..|tail| - 1]);
    }
  }

  /** A text put between white space is what trimming gives back. */
  lemma TrimBetween(lead: string, s: string, tail: string)
    requires AllSpace(lead) && AllSpace(tail) && s != [] && !IsSpace(s[0]) && !IsSpace(s[|s| - 1])
    ensures Trim(lead + s + tail) == s
  {
    assert lead + s + tail == lead + (s + tail);
    SpaceBefore(lead, s + tail);
    SpaceAfter(s, tail);
  }

  /** Nothing is left of a text exactly when it has nothing but white space. */
  lemma BlankExactly(s: string)
    ensures Trim(s) == "" <==> AllSpace(s)
  {
    var lead, tail := TrimExactly(s);
    if Trim(s) != "" { assert s[|lead|] == Trim(s)[0]; }
    else { assert s == lead + tail; }
  }

  /** The text says something: it is there, and not white space alone. */
  ghost predicate Given(t: Option<string>) { t.Some? && !AllSpace(t.value) }

  /** What is left of a text without the white space around it. */
  ghost predicate TrimmedFrom(key: string, text: string) {
    exists lead, tail :: text == lead + key + tail && AllSpace(lead) && AllSpace(tail)
  }

  lemma TrimIsTrimmed(text: string)
    ensures TrimmedFrom(Trim(text), text)
  {
    var lead, tail := TrimExactly(text);
    assert text == lead + Trim(text) + tail;
  }

  lemma GivenExactly(t: Option<string>)
    ensures Given(t) <==> t.Some? && Trim(t.value) != ""
    ensures t.Some? ==> TrimmedFrom(Trim(t.value), t.value)
  {
    if t.Some? {
      BlankExactly(t.value);
      TrimIsTrimmed(t.value);
    }
  }

  lemma TrimTwice(s: string)
    ensures Trim(Trim(s)) == Trim(s)
  {
    TrimKeeps(Trim(s));
  }

  function LowerChar(c: char): char { if 'A' <= c <= 'Z' then (c as int + 32) as char else c }

  function UpperChar(c: char): char { if 'a' <= c <= 'z' then (c as int - 32) as char else c }

  /** toLowerCase on the ASCII letters. */
  function Lower(s: string): (r: string) { seq(|s|, i requires 0 <= i < |s| => LowerChar(s[i])) }

  /** toUpperCase on the ASCII letters. */
  function Upper(s: string): (r: string) { seq(|s|, i requires 0 <= i < |s| => UpperChar(s[i])) }

  predicate StartsWith(s: string, prefix: string) { prefix <= s }

  predicate IsDigits(s: string) { s != [] && forall i :: 0 <= i < |s| ==> '0' <= s[i] <= '9' }
}
