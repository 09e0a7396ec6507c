/**
 * A reader for JSON texts without outer white space (RFC 8259, sections 3 to 7), as a reference:
 * whatever JSON.stringify writes is read back as the value it was written for.
 */
module JsonReader {
  import opened Basics
  import opened JsonText

  datatype Parsed<T> = Parsed(value: T, rest: string)

  // ------------------------------------------------------------------ strings

  function HexValue(c: char): Option<nat> {
    if '0' <= c <= '9' then Some(c as int - '0' as int)
    else if 'a' <= c <= 'f' then Some(c as int - 'a' as int + 10)
    else if 'A' <= c <= 'F' then Some(c as int - 'A' as int + 10)
    else None
  }

  /** Four hexadecimal digits; code units of surrogate pairs are not put together. */
  function ReadHex(s: string): Option<Parsed<char>> {
    if |s| < 4 || exists i :: 0 <= i < 4 && HexValue(s[i]).None? then None
    else
      var code := HexValue(s[0]).value * 4096 + HexValue(s[1]).value * 256 + HexValue(s[2]).value * 16 +
                  HexValue(s[3]).value;
      if code < 0xD800 then Some(Parsed(code as char, s[4..])) else None
  }

  function ReadEscape(s: string): Option<Parsed<char>> {
    if s == "" then None
    else if s[0] == '"' || s[0] == '\\' || s[0] == '/' then Some(Parsed(s[0], s[1..]))
    else if s[0] == 'n' then Some(Parsed('\n', s[1..]))
    else if s[0] == 'r' then Some(Parsed('\r', s[1..]))
    else if s[0] == 't' then Some(Parsed('\t', s[1..]))
    else if s[0] == 'b' then Some(Parsed(8 as char, s[1..]))
    else if s[0] == 'f' then Some(Parsed(12 as char, s[1..]))
    else if s[0] == 'u' then ReadHex(s[1..])
    else None
  }

  function ReadChar(s: string): (r: Option<Parsed<char>>)
    ensures r.Some? ==> |r.value.rest| < |s|
  {
    if s == "" || s[0] < ' ' || s[0] == '"' then None
    else if s[0] == '\\' then ReadEscape(s[1..])
    else Some(Parsed(s[0], s[1..]))
  }

  /** A string, from behind its opening quote. */
  function ReadString(s: string): (r: Option<Parsed<string>>)
    ensures r.Some? ==> |r.value.rest| < |s|
    decreases |s|
  {
    if s == "" then None
    else if s[0] == '"' then Some(Parsed("", s[1..]))
    else
      var c := ReadChar(s);
      if c.None? then None
      else
        var more := ReadString(c.value.rest);
        if more.None? then None else Some(Parsed([c.value.value] + more.value.value, more.value.rest))
  }

  // ------------------------------------------------------------------ values

  function NumberEnd(s: string): (n: nat)
    ensures n <= |s|
  {
    if s == "" || !NumberChar(s[0]) then 0 else 1 + NumberEnd(s[1..])
  }

  function ReadValue(s: string): (r: Option<Parsed<Value>>)
    ensures r.Some? ==> |r.value.rest| < |s|
    decreases |s|, 1
  {
    if s == "" then None
    else if "null" <= s then Some(Parsed(Null, s[4..]))
    else if "true" <= s then Some(Parsed(Bool(true), s[4..]))
    else if "false" <= s then Some(Parsed(Bool(false), s[5..]))
    else if s[0] == '"' then
      var t := ReadString(s[1..]);
      if t.None? then None else Some(Parsed(Str(t.value.value), t.value.rest))
    else if "[]" <= s then Some(Parsed(Arr([]), s[2..]))
    else if s[0] == '[' then
      var t := ReadItems(s[1..]);
      if t.None? then None else Some(Parsed(Arr(t.value.value), t.value.rest))
    else if "{}" <= s then Some(Parsed(Obj([]), s[2..]))
    else if s[0] == '{' then
      var t := ReadEntries(s[1..]);
      if t.None? then None else Some(Parsed(Obj(t.value.value), t.value.rest))
    else if NumberChar(s[0]) then Some(Parsed(Num(s[..NumberEnd(s)]), s[NumberEnd(s)..]))
    else None
  }

  /** One item or more, up to the closing bracket. */
  function ReadItems(s: string): (r: Option<Parsed<seq<Value>>>)
    ensures r.Some? ==> |r.value.rest| < |s|
    decreases |s|, 2
  {
    var v := ReadValue(s);
    if v.None? || v.value.rest == "" then None
    else if v.value.rest[0] == ']' then Some(Parsed([v.value.value], v.value.rest[1..]))
    else if v.value.rest[0] == ',' then
      var more := ReadItems(v.value.rest[1..]);
      if more.None? then None else Some(Parsed([v.value.value] + more.value.value, more.value.rest))
    else None
  }

  /** A key in quotes and a colon. */
  function ReadKey(s: string): (r: Option<Parsed<string>>)
    ensures r.Some? ==> |r.value.rest| < |s|
  {
    if s == "" || s[0] != '"' then None
    else
      var k := ReadString(s[1..]);
      if k.None? || k.value.rest == "" || k.value.rest[0] != ':' then None
      else Some(Parsed(k.value.value, k.value.rest[1..]))
  }

  /** One member or more, up to the closing brace. */
  function ReadEntries(s: string): (r: Option<Parsed<seq<Member>>>)
    ensures r.Some? ==> |r.value.rest| < |s|
    decreases |s|, 2
  {
    var k := ReadKey(s);
    if k.None? then None
    else
      var v := ReadValue(k.value.rest);
      if v.None? || v.value.rest == "" then None
      else
        var entry := Member(k.value.value, v.value.value);
        if v.value.rest[0] == '}' then Some(Parsed([entry], v.value.rest[1..]))
        else if v.value.rest[0] == ',' then
          var more := ReadEntries(v.value.rest[1..]);
          if more.None? then None else Some(Parsed([entry] + more.value.value, more.value.rest))
        else None
  }

  /** The value of a whole text. */
  function Read(s: string): Option<Value> {
    var v := ReadValue(s);
    if v.Some? && v.value.rest == "" then Some(v.value.value) else None
  }

  // ------------------------------------------------------------------ what is written is read back

  lemma HexReadsBack(n: nat)
    requires n < 16
    ensures HexValue(HexDigit(n)) == Some(n)
  {
    assert "0123456789abcdef"[..10] == "0123456789" && "0123456789abcdef"[10..] == "abcdef";
  }

  lemma ControlReadsBack(c: char, rest: string)
    requires c < ' '
    ensures ReadHex(['0', '0', HexDigit(c as int / 16), HexDigit(c as int % 16)] + rest) == Some(Parsed(c, rest))
  {
    var s := ['0', '0', HexDigit(c as int / 16), HexDigit(c as int % 16)] + rest;
    HexReadsBack(c as int / 16);
    HexReadsBack(c as int % 16);
    assert HexValue(s[0]) == Some(0) && HexValue(s[1]) == Some(0);
    assert HexValue(s[2]) == Some(c as int / 16) && HexValue(s[3]) == Some(c as int % 16);
    assert s[4..] == rest;
  }

  lemma EscapeReadsBack(mark: char, c: char, rest: string)
    requires ReadEscape([mark] + rest) == Some(Parsed(c, rest))
    ensures ReadChar(['\\', mark] + rest) == Some(Parsed(c, rest))
  {
    assert (['\\', mark] + rest)[1..] == [mark] + rest;
  }

  lemma MarkReads(mark: char, rest: string)
    ensures ([mark] + rest)[1..] == rest
  {
  }

  lemma CodeReadsBack(c: char, rest: string)
    requires c < ' '
    ensures var code := ['0', '0', HexDigit(c as int / 16), HexDigit(c as int % 16)];
            ReadChar(['\\', 'u'] + code + rest) == Some(Parsed(c, rest))
  {
    var code := ['0', '0', HexDigit(c as int / 16), HexDigit(c as int % 16)];
    ControlReadsBack(c, rest);
    assert (['\\', 'u'] + code + rest)[1..] == ['u'] + (code + rest);
    MarkReads('u', code + rest);
  }

  lemma ShortReadsBack(c: char, rest: string)
    requires |EscapeChar(c)| <= 2
    ensures ReadChar(EscapeChar(c) + rest) == Some(Parsed(c, rest))
  {
    var e := EscapeChar(c);
    if |e| == 1 {
      MarkReads(c, rest);
      assert e == [c];
    } else {
      assert e == ['\\', e[1]];
      MarkReads(e[1], rest);
      EscapeReadsBack(e[1], c, rest);
    }
  }

  lemma CharReadsBack(c: char, rest: string)
    ensures ReadChar(EscapeChar(c) + rest) == Some(Parsed(c, rest)) && EscapeChar(c)[0] != '"'
  {
    if |EscapeChar(c)| <= 2 {
      ShortReadsBack(c, rest);
    } else {
      CodeReadsBack(c, rest);
      assert EscapeChar(c) == ['\\', 'u'] + ['0', '0', HexDigit(c as int / 16), HexDigit(c as int % 16)];
    }
  }

  lemma OneMoreChar(c: char, more: string, t: string, rest: string)
    requires ReadString(more) == Some(Parsed(t, rest))
    ensures ReadString(EscapeChar(c) + more) == Some(Parsed([c] + t, rest))
  {
    CharReadsBack(c, more);
    assert (EscapeChar(c) + more)[0] == EscapeChar(c)[0];
  }

  lemma {:induction false} StringReadsBack(t: string, rest: string)
    ensures ReadString(EscapeAll(t) + ("\"" + rest)) == Some(Parsed(t, rest))
  {
    var end := "\"" + rest;
    if t == "" {
      assert EscapeAll(t) + end == end && end[1..] == rest;
    } else {
      var more := EscapeAll(t[1..]) + end;
      assert EscapeAll(t) + end == EscapeChar(t[0]) + more;
      StringReadsBack(t[1..], rest);
      OneMoreChar(t[0], more, t[1..], rest);
      assert [t[0]] + t[1..] == t;
    }
  }

  lemma Enclosed(a: string, rest: string)
    ensures var s := "\"" + a + "\"" + rest; s[0] == '"' && s[1..] == a + ("\"" + rest)
  {
  }

  lemma QuoteReadsBack(t: string, rest: string)
    ensures var s := Quote(t) + rest; s[0] == '"' && ReadString(s[1..]) == Some(Parsed(t, rest))
  {
    StringReadsBack(t, rest);
    Enclosed(EscapeAll(t), rest);
  }

  lemma {:induction false} NumberReadsBack(t: string, rest: string)
    requires (forall i :: 0 <= i < |t| ==> NumberChar(t[i])) && (rest == "" || !NumberChar(rest[0]))
    ensures NumberEnd(t + rest) == |t|
  {
    if t == "" {
      assert t + rest == rest;
    } else {
      assert (t + rest)[1..] == t[1..] + rest;
      NumberReadsBack(t[1..], rest);
    }
  }

  /** What may come behind a value: nothing that could belong to it. */
  predicate Ends(rest: string) { rest == "" || !NumberChar(rest[0]) }

  lemma LiteralReadsBack(v: Value, rest: string)
    requires v.Null? || v.Bool?
    ensures ReadValue(Stringify(v) + rest) == Some(Parsed(v, rest))
  {
    var s := Stringify(v) + rest;
    assert s[..|Stringify(v)|] == Stringify(v) && s[|Stringify(v)|..] == rest;
    assert "null"[0] == 'n' && "true"[0] == 't' && "false"[0] == 'f';
  }

  lemma NumReadsBack(t: string, rest: string)
    requires WellFormed(Num(t)) && Ends(rest)
    ensures ReadValue(t + rest) == Some(Parsed(Num(t), rest))
  {
    var s := t + rest;
    assert NumberChar(s[0]) by { assert s[0] == t[0] && NumberChar(t[0]); }
    NumberReadsBack(t, rest);
    assert s[..|t|] == t && s[|t|..] == rest;
  }

  lemma StrReadsBack(t: string, rest: string)
    ensures ReadValue(Quote(t) + rest) == Some(Parsed(Str(t), rest))
  {
    QuoteReadsBack(t, rest);
  }

  lemma FirstOfValue(v: Value)
    requires WellFormed(v)
    ensures Stringify(v) != "" && Stringify(v)[0] != ']' && Stringify(v)[0] != '}'
  {
    match v
    case Num(t) => assert NumberChar(t[0]);
    case _ =>
  }

  /** A text starts with one of the fixed words only when its first character says so. */
  lemma StartsDiffer(s: string)
    requires s != ""
    ensures s[0] != 'n' ==> !("null" <= s)
    ensures s[0] != 't' ==> !("true" <= s)
    ensures s[0] != 'f' ==> !("false" <= s)
    ensures s[0] != '[' ==> !("[]" <= s)
    ensures s[0] != '{' ==> !("{}" <= s)
  {
    assert "null"[0] == 'n' && "true"[0] == 't' && "false"[0] == 'f' && "[]"[0] == '[' && "{}"[0] == '{';
  }

  lemma ArrayReads(body: string, items: seq<Value>, rest: string)
    requires body != "" && body[0] != ']' && ReadItems(body) == Some(Parsed(items, rest))
    ensures ReadValue("[" + body) == Some(Parsed(Arr(items), rest))
  {
    var s := "[" + body;
    assert s[0] == '[' && s[1] == body[0] && s[1..] == body;
    StartsDiffer(s);
    assert !("[]" <= s) by { assert "[]"[1] == ']'; }
  }

  lemma ObjectReads(body: string, entries: seq<Member>, rest: string)
    requires body != "" && body[0] != '}' && ReadEntries(body) == Some(Parsed(entries, rest))
    ensures ReadValue("{" + body) == Some(Parsed(Obj(entries), rest))
  {
    var s := "{" + body;
    assert s[0] == '{' && s[1] == body[0] && s[1..] == body;
    StartsDiffer(s);
    assert !("{}" <= s) by { assert "{}"[1] == '}'; }
  }

  lemma EmptyReads(rest: string)
    ensures ReadValue("[]" + rest) == Some(Parsed(Arr([]), rest))
    ensures ReadValue("{}" + rest) == Some(Parsed(Obj([]), rest))
  {
    assert ("[]" + rest)[..2] == "[]" && ("[]" + rest)[2..] == rest;
    assert ("{}" + rest)[..2] == "{}" && ("{}" + rest)[2..] == rest;
    assert "null"[0] == 'n' && "true"[0] == 't' && "false"[0] == 'f' && "[]"[0] == '[';
  }

  lemma ArrayText(items: seq<Value>, rest: string)
    ensures Stringify(Arr(items)) + rest == "[" + (Items(items) + ("]" + rest))
    ensures Stringify(Arr([])) == "[]"
  {
    assert Items([]) == "" && "[" + "" + "]" == "[]";
    assert "[" + Items(items) + "]" + rest == "[" + (Items(items) + ("]" + rest));
  }

  lemma ObjectText(entries: seq<Member>, rest: string)
    ensures Stringify(Obj(entries)) + rest == "{" + (Entries(entries) + ("}" + rest))
    ensures Stringify(Obj([])) == "{}"
  {
    assert Entries([]) == "" && "{" + "" + "}" == "{}";
    assert "{" + Entries(entries) + "}" + rest == "{" + (Entries(entries) + ("}" + rest));
  }

  lemma ArrayReadsBack(items: seq<Value>, rest: string)
    requires items != [] ==> WellFormed(items[0])
    requires items != [] ==> ReadItems(Items(items) + ("]" + rest)) == Some(Parsed(items, rest))
    ensures ReadValue(Stringify(Arr(items)) + rest) == Some(Parsed(Arr(items), rest))
  {
    ArrayText(items, rest);
    if items == [] {
      EmptyReads(rest);
    } else {
      FirstOfItems(items);
      ArrayReads(Items(items) + ("]" + rest), items, rest);
    }
  }

  lemma ObjectReadsBack(entries: seq<Member>, rest: string)
    requires entries != [] ==> ReadEntries(Entries(entries) + ("}" + rest)) == Some(Parsed(entries, rest))
    ensures ReadValue(Stringify(Obj(entries)) + rest) == Some(Parsed(Obj(entries), rest))
  {
    ObjectText(entries, rest);
    if entries == [] {
      EmptyReads(rest);
    } else {
      FirstOfEntries(entries);
      ObjectReads(Entries(entries) + ("}" + rest), entries, rest);
    }
  }

  /** Every well-formed value is read back from its text, whatever may follow. */
  lemma {:induction false} ValueReadsBack(v: Value, rest: string)
    requires WellFormed(v) && Ends(rest)
    ensures ReadValue(Stringify(v) + rest) == Some(Parsed(v, rest))
    decreases v, 1
  {
    match v
    case Null => LiteralReadsBack(v, rest);
    case Bool(b) => LiteralReadsBack(v, rest);
    case Num(t) => NumReadsBack(t, rest);
    case Str(t) => StrReadsBack(t, rest);
    case Arr(items) =>
      if items != [] { ItemsReadBack(items, rest); }
      ArrayReadsBack(items, rest);
    case Obj(entries) =>
      if entries != [] { EntriesReadBack(entries, rest); }
      ObjectReadsBack(entries, rest);
  }

  lemma FirstOfItems(items: seq<Value>)
    requires items != [] && WellFormed(items[0])
    ensures Items(items) != "" && Items(items)[0] != ']'
  {
    FirstOfValue(items[0]);
    assert Items(items)[0] == Stringify(items[0])[0];
  }

  lemma FirstOfEntries(entries: seq<Member>)
    requires entries != []
    ensures Entries(entries) != "" && Entries(entries)[0] == '"'
  {
    assert Quote(entries[0].key)[0] == '"';
  }

  lemma LastItemReads(s: string, v: Value, rest: string)
    requires ReadValue(s) == Some(Parsed(v, "]" + rest))
    ensures ReadItems(s) == Some(Parsed([v], rest))
  {
    assert ("]" + rest)[1..] == rest;
  }

  lemma NextItemReads(s: string, v: Value, more: string, items: seq<Value>, rest: string)
    requires ReadValue(s) == Some(Parsed(v, "," + more)) && ReadItems(more) == Some(Parsed(items, rest))
    ensures ReadItems(s) == Some(Parsed([v] + items, rest))
  {
    assert ("," + more)[1..] == more;
  }

  lemma Regroup(a: string, b: string, end: string)
    ensures a + "," + b + end == a + ("," + (b + end))
    ensures a + "" + "" + end == a + end
  {
  }

  lemma ItemsUnfold(items: seq<Value>)
    requires items != []
    ensures Items(items) == Stringify(items[0]) + (if |items| == 1 then "" else ",") + Items(items[1..])
    ensures |items| == 1 ==> Items(items[1..]) == ""
  {
  }

  lemma ItemsText(items: seq<Value>, end: string)
    requires items != []
    ensures Items(items) + end ==
            Stringify(items[0]) + if |items| == 1 then end else "," + (Items(items[1..]) + end)
  {
    ItemsUnfold(items);
    Regroup(Stringify(items[0]), Items(items[1..]), end);
  }

  lemma {:induction false} ItemsReadBack(items: seq<Value>, rest: string)
    requires items != [] && forall i :: 0 <= i < |items| ==> WellFormed(items[i])
    ensures ReadItems(Items(items) + ("]" + rest)) == Some(Parsed(items, rest))
    decreases items, 0
  {
    var end, v := "]" + rest, items[0];
    ItemsText(items, end);
    if |items| == 1 {
      ValueReadsBack(v, end);
      LastItemReads(Stringify(v) + end, v, rest);
      assert items == [v];
    } else {
      var more := Items(items[1..]) + end;
      ValueReadsBack(v, "," + more);
      ItemsReadBack(items[1..], rest);
      NextItemReads(Stringify(v) + ("," + more), v, more, items[1..], rest);
      assert [v] + items[1..] == items;
    }
  }

  lemma KeyReadsBack(key: string, rest: string)
    ensures ReadKey(Quote(key) + (":" + rest)) == Some(Parsed(key, rest))
  {
    QuoteReadsBack(key, ":" + rest);
    assert (":" + rest)[1..] == rest;
  }

  lemma LastEntryReads(s: string, key: string, text: string, v: Value, rest: string)
    requires ReadKey(s) == Some(Parsed(key, text)) && ReadValue(text) == Some(Parsed(v, "}" + rest))
    ensures ReadEntries(s) == Some(Parsed([Member(key, v)], rest))
  {
    assert ("}" + rest)[1..] == rest;
  }

  lemma NextEntryReads(s: string, key: string, text: string, v: Value, more: string, entries: seq<Member>, rest: string)
    requires ReadKey(s) == Some(Parsed(key, text)) && ReadValue(text) == Some(Parsed(v, "," + more))
    requires ReadEntries(more) == Some(Parsed(entries, rest))
    ensures ReadEntries(s) == Some(Parsed([Member(key, v)] + entries, rest))
  {
    assert ("," + more)[1..] == more;
  }

  /** The text behind the key of the first entry. */
  function EntryTail(entries: seq<Member>, end: string): string
    requires entries != []
  {
    Stringify(entries[0].value) + if |entries| == 1 then end else "," + (Entries(entries[1..]) + end)
  }

  lemma EntriesUnfold(entries: seq<Member>)
    requires entries != []
    ensures Entries(entries) ==
            Quote(entries[0].key) + ":" + Stringify(entries[0].value) + (if |entries| == 1 then "" else ",") +
            Entries(entries[1..])
    ensures |entries| == 1 ==> Entries(entries[1..]) == ""
  {
  }

  lemma RegroupKey(key: string, text: string, b: string, end: string)
    ensures key + ":" + text + "," + b + end == key + (":" + (text + ("," + (b + end))))
    ensures key + ":" + text + "" + "" + end == key + (":" + (text + end))
  {
  }

  lemma EntriesText(entries: seq<Member>, end: string)
    requires entries != []
    ensures Entries(entries) + end == Quote(entries[0].key) + (":" + EntryTail(entries, end))
  {
    EntriesUnfold(entries);
    RegroupKey(Quote(entries[0].key), Stringify(entries[0].value), Entries(entries[1..]), end);
  }

  lemma LastEntryReadsBack(entries: seq<Member>, rest: string)
    requires |entries| == 1
    requires ReadValue(Stringify(entries[0].value) + ("}" + rest)) == Some(Parsed(entries[0].value, "}" + rest))
    ensures ReadEntries(Entries(entries) + ("}" + rest)) == Some(Parsed(entries, rest))
  {
    var end, e := "}" + rest, entries[0];
    var text := EntryTail(entries, end);
    EntriesText(entries, end);
    KeyReadsBack(e.key, text);
    LastEntryReads(Entries(entries) + end, e.key, text, e.value, rest);
    assert entries == [Member(e.key, e.value)];
  }

  lemma NextEntryReadsBack(entries: seq<Member>, more: string, rest: string)
    requires |entries| > 1 && more == Entries(entries[1..]) + ("}" + rest)
    requires ReadValue(Stringify(entries[0].value) + ("," + more)) == Some(Parsed(entries[0].value, "," + more))
    requires ReadEntries(more) == Some(Parsed(entries[1..], rest))
    ensures ReadEntries(Entries(entries) + ("}" + rest)) == Some(Parsed(entries, rest))
  {
    var end, e := "}" + rest, entries[0];
    var text := EntryTail(entries, end);
    EntriesText(entries, end);
    KeyReadsBack(e.key, text);
    NextEntryReads(Entries(entries) + end, e.key, text, e.value, more, entries[1..], rest);
    assert [Member(e.key, e.value)] + entries[1..] == entries;
  }

  lemma {:induction false} EntriesReadBack(entries: seq<Member>, rest: string)
    requires entries != [] && forall i :: 0 <= i < |entries| ==> WellFormed(entries[i].value)
    ensures ReadEntries(Entries(entries) + ("}" + rest)) == Some(Parsed(entries, rest))
    decreases entries, 0
  {
    if |entries| == 1 {
      ValueReadsBack(entries[0].value, "}" + rest);
      LastEntryReadsBack(entries, rest);
    } else {
      var more := Entries(entries[1..]) + ("}" + rest);
      ValueReadsBack(entries[0].value, "," + more);
      EntriesReadBack(entries[1..], rest);
      NextEntryReadsBack(entries, more, rest);
    }
  }

  /** Round trip: the text of a well-formed value is read as that value, so different values have different texts. */
  lemma TextReadsBack(v: Value)
    requires WellFormed(v)
    ensures Read(Stringify(v)) == Some(v)
  {
    ValueReadsBack(v, "");
    assert Stringify(v) + "" == Stringify(v);
  }
}
