/** The weighted risk score of apps/api-nest/src/vehicle.service.ts, which reads the merged compliance snapshot. */
module RiskScore {
  import opened Basics
  import opened Strings
  import opened Json
  import opened ComplianceSnapshot
  import opened ComplianceFacts

  /** Number(text) of the language, for text that is not blank: None stands for NaN and the infinities. */
  type NumberOf = string -> Option<real>

  datatype Tier = Low | Medium | High

  datatype Signal =
    | SnapshotMissing
    | PermitInvalid
    | InsuranceInvalid
    | FitnessInvalid
    | Violations(count: real)
    | Blacklisted
    | NoSignals

  datatype Factor = Factor(key: string, weight: real, contribution: real)

  datatype Assessment = Assessment(score: real, signals: seq<Signal>, factors: seq<Factor>)

  function TierOf(score: real): (tier: Tier)
    ensures tier == Low <==> score <= 33.0
    ensures tier == High <==> 66.0 < score
  {
    if score <= 33.0 then Low else if score <= 66.0 then Medium else High
  }

  function YesWords(): set<string> { {"true", "yes", "1", "active", "valid"} }

  function NoWords(): set<string> { {"false", "no", "0", "inactive", "invalid"} }

  function AsBoolean(v: Option<Json>): Option<bool> {
    match v
    case Some(JBool(b)) => Some(b)
    case Some(JStr(text)) =>
      var s := Lower(Trim(text));
      if s in YesWords() then Some(true) else if s in NoWords() then Some(false) else None
    case _ => None
  }

  function AsFiniteNumber(v: Option<Json>, number: NumberOf): Option<real> {
    match v
    case Some(JNum(n)) => Some(n)
    case Some(JStr(text)) => if Trim(text) != "" then number(text) else None
    case _ => None
  }

  // ------------------------------------------------------------------ where each answer is looked up

  /** The paths the reader tries before the field the merge writes. */
  function EarlierPaths(k: Kind): seq<seq<string>> {
    match k
    case Permit => [["permit", "isValid"], ["permit", "valid"], ["permitStatus", "isValid"]]
    case Insurance => [["insurance", "isValid"], ["insurance", "valid"]]
    case Fitness => [["fitness", "isValid"], ["fitness", "valid"]]
    case Registration => []
  }

  function Paths(k: Kind): seq<seq<string>> { EarlierPaths(k) + [["compliance", ValidKey(k)]] }

  function ViolationPaths(): seq<seq<string>> {
    [["violations", "count"], ["challan", "count"], ["challanCount"], ["penaltyCount"]]
  }

  function BlacklistPaths(): seq<seq<string>> {
    [["blacklist", "isBlacklisted"], ["flags", "blacklisted"], ["flags", "suspended"]]
  }

  predicate Invalid(snapshot: Json, k: Kind) { AsBoolean(PickNested(snapshot, Paths(k))) == Some(false) }

  function ViolationCount(snapshot: Json, number: NumberOf): real {
    var n := AsFiniteNumber(PickNested(snapshot, ViolationPaths()), number);
    if n.Some? && n.value > 0.0 then n.value else 0.0
  }

  predicate IsBlacklisted(snapshot: Json) { AsBoolean(PickNested(snapshot, BlacklistPaths())) == Some(true) }

  // ------------------------------------------------------------------ what the score must be

  function Weight(k: Kind): real {
    match k
    case Permit => 24.0
    case Insurance => 20.0
    case Fitness => 18.0
    case Registration => 0.0
  }

  function Penalty(invalid: bool, k: Kind): real { if invalid then Weight(k) else 0.0 }

  function ViolationPenalty(n: real): real { if n * 4.0 < 22.0 then n * 4.0 else 22.0 }

  /** The penalties summed, or 8 when there are none. */
  function ScoreOf(permit: bool, insurance: bool, fitness: bool, violations: real, blacklisted: bool): real {
    var total := Penalty(permit, Permit) + Penalty(insurance, Insurance) + Penalty(fitness, Fitness) +
                 ViolationPenalty(violations) + (if blacklisted then 16.0 else 0.0);
    if total == 0.0 then 8.0 else total
  }

  /** 10 without a snapshot object. */
  function Score(snapshot: Json, number: NumberOf): real {
    if !snapshot.JObj? then 10.0
    else ScoreOf(Invalid(snapshot, Permit), Invalid(snapshot, Insurance), Invalid(snapshot, Fitness),
                 ViolationCount(snapshot, number), IsBlacklisted(snapshot))
  }

  function Sum(factors: seq<Factor>): real {
    if factors == [] then 0.0 else Sum(factors[..|factors| - 1]) + factors[|factors| - 1].contribution
  }

  function OnlyIf<T>(found: bool, x: T): seq<T> { if found then [x] else [] }

  lemma SumOnlyIf(factors: seq<Factor>, found: bool, f: Factor)
    ensures Sum(factors + OnlyIf(found, f)) == Sum(factors) + if found then f.contribution else 0.0
    ensures factors + OnlyIf(found, f) == [] <==> factors == [] && !found
  {
    if found { SumSnoc(factors, f); } else { assert factors + OnlyIf(found, f) == factors; }
  }

  /** Five optional factors in a row. */
  lemma SumOfFive(a: bool, fa: Factor, b: bool, fb: Factor, c: bool, fc: Factor, d: bool, fd: Factor, e: bool,
                  fe: Factor)
    ensures var all := [] + OnlyIf(a, fa) + OnlyIf(b, fb) + OnlyIf(c, fc) + OnlyIf(d, fd) + OnlyIf(e, fe);
            && Sum(all) == (if a then fa.contribution else 0.0) + (if b then fb.contribution else 0.0) +
                           (if c then fc.contribution else 0.0) + (if d then fd.contribution else 0.0) +
                           (if e then fe.contribution else 0.0)
            && (all == [] <==> !a && !b && !c && !d && !e)
  {
    var none: seq<Factor> := [];
    SumOnlyIf(none, a, fa);
    SumOnlyIf(none + OnlyIf(a, fa), b, fb);
    SumOnlyIf(none + OnlyIf(a, fa) + OnlyIf(b, fb), c, fc);
    SumOnlyIf(none + OnlyIf(a, fa) + OnlyIf(b, fb) + OnlyIf(c, fc), d, fd);
    SumOnlyIf(none + OnlyIf(a, fa) + OnlyIf(b, fb) + OnlyIf(c, fc) + OnlyIf(d, fd), e, fe);
  }

  function FactorsOf(permit: bool, insurance: bool, fitness: bool, violations: real, blacklisted: bool): seq<Factor> {
    [] + OnlyIf(permit, Factor("permit_validity", 24.0, 24.0)) +
      OnlyIf(insurance, Factor("insurance_validity", 20.0, 20.0))
    + OnlyIf(fitness, Factor("fitness_validity", 18.0, 18.0))
    + OnlyIf(violations > 0.0, Factor("violation_history", 22.0, ViolationPenalty(violations)))
    + OnlyIf(blacklisted, Factor("enforcement_flags", 16.0, 16.0))
  }

  function SignalsOf(permit: bool, insurance: bool, fitness: bool, violations: real, blacklisted: bool): seq<Signal> {
    [] + OnlyIf(permit, PermitInvalid) + OnlyIf(insurance, InsuranceInvalid) + OnlyIf(fitness, FitnessInvalid)
    + OnlyIf(violations > 0.0, Violations(violations)) + OnlyIf(blacklisted, Blacklisted)
  }

  lemma ScoreInRange(permit: bool, insurance: bool, fitness: bool, violations: real, blacklisted: bool)
    requires violations >= 0.0
    ensures 0.0 < ScoreOf(permit, insurance, fitness, violations, blacklisted) <= 100.0
    ensures ScoreOf(permit, insurance, fitness, violations, blacklisted) ==
            if !permit && !insurance && !fitness && violations == 0.0 && !blacklisted then 8.0
            else (if permit then 24.0 else 0.0) + (if insurance then 20.0 else 0.0) + (if fitness then 18.0 else 0.0) +
                 (if violations > 0.0 then ViolationPenalty(violations) else 0.0) + (if blacklisted then 16.0 else 0.0)
  {
    assert 0.0 <= ViolationPenalty(violations) <= 22.0;
    assert ViolationPenalty(violations) == 0.0 <==> violations == 0.0;
  }

  /** The contributions are the penalties: each factor explains its share of the score, and no clamp is needed. */
  lemma FactorsAddUp(permit: bool, insurance: bool, fitness: bool, violations: real, blacklisted: bool)
    requires violations >= 0.0
    ensures var factors := FactorsOf(permit, insurance, fitness, violations, blacklisted);
            ScoreOf(permit, insurance, fitness, violations, blacklisted) == if factors == [] then 8.0 else Sum(factors)
    ensures 0.0 < ScoreOf(permit, insurance, fitness, violations, blacklisted) <= 100.0
  {
    ScoreInRange(permit, insurance, fitness, violations, blacklisted);
    SumOfFive(permit, Factor("permit_validity", 24.0, 24.0), insurance, Factor("insurance_validity", 20.0, 20.0),
              fitness, Factor("fitness_validity", 18.0, 18.0),
              violations > 0.0, Factor("violation_history", 22.0, ViolationPenalty(violations)),
              blacklisted, Factor("enforcement_flags", 16.0, 16.0));
  }

  // ------------------------------------------------------------------ what an answer is

  /** The text is the word, in any letter case and with white space around it. */
  ghost predicate SameWord(s: string, w: string) {
    exists lead, mid, tail :: s == lead + mid + tail && AllSpace(lead) && AllSpace(tail) && Lower(mid) == w
  }

  predicate Solid(w: string) { w != "" && !IsSpace(w[0]) && !IsSpace(w[|w| - 1]) }

  lemma SameWordExactly(s: string, w: string)
    requires Solid(w)
    ensures SameWord(s, w) <==> Lower(Trim(s)) == w
  {
    if Lower(Trim(s)) == w {
      var lead, tail := TrimExactly(s);
      assert s == lead + Trim(s) + tail;
    }
    if lead, mid, tail :| s == lead + mid + tail && AllSpace(lead) && AllSpace(tail) && Lower(mid) == w {
      SolidBelow(mid);
      TrimBetween(lead, mid, tail);
    }
  }

  lemma SolidBelow(mid: string)
    requires Solid(Lower(mid))
    ensures Solid(mid)
  {
    assert Lower(mid)[0] == LowerChar(mid[0]) && Lower(mid)[|mid| - 1] == LowerChar(mid[|mid| - 1]);
  }

  ghost predicate SameWordAs(s: string, words: set<string>) { exists w :: w in words && SameWord(s, w) }

  lemma WordsExactly(s: string, words: set<string>)
    requires forall w :: w in words ==> Solid(w)
    ensures SameWordAs(s, words) <==> Lower(Trim(s)) in words
  {
    forall w | w in words ensures SameWord(s, w) <==> Lower(Trim(s)) == w { SameWordExactly(s, w); }
  }

  /** What counts as a yes, and what as a no: the boolean, or one of the words. */
  ghost predicate Yes(v: Json) { v == JBool(true) || (v.JStr? && SameWordAs(v.s, YesWords())) }

  ghost predicate No(v: Json) { v == JBool(false) || (v.JStr? && SameWordAs(v.s, NoWords())) }

  lemma WordsAreSolid()
    ensures forall w :: w in YesWords() ==> Solid(w)
    ensures forall w :: w in NoWords() ==> Solid(w)
  {
  }

  lemma WordsDiffer()
    ensures YesWords() !! NoWords()
  {
    assert |"true"| == 4 && |"yes"| == 3 && |"1"| == 1 && |"active"| == 6 && |"valid"| == 5;
    assert |"false"| == 5 && |"no"| == 2 && |"0"| == 1 && |"inactive"| == 8 && |"invalid"| == 7;
    assert "false"[0] == 'f' && "valid"[0] == 'v' && "1"[0] == '1' && "0"[0] == '0';
  }

  lemma TextAnswer(s: string, yes: set<string>, no: set<string>)
    requires (forall w :: w in yes ==> Solid(w)) && (forall w :: w in no ==> Solid(w)) && yes !! no
    ensures SameWordAs(s, yes) <==> Lower(Trim(s)) in yes
    ensures SameWordAs(s, no) <==> Lower(Trim(s)) in no && Lower(Trim(s)) !in yes
  {
    WordsExactly(s, yes);
    WordsExactly(s, no);
  }

  lemma AsBooleanExactly(v: Json)
    ensures AsBoolean(Some(v)) == Some(true) <==> Yes(v)
    ensures AsBoolean(Some(v)) == Some(false) <==> No(v)
  {
    if v.JStr? {
      WordsAreSolid();
      WordsDiffer();
      TextAnswer(v.s, YesWords(), NoWords());
    }
  }

  /** The i-th path is the first of these that exists. */
  ghost predicate FirstPath(root: Json, paths: seq<seq<string>>, i: nat) {
    i < |paths| && Follow(root, paths[i]).Some? && forall j :: 0 <= j < i ==> Follow(root, paths[j]).None?
  }

  lemma {:induction false} PickNestedExactly(root: Json, paths: seq<seq<string>>)
    ensures forall i: nat :: FirstPath(root, paths, i) ==> PickNested(root, paths) == Follow(root, paths[i])
    ensures PickNested(root, paths).Some? ==> exists i: nat :: FirstPath(root, paths, i)
  {
    if paths == [] {
    } else if Follow(root, paths[0]).Some? {
      assert FirstPath(root, paths, 0);
    } else {
      var rest := paths[1..];
      PickNestedExactly(root, rest);
      forall i: nat | FirstPath(root, paths, i) ensures PickNested(root, paths) == Follow(root, paths[i]) {
        assert forall j :: 0 <= j < i - 1 ==> rest[j] == paths[j + 1];
        assert FirstPath(root, rest, i - 1);
      }
      if i: nat :| FirstPath(root, rest, i) {
        assert forall j :: 0 < j < i + 1 ==> paths[j] == rest[j - 1];
        assert FirstPath(root, paths, i + 1);
      }
    }
  }

  ghost predicate AnswersNo(root: Json, paths: seq<seq<string>>) {
    exists i: nat :: FirstPath(root, paths, i) && No(Follow(root, paths[i]).value)
  }

  ghost predicate AnswersYes(root: Json, paths: seq<seq<string>>) {
    exists i: nat :: FirstPath(root, paths, i) && Yes(Follow(root, paths[i]).value)
  }

  /** The reader takes a kind for invalid, or the vehicle for blacklisted, exactly when the first path found says so. */
  lemma AnswersExactly(root: Json, paths: seq<seq<string>>)
    ensures AsBoolean(PickNested(root, paths)) == Some(false) <==> AnswersNo(root, paths)
    ensures AsBoolean(PickNested(root, paths)) == Some(true) <==> AnswersYes(root, paths)
  {
    PickNestedExactly(root, paths);
    if i: nat :| FirstPath(root, paths, i) {
      AsBooleanExactly(Follow(root, paths[i]).value);
      forall j: nat | FirstPath(root, paths, j) ensures j == i { OneFirstPath(root, paths, i, j); }
    }
  }

  lemma OneFirstPath(root: Json, paths: seq<seq<string>>, i: nat, j: nat)
    requires FirstPath(root, paths, i) && FirstPath(root, paths, j)
    ensures i == j
  {
  }

  function Positive(n: Option<real>): real { if n.Some? && n.value > 0.0 then n.value else 0.0 }

  /** The violations counted: the number, or the number a text stands for, at the first path found, unless negative. */
  lemma ViolationsExactly(snapshot: Json, number: NumberOf)
    ensures forall i: nat :: FirstPath(snapshot, ViolationPaths(), i) ==>
              ViolationCount(snapshot, number) ==
              match Follow(snapshot, ViolationPaths()[i]).value
              case JNum(n) => Positive(Some(n))
              case JStr(text) => if AllSpace(text) then 0.0 else Positive(number(text))
              case _ => 0.0
    ensures (forall p :: p in ViolationPaths() ==> Follow(snapshot, p).None?) ==>
            ViolationCount(snapshot, number) == 0.0
  {
    PickNestedExactly(snapshot, ViolationPaths());
    if forall p :: p in ViolationPaths() ==> Follow(snapshot, p).None? { PickNone(snapshot, ViolationPaths()); }
    CountOfReading(PickNested(snapshot, ViolationPaths()), number);
  }

  lemma CountOfReading(found: Option<Json>, number: NumberOf)
    ensures Positive(AsFiniteNumber(found, number)) ==
            match found
            case Some(JNum(n)) => Positive(Some(n))
            case Some(JStr(text)) => if AllSpace(text) then 0.0 else Positive(number(text))
            case _ => 0.0
  {
    if found.Some? && found.value.JStr? { BlankExactly(found.value.s); }
  }

  /**
   * The score of any snapshot: 10 when it is no object; else 24, 20 and 18 for the kinds answered
   * with no, four for each violation up to 22, and 16 for a blacklisted vehicle, or 8.
   */
  lemma ScoreOfAnswers(snapshot: Json, number: NumberOf)
    ensures var permit, insurance := AnswersNo(snapshot, Paths(Permit)), AnswersNo(snapshot, Paths(Insurance));
            var fitness, blacklisted := AnswersNo(snapshot, Paths(Fitness)), AnswersYes(snapshot, BlacklistPaths());
            var n := ViolationCount(snapshot, number);
            Score(snapshot, number) ==
            if !snapshot.JObj? then 10.0
            else if !permit && !insurance && !fitness && n == 0.0 && !blacklisted then 8.0
            else (if permit then 24.0 else 0.0) + (if insurance then 20.0 else 0.0) + (if fitness then 18.0 else 0.0) +
                 (if n >= 5.5 then 22.0 else 4.0 * n) + (if blacklisted then 16.0 else 0.0)
  {
    AnswersExactly(snapshot, Paths(Permit));
    AnswersExactly(snapshot, Paths(Insurance));
    AnswersExactly(snapshot, Paths(Fitness));
    AnswersExactly(snapshot, BlacklistPaths());
  }

  method MaybePush(factors: seq<Factor>, signals: seq<Signal>, found: bool, f: Factor, s: Signal)
    returns (factors': seq<Factor>, signals': seq<Signal>)
    ensures factors' == factors + OnlyIf(found, f) && signals' == signals + OnlyIf(found, s)
  {
    factors', signals' := factors, signals;
    if found { factors', signals' := factors + [f], signals + [s]; }
  }

  /** The pushes and the reduction, once every answer is read. */
  method Weigh(permit: bool, insurance: bool, fitness: bool, count: real, blacklisted: bool) returns (a: Assessment)
    requires count >= 0.0
    ensures a.score == ScoreOf(permit, insurance, fitness, count, blacklisted)
    ensures a.factors == FactorsOf(permit, insurance, fitness, count, blacklisted)
    ensures a.signals == if a.factors == [] then [NoSignals]
            else SignalsOf(permit, insurance, fitness, count, blacklisted)
    ensures a.factors != [] ==> a.score == Sum(a.factors)
  {
    var factors: seq<Factor>, signals: seq<Signal> := [], [];
    factors, signals := MaybePush(factors, signals, permit, Factor("permit_validity", 24.0, 24.0), PermitInvalid);
    factors, signals := MaybePush(factors, signals, insurance, Factor("insurance_validity", 20.0, 20.0),
                                  InsuranceInvalid);
    factors, signals := MaybePush(factors, signals, fitness, Factor("fitness_validity", 18.0, 18.0), FitnessInvalid);
    var contribution := if count * 4.0 < 22.0 then count * 4.0 else 22.0;
    factors, signals := MaybePush(factors, signals, count > 0.0, Factor("violation_history", 22.0, contribution),
                                  Violations(count));
    factors, signals := MaybePush(factors, signals, blacklisted, Factor("enforcement_flags", 16.0, 16.0), Blacklisted);
    FactorsAddUp(permit, insurance, fitness, count, blacklisted);
    var computed := AddUp(factors);
    var raw := computed + (if |factors| == 0 then 8.0 else 0.0);
    var floored := if raw > 0.0 then raw else 0.0;
    a := Assessment(if floored < 100.0 then floored else 100.0,
                    if |signals| > 0 then signals else [NoSignals], factors);
  }

  /** buildWeightedRiskAssessment: the answers are read off the snapshot and weighed. */
  method BuildWeightedRiskAssessment(snapshot: Json, number: NumberOf) returns (a: Assessment)
    ensures a.score == Score(snapshot, number)
    ensures a.factors != [] ==> a.score == Sum(a.factors)
    ensures !snapshot.JObj? ==> a.signals == [SnapshotMissing]
    ensures snapshot.JObj? && a.factors != [] ==>
            a.signals == SignalsOf(Invalid(snapshot, Permit), Invalid(snapshot, Insurance), Invalid(snapshot, Fitness),
                                   ViolationCount(snapshot, number), IsBlacklisted(snapshot))
    ensures a.factors == [] ==> a.signals == [NoSignals]
  {
    if !snapshot.JObj? {
      a := Assessment(10.0, [SnapshotMissing], [Factor("data_quality", 10.0, 10.0)]);
      assert a.factors[..0] == [];
      return;
    }
    var permit := PickNestedValue(snapshot, Paths(Permit));
    var insurance := PickNestedValue(snapshot, Paths(Insurance));
    var fitness := PickNestedValue(snapshot, Paths(Fitness));
    var picked := PickNestedValue(snapshot, ViolationPaths());
    var read := AsFiniteNumber(picked, number);
    var blacklist := PickNestedValue(snapshot, BlacklistPaths());
    a := Weigh(AsBoolean(permit) == Some(false), AsBoolean(insurance) == Some(false), AsBoolean(fitness) == Some(false),
               if read.Some? && read.value > 0.0 then read.value else 0.0, AsBoolean(blacklist) == Some(true));
  }

  method AddUp(factors: seq<Factor>) returns (sum: real)
    ensures sum == Sum(factors)
  {
    sum := 0.0;
    for i := 0 to |factors|
      invariant sum == Sum(factors[..i])
    {
      assert factors[..i + 1] == factors[..i] + [factors[i]];
      SumSnoc(factors[..i], factors[i]);
      sum := sum + factors[i].contribution;
    }
    assert factors[..|factors|] == factors;
  }

  lemma SumSnoc(factors: seq<Factor>, f: Factor)
    ensures Sum(factors + [f]) == Sum(factors) + f.contribution
  {
    assert (factors + [f])[..|factors|] == factors;
  }

  /** Every signal is raised exactly for its own reason. */
  lemma SignalsExactly(permit: bool, insurance: bool, fitness: bool, violations: real, blacklisted: bool, s: Signal)
    ensures s in SignalsOf(permit, insurance, fitness, violations, blacklisted) <==>
            match s
            case PermitInvalid => permit
            case InsuranceInvalid => insurance
            case FitnessInvalid => fitness
            case Violations(n) => n == violations && n > 0.0
            case Blacklisted => blacklisted
            case _ => false
  {
  }

  // ------------------------------------------------------------------ reader meets writer

  lemma PickNone(root: Json, paths: seq<seq<string>>)
    requires forall p :: p in paths ==> Follow(root, p).None?
    ensures PickNested(root, paths).None?
  {
  }

  lemma {:induction false} PickLast(root: Json, earlier: seq<seq<string>>, last: seq<string>)
    requires forall p :: p in earlier ==> Follow(root, p).None?
    ensures PickNested(root, earlier + [last]) == Follow(root, last)
  {
    if earlier == [] {
      assert (earlier + [last])[1..] == [];
    } else {
      PickLast(root, earlier[1..], last);
      assert (earlier + [last])[1..] == earlier[1..] + [last];
    }
  }

  /** None of the fields the merge writes at the top is one the reader's other paths start from. */
  lemma OtherPathsMiss(sources: Object, kind: string, at: string, compliance: Object, path: seq<string>)
    requires path in ViolationPaths() || path in BlacklistPaths() || exists k :: path in EarlierPaths(k)
    ensures Follow(Snapshot(sources, kind, at, compliance), path).None?
  {
    var s := Snapshot(sources, kind, at, compliance);
    assert |"sources"| == 7 && |"lastIngestKind"| == 14 && |"lastIngestAt"| == 12 && |"compliance"| == 10;
    assert "sources"[0] == 's' && "lastIngestKind"[0] == 'l' && "lastIngestAt"[0] == 'l' && "compliance"[0] == 'c';
    assert path[0] !in s.fields by {
      assert path[0][0] != 's' && path[0][0] != 'l';
      assert path[0][0] == 'c' ==> |path[0]| != 10;
    }
  }

  lemma ComplianceIsRead(sources: Object, kind: string, at: string, compliance: Object, key: string)
    ensures Follow(Snapshot(sources, kind, at, compliance), ["compliance", key]) == Get(compliance, key)
  {
    var s, path := Snapshot(sources, kind, at, compliance), ["compliance", key];
    assert path[1..] == [key] && [key][1..] == [];
    assert s.fields["compliance"] == JObj(compliance);
    assert Follow(s, path) == Follow(JObj(compliance), [key]);
    if key in compliance { assert Follow(compliance[key], []) == Some(compliance[key]); }
  }

  lemma InvalidIsLastInvalid(log: seq<Ingest>, reg: string, k: Kind)
    requires k != Registration && Newest(Deposits(log), reg).Some?
    ensures Invalid(Expected(Deposits(log), reg).value, k) <==> LastInvalid(log, reg, k)
  {
    var d := Deposits(log);
    var newest := Newest(d, reg).value;
    var sources, compliance := SourcesOf(d, reg), ComplianceOf(d, reg);
    var s := Snapshot(sources, KindName(newest.kind), newest.at, compliance);
    forall p | p in EarlierPaths(k) ensures Follow(s, p).None? {
      OtherPathsMiss(sources, KindName(newest.kind), newest.at, compliance, p);
    }
    PickLast(s, EarlierPaths(k), ["compliance", ValidKey(k)]);
    ComplianceIsRead(sources, KindName(newest.kind), newest.at, compliance, ValidKey(k));
    ComplianceSaysLast(log, reg, k);
  }

  lemma NothingElseCounts(log: seq<Deposit>, reg: string, number: NumberOf)
    requires Newest(log, reg).Some?
    ensures ViolationCount(Expected(log, reg).value, number) == 0.0 && !IsBlacklisted(Expected(log, reg).value)
  {
    var newest := Newest(log, reg).value;
    var s := Expected(log, reg).value;
    forall p | p in ViolationPaths() || p in BlacklistPaths() ensures Follow(s, p).None? {
      OtherPathsMiss(SourcesOf(log, reg), KindName(newest.kind), newest.at, ComplianceOf(log, reg), p);
    }
    PickNone(s, ViolationPaths());
    PickNone(s, BlacklistPaths());
  }

  /** 24, 20 and 18 for what is not in order, or 8. */
  function IngestScore(permit: bool, insurance: bool, fitness: bool): real {
    if !permit && !insurance && !fitness then 8.0
    else (if permit then 24.0 else 0.0) + (if insurance then 20.0 else 0.0) + (if fitness then 18.0 else 0.0)
  }

  lemma IngestScoreIsScore(permit: bool, insurance: bool, fitness: bool)
    ensures ScoreOf(permit, insurance, fitness, 0.0, false) == IngestScore(permit, insurance, fitness)
  {
  }

  /**
   * After any serial run of ingests from an empty table, the score a vehicle gets is 24, 20 and 18
   * summed over the permit, insurance and fitness kinds whose last payload does not show a valid
   * one, or 8.
   */
  lemma ScoreSaysLastIngests(log: seq<Ingest>, reg: string, number: NumberOf)
    requires reg != ""
    ensures var stored := Get(Replay(Deposits(log)), reg);
            && (stored.None? <==> forall n :: 0 <= n < |log| ==> VehicleReg(log[n]) != reg)
            && (stored.Some? ==> Score(stored.value, number) ==
                                 IngestScore(LastInvalid(log, reg, Permit), LastInvalid(log, reg, Insurance),
                                             LastInvalid(log, reg, Fitness)))
  {
    var d := Deposits(log);
    DepositsAreOwn(log);
    SnapshotIsLastOfEachKind(d, reg);
    NewestDeposit(log, reg);
    if Newest(d, reg).Some? {
      InvalidIsLastInvalid(log, reg, Permit);
      InvalidIsLastInvalid(log, reg, Insurance);
      InvalidIsLastInvalid(log, reg, Fitness);
      NothingElseCounts(d, reg, number);
      IngestScoreIsScore(LastInvalid(log, reg, Permit), LastInvalid(log, reg, Insurance),
                         LastInvalid(log, reg, Fitness));
    }
  }

  /** The penalties of different sets of invalid kinds differ, and even all three stay below the high tier. */
  lemma PenaltiesAreDistinct(p: bool, n: bool, f: bool, p': bool, n': bool, f': bool)
    ensures IngestScore(p, n, f) == IngestScore(p', n', f') <==> p == p' && n == n' && f == f'
    ensures TierOf(IngestScore(p, n, f)) != High
    ensures TierOf(IngestScore(p, n, f)) == Low <==> !(p && n) && !(p && f) && !(n && f)
  {
  }

  /** So the score alone tells which kinds are invalid, and ingests alone never reach the high tier. */
  lemma ScoreTellsKinds(log: seq<Ingest>, reg: string, other: seq<Ingest>, otherReg: string, number: NumberOf)
    requires reg != "" && otherReg != ""
    ensures var a, b := Get(Replay(Deposits(log)), reg), Get(Replay(Deposits(other)), otherReg);
            && (a.Some? && b.Some? ==>
                (Score(a.value, number) == Score(b.value, number) <==>
                 && LastInvalid(log, reg, Permit) == LastInvalid(other, otherReg, Permit)
                 && LastInvalid(log, reg, Insurance) == LastInvalid(other, otherReg, Insurance)
                 && LastInvalid(log, reg, Fitness) == LastInvalid(other, otherReg, Fitness)))
            && (a.Some? ==> TierOf(Score(a.value, number)) != High)
  {
    ScoreSaysLastIngests(log, reg, number);
    ScoreSaysLastIngests(other, otherReg, number);
    PenaltiesAreDistinct(LastInvalid(log, reg, Permit), LastInvalid(log, reg, Insurance),
                         LastInvalid(log, reg, Fitness), LastInvalid(other, otherReg, Permit),
                         LastInvalid(other, otherReg, Insurance), LastInvalid(other, otherReg, Fitness));
  }

  // ------------------------------------------------------------------ which row the reader asks for

  function AskedReg(query: string): string { Upper(Trim(query)) }

  function StoredReg(text: string): string { Reg(Some(JStr(text))) }

  lemma {:induction false} RemoveSpacesKeeps(s: string)
    ensures |RemoveSpaces(s)| <= |s|
    ensures RemoveSpaces(s) == s <==> forall i :: 0 <= i < |s| ==> !IsSpace(s[i])
  {
    if s != [] {
      RemoveSpacesKeeps(s[1..]);
      if !IsSpace(s[0]) {
        assert RemoveSpaces(s) == s <==> RemoveSpaces(s[1..]) == s[1..] by {
          assert RemoveSpaces(s) == [s[0]] + RemoveSpaces(s[1..]);
          assert s == [s[0]] + s[1..];
          assert RemoveSpaces(s)[1..] == RemoveSpaces(s[1..]);
        }
        assert forall i :: 1 <= i < |s| ==> s[i] == s[1..][i - 1];
        assert (forall i :: 0 <= i < |s| ==> !IsSpace(s[i])) <==>
               (forall i :: 0 <= i < |s[1..]| ==> !IsSpace(s[1..][i])) by {
          assert forall i :: 0 <= i < |s[1..]| ==> s[1..][i] == s[i + 1];
        }
      }
    }
  }

  /**
   * The reader trims and raises case, the writer also drops inner spaces: a query spelled like the
   * payload's registration finds the vehicle's row exactly when it has no space inside.
   */
  lemma ReaderFindsWriterRow(text: string)
    ensures AskedReg(text) == StoredReg(text) <==> forall i :: 0 <= i < |Trim(text)| ==> !IsSpace(Trim(text)[i])
  {
    CapitalsKeepSpaces(Trim(text));
  }

  lemma CapitalsKeepSpaces(t: string)
    ensures RemoveSpaces(Upper(t)) == Upper(t) <==> forall i :: 0 <= i < |t| ==> !IsSpace(t[i])
  {
    RemoveSpacesKeeps(Upper(t));
    UpperKeepsSpaces(t);
  }

  lemma UpperKeepsSpaces(t: string)
    ensures |Upper(t)| == |t| && forall i :: 0 <= i < |t| ==> (IsSpace(Upper(t)[i]) <==> IsSpace(t[i]))
  {
    forall i | 0 <= i < |t| ensures IsSpace(Upper(t)[i]) <==> IsSpace(t[i]) { UpperKeepsSpace(t[i]); }
  }

  lemma UpperKeepsSpace(c: char)
    ensures IsSpace(UpperChar(c)) <==> IsSpace(c)
  {
  }
}
