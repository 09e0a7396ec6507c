/** Parsed JSON values and the field readers of the worker and the Nest service. */
module Json {
  import opened Basics
  import opened Strings

  datatype Json =
    | JNull
    | JBool(b: bool)
    | JNum(n: real)
    | JStr(s: string)
    | JArr(items: seq<Json>)
    | JObj(fields: map<string, Json>)

  type Object = map<string, Json>

  /** An absent field reads as None. */
  function Get(o: Object, key: string): Option<Json> { if key in o then Some(o[key]) else None }

  function PickFirst(o: Object, candidates: seq<string>): Option<Json> {
    if candidates == [] then None
    else if candidates[0] in o then Some(o[candidates[0]])
    else PickFirst(o, candidates[1..])
  }

  function AsTrimmedString(v: Option<Json>): string {
    if v.Some? && v.value.JStr? then Trim(v.value.s) else ""
  }

  function AsRecord(v: Option<Json>): Object { if v.Some? && v.value.JObj? then v.value.fields else map[] }

  // What the readers find, read off the object itself.

  /** The i-th name is the first of these that the object has. */
  ghost predicate FirstPresent(o: Object, names: seq<string>, i: nat) {
    i < |names| && names[i] in o && forall j :: 0 <= j < i ==> names[j] !in o
  }

  /** The text a field yields: what its first present name holds, trimmed, and nothing when that is no text. */
  ghost predicate TextAt(o: Object, names: seq<string>, t: string) {
    if exists i: nat :: FirstPresent(o, names, i) && o[names[i]].JStr?
    then exists i: nat :: FirstPresent(o, names, i) && o[names[i]].JStr? && t == Trim(o[names[i]].s)
    else t == ""
  }

  ghost function ObjectAt(o: Object, key: string): Object {
    if key in o && o[key].JObj? then o[key].fields else map[]
  }

  lemma {:induction false} PickFirstExactly(o: Object, names: seq<string>)
    ensures forall i: nat :: FirstPresent(o, names, i) ==> PickFirst(o, names) == Some(o[names[i]])
    ensures PickFirst(o, names).None? <==> forall n :: n in names ==> n !in o
    ensures PickFirst(o, names).Some? ==> exists i: nat :: FirstPresent(o, names, i)
  {
    if names == [] {
    } else if names[0] in o {
      assert FirstPresent(o, names, 0);
    } else {
      var rest := names[1..];
      PickFirstExactly(o, rest);
      forall i: nat | FirstPresent(o, names, i) ensures PickFirst(o, names) == Some(o[names[i]]) {
        assert forall j :: 0 <= j < i - 1 ==> rest[j] == names[j + 1];
        assert FirstPresent(o, rest, i - 1);
      }
      assert forall n :: n in names <==> n == names[0] || n in rest;
      if i: nat :| FirstPresent(o, rest, i) {
        assert forall j :: 0 < j < i + 1 ==> names[j] == rest[j - 1];
        assert FirstPresent(o, names, i + 1);
      }
    }
  }

  lemma FirstIsOne(o: Object, names: seq<string>, i: nat, j: nat)
    requires FirstPresent(o, names, i) && FirstPresent(o, names, j)
    ensures i == j
  {
  }

  lemma TextAtFirst(o: Object, names: seq<string>, i: nat, t: string)
    requires FirstPresent(o, names, i)
    ensures TextAt(o, names, t) <==> t == AsTrimmedString(Some(o[names[i]]))
  {
    forall j: nat | FirstPresent(o, names, j) ensures j == i { FirstIsOne(o, names, i, j); }
  }

  /** asTrimmedString(pickFirst(o, names)) is that text, and no other text is. */
  lemma TextAtExactly(o: Object, names: seq<string>, t: string)
    ensures TextAt(o, names, t) <==> t == AsTrimmedString(PickFirst(o, names))
  {
    PickFirstExactly(o, names);
    if i: nat :| FirstPresent(o, names, i) { TextAtFirst(o, names, i, t); }
  }

  /** s || null */
  function OrNull(s: string): Json { if s == "" then JNull else JStr(s) }

  /** The value at the end of a key path, if every step exists. */
  function Follow(v: Json, path: seq<string>): Option<Json> {
    if path == [] then Some(v)
    else if v.JObj? && path[0] in v.fields then Follow(v.fields[path[0]], path[1..])
    else None
  }

  function PickNested(root: Json, paths: seq<seq<string>>): Option<Json> {
    if paths == [] then None
    else
      var found := Follow(root, paths[0]);
      if found.Some? then found else PickNested(root, paths[1..])
  }

  /** pickNestedValue as the source runs it: for each path, one key at a time. */
  method PickNestedValue(root: Json, paths: seq<seq<string>>) returns (found: Option<Json>)
    ensures found == PickNested(root, paths)
  {
    var i := 0;
    while i < |paths|
      invariant 0 <= i <= |paths|
      invariant PickNested(root, paths) == PickNested(root, paths[i..])
    {
      var cur, ok, j := root, true, 0;
      var path := paths[i];
      while ok && j < |path|
        invariant 0 <= j <= |path|
        invariant ok ==> Follow(root, path) == Follow(cur, path[j..])
        invariant !ok ==> Follow(root, path) == None
      {
        assert path[j..][1..] == path[j + 1..];
        if cur.JObj? && path[j] in cur.fields {
          cur := cur.fields[path[j]];
        } else {
          ok := false;
        }
        j := j + 1;
      }
      if ok { return Some(cur); }
      assert paths[i..][1..] == paths[i + 1..];
      i := i + 1;
    }
    found := None;
  }
}

/**
 * The merged compliance snapshot: written per ingest by apps/worker-ingest/src/persistJobArtifacts.js
 * and read by the risk score of apps/api-nest/src/vehicle.service.ts.
 */
module ComplianceSnapshot {
  import opened Basics
  import opened Strings
  import opened Json

  // ------------------------------------------------------------------ the writer

  /** The job kinds that merge into the snapshot. */
  datatype Kind = Permit | Insurance | Fitness | Registration

  function KindName(k: Kind): string {
    match k
    case Permit => "vehicle_permit_snapshot"
    case Insurance => "vehicle_insurance_snapshot"
    case Fitness => "vehicle_fitness_snapshot"
    case Registration => "vehicle_registration_snapshot"
  }

  /** One persisted job: its stored payload, its ids, the parsed portal page, and the clock. */
  datatype Ingest = Ingest(kind: Kind, jobId: string, payload: Object, htmlProbe: Json, at: string)

  function RemoveSpaces(s: string): string {
    if s == [] then [] else (if IsSpace(s[0]) then [] else [s[0]]) + RemoveSpaces(s[1..])
  }

  /** normalizeVehicleReg */
  function Reg(v: Option<Json>): string {
    if v.Some? && v.value.JStr? then RemoveSpaces(Upper(Trim(v.value.s))) else ""
  }

  function VehicleReg(i: Ingest): string { Reg(Get(i.payload, "vehicleRegNo")) }

  function Correlation(p: Object): string {
    var v := Get(p, "correlationId");
    if v.Some? && v.value.JStr? then v.value.s else ""
  }

  function CorrelationId(i: Ingest): string { Correlation(i.payload) }

  function Text(o: Object, candidates: seq<string>): Json { OrNull(AsTrimmedString(PickFirst(o, candidates))) }

  function StatusJson(status: string): Json {
    if status == "" then JNull else JBool(status == "valid" || status == "active")
  }

  function PermitStatus(o: Object): string { Lower(AsTrimmedString(PickFirst(o, ["status", "permitStatus", "state"]))) }

  function InsuranceStatus(o: Object): string {
    Lower(AsTrimmedString(PickFirst(o, ["status", "insuranceStatus", "state"])))
  }

  function FitnessUntil(o: Object): string {
    AsTrimmedString(PickFirst(o, ["validUntil", "expiryDate", "fitnessUpto"]))
  }

  /** A text field of a normalised record is named after the first of the names it is looked up by. */
  type FieldNames = seq<seq<string>>

  predicate NonEmptyNames(names: FieldNames) { forall i :: 0 <= i < |names| ==> names[i] != [] }

  function Texts(o: Object, names: FieldNames): Object
    requires NonEmptyNames(names)
  {
    if names == [] then map[] else Texts(o, names[..|names| - 1])[names[|names| - 1][0] := Text(o, names[|names| - 1])]
  }

  function PermitNames(): FieldNames {
    [["permitNo", "permitNumber"], ["permitType", "type"], ["validFrom", "issueDate"], ["validUntil", "expiryDate"]]
  }

  function InsuranceNames(): FieldNames {
    [["policyNo", "policyNumber", "insuranceNo"], ["provider", "company", "insurer"], ["validFrom", "issueDate"],
     ["validUntil", "expiryDate"]]
  }

  function FitnessNames(): FieldNames {
    [["status", "state"], ["validUntil", "expiryDate", "fitnessUpto"], ["issuer", "authority"]]
  }

  function RegistrationNames(): FieldNames {
    [["ownerName", "owner", "registeredOwner"], ["vehicleClass", "class"], ["fuelType", "fuel"],
     ["registrationDate", "registeredAt"], ["status"]]
  }

  function Judged(status: string): Object { map["status" := OrNull(status), "isValid" := StatusJson(status)] }

  predicate FitnessValid(o: Object) {
    Lower(AsTrimmedString(PickFirst(o, ["status"]))) == "valid" || FitnessUntil(o) != ""
  }

  function PermitRecord(o: Object): Object { Texts(o, PermitNames()) + Judged(PermitStatus(o)) }

  function InsuranceRecord(o: Object): Object { Texts(o, InsuranceNames()) + Judged(InsuranceStatus(o)) }

  function Flag(valid: bool): Object { map["isValid" := JBool(valid)] }

  function FitnessRecord(o: Object): Object { Texts(o, FitnessNames()) + Flag(FitnessValid(o)) }

  function RegistrationRecord(o: Object): Object { Texts(o, RegistrationNames()) }

  /** The normalised record of one kind. */
  function Normalised(k: Kind, o: Object): Object {
    match k
    case Permit => PermitRecord(o) case Insurance => InsuranceRecord(o)
    case Fitness => FitnessRecord(o) case Registration => RegistrationRecord(o)
  }

  function Record(i: Ingest): Object { Normalised(i.kind, AsRecord(Get(i.payload, Section(i.kind)))) }

  function Section(k: Kind): string {
    match k
    case Permit => "permit"
    case Insurance => "insurance"
    case Fitness => "fitness"
    case Registration => "registration"
  }

  function Artifact(i: Ingest): Object {
    map["scrapeJobKind" := JStr(KindName(i.kind)), "vehicleRegNo" := JStr(VehicleReg(i)),
        "correlationId" := JStr(CorrelationId(i)), "htmlProbe" := i.htmlProbe][Section(i.kind) := JObj(Record(i))]
  }

  /** Fields of a record that are null or absent are not valid. */
  function IsTrue(v: Option<Json>): bool { v == Some(JBool(true)) }

  function Stamp(i: Ingest): Json {
    JObj(map["scrapeJobId" := JStr(i.jobId), "correlationId" := JStr(CorrelationId(i)),
             "at" := JStr(i.at), "payload" := JObj(Artifact(i))])
  }

  function ValidKey(k: Kind): string {
    match k
    case Permit => "permitValid"
    case Insurance => "insuranceValid"
    case Fitness => "fitnessValid"
    case Registration => ""
  }

  function StatusKey(k: Kind): string {
    match k
    case Permit => "permitStatus"
    case Insurance => "insuranceStatus"
    case Fitness => "fitnessStatus"
    case Registration => ""
  }

  function UntilKey(k: Kind): string {
    match k
    case Permit => "permitValidUntil" case Insurance => "insuranceValidUntil"
    case Fitness => "fitnessValidUntil" case Registration => ""
  }

  /** The three compliance fields a record contributes; registrations contribute none. */
  function PartFacts(k: Kind, part: Object): Object {
    if k == Registration then map[]
    else map[ValidKey(k) := JBool(IsTrue(Get(part, "isValid"))),
             StatusKey(k) := OrNull(AsTrimmedString(Get(part, "status"))),
             UntilKey(k) := OrNull(AsTrimmedString(Get(part, "validUntil")))]
  }

  function Facts(i: Ingest): Object { PartFacts(i.kind, AsRecord(Get(Artifact(i), Section(i.kind)))) }

  /** What one ingest hands to the merge: the vehicle, its stamp and its compliance fields. */
  datatype Deposit = Deposit(reg: string, kind: Kind, at: string, stamp: Json, facts: Object)

  function Prepare(i: Ingest): Deposit { Deposit(VehicleReg(i), i.kind, i.at, Stamp(i), Facts(i)) }

  function KeysOf(k: Kind): set<string> { if k == Registration then {} else {ValidKey(k), StatusKey(k), UntilKey(k)} }

  /** A deposit only carries the compliance fields of its own kind. */
  ghost predicate OwnFacts(d: Deposit) { d.facts.Keys == KeysOf(d.kind) }

  lemma PreparedOwnFacts(i: Ingest)
    ensures OwnFacts(Prepare(i))
  {
  }

  /** upsertComplianceMerge, with the stored snapshot given (an empty object when there is no row). */
  function Merge(stored: Object, d: Deposit): Json {
    var sources := AsRecord(Get(stored, "sources"))[KindName(d.kind) := d.stamp];
    var compliance := AsRecord(Get(stored, "compliance")) + d.facts;
    JObj(stored["sources" := JObj(sources)]["lastIngestKind" := JStr(KindName(d.kind))]
               ["lastIngestAt" := JStr(d.at)]["compliance" := JObj(compliance)])
  }

  /** The summary table: one snapshot per registration number. */
  type Table = map<string, Json>

  function Persist(t: Table, d: Deposit): Table {
    if d.reg == "" then t else t[d.reg := Merge(AsRecord(Get(t, d.reg)), d)]
  }

  function Replay(log: seq<Deposit>): Table {
    if log == [] then map[] else Persist(Replay(log[..|log| - 1]), log[|log| - 1])
  }

  // ------------------------------------------------------------------ what the snapshot must say

  /** The most recent deposit of a kind for a vehicle. */
  function LastOf(log: seq<Deposit>, reg: string, k: Kind): Option<Deposit> {
    if log == [] then None
    else
      var d := log[|log| - 1];
      if d.reg == reg && d.kind == k then Some(d) else LastOf(log[..|log| - 1], reg, k)
  }

  function Newest(log: seq<Deposit>, reg: string): Option<Deposit> {
    if log == [] then None
    else if log[|log| - 1].reg == reg then Some(log[|log| - 1]) else Newest(log[..|log| - 1], reg)
  }

  function StampOf(last: Option<Deposit>): Object {
    if last.None? then map[] else map[KindName(last.value.kind) := last.value.stamp]
  }

  function FactsOf(last: Option<Deposit>): Object { if last.None? then map[] else last.value.facts }

  function SourcesOf(log: seq<Deposit>, reg: string): Object {
    StampOf(LastOf(log, reg, Permit)) + StampOf(LastOf(log, reg, Insurance)) +
    StampOf(LastOf(log, reg, Fitness)) + StampOf(LastOf(log, reg, Registration))
  }

  function ComplianceOf(log: seq<Deposit>, reg: string): Object {
    FactsOf(LastOf(log, reg, Permit)) + FactsOf(LastOf(log, reg, Insurance)) + FactsOf(LastOf(log, reg, Fitness))
  }

  function Snapshot(sources: Object, kind: string, at: string, compliance: Object): Json {
    JObj(map["sources" := JObj(sources), "lastIngestKind" := JStr(kind), "lastIngestAt" := JStr(at),
             "compliance" := JObj(compliance)])
  }

  /** Each kind's last deposit under sources, and its facts under compliance; nothing else. */
  function Expected(log: seq<Deposit>, reg: string): Option<Json> {
    var newest := Newest(log, reg);
    if newest.None? then None
    else Some(Snapshot(SourcesOf(log, reg), KindName(newest.value.kind), newest.value.at, ComplianceOf(log, reg)))
  }

  lemma {:induction false} LastOfFacts(log: seq<Deposit>, reg: string, k: Kind)
    ensures var last := LastOf(log, reg, k);
            last.Some? ==> last.value.kind == k && last.value.reg == reg && last.value in log && Newest(log, reg).Some?
  {
    if log != [] { LastOfFacts(log[..|log| - 1], reg, k); }
  }

  lemma LastSnoc(log: seq<Deposit>, d: Deposit, reg: string, k: Kind)
    ensures LastOf(log + [d], reg, k) == if d.reg == reg && d.kind == k then Some(d) else LastOf(log, reg, k)
    ensures Newest(log + [d], reg) == if d.reg == reg then Some(d) else Newest(log, reg)
  {
    assert (log + [d])[..|log + [d]| - 1] == log;
  }

  /** The keys one kind writes are its own. */
  lemma KeysAreDistinct(a: Kind, b: Kind)
    requires a != b
    ensures KindName(a) != KindName(b) && KeysOf(a) !! KeysOf(b)
  {
    assert |KindName(Permit)| == 23 && |KindName(Insurance)| == 26 && |KindName(Fitness)| == 24 &&
           |KindName(Registration)| == 29;
    if a != Registration && b != Registration {
      assert ValidKey(a)[0] == Initial(a) && StatusKey(a)[0] == Initial(a) && UntilKey(a)[0] == Initial(a);
      assert ValidKey(b)[0] == Initial(b) && StatusKey(b)[0] == Initial(b) && UntilKey(b)[0] == Initial(b);
      assert forall key :: key in KeysOf(a) ==> key[0] == Initial(a);
      assert forall key :: key in KeysOf(b) ==> key[0] == Initial(b);
    }
  }

  function Initial(k: Kind): char {
    match k
    case Permit => 'p'
    case Insurance => 'i'
    case Fitness => 'f'
    case Registration => 'r'
  }

  /** Replacing one of four maps with disjoint single keys is updating their union. */
  lemma ReplaceInUnion(p: Object, n: Object, f: Object, r: Object, k: Kind, key: string, v: Json)
    requires k != Permit ==> key !in p
    requires k != Insurance ==> key !in n
    requires k != Fitness ==> key !in f
    requires k != Registration ==> key !in r
    requires (if k == Permit then p else if k == Insurance then n else if k == Fitness then f else r).Keys <= {key}
    ensures (p + n + f + r)[key := v] ==
            (if k == Permit then map[key := v] else p) + (if k == Insurance then map[key := v] else n) +
            (if k == Fitness then map[key := v] else f) + (if k == Registration then map[key := v] else r)
  {
  }

  lemma SourcesStep(log: seq<Deposit>, d: Deposit)
    ensures SourcesOf(log + [d], d.reg) == SourcesOf(log, d.reg)[KindName(d.kind) := d.stamp]
  {
    forall k: Kind ensures LastOf(log + [d], d.reg, k) == (if d.kind == k then Some(d) else LastOf(log, d.reg, k)) {
      LastSnoc(log, d, d.reg, k);
    }
    forall k: Kind ensures StampOf(LastOf(log, d.reg, k)).Keys <= {KindName(k)} { LastOfFacts(log, d.reg, k); }
    forall k: Kind | k != d.kind ensures KindName(k) != KindName(d.kind) { KeysAreDistinct(k, d.kind); }
    ReplaceInUnion(StampOf(LastOf(log, d.reg, Permit)), StampOf(LastOf(log, d.reg, Insurance)),
                   StampOf(LastOf(log, d.reg, Fitness)), StampOf(LastOf(log, d.reg, Registration)),
                   d.kind, KindName(d.kind), d.stamp);
  }

  lemma ReplaceFacts(p: Object, n: Object, f: Object, k: Kind, v: Object)
    requires k != Permit ==> v.Keys !! p.Keys
    requires k != Insurance ==> v.Keys !! n.Keys
    requires k != Fitness ==> v.Keys !! f.Keys
    requires (if k == Permit then p else if k == Insurance then n else if k == Fitness then f else v).Keys <= v.Keys
    ensures p + n + f + v ==
            (if k == Permit then v else p) + (if k == Insurance then v else n) + (if k == Fitness then v else f) +
            (if k == Registration then v else map[])
  {
  }

  lemma FactsStep(log: seq<Deposit>, d: Deposit, k: Kind)
    requires OwnFacts(d) && forall e :: e in log ==> OwnFacts(e)
    ensures FactsOf(LastOf(log + [d], d.reg, k)) == if d.kind == k then d.facts else FactsOf(LastOf(log, d.reg, k))
    ensures FactsOf(LastOf(log, d.reg, k)).Keys <= KeysOf(k) && (k != d.kind ==> KeysOf(k) !! KeysOf(d.kind))
  {
    LastSnoc(log, d, d.reg, k);
    LastOfFacts(log, d.reg, k);
    if k != d.kind { KeysAreDistinct(k, d.kind); }
  }

  lemma ComplianceStep(log: seq<Deposit>, d: Deposit)
    requires OwnFacts(d) && forall e :: e in log ==> OwnFacts(e)
    ensures ComplianceOf(log + [d], d.reg) == ComplianceOf(log, d.reg) + d.facts
  {
    FactsStep(log, d, Permit);
    FactsStep(log, d, Insurance);
    FactsStep(log, d, Fitness);
    ReplaceFacts(FactsOf(LastOf(log, d.reg, Permit)), FactsOf(LastOf(log, d.reg, Insurance)),
                 FactsOf(LastOf(log, d.reg, Fitness)), d.kind, d.facts);
  }

  lemma MergeSnapshot(sources: Object, kind: string, at: string, compliance: Object, d: Deposit)
    ensures Merge(Snapshot(sources, kind, at, compliance).fields, d) ==
            Snapshot(sources[KindName(d.kind) := d.stamp], KindName(d.kind), d.at, compliance + d.facts)
    ensures Merge(map[], d) == Snapshot(map[][KindName(d.kind) := d.stamp], KindName(d.kind), d.at, map[] + d.facts)
  {
    assert |"sources"| == 7 && |"lastIngestKind"| == 14 && |"lastIngestAt"| == 12 && |"compliance"| == 10;
  }

  lemma ExpectedStep(log: seq<Deposit>, d: Deposit)
    requires OwnFacts(d) && forall e :: e in log ==> OwnFacts(e)
    ensures var stored := if Expected(log, d.reg).None? then map[] else Expected(log, d.reg).value.fields;
            Expected(log + [d], d.reg) == Some(Merge(stored, d))
  {
    SourcesStep(log, d);
    ComplianceStep(log, d);
    LastSnoc(log, d, d.reg, d.kind);
    if Newest(log, d.reg).None? {
      forall k: Kind ensures LastOf(log, d.reg, k).None? { LastOfFacts(log, d.reg, k); }
      assert SourcesOf(log, d.reg) == map[] && ComplianceOf(log, d.reg) == map[];
      MergeSnapshot(map[], "", "", map[], d);
    } else {
      var n := Newest(log, d.reg).value;
      MergeSnapshot(SourcesOf(log, d.reg), KindName(n.kind), n.at, ComplianceOf(log, d.reg), d);
    }
  }

  /** After any serial run of ingests, every vehicle's snapshot is exactly what its last ingests say. */
  lemma {:induction false} SnapshotIsLastOfEachKind(log: seq<Deposit>, reg: string)
    requires reg != "" && forall e :: e in log ==> OwnFacts(e)
    ensures Get(Replay(log), reg) == Expected(log, reg)
  {
    if log == [] {
    } else {
      var before, d := log[..|log| - 1], log[|log| - 1];
      SnapshotIsLastOfEachKind(before, reg);
      assert log == before + [d];
      if d.reg == reg {
        ExpectedStep(before, d);
      } else {
        forall k: Kind ensures LastOf(log, reg, k) == LastOf(before, reg, k) { LastSnoc(before, d, reg, k); }
        LastSnoc(before, d, reg, Permit);
      }
    }
  }

  /** Ingests of different kinds commute, apart from which of them was the last. */
  lemma KindsCommute(stored: Object, a: Deposit, b: Deposit)
    requires a.kind != b.kind && OwnFacts(a) && OwnFacts(b)
    ensures Merge(Merge(stored, a).fields, b).fields - {"lastIngestKind", "lastIngestAt"} ==
            Merge(Merge(stored, b).fields, a).fields - {"lastIngestKind", "lastIngestAt"}
  {
    KeysAreDistinct(a.kind, b.kind);
    var s, c := AsRecord(Get(stored, "sources")), AsRecord(Get(stored, "compliance"));
    assert s[KindName(a.kind) := a.stamp][KindName(b.kind) := b.stamp] ==
           s[KindName(b.kind) := b.stamp][KindName(a.kind) := a.stamp];
    assert c + a.facts + b.facts == c + b.facts + a.facts;
    MergeTwice(stored, a, b);
    MergeTwice(stored, b, a);
    StampsDiffer(stored, JObj(s[KindName(a.kind) := a.stamp][KindName(b.kind) := b.stamp]), JObj(c + a.facts + b.facts),
                 JStr(KindName(a.kind)), JStr(a.at), JStr(KindName(b.kind)), JStr(b.at));
  }

  lemma StampsDiffer(stored: Object, sources: Json, compliance: Json, k1: Json, t1: Json, k2: Json, t2: Json)
    ensures stored["sources" := sources]["lastIngestKind" := k1]["lastIngestAt" := t1]["compliance" := compliance]
            - {"lastIngestKind", "lastIngestAt"} ==
            stored["sources" := sources]["lastIngestKind" := k2]["lastIngestAt" := t2]["compliance" := compliance]
            - {"lastIngestKind", "lastIngestAt"}
  {
    assert |"sources"| == 7 && |"lastIngestKind"| == 14 && |"lastIngestAt"| == 12 && |"compliance"| == 10;
  }

  lemma MergeTwice(stored: Object, a: Deposit, b: Deposit)
    ensures Merge(Merge(stored, a).fields, b).fields ==
            stored["sources" := JObj(AsRecord(Get(stored, "sources"))
                                     [KindName(a.kind) := a.stamp][KindName(b.kind) := b.stamp])]
                  ["lastIngestKind" := JStr(KindName(b.kind))]["lastIngestAt" := JStr(b.at)]
                  ["compliance" := JObj(AsRecord(Get(stored, "compliance")) + a.facts + b.facts)]
  {
    assert |"sources"| == 7 && |"lastIngestKind"| == 14 && |"lastIngestAt"| == 12 && |"compliance"| == 10;
  }

  // ------------------------------------------------------------------ the merge, assigned field by field

  /** The compliance summary table, as upsertComplianceMerge reads and writes it. */
  class SummaryTable {
    var rows: Table

    constructor () ensures rows == map[] { rows := map[]; }

    /** stamp is the source entry, part the artifact's own section. */
    method UpsertComplianceMerge(reg: string, kind: Kind, at: string, stamp: Json, part: Object)
      requires reg != ""
      modifies this
      ensures rows == Persist(old(rows), Deposit(reg, kind, at, stamp, PartFacts(kind, part)))
    {
      var base: Object := map[];
      if reg in rows && rows[reg].JObj? { base := rows[reg].fields; }
      var merged := MergeInto(base, kind, at, stamp, part);
      assert merged == Merge(base, Deposit(reg, kind, at, stamp, PartFacts(kind, part)));
      rows := rows[reg := merged];
    }
  }

  method MergeInto(stored: Object, kind: Kind, at: string, stamp: Json, part: Object) returns (merged: Json)
    ensures forall reg :: merged == Merge(stored, Deposit(reg, kind, at, stamp, PartFacts(kind, part)))
  {
    var base := stored;
    var sources: Object := map[];
    if "sources" in base && base["sources"].JObj? { sources := base["sources"].fields; }
    sources := sources[KindName(kind) := stamp];
    base := base["sources" := JObj(sources)];
    base := base["lastIngestKind" := JStr(KindName(kind))];
    base := base["lastIngestAt" := JStr(at)];
    var compliance: Object := map[];
    TopFieldsDiffer(stored, JObj(sources), JStr(KindName(kind)), JStr(at));
    if "compliance" in base && base["compliance"].JObj? { compliance := base["compliance"].fields; }
    compliance := AddFacts(compliance, kind, part);
    base := base["compliance" := JObj(compliance)];
    merged := JObj(base);
  }

  lemma TopFieldsDiffer(stored: Object, sources: Json, kind: Json, at: Json)
    ensures Get(stored["sources" := sources]["lastIngestKind" := kind]["lastIngestAt" := at], "compliance") ==
            Get(stored, "compliance")
  {
    assert |"sources"| == 7 && |"lastIngestKind"| == 14 && |"lastIngestAt"| == 12 && |"compliance"| == 10;
  }

  method AddFacts(compliance: Object, kind: Kind, part: Object) returns (facts: Object)
    ensures facts == compliance + PartFacts(kind, part)
  {
    facts := compliance;
    if kind != Registration {
      FieldByField(compliance, ValidKey(kind), JBool(IsTrue(Get(part, "isValid"))), StatusKey(kind),
                   OrNull(AsTrimmedString(Get(part, "status"))),
                   UntilKey(kind), OrNull(AsTrimmedString(Get(part, "validUntil"))));
      facts := facts[ValidKey(kind) := JBool(IsTrue(Get(part, "isValid")))];
      facts := facts[StatusKey(kind) := OrNull(AsTrimmedString(Get(part, "status")))];
      facts := facts[UntilKey(kind) := OrNull(AsTrimmedString(Get(part, "validUntil")))];
    }
  }

  lemma FieldByField(o: Object, k1: string, v1: Json, k2: string, v2: Json, k3: string, v3: Json)
    ensures o[k1 := v1][k2 := v2][k3 := v3] == o + map[k1 := v1, k2 := v2, k3 := v3]
  {
  }
}
