/**
 * What the compliance fields of a vehicle say about the payloads of its last ingests, read off the
 * payloads themselves (apps/worker-ingest/src/persistJobArtifacts.js).
 */
module ComplianceFacts {
  import opened Basics
  import opened Strings
  import opened Json
  import opened ComplianceSnapshot

  // ------------------------------------------------------------------ one payload

  /** The field's text is this, whatever its letter case. */
  ghost predicate Says(o: Object, names: seq<string>, text: string) {
    exists t :: TextAt(o, names, t) && Lower(t) == text
  }

  /** The payload does not show that the vehicle's permit, insurance or fitness is in order. */
  ghost predicate PayloadInvalid(i: Ingest) {
    match i.kind
    case Permit =>
      var permit := ObjectAt(i.payload, "permit");
      !Says(permit, ["status", "permitStatus", "state"], "valid") &&
      !Says(permit, ["status", "permitStatus", "state"], "active")
    case Insurance =>
      var insurance := ObjectAt(i.payload, "insurance");
      !Says(insurance, ["status", "insuranceStatus", "state"], "valid") &&
      !Says(insurance, ["status", "insuranceStatus", "state"], "active")
    case Fitness =>
      var fitness := ObjectAt(i.payload, "fitness");
      !Says(fitness, ["status"], "valid") && TextAt(fitness, ["validUntil", "expiryDate", "fitnessUpto"], "")
    case Registration => false
  }

  lemma SaysExactly(o: Object, names: seq<string>, text: string)
    ensures Says(o, names, text) <==> Lower(AsTrimmedString(PickFirst(o, names))) == text
  {
    var t := AsTrimmedString(PickFirst(o, names));
    TextAtExactly(o, names, t);
    forall u | TextAt(o, names, u) ensures u == t { TextAtExactly(o, names, u); }
  }

  lemma JudgedFields(texts: Object, status: string)
    ensures Get(texts + Judged(status), "isValid") == Some(StatusJson(status))
    ensures Get(texts + Judged(status), "status") == Some(OrNull(status))
  {
    assert |"status"| == 6 && |"isValid"| == 7;
  }

  lemma LiteralsDiffer()
    ensures "" != "valid" && "" != "active" && "valid" != "active"
  {
    assert |"valid"| == 5 && |"active"| == 6;
  }

  /** A record is marked valid exactly when its payload shows it. */
  lemma ValidExactly(i: Ingest)
    requires i.kind != Registration
    ensures IsTrue(Get(Record(i), "isValid")) <==> !PayloadInvalid(i)
  {
    var o := ObjectAt(i.payload, Section(i.kind));
    assert o == AsRecord(Get(i.payload, Section(i.kind)));
    LiteralsDiffer();
    match i.kind
    case Permit =>
      JudgedFields(Texts(o, PermitNames()), PermitStatus(o));
      SaysExactly(o, ["status", "permitStatus", "state"], "valid");
      SaysExactly(o, ["status", "permitStatus", "state"], "active");
    case Insurance =>
      JudgedFields(Texts(o, InsuranceNames()), InsuranceStatus(o));
      SaysExactly(o, ["status", "insuranceStatus", "state"], "valid");
      SaysExactly(o, ["status", "insuranceStatus", "state"], "active");
    case Fitness =>
      SaysExactly(o, ["status"], "valid");
      TextAtExactly(o, ["validUntil", "expiryDate", "fitnessUpto"], "");
    case Registration =>
  }

  /** The names under which a payload's section gives its status and its end date. */
  function StatusNames(k: Kind): seq<string> {
    match k
    case Permit => ["status", "permitStatus", "state"]
    case Insurance => ["status", "insuranceStatus", "state"]
    case Fitness => ["status", "state"]
    case Registration => []
  }

  function UntilNames(k: Kind): seq<string> {
    if k == Fitness then ["validUntil", "expiryDate", "fitnessUpto"] else ["validUntil", "expiryDate"]
  }

  /** The text a compliance field shows for a payload text: that text, in small letters for permit and insurance. */
  function Shown(k: Kind, t: string): string { if k == Fitness then t else Lower(t) }

  ghost predicate ShowsStatus(field: Option<Json>, k: Kind, o: Object) {
    exists t :: TextAt(o, StatusNames(k), t) && field == Some(OrNull(Shown(k, t)))
  }

  ghost predicate ShowsUntil(field: Option<Json>, k: Kind, o: Object) {
    exists t :: TextAt(o, UntilNames(k), t) && field == Some(OrNull(t))
  }

  /** The three compliance fields of a kind say what the payload says. */
  ghost predicate FactsOfPayload(facts: Object, i: Ingest) {
    && Get(facts, ValidKey(i.kind)) == Some(JBool(!PayloadInvalid(i)))
    && ShowsStatus(Get(facts, StatusKey(i.kind)), i.kind, ObjectAt(i.payload, Section(i.kind)))
    && ShowsUntil(Get(facts, UntilKey(i.kind)), i.kind, ObjectAt(i.payload, Section(i.kind)))
  }

  lemma LowerKept(s: string)
    requires s == "" || (!IsSpace(s[0]) && !IsSpace(s[|s| - 1]))
    ensures Trim(Lower(s)) == Lower(s)
  {
    if s != "" {
      assert Lower(s)[0] == LowerChar(s[0]) && Lower(s)[|s| - 1] == LowerChar(s[|s| - 1]);
    }
    TrimKeeps(Lower(s));
  }

  lemma LowerTrimmed(t: string)
    ensures Trim(Lower(Trim(t))) == Lower(Trim(t))
  {
    LowerKept(Trim(t));
  }

  lemma NullReadsBack(t: string)
    ensures AsTrimmedString(Some(OrNull(Trim(t)))) == Trim(t)
    ensures AsTrimmedString(Some(OrNull(Lower(Trim(t))))) == Lower(Trim(t))
  {
    TrimTwice(t);
    LowerTrimmed(t);
  }

  lemma PickedIsTrimmed(o: Object, names: seq<string>) returns (raw: string)
    ensures AsTrimmedString(PickFirst(o, names)) == Trim(raw)
  {
    var v := PickFirst(o, names);
    raw := if v.Some? && v.value.JStr? then v.value.s else "";
  }

  lemma PartKeys(k: Kind, part: Object)
    requires k != Registration
    ensures Get(PartFacts(k, part), ValidKey(k)) == Some(JBool(IsTrue(Get(part, "isValid"))))
    ensures Get(PartFacts(k, part), StatusKey(k)) == Some(OrNull(AsTrimmedString(Get(part, "status"))))
    ensures Get(PartFacts(k, part), UntilKey(k)) == Some(OrNull(AsTrimmedString(Get(part, "validUntil"))))
  {
    assert |ValidKey(Permit)| == 11 && |StatusKey(Permit)| == 12 && |UntilKey(Permit)| == 16;
    assert |ValidKey(Insurance)| == 14 && |StatusKey(Insurance)| == 15 && |UntilKey(Insurance)| == 19;
    assert |ValidKey(Fitness)| == 12 && |StatusKey(Fitness)| == 13 && |UntilKey(Fitness)| == 17;
  }

  /** What a text field of a record reads as, when no later field replaces it. */
  lemma TextField(o: Object, names: FieldNames, extra: Object, n: nat)
    requires NonEmptyNames(names) && n < |names| && names[n][0] !in extra
    requires forall j :: n < j < |names| ==> names[j][0] != names[n][0]
    ensures Get(Texts(o, names) + extra, names[n][0]) == Some(Text(o, names[n]))
    decreases |names|
  {
    if n < |names| - 1 { TextField(o, names[..|names| - 1], extra, n); }
  }

  lemma FieldPlaces()
    ensures NonEmptyNames(PermitNames()) && NonEmptyNames(InsuranceNames()) && NonEmptyNames(FitnessNames())
    ensures |PermitNames()| == 4 && PermitNames()[3] == ["validUntil", "expiryDate"]
    ensures |InsuranceNames()| == 4 && InsuranceNames()[3] == ["validUntil", "expiryDate"]
    ensures |FitnessNames()| == 3 && FitnessNames()[0] == ["status", "state"] &&
            FitnessNames()[1] == ["validUntil", "expiryDate", "fitnessUpto"] && FitnessNames()[2][0] == "issuer"
  {
  }

  lemma FieldsDiffer(status: string, valid: bool)
    ensures "validUntil" !in Judged(status) && "validUntil" !in Flag(valid) && "status" !in Flag(valid)
    ensures "status" != "validUntil" && "status" != "issuer" && "validUntil" != "issuer"
  {
    assert |"status"| == 6 && |"validUntil"| == 10 && |"issuer"| == 6 && |"isValid"| == 7;
    assert "issuer"[0] == 'i' && "status"[0] == 's';
  }

  lemma NamedField(o: Object, names: FieldNames, extra: Object, n: nat, own: seq<string>)
    requires NonEmptyNames(names) && n < |names| && names[n] == own && own[0] !in extra
    requires forall j :: n < j < |names| ==> names[j][0] != own[0]
    ensures Get(Texts(o, names) + extra, own[0]) == Some(Text(o, own))
  {
    TextField(o, names, extra, n);
  }

  lemma FitnessPlaces()
    ensures forall j :: 0 < j < |FitnessNames()| ==> FitnessNames()[j][0] != "status"
    ensures forall j :: 1 < j < |FitnessNames()| ==> FitnessNames()[j][0] != "validUntil"
  {
    FieldPlaces();
    FieldsDiffer("", true);
  }

  lemma FitnessStatusField(o: Object)
    ensures Get(FitnessRecord(o), "status") == Some(Text(o, ["status", "state"]))
  {
    FieldPlaces();
    FitnessPlaces();
    FieldsDiffer("", FitnessValid(o));
    NamedField(o, FitnessNames(), Flag(FitnessValid(o)), 0, ["status", "state"]);
  }

  lemma FitnessUntilField(o: Object)
    ensures Get(FitnessRecord(o), "validUntil") == Some(Text(o, ["validUntil", "expiryDate", "fitnessUpto"]))
  {
    FieldPlaces();
    FitnessPlaces();
    FieldsDiffer("", FitnessValid(o));
    NamedField(o, FitnessNames(), Flag(FitnessValid(o)), 1, ["validUntil", "expiryDate", "fitnessUpto"]);
  }

  lemma PermitUntilField(o: Object)
    ensures Get(PermitRecord(o), "validUntil") == Some(Text(o, ["validUntil", "expiryDate"]))
  {
    FieldPlaces();
    FieldsDiffer(PermitStatus(o), true);
    NamedField(o, PermitNames(), Judged(PermitStatus(o)), 3, ["validUntil", "expiryDate"]);
  }

  lemma InsuranceUntilField(o: Object)
    ensures Get(InsuranceRecord(o), "validUntil") == Some(Text(o, ["validUntil", "expiryDate"]))
  {
    FieldPlaces();
    FieldsDiffer(InsuranceStatus(o), true);
    NamedField(o, InsuranceNames(), Judged(InsuranceStatus(o)), 3, ["validUntil", "expiryDate"]);
  }

  lemma RecordStatus(k: Kind, o: Object)
    requires k != Registration
    ensures Get(Normalised(k, o), "status") ==
            Some(OrNull(Shown(k, AsTrimmedString(PickFirst(o, StatusNames(k))))))
  {
    match k
    case Permit => JudgedFields(Texts(o, PermitNames()), PermitStatus(o));
    case Insurance => JudgedFields(Texts(o, InsuranceNames()), InsuranceStatus(o));
    case Fitness => FitnessStatusField(o);
    case Registration =>
  }

  lemma RecordUntil(k: Kind, o: Object)
    requires k != Registration
    ensures Get(Normalised(k, o), "validUntil") == Some(OrNull(AsTrimmedString(PickFirst(o, UntilNames(k)))))
  {
    match k
    case Permit => PermitUntilField(o);
    case Insurance => InsuranceUntilField(o);
    case Fitness => FitnessUntilField(o);
    case Registration =>
  }

  /** A field that was read by these names and shown so reads back as that. */
  lemma ShownReadsBack(o: Object, names: seq<string>, k: Kind)
    ensures exists t :: TextAt(o, names, t) && t == AsTrimmedString(PickFirst(o, names)) &&
              AsTrimmedString(Some(OrNull(Shown(k, t)))) == Shown(k, t) && AsTrimmedString(Some(OrNull(t))) == t
  {
    var raw := PickedIsTrimmed(o, names);
    var t := Trim(raw);
    TextAtExactly(o, names, t);
    assert AsTrimmedString(Some(OrNull(Shown(k, t)))) == Shown(k, t) && AsTrimmedString(Some(OrNull(t))) == t by {
      NullReadsBack(raw);
    }
  }

  lemma StatusShown(k: Kind, o: Object)
    requires k != Registration
    ensures ShowsStatus(Some(OrNull(AsTrimmedString(Get(Normalised(k, o), "status")))), k, o)
  {
    RecordStatus(k, o);
    ShownReadsBack(o, StatusNames(k), k);
  }

  lemma UntilShown(k: Kind, o: Object)
    requires k != Registration
    ensures ShowsUntil(Some(OrNull(AsTrimmedString(Get(Normalised(k, o), "validUntil")))), k, o)
  {
    RecordUntil(k, o);
    ShownReadsBack(o, UntilNames(k), k);
  }

  lemma FactsArePart(i: Ingest)
    ensures Facts(i) == PartFacts(i.kind, Record(i))
  {
    assert Get(Artifact(i), Section(i.kind)) == Some(JObj(Record(i)));
  }

  lemma PartShowsPayload(facts: Object, i: Ingest, part: Object, o: Object)
    requires i.kind != Registration && facts == PartFacts(i.kind, part)
    requires part == Normalised(i.kind, o) && o == ObjectAt(i.payload, Section(i.kind))
    requires IsTrue(Get(part, "isValid")) <==> !PayloadInvalid(i)
    ensures FactsOfPayload(facts, i)
  {
    PartKeys(i.kind, part);
    StatusShown(i.kind, o);
    UntilShown(i.kind, o);
  }

  /** The compliance fields an ingest contributes say what its payload says. */
  lemma FactsShowPayload(i: Ingest)
    requires i.kind != Registration
    ensures FactsOfPayload(Facts(i), i)
  {
    var o := ObjectAt(i.payload, Section(i.kind));
    FactsArePart(i);
    ValidExactly(i);
    PartShowsPayload(Facts(i), i, Record(i), o);
  }

  // ------------------------------------------------------------------ after a run of ingests

  function Mapped(log: seq<Ingest>, f: Ingest -> Deposit): seq<Deposit> {
    if log == [] then [] else Mapped(log[..|log| - 1], f) + [f(log[|log| - 1])]
  }

  /** Deposits of a log of ingests. */
  function Deposits(log: seq<Ingest>): seq<Deposit> { Mapped(log, Prepare) }

  /** The n-th ingest is the last one of this kind for the vehicle; owner tells an ingest's vehicle. */
  ghost predicate IsLastBy(log: seq<Ingest>, owner: Ingest -> string, reg: string, k: Kind, n: nat) {
    && n < |log| && owner(log[n]) == reg && log[n].kind == k
    && forall m :: n < m < |log| ==> !(owner(log[m]) == reg && log[m].kind == k)
  }

  ghost predicate IsLastIngest(log: seq<Ingest>, reg: string, k: Kind, n: nat) {
    IsLastBy(log, VehicleReg, reg, k, n)
  }

  /** The last payload of the kind does not show a valid one. */
  ghost predicate LastInvalid(log: seq<Ingest>, reg: string, k: Kind) {
    exists n: nat :: IsLastIngest(log, reg, k, n) && PayloadInvalid(log[n])
  }

  ghost predicate Labels(f: Ingest -> Deposit, owner: Ingest -> string) {
    forall i :: f(i).reg == owner(i) && f(i).kind == i.kind
  }

  lemma {:induction false} LastBySome(log: seq<Ingest>, f: Ingest -> Deposit, owner: Ingest -> string, reg: string,
                                      k: Kind)
    returns (n: nat)
    requires Labels(f, owner) && LastOf(Mapped(log, f), reg, k).Some?
    ensures IsLastBy(log, owner, reg, k, n)
  {
    var last := |log| - 1;
    LastSnoc(Mapped(log[..last], f), f(log[last]), reg, k);
    if owner(log[last]) == reg && log[last].kind == k {
      n := last;
    } else {
      n := LastBySome(log[..last], f, owner, reg, k);
      forall m | n < m < |log| ensures !(owner(log[m]) == reg && log[m].kind == k) {
        if m < last { assert log[..last][m] == log[m]; }
      }
    }
  }

  lemma {:induction false} LastByIs(log: seq<Ingest>, f: Ingest -> Deposit, owner: Ingest -> string, reg: string,
                                    k: Kind, n: nat)
    requires Labels(f, owner) && IsLastBy(log, owner, reg, k, n)
    ensures LastOf(Mapped(log, f), reg, k) == Some(f(log[n]))
  {
    var last := |log| - 1;
    var before := log[..last];
    LastSnoc(Mapped(before, f), f(log[last]), reg, k);
    if n < last {
      forall m | n < m < |before| ensures !(owner(before[m]) == reg && before[m].kind == k) {
        assert before[m] == log[m];
      }
      LastByIs(before, f, owner, reg, k, n);
    }
  }

  lemma {:induction false} NoneBy(log: seq<Ingest>, f: Ingest -> Deposit, owner: Ingest -> string, reg: string)
    requires Labels(f, owner)
    ensures Newest(Mapped(log, f), reg).Some? <==> exists n :: 0 <= n < |log| && owner(log[n]) == reg
  {
    if log == [] {
    } else {
      var last := |log| - 1;
      NoneBy(log[..last], f, owner, reg);
      LastSnoc(Mapped(log[..last], f), f(log[last]), reg, Permit);
      assert forall n :: 0 <= n < last ==> log[..last][n] == log[n];
    }
  }

  lemma {:induction false} MappedOwn(log: seq<Ingest>, f: Ingest -> Deposit)
    requires forall i :: OwnFacts(f(i))
    ensures forall d :: d in Mapped(log, f) ==> OwnFacts(d)
  {
    if log != [] { MappedOwn(log[..|log| - 1], f); }
  }

  lemma DepositsAreOwn(log: seq<Ingest>)
    ensures forall d :: d in Deposits(log) ==> OwnFacts(d)
  {
    forall i ensures OwnFacts(Prepare(i)) { PreparedOwnFacts(i); }
    MappedOwn(log, Prepare);
  }

  lemma PrepareLabels()
    ensures Labels(Prepare, VehicleReg)
  {
  }

  /** The last ingest of a kind is the one whose deposit is the last of that kind. */
  lemma LastIngestIs(log: seq<Ingest>, reg: string, k: Kind, n: nat)
    requires IsLastIngest(log, reg, k, n)
    ensures LastOf(Deposits(log), reg, k) == Some(Prepare(log[n]))
  {
    PrepareLabels();
    LastByIs(log, Prepare, VehicleReg, reg, k, n);
  }

  lemma LastIngestSome(log: seq<Ingest>, reg: string, k: Kind) returns (n: nat)
    requires LastOf(Deposits(log), reg, k).Some?
    ensures IsLastIngest(log, reg, k, n)
  {
    PrepareLabels();
    n := LastBySome(log, Prepare, VehicleReg, reg, k);
  }

  /** One kind's compliance fields, seen through the union of the three. */
  lemma FactsInUnion(p: Object, n: Object, f: Object, k: Kind, key: string)
    requires p.Keys <= KeysOf(Permit) && n.Keys <= KeysOf(Insurance) && f.Keys <= KeysOf(Fitness)
    requires k != Registration && key in KeysOf(k)
    ensures Get(p + n + f, key) == Get(if k == Permit then p else if k == Insurance then n else f, key)
  {
    KeysAreDistinct(Permit, Insurance);
    KeysAreDistinct(Permit, Fitness);
    KeysAreDistinct(Insurance, Fitness);
  }

  /** The compliance fields of a kind are those of its last deposit. */
  lemma ComplianceIsLastFacts(log: seq<Deposit>, reg: string, k: Kind, key: string)
    requires k != Registration && key in KeysOf(k) && forall d :: d in log ==> OwnFacts(d)
    ensures Get(ComplianceOf(log, reg), key) == Get(FactsOf(LastOf(log, reg, k)), key)
  {
    forall kind: Kind ensures FactsOf(LastOf(log, reg, kind)).Keys <= KeysOf(kind) {
      LastOfFacts(log, reg, kind);
    }
    FactsInUnion(FactsOf(LastOf(log, reg, Permit)), FactsOf(LastOf(log, reg, Insurance)),
                 FactsOf(LastOf(log, reg, Fitness)), k, key);
  }

  /** The field that says whether a kind is in order is false exactly when its last payload does not show it. */
  lemma ComplianceSaysLast(log: seq<Ingest>, reg: string, k: Kind)
    requires k != Registration
    ensures Get(ComplianceOf(Deposits(log), reg), ValidKey(k)) == Some(JBool(false)) <==> LastInvalid(log, reg, k)
    ensures var field := Get(ComplianceOf(Deposits(log), reg), ValidKey(k)); field.Some? ==> field.value.JBool?
  {
    DepositsAreOwn(log);
    ComplianceIsLastFacts(Deposits(log), reg, k, ValidKey(k));
    if LastOf(Deposits(log), reg, k).Some? {
      var n := LastIngestSome(log, reg, k);
      LastIngestIs(log, reg, k, n);
      FactsShowPayload(log[n]);
      LastIsOne(log, reg, k, n);
    } else {
      forall n: nat ensures !IsLastIngest(log, reg, k, n) {
        if IsLastIngest(log, reg, k, n) { LastIngestIs(log, reg, k, n); }
      }
    }
  }

  lemma LastIsOne(log: seq<Ingest>, reg: string, k: Kind, n: nat)
    requires IsLastIngest(log, reg, k, n)
    ensures LastInvalid(log, reg, k) <==> PayloadInvalid(log[n])
  {
    forall m: nat | IsLastIngest(log, reg, k, m) ensures m == n { OnlyOneLast(log, VehicleReg, reg, k, m, n); }
  }

  lemma OnlyOneLast(log: seq<Ingest>, owner: Ingest -> string, reg: string, k: Kind, m: nat, n: nat)
    requires IsLastBy(log, owner, reg, k, m) && IsLastBy(log, owner, reg, k, n)
    ensures m == n
  {
  }

  /** A vehicle has a deposit exactly when one of the ingests was its. */
  lemma NewestDeposit(log: seq<Ingest>, reg: string)
    ensures Newest(Deposits(log), reg).Some? <==> exists n :: 0 <= n < |log| && VehicleReg(log[n]) == reg
  {
    PrepareLabels();
    NoneBy(log, Prepare, VehicleReg, reg);
  }

  /** The text the source object gives under the key is held under it, or the empty text when it gives none. */
  ghost predicate HoldsGivenText(o: Object, key: string, src: Object) {
    Get(o, key) == Some(if key in src && src[key].JStr? then src[key] else JStr(""))
  }

  /** The stamp of an ingest names its job, its correlation and its time, and holds the artifact of its vehicle. */
  lemma StampShowsIngest(i: Ingest)
    ensures var stamp := Stamp(i);
            && stamp.JObj? && Get(stamp.fields, "scrapeJobId") == Some(JStr(i.jobId))
            && HoldsGivenText(stamp.fields, "correlationId", i.payload)
            && Get(stamp.fields, "at") == Some(JStr(i.at)) && Get(stamp.fields, "payload") == Some(JObj(Artifact(i)))
  {
    assert |"scrapeJobId"| == 11 && |"correlationId"| == 13 && |"at"| == 2 && |"payload"| == 7;
  }

  lemma SnapshotCompliance(sources: Object, kind: string, at: string, compliance: Object)
    ensures ObjectAt(Snapshot(sources, kind, at, compliance).fields, "compliance") == compliance
  {
  }

  /**
   * After any serial run of ingests, the compliance fields of each kind say what the last payload
   * of that kind says: whether it shows a valid one, its status, and until when.
   */
  lemma SnapshotShowsPayloads(log: seq<Ingest>, reg: string, k: Kind, n: nat)
    requires reg != "" && k != Registration && IsLastIngest(log, reg, k, n)
    ensures var stored := Get(Replay(Deposits(log)), reg);
            stored.Some? && stored.value.JObj? && FactsOfPayload(ObjectAt(stored.value.fields, "compliance"), log[n])
  {
    var d := Deposits(log);
    DepositsAreOwn(log);
    SnapshotIsLastOfEachKind(d, reg);
    LastIngestIs(log, reg, k, n);
    LastOfFacts(d, reg, k);
    var newest := Newest(d, reg).value;
    SnapshotCompliance(SourcesOf(d, reg), KindName(newest.kind), newest.at, ComplianceOf(d, reg));
    ComplianceIsLastFacts(d, reg, k, ValidKey(k));
    ComplianceIsLastFacts(d, reg, k, StatusKey(k));
    ComplianceIsLastFacts(d, reg, k, UntilKey(k));
    FactsShowPayload(log[n]);
  }
}
