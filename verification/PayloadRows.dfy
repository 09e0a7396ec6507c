/**
 * What the persist step (apps/worker-ingest/src/persistJobArtifacts.js) makes of a payload, read off
 * the payload itself: which payloads it writes nothing for, which rows it stores and what they hold,
 * and which of its calls are reported as duplicates.
 */
module PayloadRows {
  import opened Basics
  import opened Strings
  import opened Json
  import opened ComplianceSnapshot
  import opened PersistArtifacts
  import J = IngestJob

  // ------------------------------------------------------------------ which payloads count

  ghost predicate NonBlankAt(o: Object, key: string) { key in o && o[key].JStr? && !AllSpace(o[key].s) }

  predicate TextFieldAt(o: Object, key: string) { key in o && o[key].JStr? }

  /** The payload names what a job of the kind is about. */
  ghost predicate Usable(k: JobKind, payload: Json) {
    match k
    case KhananRange => payload.JObj? && TextFieldAt(payload.fields, "fromDate") &&
      TextFieldAt(payload.fields, "toDate")
    case ChallanBackfill => true
    case ConsignerDigest => payload.JObj? && NonBlankAt(payload.fields, "consignerKey")
    case TripRollup => payload.JObj? && NonBlankAt(payload.fields, "vehicleRegNo")
    case Vehicle(_) => payload.JObj? && NonBlankAt(payload.fields, "vehicleRegNo")
  }

  /** A registration is what is left of the text without white space, in capitals. */
  lemma RegBlankExactly(o: Object, key: string)
    ensures Reg(Get(o, key)) != "" <==> NonBlankAt(o, key)
  {
    if key in o && o[key].JStr? {
      var t := Trim(o[key].s);
      BlankExactly(o[key].s);
      if t != "" { assert !IsSpace(Upper(t)[0]); }
    }
  }

  lemma TextBlankExactly(o: Object, key: string)
    ensures AsTrimmedString(Get(o, key)) != "" <==> NonBlankAt(o, key)
  {
    if key in o && o[key].JStr? { BlankExactly(o[key].s); }
  }

  lemma BatchWritesSomething(records: seq<Object>, rowOf: Object -> Row, empty: Row, districtSeen: bool)
    ensures BatchWrites(records, rowOf, empty, districtSeen) != []
  {
    WritesPrefix(records, |records|, rowOf);
  }

  lemma BatchPlanWrites(job: string, k: JobKind, p: Object, env: Env)
    ensures BatchPlan(job, k, p, env) != []
  {
    BatchWritesSomething(BatchRecords(k, p), RowMaker(job, k, p, env), EmptyRow(job, k, p, env),
                         k == KhananRange && District(p) != "");
  }

  /** The step writes nothing exactly when the payload does not name its subject. */
  lemma WritesNothingExactly(job: string, k: JobKind, payload: Json, env: Env)
    ensures Plan(job, k, payload, env) == [] <==> !Usable(k, payload)
  {
    var p := AsRecord(Some(payload));
    match k
    case KhananRange => BatchPlanWrites(job, k, p, env);
    case ChallanBackfill => BatchPlanWrites(job, k, p, env);
    case ConsignerDigest => TextBlankExactly(p, "consignerKey");
    case TripRollup => RegBlankExactly(p, "vehicleRegNo");
    case Vehicle(_) => RegBlankExactly(p, "vehicleRegNo");
  }

  /** The summary table a job of the kind touches, if any. */
  ghost predicate Touches(k: JobKind, payload: Json, entry: string) {
    match k
    case KhananRange =>
      entry == "processed.district_summary" && payload.JObj? && NonBlankAt(payload.fields, "district")
    case ChallanBackfill => false
    case ConsignerDigest => entry == "processed.consigner_summary"
    case TripRollup => entry == "processed.vehicle_trip_summary"
    case Vehicle(_) => entry == "processed.vehicle_compliance_summary"
  }

  lemma BatchEntries(records: seq<Object>, rowOf: Object -> Row, empty: Row, districtSeen: bool, entry: string)
    ensures Upsert(entry) in BatchWrites(records, rowOf, empty, districtSeen) <==>
            districtSeen && entry == "processed.district_summary"
  {
    if Upsert(entry) in RecordWrites(records, rowOf) {
      WritesAreRecords(records, rowOf, Upsert(entry));
      assert false;
    }
  }

  lemma BatchPlanEntries(job: string, k: JobKind, p: Object, env: Env, entry: string)
    ensures Upsert(entry) in BatchPlan(job, k, p, env) <==>
            k == KhananRange && NonBlankAt(p, "district") && entry == "processed.district_summary"
  {
    TextBlankExactly(p, "district");
    BatchEntries(BatchRecords(k, p), RowMaker(job, k, p, env), EmptyRow(job, k, p, env),
                 k == KhananRange && District(p) != "", entry);
  }

  lemma OneEntry(r: Row, own: string, entry: string)
    ensures Upsert(entry) in [Create(r), Upsert(own)] <==> entry == own
    ensures Upsert(entry) in [Upsert(own)] <==> entry == own
  {
  }

  /** A summary entry is upserted exactly when a usable payload touches it. */
  lemma EntriesExactly(job: string, k: JobKind, payload: Json, env: Env, entry: string)
    ensures Upsert(entry) in Plan(job, k, payload, env) <==> Usable(k, payload) && Touches(k, payload, entry)
  {
    var p := AsRecord(Some(payload));
    match k
    case KhananRange => BatchPlanEntries(job, k, p, env, entry);
    case ChallanBackfill => BatchPlanEntries(job, k, p, env, entry);
    case ConsignerDigest =>
      TextBlankExactly(p, "consignerKey");
      OneEntry(DigestRow(job, p), "processed.consigner_summary", entry);
    case TripRollup =>
      RegBlankExactly(p, "vehicleRegNo");
      OneEntry(DigestRow(job, p), "processed.vehicle_trip_summary", entry);
    case Vehicle(v) =>
      RegBlankExactly(p, "vehicleRegNo");
      OneEntry(VehicleRow(job, v, p, env), "processed.vehicle_compliance_summary", entry);
  }

  // ------------------------------------------------------------------ the rows of a batch

  predicate Batch(k: JobKind) { k == KhananRange || k == ChallanBackfill }

  /** The records the payload lists, objects or not. */
  ghost function Listed(k: JobKind, payload: Json): seq<Json> {
    var key := if k == KhananRange then "records" else "challans";
    if payload.JObj? && key in payload.fields && payload.fields[key].JArr? then payload.fields[key].items else []
  }

  /** The writes are one create per object, in order, or one for an empty batch, and no other create. */
  ghost predicate OnePerObject(items: seq<Json>, rowOf: Object -> Row, empty: Row, plan: seq<Write>) {
    && |plan| >= Max(1, ObjectCount(items))
    && (forall i: nat :: i < |items| && items[i].JObj? ==>
          ObjectCount(items[..i]) < ObjectCount(items) &&
          plan[ObjectCount(items[..i])] == Create(rowOf(items[i].fields)))
    && (ObjectCount(items) == 0 ==> plan[0] == Create(empty))
    && (forall n :: Max(1, ObjectCount(items)) <= n < |plan| ==> plan[n].Upsert?)
  }

  lemma BatchOnePerObject(items: seq<Json>, rowOf: Object -> Row, empty: Row, districtSeen: bool)
    ensures OnePerObject(items, rowOf, empty, BatchWrites(Records(items), rowOf, empty, districtSeen))
  {
    var records := Records(items);
    RecordsExactly(items);
    if records != [] { WriteAt(records, rowOf, 0); }
    forall i: nat | i < |items| && items[i].JObj?
      ensures ObjectCount(items[..i]) < |records| &&
              RecordWrites(records, rowOf)[ObjectCount(items[..i])] == Create(rowOf(items[i].fields))
    {
      WriteAt(records, rowOf, ObjectCount(items[..i]));
    }
  }

  /** The row of one object of the batch. */
  function RowOfObject(job: string, k: JobKind, payload: Json, env: Env): Object -> Row {
    RowMaker(job, k, AsRecord(Some(payload)), env)
  }

  function RowOfNone(job: string, k: JobKind, payload: Json, env: Env): Row {
    EmptyRow(job, k, AsRecord(Some(payload)), env)
  }

  lemma PlanOfBatch(job: string, k: JobKind, payload: Json, env: Env)
    requires Batch(k) && Usable(k, payload)
    ensures Plan(job, k, payload, env) ==
            BatchWrites(Records(Listed(k, payload)), RowOfObject(job, k, payload, env), RowOfNone(job, k, payload, env),
                        k == KhananRange && District(AsRecord(Some(payload))) != "")
  {
    assert BatchRecords(k, AsRecord(Some(payload))) == Records(Listed(k, payload));
  }

  /**
   * A usable batch stores every object it lists, in order: the n-th object's row is the n-th
   * write. A batch without objects writes one row that says so.
   */
  lemma BatchRowsExactly(job: string, k: JobKind, payload: Json, env: Env)
    requires Batch(k) && Usable(k, payload)
    ensures OnePerObject(Listed(k, payload), RowOfObject(job, k, payload, env), RowOfNone(job, k, payload, env),
                         Plan(job, k, payload, env))
  {
    PlanOfBatch(job, k, payload, env);
    BatchOnePerObject(Listed(k, payload), RowOfObject(job, k, payload, env), RowOfNone(job, k, payload, env),
                      k == KhananRange && District(AsRecord(Some(payload))) != "");
  }

  /** The row is that of an object the payload lists, or of a batch that lists none. */
  ghost predicate AskedFor(job: string, k: JobKind, payload: Json, env: Env, r: Row) {
    || (exists rec :: JObj(rec) in Listed(k, payload) && r == RowOfObject(job, k, payload, env)(rec))
    || (ObjectCount(Listed(k, payload)) == 0 && r == RowOfNone(job, k, payload, env))
  }

  lemma RowOfBatch(items: seq<Json>, rowOf: Object -> Row, empty: Row, districtSeen: bool, r: Row)
    ensures var plan := BatchWrites(Records(items), rowOf, empty, districtSeen);
            Create(r) in plan <==>
            || (exists rec :: JObj(rec) in items && r == rowOf(rec))
            || (ObjectCount(items) == 0 && r == empty)
  {
    var plan := BatchWrites(Records(items), rowOf, empty, districtSeen);
    RecordsExactly(items);
    BatchOnePerObject(items, rowOf, empty, districtSeen);
    if Create(r) in plan {
      BatchRow(Records(items), rowOf, empty, districtSeen, r);
    }
    if rec :| JObj(rec) in items && r == rowOf(rec) {
      var i: nat :| i < |items| && items[i] == JObj(rec);
      assert plan[ObjectCount(items[..i])] == Create(r);
    }
  }

  /** The rows of a batch are those of the objects it lists, or the one empty row. */
  lemma BatchRowSet(job: string, k: JobKind, payload: Json, env: Env, r: Row)
    requires Batch(k) && Usable(k, payload)
    ensures r in RowsIn(Plan(job, k, payload, env)) <==> AskedFor(job, k, payload, env, r)
  {
    PlanOfBatch(job, k, payload, env);
    RowOfBatch(Listed(k, payload), RowOfObject(job, k, payload, env), RowOfNone(job, k, payload, env),
               k == KhananRange && District(AsRecord(Some(payload))) != "", r);
    InRowsExactly(Plan(job, k, payload, env), r);
  }

  lemma InRowsExactly(plan: seq<Write>, r: Row)
    ensures r in RowsIn(plan) <==> Create(r) in plan
  {
    if Create(r) in plan { assert Create(r).row in RowsIn(plan); }
  }

  /**
   * Whatever deliveries, deaths and redeliveries happened: once a batch job has been marked
   * succeeded, its rows in the tables are exactly those of the objects its payload lists, or
   * the one row of an empty batch.
   */
  lemma SucceededBatchStored(es: seq<J.Event>, env: Env, job: J.JobId, r: Row)
    requires J.IsRun(J.Initial(), es, J.PlanBy(env)) && job in J.After(J.Initial(), es, J.PlanBy(env)).jobs
    requires var j := J.After(J.Initial(), es, J.PlanBy(env)).jobs[job];
             j.everSucceeded && Batch(j.kind) && Usable(j.kind, j.payload)
    ensures var s := J.After(J.Initial(), es, J.PlanBy(env));
            var j := s.jobs[job];
            r in J.RowsOf(s.rows, job) <==> AskedFor(job, j.kind, j.payload, env, r)
  {
    J.ExactlyOnceEffect(es, env, job);
    var j := J.After(J.Initial(), es, J.PlanBy(env)).jobs[job];
    BatchRowSet(job, j.kind, j.payload, env, r);
  }

  // ------------------------------------------------------------------ what a row holds

  /** The field holds the text that the source object has at the first present name, or null. */
  ghost predicate Holds(o: Object, key: string, src: Object, names: seq<string>) {
    key in o && exists t :: TextAt(src, names, t) && o[key] == if t == "" then JNull else JStr(t)
  }

  lemma TextHolds(o: Object, key: string, src: Object, names: seq<string>)
    requires key in o && o[key] == Text(src, names)
    ensures Holds(o, key, src, names)
  {
    TextAtExactly(src, names, AsTrimmedString(PickFirst(src, names)));
  }

  ghost predicate DistinctHeads(names: FieldNames)
    requires NonEmptyNames(names)
  {
    forall i, j :: 0 <= i < j < |names| ==> names[i][0] != names[j][0]
  }

  lemma {:induction false} TextsAt(src: Object, names: FieldNames, i: nat)
    requires NonEmptyNames(names) && DistinctHeads(names) && i < |names|
    ensures names[i][0] in Texts(src, names) && Texts(src, names)[names[i][0]] == Text(src, names[i])
  {
    if i < |names| - 1 {
      TextsAt(src, names[..|names| - 1], i);
      assert names[i][0] != names[|names| - 1][0];
    }
  }

  lemma TextFieldHolds(src: Object, names: FieldNames, extra: Object, i: nat)
    requires NonEmptyNames(names) && DistinctHeads(names) && i < |names| && names[i][0] !in extra
    ensures Holds(Texts(src, names) + extra, names[i][0], src, names[i])
  {
    TextsAt(src, names, i);
    TextHolds(Texts(src, names) + extra, names[i][0], src, names[i]);
  }

  lemma KhananHeads()
    ensures DistinctHeads(KhananNames()) && DistinctHeads(ChallanNames())
    ensures forall x, y, z, i :: 0 <= i < 6 ==> KhananNames()[i][0] !in Transit(x, y, z)
    ensures forall x, y, i :: 0 <= i < 4 ==> ChallanNames()[i][0] !in Charge(x, y)
  {
    assert |"permitNo"| == |"issuedAt"| == |"quantity"| == 8 && "permitNo"[0] == 'p' && "issuedAt"[0] == 'i' &&
           "quantity"[0] == 'q';
    assert |"challanNo"| == 9 && |"mineralType"| == 11 && |"destinationDistrict"| == 19 && |"status"| == 6;
    assert |"violationDate"| == 13 && |"location"| == 8 && |"amount"| == 6 && "amount"[0] == 'a' && "status"[0] == 's';
    assert |"vehicleRegNo"| == 12 && |"sourceDistrict"| == 14;
  }

  /** The object holds every field, each read by its names from the source object and kept under the first. */
  ghost predicate HoldsAll(o: Object, src: Object, names: FieldNames)
    requires NonEmptyNames(names)
  {
    forall i :: 0 <= i < |names| ==> Holds(o, names[i][0], src, names[i])
  }

  lemma TextsHoldAll(src: Object, names: FieldNames, extra: Object)
    requires NonEmptyNames(names) && DistinctHeads(names)
    requires forall i :: 0 <= i < |names| ==> names[i][0] !in extra
    ensures HoldsAll(Texts(src, names) + extra, src, names)
  {
    forall i | 0 <= i < |names| ensures Holds(Texts(src, names) + extra, names[i][0], src, names[i]) {
      TextFieldHolds(src, names, extra, i);
    }
  }

  /** A number that is not negative, at the first present name, or null. */
  ghost predicate HoldsAmount(v: Json, src: Object, names: seq<string>, env: Env) {
    exists read: Option<Json> ::
      && (forall i: nat :: FirstPresent(src, names, i) ==> read == Some(src[names[i]]))
      && ((forall n :: n in names ==> n !in src) ==> read == None)
      && v == match env.number(read)
              case Some(n) => if n < 0.0 then JNull else JNum(n)
              case None => JNull
  }

  lemma AmountHolds(src: Object, names: seq<string>, env: Env)
    ensures HoldsAmount(Amount(PickFirst(src, names), env), src, names, env)
  {
    PickFirstExactly(src, names);
  }

  lemma KhananFields()
    ensures NonEmptyNames(KhananNames()) && DistinctHeads(KhananNames())
    ensures forall x, y, z, i :: 0 <= i < |KhananNames()| ==> KhananNames()[i][0] !in Transit(x, y, z)
  {
    KhananHeads();
  }

  lemma ChallanFields()
    ensures NonEmptyNames(ChallanNames()) && DistinctHeads(ChallanNames())
    ensures forall x, y, i :: 0 <= i < |ChallanNames()| ==> ChallanNames()[i][0] !in Charge(x, y)
  {
    KhananHeads();
  }

  /** What is kept of a record of a date-range job: every text under its own name. */
  lemma KhananRecordHolds(p: Object, rec: Object, env: Env)
    ensures NonEmptyNames(KhananNames()) && HoldsAll(KhananRecord(p, rec, env), rec, KhananNames())
  {
    KhananFields();
    var names := KhananNames();
    TextsHoldAll(rec, names, Transit(KhananReg(rec), SourceDistrict(p, rec), Quantity(rec, env)));
  }

  /** What is kept of a challan. */
  lemma ChallanRecordHolds(rec: Object, env: Env)
    ensures NonEmptyNames(ChallanNames()) && HoldsAll(ChallanRecord(rec, env), rec, ChallanNames())
  {
    ChallanFields();
    var names := ChallanNames();
    TextsHoldAll(rec, names, Charge(ChallanReg(rec), Fine(rec, env)));
  }

  /** Amounts are read by the first name present, and kept only when they are not negative. */
  lemma AmountsHold(rec: Object, env: Env)
    ensures HoldsAmount(Quantity(rec, env), rec, ["quantity", "quantityTonnes", "loadQuantity"], env)
    ensures HoldsAmount(Fine(rec, env), rec, ["amount", "penaltyAmount", "fine"], env)
  {
    AmountHolds(rec, ["quantity", "quantityTonnes", "loadQuantity"], env);
    AmountHolds(rec, ["amount", "penaltyAmount", "fine"], env);
  }

  /** A registration, character by character: white space goes, the rest is put in capitals. */
  ghost function RegOf(s: string): string { Reg(Some(JStr(s))) }

  lemma {:induction false} WithoutSpaces(a: string, b: string)
    ensures RemoveSpaces(a + b) == RemoveSpaces(a) + RemoveSpaces(b)
  {
    if a == [] {
      assert a + b == b;
    } else {
      assert (a + b)[1..] == a[1..] + b;
      WithoutSpaces(a[1..], b);
    }
  }

  lemma {:induction false} OnlySpaces(s: string)
    requires AllSpace(s)
    ensures RemoveSpaces(s) == ""
  {
    if s != [] { OnlySpaces(s[1..]); }
  }

  lemma UpperParts(a: string, b: string)
    ensures Upper(a + b) == Upper(a) + Upper(b)
  {
  }

  lemma UpperSpaces(s: string)
    requires AllSpace(s)
    ensures AllSpace(Upper(s))
  {
    forall i | 0 <= i < |s| ensures IsSpace(Upper(s)[i]) { assert IsSpace(s[i]); }
  }

  lemma PiecesWithoutSpaces(lead: string, mid: string, tail: string)
    requires AllSpace(lead) && AllSpace(tail)
    ensures RemoveSpaces(Upper(lead + mid + tail)) == RemoveSpaces(Upper(mid))
  {
    UpperParts(lead + mid, tail);
    UpperParts(lead, mid);
    WithoutSpaces(Upper(lead) + Upper(mid), Upper(tail));
    WithoutSpaces(Upper(lead), Upper(mid));
    UpperSpaces(lead);
    UpperSpaces(tail);
    OnlySpaces(Upper(lead));
    OnlySpaces(Upper(tail));
  }

  lemma RegIgnoresTrim(s: string)
    ensures RegOf(s) == RemoveSpaces(Upper(s))
  {
    var lead, tail := TrimExactly(s);
    PiecesWithoutSpaces(lead, Trim(s), tail);
  }

  lemma RegOfParts(a: string, b: string)
    ensures RegOf(a + b) == RegOf(a) + RegOf(b)
  {
    RegIgnoresTrim(a);
    RegIgnoresTrim(b);
    RegIgnoresTrim(a + b);
    UpperParts(a, b);
    WithoutSpaces(Upper(a), Upper(b));
  }

  lemma OneWithoutSpaces(c: char)
    ensures RemoveSpaces([c]) == if IsSpace(c) then "" else [c]
  {
    assert RemoveSpaces([c][1..]) == "";
  }

  lemma CapitalSpace(c: char)
    ensures IsSpace(UpperChar(c)) <==> IsSpace(c)
  {
  }

  lemma RegOfChar(c: char)
    ensures RegOf([c]) == if IsSpace(c) then "" else if 'a' <= c <= 'z' then [(c as int - 32) as char] else [c]
  {
    RegIgnoresTrim([c]);
    CapitalWithoutSpaces(c);
  }

  lemma CapitalWithoutSpaces(c: char)
    ensures RemoveSpaces(Upper([c])) == if IsSpace(c) then "" else [UpperChar(c)]
  {
    assert Upper([c]) == [UpperChar(c)];
    OneWithoutSpaces(UpperChar(c));
    CapitalSpace(c);
  }

  /** A field that is stored as it was given, and left out when it was not. */
  ghost predicate Copies(o: Object, src: Object, key: string) { Get(o, key) == Get(src, key) }

  lemma KhananHeader(p: Object, env: Env)
    ensures var h := BatchHeader(KhananRange, p, env);
            && Get(h, "scrapeJobKind") == Some(JStr("khanan_date_range"))
            && Get(h, "correlationId") == Some(JStr(Correlation(p))) && Copies(h, p, "fromDate") &&
               Copies(h, p, "toDate")
            && Get(h, "htmlProbe") == Some(env.probe(Get(p, "portalHtml")))
  {
    FirstHeaderFields("district");
    HeaderJoined(JStr("khanan_date_range"), JStr(Correlation(p)), env.probe(Get(p, "portalHtml")), Field(p, "fromDate"),
                 Field(p, "toDate"), OptionalField("district", District(p) != "", JStr(District(p))));
  }

  lemma FirstHeaderFields(other: string)
    requires other == "district"
    ensures "scrapeJobKind" != "correlationId" && "scrapeJobKind" != "htmlProbe" && "correlationId" != "htmlProbe"
    ensures "scrapeJobKind" !in {"fromDate", "toDate", other} && "correlationId" !in {"fromDate", "toDate", other}
    ensures "htmlProbe" !in {"fromDate", "toDate", other} && "fromDate" !in {"toDate", other} && "toDate" != other
  {
    assert |"scrapeJobKind"| == 13 && |"correlationId"| == 13 && |"htmlProbe"| == 9 && |"fromDate"| == 8;
    assert |"toDate"| == 6 && |"district"| == 8 && "district"[0] == 'd' && "fromDate"[0] == 'f';
    assert "scrapeJobKind"[0] == 's' && "correlationId"[0] == 'c';
  }

  lemma HeaderJoined(kind: Json, correlation: Json, probe: Json, from: Object, to: Object, district: Object)
    requires from.Keys <= {"fromDate"} && to.Keys <= {"toDate"} && district.Keys <= {"district"}
    ensures var h := map["scrapeJobKind" := kind, "correlationId" := correlation, "htmlProbe" := probe] +
                       (from + to + district);
            && Get(h, "scrapeJobKind") == Some(kind) && Get(h, "correlationId") == Some(correlation)
            && Get(h, "htmlProbe") == Some(probe) && Get(h, "fromDate") == Get(from, "fromDate")
            && Get(h, "toDate") == Get(to, "toDate")
  {
    FirstHeaderFields("district");
  }

  /** The stored row of a date-range record: its table, the dates asked for, its district, and its record. */
  lemma KhananRowHolds(job: string, p: Object, rec: Object, env: Env)
    ensures var r := RecordRow(job, KhananRange, p, rec, env);
            && r.jobId == job && r.table == "raw_khanan_records" && r.districtKey == OrNull(District(p))
            && r.payload.JObj? && Get(r.payload.fields, "record") == Some(JObj(KhananRecord(p, rec, env)))
            && Copies(r.payload.fields, p, "fromDate") && Copies(r.payload.fields, p, "toDate")
            && Get(r.payload.fields, "correlationId") == Some(JStr(Correlation(p)))
  {
    KhananHeader(p, env);
    AddedLast(BatchHeader(KhananRange, p, env), "record", JObj(KhananRecord(p, rec, env)));
  }

  lemma AddedLast(header: Object, key: string, v: Json)
    requires key == "record"
    ensures var o := header + map[key := v];
            && Get(o, key) == Some(v) && Get(o, "fromDate") == Get(header, "fromDate")
            && Get(o, "toDate") == Get(header, "toDate") && Get(o, "correlationId") == Get(header, "correlationId")
  {
    assert |"record"| == 6 && |"fromDate"| == 8 && |"toDate"| == 6 && |"correlationId"| == 13;
    assert "toDate"[0] == 't' && "record"[0] == 'r';
  }

  lemma ChallanRowHolds(job: string, p: Object, rec: Object, env: Env)
    ensures var r := RecordRow(job, ChallanBackfill, p, rec, env);
            && r.jobId == job && r.table == "raw_challans" && r.districtKey == JNull
            && r.payload.JObj? && Get(r.payload.fields, "challan") == Some(JObj(ChallanRecord(rec, env)))
  {
  }

  /** The stored row of a vehicle job: the table of its kind, the registration, and the normalised section. */
  lemma ArtifactFields(i: Ingest)
    ensures Get(Artifact(i), Section(i.kind)) == Some(JObj(Record(i)))
    ensures Get(Artifact(i), "vehicleRegNo") == Some(JStr(VehicleReg(i)))
    ensures Get(Artifact(i), "htmlProbe") == Some(i.htmlProbe)
  {
    assert |"permit"| == 6 && |"insurance"| == 9 && |"fitness"| == 7 && |"registration"| == |"vehicleRegNo"| == 12;
    assert "registration"[0] == 'r' && "vehicleRegNo"[0] == 'v' && |"scrapeJobKind"| == |"correlationId"| == 13;
    assert |"htmlProbe"| == 9;
  }

  lemma VehicleRowHolds(job: string, k: Kind, p: Object, env: Env)
    ensures var r := VehicleRow(job, k, p, env);
            && r.jobId == job && r.districtKey == JNull && r.payload.JObj?
            && r.table == (match k case Permit => "raw_permits" case Insurance => "raw_insurances"
                                   case Fitness => "raw_fitness_records" case Registration => "raw_vehicle_records")
            && Get(r.payload.fields, Section(k)) == Some(JObj(Normalised(k, ObjectAt(p, Section(k)))))
            && Get(r.payload.fields, "vehicleRegNo") == Some(JStr(Reg(Get(p, "vehicleRegNo"))))
            && Get(r.payload.fields, "htmlProbe") == Some(env.probe(Get(p, "portalHtml")))
  {
    ArtifactFields(Ingest(k, job, p, env.probe(Get(p, "portalHtml")), ""));
  }

  /** The registration held is that of the text at the first present name, or null without one. */
  ghost predicate HoldsReg(v: Json, src: Object, names: seq<string>) {
    if exists i: nat :: FirstPresent(src, names, i) && src[names[i]].JStr?
    then exists i: nat :: FirstPresent(src, names, i) && src[names[i]].JStr? && v == OrNull(RegOf(src[names[i]].s))
    else v == JNull
  }

  lemma RegHolds(src: Object, names: seq<string>)
    ensures HoldsReg(OrNull(Reg(PickFirst(src, names))), src, names)
  {
    PickFirstExactly(src, names);
    forall i: nat, j: nat | FirstPresent(src, names, i) && FirstPresent(src, names, j) ensures i == j {
      FirstIsOne(src, names, i, j);
    }
  }

  lemma LastFields(texts: Object, reg: Json, source: Json, amount: Json)
    ensures Get(texts + Transit(reg, source, amount), "vehicleRegNo") == Some(reg)
    ensures Get(texts + Transit(reg, source, amount), "sourceDistrict") == Some(source)
    ensures Get(texts + Transit(reg, source, amount), "quantity") == Some(amount)
    ensures Get(texts + Charge(reg, amount), "vehicleRegNo") == Some(reg)
    ensures Get(texts + Charge(reg, amount), "amount") == Some(amount)
  {
    assert |"vehicleRegNo"| == 12 && |"sourceDistrict"| == 14 && |"quantity"| == 8 && |"amount"| == 6;
  }

  /** The fields a record of a date-range job keeps beside its texts. */
  ghost predicate KeepsTransit(o: Object, reg: Json, source: Json, amount: Json) {
    Get(o, "vehicleRegNo") == Some(reg) && Get(o, "sourceDistrict") == Some(source) &&
      Get(o, "quantity") == Some(amount)
  }

  ghost predicate KeepsCharge(o: Object, reg: Json, amount: Json) {
    Get(o, "vehicleRegNo") == Some(reg) && Get(o, "amount") == Some(amount)
  }

  lemma TextsKeep(src: Object, names: FieldNames, reg: Json, source: Json, amount: Json)
    requires NonEmptyNames(names)
    ensures KeepsTransit(Texts(src, names) + Transit(reg, source, amount), reg, source, amount)
    ensures KeepsCharge(Texts(src, names) + Charge(reg, amount), reg, amount)
  {
    LastFields(Texts(src, names), reg, source, amount);
  }

  lemma KhananKeeps(p: Object, rec: Object, env: Env)
    ensures KeepsTransit(KhananRecord(p, rec, env), KhananReg(rec), SourceDistrict(p, rec), Quantity(rec, env))
  {
    KhananFields();
    var names := KhananNames();
    TextsKeep(rec, names, KhananReg(rec), SourceDistrict(p, rec), Quantity(rec, env));
  }

  lemma ChallanKeeps(rec: Object, env: Env)
    ensures KeepsCharge(ChallanRecord(rec, env), ChallanReg(rec), Fine(rec, env))
  {
    ChallanFields();
    var names := ChallanNames();
    TextsKeep(rec, names, ChallanReg(rec), JNull, Fine(rec, env));
  }

  /** The vehicle of a record: read by its names in the order the source tries them. */
  lemma RecordRegHolds(rec: Object)
    ensures HoldsReg(KhananReg(rec), rec, ["vehicleRegNo", "vehicleNo", "registrationNo"])
    ensures HoldsReg(ChallanReg(rec), rec, ["vehicleRegNo", "registrationNo", "vehicleNo"])
  {
    RegHolds(rec, ["vehicleRegNo", "vehicleNo", "registrationNo"]);
    RegHolds(rec, ["vehicleRegNo", "registrationNo", "vehicleNo"]);
  }

  /** The row of a batch without records says so: its table, and a count of zero. */
  lemma EmptyRowHolds(job: string, p: Object, env: Env)
    ensures var r := EmptyRow(job, KhananRange, p, env);
            && r.jobId == job && r.table == "raw_khanan_records" && r.districtKey == OrNull(District(p))
            && r.payload.JObj? && Get(r.payload.fields, "recordCount") == Some(JNum(0.0))
    ensures var r := EmptyRow(job, ChallanBackfill, p, env);
            && r.jobId == job && r.table == "raw_challans" && r.districtKey == JNull
            && r.payload.JObj? && Get(r.payload.fields, "challanCount") == Some(JNum(0.0))
  {
  }

  /** The stored row of a digest: its table, and the consigner it is about. */
  lemma DigestRowHolds(job: string, p: Object)
    ensures var r := DigestRow(job, p);
            && r.jobId == job && r.table == "raw_khanan_records" && r.districtKey == JNull && r.payload.JObj?
            && Get(r.payload.fields, "consignerKey") == Some(JStr(AsTrimmedString(Get(p, "consignerKey"))))
            && Get(r.payload.fields, "stub") == Some(JBool(true))
  {
    assert |"stub"| == 4 && |"scrapeJobKind"| == 13 && |"consignerKey"| == 12 && |"correlationId"| == 13 &&
           |"note"| == 4;
    assert "stub"[0] == 's' && "note"[0] == 'n';
  }

  /** The cursor and the batch size a challan job was given are kept with its rows: as text, and when it is a number. */
  lemma ChallanHeader(p: Object, env: Env)
    ensures var h, cursor := BatchHeader(ChallanBackfill, p, env), Get(p, "cursor");
            && Get(h, "cursor") == (if cursor.None? || cursor.value == JNull || env.text(cursor.value) == "" then None
                                    else Some(JStr(env.text(cursor.value))))
            && Get(h, "batchSize") == (if "batchSize" in p && p["batchSize"].JNum? then Some(p["batchSize"]) else None)
  {
    assert |"scrapeJobKind"| == 13 && |"correlationId"| == 13 && |"htmlProbe"| == 9 && "htmlProbe"[0] == 'h';
    assert |"cursor"| == 6 && |"batchSize"| == 9 && "batchSize"[0] == 'b';
  }

  /** The two texts a record's district can come from: its own, and that of the whole request. */
  ghost predicate Districts(p: Object, rec: Object, own: string, given: string) {
    TextAt(rec, ["district", "sourceDistrict"], own) && TextAt(p, ["district"], given)
  }

  lemma PickOne(o: Object, key: string)
    ensures PickFirst(o, [key]) == Get(o, key)
  {
    assert [key][1..] == [];
  }

  lemma DistrictsRead(p: Object, rec: Object)
    ensures Districts(p, rec, AsTrimmedString(PickFirst(rec, ["district", "sourceDistrict"])), District(p))
  {
    TextAtExactly(rec, ["district", "sourceDistrict"], AsTrimmedString(PickFirst(rec, ["district", "sourceDistrict"])));
    PickOne(p, "district");
    TextAtExactly(p, ["district"], District(p));
  }

  /** A record's district is its own where it names one, and that of the whole request otherwise. */
  lemma SourceDistrictHolds(p: Object, rec: Object)
    ensures exists own, given :: Districts(p, rec, own, given) &&
              SourceDistrict(p, rec) == if own != "" then JStr(own) else if given != "" then JStr(given) else JNull
  {
    DistrictsRead(p, rec);
  }

  // ------------------------------------------------------------------ what a run reports

  /** The create at position i meets a taken hash: the row is there before, or an earlier create makes it. */
  ghost predicate Taken(rows: Rows, plan: seq<Write>, i: nat)
    requires i < |plan|
  {
    plan[i].Create? &&
    (KeyOf(plan[i].row) in rows ||
     exists j :: 0 <= j < i && plan[j].Create? && KeyOf(plan[j].row) == KeyOf(plan[i].row))
  }

  /** After the writes a hash is taken exactly when it was before or one of them creates it, and the first one stays. */
  lemma {:induction false} AppliedExactly(rows: Rows, plan: seq<Write>, key: Key)
    ensures key in Applied(rows, plan) <==>
            key in rows || exists j :: 0 <= j < |plan| && plan[j].Create? && KeyOf(plan[j].row) == key
    ensures key in rows ==> Applied(rows, plan)[key] == rows[key]
    ensures forall j :: 0 <= j < |plan| && plan[j].Create? && KeyOf(plan[j].row) == key && !Taken(rows, plan, j)
                        ==> Applied(rows, plan)[key] == plan[j].row
  {
    if plan == [] {
    } else {
      var n := |plan| - 1;
      AppliedExactly(rows, plan[..n], key);
      assert forall j :: 0 <= j < n ==> plan[..n][j] == plan[j];
      forall j: nat | j < n ensures Taken(rows, plan[..n], j) <==> Taken(rows, plan, j) {
        TakenInPrefix(rows, plan, n, j);
      }
    }
  }

  ghost function TakenCount(rows: Rows, plan: seq<Write>): nat {
    |set i: nat | i < |plan| && Taken(rows, plan, i)|
  }

  lemma TakenOneMore(rows: Rows, plan: seq<Write>)
    requires plan != []
    ensures TakenCount(rows, plan) ==
            TakenCount(rows, plan[..|plan| - 1]) + (if Taken(rows, plan, |plan| - 1) then 1 else 0)
  {
    var n := |plan| - 1;
    var a := set i: nat | i < |plan[..n]| && Taken(rows, plan[..n], i);
    var b := set i: nat | i < |plan| && Taken(rows, plan, i);
    forall i: nat | i != n ensures i in a <==> i in b {
      if i < n { TakenInPrefix(rows, plan, n, i); }
    }
    SameButOne(a, b, n);
  }

  lemma TakenInPrefix(rows: Rows, plan: seq<Write>, n: nat, i: nat)
    requires i < n <= |plan|
    ensures Taken(rows, plan[..n], i) <==> Taken(rows, plan, i)
  {
    assert forall j :: 0 <= j < n ==> plan[..n][j] == plan[j];
  }

  lemma DuplicateIsTaken(rows: Rows, plan: seq<Write>)
    requires plan != []
    ensures var n := |plan| - 1; Duplicate(Applied(rows, plan[..n]), plan[n]) <==> Taken(rows, plan, n)
  {
    var n := |plan| - 1;
    if plan[n].Create? {
      AppliedExactly(rows, plan[..n], KeyOf(plan[n].row));
      assert forall j :: 0 <= j < n ==> plan[..n][j] == plan[j];
    }
  }

  /**
   * A finished run reports as skipped exactly its creates under taken hashes, and everything
   * else as written: the numbers agree, and every call is reported under its own table.
   */
  lemma {:induction false} ReportExactly(rows: Rows, plan: seq<Write>)
    ensures var report := SummaryOf(rows, plan);
            && |report.skippedDuplicate| == TakenCount(rows, plan)
            && |report.wrote| == |plan| - TakenCount(rows, plan)
    ensures forall entry :: entry in SummaryOf(rows, plan).skippedDuplicate <==>
              exists i: nat :: i < |plan| && Taken(rows, plan, i) && plan[i].row.table == entry
  {
    if plan == [] {
    } else {
      var n := |plan| - 1;
      ReportExactly(rows, plan[..n]);
      TakenOneMore(rows, plan);
      DuplicateIsTaken(rows, plan);
      forall entry
        ensures entry in SummaryOf(rows, plan).skippedDuplicate <==>
                exists i: nat :: i < |plan| && Taken(rows, plan, i) && plan[i].row.table == entry
      {
        forall i: nat | i < n ensures Taken(rows, plan[..n], i) <==> Taken(rows, plan, i) {
          TakenInPrefix(rows, plan, n, i);
        }
        assert forall j :: 0 <= j < n ==> plan[..n][j] == plan[j];
      }
    }
  }
}
