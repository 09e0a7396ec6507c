/**
 * The raw rows one job leaves behind (apps/worker-ingest/src/persistJobArtifacts.js): every record is
 * normalised, hashed and created under a unique content hash, so writing it again changes nothing.
 */
module PersistArtifacts {
  import opened Basics
  import opened Strings
  import opened Json
  import opened ComplianceSnapshot

  /** Conversions of the language and the portal page parser, left abstract. */
  datatype Env = Env(number: Option<Json> -> Option<real>, text: Json -> string, probe: Option<Json> -> Json)

  datatype JobKind = KhananRange | ChallanBackfill | ConsignerDigest | TripRollup | Vehicle(kind: Kind)

  function KindText(k: JobKind): string {
    match k
    case KhananRange => "khanan_date_range"
    case ChallanBackfill => "raw_challan_backfill"
    case ConsignerDigest => "consigner_digest"
    case TripRollup => "trip_intelligence_rollup"
    case Vehicle(v) => KindName(v)
  }

  /** A raw row; the hash is taken to be injective, so the hashed value stands for it. */
  datatype Row = Row(table: string, jobId: string, hashed: Json, payload: Json, districtKey: Json)

  /** The unique constraint on the content hash of each table. */
  datatype Key = Key(table: string, hashed: Json)

  function KeyOf(r: Row): Key { Key(r.table, r.hashed) }

  type Rows = map<Key, Row>

  /** What a run of the persist step does to the database, one awaited call at a time. */
  datatype Write = Create(row: Row) | Upsert(entry: string)

  // ------------------------------------------------------------------ normalising

  function AsArray(v: Option<Json>): seq<Json> { if v.Some? && v.value.JArr? then v.value.items else [] }

  function Records(items: seq<Json>): seq<Object> {
    if items == [] then []
    else Records(items[..|items| - 1]) + if items[|items| - 1].JObj? then [items[|items| - 1].fields] else []
  }

  /** How many of the items are objects. */
  ghost function ObjectCount(items: seq<Json>): nat { |set i: nat | i < |items| && items[i].JObj?| }

  lemma OneMoreObject(items: seq<Json>)
    requires items != []
    ensures ObjectCount(items) == ObjectCount(items[..|items| - 1]) + (if items[|items| - 1].JObj? then 1 else 0)
  {
    var n := |items| - 1;
    var a := set i: nat | i < n && items[..n][i].JObj?;
    var b := set i: nat | i < |items| && items[i].JObj?;
    SameButOne(a, b, n);
  }

  lemma {:induction false} RecordCount(items: seq<Json>)
    ensures |Records(items)| == ObjectCount(items)
  {
    if items == [] {
    } else {
      RecordCount(items[..|items| - 1]);
      OneMoreObject(items);
    }
  }

  lemma {:induction false} RecordOfObject(items: seq<Json>, i: nat)
    requires i < |items| && items[i].JObj?
    ensures var n := ObjectCount(items[..i]); n < |Records(items)| && Records(items)[n] == items[i].fields
  {
    var before := items[..|items| - 1];
    if i < |before| {
      RecordOfObject(before, i);
      assert before[..i] == items[..i];
    } else {
      RecordCount(before);
    }
  }

  lemma {:induction false} ObjectOfRecord(items: seq<Json>, rec: Object)
    requires rec in Records(items)
    ensures JObj(rec) in items
  {
    var before, last := items[..|items| - 1], items[|items| - 1];
    if rec in Records(before) {
      ObjectOfRecord(before, rec);
    } else {
      assert JObj(rec) == last;
    }
  }

  /**
   * The records are the objects among the items, all of them and in order: the object at
   * position i is the record that comes after as many as there are objects before it.
   */
  lemma RecordsExactly(items: seq<Json>)
    ensures |Records(items)| == ObjectCount(items)
    ensures forall i: nat :: i < |items| && items[i].JObj? ==>
              var n := ObjectCount(items[..i]); n < |Records(items)| && Records(items)[n] == items[i].fields
    ensures forall rec :: rec in Records(items) <==> JObj(rec) in items
  {
    RecordCount(items);
    forall i: nat | i < |items| && items[i].JObj?
      ensures var n := ObjectCount(items[..i]); n < |Records(items)| && Records(items)[n] == items[i].fields
    {
      RecordOfObject(items, i);
    }
    forall rec ensures rec in Records(items) <==> JObj(rec) in items {
      if rec in Records(items) { ObjectOfRecord(items, rec); }
      if JObj(rec) in items {
        var i: nat :| i < |items| && items[i] == JObj(rec);
        RecordOfObject(items, i);
      }
    }
  }

  function Amount(v: Option<Json>, env: Env): Json {
    var n := env.number(v);
    if n.Some? && n.value >= 0.0 then JNum(n.value) else JNull
  }

  function OptionalField(key: string, present: bool, v: Json): Object { if present then map[key := v] else map[] }

  function District(p: Object): string { AsTrimmedString(Get(p, "district")) }

  function Cursor(p: Object, env: Env): string {
    var v := Get(p, "cursor");
    if v.None? || v.value.JNull? then "" else env.text(v.value)
  }

  function BatchSize(p: Object): Object {
    var v := Get(p, "batchSize");
    OptionalField("batchSize", v.Some? && v.value.JNum?, if v.Some? then v.value else JNull)
  }

  function KhananNames(): FieldNames {
    [["permitNo", "permitNumber", "transitPassNo"], ["challanNo", "challanNumber", "challanId"],
     ["mineralType", "material", "commodity"], ["destinationDistrict", "destDistrict"],
     ["issuedAt", "permitDate", "date"], ["status", "state"]]
  }

  function SourceDistrict(p: Object, rec: Object): Json {
    var own := AsTrimmedString(PickFirst(rec, ["district", "sourceDistrict"]));
    OrNull(if own != "" then own else District(p))
  }

  function KhananReg(rec: Object): Json { OrNull(Reg(PickFirst(rec, ["vehicleRegNo", "vehicleNo", "registrationNo"]))) }

  function Quantity(rec: Object, env: Env): Json {
    Amount(PickFirst(rec, ["quantity", "quantityTonnes", "loadQuantity"]), env)
  }

  function Transit(reg: Json, source: Json, quantity: Json): Object {
    map["vehicleRegNo" := reg, "sourceDistrict" := source, "quantity" := quantity]
  }

  function KhananRecord(p: Object, rec: Object, env: Env): Object {
    Texts(rec, KhananNames()) + Transit(KhananReg(rec), SourceDistrict(p, rec), Quantity(rec, env))
  }

  function ChallanNames(): FieldNames {
    [["challanNo", "challanNumber", "id"], ["status", "paymentStatus"], ["violationDate", "challanDate", "date"],
     ["location", "place"]]
  }

  function ChallanReg(rec: Object): Json {
    OrNull(Reg(PickFirst(rec, ["vehicleRegNo", "registrationNo", "vehicleNo"])))
  }

  function Fine(rec: Object, env: Env): Json { Amount(PickFirst(rec, ["amount", "penaltyAmount", "fine"]), env) }

  function Charge(reg: Json, amount: Json): Object { map["vehicleRegNo" := reg, "amount" := amount] }

  function ChallanRecord(rec: Object, env: Env): Object {
    Texts(rec, ChallanNames()) + Charge(ChallanReg(rec), Fine(rec, env))
  }

  /** The fields every row of a batch job shares. */
  function BatchHeader(k: JobKind, p: Object, env: Env): Object {
    map["scrapeJobKind" := JStr(KindText(k)), "correlationId" := JStr(Correlation(p)),
        "htmlProbe" := env.probe(Get(p, "portalHtml"))] +
    if k == KhananRange
    then Field(p, "fromDate") + Field(p, "toDate") + OptionalField("district", District(p) != "", JStr(District(p)))
    else OptionalField("cursor", Cursor(p, env) != "", JStr(Cursor(p, env))) + BatchSize(p)
  }

  function Field(p: Object, key: string): Object { if key in p then map[key := p[key]] else map[] }

  function Normalized(k: JobKind, p: Object, rec: Object, env: Env): Object {
    BatchHeader(k, p, env) +
    if k == KhananRange then map["record" := JObj(KhananRecord(p, rec, env))]
    else map["challan" := JObj(ChallanRecord(rec, env))]
  }

  function BatchTable(k: JobKind): string { if k == KhananRange then "raw_khanan_records" else "raw_challans" }

  function BatchDistrict(k: JobKind, p: Object): Json { if k == KhananRange then OrNull(District(p)) else JNull }

  /** The row of one record of a batch. */
  function RecordRow(job: string, k: JobKind, p: Object, rec: Object, env: Env): Row {
    var normalized := JObj(Normalized(k, p, rec, env));
    var hashed := if k == KhananRange
                  then JObj(map["scrapeJobId" := JStr(job), "correlationId" := JStr(Correlation(p)),
                                "normalizedPayload" := normalized])
                  else JObj(map["kind" := JStr(KindText(k)), "scrapeJobId" := JStr(job), "normalized" := normalized]);
    Row(BatchTable(k), job, hashed, normalized, BatchDistrict(k, p))
  }

  /** The one row of a batch without records. */
  function EmptyRow(job: string, k: JobKind, p: Object, env: Env): Row {
    var hashed := if k == KhananRange
                  then map["kind" := JStr(KindText(k)), "scrapeJobId" := JStr(job),
                           "correlationId" := JStr(Correlation(p)),
                           "district" := OrNull(District(p))] + Field(p, "fromDate") + Field(p, "toDate")
                  else map["kind" := JStr(KindText(k)), "scrapeJobId" := JStr(job),
                           "correlationId" := JStr(Correlation(p)),
                           "cursor" := OrNull(Cursor(p, env)),
                           "batchSize" := if "batchSize" in BatchSize(p) then BatchSize(p)["batchSize"] else JNull];
    var count := if k == KhananRange then "recordCount" else "challanCount";
    Row(BatchTable(k), job, JObj(hashed), JObj(BatchHeader(k, p, env)[count := JNum(0.0)]), BatchDistrict(k, p))
  }

  function VehicleTable(k: Kind): string {
    match k
    case Permit => "raw_permits" case Insurance => "raw_insurances"
    case Fitness => "raw_fitness_records" case Registration => "raw_vehicle_records"
  }

  function VehicleRow(job: string, k: Kind, p: Object, env: Env): Row {
    var hashed := map["kind" := JStr(KindName(k)), "scrapeJobId" := JStr(job),
                      "vehicleRegNo" := JStr(Reg(Get(p, "vehicleRegNo"))), "correlationId" := JStr(Correlation(p))];
    Row(VehicleTable(k), job, JObj(hashed), JObj(Artifact(Ingest(k, job, p, env.probe(Get(p, "portalHtml")), ""))),
        JNull)
  }

  function DigestRow(job: string, p: Object): Row {
    var key := AsTrimmedString(Get(p, "consignerKey"));
    var hashed := map["kind" := JStr("consigner_digest"), "scrapeJobId" := JStr(job), "consignerKey" := JStr(key),
                      "correlationId" := JStr(Correlation(p))];
    Row("raw_khanan_records", job, JObj(hashed),
        JObj(map["stub" := JBool(true), "scrapeJobKind" := JStr("consigner_digest"), "consignerKey" := JStr(key),
                 "correlationId" := JStr(Correlation(p)),
                 "note" := JStr("Placeholder consigner digest row; Khanan aggregation not run yet")]), JNull)
  }

  // ------------------------------------------------------------------ the writes of one run, in order

  function RecordWrites(records: seq<Object>, rowOf: Object -> Row): seq<Write> {
    if records == [] then []
    else RecordWrites(records[..|records| - 1], rowOf) + [Create(rowOf(records[|records| - 1]))]
  }

  function RowMaker(job: string, k: JobKind, p: Object, env: Env): Object -> Row {
    rec => RecordRow(job, k, p, rec, env)
  }

  predicate HasText(p: Object, key: string) { key in p && p[key].JStr? }

  function BatchRecords(k: JobKind, p: Object): seq<Object> {
    Records(AsArray(Get(p, if k == KhananRange then "records" else "challans")))
  }

  function BatchWrites(records: seq<Object>, rowOf: Object -> Row, empty: Row, districtSeen: bool): seq<Write> {
    (if records == [] then [Create(empty)] else RecordWrites(records, rowOf)) +
    (if districtSeen then [Upsert("processed.district_summary")] else [])
  }

  function BatchPlan(job: string, k: JobKind, p: Object, env: Env): seq<Write> {
    BatchWrites(BatchRecords(k, p), RowMaker(job, k, p, env), EmptyRow(job, k, p, env),
                k == KhananRange && District(p) != "")
  }

  function Plan(job: string, k: JobKind, payload: Json, env: Env): seq<Write> {
    var p := AsRecord(Some(payload));
    match k
    case KhananRange => if !HasText(p, "fromDate") || !HasText(p, "toDate") then [] else BatchPlan(job, k, p, env)
    case ChallanBackfill => BatchPlan(job, k, p, env)
    case Vehicle(v) =>
      if Reg(Get(p, "vehicleRegNo")) == "" then []
      else [Create(VehicleRow(job, v, p, env)), Upsert("processed.vehicle_compliance_summary")]
    case ConsignerDigest =>
      if AsTrimmedString(Get(p, "consignerKey")) == "" then []
      else [Create(DigestRow(job, p)), Upsert("processed.consigner_summary")]
    case TripRollup => if Reg(Get(p, "vehicleRegNo")) == "" then [] else [Upsert("processed.vehicle_trip_summary")]
  }

  // ------------------------------------------------------------------ their effect

  /** A create under a taken hash raises P2002 and leaves the table alone. */
  function Insert(rows: Rows, w: Write): Rows {
    if w.Create? && KeyOf(w.row) !in rows then rows[KeyOf(w.row) := w.row] else rows
  }

  function Applied(rows: Rows, plan: seq<Write>): Rows {
    if plan == [] then rows else Insert(Applied(rows, plan[..|plan| - 1]), plan[|plan| - 1])
  }

  function EntryOf(w: Write): string { if w.Create? then w.row.table else w.entry }

  predicate Duplicate(rows: Rows, w: Write) { w.Create? && KeyOf(w.row) in rows }

  datatype Summary = Summary(wrote: seq<string>, skippedDuplicate: seq<string>)

  function SummaryOf(rows: Rows, plan: seq<Write>): Summary {
    if plan == [] then Summary([], [])
    else
      var before, w := SummaryOf(rows, plan[..|plan| - 1]), plan[|plan| - 1];
      if Duplicate(Applied(rows, plan[..|plan| - 1]), w)
      then before.(skippedDuplicate := before.skippedDuplicate + [EntryOf(w)])
      else before.(wrote := before.wrote + [EntryOf(w)])
  }

  /** The rows of a run's plan. */
  function RowsIn(plan: seq<Write>): set<Row> { set w | w in plan && w.Create? :: w.row }

  // ------------------------------------------------------------------ the hash tells rows apart

  lemma {:induction false} WritesAreRecords(records: seq<Object>, rowOf: Object -> Row, w: Write)
    requires w in RecordWrites(records, rowOf)
    ensures exists rec :: rec in records && w == Create(rowOf(rec))
  {
    var before, last := records[..|records| - 1], records[|records| - 1];
    if w == Create(rowOf(last)) {
      assert last in records;
    } else {
      WritesAreRecords(before, rowOf, w);
      var rec :| rec in before && w == Create(rowOf(rec));
      assert rec in records;
    }
  }

  /** The row belongs to the job, and its hash says so. */
  predicate Named(r: Row, job: string) {
    r.jobId == job && r.hashed.JObj? && Get(r.hashed.fields, "scrapeJobId") == Some(JStr(job))
  }

  lemma RecordHash(job: string, k: JobKind, p: Object, rec: Object, env: Env)
    ensures var r := RecordRow(job, k, p, rec, env);
            && Named(r, job) && r.table == BatchTable(k) && r.districtKey == BatchDistrict(k, p)
            && Get(r.hashed.fields, if k == KhananRange then "normalizedPayload" else "normalized") == Some(r.payload)
  {
    HashFields(JStr(job), JStr(Correlation(p)), JStr(KindText(k)), JObj(Normalized(k, p, rec, env)));
  }

  ghost predicate TellsRowsApart(rowOf: Object -> Row) {
    forall a, b :: rowOf(a).hashed == rowOf(b).hashed ==> rowOf(a) == rowOf(b)
  }

  lemma MakerHashes(job: string, k: JobKind, p: Object, env: Env)
    ensures var rowOf := RowMaker(job, k, p, env); (forall rec :: Named(rowOf(rec), job)) && TellsRowsApart(rowOf)
  {
    var rowOf := RowMaker(job, k, p, env);
    forall rec ensures Named(rowOf(rec), job) { RecordHash(job, k, p, rec, env); }
    forall a, b | rowOf(a).hashed == rowOf(b).hashed ensures rowOf(a) == rowOf(b) {
      RecordHash(job, k, p, a, env);
      RecordHash(job, k, p, b, env);
    }
  }

  lemma HashFields(job: Json, correlation: Json, kind: Json, normalized: Json)
    ensures var m := map["scrapeJobId" := job, "correlationId" := correlation, "normalizedPayload" := normalized];
            m["scrapeJobId"] == job && m["normalizedPayload"] == normalized
    ensures var m := map["kind" := kind, "scrapeJobId" := job, "normalized" := normalized];
            m["scrapeJobId"] == job && m["normalized"] == normalized
  {
    assert |"scrapeJobId"| == 11 && |"correlationId"| == 13 && |"normalizedPayload"| == 17 && |"kind"| == 4 &&
           |"normalized"| == 10;
  }

  lemma EmptyHashFields(kind: Json, job: Json, correlation: Json, x: Json, y: Json, from: Object, to: Object)
    requires from.Keys <= {"fromDate"} && to.Keys <= {"toDate"}
    ensures Get(map["kind" := kind, "scrapeJobId" := job, "correlationId" := correlation, "district" := x] + from + to,
                "scrapeJobId") == Some(job)
    ensures Get(map["kind" := kind, "scrapeJobId" := job, "correlationId" := correlation, "cursor" := x,
                    "batchSize" := y], "scrapeJobId") == Some(job)
  {
    assert |"scrapeJobId"| == 11 && |"correlationId"| == 13 && |"kind"| == 4 && |"district"| == 8;
    assert |"fromDate"| == 8 && |"toDate"| == 6 && |"cursor"| == 6 && |"batchSize"| == 9;
  }

  lemma EmptyHash(job: string, k: JobKind, p: Object, env: Env)
    ensures Named(EmptyRow(job, k, p, env), job)
  {
    EmptyHashFields(JStr(KindText(k)), JStr(job), JStr(Correlation(p)),
                    if k == KhananRange then OrNull(District(p)) else OrNull(Cursor(p, env)),
                    if "batchSize" in BatchSize(p) then BatchSize(p)["batchSize"] else JNull,
                    Field(p, "fromDate"), Field(p, "toDate"));
  }

  lemma SingleHashFields(kind: Json, job: Json, id: Json, correlation: Json)
    ensures map["kind" := kind, "scrapeJobId" := job, "vehicleRegNo" := id,
                "correlationId" := correlation]["scrapeJobId"] == job
    ensures map["kind" := kind, "scrapeJobId" := job, "consignerKey" := id,
                "correlationId" := correlation]["scrapeJobId"] == job
  {
    assert |"scrapeJobId"| == 11 && |"correlationId"| == 13 && |"vehicleRegNo"| == 12 && |"consignerKey"| == 12;
  }

  lemma VehicleHash(job: string, k: Kind, p: Object, env: Env)
    ensures Named(VehicleRow(job, k, p, env), job)
  {
    SingleHashFields(JStr(KindName(k)), JStr(job), JStr(Reg(Get(p, "vehicleRegNo"))), JStr(Correlation(p)));
  }

  lemma DigestHash(job: string, p: Object)
    ensures Named(DigestRow(job, p), job)
  {
    SingleHashFields(JStr("consigner_digest"), JStr(job), JStr(AsTrimmedString(Get(p, "consignerKey"))),
                     JStr(Correlation(p)));
  }

  /** The rows of a batch: one per record, or the empty one. */
  lemma BatchRow(records: seq<Object>, rowOf: Object -> Row, empty: Row, districtSeen: bool, r: Row)
    requires Create(r) in BatchWrites(records, rowOf, empty, districtSeen)
    ensures if records == [] then r == empty else exists rec :: rec in records && r == rowOf(rec)
  {
    if records != [] {
      assert Create(r) in RecordWrites(records, rowOf);
      WritesAreRecords(records, rowOf, Create(r));
    }
  }

  /** Every row of the plan is hashed with the job's id, and equal hashes mean equal rows. */
  ghost predicate Apart(plan: seq<Write>, job: string) {
    forall r, s :: Create(r) in plan && Create(s) in plan ==> Named(r, job) && (r.hashed == s.hashed ==> r == s)
  }

  lemma BatchApart(records: seq<Object>, rowOf: Object -> Row, empty: Row, districtSeen: bool, job: string)
    requires Named(empty, job) && (forall rec :: Named(rowOf(rec), job)) && TellsRowsApart(rowOf)
    ensures Apart(BatchWrites(records, rowOf, empty, districtSeen), job)
  {
    var plan := BatchWrites(records, rowOf, empty, districtSeen);
    forall r, s | Create(r) in plan && Create(s) in plan ensures Named(r, job) && (r.hashed == s.hashed ==> r == s) {
      BatchRow(records, rowOf, empty, districtSeen, r);
      BatchRow(records, rowOf, empty, districtSeen, s);
    }
  }

  lemma BatchPlanApart(job: string, k: JobKind, p: Object, env: Env)
    ensures Apart(BatchPlan(job, k, p, env), job)
  {
    MakerHashes(job, k, p, env);
    EmptyHash(job, k, p, env);
    BatchApart(BatchRecords(k, p), RowMaker(job, k, p, env), EmptyRow(job, k, p, env),
               k == KhananRange && District(p) != "", job);
  }

  lemma SingleApart(r: Row, entry: string, job: string)
    requires Named(r, job)
    ensures Apart([Create(r), Upsert(entry)], job) && Apart([Upsert(entry)], job) && Apart([], job)
  {
  }

  /** A skipped duplicate is never a different record of the job, nor any row of another job. */
  lemma HashTellsRowsApart(job: string, k: JobKind, payload: Json, env: Env)
    ensures Apart(Plan(job, k, payload, env), job)
  {
    var p := AsRecord(Some(payload));
    DigestHash(job, p);
    SingleApart(DigestRow(job, p), "processed.consigner_summary", job);
    SingleApart(DigestRow(job, p), "processed.vehicle_trip_summary", job);
    match k
    case KhananRange => BatchPlanApart(job, k, p, env);
    case ChallanBackfill => BatchPlanApart(job, k, p, env);
    case Vehicle(v) =>
      VehicleHash(job, v, p, env);
      SingleApart(VehicleRow(job, v, p, env), "processed.vehicle_compliance_summary", job);
    case ConsignerDigest =>
    case TripRollup =>
  }

  /** A skipped create is one whose very row is already there. */
  ghost predicate Settled(rows: Rows, r: Row) { KeyOf(r) in rows && rows[KeyOf(r)] == r }

  // ------------------------------------------------------------------ the run, as the worker executes it

  /** A run in which `accepted` calls went through did a prefix of its plan, and reports it when it was all of it. */
  ghost predicate Ran(before: Rows, after: Rows, plan: seq<Write>, accepted: nat, summary: Summary, died: bool) {
    && (died <==> accepted < |plan|)
    && after == Applied(before, plan[..if died then accepted else |plan|])
    && (!died ==> summary == SummaryOf(before, plan))
  }

  lemma NothingRan(rows: Rows, accepted: nat)
    ensures Ran(rows, rows, [], accepted, Summary([], []), false)
  {
    var none: seq<Write> := [];
    assert none[..0] == [];
  }

  lemma UpsertRan(rows: Rows, entry: string, accepted: nat)
    ensures Ran(rows, rows, [Upsert(entry)], accepted,
                if accepted == 0 then Summary([], []) else Summary([entry], []), accepted == 0)
  {
    var plan := [Upsert(entry)];
    AppliedSnoc(rows, [], Upsert(entry));
    assert plan[..0] == [] && plan[..1] == plan == [] + plan;
  }

  /** The raw tables; `accepted` below is how many awaited calls succeed before the database or the process fails. */
  class RawTables {
    var rows: Rows

    constructor () ensures rows == map[] { rows := map[]; }

    method TryCreate(r: Row, summary: Summary) returns (summary': Summary)
      modifies this
      ensures rows == Insert(old(rows), Create(r))
      ensures summary' == if KeyOf(r) in old(rows)
              then summary.(skippedDuplicate := summary.skippedDuplicate + [r.table])
                          else summary.(wrote := summary.wrote + [r.table])
    {
      if KeyOf(r) in rows {
        summary' := summary.(skippedDuplicate := summary.skippedDuplicate + [r.table]);
      } else {
        rows := rows[KeyOf(r) := r];
        summary' := summary.(wrote := summary.wrote + [r.table]);
      }
    }

    /** The record loop of the two batch kinds. */
    method CreateRecords(records: seq<Object>, rowOf: Object -> Row, accepted: nat)
      returns (summary: Summary, died: bool)
      modifies this
      ensures Ran(old(rows), rows, RecordWrites(records, rowOf), accepted, summary, died)
    {
      summary, died := Summary([], []), false;
      ghost var plan := RecordWrites(records, rowOf);
      WritesPrefix(records, |records|, rowOf);
      var i := 0;
      while i < |records|
        invariant 0 <= i <= |records| && i <= accepted
        invariant rows == Applied(old(rows), plan[..i]) && summary == SummaryOf(old(rows), plan[..i])
      {
        if i == accepted { died := true; return; }
        WriteAt(records, rowOf, i);
        AppliedSnoc(old(rows), plan[..i], plan[i]);
        assert plan[..i + 1] == plan[..i] + [plan[i]];
        summary := TryCreate(rowOf(records[i]), summary);
        i := i + 1;
      }
      assert plan[..|plan|] == plan;
    }

    /** persistIngestArtifacts: whatever it manages before failing is a prefix of the plan. */
    method PersistIngestArtifacts(job: string, k: JobKind, payload: Json, env: Env, accepted: nat)
      returns (summary: Summary, died: bool)
      modifies this
      ensures Ran(old(rows), rows, Plan(job, k, payload, env), accepted, summary, died)
    {
      var p := AsRecord(Some(payload));
      summary, died := Summary([], []), false;
      NothingRan(rows, accepted);
      match k {
        case KhananRange =>
          if HasText(p, "fromDate") && HasText(p, "toDate") {
            summary, died := PersistBatch(AsArray(Get(p, "records")), RowMaker(job, k, p, env),
                                          EmptyRow(job, k, p, env),
                                          District(p) != "", accepted);
          }
        case ChallanBackfill =>
          summary, died := PersistBatch(AsArray(Get(p, "challans")), RowMaker(job, k, p, env), EmptyRow(job, k, p, env),
                                        false, accepted);
        case Vehicle(v) =>
          if Reg(Get(p, "vehicleRegNo")) != "" {
            summary, died := PersistOne(VehicleRow(job, v, p, env), "processed.vehicle_compliance_summary", accepted);
          }
        case ConsignerDigest =>
          if AsTrimmedString(Get(p, "consignerKey")) != "" {
            summary, died := PersistOne(DigestRow(job, p), "processed.consigner_summary", accepted);
          }
        case TripRollup =>
          if Reg(Get(p, "vehicleRegNo")) != "" {
            UpsertRan(rows, "processed.vehicle_trip_summary", accepted);
            if accepted == 0 { died := true; return; }
            summary := Summary(["processed.vehicle_trip_summary"], []);
          }
      }
    }

    method PersistOne(r: Row, entry: string, accepted: nat) returns (summary: Summary, died: bool)
      modifies this
      ensures Ran(old(rows), rows, [Create(r), Upsert(entry)], accepted, summary, died)
    {
      ghost var plan := [Create(r), Upsert(entry)];
      AppliedSnoc(rows, [], Create(r));
      AppliedSnoc(rows, [Create(r)], Upsert(entry));
      assert plan[..0] == [] && plan[..1] == [] + [Create(r)] && plan[..2] == plan == [Create(r)] + [Upsert(entry)];
      summary, died := Summary([], []), accepted < 2;
      if accepted == 0 { return; }
      summary := TryCreate(r, summary);
      if accepted == 1 { return; }
      summary := summary.(wrote := summary.wrote + [entry]);
    }

    /** One row per record, or the row of an empty batch. */
    method CreateBatch(records: seq<Object>, rowOf: Object -> Row, empty: Row, accepted: nat)
      returns (summary: Summary, died: bool)
      modifies this
      ensures Ran(old(rows), rows, BatchWrites(records, rowOf, empty, false), accepted, summary, died)
    {
      ghost var plan := BatchWrites(records, rowOf, empty, false);
      if records != [] {
        assert plan == RecordWrites(records, rowOf);
        summary, died := CreateRecords(records, rowOf, accepted);
      } else {
        summary, died := Summary([], []), accepted == 0;
        AppliedSnoc(rows, [], Create(empty));
        assert plan == [] + [Create(empty)] && plan[..0] == [] && plan[..1] == plan;
        if died { return; }
        summary := TryCreate(empty, summary);
      }
    }

    method PersistBatch(items: seq<Json>, rowOf: Object -> Row, empty: Row, districtSeen: bool, accepted: nat)
      returns (summary: Summary, died: bool)
      modifies this
      ensures Ran(old(rows), rows, BatchWrites(Records(items), rowOf, empty, districtSeen), accepted, summary, died)
    {
      var records := FilterRecords(items);
      ghost var creates := BatchWrites(records, rowOf, empty, false);
      summary, died := CreateBatch(records, rowOf, empty, accepted);
      if districtSeen {
        ghost var plan := creates + [Upsert("processed.district_summary")];
        assert plan == BatchWrites(records, rowOf, empty, true);
        if died {
          assert plan[..accepted] == creates[..accepted];
          return;
        }
        AppliedSnoc(old(rows), creates, Upsert("processed.district_summary"));
        assert creates[..|creates|] == creates == plan[..|creates|] && plan[..|plan|] == plan;
        if accepted < |records| + (if |records| == 0 then 2 else 1) {
          WritesPrefix(records, 0, rowOf);
          died := true;
          return;
        }
        WritesPrefix(records, 0, rowOf);
        summary := summary.(wrote := summary.wrote + ["processed.district_summary"]);
      }
    }
  }

  lemma AppliedSnoc(rows: Rows, plan: seq<Write>, w: Write)
    ensures Applied(rows, plan + [w]) == Insert(Applied(rows, plan), w)
    ensures var before := SummaryOf(rows, plan);
            SummaryOf(rows, plan + [w]) ==
            if Duplicate(Applied(rows, plan), w)
              then before.(skippedDuplicate := before.skippedDuplicate + [EntryOf(w)])
            else before.(wrote := before.wrote + [EntryOf(w)])
  {
    assert (plan + [w])[..|plan|] == plan;
  }

  method FilterRecords(items: seq<Json>) returns (records: seq<Object>)
    ensures records == Records(items) && |records| == ObjectCount(items)
    ensures forall rec :: rec in records <==> JObj(rec) in items
  {
    RecordsExactly(items);
    records := [];
    for i := 0 to |items|
      invariant records == Records(items[..i])
    {
      assert items[..i + 1][..i] == items[..i];
      if items[i].JObj? { records := records + [items[i].fields]; }
    }
    assert items[..|items|] == items;
  }

  lemma {:induction false} WriteAt(records: seq<Object>, rowOf: Object -> Row, n: nat)
    requires n < |records|
    ensures |RecordWrites(records, rowOf)| == |records| && RecordWrites(records, rowOf)[n] == Create(rowOf(records[n]))
  {
    WritesPrefix(records, |records|, rowOf);
    if n < |records| - 1 { WriteAt(records[..|records| - 1], rowOf, n); }
  }

  lemma {:induction false} WritesPrefix(records: seq<Object>, n: nat, rowOf: Object -> Row)
    requires n <= |records|
    ensures |RecordWrites(records, rowOf)| == |records|
    ensures RecordWrites(records, rowOf)[..n] == RecordWrites(records[..n], rowOf)
  {
    if n == |records| {
      assert records[..n] == records;
      if n > 0 { WritesPrefix(records[..n - 1], n - 1, rowOf); }
    } else {
      WritesPrefix(records[..|records| - 1], n, rowOf);
      assert records[..|records| - 1][..n] == records[..n];
    }
  }
}
