/** Pool keys (packages/browser-pool/src/index.js): which engine serves a tenant and portal. */
module PoolKeys {
  import opened Basics
  import opened Strings

  predicate Allowed(c: char) {
    'a' <= c <= 'z' || '0' <= c <= '9' || c == '.' || c == '_' || c == '-'
  }

  predicate Clean(s: string) { forall i :: 0 <= i < |s| ==> Allowed(s[i]) }

  /** Replaces every run of other characters by one underscore. */
  function Collapse(s: string, inRun: bool): (r: string)
    ensures Clean(r)
    ensures s != [] && !inRun ==> r != []
  {
    if s == [] then []
    else if Allowed(s[0]) then [s[0]] + Collapse(s[1..], false)
    else (if inRun then [] else "_") + Collapse(s[1..], true)
  }

  lemma {:induction false} CollapseKeepsClean(s: string, inRun: bool)
    requires Clean(s)
    ensures Collapse(s, inRun) == s
  {
    if s == [] {
    } else {
      CollapseKeepsClean(s[1..], false);
    }
  }

  function Truncated(s: string): string { s[..Min(128, |s|)] }

  function NormalizeSegment(segment: Option<string>, fallback: string): (r: string)
    ensures Clean(r) && |r| <= 128
    ensures fallback != [] ==> r != []
  {
    var s := Lower(Trim(if segment.Some? then segment.value else fallback));
    var base := if |s| > 0 then s else fallback;
    Truncated(Collapse(base, false))
  }

  function MakePoolKey(tenant: Option<string>, portal: Option<string>): string {
    NormalizeSegment(tenant, "default") + "::" + NormalizeSegment(portal, "_")
  }

  /** resolvePoolKey with the option object given; the two slugs come from the environment. */
  function ResolvePoolKey(tenant: Option<string>, portal: Option<string>, slug: Option<string>,
                          id: Option<string>): string {
    MakePoolKey(Some(EngineTenant(tenant, slug, id)), portal)
  }

  function EngineTenant(tenant: Option<string>, slug: Option<string>, id: Option<string>): string {
    var fromOpts := if tenant.Some? then Trim(tenant.value) else "";
    var fromSlug := if slug.Some? then Trim(slug.value) else "";
    var fromId := if id.Some? then Trim(id.value) else "";
    if fromOpts != "" then fromOpts else if fromSlug != "" then fromSlug
    else if fromId != "" then fromId else "default"
  }

  lemma CleanIsPlain(s: string)
    requires Clean(s)
    ensures Trim(s) == s && Lower(s) == s
  {
    PlainEnds(s);
    TrimKeeps(s);
    PlainLower(s);
  }

  lemma PlainEnds(s: string)
    requires Clean(s)
    ensures s == [] || (!IsSpace(s[0]) && !IsSpace(s[|s| - 1]))
  {
  }

  lemma PlainLower(s: string)
    requires Clean(s)
    ensures Lower(s) == s
  {
    forall i | 0 <= i < |s| ensures LowerChar(s[i]) == s[i] {}
  }

  lemma CleanSegmentKept(s: string, fallback: string)
    requires Clean(s) && 0 < |s| <= 128
    ensures NormalizeSegment(Some(s), fallback) == s
  {
    CleanIsPlain(s);
    KeptWhole(s, Lower(Trim(s)));
  }

  lemma KeptWhole(s: string, u: string)
    requires Clean(s) && |s| <= 128 && u == s
    ensures Truncated(Collapse(u, false)) == s
  {
    CollapseKeepsClean(u, false);
    assert s[..|s|] == s;
  }

  /** A normalised segment normalises to itself. */
  lemma NormalizeTwice(segment: Option<string>, fallback: string)
    requires fallback != []
    ensures var r := NormalizeSegment(segment, fallback); NormalizeSegment(Some(r), fallback) == r
  {
    CleanSegmentKept(NormalizeSegment(segment, fallback), fallback);
  }

  lemma LowerTrimCommute(s: string)
    ensures Lower(Trim(s)) == Trim(Lower(s))
  {
    var lead, tail := TrimExactly(s);
    LowerPieces(lead, Trim(s), tail);
  }

  lemma LowerPieces(lead: string, mid: string, tail: string)
    requires AllSpace(lead) && AllSpace(tail) && (mid == "" || (!IsSpace(mid[0]) && !IsSpace(mid[|mid| - 1])))
    ensures Trim(Lower(lead + mid + tail)) == Lower(mid)
  {
    LowerParts(lead + mid, tail);
    LowerParts(lead, mid);
    LowerSpaces(lead);
    LowerSpaces(tail);
    if mid == "" {
      BlankExactly(Lower(lead + mid + tail));
    } else {
      LowerSolid(mid);
      TrimBetween(Lower(lead), Lower(mid), Lower(tail));
    }
  }

  lemma LowerParts(a: string, b: string)
    ensures Lower(a + b) == Lower(a) + Lower(b)
  {
  }

  lemma LowerSpaces(s: string)
    requires AllSpace(s)
    ensures AllSpace(Lower(s))
  {
    forall i | 0 <= i < |s| ensures IsSpace(Lower(s)[i]) { assert IsSpace(s[i]); }
  }

  lemma LowerSolid(s: string)
    requires s != "" && !IsSpace(s[0]) && !IsSpace(s[|s| - 1])
    ensures Lower(s) != "" && !IsSpace(Lower(s)[0]) && !IsSpace(Lower(s)[|s| - 1])
  {
  }

  /** The two texts differ in letter case at most. */
  ghost predicate SameLetters(s: string, t: string) {
    |s| == |t| && forall i :: 0 <= i < |s| ==> LowerChar(s[i]) == LowerChar(t[i])
  }

  /** Letter case does not matter to a segment. */
  lemma SegmentIgnoresCase(s: string, t: string, fallback: string)
    requires SameLetters(s, t)
    ensures NormalizeSegment(Some(s), fallback) == NormalizeSegment(Some(t), fallback)
  {
    LowerTrimCommute(s);
    LowerTrimCommute(t);
    assert Lower(s) == Lower(t);
  }

  lemma {:induction false} CollapseRun(run: string, rest: string, inRun: bool)
    requires run != "" && (forall i :: 0 <= i < |run| ==> !Allowed(run[i])) && (rest == "" || Allowed(rest[0]))
    ensures Collapse(run + rest, inRun) == (if inRun then "" else "_") + Collapse(rest, false)
    decreases |run|
  {
    assert (run + rest)[1..] == run[1..] + rest;
    if |run| == 1 {
      assert run[1..] + rest == rest;
      if rest != "" { assert Collapse(rest, true) == Collapse(rest, false); }
    } else {
      CollapseRun(run[1..], rest, true);
    }
  }

  /** Other characters: each whole run of them becomes one underscore, and what is clean around it stays. */
  lemma {:induction false} RunsCollapse(clean: string, run: string, rest: string)
    requires Clean(clean) && run != "" && (forall i :: 0 <= i < |run| ==> !Allowed(run[i]))
    requires rest == "" || Allowed(rest[0])
    ensures Collapse(clean + run + rest, false) == clean + "_" + Collapse(rest, false)
    decreases |clean|
  {
    if clean == "" {
      assert clean + run + rest == run + rest;
      CollapseRun(run, rest, false);
    } else {
      assert (clean + run + rest)[1..] == clean[1..] + run + rest;
      RunsCollapse(clean[1..], run, rest);
    }
  }

  /**
   * A name of letters, digits, dots, underscores and hyphens becomes its lower-case form, cut after
   * 128 characters. So different lower-case names of at most that length have different segments.
   */
  lemma SegmentOfName(s: string, fallback: string)
    requires s != "" && Clean(Lower(s))
    ensures NormalizeSegment(Some(s), fallback) == if |s| <= 128 then Lower(s) else Lower(s)[..128]
  {
    LowerTrimCommute(s);
    CleanIsPlain(Lower(s));
    CollapseKeepsClean(Lower(s), false);
    assert NormalizeSegment(Some(s), fallback) == Truncated(Lower(s));
    assert Lower(s)[..|s|] == Lower(s);
  }

  lemma SeparatorSplits(a: string, b: string, c: string, d: string)
    requires Clean(a) && Clean(c)
    ensures a + "::" + b == c + "::" + d <==> a == c && b == d
  {
    var k1, k2 := a + "::" + b, c + "::" + d;
    assert k1[|a|] == ':' && k2[|c|] == ':';
    assert |a| < |c| ==> k2[|a|] == c[|a|];
    assert |c| < |a| ==> k1[|c|] == a[|c|];
    assert k1[..|a|] == a && k2[..|c|] == c;
    assert k1[|a| + 2..] == b && k2[|c| + 2..] == d;
  }

  /** Two tenant and portal pairs share an engine exactly when both segments normalise alike. */
  lemma PoolKeySeparates(t1: Option<string>, p1: Option<string>, t2: Option<string>, p2: Option<string>)
    ensures MakePoolKey(t1, p1) == MakePoolKey(t2, p2) <==>
            NormalizeSegment(t1, "default") == NormalizeSegment(t2, "default") &&
            NormalizeSegment(p1, "_") == NormalizeSegment(p2, "_")
  {
    SeparatorSplits(NormalizeSegment(t1, "default"), NormalizeSegment(p1, "_"),
                    NormalizeSegment(t2, "default"), NormalizeSegment(p2, "_"));
  }

  /** The i-th of these is the first that is not blank. */
  ghost predicate FirstGiven(names: seq<Option<string>>, i: nat) {
    i < |names| && Given(names[i]) && forall j :: 0 <= j < i ==> !Given(names[j])
  }

  lemma FirstOfThree(a: Option<string>, b: Option<string>, c: Option<string>, i: nat)
    requires FirstGiven([a, b, c], i)
    ensures i < 3 && (i == 0 ==> Given(a)) && (i == 1 ==> !Given(a) && Given(b))
    ensures i == 2 ==> !Given(a) && !Given(b) && Given(c)
  {
    var names := [a, b, c];
    assert i > 0 ==> !Given(names[0]);
    assert i > 1 ==> !Given(names[1]);
  }

  /** An engine serves the tenant asked for, else the environment's slug, else its id, else the default tenant. */
  lemma EngineTenantExactly(tenant: Option<string>, slug: Option<string>, id: Option<string>)
    ensures forall i: nat :: FirstGiven([tenant, slug, id], i) ==>
              TrimmedFrom(EngineTenant(tenant, slug, id), [tenant, slug, id][i].value)
    ensures !Given(tenant) && !Given(slug) && !Given(id) ==> EngineTenant(tenant, slug, id) == "default"
  {
    GivenExactly(tenant);
    GivenExactly(slug);
    GivenExactly(id);
    forall i: nat | FirstGiven([tenant, slug, id], i)
      ensures TrimmedFrom(EngineTenant(tenant, slug, id), [tenant, slug, id][i].value)
    {
      FirstOfThree(tenant, slug, id, i);
    }
  }

  /** For a named tenant the pool key the server stores is the key of the engine that leases. */
  lemma StoredKeyIsEngineKey(tenant: string, portal: Option<string>, slug: Option<string>, id: Option<string>)
    requires Trim(tenant) != ""
    ensures MakePoolKey(Some(tenant), portal) == ResolvePoolKey(Some(tenant), portal, slug, id)
  {
    TrimTwice(tenant);
  }
}

/**
 * The lease table of one browser-manager replica (apps/worker-ingest/src/browserManagerServer.js)
 * with its per-tenant index, which fair-share checks and the operations endpoint read.
 */
module LeaseRegistry {
  import opened Basics
  import opened Strings
  import opened PoolKeys

  type LeaseId = string
  type Tenant = string

  datatype Lease = Lease(poolKey: string, tenant: Tenant, expiresAt: int)

  ghost function LeasesOf(leases: map<LeaseId, Lease>, t: Tenant): set<LeaseId> {
    set l | l in leases && leases[l].tenant == t
  }

  /** The index holds exactly the tenants with a live lease, each with its number of leases. */
  ghost predicate IndexExact(leases: map<LeaseId, Lease>, active: map<Tenant, nat>) {
    forall t :: (if t in active then active[t] else 0) == |LeasesOf(leases, t)| && (t in active ==> active[t] > 0)
  }

  function Incr(active: map<Tenant, nat>, t: Tenant): map<Tenant, nat> {
    active[t := (if t in active then active[t] else 0) + 1]
  }

  function Decr(active: map<Tenant, nat>, t: Tenant): map<Tenant, nat> {
    var cur := if t in active then active[t] else 0;
    if cur <= 1 then active - {t} else active[t := cur - 1]
  }

  lemma IncrKeepsIndex(leases: map<LeaseId, Lease>, active: map<Tenant, nat>, l: LeaseId, lease: Lease)
    requires IndexExact(leases, active) && l !in leases
    ensures IndexExact(leases[l := lease], Incr(active, lease.tenant))
  {
    forall t ensures |LeasesOf(leases[l := lease], t)| == |LeasesOf(leases, t)| + if t == lease.tenant then 1 else 0 {
      SameButOne(LeasesOf(leases, t), LeasesOf(leases[l := lease], t), l);
    }
  }

  lemma DecrKeepsIndex(leases: map<LeaseId, Lease>, active: map<Tenant, nat>, l: LeaseId)
    requires IndexExact(leases, active) && l in leases
    ensures IndexExact(leases - {l}, Decr(active, leases[l].tenant))
  {
    forall t ensures |LeasesOf(leases - {l}, t)| == |LeasesOf(leases, t)| - if t == leases[l].tenant then 1 else 0 {
      SameButOne(LeasesOf(leases, t), LeasesOf(leases - {l}, t), l);
    }
  }

  /** The leases left when all but todo have been visited: expired ones are gone. */
  ghost function Alive(start: map<LeaseId, Lease>, todo: set<LeaseId>, now: int): map<LeaseId, Lease> {
    map l | l in start && (l in todo || start[l].expiresAt > now) :: start[l]
  }

  ghost function Expired(start: map<LeaseId, Lease>, todo: set<LeaseId>, now: int): map<LeaseId, Lease> {
    map l | l in start && l !in todo && start[l].expiresAt <= now :: start[l]
  }

  lemma VisitLease(start: map<LeaseId, Lease>, todo: set<LeaseId>, now: int, l: LeaseId)
    requires l in todo && l in start
    ensures l in Alive(start, todo, now) && Alive(start, todo, now)[l] == start[l]
    ensures start[l].expiresAt > now ==>
              Alive(start, todo - {l}, now) == Alive(start, todo, now) &&
              Expired(start, todo - {l}, now) == Expired(start, todo, now)
    ensures start[l].expiresAt <= now ==>
              Alive(start, todo - {l}, now) == Alive(start, todo, now) - {l} &&
              Expired(start, todo - {l}, now) == Expired(start, todo, now)[l := start[l]]
  {
  }

  /** The key under which leaseRemoteBrowser finds the tenant's engine, whatever the environment's slugs are. */
  ghost predicate IsEngineKey(key: string, tenant: Tenant, portal: Option<string>) {
    forall slug, id :: key == ResolvePoolKey(Some(tenant), portal, slug, id)
  }

  lemma EngineKeyStored(tenant: Tenant, portal: Option<string>)
    requires Trim(tenant) != ""
    ensures IsEngineKey(MakePoolKey(Some(tenant), portal), tenant, portal)
  {
    forall slug, id ensures MakePoolKey(Some(tenant), portal) == ResolvePoolKey(Some(tenant), portal, slug, id) {
      StoredKeyIsEngineKey(tenant, portal, slug, id);
    }
  }

  class Registry {
    var leases: map<LeaseId, Lease>
    var active: map<Tenant, nat>

    ghost predicate Valid() reads this { IndexExact(leases, active) }

    constructor ()
      ensures Valid() && leases == map[]
    {
      leases, active := map[], map[];
      new;
      forall t ensures LeasesOf(leases, t) == {} {
      }
    }

    method LocalTenantIncr(t: Tenant)
      modifies this`active
      ensures active == Incr(old(active), t)
    {
      active := active[t := (if t in active then active[t] else 0) + 1];
    }

    method LocalTenantDecr(t: Tenant)
      modifies this`active
      ensures active == Decr(old(active), t)
    {
      var cur: int := if t in active then active[t] else 0;
      var next: int := Max(0, cur - 1);
      if next == 0 {
        active := active - {t};
      } else {
        active := active[t := next];
      }
    }

    /** The acquire handler once leaseRemoteBrowser has answered; ids are fresh random UUIDs. */
    method Grant(leaseId: LeaseId, tenant: Tenant, portal: string, expiresAt: int)
      requires Valid() && leaseId !in leases && Trim(tenant) != ""
      modifies this
      ensures Valid()
      ensures leases == old(leases)[leaseId := Lease(MakePoolKey(Some(tenant), Some(portal)), tenant, expiresAt)]
      ensures IsEngineKey(MakePoolKey(Some(tenant), Some(portal)), tenant, Some(portal))
    {
      EngineKeyStored(tenant, Some(portal));
      Store(leaseId, Lease(MakePoolKey(Some(tenant), Some(portal)), tenant, expiresAt));
    }

    method Store(leaseId: LeaseId, lease: Lease)
      requires Valid() && leaseId !in leases
      modifies this
      ensures Valid() && leases == old(leases)[leaseId := lease]
    {
      IncrKeepsIndex(leases, active, leaseId, lease);
      LocalTenantIncr(lease.tenant);
      leases := leases[leaseId := lease];
    }

    /**
     * safeReleaseLease up to its first await. Only the caller that finds the lease goes on to
     * return its quota; whoever comes second finds nothing.
     */
    method TakeForRelease(leaseId: LeaseId) returns (found: Option<Lease>)
      requires Valid()
      modifies this
      ensures Valid() && leases == old(leases) - {leaseId}
      ensures found == if leaseId in old(leases) then Some(old(leases)[leaseId]) else None
    {
      if leaseId !in leases { return None; }
      found := Some(leases[leaseId]);
      DecrKeepsIndex(leases, active, leaseId);
      leases := leases - {leaseId};
      LocalTenantDecr(found.value.tenant);
    }

    /** One run of the lease garbage collector: exactly the leases past their deadline are taken. */
    method CollectExpired(now: int) returns (taken: map<LeaseId, Lease>)
      requires Valid()
      modifies this
      ensures Valid() && leases == Alive(old(leases), {}, now) && taken == Expired(old(leases), {}, now)
      ensures forall l :: l in taken <==> l in old(leases) && old(leases)[l].expiresAt <= now
      ensures forall l :: l in leases <==> l in old(leases) && now < old(leases)[l].expiresAt
      ensures leases + taken == old(leases)
    {
      var todo := leases.Keys;
      taken := map[];
      ghost var start := leases;
      assert Alive(start, todo, now) == leases && Expired(start, todo, now) == map[];
      while todo != {}
        invariant Valid() && todo <= start.Keys
        invariant leases == Alive(start, todo, now) && taken == Expired(start, todo, now)
        decreases todo
      {
        var l :| l in todo;
        VisitLease(start, todo, now, l);
        todo := todo - {l};
        if leases[l].expiresAt <= now {
          var found := TakeForRelease(l);
          taken := taken[l := found.value];
        }
      }
    }
  }
}
