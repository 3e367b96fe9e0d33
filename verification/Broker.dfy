/**
  The economic choice of a model: filters and scores per catalog entry, a stable ranking,
  the incumbent override, and the provider-diverse fallback chain. Times are hours on one
  axis and fractions are reals.
*/
module Broker {
  import opened Wrappers
  import opened Sorting

  const MIN_QUALITY: int := 1
  const MAX_QUALITY: int := 5

  datatype ResourceClass = Subscription | FreeTier | Metered

  /** A catalog entry; `promoted` says whether its promotion is active at the decision. */
  datatype Entry = Entry(
    ref: string, provider: string, vendor: string, family: string, resource: ResourceClass,
    freeClass: bool, enabled: bool, roles: set<string>, minDifficulty: int, promoted: bool,
    inputPrice: Option<real>, outputPrice: Option<real>, maxConcurrency: Option<int>, quality: map<string, int>)

  datatype Window = Window(name: string, used: Option<real>, resetAt: Option<real>)

  datatype Availability = Available | Exhausted | Unavailable

  datatype Snapshot = Snapshot(
    resource: string, availability: Availability, windows: seq<Window>, failures: nat, total: nat,
    retryAfter: Option<real>, expiresAt: Option<real>)

  datatype Reserve = Reserve(fraction: real, windows: map<string, real>)

  datatype Config = Config(
    quality: real, cashCost: real, quotaPressure: real, health: real, perishability: real, diversity: real,
    maxFallbacks: nat, distinctProviders: bool, unknownQuota: real, unknownHealth: real,
    minHealthSamples: nat, maxFailureRate: real, scarcityThreshold: real, scarcityFloor: int,
    horizon: real, burn: map<string, real>, reserves: map<string, Reserve>, defaultQuality: Option<int>,
    minQualityByRole: map<string, int>, inputMtok: real, outputMtok: real, referencePrice: real)
  {
    /** What the configuration loader has checked. */
    predicate WellFormed() {
      && quality >= 0.0 && cashCost >= 0.0 && quotaPressure >= 0.0 && health >= 0.0
      && perishability >= 0.0 && diversity >= 0.0 && horizon > 0.0 && referencePrice > 0.0
      && inputMtok >= 0.0 && outputMtok >= 0.0
    }
  }

  datatype Demand = Demand(
    role: string, difficulty: int, peers: seq<string>, independentOf: seq<string>, boundedSpend: bool,
    incumbent: Option<string>, inFlight: map<string, int>)

  datatype Scan = Scan(config: Config, snapshots: map<string, Snapshot>, resourceOf: map<string, string>, now: real)

  function Max(x: real, y: real): real {
    if x >= y then x else y
  }

  function Min(x: real, y: real): real {
    if x <= y then x else y
  }

  // ----- Windows -----------------------------------------------------------

  /** A measured window with its reserve applied. */
  datatype View = View(name: string, reserve: real, available: real, hours: Option<real>)

  function ReserveFor(config: Config, resource: string, name: string): real {
    if resource !in config.reserves then 0.0
    else if name in config.reserves[resource].windows then config.reserves[resource].windows[name]
    else config.reserves[resource].fraction
  }

  function ViewOf(config: Config, resource: string, now: real, w: Window): View
    requires w.used.Some?
  {
    var reserve := ReserveFor(config, resource, w.name);
    View(w.name, reserve, Max(0.0, 1.0 - w.used.value) - reserve,
         if w.resetAt.Some? then Some(Max(0.0, w.resetAt.value - now)) else None)
  }

  /** Unmeasured windows are dropped, never assumed empty or full. */
  function Views(config: Config, resource: string, now: real, ws: seq<Window>): seq<View> {
    if ws == [] then []
    else (if ws[0].used.Some? then [ViewOf(config, resource, now, ws[0])] else []) + Views(config, resource, now, ws[1..])
  }

  /** Headroom of the tightest window. */
  function Tightest(views: seq<View>): real
    requires views != []
  {
    if |views| == 1 then views[0].available else Min(views[0].available, Tightest(views[1..]))
  }

  // ----- Score components --------------------------------------------------

  function SnapshotFor(scan: Scan, e: Entry): Option<Snapshot> {
    if e.provider in scan.resourceOf && scan.resourceOf[e.provider] != "" then
      var resource := scan.resourceOf[e.provider];
      if resource in scan.snapshots then Some(scan.snapshots[resource]) else None
    else if e.ref in scan.snapshots then Some(scan.snapshots[e.ref])
    else None
  }

  predicate HasAllowance(e: Entry) {
    e.resource.Subscription? || e.resource.FreeTier?
  }

  function QuotaComponent(config: Config, e: Entry, views: seq<View>): real {
    if views == [] then if HasAllowance(e) then config.unknownQuota else 1.0
    else Max(0.0, Min(1.0, Tightest(views)))
  }

  function FailureRate(s: Snapshot): Option<real> {
    if s.total == 0 then None else Some(s.failures as real / s.total as real)
  }

  function HealthComponent(config: Config, snap: Option<Snapshot>): real {
    if snap.None? || FailureRate(snap.value).None? || snap.value.total < config.minHealthSamples then config.unknownHealth
    else Max(0.0, 1.0 - FailureRate(snap.value).value)
  }

  function Urgency(config: Config, hours: real): real
    requires config.horizon > 0.0
  {
    Max(0.0, 1.0 - hours / config.horizon)
  }

  function PromoPerishability(config: Config, snap: Option<Snapshot>, now: real): real
    requires config.horizon > 0.0
  {
    if snap.None? || snap.value.expiresAt.None? || snap.value.expiresAt.value - now <= 0.0 then 0.0
    else Urgency(config, snap.value.expiresAt.value - now)
  }

  function Surplus(v: View, burn: real): real {
    Max(0.0, v.available - (if v.hours.Some? then burn * v.hours.value else 0.0))
  }

  /** What can still be drawn through every measured window at once. */
  function JointSurplus(views: seq<View>, burn: real): real
    requires views != []
  {
    if |views| == 1 then Surplus(views[0], burn) else Min(Surplus(views[0], burn), JointSurplus(views[1..], burn))
  }

  /** The highest urgency among windows with a known reset; none when no reset is known. */
  function ResetUrgency(config: Config, views: seq<View>): Option<real>
    requires config.horizon > 0.0
  {
    if views == [] then None
    else
      var rest := ResetUrgency(config, views[1..]);
      if views[0].hours.None? then rest
      else if rest.None? then Some(Urgency(config, views[0].hours.value))
      else Some(Max(Urgency(config, views[0].hours.value), rest.value))
  }

  function Gain(surplus: real, urgency: real): real {
    surplus * urgency
  }

  /** Expiring allowance that can still be drawn, or the ending promotion. */
  function PerishableValue(config: Config, burn: real, promo: real, views: seq<View>): real
    requires config.horizon > 0.0
  {
    if views == [] || ResetUrgency(config, views).None? then promo
    else Max(Gain(JointSurplus(views, burn), ResetUrgency(config, views).value), promo)
  }

  function BurnOf(config: Config, snap: Option<Snapshot>): real {
    if snap.Some? && snap.value.resource in config.burn then config.burn[snap.value.resource] else 0.0
  }

  function Perishability(config: Config, snap: Option<Snapshot>, views: seq<View>, now: real): real
    requires config.horizon > 0.0
  {
    PerishableValue(config, BurnOf(config, snap), PromoPerishability(config, snap, now), views)
  }

  function Lookup(catalog: seq<Entry>, ref: string): Option<Entry> {
    if catalog == [] then None
    else if catalog[0].ref == ref then Some(catalog[0])
    else Lookup(catalog[1..], ref)
  }

  function Similarity(catalog: seq<Entry>, e: Entry, peers: seq<string>): real {
    if peers == [] then 0.0
    else
      var rest := Similarity(catalog, e, peers[1..]);
      var peer := Lookup(catalog, peers[0]);
      if peer.None? then rest
      else if e.family != "" && e.family == peer.value.family then rest + 1.0
      else if e.vendor != "" && e.vendor == peer.value.vendor then rest + 0.5
      else rest
  }

  function QualityComponent(config: Config, e: Entry, role: string): real {
    var tier := if role in e.quality then e.quality[role] else config.defaultQuality.GetOr(MIN_QUALITY);
    (tier - MIN_QUALITY) as real / (MAX_QUALITY - MIN_QUALITY) as real
  }

  function Prices(e: Entry): Option<(real, real)> {
    if e.promoted || e.freeClass || e.resource.FreeTier? then Some((0.0, 0.0))
    else if e.inputPrice.None? || e.outputPrice.None? then None
    else Some((e.inputPrice.value, e.outputPrice.value))
  }

  predicate Priced(e: Entry) {
    HasAllowance(e) || (Prices(e).Some? && Prices(e).value.0 >= 0.0 && Prices(e).value.1 >= 0.0)
  }

  function BlendedPrice(config: Config, e: Entry): (r: real)
    requires config.WellFormed() && Priced(e)
    ensures r >= 0.0
  {
    if HasAllowance(e) then 0.0 else Prices(e).value.0 * config.inputMtok + Prices(e).value.1 * config.outputMtok
  }

  function CashComponent(config: Config, e: Entry): real
    requires config.WellFormed() && Priced(e)
  {
    var ratio := BlendedPrice(config, e) / config.referencePrice;
    assert ratio >= 0.0;
    1.0 / (1.0 + ratio)
  }

  function Weighted(config: Config, quality: real, cash: real, quota: real, health: real, perishability: real, similarity: real): real {
    config.quality * quality + config.cashCost * cash + config.quotaPressure * quota
    + config.health * health + config.perishability * perishability - config.diversity * similarity
  }

  function Total(scan: Scan, catalog: seq<Entry>, demand: Demand, e: Entry): real
    requires scan.config.WellFormed() && Priced(e)
  {
    var config, snap := scan.config, SnapshotFor(scan, e);
    var views := if snap.None? then [] else Views(config, snap.value.resource, scan.now, snap.value.windows);
    Weighted(config, QualityComponent(config, e, demand.role), CashComponent(config, e), QuotaComponent(config, e, views),
             HealthComponent(config, snap), Perishability(config, snap, views, scan.now), Min(1.0, Similarity(catalog, e, demand.peers)))
  }

  // ----- Filters -----------------------------------------------------------

  datatype Rejection =
    | Disabled | UnboundedSpend | NotIndependent | WrongRole | TooEasy | Unpriced | AtCap | Unscored | LowQuality
    | AllowanceSpent | Unusable | BackingOff | Failing | ReserveBreached | Scarce

  predicate Independent(catalog: seq<Entry>, e: Entry, refs: seq<string>) {
    refs == [] ||
    (var peer := Lookup(catalog, refs[0]);
     peer.Some? && peer.value.family != "" && e.family != "" && peer.value.family != e.family
     && Independent(catalog, e, refs[1..]))
  }

  predicate KnownPrice(e: Entry) {
    e.promoted || e.freeClass || e.resource.FreeTier? || (e.inputPrice.Some? && e.outputPrice.Some?)
  }

  function RejectOnQuality(config: Config, e: Entry, demand: Demand): Option<Rejection> {
    var quality := if demand.role in e.quality then Some(e.quality[demand.role]) else config.defaultQuality;
    var roleFloor := if demand.role in config.minQualityByRole then config.minQualityByRole[demand.role] else MIN_QUALITY;
    if quality.None? then Some(Unscored)
    else if quality.value < demand.difficulty || quality.value < roleFloor then Some(LowQuality)
    else None
  }

  predicate FarScarce(config: Config, v: View) {
    v.available < config.scarcityThreshold && (v.hours.None? || v.hours.value > config.horizon)
  }

  function RejectOnScarcity(config: Config, demand: Demand, views: seq<View>): Option<Rejection> {
    if demand.difficulty >= config.scarcityFloor then None
    else if exists v | v in views :: FarScarce(config, v) then Some(Scarce)
    else None
  }

  function RejectOnTelemetry(scan: Scan, demand: Demand, e: Entry): Option<Rejection> {
    var config, snap := scan.config, SnapshotFor(scan, e);
    if snap.None? then None
    else
      var s := snap.value;
      if s.availability.Exhausted? then Some(AllowanceSpent)
      else if s.availability.Unavailable? then Some(Unusable)
      else if s.retryAfter.Some? && scan.now < s.retryAfter.value then Some(BackingOff)
      else if FailureRate(s).Some? && s.total >= config.minHealthSamples && FailureRate(s).value > config.maxFailureRate then Some(Failing)
      else
        var views := Views(config, s.resource, scan.now, s.windows);
        if exists v | v in views :: v.available <= 0.0 then Some(ReserveBreached)
        else RejectOnScarcity(config, demand, views)
  }

  /** The first filter the entry fails, or none. */
  function Reject(scan: Scan, catalog: seq<Entry>, demand: Demand, e: Entry): Option<Rejection> {
    if !e.enabled then Some(Disabled)
    else if demand.boundedSpend && !e.freeClass && !e.resource.FreeTier? then Some(UnboundedSpend)
    else if !Independent(catalog, e, demand.independentOf) then Some(NotIndependent)
    else if e.roles != {} && demand.role !in e.roles then Some(WrongRole)
    else if demand.difficulty < e.minDifficulty then Some(TooEasy)
    else if !KnownPrice(e) && !HasAllowance(e) then Some(Unpriced)
    else if e.maxConcurrency.Some? && (if e.ref in demand.inFlight then demand.inFlight[e.ref] else 0) >= e.maxConcurrency.value then Some(AtCap)
    else
      var q := RejectOnQuality(scan.config, e, demand);
      if q.Some? then q else RejectOnTelemetry(scan, demand, e)
  }

  // ----- Ranking -----------------------------------------------------------

  datatype Candidate = Candidate(ref: string, total: real)

  /** Declared prices are nonnegative. */
  predicate Plausible(e: Entry) {
    (e.inputPrice.Some? ==> e.inputPrice.value >= 0.0) && (e.outputPrice.Some? ==> e.outputPrice.value >= 0.0)
  }

  predicate PlausibleCatalog(entries: seq<Entry>) {
    forall e | e in entries :: Plausible(e)
  }

  function Scored(scan: Scan, catalog: seq<Entry>, demand: Demand, entries: seq<Entry>): seq<Candidate>
    requires scan.config.WellFormed() && PlausibleCatalog(entries)
  {
    if entries == [] then []
    else
      assert entries[0] in entries && forall e | e in entries[1..] :: e in entries;
      (if Reject(scan, catalog, demand, entries[0]).None? then [Candidate(entries[0].ref, Total(scan, catalog, demand, entries[0]))] else [])
      + Scored(scan, catalog, demand, entries[1..])
  }

  function Rejected(scan: Scan, catalog: seq<Entry>, demand: Demand, entries: seq<Entry>): seq<(string, Rejection)> {
    if entries == [] then []
    else
      var r := Reject(scan, catalog, demand, entries[0]);
      (if r.Some? then [(entries[0].ref, r.value)] else []) + Rejected(scan, catalog, demand, entries[1..])
  }

  predicate AtLeastAsGood(a: Candidate, b: Candidate) {
    a.total >= b.total
  }

  /** Best first; candidates that score alike keep catalog order. */
  function Ranked(scan: Scan, catalog: seq<Entry>, demand: Demand): seq<Candidate>
    requires scan.config.WellFormed() && PlausibleCatalog(catalog)
  {
    Sort(Scored(scan, catalog, demand, catalog), AtLeastAsGood)
  }

  function Chosen(ranked: seq<Candidate>, incumbent: Option<string>): Option<string> {
    if incumbent.Some? && exists c | c in ranked :: c.ref == incumbent.value then incumbent
    else if ranked == [] then None
    else Some(ranked[0].ref)
  }

  // ----- Independence from unmentioned entries -----------------------------

  lemma {:induction false} LookupSkips(a: seq<Entry>, e: Entry, c: seq<Entry>, ref: string)
    requires ref != e.ref
    ensures Lookup(a + [e] + c, ref) == Lookup(a + c, ref)
  {
    if a == [] {
      assert (a + [e] + c)[1..] == c && a + c == c;
    } else {
      assert (a + [e] + c)[1..] == a[1..] + [e] + c && (a + c)[1..] == a[1..] + c;
      LookupSkips(a[1..], e, c, ref);
    }
  }

  /** Two catalogs that agree on every reference of a list. */
  ghost predicate AgreeOn(p: seq<Entry>, q: seq<Entry>, refs: seq<string>) {
    forall ref | ref in refs :: Lookup(p, ref) == Lookup(q, ref)
  }

  lemma {:induction false} SameSimilarity(p: seq<Entry>, q: seq<Entry>, e: Entry, peers: seq<string>)
    requires AgreeOn(p, q, peers)
    ensures Similarity(p, e, peers) == Similarity(q, e, peers)
  {
    if peers != [] {
      assert peers[0] in peers && forall r | r in peers[1..] :: r in peers;
      SameSimilarity(p, q, e, peers[1..]);
    }
  }

  lemma {:induction false} SameIndependence(p: seq<Entry>, q: seq<Entry>, e: Entry, refs: seq<string>)
    requires AgreeOn(p, q, refs)
    ensures Independent(p, e, refs) == Independent(q, e, refs)
  {
    if refs != [] {
      assert refs[0] in refs && forall r | r in refs[1..] :: r in refs;
      SameIndependence(p, q, e, refs[1..]);
    }
  }

  /** Reasons and scores read the catalog only through the references the demand mentions. */
  lemma SameVerdict(scan: Scan, p: seq<Entry>, q: seq<Entry>, demand: Demand, e: Entry)
    requires scan.config.WellFormed() && Plausible(e)
    requires AgreeOn(p, q, demand.peers) && AgreeOn(p, q, demand.independentOf)
    ensures Reject(scan, p, demand, e) == Reject(scan, q, demand, e)
    ensures Priced(e) ==> Total(scan, p, demand, e) == Total(scan, q, demand, e)
  {
    SameIndependence(p, q, e, demand.independentOf);
    SameSimilarity(p, q, e, demand.peers);
  }

  lemma {:induction false} SameScored(scan: Scan, p: seq<Entry>, q: seq<Entry>, demand: Demand, entries: seq<Entry>)
    requires scan.config.WellFormed() && PlausibleCatalog(entries)
    requires AgreeOn(p, q, demand.peers) && AgreeOn(p, q, demand.independentOf)
    ensures Scored(scan, p, demand, entries) == Scored(scan, q, demand, entries)
    ensures Rejected(scan, p, demand, entries) == Rejected(scan, q, demand, entries)
  {
    if entries != [] {
      assert entries[0] in entries && forall e | e in entries[1..] :: e in entries;
      SameVerdict(scan, p, q, demand, entries[0]);
      SameScored(scan, p, q, demand, entries[1..]);
    }
  }

  lemma PlausibleParts(a: seq<Entry>, b: seq<Entry>)
    requires PlausibleCatalog(a) && PlausibleCatalog(b)
    ensures PlausibleCatalog(a + b)
    ensures a != [] ==> Plausible(a[0]) && PlausibleCatalog(a[1..])
  {
    assert forall e :: e in a + b <==> e in a || e in b;
    assert a != [] ==> a[0] in a && forall e | e in a[1..] :: e in a;
  }

  /** A score list splits along its entries. */
  lemma {:induction false} ScoredConcat(scan: Scan, catalog: seq<Entry>, demand: Demand, a: seq<Entry>, b: seq<Entry>)
    requires scan.config.WellFormed() && PlausibleCatalog(a) && PlausibleCatalog(b)
    ensures PlausibleCatalog(a + b)
    ensures Scored(scan, catalog, demand, a + b) == Scored(scan, catalog, demand, a) + Scored(scan, catalog, demand, b)
  {
    PlausibleParts(a, b);
    if a == [] {
      assert a + b == b;
    } else {
      assert (a + b)[1..] == a[1..] + b;
      ScoredConcat(scan, catalog, demand, a[1..], b);
    }
  }

  lemma {:induction false} RejectedConcat(scan: Scan, catalog: seq<Entry>, demand: Demand, a: seq<Entry>, b: seq<Entry>)
    ensures Rejected(scan, catalog, demand, a + b) == Rejected(scan, catalog, demand, a) + Rejected(scan, catalog, demand, b)
  {
    if a == [] {
      assert a + b == b;
    } else {
      assert (a + b)[1..] == a[1..] + b;
      RejectedConcat(scan, catalog, demand, a[1..], b);
    }
  }

  lemma VerdictSnoc(scan: Scan, catalog: seq<Entry>, demand: Demand, before: seq<Entry>, e: Entry)
    requires scan.config.WellFormed() && PlausibleCatalog(before) && Plausible(e)
    ensures PlausibleCatalog(before + [e])
    ensures Scored(scan, catalog, demand, before + [e])
         == Scored(scan, catalog, demand, before)
            + (if Reject(scan, catalog, demand, e).None? then [Candidate(e.ref, Total(scan, catalog, demand, e))] else [])
    ensures Rejected(scan, catalog, demand, before + [e])
         == Rejected(scan, catalog, demand, before)
            + (if Reject(scan, catalog, demand, e).Some? then [(e.ref, Reject(scan, catalog, demand, e).value)] else [])
  {
    ScoredConcat(scan, catalog, demand, before, [e]);
    RejectedConcat(scan, catalog, demand, before, [e]);
    assert [e][1..] == [];
  }

  /** The loop over the catalog, the stable sort and the choice. */
  method Select(scan: Scan, catalog: seq<Entry>, demand: Demand)
    returns (ranked: seq<Candidate>, rejected: seq<(string, Rejection)>, chosen: Option<string>)
    requires scan.config.WellFormed() && PlausibleCatalog(catalog)
    ensures ranked == Ranked(scan, catalog, demand)
    ensures rejected == Rejected(scan, catalog, demand, catalog)
    ensures chosen == Chosen(ranked, demand.incumbent)
  {
    ranked, rejected := [], [];
    ghost var before: seq<Entry> := [];
    for i := 0 to |catalog|
      invariant before == catalog[..i] && PlausibleCatalog(before)
      invariant ranked == Scored(scan, catalog, demand, before)
      invariant rejected == Rejected(scan, catalog, demand, before)
    {
      var e := catalog[i];
      assert e in catalog;
      VerdictSnoc(scan, catalog, demand, before, e);
      var r := Reject(scan, catalog, demand, e);
      if r.Some? {
        rejected := rejected + [(e.ref, r.value)];
      } else {
        ranked := ranked + [Candidate(e.ref, Total(scan, catalog, demand, e))];
      }
      before := before + [e];
    }
    assert catalog[..|catalog|] == catalog;
    ranked := Sort(ranked, AtLeastAsGood);
    chosen := Chosen(ranked, demand.incumbent);
  }

  lemma {:induction false} ScoredRefs(scan: Scan, catalog: seq<Entry>, demand: Demand, entries: seq<Entry>, ref: string)
    requires scan.config.WellFormed() && PlausibleCatalog(entries)
    requires forall e | e in entries :: e.ref != ref
    ensures forall c | c in Scored(scan, catalog, demand, entries) :: c.ref != ref
    ensures forall r | r in Rejected(scan, catalog, demand, entries) :: r.0 != ref
  {
    if entries != [] {
      assert entries[0] in entries && forall e | e in entries[1..] :: e in entries;
      ScoredRefs(scan, catalog, demand, entries[1..], ref);
    }
  }

  /** Removing the middle part, which `keep` rejects, and nothing else. */
  lemma FilterMiddle<T(!new)>(a: seq<T>, m: seq<T>, c: seq<T>, keep: T -> bool)
    requires (forall x | x in a || x in c :: keep(x)) && (forall x | x in m :: !keep(x))
    ensures Filter(a + m + c, keep) == a + c
  {
    FilterConcat(a + m, c, keep);
    FilterConcat(a, m, keep);
    FilterKeepsAll(a, keep);
    FilterKeepsAll(c, keep);
    FilterKeepsNone(m, keep);
    assert a + [] == a;
  }

  lemma RankingOrder()
    ensures TotalPreorder(AtLeastAsGood)
  {
  }

  ghost predicate Unmentioned(demand: Demand, ref: string) {
    ref !in demand.peers && ref !in demand.independentOf
  }

  lemma OthersAgree(a: seq<Entry>, e: Entry, c: seq<Entry>, demand: Demand)
    requires Unmentioned(demand, e.ref)
    ensures AgreeOn(a + [e] + c, a + c, demand.peers) && AgreeOn(a + [e] + c, a + c, demand.independentOf)
  {
    forall ref | ref in demand.peers || ref in demand.independentOf
      ensures Lookup(a + [e] + c, ref) == Lookup(a + c, ref)
    {
      LookupSkips(a, e, c, ref);
    }
  }

  /**
    Adding a catalog entry the demand does not mention leaves every other entry's score, every
    other rejection with its reason, and the order of the others exactly as they were.
  */
  lemma RankingIgnoresUnrelated(scan: Scan, a: seq<Entry>, e: Entry, c: seq<Entry>, demand: Demand)
    requires scan.config.WellFormed() && PlausibleCatalog(a) && PlausibleCatalog([e]) && PlausibleCatalog(c)
    requires (forall x | x in a || x in c :: x.ref != e.ref) && Unmentioned(demand, e.ref)
    ensures PlausibleCatalog(a + [e] + c) && PlausibleCatalog(a + c)
    ensures Filter(Ranked(scan, a + [e] + c, demand), (x: Candidate) => x.ref != e.ref) == Ranked(scan, a + c, demand)
    ensures Filter(Rejected(scan, a + [e] + c, demand, a + [e] + c), (r: (string, Rejection)) => r.0 != e.ref)
         == Rejected(scan, a + c, demand, a + c)
  {
    PlausibleParts(a, [e]);
    PlausibleParts(a + [e], c);
    PlausibleParts(a, c);
    ScoresIgnoreUnrelated(scan, a, e, c, demand);
    RejectionsIgnoreUnrelated(scan, a, e, c, demand);
    RankingOrder();
    FilterSort(Scored(scan, a + [e] + c, demand, a + [e] + c), AtLeastAsGood, (x: Candidate) => x.ref != e.ref);
  }

  lemma ScoresIgnoreUnrelated(scan: Scan, a: seq<Entry>, e: Entry, c: seq<Entry>, demand: Demand)
    requires scan.config.WellFormed() && PlausibleCatalog(a) && PlausibleCatalog([e]) && PlausibleCatalog(c)
    requires PlausibleCatalog(a + [e] + c) && PlausibleCatalog(a + c)
    requires (forall x | x in a || x in c :: x.ref != e.ref) && Unmentioned(demand, e.ref)
    ensures Filter(Scored(scan, a + [e] + c, demand, a + [e] + c), (x: Candidate) => x.ref != e.ref) == Scored(scan, a + c, demand, a + c)
  {
    var p, q := a + [e] + c, a + c;
    OthersAgree(a, e, c, demand);
    ScoredConcat(scan, p, demand, a, [e]);
    ScoredConcat(scan, p, demand, a + [e], c);
    ScoredConcat(scan, p, demand, a, c);
    SameScored(scan, p, q, demand, q);
    ScoredRefs(scan, p, demand, a, e.ref);
    ScoredRefs(scan, p, demand, c, e.ref);
    NewVerdict(scan, p, demand, e);
    FilterMiddle(Scored(scan, p, demand, a), Scored(scan, p, demand, [e]), Scored(scan, p, demand, c), (x: Candidate) => x.ref != e.ref);
  }

  lemma RejectionsIgnoreUnrelated(scan: Scan, a: seq<Entry>, e: Entry, c: seq<Entry>, demand: Demand)
    requires scan.config.WellFormed() && PlausibleCatalog(a) && PlausibleCatalog([e]) && PlausibleCatalog(c)
    requires PlausibleCatalog(a + c)
    requires (forall x | x in a || x in c :: x.ref != e.ref) && Unmentioned(demand, e.ref)
    ensures Filter(Rejected(scan, a + [e] + c, demand, a + [e] + c), (r: (string, Rejection)) => r.0 != e.ref)
         == Rejected(scan, a + c, demand, a + c)
  {
    var p, q := a + [e] + c, a + c;
    OthersAgree(a, e, c, demand);
    RejectedConcat(scan, p, demand, a, [e]);
    RejectedConcat(scan, p, demand, a + [e], c);
    RejectedConcat(scan, p, demand, a, c);
    SameScored(scan, p, q, demand, q);
    ScoredRefs(scan, p, demand, a, e.ref);
    ScoredRefs(scan, p, demand, c, e.ref);
    NewVerdict(scan, p, demand, e);
    FilterMiddle(Rejected(scan, p, demand, a), Rejected(scan, p, demand, [e]), Rejected(scan, p, demand, c), (r: (string, Rejection)) => r.0 != e.ref);
  }

  lemma NewVerdict(scan: Scan, catalog: seq<Entry>, demand: Demand, e: Entry)
    requires scan.config.WellFormed() && PlausibleCatalog([e])
    ensures forall x | x in Scored(scan, catalog, demand, [e]) :: x.ref == e.ref
    ensures forall r | r in Rejected(scan, catalog, demand, [e]) :: r.0 == e.ref
  {
    assert [e][1..] == [];
  }

  // ----- Fallback chain ----------------------------------------------------

  /** An entry without provider shares one unknown failure domain with all such entries. */
  function ProviderOf(catalog: seq<Entry>, ref: string): string {
    var e := Lookup(catalog, ref);
    if e.None? || e.value.provider == "" then "<unset-provider>" else e.value.provider
  }

  predicate Shares(catalog: seq<Entry>, ref: string, others: seq<string>) {
    exists o | o in others :: ProviderOf(catalog, o) == ProviderOf(catalog, ref)
  }

  /** Whether `ref` may extend the alternates collected so far. */
  predicate Links(config: Config, catalog: seq<Entry>, chosen: string, collected: seq<string>, ref: string) {
    ref != chosen && |collected| < config.maxFallbacks
    && !(config.distinctProviders && Shares(catalog, ref, [chosen] + collected))
  }

  function Chain(config: Config, catalog: seq<Entry>, refs: seq<string>, chosen: string): seq<string> {
    if refs == [] then []
    else
      var before := Chain(config, catalog, refs[..|refs| - 1], chosen);
      var ref := refs[|refs| - 1];
      if Links(config, catalog, chosen, before, ref) then before + [ref] else before
  }

  method FallbackChain(config: Config, catalog: seq<Entry>, refs: seq<string>, chosen: Option<string>) returns (chain: seq<string>)
    ensures chain == if chosen.None? then [] else Chain(config, catalog, refs, chosen.value)
  {
    chain := [];
    if chosen.None? {
      return;
    }
    var seen := {ProviderOf(catalog, chosen.value)};
    for i := 0 to |refs|
      invariant chain == Chain(config, catalog, refs[..i], chosen.value)
      invariant seen == set o | o in [chosen.value] + chain :: ProviderOf(catalog, o)
    {
      var ref := refs[i];
      assert refs[..i + 1][..i] == refs[..i] && refs[..i + 1][i] == ref;
      assert ProviderOf(catalog, ref) in seen <==> Shares(catalog, ref, [chosen.value] + chain);
      if ref != chosen.value && |chain| < config.maxFallbacks
         && !(config.distinctProviders && ProviderOf(catalog, ref) in seen) {
        ProvidersGrow(catalog, [chosen.value] + chain, ref);
        assert [chosen.value] + chain + [ref] == [chosen.value] + (chain + [ref]);
        seen := seen + {ProviderOf(catalog, ref)};
        chain := chain + [ref];
      }
    }
    assert refs[..|refs|] == refs;
  }

  lemma ProvidersGrow(catalog: seq<Entry>, refs: seq<string>, ref: string)
    ensures (set o | o in refs + [ref] :: ProviderOf(catalog, o)) == (set o | o in refs :: ProviderOf(catalog, o)) + {ProviderOf(catalog, ref)}
  {
    assert forall o :: o in refs + [ref] <==> o in refs || o == ref;
  }

  /** Elements of `s` in the order of `t`, each position used once. */
  predicate Subsequence(s: seq<string>, t: seq<string>)
    decreases |t|
  {
    s == [] || (t != [] && if s[|s| - 1] == t[|t| - 1] then Subsequence(s[..|s| - 1], t[..|t| - 1]) else Subsequence(s, t[..|t| - 1]))
  }

  lemma {:induction false} SubsequenceGrows(s: seq<string>, t: seq<string>, x: string)
    requires Subsequence(s, t)
    ensures Subsequence(s, t + [x]) && Subsequence(s + [x], t + [x])
    decreases |t|
  {
    assert (t + [x])[..|t|] == t && (s + [x])[..|s|] == s;
    if s != [] && s[|s| - 1] == x {
      SubsequenceDrops(s, t);
    }
  }

  lemma {:induction false} SubsequenceDrops(s: seq<string>, t: seq<string>)
    requires s != [] && Subsequence(s, t)
    ensures Subsequence(s[..|s| - 1], t)
    decreases |t|
  {
    var n := |t| - 1;
    var r := s[..|s| - 1];
    if s[|s| - 1] != t[n] {
      SubsequenceDrops(s, t[..n]);
    }
    if r != [] && r[|r| - 1] == t[n] {
      assert Subsequence(r, t[..n]);
      SubsequenceDrops(r, t[..n]);
    }
  }

  /** No two of the references share a provider. */
  ghost predicate Diverse(catalog: seq<Entry>, refs: seq<string>) {
    forall i, j | 0 <= i < j < |refs| :: ProviderOf(catalog, refs[i]) != ProviderOf(catalog, refs[j])
  }

  lemma DiverseSnoc(catalog: seq<Entry>, refs: seq<string>, ref: string)
    requires Diverse(catalog, refs) && !Shares(catalog, ref, refs)
    ensures Diverse(catalog, refs + [ref])
  {
    forall i | 0 <= i < |refs|
      ensures ProviderOf(catalog, refs[i]) != ProviderOf(catalog, ref)
    {
      assert refs[i] in refs;
    }
  }

  lemma {:induction false} ChainFollowsRanking(config: Config, catalog: seq<Entry>, refs: seq<string>, chosen: string)
    ensures Subsequence(Chain(config, catalog, refs, chosen), refs)
  {
    if refs != [] {
      var n := |refs| - 1;
      ChainFollowsRanking(config, catalog, refs[..n], chosen);
      assert refs == refs[..n] + [refs[n]];
      SubsequenceGrows(Chain(config, catalog, refs[..n], chosen), refs[..n], refs[n]);
    }
  }

  lemma {:induction false} ChainIsDiverse(config: Config, catalog: seq<Entry>, refs: seq<string>, chosen: string)
    requires config.distinctProviders
    ensures Diverse(catalog, [chosen] + Chain(config, catalog, refs, chosen))
  {
    if refs != [] {
      var n := |refs| - 1;
      ChainIsDiverse(config, catalog, refs[..n], chosen);
      var before := Chain(config, catalog, refs[..n], chosen);
      if Links(config, catalog, chosen, before, refs[n]) {
        DiverseSnoc(catalog, [chosen] + before, refs[n]);
        assert [chosen] + before + [refs[n]] == [chosen] + (before + [refs[n]]);
      }
    }
  }

  lemma {:induction false} ChainIsBounded(config: Config, catalog: seq<Entry>, refs: seq<string>, chosen: string)
    ensures |Chain(config, catalog, refs, chosen)| <= config.maxFallbacks && chosen !in Chain(config, catalog, refs, chosen)
  {
    if refs != [] {
      ChainIsBounded(config, catalog, refs[..|refs| - 1], chosen);
    }
  }

  /**
    The chain is a bounded subsequence of the ranking without the chosen model, from pairwise
    different providers when that is required.
  */
  lemma ChainShape(config: Config, catalog: seq<Entry>, refs: seq<string>, chosen: string)
    ensures var chain := Chain(config, catalog, refs, chosen);
            && Subsequence(chain, refs) && |chain| <= config.maxFallbacks && chosen !in chain
            && (config.distinctProviders ==> Diverse(catalog, [chosen] + chain))
  {
    ChainFollowsRanking(config, catalog, refs, chosen);
    ChainIsBounded(config, catalog, refs, chosen);
    if config.distinctProviders {
      ChainIsDiverse(config, catalog, refs, chosen);
    }
  }

  lemma {:induction false} ChainGrows(config: Config, catalog: seq<Entry>, refs: seq<string>, chosen: string, k: nat)
    requires k <= |refs|
    ensures Chain(config, catalog, refs[..k], chosen) <= Chain(config, catalog, refs, chosen)
  {
    if k == |refs| {
      assert refs[..k] == refs;
    } else {
      var n := |refs| - 1;
      assert refs[..n][..k] == refs[..k];
      ChainGrows(config, catalog, refs[..n], chosen, k);
    }
  }

  /** Greedy: a ranked model is left out only because the alternates before it already blocked it. */
  lemma ChainIsGreedy(config: Config, catalog: seq<Entry>, refs: seq<string>, chosen: string, k: nat)
    requires k < |refs|
    ensures var chain, before := Chain(config, catalog, refs, chosen), Chain(config, catalog, refs[..k], chosen);
            && before <= chain
            && (refs[k] !in chain ==>
                  refs[k] == chosen || |before| == config.maxFallbacks
                  || (config.distinctProviders && Shares(catalog, refs[k], [chosen] + before)))
  {
    ChainGrows(config, catalog, refs, chosen, k);
    ChainGrows(config, catalog, refs, chosen, k + 1);
    ChainIsBounded(config, catalog, refs[..k], chosen);
    assert refs[..k + 1][..k] == refs[..k] && refs[..k + 1][k] == refs[k];
    var upTo := Chain(config, catalog, refs[..k + 1], chosen);
    if Links(config, catalog, chosen, Chain(config, catalog, refs[..k], chosen), refs[k]) {
      assert upTo[|upTo| - 1] == refs[k];
    }
  }

  // ----- Quota monotonicity ------------------------------------------------

  /** The same windows, none used less. */
  ghost predicate MoreUsed(ws: seq<Window>, more: seq<Window>) {
    && |ws| == |more|
    && forall i | 0 <= i < |ws| ::
         && more[i].name == ws[i].name && more[i].resetAt == ws[i].resetAt && more[i].used.Some? == ws[i].used.Some?
         && (ws[i].used.Some? ==> ws[i].used.value <= more[i].used.value)
  }

  /** The same windows with no more headroom. */
  ghost predicate Tighter(views: seq<View>, more: seq<View>) {
    && |views| == |more|
    && forall i | 0 <= i < |views| :: more[i].hours == views[i].hours && more[i].available <= views[i].available
  }

  lemma {:induction false} MoreUsedTightens(config: Config, resource: string, now: real, ws: seq<Window>, more: seq<Window>)
    requires MoreUsed(ws, more)
    ensures Tighter(Views(config, resource, now, ws), Views(config, resource, now, more))
  {
    if ws != [] {
      MoreUsedTightens(config, resource, now, ws[1..], more[1..]);
    }
  }

  lemma {:induction false} TightestFalls(views: seq<View>, more: seq<View>)
    requires Tighter(views, more) && views != []
    ensures Tightest(more) <= Tightest(views)
  {
    if |views| > 1 {
      TightestFalls(views[1..], more[1..]);
    }
  }

  lemma SurplusOfOne(v: View, tighter: View, burn: real)
    requires tighter.hours == v.hours && tighter.available <= v.available
    ensures 0.0 <= Surplus(tighter, burn) <= Surplus(v, burn)
  {
    var drawn := if v.hours.Some? then burn * v.hours.value else 0.0;
    assert Surplus(v, burn) == Max(0.0, v.available - drawn);
    assert Surplus(tighter, burn) == Max(0.0, tighter.available - drawn);
  }

  lemma {:induction false} SurplusFalls(views: seq<View>, more: seq<View>, burn: real)
    requires Tighter(views, more) && views != []
    ensures 0.0 <= JointSurplus(more, burn) <= JointSurplus(views, burn)
  {
    SurplusOfOne(views[0], more[0], burn);
    if |views| > 1 {
      SurplusFalls(views[1..], more[1..], burn);
    }
  }

  lemma {:induction false} UrgencySame(config: Config, views: seq<View>, more: seq<View>)
    requires Tighter(views, more) && config.horizon > 0.0
    ensures ResetUrgency(config, more) == ResetUrgency(config, views)
    ensures ResetUrgency(config, views).Some? ==> ResetUrgency(config, views).value >= 0.0
  {
    if views == [] {
      assert more == [];
    } else {
      UrgencySame(config, views[1..], more[1..]);
    }
  }

  lemma Scaled(x: real, y: real, w: real)
    requires x <= y && w >= 0.0
    ensures w * x <= w * y && x * w <= y * w
  {
    assert w * (y - x) >= 0.0;
    assert w * (y - x) == w * y - w * x;
  }

  lemma GainFalls(x: real, y: real, urgency: real)
    requires x <= y && urgency >= 0.0
    ensures Gain(x, urgency) <= Gain(y, urgency)
  {
    Scaled(x, y, urgency);
  }

  lemma PerishableFalls(config: Config, burn: real, promo: real, views: seq<View>, more: seq<View>)
    requires Tighter(views, more) && config.horizon > 0.0
    ensures PerishableValue(config, burn, promo, more) <= PerishableValue(config, burn, promo, views)
  {
    UrgencySame(config, views, more);
    if views == [] {
      assert more == [];
    } else if ResetUrgency(config, views).Some? {
      SurplusFalls(views, more, burn);
      GainFalls(JointSurplus(more, burn), JointSurplus(views, burn), ResetUrgency(config, views).value);
    }
  }

  lemma PerishabilityFalls(config: Config, snap: Option<Snapshot>, after: Option<Snapshot>, views: seq<View>, more: seq<View>, now: real)
    requires Tighter(views, more) && config.horizon > 0.0
    requires snap.Some? && after.Some? && snap.value.resource == after.value.resource && snap.value.expiresAt == after.value.expiresAt
    ensures Perishability(config, after, more, now) <= Perishability(config, snap, views, now)
  {
    PerishableFalls(config, BurnOf(config, snap), PromoPerishability(config, snap, now), views, more);
  }

  lemma QuotaFalls(config: Config, e: Entry, views: seq<View>, more: seq<View>)
    requires Tighter(views, more)
    ensures QuotaComponent(config, e, more) <= QuotaComponent(config, e, views)
  {
    if views != [] {
      TightestFalls(views, more);
    }
  }

  /** The same scan except that the windows of one resource are used more. */
  ghost predicate OnlyMoreUsed(scan: Scan, after: Scan) {
    && after == scan.(snapshots := after.snapshots)
    && after.snapshots.Keys == scan.snapshots.Keys
    && forall r | r in scan.snapshots ::
         && after.snapshots[r] == scan.snapshots[r].(windows := after.snapshots[r].windows)
         && MoreUsed(scan.snapshots[r].windows, after.snapshots[r].windows)
  }

  lemma SnapshotUsedMore(scan: Scan, after: Scan, e: Entry)
    requires OnlyMoreUsed(scan, after)
    ensures var s, t := SnapshotFor(scan, e), SnapshotFor(after, e);
            && s.Some? == t.Some?
            && (s.Some? ==> t.value == s.value.(windows := t.value.windows) && MoreUsed(s.value.windows, t.value.windows))
  {
  }

  /** Raising the used fraction of any measured window never raises a total score. */
  lemma MoreUseNeverRaisesScore(scan: Scan, after: Scan, catalog: seq<Entry>, demand: Demand, e: Entry)
    requires OnlyMoreUsed(scan, after) && scan.config.WellFormed() && Priced(e)
    ensures Total(after, catalog, demand, e) <= Total(scan, catalog, demand, e)
  {
    SnapshotUsedMore(scan, after, e);
    var config := scan.config;
    var s, t := SnapshotFor(scan, e), SnapshotFor(after, e);
    if s.Some? {
      var views := Views(config, s.value.resource, scan.now, s.value.windows);
      var more := Views(config, t.value.resource, scan.now, t.value.windows);
      MoreUsedTightens(config, s.value.resource, scan.now, s.value.windows, t.value.windows);
      QuotaFalls(config, e, views, more);
      PerishabilityFalls(config, s, t, views, more, scan.now);
      WeightedFalls(config, QualityComponent(config, e, demand.role), CashComponent(config, e),
                    QuotaComponent(config, e, views), QuotaComponent(config, e, more), HealthComponent(config, s),
                    Perishability(config, s, views, scan.now), Perishability(config, t, more, scan.now),
                    Min(1.0, Similarity(catalog, e, demand.peers)));
      assert HealthComponent(config, s) == HealthComponent(config, t);
    }
  }

  lemma WeightedFalls(config: Config, quality: real, cash: real, quota: real, lessQuota: real, health: real, perish: real, lessPerish: real, similarity: real)
    requires config.WellFormed() && lessQuota <= quota && lessPerish <= perish
    ensures Weighted(config, quality, cash, lessQuota, health, lessPerish, similarity) <= Weighted(config, quality, cash, quota, health, perish, similarity)
  {
    Scaled(lessQuota, quota, config.quotaPressure);
    Scaled(lessPerish, perish, config.perishability);
  }

  lemma TighterStaysRejected(config: Config, demand: Demand, views: seq<View>, more: seq<View>)
    requires Tighter(views, more)
    ensures (exists v | v in views :: v.available <= 0.0) ==> exists v | v in more :: v.available <= 0.0
    ensures RejectOnScarcity(config, demand, views).Some? ==> RejectOnScarcity(config, demand, more).Some?
  {
    if v :| v in views && v.available <= 0.0 {
      var i :| 0 <= i < |views| && views[i] == v;
      assert more[i] in more;
    }
    if v :| v in views && FarScarce(config, v) {
      var i :| 0 <= i < |views| && views[i] == v;
      assert more[i] in more && FarScarce(config, more[i]);
    }
  }

  /** A rejected candidate stays rejected when windows are used more, whatever filter rejected it. */
  lemma MoreUseNeverAdmits(scan: Scan, after: Scan, catalog: seq<Entry>, demand: Demand, e: Entry)
    requires OnlyMoreUsed(scan, after) && Reject(scan, catalog, demand, e).Some?
    ensures Reject(after, catalog, demand, e).Some?
  {
    SnapshotUsedMore(scan, after, e);
    var s, t := SnapshotFor(scan, e), SnapshotFor(after, e);
    if s.Some? {
      assert FailureRate(s.value) == FailureRate(t.value);
      MoreUsedTightens(scan.config, s.value.resource, scan.now, s.value.windows, t.value.windows);
      TighterStaysRejected(scan.config, demand, Views(scan.config, s.value.resource, scan.now, s.value.windows),
                           Views(scan.config, t.value.resource, scan.now, t.value.windows));
    }
  }
}
