/**
  Batch deduplication and incremental reconciliation of findings as functions of the list,
  with the laws connecting them: order independence, idempotence, conservation, and
  agreement of the incremental form with the batch form.
*/
module Deduplication {
  import opened Wrappers
  import opened Text
  import opened Sorting
  import opened Domain
  import opened Findings

  /** The key a finding is grouped by; none when the finding cannot be given one. */
  type KeyFn = Finding -> Option<string>

  /** Equal in every field the deduplication key may read. */
  predicate SameIdentity(f: Finding, g: Finding) {
    && f.headSha == g.headSha && f.claim == g.claim && f.body == g.body
    && f.path == g.path && f.line == g.line && f.lineEnd == g.lineEnd
  }

  ghost predicate ReadsIdentity(key: KeyFn) {
    forall f, g | SameIdentity(f, g) :: key(f) == key(g)
  }

  function KeyBy(h: Digest): KeyFn {
    (f: Finding) => Key(h, f)
  }

  lemma KeyByReadsIdentity(h: Digest)
    ensures ReadsIdentity(KeyBy(h))
  {
    forall f, g | SameIdentity(f, g)
      ensures Key(h, f) == Key(h, g)
    {
      assert KeyFields(f) == KeyFields(g);
    }
  }

  function SeedAll(s: seq<Finding>): (r: seq<Finding>)
    ensures |r| == |s| && forall i | 0 <= i < |s| :: r[i] == s[i].Seeded()
  {
    seq(|s|, i requires 0 <= i < |s| => s[i].Seeded())
  }

  function Group(key: KeyFn, s: seq<Finding>, k: string): seq<Finding> {
    Filter(s, (f: Finding) => key(f) == Some(k))
  }

  predicate AllKeyed(key: KeyFn, s: seq<Finding>) {
    forall f | f in s :: key(f).Some?
  }

  function Keys(key: KeyFn, s: seq<Finding>): (r: seq<string>)
    requires AllKeyed(key, s)
    ensures |r| == |s| && forall i | 0 <= i < |s| :: Some(r[i]) == key(s[i])
  {
    assert forall i | 0 <= i < |s| :: s[i] in s;
    seq(|s|, i requires 0 <= i < |s| => key(s[i]).value)
  }

  function SortedKeys(key: KeyFn, s: seq<Finding>): seq<string>
    requires AllKeyed(key, s)
  {
    Sort(AppendNew([], Keys(key, s)), StringLe)
  }

  predicate MixedStatuses(group: seq<Finding>) {
    exists f, g | f in group && g in group :: f.status != g.status
  }

  function Survivor(group: seq<Finding>): Finding
    requires group != []
  {
    if |group| == 1 then group[0] else Merge(group, Canonical(group))
  }

  /** The keys reported by a list of findings. */
  ghost function KeySet(key: KeyFn, s: seq<Finding>): set<string> {
    set f | f in s && key(f).Some? :: key(f).value
  }

  lemma KeysExact(key: KeyFn, s: seq<Finding>)
    requires AllKeyed(key, s)
    ensures Elements(Keys(key, s)) == KeySet(key, s)
  {
    var ks := Keys(key, s);
    forall k | k in ks
      ensures k in KeySet(key, s)
    {
      var i :| 0 <= i < |ks| && ks[i] == k;
      assert s[i] in s;
    }
    forall k | k in KeySet(key, s)
      ensures k in ks
    {
      var f :| f in s && key(f) == Some(k);
      var i :| 0 <= i < |s| && s[i] == f;
      assert ks[i] == k;
    }
  }

  lemma SortedKeysExact(key: KeyFn, s: seq<Finding>)
    requires AllKeyed(key, s)
    ensures Elements(SortedKeys(key, s)) == KeySet(key, s)
    ensures Distinct(SortedKeys(key, s))
    ensures forall k | k in SortedKeys(key, s) :: Group(key, s, k) != []
  {
    var found := AppendNew([], Keys(key, s));
    SameElements(found, SortedKeys(key, s));
    DistinctMultiset(found, SortedKeys(key, s));
    KeysExact(key, s);
    assert Elements(found) == Elements(Keys(key, s));
    assert Elements(SortedKeys(key, s)) == Elements(found);
    forall k | k in SortedKeys(key, s)
      ensures Group(key, s, k) != []
    {
      assert k in KeySet(key, s);
      var f :| f in s && key(f) == Some(k);
      assert f in Group(key, s, k);
    }
  }

  lemma {:induction false} DistinctCount<T(!new)>(s: seq<T>)
    ensures Distinct(s) <==> forall x :: multiset(s)[x] <= 1
  {
    if s != [] {
      DistinctCount(s[1..]);
      assert s == [s[0]] + s[1..];
      assert multiset(s) == multiset{s[0]} + multiset(s[1..]);
      if Distinct(s) {
        assert Distinct(s[1..]);
        assert s[0] !in s[1..];
        assert multiset(s[1..])[s[0]] == 0;
      }
      if forall x :: multiset(s)[x] <= 1 {
        forall x
          ensures multiset(s[1..])[x] <= 1
        {
          assert multiset(s)[x] <= 1;
        }
        assert multiset(s)[s[0]] <= 1;
        assert s[0] !in multiset(s[1..]);
        assert s[0] !in s[1..];
        forall i, j | 0 <= i < j < |s|
          ensures s[i] != s[j]
        {
          assert s[j] == s[1..][j - 1];
          if i > 0 {
            assert s[i] == s[1..][i - 1];
          }
        }
      }
    }
  }

  lemma DistinctMultiset<T(!new)>(a: seq<T>, b: seq<T>)
    requires multiset(a) == multiset(b)
    ensures Distinct(a) <==> Distinct(b)
  {
    DistinctCount(a);
    DistinctCount(b);
  }

  lemma DistinctSameElements<T(!new)>(a: seq<T>, b: seq<T>)
    requires Distinct(a) && Distinct(b) && forall x :: x in a <==> x in b
    ensures multiset(a) == multiset(b)
  {
    DistinctCount(a);
    DistinctCount(b);
    forall x
      ensures multiset(a)[x] == multiset(b)[x]
    {
      assert x in multiset(a) <==> x in a;
      assert x in multiset(b) <==> x in b;
    }
  }

  /** The surviving findings, one per key in key order, or why the list cannot be merged. */
  function Deduplicated(key: KeyFn, s: seq<Finding>): Result<seq<Finding>, FindingError> {
    if !AllKeyed(key, s) then Err(ReservedSeparator)
    else
      var keys := SortedKeys(key, s);
      SortedKeysExact(key, s);
      if exists k | k in keys :: MixedStatuses(Group(key, s, k)) then Err(MixedLifecycle)
      else Ok(seq(|keys|, i requires 0 <= i < |keys| => Survivor(Group(key, s, keys[i]))))
  }

  // ----- Laws of deduplication ---------------------------------------------

  lemma MaxMonotone(g: seq<Finding>, g': seq<Finding>)
    requires g != [] && g' != [] && forall f | f in g :: f in g'
    ensures MaxSeverity(g).Rank() <= MaxSeverity(g').Rank()
    ensures MaxConfidence(g).Some? ==> MaxConfidence(g').Some? && MaxConfidence(g).value <= MaxConfidence(g').value
  {
    MaxSeverityIsMaximum(g);
    MaxSeverityIsMaximum(g');
    MaxConfidenceIsMaximum(g);
    MaxConfidenceIsMaximum(g');
  }

  lemma MaxPermutation(g: seq<Finding>, g': seq<Finding>)
    requires g != [] && g' != [] && multiset(g) == multiset(g')
    ensures MaxSeverity(g) == MaxSeverity(g') && MaxConfidence(g) == MaxConfidence(g')
  {
    assert MaxSeverity(g).Rank() <= MaxSeverity(g').Rank() && MaxSeverity(g').Rank() <= MaxSeverity(g).Rank()
      && (MaxConfidence(g).Some? <==> MaxConfidence(g').Some?)
      && (MaxConfidence(g).Some? ==> MaxConfidence(g).value == MaxConfidence(g').value) by {
      SameElements(g, g');
      MaxMonotone(g, g');
      MaxMonotone(g', g);
    }
  }

  lemma SurvivorPermutation(g: seq<Finding>, g': seq<Finding>)
    requires g != [] && multiset(g) == multiset(g') && IdsIdentify(g)
    ensures g' != [] && Survivor(g) == Survivor(g')
  {
    assert |g| == |multiset(g)| == |multiset(g')| == |g'|;
    if |g| == 1 {
      SameElements(g, g');
      assert g[0] in g';
    } else {
      MaxPermutation(g, g');
      SortFindingsPermutation(g, g');
    }
  }

  lemma KeySetPermutation(key: KeyFn, s: seq<Finding>, t: seq<Finding>)
    requires multiset(s) == multiset(t)
    ensures KeySet(key, s) == KeySet(key, t)
    ensures AllKeyed(key, s) <==> AllKeyed(key, t)
  {
    SameElements(s, t);
  }

  lemma FoundKeys(key: KeyFn, s: seq<Finding>)
    requires AllKeyed(key, s)
    ensures Elements(AppendNew([], Keys(key, s))) == KeySet(key, s)
    ensures Distinct(AppendNew([], Keys(key, s)))
  {
    KeysExact(key, s);
    assert Elements(AppendNew([], Keys(key, s))) == Elements(Keys(key, s));
  }

  lemma SameElementSets<T(!new)>(a: seq<T>, b: seq<T>)
    requires Elements(a) == Elements(b) && Distinct(a) && Distinct(b)
    ensures multiset(a) == multiset(b)
  {
    assert forall x :: x in Elements(a) <==> x in a;
    assert forall x :: x in Elements(b) <==> x in b;
    DistinctSameElements(a, b);
  }

  lemma SortedKeysPermutation(key: KeyFn, s: seq<Finding>, t: seq<Finding>)
    requires AllKeyed(key, s) && AllKeyed(key, t) && KeySet(key, s) == KeySet(key, t)
    ensures SortedKeys(key, s) == SortedKeys(key, t)
  {
    FoundKeys(key, s);
    FoundKeys(key, t);
    SameElementSets(AppendNew([], Keys(key, s)), AppendNew([], Keys(key, t)));
    SortStringsPermutation(AppendNew([], Keys(key, s)), AppendNew([], Keys(key, t)));
  }

  lemma GroupPermutation(key: KeyFn, s: seq<Finding>, t: seq<Finding>, k: string)
    requires multiset(s) == multiset(t) && UniqueIds(s) && Group(key, s, k) != []
    ensures MixedStatuses(Group(key, s, k)) == MixedStatuses(Group(key, t, k))
    ensures Group(key, t, k) != [] && Survivor(Group(key, s, k)) == Survivor(Group(key, t, k))
  {
    FilterPermutation(s, t, (f: Finding) => key(f) == Some(k));
    SameElements(Group(key, s, k), Group(key, t, k));
    SurvivorPermutation(Group(key, s, k), Group(key, t, k));
  }

  /** `out` holds the survivor of every group of `s`, in key order, and no group mixes statuses. */
  ghost predicate Survivors(key: KeyFn, s: seq<Finding>, out: seq<Finding>)
    requires AllKeyed(key, s)
  {
    var ks := SortedKeys(key, s);
    && |out| == |ks|
    && forall i | 0 <= i < |ks| ::
         var g := Group(key, s, ks[i]); g != [] && !MixedStatuses(g) && out[i] == Survivor(g)
  }

  /** The result, read off group by group. */
  lemma DeduplicatedGroupwise(key: KeyFn, s: seq<Finding>)
    requires AllKeyed(key, s)
    ensures Deduplicated(key, s).Ok? ==> Survivors(key, s, Deduplicated(key, s).value)
    ensures Deduplicated(key, s).Err? ==> Deduplicated(key, s).error == MixedLifecycle
  {
    SortedKeysExact(key, s);
    var ks := SortedKeys(key, s);
    assert forall i | 0 <= i < |ks| :: ks[i] in ks;
  }

  lemma SurvivorsDetermine(key: KeyFn, s: seq<Finding>, out: seq<Finding>)
    requires AllKeyed(key, s) && Survivors(key, s, out)
    ensures Deduplicated(key, s) == Ok(out)
  {
    SortedKeysExact(key, s);
    var ks := SortedKeys(key, s);
    forall k | k in ks
      ensures !MixedStatuses(Group(key, s, k))
    {
      var i :| 0 <= i < |ks| && ks[i] == k;
    }
    assert Deduplicated(key, s).value == out;
  }

  lemma SurvivorsPermutation(key: KeyFn, s: seq<Finding>, t: seq<Finding>, out: seq<Finding>)
    requires multiset(s) == multiset(t) && UniqueIds(s)
    requires AllKeyed(key, s) && AllKeyed(key, t) && SortedKeys(key, s) == SortedKeys(key, t)
    requires Survivors(key, s, out)
    ensures Survivors(key, t, out)
  {
    var ks := SortedKeys(key, s);
    forall i | 0 <= i < |ks|
      ensures var g := Group(key, t, ks[i]); g != [] && !MixedStatuses(g) && out[i] == Survivor(g)
    {
      GroupPermutation(key, s, t, ks[i]);
    }
  }

  /** Deduplication does not depend on the order of the list. */
  lemma DeduplicationIgnoresOrder(key: KeyFn, s: seq<Finding>, t: seq<Finding>)
    requires multiset(s) == multiset(t) && UniqueIds(s) && UniqueIds(t)
    ensures Deduplicated(key, s) == Deduplicated(key, t)
  {
    KeySetPermutation(key, s, t);
    if AllKeyed(key, s) {
      SortedKeysPermutation(key, s, t);
      DeduplicatedGroupwise(key, s);
      DeduplicatedGroupwise(key, t);
      if Deduplicated(key, s).Ok? {
        SurvivorsPermutation(key, s, t, Deduplicated(key, s).value);
        SurvivorsDetermine(key, t, Deduplicated(key, s).value);
      } else if Deduplicated(key, t).Ok? {
        SurvivorsPermutation(key, t, s, Deduplicated(key, t).value);
        SurvivorsDetermine(key, s, Deduplicated(key, t).value);
      }
    }
  }

  lemma SurvivorKeepsKey(key: KeyFn, s: seq<Finding>, k: string)
    requires ReadsIdentity(key)
    requires Group(key, s, k) != []
    ensures key(Survivor(Group(key, s, k))) == Some(k)
  {
    var g := Group(key, s, k);
    assert Canonical(g) in g && g[0] in g;
    var m := Merge(g, Canonical(g));
    assert SameIdentity(m, Canonical(g));
  }

  lemma SurvivorSummarizes(g: seq<Finding>)
    requires g != []
    ensures Summarizes(g, Survivor(g))
  {
    if |g| == 1 {
      assert g == [g[0]];
      SingletonSummary(g[0]);
    } else {
      MergeSummarizes(g, Canonical(g));
    }
  }

  /** One survivor per reported key, in key order, carrying everything its group reported. */
  lemma DeduplicationConserves(key: KeyFn, s: seq<Finding>)
    requires ReadsIdentity(key)
    requires Deduplicated(key, s).Ok?
    ensures var out, ks := Deduplicated(key, s).value, SortedKeys(key, s);
            && AllKeyed(key, out) && Keys(key, out) == ks && Distinct(ks)
            && Elements(ks) == KeySet(key, s)
            && forall i | 0 <= i < |out| :: Summarizes(Group(key, s, ks[i]), out[i])
  {
    SortedKeysExact(key, s);
    var out, ks := Deduplicated(key, s).value, SortedKeys(key, s);
    forall i | 0 <= i < |ks|
      ensures key(out[i]) == Some(ks[i]) && Summarizes(Group(key, s, ks[i]), out[i])
    {
      SurvivorKeepsKey(key, s, ks[i]);
      SurvivorSummarizes(Group(key, s, ks[i]));
    }
    assert AllKeyed(key, out);
  }

  lemma SingletonGroup(key: KeyFn, s: seq<Finding>, i: nat)
    requires AllKeyed(key, s) && Distinct(Keys(key, s)) && i < |s|
    ensures Group(key, s, Keys(key, s)[i]) == [s[i]]
  {
    var k := Keys(key, s)[i];
    var keep := (f: Finding) => key(f) == Some(k);
    assert s == s[..i] + [s[i]] + s[i + 1..];
    FilterConcat(s[..i] + [s[i]], s[i + 1..], keep);
    FilterConcat(s[..i], [s[i]], keep);
    assert forall j | 0 <= j < |s| && j != i :: Keys(key, s)[j] != k;
    assert forall f | f in s[..i] :: !keep(f);
    assert forall f | f in s[i + 1..] :: !keep(f);
    FilterKeepsNone(s[..i], keep);
    FilterKeepsNone(s[i + 1..], keep);
  }

  /** Deduplicating twice changes nothing more. */
  lemma DeduplicationIdempotent(key: KeyFn, s: seq<Finding>)
    requires ReadsIdentity(key)
    requires Deduplicated(key, s).Ok?
    ensures Deduplicated(key, Deduplicated(key, s).value) == Deduplicated(key, s)
  {
    var out := Deduplicated(key, s).value;
    DeduplicationConserves(key, s);
    SortedKeysFixed(key, s, out);
    OwnSurvivors(key, out);
    SurvivorsDetermine(key, out, out);
  }

  lemma OwnSurvivors(key: KeyFn, out: seq<Finding>)
    requires AllKeyed(key, out) && Distinct(Keys(key, out)) && SortedKeys(key, out) == Keys(key, out)
    ensures Survivors(key, out, out)
  {
    var ks := Keys(key, out);
    forall i | 0 <= i < |ks|
      ensures var g := Group(key, out, ks[i]); g != [] && !MixedStatuses(g) && out[i] == Survivor(g)
    {
      SingletonGroup(key, out, i);
    }
  }

  lemma SortedKeysFixed(key: KeyFn, s: seq<Finding>, out: seq<Finding>)
    requires AllKeyed(key, s) && AllKeyed(key, out)
    requires Keys(key, out) == SortedKeys(key, s) && Distinct(SortedKeys(key, s))
    ensures SortedKeys(key, out) == Keys(key, out)
  {
    var ks := Keys(key, out);
    assert [] + ks == ks;
    AppendDistinct([], ks);
    assert AppendNew([], ks) == ks;
    SortStringsIdempotent(AppendNew([], Keys(key, s)));
  }

  lemma {:induction false} AppendDistinct<T(!new)>(acc: seq<T>, items: seq<T>)
    requires Distinct(acc + items)
    ensures AppendNew(acc, items) == acc + items
    decreases |items|
  {
    if items == [] {
      assert acc + items == acc;
    } else {
      assert (acc + items)[|acc|] == items[0];
      assert forall i | 0 <= i < |acc| :: (acc + items)[i] == acc[i];
      assert items[0] !in acc;
      assert acc + [items[0]] + items[1..] == acc + items;
      AppendDistinct(acc + [items[0]], items[1..]);
    }
  }

  // ----- Incremental reconciliation ----------------------------------------

  /** Where the search for an established finding with key `k` stops, at or after `from`. */
  function FindKey(key: KeyFn, s: seq<Finding>, k: string, from: nat): (i: nat)
    requires from <= |s|
    ensures from <= i <= |s|
    ensures i < |s| ==> key(s[i]).None? || key(s[i]) == Some(k)
    ensures forall j | from <= j < i :: key(s[j]).Some? && key(s[j]) != Some(k)
    decreases |s| - from
  {
    if from == |s| || key(s[from]).None? || key(s[from]) == Some(k) then from
    else FindKey(key, s, k, from + 1)
  }

  predicate ReusesId(key: KeyFn, s: seq<Finding>, f: Finding) {
    exists e | e in s :: e.id == f.id && key(e) != key(f)
  }

  /** One admitted report joins the list: merged into the finding with its key, or appended. */
  function Reconciled(key: KeyFn, s: seq<Finding>, f: Finding): Result<seq<Finding>, FindingError> {
    if key(f).None? then Err(ReservedSeparator)
    else if ReusesId(key, s, f) then Err(IdReused)
    else
      var i := FindKey(key, s, key(f).value, 0);
      if i == |s| then Ok(s + [f.Seeded()])
      else if key(s[i]).None? then Err(ReservedSeparator)
      else if s[i].status != f.status then Err(DispositionContradicted)
      else Ok(s[i := Merge([s[i], f.Seeded()], s[i])])
  }

  function Folded(key: KeyFn, reports: seq<Finding>): Result<seq<Finding>, FindingError> {
    if reports == [] then Ok([])
    else
      var s :- Folded(key, reports[..|reports| - 1]);
      Reconciled(key, s, reports[|reports| - 1])
  }

  /** What the fold has established after some reports. */
  ghost predicate OneSummaryPerKey(key: KeyFn, reports: seq<Finding>, s: seq<Finding>) {
    && AllKeyed(key, s) && Distinct(Keys(key, s)) && KeySet(key, s) == KeySet(key, reports)
    && forall i | 0 <= i < |s| :: Summarizes(Group(key, reports, Keys(key, s)[i]), s[i])
  }

  ghost function IdSet(s: seq<Finding>): set<string> {
    set f | f in s :: f.id
  }

  lemma MergeIntoKeepsIdentity(key: KeyFn, e: Finding, x: Finding)
    requires ReadsIdentity(key)
    ensures Merge([e, x], e).id == e.id && Merge([e, x], e).status == e.status
    ensures key(Merge([e, x], e)) == key(e)
  {
    assert SameIdentity(Merge([e, x], e), e);
  }

  lemma GroupSnoc(key: KeyFn, s: seq<Finding>, f: Finding, k: string)
    ensures Group(key, s + [f], k) == if key(f) == Some(k) then Group(key, s, k) + [f] else Group(key, s, k)
  {
    FilterConcat(s, [f], (g: Finding) => key(g) == Some(k));
  }

  lemma KeySetSnoc(key: KeyFn, s: seq<Finding>, f: Finding)
    requires key(f).Some?
    ensures KeySet(key, s + [f]) == KeySet(key, s) + {key(f).value}
  {
    assert forall g :: g in s + [f] <==> g in s || g == f;
  }

  /** One step of the fold keeps one summary per key, appending case. */
  lemma AppendStep(key: KeyFn, reports: seq<Finding>, s: seq<Finding>, f: Finding)
    requires OneSummaryPerKey(key, reports, s) && key(f).Some?
    requires forall j | 0 <= j < |s| :: Keys(key, s)[j] != key(f).value
    ensures OneSummaryPerKey(key, reports + [f], s + [f])
  {
    var t, all, k := s + [f], reports + [f], key(f).value;
    assert Keys(key, t) == Keys(key, s) + [k];
    KeySetSnoc(key, s, f);
    KeySetSnoc(key, reports, f);
    KeysExact(key, s);
    assert k !in KeySet(key, reports);
    FilterKeepsNone(reports, (g: Finding) => key(g) == Some(k));
    forall i | 0 <= i < |t|
      ensures Summarizes(Group(key, all, Keys(key, t)[i]), t[i])
    {
      GroupSnoc(key, reports, f, Keys(key, t)[i]);
      if i == |s| {
        SingletonSummary(f);
      }
    }
  }

  lemma UpdatedKeys(key: KeyFn, s: seq<Finding>, i: nat, m: Finding)
    requires AllKeyed(key, s) && i < |s| && key(m) == key(s[i])
    ensures AllKeyed(key, s[i := m]) && Keys(key, s[i := m]) == Keys(key, s)
    ensures KeySet(key, s[i := m]) == KeySet(key, s)
  {
    assert s[i] in s;
    assert Keys(key, s[i := m]) == Keys(key, s);
    KeysExact(key, s);
    KeysExact(key, s[i := m]);
  }

  lemma ReportedKey(key: KeyFn, s: seq<Finding>, i: nat)
    requires AllKeyed(key, s) && i < |s|
    ensures Keys(key, s)[i] in KeySet(key, s)
  {
    assert s[i] in s;
  }

  /** One step of the fold keeps one summary per key, merging case. */
  lemma MergeStep(key: KeyFn, reports: seq<Finding>, s: seq<Finding>, f: Finding, i: nat, m: Finding)
    requires OneSummaryPerKey(key, reports, s)
    requires i < |s| && key(s[i]) == key(f) == key(m) && Summarizes([s[i], f], m)
    ensures OneSummaryPerKey(key, reports + [f], s[i := m])
  {
    var ks := Keys(key, s);
    UpdatedKeys(key, s, i, m);
    ReportedKey(key, s, i);
    KeySetSnoc(key, reports, f);
    SummaryExtends(Group(key, reports, ks[i]), s[i], f, m);
    forall j | 0 <= j < |s|
      ensures Summarizes(Group(key, reports + [f], ks[j]), s[i := m][j])
    {
      GroupSnoc(key, reports, f, ks[j]);
      assert j != i ==> ks[j] != ks[i];
    }
  }

  lemma UpdateIds(s: seq<Finding>, i: nat, m: Finding)
    requires i < |s| && m.id == s[i].id
    ensures IdSet(s[i := m]) == IdSet(s)
    ensures UniqueIds(s) ==> UniqueIds(s[i := m])
  {
    var t := s[i := m];
    assert forall j | 0 <= j < |s| :: t[j].id == s[j].id;
    forall x | x in IdSet(s)
      ensures x in IdSet(t)
    {
      var f :| f in s && f.id == x;
      var j :| 0 <= j < |s| && s[j] == f;
      assert t[j] in t;
    }
    forall x | x in IdSet(t)
      ensures x in IdSet(s)
    {
      var f :| f in t && f.id == x;
      var j :| 0 <= j < |t| && t[j] == f;
      assert s[j] in s;
    }
  }

  lemma AppendIds(s: seq<Finding>, f: Finding)
    ensures IdSet(s + [f]) == IdSet(s) + {f.id}
    ensures UniqueIds(s) && f.id !in IdSet(s) ==> UniqueIds(s + [f])
    ensures UniqueIds(s + [f]) ==> UniqueIds(s) && f.id !in IdSet(s)
  {
    var t := s + [f];
    assert forall g :: g in t <==> g in s || g == f;
    assert t[|s|] == f;
    assert forall j | 0 <= j < |s| :: t[j] == s[j] && s[j] in s;
  }

  lemma NewReportHasNewId(key: KeyFn, s: seq<Finding>, f: Finding)
    requires key(f).Some? && !ReusesId(key, s, f) && FindKey(key, s, key(f).value, 0) == |s|
    ensures f.id !in IdSet(s)
  {
    forall e | e in s
      ensures e.id != f.id
    {
      var j :| 0 <= j < |s| && s[j] == e;
      assert key(s[j]) != key(f);
    }
  }

  /** Reconciling keeps ids unique, and adds at most the report's own id. */
  lemma ReconciledIds(key: KeyFn, s: seq<Finding>, f: Finding)
    requires ReadsIdentity(key)
    requires UniqueIds(s) && Reconciled(key, s, f).Ok?
    ensures UniqueIds(Reconciled(key, s, f).value)
    ensures IdSet(s) <= IdSet(Reconciled(key, s, f).value) <= IdSet(s) + {f.id}
  {
    var i := FindKey(key, s, key(f).value, 0);
    if i < |s| {
      var m := Merge([s[i], f.Seeded()], s[i]);
      assert m.id == s[i].id;
      assert Reconciled(key, s, f).value == s[i := m];
      UpdateIds(s, i, m);
    } else {
      NewReportHasNewId(key, s, f);
      AppendIds(s, f.Seeded());
    }
  }

  /** One report joins a summary of earlier open reports with other ids. */
  lemma FoldStep(key: KeyFn, before: seq<Finding>, s: seq<Finding>, f: Finding)
    requires ReadsIdentity(key)
    requires key(f).Some? && f.status.Open?
    requires OneSummaryPerKey(key, SeedAll(before), s) && f.id !in IdSet(s)
    requires forall i | 0 <= i < |s| :: s[i].status.Open?
    ensures Reconciled(key, s, f).Ok?
    ensures OneSummaryPerKey(key, SeedAll(before) + [f.Seeded()], Reconciled(key, s, f).value)
    ensures forall i | 0 <= i < |Reconciled(key, s, f).value| :: Reconciled(key, s, f).value[i].status.Open?
  {
    assert SameIdentity(f.Seeded(), f);
    var i := FindKey(key, s, key(f).value, 0);
    if i == |s| {
      AppendStep(key, SeedAll(before), s, f.Seeded());
    } else {
      assert s[i] in s;
      MergeIntoKeepsIdentity(key, s[i], f.Seeded());
      MergeSummarizes([s[i], f.Seeded()], s[i]);
      MergeStep(key, SeedAll(before), s, f.Seeded(), i, Merge([s[i], f.Seeded()], s[i]));
    }
  }

  /** One summary per key, ids unique and all reported, every finding still open. */
  ghost predicate FoldState(key: KeyFn, reports: seq<Finding>, s: seq<Finding>) {
    && OneSummaryPerKey(key, SeedAll(reports), s)
    && UniqueIds(s) && IdSet(s) <= IdSet(reports)
    && forall i | 0 <= i < |s| :: s[i].status.Open?
  }

  lemma FoldStateStep(key: KeyFn, before: seq<Finding>, s: seq<Finding>, f: Finding)
    requires ReadsIdentity(key) && FoldState(key, before, s)
    requires key(f).Some? && f.status.Open? && f.id !in IdSet(before)
    ensures Reconciled(key, s, f).Ok? && FoldState(key, before + [f], Reconciled(key, s, f).value)
  {
    FoldStep(key, before, s, f);
    ReconciledIds(key, s, f);
    AppendIds(before, f);
    assert SeedAll(before + [f]) == SeedAll(before) + [f.Seeded()];
  }

  /** Folding open reports with distinct ids succeeds and keeps one summary per key, ids unique. */
  lemma {:induction false} FoldSummarizes(key: KeyFn, reports: seq<Finding>)
    requires ReadsIdentity(key)
    requires AllKeyed(key, reports) && UniqueIds(reports)
    requires forall f | f in reports :: f.status.Open?
    ensures Folded(key, reports).Ok? && FoldState(key, reports, Folded(key, reports).value)
  {
    if reports == [] {
      assert KeySet(key, []) == KeySet(key, SeedAll([]));
    } else {
      var n := |reports| - 1;
      assert reports == reports[..n] + [reports[n]] && reports[n] in reports;
      assert forall g | g in reports[..n] :: g in reports;
      FoldSummarizes(key, reports[..n]);
      AppendIds(reports[..n], reports[n]);
      FoldStateStep(key, reports[..n], Folded(key, reports[..n]).value, reports[n]);
    }
  }

  /** The parts of a merged finding that do not depend on arrival order. */
  ghost predicate SameContent(f: Finding, g: Finding) {
    && f.severity == g.severity && f.confidence == g.confidence
    && Elements(f.evidence) == Elements(g.evidence) && Elements(f.sources) == Elements(g.sources)
  }

  lemma SeededReports(key: KeyFn, reports: seq<Finding>)
    requires ReadsIdentity(key) && AllKeyed(key, reports)
    requires forall f | f in reports :: f.status.Open?
    ensures AllKeyed(key, SeedAll(reports)) && forall k :: !MixedStatuses(Group(key, SeedAll(reports), k))
    ensures KeySet(key, SeedAll(reports)) == KeySet(key, reports)
  {
    var seeded := SeedAll(reports);
    forall i | 0 <= i < |reports|
      ensures key(seeded[i]) == key(reports[i]) && seeded[i].status.Open?
    {
      assert reports[i] in reports && SameIdentity(seeded[i], reports[i]);
    }
    assert Keys(key, seeded) == Keys(key, reports);
    KeysExact(key, reports);
    KeysExact(key, seeded);
  }

  /** Reconciling reports one by one gives, for every key, what batch deduplication gives. */
  lemma IncrementalAgreesWithBatch(key: KeyFn, reports: seq<Finding>)
    requires ReadsIdentity(key)
    requires AllKeyed(key, reports) && UniqueIds(reports)
    requires forall f | f in reports :: f.status.Open?
    ensures Folded(key, reports).Ok? && Deduplicated(key, SeedAll(reports)).Ok?
    ensures var a, b := Folded(key, reports).value, Deduplicated(key, SeedAll(reports)).value;
            && AllKeyed(key, a) && AllKeyed(key, b)
            && Distinct(Keys(key, a)) && Distinct(Keys(key, b))
            && KeySet(key, a) == KeySet(key, b) == KeySet(key, reports)
            && forall i, j | 0 <= i < |a| && 0 <= j < |b| && key(a[i]) == key(b[j]) :: SameContent(a[i], b[j])
  {
    FoldSummarizes(key, reports);
    SeededReports(key, reports);
    var seeded := SeedAll(reports);
    DeduplicationConserves(key, seeded);
    var a, b := Folded(key, reports).value, Deduplicated(key, seeded).value;
    KeysExact(key, b);
    forall i, j | 0 <= i < |a| && 0 <= j < |b| && key(a[i]) == key(b[j])
      ensures SameContent(a[i], b[j])
    {
      assert Keys(key, a)[i] == Keys(key, b)[j];
    }
  }
}
