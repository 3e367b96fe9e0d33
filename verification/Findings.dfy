/**
  Finding identity and merging: the deduplication key, the canonical representative of a
  group, and what one merge produces. The digest the keys pass through is a parameter `h`;
  only the law about key equality needs it to be injective.
*/
module Findings {
  import opened Wrappers
  import opened Text
  import opened Sorting
  import opened Domain

  type Digest = string -> string

  // ----- Keys --------------------------------------------------------------

  function NormalizeClaim(text: string): (r: string)
    ensures SEPARATOR !in r
  {
    var c := Collapse(text);
    StripNoSeparator(c);
    LowerNoSeparator(Strip(c));
    Lower(Strip(c))
  }

  /** The comparable claim; a blank claim falls back to the body. */
  function ClaimOf(f: Finding): string {
    if f.claim.Some? && !IsBlank(f.claim.value) then f.claim.value else f.body
  }

  function LineText(line: Option<int>): (r: string)
    ensures SEPARATOR !in r
  {
    if line.None? || line.value == 0 then "" else SignedDecimal(line.value)
  }

  function CanonicalLineEnd(line: Option<int>, lineEnd: Option<int>): (r: string)
    ensures SEPARATOR !in r
  {
    if lineEnd.None? || lineEnd == line then "" else SignedDecimal(lineEnd.value)
  }

  function HeadText(f: Finding): string {
    Lower(Strip(f.headSha.GetOr("")))
  }

  function Join(parts: seq<string>): string {
    if parts == [] then ""
    else if |parts| == 1 then parts[0]
    else parts[0] + [SEPARATOR] + Join(parts[1..])
  }

  function KeyFields(f: Finding): seq<string> {
    [HeadText(f), NormalizeClaim(ClaimOf(f)), f.path.GetOr(""), LineText(f.line),
     CanonicalLineEnd(f.line, f.lineEnd)]
  }

  /** Rejected when a component contains the reserved separator. */
  function KeyText(f: Finding): Option<string> {
    if SEPARATOR in f.headSha.GetOr("") || SEPARATOR in ClaimOf(f) || SEPARATOR in f.path.GetOr("") then None
    else Some(Join(KeyFields(f)))
  }

  function Key(h: Digest, f: Finding): Option<string> {
    var k := KeyText(f);
    if k.None? then None else Some(h(k.value))
  }

  predicate Keyed(f: Finding) {
    KeyText(f).Some?
  }

  lemma {:induction false} JoinInjective(p: seq<string>, q: seq<string>)
    requires |p| == |q|
    requires forall x | x in p :: SEPARATOR !in x
    requires forall x | x in q :: SEPARATOR !in x
    requires Join(p) == Join(q)
    ensures p == q
  {
    if |p| == 1 {
      assert p == [p[0]] && q == [q[0]];
    } else if |p| > 1 {
      assert p[0] in p && q[0] in q;
      SplitUnique(p[0], Join(p[1..]), q[0], Join(q[1..]), SEPARATOR);
      JoinInjective(p[1..], q[1..]);
      assert p == [p[0]] + p[1..] && q == [q[0]] + q[1..];
    }
  }

  lemma KeyFieldsClean(f: Finding)
    requires Keyed(f)
    ensures forall x | x in KeyFields(f) :: SEPARATOR !in x
  {
    StripNoSeparator(f.headSha.GetOr(""));
    LowerNoSeparator(Strip(f.headSha.GetOr("")));
  }

  /** The last line a finding covers; 0 for a finding without a line. */
  function LastLine(f: Finding): int {
    if f.lineEnd.Some? then f.lineEnd.value else f.line.GetOr(0)
  }

  ghost predicate Injective(h: Digest) {
    forall x, y :: h(x) == h(y) ==> x == y
  }

  /** Same head up to case and padding, same normalised claim, same path and line range. */
  predicate SameReport(f: Finding, g: Finding) {
    && HeadText(f) == HeadText(g)
    && NormalizeClaim(ClaimOf(f)) == NormalizeClaim(ClaimOf(g))
    && f.path == g.path && f.line == g.line && LastLine(f) == LastLine(g)
  }

  lemma LineTextInjective(a: Option<int>, b: Option<int>)
    requires a.Some? ==> a.value > 0
    requires b.Some? ==> b.value > 0
    requires LineText(a) == LineText(b)
    ensures a == b
  {
    if a.Some? && b.Some? {
      SignedDecimalInjective(a.value, b.value);
    }
  }

  lemma LineEndInjective(f: Finding, g: Finding)
    requires f.line.Some? ==> f.line.value > 0
    requires f.lineEnd.Some? ==> f.line.Some? && f.lineEnd.value >= f.line.value
    requires g.lineEnd.Some? ==> g.line.Some? && g.lineEnd.value >= g.line.value
    requires f.line == g.line
    ensures CanonicalLineEnd(f.line, f.lineEnd) == CanonicalLineEnd(g.line, g.lineEnd) <==> LastLine(f) == LastLine(g)
  {
    var a, b := CanonicalLineEnd(f.line, f.lineEnd), CanonicalLineEnd(g.line, g.lineEnd);
    if a == b && a != "" {
      SignedDecimalInjective(f.lineEnd.value, g.lineEnd.value);
    }
  }

  lemma FieldsIdentifyReport(f: Finding, g: Finding)
    requires f.WellFormed() && g.WellFormed()
    ensures KeyFields(f) == KeyFields(g) <==> SameReport(f, g)
  {
    PathText(f);
    PathText(g);
    FieldsEqual(HeadText(f), HeadText(g), NormalizeClaim(ClaimOf(f)), NormalizeClaim(ClaimOf(g)), f, g);
  }

  lemma PathText(f: Finding)
    requires f.WellFormed()
    ensures f.path.Some? ==> f.path.value != ""
  {
    assert IsBlank("");
  }

  lemma FieldsEqual(a: string, b: string, c: string, d: string, f: Finding, g: Finding)
    requires f.path.Some? ==> f.path.value != ""
    requires g.path.Some? ==> g.path.value != ""
    requires f.line.Some? ==> f.line.value > 0
    requires g.line.Some? ==> g.line.value > 0
    requires f.lineEnd.Some? ==> f.line.Some? && f.lineEnd.value >= f.line.value
    requires g.lineEnd.Some? ==> g.line.Some? && g.lineEnd.value >= g.line.value
    ensures [a, c, f.path.GetOr(""), LineText(f.line), CanonicalLineEnd(f.line, f.lineEnd)]
         == [b, d, g.path.GetOr(""), LineText(g.line), CanonicalLineEnd(g.line, g.lineEnd)]
       <==> a == b && c == d && f.path == g.path && f.line == g.line && LastLine(f) == LastLine(g)
  {
    if LineText(f.line) == LineText(g.line) {
      LineTextInjective(f.line, g.line);
      LineEndInjective(f, g);
    }
  }

  /** Two findings share a key exactly when they report the same claim at the same place. */
  lemma KeyIdentifiesReport(h: Digest, f: Finding, g: Finding)
    requires Injective(h) && f.WellFormed() && g.WellFormed() && Keyed(f) && Keyed(g)
    ensures Key(h, f) == Key(h, g) <==> SameReport(f, g)
  {
    KeyFieldsClean(f);
    KeyFieldsClean(g);
    var p, q := KeyFields(f), KeyFields(g);
    assert Key(h, f) == Key(h, g) <==> Join(p) == Join(q);
    if Join(p) == Join(q) {
      JoinInjective(p, q);
    }
    FieldsIdentifyReport(f, g);
  }

  // ----- Orders ------------------------------------------------------------

  predicate ById(f: Finding, g: Finding) {
    StringLe(f.id, g.id)
  }

  /** Highest severity, then earliest creation, then smallest id. */
  predicate CanonicalLe(f: Finding, g: Finding) {
    || f.severity.Rank() > g.severity.Rank()
    || (f.severity.Rank() == g.severity.Rank()
        && (f.createdAt < g.createdAt || (f.createdAt == g.createdAt && StringLe(f.id, g.id))))
  }

  lemma StringOrder()
    ensures TotalPreorder(StringLe)
  {
    forall x, y
      ensures StringLe(x, y) || StringLe(y, x)
    {
      StringLeTotal(x, y);
    }
    forall x, y, z | StringLe(x, y) && StringLe(y, z)
      ensures StringLe(x, z)
    {
      StringLeTransitive(x, y, z);
    }
  }

  lemma FindingOrders()
    ensures TotalPreorder(ById) && TotalPreorder(CanonicalLe)
  {
    StringOrder();
    assert forall x: Finding, y: Finding :: StringLe(x.id, y.id) || StringLe(y.id, x.id);
    assert forall x: Finding, y: Finding, z: Finding :: StringLe(x.id, y.id) && StringLe(y.id, z.id) ==> StringLe(x.id, z.id);
  }

  lemma SortStringsPermutation(s: seq<string>, t: seq<string>)
    requires multiset(s) == multiset(t)
    ensures Sort(s, StringLe) == Sort(t, StringLe)
  {
    StringOrder();
    StringsStrict(s);
    SortPermutation(s, t, StringLe);
  }

  lemma SortStringsIdempotent(s: seq<string>)
    ensures Sort(Sort(s, StringLe), StringLe) == Sort(s, StringLe)
  {
    SortStringsPermutation(Sort(s, StringLe), s);
  }

  lemma StringsStrict(s: seq<string>)
    ensures StrictOn(s, StringLe)
  {
    forall x, y | StringLe(x, y) && StringLe(y, x)
      ensures x == y
    {
      StringLeAntisymmetric(x, y);
    }
  }

  /** The order of a group is irrelevant to its two sorted arrangements. */
  lemma SortFindingsPermutation(s: seq<Finding>, t: seq<Finding>)
    requires multiset(s) == multiset(t) && IdsIdentify(s)
    ensures Sort(s, ById) == Sort(t, ById) && Sort(s, CanonicalLe) == Sort(t, CanonicalLe)
  {
    FindingOrders();
    IdentifyingOrders(s);
    SortPermutation(s, t, ById);
    SortPermutation(s, t, CanonicalLe);
  }

  ghost predicate UniqueIds(s: seq<Finding>) {
    forall i, j | 0 <= i < j < |s| :: s[i].id != s[j].id
  }

  ghost predicate IdsIdentify(s: seq<Finding>) {
    forall x, y | x in s && y in s && x.id == y.id :: x == y
  }

  lemma IdentifyingOrders(s: seq<Finding>)
    requires IdsIdentify(s)
    ensures StrictOn(s, ById) && StrictOn(s, CanonicalLe)
  {
    forall x, y | x in s && y in s && StringLe(x.id, y.id) && StringLe(y.id, x.id)
      ensures x == y
    {
      StringLeAntisymmetric(x.id, y.id);
    }
  }

  lemma {:induction false} FilterUnique(s: seq<Finding>, keep: Finding -> bool)
    requires UniqueIds(s)
    ensures UniqueIds(Filter(s, keep))
  {
    if s != [] {
      FilterUnique(s[1..], keep);
      var r := Filter(s[1..], keep);
      forall j | 0 <= j < |r|
        ensures r[j].id != s[0].id
      {
        assert r[j] in s[1..];
      }
    }
  }

  // ----- Merging -----------------------------------------------------------

  /** Appends the items that are not present yet, in order. */
  function AppendNew<T(==,!new)>(acc: seq<T>, items: seq<T>): (r: seq<T>)
    ensures forall x :: x in r <==> x in acc || x in items
    ensures Distinct(acc) ==> Distinct(r)
    decreases |items|
  {
    if items == [] then acc
    else
      assert items == [items[0]] + items[1..];
      AppendNew(if items[0] in acc then acc else acc + [items[0]], items[1..])
  }

  ghost predicate Distinct<T>(s: seq<T>) {
    forall i, j | 0 <= i < j < |s| :: s[i] != s[j]
  }

  function CollectEvidence(group: seq<Finding>, acc: seq<Evidence>): seq<Evidence>
    decreases |group|
  {
    if group == [] then acc
    else CollectEvidence(group[1..], AppendNew(acc, group[0].evidence))
  }

  function CollectSources(group: seq<Finding>, acc: seq<Provenance>): seq<Provenance>
    decreases |group|
  {
    if group == [] then acc
    else CollectSources(group[1..], AppendNew(acc, group[0].sources))
  }

  function MaxSeverity(group: seq<Finding>): Severity
    requires group != []
  {
    if |group| == 1 then group[0].severity
    else
      var rest := MaxSeverity(group[1..]);
      if rest.Rank() <= group[0].severity.Rank() then group[0].severity else rest
  }

  ghost predicate IsMaxConfidence(group: seq<Finding>, r: Option<real>) {
    && (r.None? <==> forall f | f in group :: f.confidence.None?)
    && (r.Some? ==> exists f | f in group :: f.confidence == r)
    && (r.Some? ==> forall f | f in group && f.confidence.Some? :: f.confidence.value <= r.value)
  }

  function MaxConfidence(group: seq<Finding>): Option<real> {
    if group == [] then None
    else
      var rest := MaxConfidence(group[1..]);
      if group[0].confidence.None? then rest
      else if rest.None? || rest.value <= group[0].confidence.value then group[0].confidence
      else rest
  }

  /** The merged severity is one the group reported, and no report is more severe. */
  lemma {:induction false} MaxSeverityIsMaximum(group: seq<Finding>)
    requires group != []
    ensures exists f | f in group :: f.severity == MaxSeverity(group)
    ensures forall f | f in group :: f.severity.Rank() <= MaxSeverity(group).Rank()
  {
    assert group == [group[0]] + group[1..];
    assert group[0] in group;
    if |group| > 1 {
      MaxSeverityIsMaximum(group[1..]);
      var f :| f in group[1..] && f.severity == MaxSeverity(group[1..]);
      assert f in group;
    }
  }

  /** The merged confidence is the largest one reported, and absent only when none was. */
  lemma {:induction false} MaxConfidenceIsMaximum(group: seq<Finding>)
    ensures IsMaxConfidence(group, MaxConfidence(group))
  {
    if group != [] {
      assert group == [group[0]] + group[1..];
      assert group[0] in group;
      var rest := MaxConfidence(group[1..]);
      MaxConfidenceIsMaximum(group[1..]);
      if rest.Some? {
        var f :| f in group[1..] && f.confidence == rest;
        assert f in group;
      }
    }
  }

  function FirstPresent(group: seq<Finding>, field: Finding -> Option<string>): Option<string> {
    if group == [] then None
    else if field(group[0]).Some? then field(group[0])
    else FirstPresent(group[1..], field)
  }

  function Canonical(group: seq<Finding>): (r: Finding)
    requires group != []
    ensures r in group
  {
    SameElements(group, Sort(group, CanonicalLe));
    Sort(group, CanonicalLe)[0]
  }

  function Merge(group: seq<Finding>, canonical: Finding): Finding
    requires group != []
  {
    var byId := Sort(group, ById);
    canonical.(
    severity := MaxSeverity(group),
    evidence := CollectEvidence(byId, []),
    sources := CollectSources(byId, []),
    confidence := MaxConfidence(group),
    falsification := FirstPresent(byId, (f: Finding) => f.falsification),
    reproduction := FirstPresent(byId, (f: Finding) => f.reproduction),
    suggestedFix := FirstPresent(byId, (f: Finding) => f.suggestedFix))
  }

  ghost function Elements<T>(s: seq<T>): set<T> {
    set x | x in s
  }

  ghost function EvidenceOf(group: seq<Finding>): set<Evidence> {
    set f, e | f in group && e in f.evidence :: e
  }

  ghost function SourcesOf(group: seq<Finding>): set<Provenance> {
    set f, p | f in group && p in f.sources :: p
  }

  /** Everything a merged finding must carry from a group: nothing lost and nothing invented. */
  ghost predicate Summarizes(group: seq<Finding>, f: Finding) {
    && group != []
    && f.severity == MaxSeverity(group)
    && f.confidence == MaxConfidence(group)
    && Elements(f.evidence) == EvidenceOf(group)
    && Elements(f.sources) == SourcesOf(group)
  }

  lemma SingletonSummary(f: Finding)
    ensures Summarizes([f], f)
  {
    assert f in [f];
    assert EvidenceOf([f]) == Elements(f.evidence);
    assert SourcesOf([f]) == Elements(f.sources);
  }

  lemma SetsCons(group: seq<Finding>)
    requires group != []
    ensures EvidenceOf(group) == Elements(group[0].evidence) + EvidenceOf(group[1..])
    ensures SourcesOf(group) == Elements(group[0].sources) + SourcesOf(group[1..])
  {
    assert group == [group[0]] + group[1..];
    assert forall y :: y in group <==> y == group[0] || y in group[1..];
  }

  lemma {:induction false} CollectedEvidence(group: seq<Finding>, acc: seq<Evidence>)
    ensures Elements(CollectEvidence(group, acc)) == Elements(acc) + EvidenceOf(group)
    decreases |group|
  {
    if group != [] {
      var next := AppendNew(acc, group[0].evidence);
      CollectedEvidence(group[1..], next);
      assert Elements(next) == Elements(acc) + Elements(group[0].evidence);
      SetsCons(group);
    }
  }

  lemma {:induction false} CollectedSources(group: seq<Finding>, acc: seq<Provenance>)
    ensures Elements(CollectSources(group, acc)) == Elements(acc) + SourcesOf(group)
    decreases |group|
  {
    if group != [] {
      var next := AppendNew(acc, group[0].sources);
      CollectedSources(group[1..], next);
      assert Elements(next) == Elements(acc) + Elements(group[0].sources);
      SetsCons(group);
    }
  }

  lemma MergeSummarizes(group: seq<Finding>, canonical: Finding)
    requires group != []
    ensures Summarizes(group, Merge(group, canonical))
  {
    var byId := Sort(group, ById);
    CollectedEvidence(byId, []);
    CollectedSources(byId, []);
    SameElements(group, byId);
    assert EvidenceOf(byId) == EvidenceOf(group) && SourcesOf(byId) == SourcesOf(group);
  }

  lemma {:induction false} MaxSeveritySnoc(group: seq<Finding>, x: Finding)
    requires group != []
    ensures MaxSeverity(group + [x]) == if x.severity.Rank() <= MaxSeverity(group).Rank() then MaxSeverity(group) else x.severity
  {
    assert (group + [x])[1..] == group[1..] + [x];
    if |group| == 1 {
      assert group[1..] + [x] == [x];
    } else {
      MaxSeveritySnoc(group[1..], x);
    }
  }

  lemma {:induction false} MaxConfidenceSnoc(group: seq<Finding>, x: Finding)
    ensures MaxConfidence(group + [x]) ==
            if x.confidence.None? then MaxConfidence(group)
            else if MaxConfidence(group).None? || MaxConfidence(group).value <= x.confidence.value then x.confidence
            else MaxConfidence(group)
  {
    if group == [] {
      assert group + [x] == [x];
    } else {
      assert (group + [x])[1..] == group[1..] + [x];
      MaxConfidenceSnoc(group[1..], x);
    }
  }

  lemma SetsSnoc(group: seq<Finding>, x: Finding)
    ensures EvidenceOf(group + [x]) == EvidenceOf(group) + Elements(x.evidence)
    ensures SourcesOf(group + [x]) == SourcesOf(group) + Elements(x.sources)
  {
    assert forall y :: y in group + [x] <==> y in group || y == x;
  }

  /** Merging a summary with one more finding summarises the longer group. */
  lemma SummaryExtends(group: seq<Finding>, e: Finding, x: Finding, m: Finding)
    requires Summarizes(group, e) && Summarizes([e, x], m)
    ensures Summarizes(group + [x], m)
  {
    assert [e, x] == [e] + [x];
    MaxSeveritySnoc(group, x);
    MaxSeveritySnoc([e], x);
    MaxConfidenceSnoc(group, x);
    MaxConfidenceSnoc([e], x);
    SingletonSummary(e);
    SetsSnoc(group, x);
    SetsSnoc([e], x);
  }
}
