/** The facts a route is ranked by, and the comparator that ranks it. */
module RouteRanking {
  import opened Text
  import opened PathfindingGraph
  import opened RowSums
  import Sorting

  // ---------- Evidence caveats ----------

  /** A 32-bit word of caveat flags. */
  type Flags = x: int | 0 <= x < 0x1_0000_0000

  datatype EvidenceIndex = EvidenceIndex(releases: map<int, Flags>, caveatFlagNames: seq<string>)

  /** Worst tier first. */
  const CAVEAT_SEVERITY_TIERS: seq<seq<string>> := [
    ["unofficial"],
    ["compilation", "mixed", "sampler"],
    ["promo", "reissue"]]

  const WORST_SEVERITY := 3

  function Pow2(n: nat): (p: nat)
    ensures p > 0
  {
    if n == 0 then 1 else 2 * Pow2(n - 1)
  }

  /** `(flags >> bit) & 1` on a 32-bit word, where the shift count is taken modulo 32. */
  predicate BitSet(flags: Flags, bit: nat) {
    (flags / Pow2(bit % 32)) % 2 == 1
  }

  lemma HalfStep(x: nat, p: nat)
    requires p > 0
    ensures x % (2 * p) == x % p + (if (x / p) % 2 == 1 then p else 0)
  {
    var q, r := x / p, x % p;
    var h, b := q / 2, q % 2;
    assert x == p * q + r && q == 2 * h + b;
    assert p * q == 2 * p * h + p * b;
    var low := p * b + r;
    assert 0 <= low < 2 * p && x == 2 * p * h + low;
    ModUnique(x, 2 * p, h, low);
  }

  lemma ModUnique(x: nat, m: nat, h: nat, low: nat)
    requires m > 0 && x == m * h + low && low < m
    ensures x % m == low
  {
    var k := h - x / m;
    assert m * k == m * h - m * (x / m) == x % m - low;
    Multiples(m, k);
  }

  lemma Multiples(m: nat, k: int)
    ensures k >= 1 ==> m * k >= m
    ensures k <= -1 ==> m * k + m <= 0
  {
  }

  lemma {:induction false} Pow2Add(a: nat, b: nat)
    ensures Pow2(a + b) == Pow2(a) * Pow2(b)
  {
    if a > 0 {
      Pow2Add(a - 1, b);
      assert Pow2(a) * Pow2(b) == 2 * (Pow2(a - 1) * Pow2(b));
    }
  }

  /** The sum of the powers of two whose bits are set, among the first `n`. */
  function BitSum(flags: Flags, n: nat): nat
    requires n <= 32
  {
    if n == 0 then 0 else BitSum(flags, n - 1) + if BitSet(flags, n - 1) then Pow2(n - 1) else 0
  }

  lemma {:induction false} LowBits(flags: Flags, n: nat)
    requires n <= 32
    ensures BitSum(flags, n) == flags % Pow2(n)
  {
    if n > 0 {
      LowBits(flags, n - 1);
      HalfStep(flags, Pow2(n - 1));
    }
  }

  lemma Pow2Word()
    ensures Pow2(32) == 0x1_0000_0000
  {
    assert Pow2(4) == 16;
    Pow2Add(4, 4);
    Pow2Add(8, 8);
    Pow2Add(16, 16);
  }

  lemma SameBit(flags: Flags, bit: nat)
    ensures BitSet(flags, bit + 32) == BitSet(flags, bit)
  {
    assert (bit + 32) % 32 == bit % 32;
  }

  /** The bits read are the binary digits of the word, and past the last they start again. */
  lemma BitsAreDigits(flags: Flags)
    ensures BitSum(flags, 32) == flags
    ensures forall bit: nat :: BitSet(flags, bit + 32) == BitSet(flags, bit)
  {
    LowBits(flags, 32);
    Pow2Word();
    forall bit: nat ensures BitSet(flags, bit + 32) == BitSet(flags, bit) { SameBit(flags, bit); }
  }

  /** How bad one caveat name is by itself. */
  function NameSeverity(name: string): nat {
    if name == "unofficial" then 3
    else if name in {"compilation", "mixed", "sampler"} then 2
    else if name in {"promo", "reissue"} then 1
    else 0
  }

  /** The severity of a word of flags is that of the worst flag set in it. */
  ghost predicate IsSeverity(flags: Flags, names: seq<string>, severity: nat) {
    && (forall bit :: 0 <= bit < |names| && BitSet(flags, bit) ==> NameSeverity(names[bit]) <= severity)
    && (severity == 0 || exists bit :: 0 <= bit < |names| && BitSet(flags, bit) && NameSeverity(names[bit]) == severity)
  }

  function Severity(flags: Flags, names: seq<string>): nat {
    SeverityUpTo(flags, names, |names|)
  }

  function SeverityUpTo(flags: Flags, names: seq<string>, upTo: nat): nat
    requires upTo <= |names|
  {
    if upTo == 0 then 0
    else
      var before := SeverityUpTo(flags, names, upTo - 1);
      if BitSet(flags, upTo - 1) && NameSeverity(names[upTo - 1]) > before
      then NameSeverity(names[upTo - 1]) else before
  }

  lemma {:induction false} SeverityUpToIsSeverity(flags: Flags, names: seq<string>, upTo: nat)
    requires upTo <= |names|
    ensures IsSeverity(flags, names[..upTo], SeverityUpTo(flags, names, upTo))
    ensures SeverityUpTo(flags, names, upTo) <= WORST_SEVERITY
  {
    if upTo > 0 {
      SeverityUpToIsSeverity(flags, names, upTo - 1);
      assert names[..upTo] == names[..upTo - 1] + [names[upTo - 1]];
    }
  }

  lemma SeverityIsSeverity(flags: Flags, names: seq<string>)
    ensures IsSeverity(flags, names, Severity(flags, names)) && Severity(flags, names) <= WORST_SEVERITY
  {
    SeverityUpToIsSeverity(flags, names, |names|);
    assert names[..|names|] == names;
  }

  lemma SeverityUnique(flags: Flags, names: seq<string>, a: nat, b: nat)
    requires IsSeverity(flags, names, a) && IsSeverity(flags, names, b)
    ensures a == b
  {
  }

  method CaveatSeverity(flags: Flags, caveatFlagNames: seq<string>) returns (severity: nat)
    ensures severity == Severity(flags, caveatFlagNames)
  {
    SeverityIsSeverity(flags, caveatFlagNames);
    if |caveatFlagNames| == 0 { return 0; }
    for tier := 0 to |CAVEAT_SEVERITY_TIERS|
      invariant forall bit :: 0 <= bit < |caveatFlagNames| && BitSet(flags, bit) ==>
        NameSeverity(caveatFlagNames[bit]) <= |CAVEAT_SEVERITY_TIERS| - tier
    {
      var names := CAVEAT_SEVERITY_TIERS[tier];
      for bit := 0 to |caveatFlagNames|
        invariant forall b :: 0 <= b < bit && BitSet(flags, b) ==> caveatFlagNames[b] !in names
      {
        if caveatFlagNames[bit] in names && BitSet(flags, bit) {
          severity := |CAVEAT_SEVERITY_TIERS| - tier;
          assert NameSeverity(caveatFlagNames[bit]) == severity;
          SeverityUnique(flags, caveatFlagNames, severity, Severity(flags, caveatFlagNames));
          return;
        }
      }
    }
    severity := 0;
    SeverityUnique(flags, caveatFlagNames, 0, Severity(flags, caveatFlagNames));
  }

  // ---------- Route facts ----------

  datatype RouteFacts = RouteFacts(
    hopCount: nat,
    worstCaveatSeverity: Option<nat>,
    maxInteriorDegree: nat,
    performerHopCount: nat)

  /** What a route is judged against: lookup tables, the evidence registry, the role taxonomy. */
  datatype Ranker = Ranker(artistIndex: map<int, nat>, evidence: EvidenceIndex, isPerformerRole: string -> bool)

  /** The hop names the artist at node `n`. */
  predicate Touches(k: Ranker, hop: PathHop, n: nat) {
    || (hop.artistAId in k.artistIndex && k.artistIndex[hop.artistAId] == n)
    || (hop.artistBId in k.artistIndex && k.artistIndex[hop.artistBId] == n)
  }

  ghost predicate OnRoute(k: Ranker, hops: seq<PathHop>, n: nat) {
    exists i :: 0 <= i < |hops| && Touches(k, hops[i], n)
  }

  /** `m` is the greatest degree among the route's artists, 0 if there are none. */
  ghost predicate IsHubbiest(g: Graph, k: Ranker, hops: seq<PathHop>, m: nat)
    requires RowsInRange(g) && IsArtistIndex(g, k.artistIndex)
  {
    && (forall n: nat :: OnRoute(k, hops, n) ==> n < |g.nodeIds| && RowLength(g, n) <= m)
    && (m == 0 || exists n: nat :: OnRoute(k, hops, n) && n < |g.nodeIds| && RowLength(g, n) == m)
  }

  function HopSeverity(k: Ranker, hop: PathHop): nat {
    if hop.releaseId in k.evidence.releases
    then Severity(k.evidence.releases[hop.releaseId], k.evidence.caveatFlagNames) else 0
  }

  /** `m` is the worst known severity on the route, 0 if none is known. */
  ghost predicate IsWorst(k: Ranker, hops: seq<PathHop>, m: nat) {
    && (forall i :: 0 <= i < |hops| ==> HopSeverity(k, hops[i]) <= m)
    && (m == 0 || exists i :: 0 <= i < |hops| && HopSeverity(k, hops[i]) == m)
  }

  predicate PerformerHop(k: Ranker, hop: PathHop) {
    k.isPerformerRole(hop.roleA) || k.isPerformerRole(hop.roleB)
  }

  function CountPerformers(k: Ranker, hops: seq<PathHop>): nat {
    if hops == [] then 0
    else CountPerformers(k, hops[..|hops| - 1]) + if PerformerHop(k, hops[|hops| - 1]) then 1 else 0
  }

  predicate MissingEvidence(k: Ranker, hops: seq<PathHop>) {
    exists i :: 0 <= i < |hops| && hops[i].releaseId !in k.evidence.releases
  }

  /** A known caveat is reported whatever else is unknown; only a would-be clean claim is
      withdrawn when some evidence could not be checked. */
  ghost predicate IsReported(k: Ranker, hops: seq<PathHop>, reported: Option<nat>) {
    match reported
    case None => k.evidence.caveatFlagNames == [] || (MissingEvidence(k, hops) && IsWorst(k, hops, 0))
    case Some(worst) =>
      && k.evidence.caveatFlagNames != [] && IsWorst(k, hops, worst)
      && (worst == 0 ==> !MissingEvidence(k, hops))
  }

  /** What each of the four facts means. */
  ghost predicate AreFacts(g: Graph, k: Ranker, hops: seq<PathHop>, facts: RouteFacts)
    requires RowsInRange(g) && IsArtistIndex(g, k.artistIndex)
  {
    && facts.hopCount == |hops|
    && facts.performerHopCount == CountPerformers(k, hops)
    && IsHubbiest(g, k, hops, facts.maxInteriorDegree)
    && IsReported(k, hops, facts.worstCaveatSeverity)
  }

  /** The places of the hops with a performer on a side. */
  function PerformerPlaces(k: Ranker, hops: seq<PathHop>): set<nat> {
    set i: nat | i < |hops| && (k.isPerformerRole(hops[i].roleA) || k.isPerformerRole(hops[i].roleB))
  }

  lemma {:induction false} PerformersCounted(k: Ranker, hops: seq<PathHop>)
    ensures CountPerformers(k, hops) == |PerformerPlaces(k, hops)|
  {
    if hops != [] {
      var n := |hops| - 1;
      PerformersCounted(k, hops[..n]);
      assert PerformerPlaces(k, hops) == PerformerPlaces(k, hops[..n]) + if PerformerHop(k, hops[n]) then {n} else {};
    }
  }

  /** A caveat set for the evidence of some hop. */
  ghost predicate Flagged(k: Ranker, hops: seq<PathHop>, name: string) {
    exists i, bit :: 0 <= i < |hops| && 0 <= bit < |k.evidence.caveatFlagNames| && FlaggedAt(k, hops[i], bit, name)
  }

  predicate FlaggedAt(k: Ranker, hop: PathHop, bit: nat, name: string)
    requires bit < |k.evidence.caveatFlagNames|
  {
    hop.releaseId in k.evidence.releases && BitSet(k.evidence.releases[hop.releaseId], bit) && k.evidence.caveatFlagNames[bit] == name
  }

  lemma HopSeverityMeans(k: Ranker, hop: PathHop)
    ensures forall bit, name :: 0 <= bit < |k.evidence.caveatFlagNames| && FlaggedAt(k, hop, bit, name) ==> NameSeverity(name) <= HopSeverity(k, hop)
    ensures HopSeverity(k, hop) > 0 ==>
      exists bit :: 0 <= bit < |k.evidence.caveatFlagNames| && FlaggedAt(k, hop, bit, k.evidence.caveatFlagNames[bit])
        && NameSeverity(k.evidence.caveatFlagNames[bit]) == HopSeverity(k, hop)
  {
    if hop.releaseId in k.evidence.releases {
      SeverityIsSeverity(k.evidence.releases[hop.releaseId], k.evidence.caveatFlagNames);
    }
  }

  /** The facts in terms of the graph and the evidence: how many hops have a performer on a side, how many
      slots the busiest artist on the route has, and the severity of the worst caveat set anywhere. */
  lemma FactsMean(g: Graph, k: Ranker, hops: seq<PathHop>, facts: RouteFacts)
    requires RowsInRange(g) && IsArtistIndex(g, k.artistIndex) && AreFacts(g, k, hops, facts)
    ensures facts.hopCount == |hops| && facts.performerHopCount == |PerformerPlaces(k, hops)|
    ensures forall n: nat :: OnRoute(k, hops, n) ==> n < |g.nodeIds| && |Slots(g, n)| <= facts.maxInteriorDegree
    ensures facts.maxInteriorDegree == 0 || exists n: nat :: OnRoute(k, hops, n) && |Slots(g, n)| == facts.maxInteriorDegree
    ensures facts.worstCaveatSeverity.Some? ==> forall name :: Flagged(k, hops, name) ==> NameSeverity(name) <= facts.worstCaveatSeverity.value
    ensures facts.worstCaveatSeverity.Some? && facts.worstCaveatSeverity.value > 0 ==>
      exists name :: Flagged(k, hops, name) && NameSeverity(name) == facts.worstCaveatSeverity.value
  {
    PerformersCounted(k, hops);
    forall n: nat | n < |g.nodeIds| ensures RowLength(g, n) == |Slots(g, n)| { RowLengthCounts(g, n); }
    if facts.worstCaveatSeverity.Some? { WorstMeans(k, hops, facts.worstCaveatSeverity.value); }
  }

  lemma WorstMeans(k: Ranker, hops: seq<PathHop>, worst: nat)
    requires IsWorst(k, hops, worst)
    ensures forall name :: Flagged(k, hops, name) ==> NameSeverity(name) <= worst
    ensures worst > 0 ==> exists name :: Flagged(k, hops, name) && NameSeverity(name) == worst
  {
    forall i | 0 <= i < |hops| ensures HopSeverity(k, hops[i]) <= worst { }
    forall name | Flagged(k, hops, name) ensures NameSeverity(name) <= worst {
      var i, bit :| 0 <= i < |hops| && 0 <= bit < |k.evidence.caveatFlagNames| && FlaggedAt(k, hops[i], bit, name);
      HopSeverityMeans(k, hops[i]);
    }
    if worst > 0 {
      var i :| 0 <= i < |hops| && HopSeverity(k, hops[i]) == worst;
      HopSeverityMeans(k, hops[i]);
      var bit :| 0 <= bit < |k.evidence.caveatFlagNames| && FlaggedAt(k, hops[i], bit, k.evidence.caveatFlagNames[bit])
        && NameSeverity(k.evidence.caveatFlagNames[bit]) == worst;
      assert Flagged(k, hops, k.evidence.caveatFlagNames[bit]);
    }
  }

  lemma FactsUnique(g: Graph, k: Ranker, hops: seq<PathHop>, a: RouteFacts, b: RouteFacts)
    requires RowsInRange(g) && IsArtistIndex(g, k.artistIndex)
    requires AreFacts(g, k, hops, a) && AreFacts(g, k, hops, b)
    ensures a == b
  {
  }

  /** The running facts after the hops read so far. */
  ghost predicate Running(k: Ranker, hops: seq<PathHop>, worst: nat, missing: bool, performers: nat, interior: set<nat>) {
    && IsWorst(k, hops, worst)
    && (missing <==> MissingEvidence(k, hops))
    && performers == CountPerformers(k, hops)
    && (forall n: nat :: n in interior <==> OnRoute(k, hops, n))
  }

  function NodesOf(k: Ranker, hop: PathHop): set<nat> {
    (if hop.artistAId in k.artistIndex then {k.artistIndex[hop.artistAId]} else {}) +
    (if hop.artistBId in k.artistIndex then {k.artistIndex[hop.artistBId]} else {})
  }

  method ComputeRouteFacts(g: Graph, k: Ranker, hops: seq<PathHop>) returns (facts: RouteFacts)
    requires RowsInRange(g) && IsArtistIndex(g, k.artistIndex)
    ensures AreFacts(g, k, hops, facts)
  {
    var haveCaveatData := |k.evidence.caveatFlagNames| > 0;
    var worstKnownSeverity := 0;
    var anyReleaseMissing := false;
    var performerHopCount := 0;
    var interior: set<nat> := {};
    ghost var worst: nat, missing := 0, false;
    for i := 0 to |hops|
      invariant Running(k, hops[..i], worst, missing, performerHopCount, interior)
      invariant haveCaveatData ==> worstKnownSeverity == worst && anyReleaseMissing == missing
    {
      var hop := hops[i];
      RunningStep(k, hops[..i], hop, worst, missing, performerHopCount, interior);
      assert hops[..i + 1] == hops[..i] + [hop];
      worst := if HopSeverity(k, hop) > worst then HopSeverity(k, hop) else worst;
      missing := missing || hop.releaseId !in k.evidence.releases;
      if haveCaveatData {
        if hop.releaseId !in k.evidence.releases {
          anyReleaseMissing := true;
        } else {
          var severity := CaveatSeverity(k.evidence.releases[hop.releaseId], k.evidence.caveatFlagNames);
          if severity > worstKnownSeverity { worstKnownSeverity := severity; }
        }
      }
      if k.isPerformerRole(hop.roleA) || k.isPerformerRole(hop.roleB) {
        performerHopCount := performerHopCount + 1;
      }
      interior := interior + NodesOf(k, hop);
    }
    assert hops[..|hops|] == hops;
    var maxInteriorDegree := GreatestDegree(g, k, hops, interior);
    facts := RouteFacts(
      |hops|,
      if !haveCaveatData then None
      else if anyReleaseMissing && worstKnownSeverity == 0 then None
      else Some(worstKnownSeverity),
      maxInteriorDegree,
      performerHopCount);
  }

  lemma OnRouteSnoc(k: Ranker, hops: seq<PathHop>, hop: PathHop, n: nat)
    ensures OnRoute(k, hops + [hop], n) <==> OnRoute(k, hops, n) || n in NodesOf(k, hop)
  {
    var all := hops + [hop];
    if OnRoute(k, hops, n) {
      var i :| 0 <= i < |hops| && Touches(k, hops[i], n);
      assert Touches(k, all[i], n);
    }
    if n in NodesOf(k, hop) { assert Touches(k, all[|hops|], n); }
  }

  lemma WorstSnoc(k: Ranker, hops: seq<PathHop>, hop: PathHop, worst: nat)
    requires IsWorst(k, hops, worst)
    ensures IsWorst(k, hops + [hop], if HopSeverity(k, hop) > worst then HopSeverity(k, hop) else worst)
  {
    var all := hops + [hop];
    if 0 < worst {
      var i :| 0 <= i < |hops| && HopSeverity(k, hops[i]) == worst;
      assert HopSeverity(k, all[i]) == worst;
    }
    assert HopSeverity(k, all[|hops|]) == HopSeverity(k, hop);
  }

  lemma MissingSnoc(k: Ranker, hops: seq<PathHop>, hop: PathHop)
    ensures MissingEvidence(k, hops + [hop]) <==> MissingEvidence(k, hops) || hop.releaseId !in k.evidence.releases
  {
    var all := hops + [hop];
    if MissingEvidence(k, hops) {
      var i :| 0 <= i < |hops| && hops[i].releaseId !in k.evidence.releases;
      assert all[i].releaseId !in k.evidence.releases;
    }
    assert all[|hops|] == hop;
  }

  /** How each running fact moves when one more hop is read. */
  lemma RunningStep(k: Ranker, hops: seq<PathHop>, hop: PathHop, worst: nat, missing: bool, performers: nat, interior: set<nat>)
    requires Running(k, hops, worst, missing, performers, interior)
    ensures Running(k, hops + [hop],
                    if HopSeverity(k, hop) > worst then HopSeverity(k, hop) else worst,
                    missing || hop.releaseId !in k.evidence.releases,
                    performers + if PerformerHop(k, hop) then 1 else 0,
                    interior + NodesOf(k, hop))
  {
    WorstSnoc(k, hops, hop, worst);
    MissingSnoc(k, hops, hop);
    assert (hops + [hop])[..|hops|] == hops;
    forall n: nat ensures n in interior + NodesOf(k, hop) <==> OnRoute(k, hops + [hop], n) {
      OnRouteSnoc(k, hops, hop, n);
    }
  }

  method GreatestDegree(g: Graph, k: Ranker, ghost hops: seq<PathHop>, interior: set<nat>) returns (m: nat)
    requires RowsInRange(g) && IsArtistIndex(g, k.artistIndex)
    requires forall n: nat :: n in interior <==> OnRoute(k, hops, n)
    ensures IsHubbiest(g, k, hops, m)
  {
    m := 0;
    var left := interior;
    while left != {}
      invariant left <= interior
      invariant forall n :: n in interior && n !in left ==> n < |g.nodeIds| && RowLength(g, n) <= m
      invariant m == 0 || exists n :: n in interior && n < |g.nodeIds| && RowLength(g, n) == m
      decreases |left|
    {
      var n :| n in left;
      assert OnRoute(k, hops, n);
      if RowLength(g, n) > m { m := RowLength(g, n); }
      left := left - {n};
    }
  }

  // ---------- The comparator ----------

  datatype RankedRoute = RankedRoute(route: AlbumRoute, usedEdgeKeys: set<string>, facts: RouteFacts)

  function CaveatOf(r: RankedRoute): nat {
    match r.facts.worstCaveatSeverity
    case None => 0
    case Some(severity) => severity
  }

  function NonPerformerHops(r: RankedRoute): int {
    r.facts.hopCount - r.facts.performerHopCount
  }

  /** Negative when `a` is the better recommendation. */
  function CompareRanked(a: RankedRoute, b: RankedRoute): int {
    if CaveatOf(a) != CaveatOf(b) then CaveatOf(a) - CaveatOf(b)
    else if a.facts.maxInteriorDegree != b.facts.maxInteriorDegree then
      a.facts.maxInteriorDegree - b.facts.maxInteriorDegree
    else if NonPerformerHops(a) != NonPerformerHops(b) then NonPerformerHops(a) - NonPerformerHops(b)
    else CompareText(KeyText(a.usedEdgeKeys), KeyText(b.usedEdgeKeys))
  }

  lemma CompareTextLaws(a: string, b: string, c: string)
    ensures CompareText(a, b) < 0 <==> CompareText(b, a) > 0
    ensures CompareText(a, b) <= 0 && CompareText(b, c) <= 0 ==> CompareText(a, c) <= 0
    ensures CompareText(a, b) == 0 <==> a == b
  {
    BeforeTrichotomy(a, b);
    BeforeTrichotomy(b, c);
    BeforeTrichotomy(a, c);
    if Before(a, b) && Before(b, c) { BeforeTransitive(a, b, c); }
  }

  lemma CompareRankedIsTotal()
    ensures Sorting.TotalPreorder(CompareRanked)
  {
    forall x, y ensures CompareRanked(x, y) < 0 <==> CompareRanked(y, x) > 0 {
      CompareTextLaws(KeyText(x.usedEdgeKeys), KeyText(y.usedEdgeKeys), "");
    }
    forall x, y, z | CompareRanked(x, y) <= 0 && CompareRanked(y, z) <= 0 ensures CompareRanked(x, z) <= 0 {
      CompareTextLaws(KeyText(x.usedEdgeKeys), KeyText(y.usedEdgeKeys), KeyText(z.usedEdgeKeys));
    }
  }

  /** What makes `a` no worse a recommendation than `b`: a milder worst caveat, an unknown one counting as
      none; then a smaller greatest degree; then fewer hops without a performer; and then the text of its
      edge keys, in code-point order. */
  ghost predicate NoWorse(a: RankedRoute, b: RankedRoute) {
    var x, y := a.facts, b.facts;
    var s := if x.worstCaveatSeverity.Some? then x.worstCaveatSeverity.value else 0;
    var t := if y.worstCaveatSeverity.Some? then y.worstCaveatSeverity.value else 0;
    || s < t
    || (s == t && x.maxInteriorDegree < y.maxInteriorDegree)
    || (s == t && x.maxInteriorDegree == y.maxInteriorDegree
        && x.hopCount - x.performerHopCount < y.hopCount - y.performerHopCount)
    || (s == t && x.maxInteriorDegree == y.maxInteriorDegree
        && x.hopCount - x.performerHopCount == y.hopCount - y.performerHopCount
        && !Precedes(KeyText(b.usedEdgeKeys), KeyText(a.usedEdgeKeys)))
  }

  /** The comparator never puts the worse of two routes first. */
  lemma CompareRankedMeans(a: RankedRoute, b: RankedRoute)
    ensures CompareRanked(a, b) <= 0 <==> NoWorse(a, b)
  {
    BeforeIsPrecedes(KeyText(b.usedEdgeKeys), KeyText(a.usedEdgeKeys));
    BeforeTrichotomy(KeyText(a.usedEdgeKeys), KeyText(b.usedEdgeKeys));
  }

  /** An edge-key set as a route produces it. */
  ghost predicate RouteKeys(keys: set<string>) {
    exists hops :: keys == EdgeKeysForHops(hops)
  }

  lemma RouteKeysPlain(hops: seq<PathHop>)
    ensures forall key :: key in EdgeKeysForHops(hops) ==> key != "" && '|' !in key
  {
    forall i | 0 <= i < |hops| ensures HopEdgeKey(hops[i]) != "" && '|' !in HopEdgeKey(hops[i]) {
      var h := hops[i];
      IntTextLacks(Min(h.artistAId, h.artistBId), '|');
      IntTextLacks(Max(h.artistAId, h.artistBId), '|');
      IntTextLacks(h.releaseId, '|');
    }
  }

  /** Two routes tie only if they walk the very same edges. */
  lemma TieMeansSameEdges(a: RankedRoute, b: RankedRoute)
    requires RouteKeys(a.usedEdgeKeys) && RouteKeys(b.usedEdgeKeys)
    requires CompareRanked(a, b) == 0
    ensures a.usedEdgeKeys == b.usedEdgeKeys
  {
    var hopsA :| a.usedEdgeKeys == EdgeKeysForHops(hopsA);
    var hopsB :| b.usedEdgeKeys == EdgeKeysForHops(hopsB);
    RouteKeysPlain(hopsA);
    RouteKeysPlain(hopsB);
    CompareTextLaws(KeyText(a.usedEdgeKeys), KeyText(b.usedEdgeKeys), "");
    KeyTextInjective(a.usedEdgeKeys, b.usedEdgeKeys);
  }

  // ---------- Facts of a reversed route ----------

  lemma {:induction false} CountPerformersConcat(k: Ranker, a: seq<PathHop>, b: seq<PathHop>)
    ensures CountPerformers(k, a + b) == CountPerformers(k, a) + CountPerformers(k, b)
    decreases |b|
  {
    if b == [] {
      assert a + b == a;
    } else {
      CountPerformersConcat(k, a, b[..|b| - 1]);
      assert (a + b)[..|a + b| - 1] == a + b[..|b| - 1];
    }
  }

  lemma {:induction false} CountPerformersReversed(k: Ranker, hops: seq<PathHop>)
    ensures CountPerformers(k, ReverseHops(hops)) == CountPerformers(k, hops)
  {
    if hops != [] {
      var last := hops[|hops| - 1];
      var init := hops[..|hops| - 1];
      CountPerformersReversed(k, init);
      assert ReverseHops(hops) == [ReverseHop(last)] + ReverseHops(init);
      CountPerformersConcat(k, [ReverseHop(last)], ReverseHops(init));
      assert [ReverseHop(last)][..0] == [];
    }
  }

  /** A route and its reversal have the same facts: Swap needs no second search. */
  lemma ReverseKeepsFacts(g: Graph, k: Ranker, hops: seq<PathHop>, facts: RouteFacts)
    requires RowsInRange(g) && IsArtistIndex(g, k.artistIndex) && AreFacts(g, k, hops, facts)
    ensures AreFacts(g, k, ReverseHops(hops), facts)
  {
    var back := ReverseHops(hops);
    CountPerformersReversed(k, hops);
    var n := |hops|;
    assert forall i :: 0 <= i < n ==> back[i] == ReverseHop(hops[n - 1 - i]);
    forall v: nat ensures OnRoute(k, back, v) <==> OnRoute(k, hops, v) { ReversedTouches(k, hops, v); }
    forall m: nat | IsWorst(k, hops, m) ensures IsWorst(k, back, m) { ReversedWorst(k, hops, m); }
    if MissingEvidence(k, hops) {
      var i :| 0 <= i < n && hops[i].releaseId !in k.evidence.releases;
      assert back[n - 1 - i].releaseId == hops[i].releaseId;
    }
  }

  lemma ReversedTouches(k: Ranker, hops: seq<PathHop>, v: nat)
    ensures OnRoute(k, ReverseHops(hops), v) <==> OnRoute(k, hops, v)
  {
    var back := ReverseHops(hops);
    var n := |hops|;
    if OnRoute(k, hops, v) {
      var i :| 0 <= i < n && Touches(k, hops[i], v);
      assert Touches(k, back[n - 1 - i], v);
    }
    if OnRoute(k, back, v) {
      var i :| 0 <= i < n && Touches(k, back[i], v);
      assert Touches(k, hops[n - 1 - i], v);
    }
  }

  lemma ReversedWorst(k: Ranker, hops: seq<PathHop>, m: nat)
    requires IsWorst(k, hops, m)
    ensures IsWorst(k, ReverseHops(hops), m)
  {
    var back := ReverseHops(hops);
    var n := |hops|;
    forall i | 0 <= i < n ensures HopSeverity(k, back[i]) <= m {
      assert back[i].releaseId == hops[n - 1 - i].releaseId;
    }
    if m > 0 {
      var i :| 0 <= i < n && HopSeverity(k, hops[i]) == m;
      assert back[n - 1 - i].releaseId == hops[i].releaseId;
    }
  }
}
