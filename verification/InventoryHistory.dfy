/** Whole runs of finished scans: what a row remembers, and what a multi-region scan leaves. */
module InventoryHistory {
  import opened Wrappers
  import opened Inventory
  import opened RegionScan

  /** One finished scan of one region. */
  datatype Pass = Pass(scope: Scope, collected: Collected)

  function RunScans(t: Tables, passes: seq<Pass>): Tables
    decreases |passes|
  {
    if passes == [] then t
    else
      var last := passes[|passes| - 1];
      Scan(RunScans(t, passes[..|passes| - 1]), last.scope, last.collected)
  }

  predicate Observes(p: Pass, k: Key) {
    Collects(p.scope, p.collected, k)
  }

  /** A pass over a row's account and region that does not come across its provider id. */
  predicate Misses(p: Pass, k: Key, region: string) {
    k.org == p.scope.org && k.account == p.scope.account && region == p.scope.region && !Sees(p.collected, k.id)
  }

  function MissCount(passes: seq<Pass>, k: Key, region: string): nat
    decreases |passes|
  {
    if passes == [] then 0
    else
      MissCount(passes[..|passes| - 1], k, region) + if Misses(passes[|passes| - 1], k, region) then 1 else 0
  }

  /**
    From any tables and over any scans, of whatever accounts and regions: a row that
    was observed sits in the region of its last observation, its miss count is the
    number of later passes over that region which missed it, and it is stale exactly
    when that number is positive.
  */
  lemma {:induction false} MissesSinceLastObserved(t: Tables, passes: seq<Pass>, j: nat, k: Key)
    requires j < |passes| && Observes(passes[j], k) && forall i | j < i < |passes| :: !Observes(passes[i], k)
    ensures k in RunScans(t, passes).resources
    ensures var r := RunScans(t, passes).resources[k];
            && r.region == Some(passes[j].scope.region)
            && r.misses == MissCount(passes[j + 1..], k, passes[j].scope.region)
            && (r.staleAt.Some? <==> r.misses > 0)
            && r.source == AwsSync && r.archivedAt.None? && SupportedKind(k.kind)
    decreases |passes|
  {
    hide Scan, Observations;
    var n, region := |passes|, passes[j].scope.region;
    var front, last := passes[..n - 1], passes[n - 1];
    var before := RunScans(t, front);
    ScanTouches(before, last.scope, last.collected);
    ScannedRow(before, last.scope, last.collected, k) by {
      if j < n - 1 { MissesSinceLastObserved(t, front, j, k); }
    }
    if j < n - 1 {
      MissesSinceLastObserved(t, front, j, k);
      assert passes[j + 1..][..|passes[j + 1..]| - 1] == front[j + 1..];
    }
  }

  // ----- what later passes elsewhere leave alone -----

  /** A pass that is not over this region of the row's account. */
  predicate Elsewhere(p: Pass, k: Key, region: string) {
    p.scope.org != k.org || p.scope.account != k.account || p.scope.region != region
  }

  lemma {:induction false} OtherRegionsKeep(t: Tables, passes: seq<Pass>, k: Key, region: string)
    requires forall p | p in passes :: Elsewhere(p, k, region)
    ensures var end := RunScans(t, passes).resources;
            && t.resources.Keys <= end.Keys
            && (k in end && end[k].region == Some(region) ==> k in t.resources && end[k] == t.resources[k])
    decreases |passes|
  {
    hide Scan, Observations;
    if passes != [] {
      var front, last := passes[..|passes| - 1], passes[|passes| - 1];
      OtherRegionsKeep(t, front, k, region);
      assert Elsewhere(last, k, region);
      var before := RunScans(t, front);
      ScanTouches(before, last.scope, last.collected);
      if k in Scan(before, last.scope, last.collected).resources {
        ScannedRow(before, last.scope, last.collected, k);
      }
    }
  }

  lemma {:induction false} RunScansSplits(t: Tables, pre: seq<Pass>, post: seq<Pass>)
    ensures RunScans(t, pre + post) == RunScans(RunScans(t, pre), post)
    decreases |post|
  {
    hide Scan;
    if post == [] {
      assert pre + post == pre;
    } else {
      var all := pre + post;
      assert all[..|all| - 1] == pre + post[..|post| - 1] && all[|all| - 1] == post[|post| - 1];
      RunScansSplits(t, pre, post[..|post| - 1]);
    }
  }

  /**
    Over any scans, the last pass over a region agrees with the rows in it: when a scan
    over distinct regions has ended, every finished region agrees with what was collected
    there, although later passes may have moved rows away from it.
  */
  lemma EveryRegionAgrees(t: Tables, passes: seq<Pass>, i: nat, k: Key)
    requires i < |passes| && forall j | i < j < |passes| :: Elsewhere(passes[j], k, passes[i].scope.region)
    requires UniqueIds(RunScans(t, passes), passes[i].scope, passes[i].collected)
    requires k in RunScans(t, passes).resources && InScope(passes[i].scope, k, RunScans(t, passes).resources[k])
    ensures RunScans(t, passes).resources[k].staleAt.None? <==> Observes(passes[i], k)
  {
    hide Scan, Observations;
    var before, scope, c := RunScans(t, passes[..i]), passes[i].scope, passes[i].collected;
    var after := RunScans(t, passes[..i + 1]);
    assert passes[..i + 1][..i] == passes[..i];
    assert after == Scan(before, scope, c);
    assert passes == passes[..i + 1] + passes[i + 1..];
    RunScansSplits(t, passes[..i + 1], passes[i + 1..]);
    OtherRegionsKeep(after, passes[i + 1..], k, scope.region);
    ScanTouches(before, scope, c);
    assert UniqueIds(before, scope, c);
    FreshIffCollectedSimply(before, scope, c, k);
  }

  // ----- relationships -----

  /** The ends of a relationship are rows of its organization. */
  predicate Joined(t: Tables, k: RelationKey) {
    k.source in t.resources && k.target in t.resources && k.source.org == k.target.org == k.org
  }

  /** Scans keep relationships joined, and make no others. */
  lemma {:induction false} StaysJoined(t: Tables, passes: seq<Pass>, k: RelationKey)
    requires k in t.relationships ==> Joined(t, k)
    ensures k in RunScans(t, passes).relationships ==> Joined(RunScans(t, passes), k)
    decreases |passes|
  {
    hide Scan, Observations, LinksFound;
    if passes != [] {
      var front, last := passes[..|passes| - 1], passes[|passes| - 1];
      StaysJoined(t, front, k);
      var before := RunScans(t, front);
      ScanTouches(before, last.scope, last.collected);
      RelationshipFreshIffFound(before, last.scope, last.collected);
      RecordedIsLinked(before, last.scope, last.collected);
    }
  }

  /** One pass elsewhere than where the source ends up neither finds nor marks the relationship. */
  lemma PassKeepsRelation(t: Tables, p: Pass, k: RelationKey, region: string)
    requires Elsewhere(p, k.source, region) && k.source.org == k.org
    requires var end := Scan(t, p.scope, p.collected);
             k in end.relationships && k.source in end.resources && end.resources[k.source].region == Some(region)
    ensures k.source in t.resources && t.resources[k.source].region == Some(region)
    ensures k in t.relationships && Scan(t, p.scope, p.collected).relationships[k] == t.relationships[k]
  {
    hide Scan, Observations, LinksFound;
    ScannedRow(t, p.scope, p.collected, k.source);
    RelationshipFreshIffFound(t, p.scope, p.collected);
    RecordedIsLinked(t, p.scope, p.collected);
  }

  lemma {:induction false} PassesKeepRelation(t: Tables, passes: seq<Pass>, k: RelationKey, region: string)
    requires (forall p | p in passes :: Elsewhere(p, k.source, region)) && k.source.org == k.org
    requires var end := RunScans(t, passes);
             k in end.relationships && k.source in end.resources && end.resources[k.source].region == Some(region)
    ensures k.source in t.resources && t.resources[k.source].region == Some(region)
    ensures k in t.relationships && RunScans(t, passes).relationships[k] == t.relationships[k]
    decreases |passes|
  {
    hide Scan;
    if passes != [] {
      var front := passes[..|passes| - 1];
      PassKeepsRelation(RunScans(t, front), passes[|passes| - 1], k, region);
      PassesKeepRelation(t, front, k, region);
    }
  }

  /**
    Over any scans, of whatever accounts and regions: a relationship is fresh exactly
    when the last pass over its source's region found it.
  */
  lemma RelationshipFreshIffLastFound(t: Tables, passes: seq<Pass>, j: nat, k: RelationKey)
    requires k in t.relationships ==> Joined(t, k)
    requires j < |passes| && forall i | j < i < |passes| :: Elsewhere(passes[i], k.source, passes[j].scope.region)
    requires var end := RunScans(t, passes);
             k in end.relationships && RelationInScope(end.resources, passes[j].scope, k, end.relationships[k])
    ensures RunScans(t, passes).relationships[k].staleAt.None? <==>
              k in RecordedKeys(passes[j].scope, LinksFound(passes[j].scope, passes[j].collected))
  {
    hide Scan, LinksFound, RecordedKeys;
    var before, scope, c := RunScans(t, passes[..j]), passes[j].scope, passes[j].collected;
    var after := RunScans(t, passes[..j + 1]);
    assert passes[..j + 1][..j] == passes[..j];
    assert after == Scan(before, scope, c);
    assert passes == passes[..j + 1] + passes[j + 1..];
    RunScansSplits(t, passes[..j + 1], passes[j + 1..]);
    StaysJoined(t, passes, k);
    StaysJoined(t, passes[..j + 1], k);
    PassesKeepRelation(after, passes[j + 1..], k, scope.region);
    RelationshipFreshIffFound(before, scope, c);
  }

  // ----- one scan over several regions -----

  /** The regions that finished, as passes; a region without an answer failed before it wrote anything. */
  function PassesOf(scope: Scope, regions: seq<string>, answers: seq<Option<Collected>>): seq<Pass>
    requires |regions| == |answers|
    decreases |regions|
  {
    if regions == [] then []
    else
      var n := |regions|;
      PassesOf(scope, regions[..n - 1], answers[..n - 1])
      + if answers[n - 1].None? then [] else [Pass(scope.(region := regions[n - 1]), answers[n - 1].value)]
  }

  function RegionsOf(passes: seq<Pass>): seq<string> {
    seq(|passes|, i requires 0 <= i < |passes| => passes[i].scope.region)
  }

  function Merged(a: Counts, b: Counts): Counts {
    Counts(a.resources + b.resources, a.relationships + b.relationships, a.created + b.created, a.updated + b.updated,
           a.same + b.same, a.stale + b.stale)
  }

  function TotalCounts(t: Tables, passes: seq<Pass>): Counts
    decreases |passes|
  {
    if passes == [] then NO_COUNTS
    else
      var front, last := passes[..|passes| - 1], passes[|passes| - 1];
      Merged(TotalCounts(t, front), ScanCounts(RunScans(t, front), last.scope, last.collected))
  }

  function ObservationCount(passes: seq<Pass>): nat {
    if passes == [] then 0
    else ObservationCount(passes[..|passes| - 1]) + |Observations(passes[|passes| - 1].collected)|
  }

  /** The totals of a scan over several regions are the growth of the two tables and the number of items seen. */
  lemma {:induction false} TotalsAreTrue(t: Tables, passes: seq<Pass>)
    ensures var n, end := TotalCounts(t, passes), RunScans(t, passes);
            && n.created == |end.resources| - |t.resources|
            && n.relationships == |end.relationships| - |t.relationships|
            && n.created + n.updated + n.same == n.resources == ObservationCount(passes)
    decreases |passes|
  {
    hide Scan, ScanCounts, Observations;
    if passes != [] {
      var front, last := passes[..|passes| - 1], passes[|passes| - 1];
      TotalsAreTrue(t, front);
      CountsAreTrue(RunScans(t, front), last.scope, last.collected);
    }
  }

  /** The regions that failed. */
  function FailedOf(regions: seq<string>, answers: seq<Option<Collected>>): seq<string>
    requires |regions| == |answers|
    decreases |regions|
  {
    if regions == [] then []
    else
      var n := |regions|;
      FailedOf(regions[..n - 1], answers[..n - 1]) + if answers[n - 1].None? then [regions[n - 1]] else []
  }

  lemma NothingScanned(t: Tables, scope: Scope)
    ensures PassesOf(scope, [], []) == [] && FailedOf([], []) == [] && RegionsOf([]) == []
    ensures RunScans(t, []) == t && TotalCounts(t, []) == NO_COUNTS
  {}

  lemma PassesSplit(scope: Scope, regions: seq<string>, answers: seq<Option<Collected>>, i: nat)
    requires i < |regions| == |answers|
    ensures var before, after := PassesOf(scope, regions[..i], answers[..i]),
        PassesOf(scope, regions[..i + 1], answers[..i + 1]);
            var missed, now := FailedOf(regions[..i], answers[..i]), FailedOf(regions[..i + 1], answers[..i + 1]);
            if answers[i].None? then after == before && now == missed + [regions[i]]
            else after == before + [Pass(scope.(region := regions[i]), answers[i].value)] && now == missed
  {
    assert regions[..i + 1][..i] == regions[..i] && answers[..i + 1][..i] == answers[..i];
  }

  /** Every requested region either finished or failed. */
  lemma {:induction false} RegionsPartition(scope: Scope, regions: seq<string>, answers: seq<Option<Collected>>)
    requires |regions| == |answers|
    ensures multiset(RegionsOf(PassesOf(scope, regions, answers))) + multiset(FailedOf(regions, answers))
        == multiset(regions)
    decreases |regions|
  {
    hide PassesOf, FailedOf, RegionsOf;
    var n := |regions|;
    if n == 0 {
      NothingScanned(Tables(map[], map[]), scope);
    } else {
      RegionsPartition(scope, regions[..n - 1], answers[..n - 1]);
      PassesSplit(scope, regions, answers, n - 1);
      assert regions[..n] == regions && answers[..n] == answers && regions == regions[..n - 1] + [regions[n - 1]];
      if answers[n - 1].Some? {
        OnePassMore(Tables(map[], map[]), PassesOf(scope, regions[..n - 1], answers[..n - 1]),
                    Pass(scope.(region := regions[n - 1]), answers[n - 1].value));
      }
    }
  }

  lemma OnePassMore(t: Tables, passes: seq<Pass>, p: Pass)
    ensures RunScans(t, passes + [p]) == Scan(RunScans(t, passes), p.scope, p.collected)
    ensures TotalCounts(t, passes + [p])
        == Merged(TotalCounts(t, passes), ScanCounts(RunScans(t, passes), p.scope, p.collected))
    ensures RegionsOf(passes + [p]) == RegionsOf(passes) + [p.scope.region]
  {
    hide Scan, ScanCounts;
    assert (passes + [p])[..|passes|] == passes;
  }
}
