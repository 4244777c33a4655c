/**
  The scanner as the code writes it, updating the tables row by row, and proved to
  compute the scan function.
*/
module InventoryStore {
  import opened Wrappers
  import opened Inventory
  import opened RegionScan
  import opened InventoryHistory

  /** What `scanRegion` keeps track of while it goes. */
  class Progress {
    var counts: Counts
    var ids: map<string, Key>
    var seen: set<string>
    var recorded: set<RelationKey>

    constructor ()
      ensures counts == NO_COUNTS && ids == map[] && seen == {} && recorded == {}
    {
      counts, ids, seen, recorded := NO_COUNTS, map[], {}, {};
    }
  }

  class InventoryStore {
    var resources: Resources
    var relationships: Relationships

    ghost function Contents(): Tables
      reads this
    {
      Tables(resources, relationships)
    }

    constructor (t: Tables)
      ensures Contents() == t
    {
      resources, relationships := t.resources, t.relationships;
    }

    method SaveResource(scope: Scope, item: Item) returns (id: Key, changed: Change)
      modifies this`resources
      ensures id == KeyOf(scope, item) && changed == ChangeOf(old(resources), scope, item)
      ensures resources == old(resources)[id := Upserted(old(resources), scope, item)]
    {
      id := Key(scope.org, scope.account, item.kind, item.id);
      var metadata := Metadata(Some("AWS_SYNC"), item.aws, scope.now);
      var data := Resource(item.name, Some(scope.region), item.status, item.tags, metadata, AwsSync, Some(scope.now),
          None, None, 0);
      if id !in resources {
        resources := resources[id := data];
        changed := Created;
      } else {
        var existing := resources[id];
        changed := if FingerprintOf(existing) == FingerprintOf(data) then Unchanged else Updated;
        // a missing value is not written
        resources := resources[id := if item.name.None? then data.(name := existing.name) else data];
      }
    }

    method RecordResource(progress: Progress, scope: Scope, item: Item)
      modifies this`resources, progress
      ensures resources == old(resources)[KeyOf(scope, item) := Upserted(old(resources), scope, item)]
      ensures progress.counts == Counted(old(progress.counts), ChangeOf(old(resources), scope, item))
      ensures progress.ids == old(progress.ids)[item.id := KeyOf(scope, item)]
      ensures progress.seen == old(progress.seen) + {item.id} && progress.recorded == old(progress.recorded)
    {
      var id, changed := SaveResource(scope, item);
      progress.ids := progress.ids[item.id := id];
      progress.seen := progress.seen + {item.id};
      var counts := progress.counts.(resources := progress.counts.resources + 1);
      match changed {
        case Created => counts := counts.(created := counts.created + 1);
        case Updated => counts := counts.(updated := counts.updated + 1);
        case Unchanged => counts := counts.(same := counts.same + 1);
      }
      progress.counts := counts;
    }

    /** Where recording stands after `items`, from tables `start`. */
    ghost predicate Recorded(progress: Progress, start: Resources, scope: Scope, items: seq<Item>)
      reads this, progress
    {
      && resources == SaveAll(start, scope, items)
      && progress.counts == CountAll(start, scope, items)
      && progress.ids == IdsOf(scope, items)
      && progress.seen == SeenIds(items)
      && progress.recorded == {}
    }

    /** One of the five recording loops. */
    method RecordEach(progress: Progress, scope: Scope, kind: Kind, raws: seq<Raw>, ghost start: Resources,
      ghost done: seq<Item>)
      requires Recorded(progress, start, scope, done)
      modifies this`resources, progress
      ensures Recorded(progress, start, scope, done + ItemsOf(kind, raws))
    {
      hide Upserted, ChangeOf, SaveAll, CountAll, IdsOf, SeenIds, ItemsOf, Counted;
      assert raws[..|raws|] == raws;
      NoItems(kind, done);
      for i := 0 to |raws|
        invariant Recorded(progress, start, scope, done + ItemsOf(kind, raws[..i]))
      {
        MoreItems(kind, raws, i, done);
        if raws[i].id == "" { continue; }
        SavedOneMore(start, scope, done + ItemsOf(kind, raws[..i]), ItemOf(kind, raws[i]));
        RecordResource(progress, scope, ItemOf(kind, raws[i]));
      }
    }

    // ----- relationships -----

    /** `saveRelationship`: how many rows it created. */
    method SaveRelationship(progress: Progress, scope: Scope, link: Link) returns (created: nat)
      modifies this`relationships, progress`recorded
      ensures relationships == SaveLink(resources, old(relationships), scope, link)
      ensures progress.recorded == old(progress.recorded) + RecordedKeys(scope, [link])
      ensures created == |relationships| - |old(relationships)|
    {
      if link.source.None? || link.target.None? || link.source == link.target {
        return 0;
      }
      var key := RelationKey(scope.org, link.source.value, link.target.value, link.kind);
      progress.recorded := progress.recorded + {key};
      assert RecordedKeys(scope, [link]) == {key} by { assert link in [link]; }
      if !Known(resources, scope.org, key.source) || !Known(resources, scope.org, key.target) {
        return 0;
      }
      created := if key in relationships then 0 else 1;
      relationships := relationships[key := Relationship(AwsSync, Some(scope.now), None)];
    }

    /** Where linking stands after `links`, from relationships `start`. */
    ghost predicate Linked(progress: Progress, start: Relationships, scope: Scope, links: seq<Link>)
      reads this, progress
    {
      && relationships == SaveLinks(resources, start, scope, links)
      && progress.recorded == RecordedKeys(scope, links)
      && progress.counts.relationships == |relationships| - |start|
    }

    /** The linking loops: every link of every thing of one kind. */
    method LinkEachOf(progress: Progress, scope: Scope, kind: Kind, raws: seq<Raw>, ghost start: Relationships,
      ghost done: seq<Link>)
      requires Linked(progress, start, scope, done)
      modifies this`relationships, progress`recorded, progress`counts
      ensures Linked(progress, start, scope, done + LinksOfAll(kind, raws, progress.ids))
      ensures progress.counts == old(progress.counts).(relationships := progress.counts.relationships)
    {
      hide SaveLinks, SaveLink, RecordedKeys, LinksOfAll, LinksOf;
      assert raws[..|raws|] == raws;
      NoLinks(kind, progress.ids, done);
      for i := 0 to |raws|
        invariant Linked(progress, start, scope, done + LinksOfAll(kind, raws[..i], progress.ids))
        invariant progress.counts == old(progress.counts).(relationships := progress.counts.relationships)
      {
        var links := LinksOf(kind, raws[i], progress.ids);
        ghost var before := done + LinksOfAll(kind, raws[..i], progress.ids);
        MoreLinks(kind, raws, i, progress.ids, done);
        assert before + links[..0] == before && links[..|links|] == links;
        for j := 0 to |links|
          invariant Linked(progress, start, scope, before + links[..j])
          invariant progress.counts == old(progress.counts).(relationships := progress.counts.relationships)
        {
          LinkedOneMore(resources, start, scope, before, links, j);
          var created := SaveRelationship(progress, scope, links[j]);
          progress.counts := progress.counts.(relationships := progress.counts.relationships + created);
        }
      }
    }

    // ----- stale marking -----

    method MarkMissingResourcesStale(scope: Scope, seen: set<string>) returns (count: nat)
      modifies this`resources
      ensures resources == MarkMissing(old(resources), scope, seen)
      ensures count == |MissedKeys(old(resources), scope, seen)|
    {
      var missed := set k | k in resources && Missed(scope, seen, k, resources[k]);
      assert missed == MissedKeys(resources, scope, seen);
      count := |missed|;
      resources := map k | k in resources ::
        if k in missed then resources[k].(staleAt := Some(scope.now), misses := resources[k].misses + 1)
            else resources[k];
    }

    method MarkMissingRelationshipsStale(scope: Scope, seenKeys: set<RelationKey>)
      modifies this`relationships
      ensures relationships == MarkMissingLinks(resources, old(relationships), scope, seenKeys)
    {
      var found := set k | k in relationships && RelationInScope(resources, scope, k, relationships[k])
                           && relationships[k].staleAt.None?;
      var stale := found - seenKeys;
      if stale == {} {
        assert MarkMissingLinks(resources, relationships, scope, seenKeys) == relationships by {
          forall k | k in relationships && RelationInScope(resources, scope, k, relationships[k])
              && relationships[k].staleAt.None?
            ensures k in seenKeys
          {
            assert k in found && (k in seenKeys || k in stale);
          }
        }
        return;
      }
      relationships := map k | k in relationships ::
        if k in stale then relationships[k].(staleAt := Some(scope.now)) else relationships[k];
    }

    // ----- the scan -----

    /** The five recording loops, type by type. */
    method RecordCollected(progress: Progress, scope: Scope, c: Collected)
      requires progress.counts == NO_COUNTS && progress.ids == map[] && progress.seen == {} && progress.recorded == {}
      modifies this`resources, progress
      ensures Recorded(progress, old(resources), scope, Observations(c))
    {
      hide SaveAll, CountAll, IdsOf, SeenIds, ItemsOf;
      ghost var start := resources;
      NothingRecorded(start, scope);
      RecordEach(progress, scope, Vpc, c.vpcs, start, []);
      ghost var done := [] + ItemsOf(Vpc, c.vpcs);
      RecordEach(progress, scope, Subnet, c.subnets, start, done);
      done := done + ItemsOf(Subnet, c.subnets);
      RecordEach(progress, scope, SecurityGroup, c.groups, start, done);
      done := done + ItemsOf(SecurityGroup, c.groups);
      RecordEach(progress, scope, Ec2Instance, c.instances, start, done);
      done := done + ItemsOf(Ec2Instance, c.instances);
      RecordEach(progress, scope, EbsVolume, c.volumes, start, done);
      assert done + ItemsOf(EbsVolume, c.volumes) == Observations(c);
    }

    /** The linking loops, type by type. */
    method LinkCollected(progress: Progress, scope: Scope, c: Collected)
      requires progress.recorded == {} && progress.counts.relationships == 0
      modifies this`relationships, progress`recorded, progress`counts
      ensures Linked(progress, old(relationships), scope, AllLinks(c, progress.ids))
      ensures progress.counts == old(progress.counts).(relationships := progress.counts.relationships)
    {
      hide SaveLinks, RecordedKeys, LinksOfAll;
      ghost var start, ids := relationships, progress.ids;
      NothingLinked(resources, start, scope);
      LinkEachOf(progress, scope, Subnet, c.subnets, start, []);
      ghost var links := [] + LinksOfAll(Subnet, c.subnets, ids);
      LinkEachOf(progress, scope, SecurityGroup, c.groups, start, links);
      links := links + LinksOfAll(SecurityGroup, c.groups, ids);
      LinkEachOf(progress, scope, Ec2Instance, c.instances, start, links);
      links := links + LinksOfAll(Ec2Instance, c.instances, ids);
      LinkEachOf(progress, scope, EbsVolume, c.volumes, start, links);
      assert links + LinksOfAll(EbsVolume, c.volumes, ids) == AllLinks(c, ids);
    }

    method ScanRegion(scope: Scope, c: Collected) returns (counts: Counts)
      modifies this
      ensures Contents() == Scan(old(Contents()), scope, c)
      ensures counts == ScanCounts(old(Contents()), scope, c)
    {
      hide SaveAll, CountAll, IdsOf, SeenIds, SaveLinks, RecordedKeys, AllLinks, Observations, MarkMissing,
           MarkMissingLinks, MissedKeys, LinkedKeys;
      ghost var start := Contents();
      var progress := new Progress();
      RecordCollected(progress, scope, c);
      CountsAddUp(start.resources, scope, Observations(c));
      LinkCollected(progress, scope, c);
      LinksGrow(resources, start.relationships, scope, LinksFound(scope, c));
      var stale := MarkMissingResourcesStale(scope, progress.seen);
      counts := progress.counts.(stale := stale);
      MarkMissingRelationshipsStale(scope, progress.recorded);
    }

    /**
      The region loop of `executeEc2Scan`. `answers[i]` is what could be collected in
      `regions[i]`, if anything.
    */
    method ScanRegions(scope: Scope, regions: seq<string>, answers: seq<Option<Collected>>)
      returns (totals: Counts, completed: seq<string>, failed: seq<string>, status: ScanStatus)
      requires |regions| == |answers|
      modifies this
      ensures var passes := PassesOf(scope, regions, answers);
              && Contents() == RunScans(old(Contents()), passes)
              && totals == TotalCounts(old(Contents()), passes)
              && completed == RegionsOf(passes) && failed == FailedOf(regions, answers)
      ensures status.Succeeded? <==> completed != [] && failed == []
      ensures status.Failed? <==> completed == []
    {
      hide Scan, ScanCounts, RunScans, TotalCounts, PassesOf, FailedOf, RegionsOf, Merged;
      ghost var start := Contents();
      totals, completed, failed := NO_COUNTS, [], [];
      NothingScanned(start, scope);
      assert regions[..0] == [] && answers[..0] == [] && regions[..|regions|] == regions
          && answers[..|regions|] == answers;
      for i := 0 to |regions|
        invariant Contents() == RunScans(start, PassesOf(scope, regions[..i], answers[..i]))
        invariant totals == TotalCounts(start, PassesOf(scope, regions[..i], answers[..i]))
        invariant completed == RegionsOf(PassesOf(scope, regions[..i], answers[..i]))
        invariant failed == FailedOf(regions[..i], answers[..i])
      {
        PassesSplit(scope, regions, answers, i);
        if answers[i].None? {
          failed := failed + [regions[i]];
        } else {
          var region := scope.(region := regions[i]);
          OnePassMore(start, PassesOf(scope, regions[..i], answers[..i]), Pass(region, answers[i].value));
          var counts := ScanRegion(region, answers[i].value);
          completed := completed + [regions[i]];
          totals := Merged(totals, counts);
        }
      }
      status := if completed == [] then Failed else if failed == [] then Succeeded else PartiallySucceeded;
    }
  }

  datatype ScanStatus = Succeeded | PartiallySucceeded | Failed

  // ----- how the specification grows -----

  lemma NoItems(kind: Kind, done: seq<Item>)
    ensures done + ItemsOf(kind, []) == done
  {}

  lemma MoreItems(kind: Kind, raws: seq<Raw>, i: nat, done: seq<Item>)
    requires i < |raws|
    ensures var before, after := done + ItemsOf(kind, raws[..i]), done + ItemsOf(kind, raws[..i + 1]);
            after == if raws[i].id == "" then before else before + [ItemOf(kind, raws[i])]
  {
    assert raws[..i + 1][..i] == raws[..i];
  }

  lemma NothingRecorded(start: Resources, scope: Scope)
    ensures SaveAll(start, scope, []) == start && CountAll(start, scope, []) == NO_COUNTS
    ensures IdsOf(scope, []) == map[] && SeenIds([]) == {}
  {}

  lemma SavedOneMore(start: Resources, scope: Scope, before: seq<Item>, item: Item)
    ensures var after, saved := before + [item], SaveAll(start, scope, before);
            && SaveAll(start, scope, after) == saved[KeyOf(scope, item) := Upserted(saved, scope, item)]
            && CountAll(start, scope, after) == Counted(CountAll(start, scope, before), ChangeOf(saved, scope, item))
            && IdsOf(scope, after) == IdsOf(scope, before)[item.id := KeyOf(scope, item)]
            && SeenIds(after) == SeenIds(before) + {item.id}
  {
    var after := before + [item];
    assert after[..|after| - 1] == before;
  }

  lemma NoLinks(kind: Kind, ids: map<string, Key>, done: seq<Link>)
    ensures done + LinksOfAll(kind, [], ids) == done
  {}

  lemma MoreLinks(kind: Kind, raws: seq<Raw>, i: nat, ids: map<string, Key>, done: seq<Link>)
    requires i < |raws|
    ensures done + LinksOfAll(kind, raws[..i + 1], ids)
        == (done + LinksOfAll(kind, raws[..i], ids)) + LinksOf(kind, raws[i], ids)
  {
    assert raws[..i + 1][..i] == raws[..i];
  }

  lemma NothingLinked(resources: Resources, start: Relationships, scope: Scope)
    ensures SaveLinks(resources, start, scope, []) == start && RecordedKeys(scope, []) == {}
  {}

  lemma LinkedOneMore(resources: Resources, start: Relationships, scope: Scope, before: seq<Link>, links: seq<Link>,
    j: nat)
    requires j < |links|
    ensures var after := before + links[..j + 1];
            && SaveLinks(resources, start, scope, after) ==
               SaveLink(resources, SaveLinks(resources, start, scope, before + links[..j]), scope, links[j])
            && RecordedKeys(scope, after) == RecordedKeys(scope, before + links[..j]) + RecordedKeys(scope, [links[j]])
  {
    var after := before + links[..j + 1];
    assert after == (before + links[..j]) + [links[j]];
    assert after[..|after| - 1] == before + links[..j];
  }
}
