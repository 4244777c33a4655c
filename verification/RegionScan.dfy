/** One finished scan of an account's region, as a function on the tables, and what it guarantees. */
module RegionScan {
  import opened Wrappers
  import opened Inventory

  /** What `Describe*` answered about one thing; a missing id is the empty string, as are missing references. */
  datatype Raw = Raw(
    id: string,
    name: Option<string>,
    status: Option<string>,
    tags: string,
    aws: string,
    vpcId: string,
    subnetId: string,
    groupIds: seq<string>,
    attachedTo: seq<string>)

  datatype Collected = Collected(
    vpcs: seq<Raw>, subnets: seq<Raw>, groups: seq<Raw>, instances: seq<Raw>, volumes: seq<Raw>)

  function ItemOf(kind: Kind, raw: Raw): Item {
    Item(kind, raw.id, raw.name, if kind == SecurityGroup then None else raw.status, raw.tags, raw.aws)
  }

  function ItemsOf(kind: Kind, raws: seq<Raw>): seq<Item>
    decreases |raws|
  {
    if raws == [] then []
    else
      var last := raws[|raws| - 1];
      ItemsOf(kind, raws[..|raws| - 1]) + if last.id == "" then [] else [ItemOf(kind, last)]
  }

  /** Everything recorded, in the order it is recorded. */
  function Observations(c: Collected): seq<Item> {
    ItemsOf(Vpc, c.vpcs) + ItemsOf(Subnet, c.subnets) + ItemsOf(SecurityGroup, c.groups)
    + ItemsOf(Ec2Instance, c.instances) + ItemsOf(EbsVolume, c.volumes)
  }

  function Lookup(ids: map<string, Key>, id: string): Option<Key> {
    if id in ids then Some(ids[id]) else None
  }

  function LinkEach(ids: map<string, Key>, source: string, targets: seq<string>, kind: RelationKind): seq<Link> {
    seq(|targets|, i requires 0 <= i < |targets| => Link(Lookup(ids, source), Lookup(ids, targets[i]), kind))
  }

  function LinksOf(kind: Kind, raw: Raw, ids: map<string, Key>): seq<Link> {
    match kind
    case Vpc => []
    case Subnet => LinkEach(ids, raw.id, [raw.vpcId], ResidesIn)
    case SecurityGroup => LinkEach(ids, raw.id, [raw.vpcId], ResidesIn)
    case Ec2Instance =>
      LinkEach(ids, raw.id, [raw.subnetId, raw.vpcId], ResidesIn) + LinkEach(ids, raw.id, raw.groupIds, AssociatedWith)
    case EbsVolume => LinkEach(ids, raw.id, raw.attachedTo, AttachedTo)
    case OtherKind(_) => []
  }

  function LinksOfAll(kind: Kind, raws: seq<Raw>, ids: map<string, Key>): seq<Link>
    decreases |raws|
  {
    if raws == [] then []
    else LinksOfAll(kind, raws[..|raws| - 1], ids) + LinksOf(kind, raws[|raws| - 1], ids)
  }

  function AllLinks(c: Collected, ids: map<string, Key>): seq<Link> {
    LinksOfAll(Subnet, c.subnets, ids) + LinksOfAll(SecurityGroup, c.groups, ids)
    + LinksOfAll(Ec2Instance, c.instances, ids) + LinksOfAll(EbsVolume, c.volumes, ids)
  }

  datatype Tables = Tables(resources: Resources, relationships: Relationships)

  function LinksFound(scope: Scope, c: Collected): seq<Link> {
    AllLinks(c, IdsOf(scope, Observations(c)))
  }

  /** The tables after `scanRegion` has finished. */
  function Scan(t: Tables, scope: Scope, c: Collected): Tables {
    var items, links := Observations(c), LinksFound(scope, c);
    var saved := SaveAll(t.resources, scope, items);
    var resources := MarkMissing(saved, scope, SeenIds(items));
    Tables(resources,
           MarkMissingLinks(resources, SaveLinks(saved, t.relationships, scope, links), scope,
               RecordedKeys(scope, links)))
  }

  function ScanCounts(t: Tables, scope: Scope, c: Collected): Counts {
    var items := Observations(c);
    var saved := SaveAll(t.resources, scope, items);
    CountAll(t.resources, scope, items).(
      relationships := |(LinkedKeys(saved, scope, LinksFound(scope, c)) - t.relationships.Keys)|,
      stale := |MissedKeys(saved, scope, SeenIds(items))|)
  }

  predicate Collects(scope: Scope, c: Collected, k: Key) {
    k in SeenKeys(scope, Observations(c))
  }

  predicate Sees(c: Collected, id: string) {
    id in SeenIds(Observations(c))
  }

  lemma {:induction false} ItemsAreSupported(kind: Kind, raws: seq<Raw>)
    requires SupportedKind(kind)
    ensures forall item | item in ItemsOf(kind, raws) :: SupportedKind(item.kind)
    decreases |raws|
  {
    if raws != [] { ItemsAreSupported(kind, raws[..|raws| - 1]); }
  }

  lemma ObservationsAreSupported(c: Collected)
    ensures forall item | item in Observations(c) :: SupportedKind(item.kind)
  {
    ItemsAreSupported(Vpc, c.vpcs);
    ItemsAreSupported(Subnet, c.subnets);
    ItemsAreSupported(SecurityGroup, c.groups);
    ItemsAreSupported(Ec2Instance, c.instances);
    ItemsAreSupported(EbsVolume, c.volumes);
  }

  // ----- resources after a scan -----

  /** A collected row is current; any other row is either marked once, or exactly as it was. */
  lemma ScannedRow(t: Tables, scope: Scope, c: Collected, k: Key)
    requires k in Scan(t, scope, c).resources
    ensures var r := Scan(t, scope, c).resources[k];
            if Collects(scope, c, k) then
              && r.region == Some(scope.region) && r.source == AwsSync && r.archivedAt.None? && SupportedKind(k.kind)
              && r.staleAt.None? && r.misses == 0 && k.org == scope.org && k.account == scope.account
              && r.tags == LastItem(scope, Observations(c), k).tags
                  && r.metadata.aws == LastItem(scope, Observations(c), k).aws
            else
              && k in t.resources
              && r == (if Missed(scope, SeenIds(Observations(c)), k, t.resources[k])
                       then t.resources[k].(staleAt := Some(scope.now), misses := t.resources[k].misses + 1)
                       else t.resources[k])
  {
    SaveAllTouches(t.resources, scope, Observations(c));
    ObservationsAreSupported(c);
  }

  /**
    After a finished scan, a row it answers for is fresh exactly when it was collected,
    or when its provider id was collected under another type and it was fresh before.
  */
  lemma FreshIffCollected(t: Tables, scope: Scope, c: Collected, k: Key)
    requires k in Scan(t, scope, c).resources && InScope(scope, k, Scan(t, scope, c).resources[k])
    ensures Scan(t, scope, c).resources[k].staleAt.None? <==>
              || Collects(scope, c, k)
              || (Sees(c, k.id) && k in t.resources && t.resources[k].staleAt.None?)
    ensures Scan(t, scope, c).resources[k].misses == 0 <== Collects(scope, c, k)
  {
    ScannedRow(t, scope, c, k);
  }

  /** Provider ids name one kind of thing, among the rows and in what was collected. */
  ghost predicate UniqueIds(t: Tables, scope: Scope, c: Collected) {
    forall k, item | k in t.resources && item in Observations(c) && k.org == scope.org && k.account == scope.account
                     && k.id == item.id :: k.kind == item.kind
  }

  lemma FreshIffCollectedSimply(t: Tables, scope: Scope, c: Collected, k: Key)
    requires UniqueIds(t, scope, c)
    requires k in Scan(t, scope, c).resources && InScope(scope, k, Scan(t, scope, c).resources[k])
    ensures Scan(t, scope, c).resources[k].staleAt.None? <==> Collects(scope, c, k)
  {
    FreshIffCollected(t, scope, c, k);
    if Sees(c, k.id) && k in t.resources {
      var item :| item in Observations(c) && item.id == k.id;
      assert KeyOf(scope, item) == k;
    }
  }

  /**
    No row is lost, the new ones are the collected ones, and rows of other regions,
    accounts or sources stay as they were.
  */
  lemma ScanTouches(t: Tables, scope: Scope, c: Collected)
    ensures var after := Scan(t, scope, c).resources;
            && after.Keys == t.resources.Keys + SeenKeys(scope, Observations(c))
            && (forall k | k in t.resources && !Collects(scope, c, k) && !InScope(scope, k, t.resources[k]) ::
                after[k] == t.resources[k])
            && (forall k | k in t.resources && !Collects(scope, c, k) && Sees(c, k.id) :: after[k] == t.resources[k])
  {
    SaveAllTouches(t.resources, scope, Observations(c));
  }

  /**
    In particular, rows of another organization, account, region, source or kind, and
    archived ones, are left alone unless they are collected.
  */
  lemma OtherRowsStay(t: Tables, scope: Scope, c: Collected, k: Key)
    requires k in t.resources && !Collects(scope, c, k)
    requires var r := t.resources[k];
             || k.org != scope.org || k.account != scope.account || k.kind.OtherKind?
             || r.region != Some(scope.region) || r.source.OtherSource? || r.archivedAt.Some?
    ensures k in Scan(t, scope, c).resources && Scan(t, scope, c).resources[k] == t.resources[k]
  {
    hide Scan, Observations;
    ScanTouches(t, scope, c);
  }

  /** The rows a scan marks: those whose miss count goes up. */
  function NewlyMissed(before: Resources, after: Resources): set<Key> {
    set k | k in before && k in after && after[k].misses > before[k].misses
  }

  lemma StaleCountIsTrue(t: Tables, scope: Scope, c: Collected)
    ensures MissedKeys(SaveAll(t.resources, scope, Observations(c)), scope, SeenIds(Observations(c))) ==
            NewlyMissed(t.resources, Scan(t, scope, c).resources)
  {
    hide LinksFound, MarkMissingLinks, SaveLinks, RecordedKeys;
    SaveAllTouches(t.resources, scope, Observations(c));
  }

  lemma LinksGrow(resources: Resources, stored: Relationships, scope: Scope, links: seq<Link>)
    ensures |LinkedKeys(resources, scope, links) - stored.Keys|
        == |SaveLinks(resources, stored, scope, links)| - |stored|
  {
    SaveLinksTouches(resources, stored, scope, links);
    var after, found := SaveLinks(resources, stored, scope, links), LinkedKeys(resources, scope, links);
    assert after.Keys == stored.Keys + (found - stored.Keys);
    assert |after| == |after.Keys| && |stored| == |stored.Keys|;
  }

  lemma RelationshipCountIsTrue(t: Tables, scope: Scope, c: Collected)
    ensures ScanCounts(t, scope, c).relationships == |Scan(t, scope, c).relationships| - |t.relationships|
  {
    hide SaveAll, LinksFound, MarkMissing, IdsOf, CountAll, LinkedKeys, SaveLinks, RecordedKeys;
    var links := LinksFound(scope, c);
    var saved, after := SaveAll(t.resources, scope, Observations(c)), Scan(t, scope, c);
    var linked := SaveLinks(saved, t.relationships, scope, links);
    LinksGrow(saved, t.relationships, scope, links);
    assert after.relationships.Keys == linked.Keys;
    assert |after.relationships| == |after.relationships.Keys| && |linked| == |linked.Keys|;
  }

  /** The counts are true: growth, items by change, new relationships, and rows whose miss count went up. */
  lemma CountsAreTrue(t: Tables, scope: Scope, c: Collected)
    ensures var n, after := ScanCounts(t, scope, c), Scan(t, scope, c);
            && n.created == |after.resources| - |t.resources|
            && n.created + n.updated + n.same == n.resources == |Observations(c)|
            && n.relationships == |after.relationships| - |t.relationships|
            && n.stale == |NewlyMissed(t.resources, after.resources)|
  {
    hide LinksFound, MarkMissingLinks, SaveLinks, RecordedKeys, SaveAll, CountAll, NewlyMissed;
    CountsAddUp(t.resources, scope, Observations(c));
    StaleCountIsTrue(t, scope, c);
    RelationshipCountIsTrue(t, scope, c);
    var saved, after := SaveAll(t.resources, scope, Observations(c)), Scan(t, scope, c);
    assert after.resources.Keys == saved.Keys;
    assert |after.resources| == |after.resources.Keys| && |saved| == |saved.Keys|;
  }

  // ----- relationships after a scan -----

  /** Whatever ids a scan has recorded are ids of rows. */
  lemma {:induction false} IdsAreSaved(stored: Resources, scope: Scope, items: seq<Item>)
    ensures var ids := IdsOf(scope, items);
            && ids.Keys == SeenIds(items)
            && forall id | id in ids ::
                 && ids[id] in SaveAll(stored, scope, items) && ids[id] in SeenKeys(scope, items)
                 && ids[id].org == scope.org && ids[id].account == scope.account && ids[id].id == id
    decreases |items|
  {
    if items != [] {
      var front, last := items[..|items| - 1], items[|items| - 1];
      assert items == front + [last];
      IdsAreSaved(stored, scope, front);
      SaveAllTouches(stored, scope, front);
      assert SeenIds(items) == SeenIds(front) + {last.id};
      assert SeenKeys(scope, items) == SeenKeys(scope, front) + {KeyOf(scope, last)};
    }
  }

  predicate EndsIn(ids: map<string, Key>, links: seq<Link>) {
    forall link | link in links ::
      && (link.source.Some? ==> link.source.value in ids.Values)
          && (link.target.Some? ==> link.target.value in ids.Values)
      && SupportedRelation(link.kind)
  }

  lemma ThingsLinksEndInIds(kind: Kind, raw: Raw, ids: map<string, Key>)
    ensures EndsIn(ids, LinksOf(kind, raw, ids))
  {
    forall id | id in ids ensures ids[id] in ids.Values {}
  }

  lemma {:induction false} LinksEndInIds(kind: Kind, raws: seq<Raw>, ids: map<string, Key>)
    ensures EndsIn(ids, LinksOfAll(kind, raws, ids))
    decreases |raws|
  {
    hide LinksOf;
    if raws != [] {
      LinksEndInIds(kind, raws[..|raws| - 1], ids);
      ThingsLinksEndInIds(kind, raws[|raws| - 1], ids);
    }
  }

  /** Every complete link found is between two collected rows of the account, so every recorded key is stored. */
  lemma RecordedIsLinked(t: Tables, scope: Scope, c: Collected)
    ensures var saved, links := SaveAll(t.resources, scope, Observations(c)), LinksFound(scope, c);
            && LinkedKeys(saved, scope, links) == RecordedKeys(scope, links)
            && forall k | k in RecordedKeys(scope, links) ::
                 k.org == scope.org && SupportedRelation(k.kind)
                     && k.source.account == k.target.account == scope.account
                     && Collects(scope, c, k.source) && Collects(scope, c, k.target)
  {
    var items := Observations(c);
    var ids := IdsOf(scope, items);
    hide SaveAll, IdsOf, Observations, LinksOfAll;
    IdsAreSaved(t.resources, scope, items);
    LinksEndInIds(Subnet, c.subnets, ids);
    LinksEndInIds(SecurityGroup, c.groups, ids);
    LinksEndInIds(Ec2Instance, c.instances, ids);
    LinksEndInIds(EbsVolume, c.volumes, ids);
    assert EndsIn(ids, LinksFound(scope, c));
  }

  /**
    After a finished scan, a relationship it answers for is fresh exactly when it was
    found; every found one is stored and fresh, the others it answers for are stale since
    they were first missed, and all the rest stay as they were.
  */
  lemma RelationshipFreshIffFound(t: Tables, scope: Scope, c: Collected)
    ensures var after, found := Scan(t, scope, c), RecordedKeys(scope, LinksFound(scope, c));
            && after.relationships.Keys == t.relationships.Keys + found
            && (forall k | k in found :: after.relationships[k] == Relationship(AwsSync, Some(scope.now), None))
            && (forall k | k in after.relationships
                && RelationInScope(after.resources, scope, k, after.relationships[k]) ::
                  after.relationships[k].staleAt.None? <==> k in found)
            && (forall k | k in t.relationships && k !in found
                && !RelationInScope(after.resources, scope, k, t.relationships[k]) ::
                  after.relationships[k] == t.relationships[k])
            && (forall k | k in t.relationships && k !in found
                && RelationInScope(after.resources, scope, k, t.relationships[k]) ::
                  var r := t.relationships[k];
                  after.relationships[k] == r.(staleAt := if r.staleAt.Some? then r.staleAt else Some(scope.now)))
  {
    hide SaveAll, LinksFound, MarkMissing, IdsOf, LinkedKeys, SaveLinks, RecordedKeys;
    var links := LinksFound(scope, c);
    var saved, after := SaveAll(t.resources, scope, Observations(c)), Scan(t, scope, c);
    SaveLinksTouches(saved, t.relationships, scope, links);
    RecordedIsLinked(t, scope, c);
  }

  /** Relationships of another organization, kind or origin are left alone unless they are found. */
  lemma OtherRelationshipsStay(t: Tables, scope: Scope, c: Collected, k: RelationKey)
    requires k in t.relationships && k !in RecordedKeys(scope, LinksFound(scope, c))
    requires k.org != scope.org || k.kind.OtherRelation? || t.relationships[k].classification.OtherSource?
        || k.source.account != scope.account || k.target.account != scope.account
    ensures k in Scan(t, scope, c).relationships && Scan(t, scope, c).relationships[k] == t.relationships[k]
  {
    hide Scan, LinksFound, RecordedKeys;
    RelationshipFreshIffFound(t, scope, c);
  }

  // ----- the change test -----

  /**
    Collecting the same item again counts as no change exactly when the item has a
    name or the stored row had none: a name that disappears is kept in the row but
    compared as missing.
  */
  lemma RescanIsUnchangedIff(stored: Resources, scope: Scope, again: Scope, item: Item)
    requires again == scope.(now := again.now)
    ensures ChangeOf(SaveAll(stored, scope, [item]), again, item) == Unchanged <==>
              item.name.Some? || KeyOf(scope, item) !in stored || stored[KeyOf(scope, item)].name.None?
  {
    assert [item][..0] == [];
  }

  /** An instance that loses its Name tag counts as updated again and again, although nothing changes any more. */
  lemma LostNameIsUpdatedAgain(scope: Scope, item: Item, name: string)
    requires item.name.None?
    ensures var stored := SaveAll(map[], scope, [item.(name := Some(name))]);
            var once := SaveAll(stored, scope, [item]);
            once == stored && ChangeOf(once, scope, item) == Updated
  {
    var stored := SaveAll(map[], scope, [item.(name := Some(name))]);
    assert [item.(name := Some(name))][..0] == [] && [item][..0] == [];
    RescanIsUnchangedIff(stored, scope, scope, item);
    assert KeyOf(scope, item) in stored && stored[KeyOf(scope, item)].name == Some(name);
  }
}
