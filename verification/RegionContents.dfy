/**
  What a scan records, in terms of what was collected alone: which rows, with whose data,
  and which relationships between them.
*/
module RegionContents {
  import opened Wrappers
  import opened Inventory
  import opened RegionScan

  /** What was collected of one kind. */
  function ListOf(c: Collected, kind: Kind): seq<Raw> {
    match kind
    case Vpc => c.vpcs
    case Subnet => c.subnets
    case SecurityGroup => c.groups
    case Ec2Instance => c.instances
    case EbsVolume => c.volumes
    case OtherKind(_) => []
  }

  /** Some entry has this id; a missing id is not one. */
  predicate Names(raws: seq<Raw>, id: string) {
    id != "" && exists i :: 0 <= i < |raws| && raws[i].id == id
  }

  lemma NamesGrows(raws: seq<Raw>, id: string)
    requires raws != []
    ensures var front, last := raws[..|raws| - 1], raws[|raws| - 1];
            Names(raws, id) <==> Names(front, id) || (id != "" && last.id == id)
  {
    var front := raws[..|raws| - 1];
    assert forall i | 0 <= i < |front| :: front[i] == raws[i];
    if Names(raws, id) {
      var i :| 0 <= i < |raws| && raws[i].id == id;
      if i < |front| { assert front[i].id == id; }
    }
    if Names(front, id) {
      var i :| 0 <= i < |front| && front[i].id == id;
      assert raws[i].id == id;
    }
  }

  // ----- rows -----

  lemma {:induction false} ItemsHold(kind: Kind, raws: seq<Raw>, scope: Scope, k: Key)
    ensures k in SeenKeys(scope, ItemsOf(kind, raws)) <==>
              k == Key(scope.org, scope.account, kind, k.id) && Names(raws, k.id)
    decreases |raws|
  {
    hide Names;
    if raws == [] {
      NothingNamed(k.id);
    } else {
      var front, last := raws[..|raws| - 1], raws[|raws| - 1];
      ItemsHold(kind, front, scope, k);
      NamesGrows(raws, k.id);
      var before := ItemsOf(kind, front);
      if last.id != "" {
        SeenOneMore(scope, before, ItemOf(kind, last));
      } else {
        assert before + [] == before;
      }
    }
  }

  lemma NothingNamed(id: string)
    ensures !Names([], id)
  {}

  lemma SeenOneMore(scope: Scope, items: seq<Item>, item: Item)
    ensures SeenKeys(scope, items + [item]) == SeenKeys(scope, items) + {KeyOf(scope, item)}
  {}

  lemma SeenSplits(scope: Scope, a: seq<Item>, b: seq<Item>)
    ensures SeenKeys(scope, a + b) == SeenKeys(scope, a) + SeenKeys(scope, b)
  {}

  /** A row is collected exactly when an entry of its kind has its id. */
  lemma CollectedIff(scope: Scope, c: Collected, k: Key)
    ensures Collects(scope, c, k) <==>
              k.org == scope.org && k.account == scope.account && Names(ListOf(c, k.kind), k.id)
  {
    hide Names, ItemsOf, SeenKeys;
    var v, s, g, i := ItemsOf(Vpc, c.vpcs), ItemsOf(Subnet, c.subnets), ItemsOf(SecurityGroup, c.groups),
        ItemsOf(Ec2Instance, c.instances);
    SeenSplits(scope, v, s);
    SeenSplits(scope, v + s, g);
    SeenSplits(scope, v + s + g, i);
    SeenSplits(scope, v + s + g + i, ItemsOf(EbsVolume, c.volumes));
    ItemsHold(Vpc, c.vpcs, scope, k);
    ItemsHold(Subnet, c.subnets, scope, k);
    ItemsHold(SecurityGroup, c.groups, scope, k);
    ItemsHold(Ec2Instance, c.instances, scope, k);
    ItemsHold(EbsVolume, c.volumes, scope, k);
    NothingNamed(k.id);
  }

  // ----- what a row shows -----

  lemma LastItemOneMore(scope: Scope, items: seq<Item>, item: Item, k: Key)
    requires KeyOf(scope, item) == k || k in SeenKeys(scope, items)
    ensures k in SeenKeys(scope, items + [item])
    ensures LastItem(scope, items + [item], k) == if KeyOf(scope, item) == k then item else LastItem(scope, items, k)
  {
    var more := items + [item];
    SeenOneMore(scope, items, item);
    assert more[|more| - 1] == item && more[..|more| - 1] == items;
  }

  /** Entries of another kind leave a row alone. */
  lemma {:induction false} OtherKindKeeps(scope: Scope, done: seq<Item>, kind: Kind, raws: seq<Raw>, k: Key)
    requires kind != k.kind && k in SeenKeys(scope, done)
    ensures k in SeenKeys(scope, done + ItemsOf(kind, raws))
    ensures LastItem(scope, done + ItemsOf(kind, raws), k) == LastItem(scope, done, k)
    decreases |raws|
  {
    hide LastItem, SeenKeys;
    if raws == [] {
      assert done + [] == done;
    } else {
      var front, last := raws[..|raws| - 1], raws[|raws| - 1];
      var before := done + ItemsOf(kind, front);
      OtherKindKeeps(scope, done, kind, front, k);
      if last.id == "" {
        assert done + ItemsOf(kind, raws) == before;
      } else {
        LastItemOneMore(scope, before, ItemOf(kind, last), k);
        assert done + ItemsOf(kind, raws) == before + [ItemOf(kind, last)];
      }
    }
  }

  /** The entry at a position is the last one for a row. */
  predicate IsLastEntry(raws: seq<Raw>, i: nat, id: string) {
    i < |raws| && raws[i].id == id != "" && forall j | i < j < |raws| :: raws[j].id != id
  }

  lemma {:induction false} LastEntryShows(scope: Scope, done: seq<Item>, kind: Kind, raws: seq<Raw>, k: Key, i: nat)
    requires k == Key(scope.org, scope.account, kind, k.id) && IsLastEntry(raws, i, k.id)
    ensures k in SeenKeys(scope, done + ItemsOf(kind, raws))
    ensures LastItem(scope, done + ItemsOf(kind, raws), k) == ItemOf(kind, raws[i])
    decreases |raws|
  {
    hide LastItem, SeenKeys;
    var front, last := raws[..|raws| - 1], raws[|raws| - 1];
    var before := done + ItemsOf(kind, front);
    if i < |front| { LastEntryShows(scope, done, kind, front, k, i); }
    if last.id == "" {
      assert done + ItemsOf(kind, raws) == before;
    } else {
      LastItemOneMore(scope, before, ItemOf(kind, last), k);
      assert done + ItemsOf(kind, raws) == before + [ItemOf(kind, last)];
    }
  }

  lemma LastItemIs(scope: Scope, c: Collected, k: Key, i: nat)
    requires k.org == scope.org && k.account == scope.account && IsLastEntry(ListOf(c, k.kind), i, k.id)
    ensures Collects(scope, c, k) && LastItem(scope, Observations(c), k) == ItemOf(k.kind, ListOf(c, k.kind)[i])
  {
    hide LastItem, SeenKeys, ItemsOf, IsLastEntry;
    var v := [] + ItemsOf(Vpc, c.vpcs);
    var s := v + ItemsOf(Subnet, c.subnets);
    var g := s + ItemsOf(SecurityGroup, c.groups);
    var n := g + ItemsOf(Ec2Instance, c.instances);
    assert v == ItemsOf(Vpc, c.vpcs) && Observations(c) == n + ItemsOf(EbsVolume, c.volumes);
    match k.kind {
      case Vpc => LastEntryShows(scope, [], Vpc, c.vpcs, k, i);
      case Subnet => LastEntryShows(scope, v, Subnet, c.subnets, k, i);
      case SecurityGroup => LastEntryShows(scope, s, SecurityGroup, c.groups, k, i);
      case Ec2Instance => LastEntryShows(scope, g, Ec2Instance, c.instances, k, i);
      case EbsVolume => LastEntryShows(scope, n, EbsVolume, c.volumes, k, i);
      case OtherKind(_) => NothingLast(i, k.id);
    }
    if k.kind.Vpc? { OtherKindKeeps(scope, v, Subnet, c.subnets, k); }
    if k.kind.Vpc? || k.kind.Subnet? { OtherKindKeeps(scope, s, SecurityGroup, c.groups, k); }
    if k.kind.Vpc? || k.kind.Subnet? || k.kind.SecurityGroup? { OtherKindKeeps(scope, g, Ec2Instance, c.instances, k); }
    if !k.kind.EbsVolume? { OtherKindKeeps(scope, n, EbsVolume, c.volumes, k); }
  }

  lemma NothingLast(i: nat, id: string)
    ensures !IsLastEntry([], i, id)
  {}

  /** A row shows the last entry of its kind with its id; only a group has no status. */
  lemma RowShowsLastEntry(t: Tables, scope: Scope, c: Collected, k: Key, i: nat)
    requires k.org == scope.org && k.account == scope.account && IsLastEntry(ListOf(c, k.kind), i, k.id)
    ensures k in Scan(t, scope, c).resources
    ensures var r, raw := Scan(t, scope, c).resources[k], ListOf(c, k.kind)[i];
            && r.tags == raw.tags && r.metadata == Metadata(Some("AWS_SYNC"), raw.aws, scope.now)
            && r.status == (if k.kind == SecurityGroup then None else raw.status)
            && (raw.name.Some? ==> r.name == raw.name)
            && r.region == Some(scope.region) && r.lastSeenAt == Some(scope.now) && r.staleAt.None? && r.misses == 0
  {
    hide LinksFound, MarkMissingLinks, SaveLinks, RecordedKeys, LastItem, SaveAll, Observations, ListOf;
    LastItemIs(scope, c, k, i);
    SaveAllTouches(t.resources, scope, Observations(c));
    assert Sees(c, k.id);
  }

  // ----- which row an id stands for -----

  /** The row last recorded under a provider id: volumes come last, then instances, groups, subnets and VPCs. */
  function RowOf(scope: Scope, c: Collected, id: string): (k: Option<Key>)
    ensures k.Some? ==> k.value.id == id
  {
    if Names(c.volumes, id) then Some(Key(scope.org, scope.account, EbsVolume, id))
    else if Names(c.instances, id) then Some(Key(scope.org, scope.account, Ec2Instance, id))
    else if Names(c.groups, id) then Some(Key(scope.org, scope.account, SecurityGroup, id))
    else if Names(c.subnets, id) then Some(Key(scope.org, scope.account, Subnet, id))
    else if Names(c.vpcs, id) then Some(Key(scope.org, scope.account, Vpc, id))
    else None
  }

  lemma {:induction false} IdsOfList(scope: Scope, done: seq<Item>, kind: Kind, raws: seq<Raw>, id: string)
    ensures Lookup(IdsOf(scope, done + ItemsOf(kind, raws)), id)
         == if Names(raws, id) then Some(Key(scope.org, scope.account, kind, id)) else Lookup(IdsOf(scope, done), id)
    decreases |raws|
  {
    hide Names;
    if raws == [] {
      NothingNamed(id);
      assert done + [] == done;
    } else {
      var front, last := raws[..|raws| - 1], raws[|raws| - 1];
      IdsOfList(scope, done, kind, front, id);
      NamesGrows(raws, id);
      var before := done + ItemsOf(kind, front);
      if last.id == "" {
        assert done + ItemsOf(kind, raws) == before;
      } else {
        assert done + ItemsOf(kind, raws) == before + [ItemOf(kind, last)];
        assert (before + [ItemOf(kind, last)])[..|before|] == before;
      }
    }
  }

  lemma RowOfIsRecorded(scope: Scope, c: Collected, id: string)
    ensures Lookup(IdsOf(scope, Observations(c)), id) == RowOf(scope, c, id)
  {
    hide Names, ItemsOf, IdsOf, Lookup;
    var v := ItemsOf(Vpc, c.vpcs);
    var s := v + ItemsOf(Subnet, c.subnets);
    var g := s + ItemsOf(SecurityGroup, c.groups);
    var i := g + ItemsOf(Ec2Instance, c.instances);
    assert [] + v == v;
    IdsOfList(scope, [], Vpc, c.vpcs, id);
    IdsOfList(scope, v, Subnet, c.subnets, id);
    IdsOfList(scope, s, SecurityGroup, c.groups, id);
    IdsOfList(scope, g, Ec2Instance, c.instances, id);
    IdsOfList(scope, i, EbsVolume, c.volumes, id);
    NoIds(scope, id);
  }

  lemma NoIds(scope: Scope, id: string)
    ensures Lookup(IdsOf(scope, []), id) == None
  {}

  // ----- relationships -----

  /**
    What an entry says of another thing: a subnet or a group that it resides in its VPC, an
    instance that it resides in its subnet and its VPC and is associated with each of its
    groups, and a volume that it is attached to each of its instances.
  */
  predicate Points(kind: Kind, raw: Raw, target: string, relation: RelationKind) {
    match kind
    case Subnet => relation == ResidesIn && target == raw.vpcId
    case SecurityGroup => relation == ResidesIn && target == raw.vpcId
    case Ec2Instance =>
      || (relation == ResidesIn && (target == raw.subnetId || target == raw.vpcId))
      || (relation == AssociatedWith && target in raw.groupIds)
    case EbsVolume => relation == AttachedTo && target in raw.attachedTo
    case _ => false
  }

  /** Some entry with the one id says this of the other. */
  ghost predicate Says(kind: Kind, raws: seq<Raw>, source: string, target: string, relation: RelationKind) {
    exists i :: 0 <= i < |raws| && raws[i].id == source && Points(kind, raws[i], target, relation)
  }

  ghost predicate Related(c: Collected, source: string, target: string, relation: RelationKind) {
    exists kind :: Says(kind, ListOf(c, kind), source, target, relation)
  }

  /** The ends of a relationship are the rows that their ids stand for, and they are not one. */
  predicate EndsAt(scope: Scope, ids: map<string, Key>, k: RelationKey) {
    k.org == scope.org && Lookup(ids, k.source.id) == Some(k.source) && Lookup(ids, k.target.id) == Some(k.target)
    && k.source != k.target
  }

  /** Ids stand for rows with that provider id. */
  ghost predicate TrueIds(ids: map<string, Key>) {
    forall id | id in ids :: ids[id].id == id
  }

  lemma EachHolds(scope: Scope, ids: map<string, Key>, source: string, targets: seq<string>, kind: RelationKind,
    k: RelationKey)
    requires TrueIds(ids)
    ensures k in RecordedKeys(scope, LinkEach(ids, source, targets, kind)) <==>
              EndsAt(scope, ids, k) && k.kind == kind && source == k.source.id && k.target.id in targets
  {
    var links := LinkEach(ids, source, targets, kind);
    if EndsAt(scope, ids, k) && k.kind == kind && source == k.source.id && k.target.id in targets {
      var i :| 0 <= i < |targets| && targets[i] == k.target.id;
      assert links[i] in links && Complete(links[i]) && RelationOf(scope, links[i]) == k;
    }
  }

  lemma RecordedSplits(scope: Scope, a: seq<Link>, b: seq<Link>)
    ensures RecordedKeys(scope, a + b) == RecordedKeys(scope, a) + RecordedKeys(scope, b)
  {}

  lemma LinksOfHold(scope: Scope, ids: map<string, Key>, kind: Kind, raw: Raw, k: RelationKey)
    requires TrueIds(ids)
    ensures k in RecordedKeys(scope, LinksOf(kind, raw, ids)) <==>
              EndsAt(scope, ids, k) && raw.id == k.source.id && Points(kind, raw, k.target.id, k.kind)
  {
    hide LinkEach, RecordedKeys, EndsAt, TrueIds;
    EachHolds(scope, ids, raw.id, [raw.vpcId], ResidesIn, k);
    EachHolds(scope, ids, raw.id, [raw.subnetId, raw.vpcId], ResidesIn, k);
    EachHolds(scope, ids, raw.id, raw.groupIds, AssociatedWith, k);
    EachHolds(scope, ids, raw.id, raw.attachedTo, AttachedTo, k);
    RecordedSplits(scope, LinkEach(ids, raw.id, [raw.subnetId, raw.vpcId], ResidesIn),
                   LinkEach(ids, raw.id, raw.groupIds, AssociatedWith));
    NothingRecorded(scope);
  }

  lemma NothingRecorded(scope: Scope)
    ensures RecordedKeys(scope, []) == {}
  {}

  lemma SaysGrows(kind: Kind, raws: seq<Raw>, k: RelationKey)
    requires raws != []
    ensures var front, last := raws[..|raws| - 1], raws[|raws| - 1];
            Says(kind, raws, k.source.id, k.target.id, k.kind) <==>
              || Says(kind, front, k.source.id, k.target.id, k.kind)
              || (last.id == k.source.id && Points(kind, last, k.target.id, k.kind))
  {
    hide Points;
    var front := raws[..|raws| - 1];
    assert forall i | 0 <= i < |front| :: front[i] == raws[i];
  }

  lemma {:induction false} ListLinksHold(scope: Scope, ids: map<string, Key>, kind: Kind, raws: seq<Raw>,
    k: RelationKey)
    requires TrueIds(ids)
    ensures k in RecordedKeys(scope, LinksOfAll(kind, raws, ids)) <==>
              EndsAt(scope, ids, k) && Says(kind, raws, k.source.id, k.target.id, k.kind)
    decreases |raws|
  {
    hide LinksOf, RecordedKeys, EndsAt, TrueIds, Points, Says;
    if raws == [] {
      NothingRecorded(scope);
      NothingSaid(kind, k);
    } else {
      var front, last := raws[..|raws| - 1], raws[|raws| - 1];
      ListLinksHold(scope, ids, kind, front, k);
      LinksOfHold(scope, ids, kind, last, k);
      RecordedSplits(scope, LinksOfAll(kind, front, ids), LinksOf(kind, last, ids));
      SaysGrows(kind, raws, k);
    }
  }

  lemma NothingSaid(kind: Kind, k: RelationKey)
    ensures !Says(kind, [], k.source.id, k.target.id, k.kind)
  {}

  lemma RelatedByKind(c: Collected, s: string, t: string, r: RelationKind)
    ensures Related(c, s, t, r) <==>
              || Says(Subnet, c.subnets, s, t, r) || Says(SecurityGroup, c.groups, s, t, r)
              || Says(Ec2Instance, c.instances, s, t, r) || Says(EbsVolume, c.volumes, s, t, r)
  {
    assert ListOf(c, Subnet) == c.subnets && ListOf(c, SecurityGroup) == c.groups;
    assert ListOf(c, Ec2Instance) == c.instances && ListOf(c, EbsVolume) == c.volumes;
  }

  lemma IdsAreTrue(scope: Scope, c: Collected)
    ensures TrueIds(IdsOf(scope, Observations(c)))
  {
    var ids := IdsOf(scope, Observations(c));
    forall id | id in ids ensures ids[id].id == id { RowOfIsRecorded(scope, c, id); }
  }

  /**
    A scan finds a relationship exactly when some entry says it of two provider ids, and
    its ends are the two different rows that these ids stand for.
  */
  lemma FoundIff(scope: Scope, c: Collected, k: RelationKey)
    ensures k in RecordedKeys(scope, LinksFound(scope, c)) <==>
              && k.org == scope.org && k.source != k.target
              && RowOf(scope, c, k.source.id) == Some(k.source) && RowOf(scope, c, k.target.id) == Some(k.target)
              && Related(c, k.source.id, k.target.id, k.kind)
  {
    hide LinksOfAll, RecordedKeys, IdsOf, Observations, Says, Related, RowOf, TrueIds, Lookup;
    var ids := IdsOf(scope, Observations(c));
    var s, g, i := LinksOfAll(Subnet, c.subnets, ids), LinksOfAll(SecurityGroup, c.groups, ids),
        LinksOfAll(Ec2Instance, c.instances, ids);
    IdsAreTrue(scope, c);
    RowOfIsRecorded(scope, c, k.source.id);
    RowOfIsRecorded(scope, c, k.target.id);
    RecordedSplits(scope, s, g);
    RecordedSplits(scope, s + g, i);
    RecordedSplits(scope, s + g + i, LinksOfAll(EbsVolume, c.volumes, ids));
    ListLinksHold(scope, ids, Subnet, c.subnets, k);
    ListLinksHold(scope, ids, SecurityGroup, c.groups, k);
    ListLinksHold(scope, ids, Ec2Instance, c.instances, k);
    ListLinksHold(scope, ids, EbsVolume, c.volumes, k);
    RelatedByKind(c, k.source.id, k.target.id, k.kind);
  }
}
