/**
  The inventory tables and what one finished scan of an account's region does to them:
  every collected item is upserted, and the rest of the region is marked stale.

  A row's unique key stands for its generated id, which it determines.
*/
module Inventory {
  import opened Wrappers

  datatype Kind = Vpc | Subnet | SecurityGroup | Ec2Instance | EbsVolume | OtherKind(name: string)

  datatype Key = Key(org: string, account: string, kind: Kind, id: string)

  datatype Source = AwsSync | OtherSource(name: string)

  /** The parts of the metadata document that the change test looks at, and the time that it ignores. */
  datatype Metadata = Metadata(source: Option<string>, aws: string, syncedAt: int)

  datatype Resource = Resource(
    name: Option<string>,
    region: Option<string>,
    status: Option<string>,
    tags: string,
    metadata: Metadata,
    source: Source,
    lastSeenAt: Option<int>,
    staleAt: Option<int>,
    archivedAt: Option<int>,
    misses: nat)

  datatype RelationKind = ResidesIn | AssociatedWith | AttachedTo | OtherRelation(name: string)

  datatype RelationKey = RelationKey(org: string, source: Key, target: Key, kind: RelationKind)

  datatype Relationship = Relationship(classification: Source, lastSeenAt: Option<int>, staleAt: Option<int>)

  type Resources = map<Key, Resource>
  type Relationships = map<RelationKey, Relationship>

  /** What a scan is run on, and when. */
  datatype Scope = Scope(org: string, account: string, region: string, now: int)

  /** One collected item, its metadata already normalised. */
  datatype Item = Item(kind: Kind, id: string, name: Option<string>, status: Option<string>, tags: string, aws: string)

  predicate SupportedKind(k: Kind) {
    !k.OtherKind?
  }

  predicate SupportedRelation(k: RelationKind) {
    !k.OtherRelation?
  }

  function KeyOf(scope: Scope, item: Item): Key {
    Key(scope.org, scope.account, item.kind, item.id)
  }

  // ----- upserting what was seen -----

  datatype Change = Created | Updated | Unchanged

  function Synced(scope: Scope, item: Item): Metadata {
    Metadata(Some("AWS_SYNC"), item.aws, scope.now)
  }

  /** The row after the upsert: an item without a name leaves the stored name alone. */
  function Upserted(stored: Resources, scope: Scope, item: Item): Resource {
    var key := KeyOf(scope, item);
    var name := if item.name.None? && key in stored then stored[key].name else item.name;
    Resource(name, Some(scope.region), item.status, item.tags, Synced(scope, item), AwsSync, Some(scope.now), None,
        None, 0)
  }

  /** The text `resourceFingerprint` compares. */
  datatype Fingerprint = Fingerprint(
    name: Option<string>, region: Option<string>, status: Option<string>, tags: string, source: Option<string>,
        aws: string)

  function FingerprintOf(r: Resource): Fingerprint {
    Fingerprint(r.name, r.region, r.status, r.tags, r.metadata.source, r.metadata.aws)
  }

  /** `saved.changed`: the fingerprint of the data is taken with the item's own name, missing or not. */
  function ChangeOf(stored: Resources, scope: Scope, item: Item): Change {
    var key := KeyOf(scope, item);
    if key !in stored then Created
    else if FingerprintOf(stored[key]) == FingerprintOf(Upserted(stored, scope, item).(name := item.name))
        then Unchanged
    else Updated
  }

  function SaveAll(stored: Resources, scope: Scope, items: seq<Item>): Resources
    decreases |items|
  {
    if items == [] then stored
    else
      var before := SaveAll(stored, scope, items[..|items| - 1]);
      var item := items[|items| - 1];
      before[KeyOf(scope, item) := Upserted(before, scope, item)]
  }

  datatype Counts = Counts(
    resources: nat, relationships: nat, created: nat, updated: nat, same: nat, stale: nat)

  const NO_COUNTS := Counts(0, 0, 0, 0, 0, 0)

  function Counted(c: Counts, change: Change): Counts {
    match change
    case Created => c.(resources := c.resources + 1, created := c.created + 1)
    case Updated => c.(resources := c.resources + 1, updated := c.updated + 1)
    case Unchanged => c.(resources := c.resources + 1, same := c.same + 1)
  }

  function CountAll(stored: Resources, scope: Scope, items: seq<Item>): Counts
    decreases |items|
  {
    if items == [] then NO_COUNTS
    else
      var front := items[..|items| - 1];
      Counted(CountAll(stored, scope, front), ChangeOf(SaveAll(stored, scope, front), scope, items[|items| - 1]))
  }

  /** The database id last recorded for each provider id, whatever its kind. */
  function IdsOf(scope: Scope, items: seq<Item>): map<string, Key>
    decreases |items|
  {
    if items == [] then map[]
    else IdsOf(scope, items[..|items| - 1])[items[|items| - 1].id := KeyOf(scope, items[|items| - 1])]
  }

  function SeenIds(items: seq<Item>): set<string> {
    set item | item in items :: item.id
  }

  function SeenKeys(scope: Scope, items: seq<Item>): set<Key> {
    set item | item in items :: KeyOf(scope, item)
  }

  /** The last item collected under a key. */
  function LastItem(scope: Scope, items: seq<Item>, key: Key): Item
    requires key in SeenKeys(scope, items)
    decreases |items|
  {
    var last := items[|items| - 1];
    if KeyOf(scope, last) == key then last
    else
      assert forall item | item in items :: item == last || item in items[..|items| - 1];
      LastItem(scope, items[..|items| - 1], key)
  }

  /** Upserting touches exactly the collected keys; a collected row is current, fresh and unarchived. */
  lemma {:induction false} SaveAllTouches(stored: Resources, scope: Scope, items: seq<Item>)
    ensures var after := SaveAll(stored, scope, items);
            && after.Keys == stored.Keys + SeenKeys(scope, items)
            && (forall k | k in stored && k !in SeenKeys(scope, items) :: after[k] == stored[k])
            && (forall k | k in SeenKeys(scope, items) ::
                  var item := LastItem(scope, items, k);
                  after[k].region == Some(scope.region) && after[k].source == AwsSync && after[k].staleAt.None?
                  && after[k].archivedAt.None? && after[k].misses == 0 && after[k].lastSeenAt == Some(scope.now)
                  && after[k].tags == item.tags
                  && after[k].status == item.status && after[k].metadata == Synced(scope, item)
                  && (item.name.Some? ==> after[k].name == item.name))
    decreases |items|
  {
    if items != [] {
      var front, last := items[..|items| - 1], items[|items| - 1];
      assert items == front + [last];
      SaveAllTouches(stored, scope, front);
      assert SeenKeys(scope, items) == SeenKeys(scope, front) + {KeyOf(scope, last)};
    }
  }

  /** Nothing collected under the key from position `i` on has a name. */
  predicate Unnamed(scope: Scope, items: seq<Item>, k: Key, i: nat) {
    forall j | i <= j < |items| :: KeyOf(scope, items[j]) == k ==> items[j].name.None?
  }

  /** A row collected without any name keeps the one it had. */
  lemma {:induction false} NameStays(stored: Resources, scope: Scope, items: seq<Item>, k: Key)
    requires k in SeenKeys(scope, items) && Unnamed(scope, items, k, 0)
    ensures k in SaveAll(stored, scope, items)
    ensures SaveAll(stored, scope, items)[k].name == if k in stored then stored[k].name else None
    decreases |items|
  {
    var front, last := items[..|items| - 1], items[|items| - 1];
    assert items == front + [last];
    assert SeenKeys(scope, items) == SeenKeys(scope, front) + {KeyOf(scope, last)};
    SaveAllTouches(stored, scope, front);
    if k in SeenKeys(scope, front) { NameStays(stored, scope, front, k); }
  }

  /** Any other row has the last name it was collected with. */
  lemma {:induction false} LastNameStays(stored: Resources, scope: Scope, items: seq<Item>, k: Key, i: nat)
    requires i < |items| && KeyOf(scope, items[i]) == k && items[i].name.Some? && Unnamed(scope, items, k, i + 1)
    ensures k in SaveAll(stored, scope, items) && SaveAll(stored, scope, items)[k].name == items[i].name
    decreases |items|
  {
    hide Upserted, KeyOf;
    var n := |items| - 1;
    var before := SaveAll(stored, scope, items[..n]);
    UpsertedName(before, scope, items[n]);
    if i < n {
      UnnamedBefore(scope, items, k, i + 1);
      LastNameStays(stored, scope, items[..n], k, i);
    }
  }

  lemma UpsertedName(stored: Resources, scope: Scope, item: Item)
    ensures var key, name := KeyOf(scope, item), Upserted(stored, scope, item).name;
            name == if item.name.Some? then item.name else if key in stored then stored[key].name else None
  {}

  lemma UnnamedBefore(scope: Scope, items: seq<Item>, k: Key, i: nat)
    requires i < |items| && Unnamed(scope, items, k, i)
    ensures Unnamed(scope, items[..|items| - 1], k, i)
    ensures KeyOf(scope, items[|items| - 1]) == k ==> items[|items| - 1].name.None?
  {
    hide KeyOf;
  }

  /** An item changes a stored row exactly when something that the row shows of it differs. */
  lemma UpdatedIff(stored: Resources, scope: Scope, item: Item)
    ensures ChangeOf(stored, scope, item) == Created <==> KeyOf(scope, item) !in stored
    ensures ChangeOf(stored, scope, item) == Updated <==>
              && KeyOf(scope, item) in stored
              && var r := stored[KeyOf(scope, item)];
                 || r.name != item.name || r.region != Some(scope.region) || r.status != item.status
                 || r.tags != item.tags || r.metadata.source != Some("AWS_SYNC") || r.metadata.aws != item.aws
  {}

  lemma {:induction false} CountsAddUp(stored: Resources, scope: Scope, items: seq<Item>)
    ensures var c := CountAll(stored, scope, items);
            && c.resources == |items| == c.created + c.updated + c.same
            && c.created == |SaveAll(stored, scope, items)| - |stored|
            && c.relationships == 0 && c.stale == 0
    decreases |items|
  {
    if items != [] {
      var front, last := items[..|items| - 1], items[|items| - 1];
      CountsAddUp(stored, scope, front);
      var before, key := SaveAll(stored, scope, front), KeyOf(scope, last);
      var after := before[key := Upserted(before, scope, last)];
      assert after == SaveAll(stored, scope, items);
      assert after.Keys == before.Keys + {key};
      assert |after| == |after.Keys| && |before| == |before.Keys|;
    }
  }

  // ----- marking what was not seen -----

  /** The rows a scan of `scope` answers for. */
  predicate InScope(scope: Scope, k: Key, r: Resource) {
    && k.org == scope.org && k.account == scope.account && SupportedKind(k.kind)
    && r.region == Some(scope.region) && r.source == AwsSync && r.archivedAt.None?
  }

  predicate Missed(scope: Scope, seen: set<string>, k: Key, r: Resource) {
    InScope(scope, k, r) && k.id !in seen
  }

  function MarkMissing(stored: Resources, scope: Scope, seen: set<string>): Resources {
    map k | k in stored ::
      if Missed(scope, seen, k, stored[k])
      then stored[k].(staleAt := Some(scope.now), misses := stored[k].misses + 1)
      else stored[k]
  }

  function MissedKeys(stored: Resources, scope: Scope, seen: set<string>): set<Key> {
    set k | k in stored && Missed(scope, seen, k, stored[k])
  }

  // ----- relationships -----

  /** A relationship the scan found between two recorded ids, either of which may be unknown. */
  datatype Link = Link(source: Option<Key>, target: Option<Key>, kind: RelationKind)

  predicate Complete(link: Link) {
    link.source.Some? && link.target.Some? && link.source != link.target
  }

  function RelationOf(scope: Scope, link: Link): RelationKey
    requires Complete(link)
  {
    RelationKey(scope.org, link.source.value, link.target.value, link.kind)
  }

  predicate Known(resources: Resources, org: string, k: Key) {
    k in resources && k.org == org
  }

  predicate Linkable(resources: Resources, scope: Scope, link: Link) {
    Complete(link) && Known(resources, scope.org, link.source.value) && Known(resources, scope.org, link.target.value)
  }

  function SaveLink(resources: Resources, stored: Relationships, scope: Scope, link: Link): Relationships {
    if !Linkable(resources, scope, link) then stored
    else stored[RelationOf(scope, link) := Relationship(AwsSync, Some(scope.now), None)]
  }

  function SaveLinks(resources: Resources, stored: Relationships, scope: Scope, links: seq<Link>): Relationships
    decreases |links|
  {
    if links == [] then stored
    else SaveLink(resources, SaveLinks(resources, stored, scope, links[..|links| - 1]), scope, links[|links| - 1])
  }

  /** `relationshipKeys`: every complete link is recorded, whether or not its ends are known. */
  function RecordedKeys(scope: Scope, links: seq<Link>): set<RelationKey> {
    set link | link in links && Complete(link) :: RelationOf(scope, link)
  }

  function LinkedKeys(resources: Resources, scope: Scope, links: seq<Link>): set<RelationKey> {
    set link | link in links && Linkable(resources, scope, link) :: RelationOf(scope, link)
  }

  /** The relationships a scan of `scope` answers for. */
  predicate RelationInScope(resources: Resources, scope: Scope, k: RelationKey, r: Relationship) {
    && k.org == scope.org && r.classification == AwsSync && SupportedRelation(k.kind)
    && k.source in resources && k.source.account == scope.account && resources[k.source].region == Some(scope.region)
    && k.target in resources && k.target.account == scope.account
  }

  function MarkMissingLinks(resources: Resources, stored: Relationships, scope: Scope,
    seen: set<RelationKey>): Relationships {
    map k | k in stored ::
      if RelationInScope(resources, scope, k, stored[k]) && stored[k].staleAt.None? && k !in seen
      then stored[k].(staleAt := Some(scope.now))
      else stored[k]
  }

  lemma {:induction false} SaveLinksTouches(resources: Resources, stored: Relationships, scope: Scope, links: seq<Link>)
    ensures var after := SaveLinks(resources, stored, scope, links);
            && after.Keys == stored.Keys + LinkedKeys(resources, scope, links)
            && (forall k | k in after :: after[k] ==
                  if k in LinkedKeys(resources, scope, links) then Relationship(AwsSync, Some(scope.now), None)
                      else stored[k])
    decreases |links|
  {
    if links != [] {
      var front, last := links[..|links| - 1], links[|links| - 1];
      assert links == front + [last];
      SaveLinksTouches(resources, stored, scope, front);
      assert LinkedKeys(resources, scope, links) ==
             LinkedKeys(resources, scope, front) + (if Linkable(resources, scope, last) then {RelationOf(scope, last)}
                 else {});
    }
  }
}
