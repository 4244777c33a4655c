/**
  A reconciliation batch over a table of plans: the candidates, in queue order and up to
  the batch size, are reconciled one after the other.
*/
module ReconciliationBatch {
  import opened Wrappers
  import opened Sorting
  import opened JsonText
  import opened PlanRow
  import opened Protocol
  import opened PlanStore

  datatype Entry = Entry(id: Text, row: Row)

  function IdOf(e: Entry): Text {
    e.id
  }

  /** Plan ids are unique. */
  ghost predicate UniqueIds(table: seq<Entry>) {
    Distinct(Mapped(IdOf, table))
  }

  // ----- the query -----

  /** Ascending, with missing times last, as PostgreSQL orders them. */
  predicate TimeLe(a: Option<int>, b: Option<int>) {
    b.None? || (a.Some? && a.value <= b.value)
  }

  /** `orderBy: [{ nextReconciliationAt: "asc" }, { mutationAttemptedAt: "asc" }, { id: "asc" }]` */
  predicate QueueOrder(a: Entry, b: Entry) {
    if a.row.nextAt != b.row.nextAt then TimeLe(a.row.nextAt, b.row.nextAt)
    else if a.row.attemptedAt != b.row.attemptedAt then TimeLe(a.row.attemptedAt, b.row.attemptedAt)
    else LexLe(a.id, b.id)
  }

  /** Due no later; of those due together attempted no later; and of those the one with the smaller id. */
  predicate NoLater(a: Entry, b: Entry) {
    && TimeLe(a.row.nextAt, b.row.nextAt)
    && (a.row.nextAt == b.row.nextAt ==> TimeLe(a.row.attemptedAt, b.row.attemptedAt))
    && (a.row.nextAt == b.row.nextAt && a.row.attemptedAt == b.row.attemptedAt ==> LexLe(a.id, b.id))
  }

  lemma OrderedIsNoLater(a: Entry, b: Entry)
    requires QueueOrder(a, b)
    ensures NoLater(a, b)
  {
    hide LexLe;
  }

  lemma QueueOrdered()
    ensures TotalPreorder(QueueOrder)
  {
    forall x, y ensures QueueOrder(x, y) || QueueOrder(y, x) { LexTotal(x.id, y.id); }
    forall x, y, z | QueueOrder(x, y) && QueueOrder(y, z) ensures QueueOrder(x, z) {
      if LexLe(x.id, y.id) && LexLe(y.id, z.id) { LexTransitive(x.id, y.id, z.id); }
    }
  }

  predicate IsCandidate(cfg: Config, now: int, e: Entry) {
    Candidate(e.row, now, cfg.staleMs, MaxAttempts(cfg))
  }

  /** `Math.min(Math.max(batchSize, 1), 100)`: the nearest number from one to a hundred. */
  function BatchSize(n: int): (r: nat)
    ensures 1 <= r <= 100 && forall m | 1 <= m <= 100 :: Distance(n, r) <= Distance(n, m)
  {
    if n < 1 then 1 else if n > 100 then 100 else n
  }

  function Queue(cfg: Config, table: seq<Entry>, now: int): seq<Entry> {
    SortBy(QueueOrder, Filter(e => IsCandidate(cfg, now, e), table))
  }

  function Selected(cfg: Config, table: seq<Entry>, now: int, batchSize: int): seq<Entry> {
    Take(Queue(cfg, table, now), BatchSize(batchSize))
  }

  lemma QueueHolds(cfg: Config, table: seq<Entry>, now: int)
    requires UniqueIds(table)
    ensures var q := Queue(cfg, table, now);
            Sorted(QueueOrder, q) && UniqueIds(q) && forall e :: e in q <==> e in table && IsCandidate(cfg, now, e)
  {
    QueueOrdered();
    var p := (e: Entry) => IsCandidate(cfg, now, e);
    var found := Filter(p, table);
    FilterKeepsDistinct(p, IdOf, table);
    SortKeepsDistinct(QueueOrder, IdOf, found);
    SortSorts(QueueOrder, found);
    SortPermutes(QueueOrder, found);
    forall e ensures e in Queue(cfg, table, now) <==> e in table && IsCandidate(cfg, now, e) {
      FilterHolds(p, table, e);
      assert e in SortBy(QueueOrder, found) <==> e in multiset(SortBy(QueueOrder, found));
    }
  }

  /**
    A batch takes candidates only and each at most once, and a candidate it leaves for
    later comes after every one it takes, of which there are then as many as fit.
  */
  lemma OldestFirst(cfg: Config, table: seq<Entry>, now: int, batchSize: int)
    requires UniqueIds(table)
    ensures var s := Selected(cfg, table, now, batchSize);
            && UniqueIds(s) && |s| <= BatchSize(batchSize)
            && (forall e | e in s :: e in table && IsCandidate(cfg, now, e))
            && (forall e | e in table && IsCandidate(cfg, now, e) && e !in s ::
                  |s| == BatchSize(batchSize) && forall t | t in s :: NoLater(t, e))
  {
    hide QueueOrder, NoLater, IsCandidate, Queue, Sorted, Take;
    var q, n := Queue(cfg, table, now), BatchSize(batchSize);
    QueueHolds(cfg, table, now);
    TakeKeepsDistinct(IdOf, q, n);
    forall e | e in table && IsCandidate(cfg, now, e) && e !in Take(q, n)
      ensures |Take(q, n)| == n && forall t | t in Take(q, n) :: NoLater(t, e)
    {
      TakenFirst(QueueOrder, q, n, e);
      forall t | t in Take(q, n) ensures NoLater(t, e) { OrderedIsNoLater(t, e); }
    }
  }

  // ----- what a batch leaves in the table -----

  function Ids(entries: seq<Entry>): set<Text> {
    set e | e in entries :: e.id
  }

  /** The table after the plans in `done` have been reconciled. */
  function Reconciled(cfg: Config, table: seq<Entry>, done: set<Text>, now: int,
    read: Text -> Option<Reading>): seq<Entry> {
    seq(|table|, i requires 0 <= i < |table| =>
      if table[i].id in done then Entry(table[i].id, AfterRound(cfg, table[i].row, now, read(table[i].id)))
          else table[i])
  }

  function AfterBatch(cfg: Config, table: seq<Entry>, now: int, batchSize: int,
    read: Text -> Option<Reading>): seq<Entry> {
    Reconciled(cfg, table, Ids(Selected(cfg, table, now, batchSize)), now, read)
  }

  /**
    A batch with room for all candidates is one round on every plan of the table; a
    fuller one leaves exactly the later candidates for another batch.
  */
  lemma BatchIsRounds(cfg: Config, table: seq<Entry>, now: int, batchSize: int, read: Text -> Option<Reading>, i: nat)
    requires UniqueIds(table) && i < |table|
    ensures var e, after := table[i], AfterBatch(cfg, table, now, batchSize, read)[i];
            && after.id == e.id
            && (after.row == AfterRound(cfg, e.row, now, read(e.id))
                || (after == e && IsCandidate(cfg, now, e)
                    && |Selected(cfg, table, now, batchSize)| == BatchSize(batchSize)))
  {
    hide AfterAttempt, Candidate, Selected;
    var e, s := table[i], Selected(cfg, table, now, batchSize);
    OldestFirst(cfg, table, now, batchSize);
    if e.id !in Ids(s) && IsCandidate(cfg, now, e) {
      assert e !in s;
    }
  }

  class PlanTable {
    var plans: seq<Entry>

    constructor (table: seq<Entry>)
      ensures plans == table
    {
      plans := table;
    }

    /** `findUnique` by id. */
    method Find(id: Text, ghost i: nat) returns (k: nat)
      requires UniqueIds(plans) && i < |plans| && plans[i].id == id
      ensures k == i
    {
      k := 0;
      while plans[k].id != id
        invariant k <= i
        decreases i - k
      {
        k := k + 1;
      }
      assert Mapped(IdOf, plans)[k] == Mapped(IdOf, plans)[i];
    }

    /** Reconciles one selected plan. */
    method ReconcileOne(cfg: Config, candidate: Entry, now: int, reading: Option<Reading>, ghost i: nat)
      returns (report: Report)
      requires UniqueIds(plans) && i < |plans| && plans[i] == candidate && IsCandidate(cfg, now, candidate)
      modifies this
      ensures plans == old(plans)[i := Entry(candidate.id, AfterRound(cfg, candidate.row, now, reading))]
      ensures Reported(MaxAttempts(cfg), candidate.row, plans[i].row, report) && report != NotClaimed
    {
      hide AfterAttempt, Candidate, Reported;
      var k := Find(candidate.id, i);
      var store := new PlanStore(plans[k].row);
      CandidateIsClaimed(candidate.row, now, cfg.staleMs, MaxAttempts(cfg));
      report := store.ReconcileMutationCandidate(cfg, candidate.row, now, reading);
      plans := plans[k := Entry(candidate.id, store.Contents())];
    }

    /** `runMutationReconciliationBatch`; `read` is what the provider shows for each plan. */
    method RunMutationReconciliationBatch(cfg: Config, now: int, batchSize: int, read: Text -> Option<Reading>)
      returns (results: seq<Report>)
      requires UniqueIds(plans)
      modifies this
      ensures plans == AfterBatch(cfg, old(plans), now, batchSize, read)
      ensures |results| == |Selected(cfg, old(plans), now, batchSize)|
      ensures forall n | 0 <= n < |results| :: results[n] != NotClaimed && results[n] != StaleResolution
    {
      hide AfterRound, IsCandidate, Selected, Reconciled, Ids;
      ghost var start := plans;
      var candidates := Selected(cfg, plans, now, batchSize);
      OldestFirst(cfg, plans, now, batchSize);
      results := [];
      NothingReconciled(cfg, start, now, read);
      assert candidates[..|candidates|] == candidates && candidates[..0] == [];
      for n := 0 to |candidates|
        invariant plans == Reconciled(cfg, start, Ids(candidates[..n]), now, read)
        invariant |results| == n
        invariant forall m | 0 <= m < n :: results[m] != NotClaimed && results[m] != StaleResolution
      {
        assert candidates[n] in candidates && candidates[n] in start;
        ghost var i :| 0 <= i < |start| && start[i] == candidates[n];
        StillAsSeen(cfg, start, candidates, n, i, now, read);
        var report := ReconcileOne(cfg, candidates[n], now, read(candidates[n].id), i);
        results := results + [report];
      }
    }
  }

  lemma NothingReconciled(cfg: Config, table: seq<Entry>, now: int, read: Text -> Option<Reading>)
    ensures Reconciled(cfg, table, Ids([]), now, read) == table
  {}

  /** The n-th candidate is still as the query saw it, and reconciling it is one more plan done. */
  lemma StillAsSeen(
      cfg: Config, table: seq<Entry>, candidates: seq<Entry>, n: nat, i: nat, now: int, read: Text -> Option<Reading>)
    requires UniqueIds(table) && UniqueIds(candidates) && n < |candidates| && i < |table| && table[i] == candidates[n]
    ensures var before := Reconciled(cfg, table, Ids(candidates[..n]), now, read);
            && UniqueIds(before) && |before| == |table| && before[i] == candidates[n]
            && Reconciled(cfg, table, Ids(candidates[..n + 1]), now, read) ==
               before[i := Entry(candidates[n].id, AfterRound(cfg, candidates[n].row, now, read(candidates[n].id)))]
  {
    hide AfterRound;
    var before := Reconciled(cfg, table, Ids(candidates[..n]), now, read);
    assert Mapped(IdOf, before) == Mapped(IdOf, table);
    assert candidates[..n + 1] == candidates[..n] + [candidates[n]];
    assert Ids(candidates[..n + 1]) == Ids(candidates[..n]) + {candidates[n].id};
    forall e | e in candidates[..n] ensures e.id != candidates[n].id {
      var m :| 0 <= m < n && candidates[m] == e;
      assert Mapped(IdOf, candidates)[m] != Mapped(IdOf, candidates)[n];
    }
    forall j | 0 <= j < |table| && j != i ensures table[j].id != table[i].id {
      assert Mapped(IdOf, table)[j] != Mapped(IdOf, table)[i];
    }
  }
}
