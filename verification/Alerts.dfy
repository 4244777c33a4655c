/**
  The alert table and what one completed monitoring run does to it: the evaluated
  alerts are upserted under their dedupe keys, and every other open alert of the
  organization is resolved.
*/
module Alerts {
  import opened Wrappers

  datatype Status = Open | Acknowledged | Resolved

  datatype Alert = Alert(
    status: Status,
    evidence: string,
    evidenceCount: nat,
    mapped: seq<string>,
    firstObservedAt: int,
    lastObservedAt: int,
    resolvedAt: Option<int>)

  datatype Key = Key(org: string, dedupeKey: string)

  type Table = map<Key, Alert>

  /** One evaluated alert, as far as it is recorded. */
  datatype Evaluated = Evaluated(dedupeKey: string, evidence: string)

  const MAPPED_LIMIT: nat := 10

  /** `slice(-10)` */
  function Latest(s: seq<string>): seq<string> {
    if |s| <= MAPPED_LIMIT then s else s[|s| - MAPPED_LIMIT..]
  }

  function Keys(evaluated: seq<Evaluated>): set<string> {
    set e | e in evaluated :: e.dedupeKey
  }

  // ----- recording what was evaluated -----

  function Observed(t: Table, key: Key, evidence: string, now: int): Alert {
    if key !in t then Alert(Open, evidence, 1, Latest([evidence]), now, now, None)
    else
      var a := t[key];
      var reopened := a.status == Resolved;
      Alert(if reopened then Open else a.status, evidence, a.evidenceCount + 1, Latest(a.mapped + [evidence]),
            if reopened then now else a.firstObservedAt, now, if reopened then None else a.resolvedAt)
  }

  function Observe(t: Table, org: string, now: int, e: Evaluated): Table {
    t[Key(org, e.dedupeKey) := Observed(t, Key(org, e.dedupeKey), e.evidence, now)]
  }

  function ObserveAll(t: Table, org: string, now: int, evaluated: seq<Evaluated>): Table
    decreases |evaluated|
  {
    if evaluated == [] then t
    else Observe(ObserveAll(t, org, now, evaluated[..|evaluated| - 1]), org, now, evaluated[|evaluated| - 1])
  }

  // ----- resolving the rest -----

  predicate Unresolved(a: Alert) {
    a.status == Open || a.status == Acknowledged
  }

  /** The alerts a run closes. */
  function ToResolve(t: Table, org: string, current: set<string>): set<Key> {
    set k | k in t && k.org == org && Unresolved(t[k]) && k.dedupeKey !in current
  }

  function ResolveAll(t: Table, keys: set<Key>, now: int): Table {
    map k | k in t :: if k in keys then t[k].(status := Resolved, resolvedAt := Some(now)) else t[k]
  }

  /** The table after a run that completes. */
  function Evaluate(t: Table, org: string, now: int, evaluated: seq<Evaluated>): Table {
    var observed := ObserveAll(t, org, now, evaluated);
    ResolveAll(observed, ToResolve(observed, org, Keys(evaluated)), now)
  }

  datatype Counts = Counts(created: nat, updated: nat, resolved: nat)

  /** How many of the evaluated alerts had no row when their turn came. */
  function CreatedBy(t: Table, org: string, evaluated: seq<Evaluated>): nat
    decreases |evaluated|
  {
    if evaluated == [] then 0
    else
      var front, last := evaluated[..|evaluated| - 1], evaluated[|evaluated| - 1];
      CreatedBy(t, org, front) + if Key(org, last.dedupeKey) in t || last.dedupeKey in Keys(front) then 0 else 1
  }

  function RunCounts(t: Table, org: string, now: int, evaluated: seq<Evaluated>): Counts
  {
    CreatedAtMost(t, org, evaluated);
    Counts(CreatedBy(t, org, evaluated), |evaluated| - CreatedBy(t, org, evaluated),
           |ToResolve(ObserveAll(t, org, now, evaluated), org, Keys(evaluated))|)
  }

  lemma {:induction false} CreatedAtMost(t: Table, org: string, evaluated: seq<Evaluated>)
    ensures CreatedBy(t, org, evaluated) <= |evaluated|
    decreases |evaluated|
  {
    if evaluated != [] { CreatedAtMost(t, org, evaluated[..|evaluated| - 1]); }
  }

  // ----- one run -----

  lemma {:induction false} ObserveAllTouches(t: Table, org: string, now: int, evaluated: seq<Evaluated>)
    ensures var after := ObserveAll(t, org, now, evaluated);
            && (forall k :: k in after <==> k in t || (k.org == org && k.dedupeKey in Keys(evaluated)))
            && (forall k | k in t && !(k.org == org && k.dedupeKey in Keys(evaluated)) :: after[k] == t[k])
            && (forall k | k in after && k.org == org && k.dedupeKey in Keys(evaluated) :: Unresolved(after[k]))
            && |after| == |t| + CreatedBy(t, org, evaluated)
    decreases |evaluated|
  {
    if evaluated != [] {
      var front, last := evaluated[..|evaluated| - 1], evaluated[|evaluated| - 1];
      assert evaluated == front + [last];
      assert Keys(evaluated) == Keys(front) + {last.dedupeKey};
      ObserveAllTouches(t, org, now, front);
      var before, key := ObserveAll(t, org, now, front), Key(org, last.dedupeKey);
      var after := Observe(before, org, now, last);
      assert after.Keys == before.Keys + {key};
      assert |after| == |after.Keys| && |before| == |before.Keys|;
    }
  }

  function UnresolvedKeys(t: Table, org: string): set<string> {
    set k | k in t && k.org == org && Unresolved(t[k]) :: k.dedupeKey
  }

  /**
    After a run, the unresolved alerts of the organization are the evaluated ones, and
    other organizations are untouched.
  */
  lemma UnresolvedAreEvaluated(t: Table, org: string, now: int, evaluated: seq<Evaluated>)
    ensures UnresolvedKeys(Evaluate(t, org, now, evaluated), org) == Keys(evaluated)
    ensures forall k | k in t && k.org != org ::
        k in Evaluate(t, org, now, evaluated) && Evaluate(t, org, now, evaluated)[k] == t[k]
  {
    hide ObserveAll;
    ObserveAllTouches(t, org, now, evaluated);
    var observed, after := ObserveAll(t, org, now, evaluated), Evaluate(t, org, now, evaluated);
    forall d | d in Keys(evaluated) ensures d in UnresolvedKeys(after, org) {
      var k := Key(org, d);
      assert k in observed && k !in ToResolve(observed, org, Keys(evaluated));
      assert k in after && Unresolved(after[k]);
    }
  }

  /** The alerts that were unresolved and are resolved now. */
  function NewlyClosed(before: Table, after: Table): set<Key> {
    set k | k in before && k in after && Unresolved(before[k]) && !Unresolved(after[k])
  }

  /** The reported counts are the growth of the table, the evaluated list, and the alerts newly closed. */
  lemma CountsAreTrue(t: Table, org: string, now: int, evaluated: seq<Evaluated>)
    ensures var n, after := RunCounts(t, org, now, evaluated), Evaluate(t, org, now, evaluated);
            && n.created + n.updated == |evaluated|
            && n.created == |after| - |t|
            && n.resolved == |NewlyClosed(t, after)|
  {
    hide ObserveAll, CreatedBy;
    ObserveAllTouches(t, org, now, evaluated);
    var observed, after := ObserveAll(t, org, now, evaluated), Evaluate(t, org, now, evaluated);
    assert after.Keys == observed.Keys;
    assert |after| == |after.Keys| && |observed| == |observed.Keys|;
    assert ToResolve(observed, org, Keys(evaluated)) == NewlyClosed(t, after);
  }

  lemma {:induction false} NothingCreated(t: Table, org: string, evaluated: seq<Evaluated>)
    requires forall d | d in Keys(evaluated) :: Key(org, d) in t
    ensures CreatedBy(t, org, evaluated) == 0
    decreases |evaluated|
  {
    if evaluated != [] {
      var front, last := evaluated[..|evaluated| - 1], evaluated[|evaluated| - 1];
      assert last.dedupeKey in Keys(evaluated) && Keys(front) <= Keys(evaluated);
      NothingCreated(t, org, front);
    }
  }

  /** Running again on the same alerts, repeated keys included, creates and resolves none. */
  lemma RerunIsQuiet(t: Table, org: string, now: int, later: int, evaluated: seq<Evaluated>)
    ensures RunCounts(Evaluate(t, org, now, evaluated), org, later, evaluated) == Counts(0, |evaluated|, 0)
  {
    hide ObserveAll, CreatedBy;
    var after := Evaluate(t, org, now, evaluated);
    ObserveAllTouches(t, org, now, evaluated);
    UnresolvedAreEvaluated(t, org, now, evaluated);
    NothingCreated(after, org, evaluated);
    ObserveAllTouches(after, org, later, evaluated);
    var again := ObserveAll(after, org, later, evaluated);
    forall k | k in again && k.org == org && Unresolved(again[k]) ensures k.dedupeKey in Keys(evaluated) {
      assert k.dedupeKey in Keys(evaluated) || k.dedupeKey in UnresolvedKeys(after, org);
    }
    assert ToResolve(again, org, Keys(evaluated)) == {};
  }

  // ----- whole lives of alerts -----

  /** What happens to the table: completed runs, and the two routes. */
  datatype Event =
    | Run(org: string, now: int, evaluated: seq<Evaluated>)
    | Acknowledge(key: Key)
    | ResolveRoute(key: Key, now: int)

  function After(t: Table, e: Event): Table {
    match e
    case Run(org, now, evaluated) => Evaluate(t, org, now, evaluated)
    case Acknowledge(key) => if key in t then t[key := t[key].(status := Acknowledged)] else t
    case ResolveRoute(key, now) => if key in t then t[key := t[key].(status := Resolved, resolvedAt := Some(now))]
        else t
  }

  function Life(events: seq<Event>): Table
    decreases |events|
  {
    if events == [] then map[] else After(Life(events[..|events| - 1]), events[|events| - 1])
  }

  /** Everything ever observed under a key, oldest first. */
  function Mentions(evaluated: seq<Evaluated>, dedupeKey: string): seq<string>
    decreases |evaluated|
  {
    if evaluated == [] then []
    else
      var last := evaluated[|evaluated| - 1];
      Mentions(evaluated[..|evaluated| - 1], dedupeKey) + if last.dedupeKey == dedupeKey then [last.evidence] else []
  }

  function History(events: seq<Event>, key: Key): seq<string>
    decreases |events|
  {
    if events == [] then []
    else
      var last := events[|events| - 1];
      History(events[..|events| - 1], key)
      + if last.Run? && last.org == key.org then Mentions(last.evaluated, key.dedupeKey) else []
  }

  /** A row that records exactly this history. */
  ghost predicate Records(t: Table, key: Key, history: seq<string>) {
    if history == [] then key !in t
    else
      && key in t && t[key].evidenceCount == |history| && t[key].mapped == Latest(history)
      && t[key].evidence == history[|history| - 1]
  }

  lemma LatestOfLatest(h: seq<string>, e: string)
    ensures Latest(Latest(h) + [e]) == Latest(h + [e])
  {}

  lemma {:induction false} ObserveAllRecords(t: Table, org: string, now: int, evaluated: seq<Evaluated>, key: Key,
    history: seq<string>)
    requires Records(t, key, history)
    ensures Records(ObserveAll(t, org, now, evaluated), key,
                    history + if key.org == org then Mentions(evaluated, key.dedupeKey) else [])
    decreases |evaluated|
  {
    hide Latest;
    if evaluated == [] {
      assert history + [] == history;
    } else {
      var front, last := evaluated[..|evaluated| - 1], evaluated[|evaluated| - 1];
      ObserveAllRecords(t, org, now, front, key, history);
      var so := history + if key.org == org then Mentions(front, key.dedupeKey) else [];
      if key == Key(org, last.dedupeKey) {
        LatestOfLatest(so, last.evidence);
        assert [] + [last.evidence] == [last.evidence];
        assert history + Mentions(evaluated, key.dedupeKey) == so + [last.evidence];
      } else if key.org == org {
        assert Mentions(evaluated, key.dedupeKey) == Mentions(front, key.dedupeKey);
      }
    }
  }

  /**
    Through any runs, acknowledgements, resolutions and reopenings, an alert counts its
    whole observation history and keeps the last ten entries of it.
  */
  lemma {:induction false} EvidenceIsHistory(events: seq<Event>, key: Key)
    ensures Records(Life(events), key, History(events, key))
    decreases |events|
  {
    hide ObserveAll, Latest;
    if events != [] {
      var front, last := events[..|events| - 1], events[|events| - 1];
      EvidenceIsHistory(front, key);
      var before := Life(front);
      if last.Run? {
        ObserveAllRecords(before, last.org, last.now, last.evaluated, key, History(front, key));
      } else {
        assert History(events, key) == History(front, key);
      }
    }
  }

  /** That is, it keeps up to ten entries, the newest of its history. */
  lemma LastTenAreKept(events: seq<Event>, key: Key)
    requires key in Life(events)
    ensures var h, mapped := History(events, key), Life(events)[key].mapped;
            && |mapped| == (if |h| < 10 then |h| else 10) && mapped == h[|h| - |mapped|..]
            && h != [] && Life(events)[key].evidence == h[|h| - 1]
  {
    hide Life, History;
    EvidenceIsHistory(events, key);
  }

  /** A resolved alert says when, and an open one does not. */
  ghost predicate Stamped(t: Table) {
    forall k | k in t :: (t[k].status == Resolved ==> t[k].resolvedAt.Some?)
        && (t[k].status == Open ==> t[k].resolvedAt.None?)
  }

  lemma {:induction false} ObserveAllStamped(t: Table, org: string, now: int, evaluated: seq<Evaluated>)
    requires Stamped(t)
    ensures Stamped(ObserveAll(t, org, now, evaluated))
    decreases |evaluated|
  {
    hide Latest;
    if evaluated != [] { ObserveAllStamped(t, org, now, evaluated[..|evaluated| - 1]); }
  }

  lemma {:induction false} ResolvedIsStamped(events: seq<Event>)
    ensures Stamped(Life(events))
    decreases |events|
  {
    if events != [] {
      var front, last := events[..|events| - 1], events[|events| - 1];
      ResolvedIsStamped(front);
      if last.Run? { ObserveAllStamped(Life(front), last.org, last.now, last.evaluated); }
    }
  }

  /** An unresolved alert that still carries a resolution time. */
  predicate Misleading(t: Table, key: Key) {
    key in t && t[key].status != Resolved && t[key].resolvedAt.Some?
  }

  lemma {:induction false} ObserveAllMisleads(t: Table, org: string, now: int, evaluated: seq<Evaluated>, key: Key)
    ensures Misleading(ObserveAll(t, org, now, evaluated), key) <==> Misleading(t, key)
    decreases |evaluated|
  {
    hide Latest;
    if evaluated != [] { ObserveAllMisleads(t, org, now, evaluated[..|evaluated| - 1], key); }
  }

  // ----- when a resolution time misleads -----

  predicate Opens(e: Event, key: Key) {
    e.Run? && e.org == key.org && key.dedupeKey in Keys(e.evaluated)
  }

  predicate Closes(e: Event, key: Key) {
    (e.ResolveRoute? && e.key == key) || (e.Run? && e.org == key.org && key.dedupeKey !in Keys(e.evaluated))
  }

  predicate IsResolved(t: Table, key: Key) {
    key in t && t[key].status == Resolved
  }

  /** What one event does to one alert. */
  lemma OneEvent(t: Table, e: Event, key: Key)
    requires Stamped(t)
    ensures var after := After(t, e);
            && (key in after <==> key in t || Opens(e, key))
            && (IsResolved(after, key) <==>
                  !Opens(e, key) && e != Acknowledge(key) && (IsResolved(t, key) || (Closes(e, key) && key in t)))
            && (Misleading(after, key) <==>
                  if e == Acknowledge(key) then IsResolved(t, key) || Misleading(t, key)
                  else Misleading(t, key) && !Closes(e, key))
  {
    hide ObserveAll;
    if e.Run? {
      ObserveAllMisleads(t, e.org, e.now, e.evaluated, key);
      ObserveAllTouches(t, e.org, e.now, e.evaluated);
    }
  }

  lemma LastEvent(events: seq<Event>, key: Key)
    requires events != []
    ensures var t, after, e := Life(events[..|events| - 1]), Life(events), events[|events| - 1];
            && (key in after <==> key in t || Opens(e, key))
            && (IsResolved(after, key) <==>
                  !Opens(e, key) && e != Acknowledge(key) && (IsResolved(t, key) || (Closes(e, key) && key in t)))
            && (Misleading(after, key) <==>
                  if e == Acknowledge(key) then IsResolved(t, key) || Misleading(t, key)
                  else Misleading(t, key) && !Closes(e, key))
  {
    hide After, Stamped;
    ResolvedIsStamped(events[..|events| - 1]);
    OneEvent(Life(events[..|events| - 1]), events[|events| - 1], key);
  }

  /** The alert was opened, then closed, and has not been observed since. */
  predicate ClosedAt(events: seq<Event>, key: Key, o: nat, i: nat) {
    && o < i < |events| && Opens(events[o], key) && Closes(events[i], key)
    && forall m | i < m < |events| :: !Opens(events[m], key)
  }

  lemma {:induction false} KnownWasOpened(events: seq<Event>, key: Key) returns (o: nat)
    requires key in Life(events)
    ensures o < |events| && Opens(events[o], key)
    decreases |events|
  {
    hide Life, Opens, Closes;
    NoLife();
    LastEvent(events, key);
    o := |events| - 1;
    if !Opens(events[o], key) {
      o := KnownWasOpened(events[..o], key);
    }
  }

  lemma NoLife()
    ensures Life([]) == map[]
  {}

  lemma {:induction false} ResolvedWasClosed(events: seq<Event>, key: Key) returns (o: nat, i: nat)
    requires IsResolved(Life(events), key)
    ensures ClosedAt(events, key, o, i)
    decreases |events|
  {
    hide Life, Opens, Closes;
    NoLife();
    LastEvent(events, key);
    var front := events[..|events| - 1];
    if Closes(events[|front|], key) && key in Life(front) {
      o := KnownWasOpened(front, key);
      i := |front|;
    } else {
      o, i := ResolvedWasClosed(front, key);
      assert forall m | i < m < |front| :: front[m] == events[m];
    }
  }

  /** An alert that was closed and not observed since still carries its resolution time. */
  lemma {:induction false} ClosedIsStamped(events: seq<Event>, key: Key, o: nat, i: nat)
    requires ClosedAt(events, key, o, i)
    ensures key in Life(events) && (IsResolved(Life(events), key) || Misleading(Life(events), key))
    decreases |events|
  {
    hide Life, Opens, Closes, Misleading, IsResolved;
    LastEvent(events, key);
    var front := events[..|events| - 1];
    if i < |front| {
      assert forall m | i < m < |front| :: front[m] == events[m];
      ClosedIsStamped(front, key, o, i);
      assert !Opens(events[|front|], key);
    } else {
      OpenedIsKnown(front, key, o);
      ClosingIsNeither(events[i], key);
    }
  }

  lemma {:induction false} OpenedIsKnown(events: seq<Event>, key: Key, o: nat)
    requires o < |events| && Opens(events[o], key)
    ensures key in Life(events)
    decreases |events|
  {
    hide Life, Opens, Closes;
    LastEvent(events, key);
    if o < |events| - 1 { OpenedIsKnown(events[..|events| - 1], key, o); }
  }

  /** Closed, then acknowledged before anything observed the alert again, and not closed since. */
  ghost predicate AcknowledgedClosed(events: seq<Event>, key: Key) {
    exists o: nat, i: nat, j: nat ::
      && j < |events| && events[j] == Acknowledge(key) && ClosedAt(events[..j], key, o, i)
      && forall m | j < m < |events| :: !Closes(events[m], key)
  }

  lemma ClosedExtends(events: seq<Event>, key: Key)
    requires events != []
    requires AcknowledgedClosed(events[..|events| - 1], key) && !Closes(events[|events| - 1], key)
    ensures AcknowledgedClosed(events, key)
  {
    hide ClosedAt, Closes;
    var front := events[..|events| - 1];
    var o: nat, i: nat, j: nat :|
      && j < |front| && front[j] == Acknowledge(key) && ClosedAt(front[..j], key, o, i)
      && forall m | j < m < |front| :: !Closes(front[m], key);
    assert events[..j] == front[..j];
    assert forall m | j < m < |front| :: front[m] == events[m];
  }

  /**
    An unresolved alert carries a resolution time exactly if it was acknowledged after
    it was closed, before it was observed again, and has not been closed since.
  */
  lemma {:induction false} MisleadingIff(events: seq<Event>, key: Key)
    ensures Misleading(Life(events), key) <==> AcknowledgedClosed(events, key)
    decreases |events|
  {
    hide Life, Misleading, IsResolved, Closes, Opens, ClosedAt;
    NoLife();
    if events == [] {
      NothingMisleads(key);
    } else {
      var front, last := events[..|events| - 1], events[|events| - 1];
      LastEvent(events, key);
      MisleadingIff(front, key);
      if Misleading(Life(events), key) {
        ClosingIsNeither(last, key);
        if Misleading(Life(front), key) {
          ClosedExtends(events, key);
        } else {
          var o, i := ResolvedWasClosed(front, key);
          assert events[..|front|] == front;
        }
      }
      if AcknowledgedClosed(events, key) {
        var o: nat, i: nat, j: nat :|
          && j < |events| && events[j] == Acknowledge(key) && ClosedAt(events[..j], key, o, i)
          && forall m | j < m < |events| :: !Closes(events[m], key);
        if j == |front| {
          assert events[..j] == front;
          ClosedIsStamped(front, key, o, i);
        } else {
          assert front[..j] == events[..j];
          assert forall m | j < m < |front| :: front[m] == events[m];
        }
      }
    }
  }

  lemma ClosingIsNeither(e: Event, key: Key)
    ensures Closes(e, key) ==> !Opens(e, key) && e != Acknowledge(key)
  {}

  lemma NothingMisleads(key: Key)
    ensures !Misleading(map[], key)
  {}

  /** An alert observed, resolved by hand and then acknowledged is ACKNOWLEDGED with a resolution time. */
  lemma AcknowledgingMisleads(key: Key, evidence: string)
    ensures var events := [Run(key.org, 0, [Evaluated(key.dedupeKey, evidence)]), ResolveRoute(key, 1),
        Acknowledge(key)];
            key in Life(events) && Life(events)[key].status == Acknowledged && Life(events)[key].resolvedAt == Some(1)
  {
    var events := [Run(key.org, 0, [Evaluated(key.dedupeKey, evidence)]), ResolveRoute(key, 1), Acknowledge(key)];
    assert events[..2] == [events[0], events[1]] && events[..2][..1] == [events[0]] && events[..2][..1][..0] == [];
    assert Opens(events[0], key) by { assert Evaluated(key.dedupeKey, evidence) in events[0].evaluated; }
    LastEvent([events[0]], key);
  }
}
