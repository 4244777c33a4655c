/**
  The status and the times of an alert, told from the events alone: through any runs,
  acknowledgements and resolutions by hand.
*/
module AlertHistory {
  import opened Wrappers
  import opened Alerts

  // ----- what the events say -----

  ghost predicate Known(events: seq<Event>, key: Key) {
    exists o :: 0 <= o < |events| && Opens(events[o], key)
  }

  /** Acknowledged after it was first observed, and not closed since. */
  ghost predicate AcknowledgedBy(events: seq<Event>, key: Key) {
    exists j ::
      && 0 <= j < |events| && events[j] == Acknowledge(key) && Known(events[..j], key)
      && forall m | j < m < |events| :: !Closes(events[m], key)
  }

  /** Closed after it was first observed, and neither observed nor acknowledged since. */
  ghost predicate ResolvedBy(events: seq<Event>, key: Key) {
    exists i ::
      && 0 <= i < |events| && Closes(events[i], key) && Known(events[..i], key)
      && forall m | i < m < |events| :: !Opens(events[m], key) && events[m] != Acknowledge(key)
  }

  lemma KnownGrows(events: seq<Event>, key: Key)
    requires events != []
    ensures Known(events, key) <==> Known(events[..|events| - 1], key) || Opens(events[|events| - 1], key)
  {
    hide Opens;
    var front := events[..|events| - 1];
    assert forall o | 0 <= o < |front| :: front[o] == events[o];
  }

  lemma AcknowledgedGrows(events: seq<Event>, key: Key)
    requires events != []
    ensures var front, last := events[..|events| - 1], events[|events| - 1];
            AcknowledgedBy(events, key) <==>
              || (last == Acknowledge(key) && Known(front, key))
              || (AcknowledgedBy(front, key) && !Closes(last, key))
  {
    hide Known, Closes;
    var front, last := events[..|events| - 1], events[|events| - 1];
    assert forall j | 0 <= j < |front| :: front[j] == events[j] && front[..j] == events[..j];
    assert events[..|front|] == front;
  }

  lemma ResolvedGrows(events: seq<Event>, key: Key)
    requires events != []
    ensures var front, last := events[..|events| - 1], events[|events| - 1];
            ResolvedBy(events, key) <==>
              || (Closes(last, key) && Known(front, key))
              || (ResolvedBy(front, key) && !Opens(last, key) && last != Acknowledge(key))
  {
    hide Known, Closes, Opens;
    var front, last := events[..|events| - 1], events[|events| - 1];
    assert forall j | 0 <= j < |front| :: front[j] == events[j] && front[..j] == events[..j];
    assert events[..|front|] == front;
  }

  lemma NothingYet(key: Key)
    ensures !Known([], key) && !AcknowledgedBy([], key) && !ResolvedBy([], key) && Life([]) == map[]
  {}

  // ----- what one event does to one alert -----

  /** A run that observes an alert keeps an unresolved one as it is and opens any other anew. */
  lemma {:induction false} ObserveAllKeeps(t: Table, org: string, now: int, evaluated: seq<Evaluated>, key: Key)
    requires key.org == org && key.dedupeKey in Keys(evaluated)
    ensures var after := ObserveAll(t, org, now, evaluated);
            && key in after && after[key].lastObservedAt == now
            && if key in t && t[key].status != Resolved then
                 && after[key].status == t[key].status && after[key].firstObservedAt == t[key].firstObservedAt
                 && after[key].resolvedAt == t[key].resolvedAt
               else after[key].status == Open && after[key].firstObservedAt == now && after[key].resolvedAt.None?
    decreases |evaluated|
  {
    hide Latest;
    var front, last := evaluated[..|evaluated| - 1], evaluated[|evaluated| - 1];
    assert evaluated == front + [last];
    ObserveAllTouches(t, org, now, front);
    if key.dedupeKey in Keys(front) { ObserveAllKeeps(t, org, now, front, key); }
  }

  /** An alert after one event. */
  lemma EventOnAlert(t: Table, e: Event, key: Key)
    ensures var after := After(t, e);
            && (key in after <==> key in t || Opens(e, key))
            && (Opens(e, key) ==> after[key].lastObservedAt == e.now)
            && (Opens(e, key) && key in t && t[key].status != Resolved ==>
                  && after[key].status == t[key].status && after[key].firstObservedAt == t[key].firstObservedAt
                  && after[key].resolvedAt == t[key].resolvedAt)
            && (Opens(e, key) && (key in t ==> t[key].status == Resolved) ==>
                  after[key].status == Open && after[key].firstObservedAt == e.now && after[key].resolvedAt.None?)
            && (key in t && !Opens(e, key) ==>
                  after[key] ==
                    if e == Acknowledge(key) then t[key].(status := Acknowledged)
                    else if Closes(e, key) && (e.ResolveRoute? || t[key].status != Resolved) then
                      t[key].(status := Resolved, resolvedAt := Some(e.now))
                    else t[key])
  {
    hide ObserveAll;
    if e.Run? {
      ObserveAllTouches(t, e.org, e.now, e.evaluated);
      if Opens(e, key) { ObserveAllKeeps(t, e.org, e.now, e.evaluated, key); }
    }
  }

  // ----- the status -----

  /**
    After any events an alert exists exactly if it was observed; it is ACKNOWLEDGED exactly
    if it was acknowledged since and not closed after that, RESOLVED exactly if it was
    closed and neither observed nor acknowledged after that, and otherwise OPEN.
  */
  lemma {:induction false} StatusIsHistory(events: seq<Event>, key: Key)
    ensures key in Life(events) <==> Known(events, key)
    ensures key in Life(events) ==>
              && (Life(events)[key].status == Acknowledged <==> AcknowledgedBy(events, key))
              && (Life(events)[key].status == Resolved <==> ResolvedBy(events, key))
    decreases |events|
  {
    hide After, Known, AcknowledgedBy, ResolvedBy, Opens, Closes;
    NothingYet(key);
    if events != [] {
      var front, last := events[..|events| - 1], events[|events| - 1];
      StatusIsHistory(front, key);
      EventOnAlert(Life(front), last, key);
      KnownGrows(events, key);
      AcknowledgedGrows(events, key);
      ResolvedGrows(events, key);
      ClosingIsNeither(last, key);
      OpeningIsARun(last, key);
      NothingBeforeKnown(front, key);
    }
  }

  lemma OpeningIsARun(e: Event, key: Key)
    ensures Opens(e, key) ==> e != Acknowledge(key)
  {}

  lemma NothingBeforeKnown(events: seq<Event>, key: Key)
    ensures AcknowledgedBy(events, key) || ResolvedBy(events, key) ==> Known(events, key)
  {
    hide Opens, Closes;
    assert forall j | 0 <= j < |events| :: forall o | 0 <= o < j :: events[..j][o] == events[o];
  }

  // ----- the times -----

  /** The event opens the alert: it is new, or it was resolved. */
  ghost predicate BeginsAt(events: seq<Event>, o: nat, key: Key) {
    o < |events| && Opens(events[o], key) && (!Known(events[..o], key) || ResolvedBy(events[..o], key))
  }

  /** The event closes the alert: by hand in any case, or a run that finds it unresolved. */
  ghost predicate EndsAt(events: seq<Event>, i: nat, key: Key) {
    i < |events| && Closes(events[i], key) && Known(events[..i], key)
    && (events[i].ResolveRoute? || !ResolvedBy(events[..i], key))
  }

  /** An alert shows when it was last opened and when it was last observed. */
  lemma {:induction false} ObservedTimes(events: seq<Event>, key: Key) returns (o: nat, l: nat)
    requires key in Life(events)
    ensures BeginsAt(events, o, key) && (forall m: nat | o < m < |events| :: !BeginsAt(events, m, key))
    ensures Life(events)[key].firstObservedAt == events[o].now
    ensures l < |events| && Opens(events[l], key) && (forall m | l < m < |events| :: !Opens(events[m], key))
    ensures Life(events)[key].lastObservedAt == events[l].now
    decreases |events|
  {
    hide After, Known, ResolvedBy, Opens, Closes;
    NothingYet(key);
    var front, n := events[..|events| - 1], |events| - 1;
    assert events[..n] == front;
    forall m: nat | m < n ensures BeginsAt(front, m, key) <==> BeginsAt(events, m, key) {
      assert front[..m] == events[..m] && front[m] == events[m];
    }
    StatusIsHistory(front, key);
    EventOnAlert(Life(front), events[n], key);
    if key in Life(front) { o, l := ObservedTimes(front, key); }
    if Opens(events[n], key) { l := n; }
    if BeginsAt(events, n, key) { o := n; }
  }

  /** A resolution time is that of the last event that closed the alert. */
  lemma {:induction false} ResolvedWhen(events: seq<Event>, key: Key) returns (i: nat)
    requires key in Life(events) && Life(events)[key].resolvedAt.Some?
    ensures EndsAt(events, i, key) && (forall m: nat | i < m < |events| :: !EndsAt(events, m, key))
    ensures Life(events)[key].resolvedAt == Some(events[i].now)
    decreases |events|
  {
    hide After, Known, ResolvedBy, Opens, Closes;
    NothingYet(key);
    var front, n := events[..|events| - 1], |events| - 1;
    assert events[..n] == front;
    forall m: nat | m < n ensures EndsAt(front, m, key) <==> EndsAt(events, m, key) {
      assert front[..m] == events[..m] && front[m] == events[m];
    }
    StatusIsHistory(front, key);
    EventOnAlert(Life(front), events[n], key);
    ClosingIsNeither(events[n], key);
    OpeningIsARun(events[n], key);
    if EndsAt(events, n, key) {
      i := n;
    } else {
      i := ResolvedWhen(front, key);
    }
  }
}
