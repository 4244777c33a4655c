/** The monitoring orchestrator and the alert routes as the code writes them, over one mutable table. */
module AlertStore {
  import opened Wrappers
  import opened Alerts

  class AlertStore {
    var alerts: Table

    constructor ()
      ensures alerts == map[]
    {
      alerts := map[];
    }

    /** One transaction of the upsert loop. */
    method Upsert(org: string, now: int, alertData: Evaluated) returns (created: bool)
      modifies this
      ensures alerts == Observe(old(alerts), org, now, alertData)
      ensures created <==> Key(org, alertData.dedupeKey) !in old(alerts)
    {
      var key := Key(org, alertData.dedupeKey);
      var existingMapped := if key in alerts then alerts[key].mapped else [];
      var updatedMapped := Latest(existingMapped + [alertData.evidence]);
      if key !in alerts {
        assert [] + [alertData.evidence] == [alertData.evidence];
        alerts := alerts[key := Alert(Open, alertData.evidence, 1, updatedMapped, now, now, None)];
        return true;
      }
      var existing := alerts[key];
      var isResolved := existing.status == Resolved;
      var updated := existing.(
        evidence := alertData.evidence, evidenceCount := existing.evidenceCount + 1,
        mapped := updatedMapped, lastObservedAt := now);
      if isResolved {
        updated := updated.(status := Open, firstObservedAt := now, resolvedAt := None);
      }
      alerts := alerts[key := updated];
      return false;
    }

    /** The upsert loop. */
    method UpsertAll(org: string, now: int, evaluatedAlerts: seq<Evaluated>)
      returns (createdCount: nat, updatedCount: nat)
      modifies this
      ensures alerts == ObserveAll(old(alerts), org, now, evaluatedAlerts)
      ensures createdCount == CreatedBy(old(alerts), org, evaluatedAlerts)
          && createdCount + updatedCount == |evaluatedAlerts|
    {
      hide Observe;
      ghost var start := alerts;
      createdCount, updatedCount := 0, 0;
      assert evaluatedAlerts[..|evaluatedAlerts|] == evaluatedAlerts;
      for i := 0 to |evaluatedAlerts|
        invariant alerts == ObserveAll(start, org, now, evaluatedAlerts[..i])
        invariant createdCount == CreatedBy(start, org, evaluatedAlerts[..i])
        invariant createdCount + updatedCount == i
      {
        assert evaluatedAlerts[..i + 1][..i] == evaluatedAlerts[..i];
        ObserveAllTouches(start, org, now, evaluatedAlerts[..i]);
        var created := Upsert(org, now, evaluatedAlerts[i]);
        if created {
          createdCount := createdCount + 1;
        } else {
          updatedCount := updatedCount + 1;
        }
      }
    }

    /** The auto-resolution loop, over the open alerts as one query returned them. */
    method ResolveMissing(org: string, now: int, currentDedupeKeys: set<string>) returns (resolvedCount: nat)
      modifies this
      ensures alerts == ResolveAll(old(alerts), ToResolve(old(alerts), org, currentDedupeKeys), now)
      ensures resolvedCount == |ToResolve(old(alerts), org, currentDedupeKeys)|
    {
      hide ResolveAll, ToResolve, Unresolved;
      ghost var start := alerts;
      var openAlerts := set k | k in alerts && k.org == org && Unresolved(alerts[k]);
      var left := openAlerts;
      ghost var closed: set<Key> := {};
      resolvedCount := 0;
      ResolveNone(start, now);
      while left != {}
        invariant left <= openAlerts
        invariant forall k :: k in closed <==> k in openAlerts && k !in left && k.dedupeKey !in currentDedupeKeys
        invariant alerts == ResolveAll(start, closed, now)
        invariant resolvedCount == |closed|
        decreases |left|
      {
        var openAlert :| openAlert in left;
        left := left - {openAlert};
        if openAlert.dedupeKey !in currentDedupeKeys {
          Close(openAlert, now, start, closed);
          resolvedCount := resolvedCount + 1;
          closed := closed + {openAlert};
        }
      }
      ToResolveHolds(start, org, currentDedupeKeys);
      assert closed == ToResolve(start, org, currentDedupeKeys);
    }

    /** One update of the auto-resolution loop. */
    method Close(key: Key, now: int, ghost start: Table, ghost closed: set<Key>)
      requires key in start && alerts == ResolveAll(start, closed, now)
      modifies this
      ensures alerts == ResolveAll(start, closed + {key}, now)
    {
      ResolveOneMore(start, closed, key, now);
      alerts := alerts[key := alerts[key].(status := Resolved, resolvedAt := Some(now))];
    }

    /** `evaluateMonitoring`, for a run that completes. */
    method EvaluateMonitoring(org: string, now: int, evaluatedAlerts: seq<Evaluated>) returns (counts: Counts)
      modifies this
      ensures alerts == Evaluate(old(alerts), org, now, evaluatedAlerts)
      ensures counts == RunCounts(old(alerts), org, now, evaluatedAlerts)
    {
      hide ObserveAll, ResolveAll, ToResolve, CreatedBy;
      var currentDedupeKeys := set e | e in evaluatedAlerts :: e.dedupeKey;
      var createdCount, updatedCount := UpsertAll(org, now, evaluatedAlerts);
      var resolvedCount := ResolveMissing(org, now, currentDedupeKeys);
      counts := Counts(createdCount, updatedCount, resolvedCount);
    }

    /** The acknowledge route: how many rows it found. */
    method AcknowledgeAlert(key: Key) returns (count: nat)
      modifies this
      ensures alerts == After(old(alerts), Acknowledge(key)) && count == if key in old(alerts) then 1 else 0
    {
      count := 0;
      if key in alerts {
        alerts := alerts[key := alerts[key].(status := Acknowledged)];
        count := 1;
      }
    }

    /** The resolve route: how many rows it found. */
    method ResolveAlert(key: Key, now: int) returns (count: nat)
      modifies this
      ensures alerts == After(old(alerts), ResolveRoute(key, now)) && count == if key in old(alerts) then 1 else 0
    {
      count := 0;
      if key in alerts {
        alerts := alerts[key := alerts[key].(status := Resolved, resolvedAt := Some(now))];
        count := 1;
      }
    }
  }

  lemma ToResolveHolds(t: Table, org: string, current: set<string>)
    ensures forall k ::
              k in ToResolve(t, org, current) <==> k in t && k.org == org && Unresolved(t[k]) && k.dedupeKey !in current
  {}

  lemma ResolveNone(t: Table, now: int)
    ensures ResolveAll(t, {}, now) == t
  {}

  lemma ResolveOneMore(t: Table, closed: set<Key>, k: Key, now: int)
    requires k in t
    ensures var before := ResolveAll(t, closed, now);
            k in before
            && ResolveAll(t, closed + {k}, now) == before[k := before[k].(status := Resolved, resolvedAt := Some(now))]
  {}
}
