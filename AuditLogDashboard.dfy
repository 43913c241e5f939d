/** The live audit log of sentinel-frontend/src/pages/AuditLogDashboard.tsx:
    the log is seeded from the snapshot query, every poll tick prepends the
    fetched batch and highlights its ids, and a later expiry removes that
    batch's highlights. Interval and timeout callbacks are method calls. */
module AuditLogDashboard {
  import opened Base
  import opened ApiTypes
  import opened MockData
  import opened ServiceApi

  /** The ids occurring in a list of entries. */
  function IdsOf(es: seq<AuditEvent>): (r: set<string>)
    ensures forall e :: e in es ==> e.id in r
    ensures forall id :: id in r ==> exists e :: e in es && e.id == id
  {
    set e | e in es :: e.id
  }

  lemma IdsOfSnoc(es: seq<AuditEvent>, e: AuditEvent)
    ensures IdsOf(es + [e]) == IdsOf(es) + {e.id}
  {
    assert forall x :: x in es + [e] <==> x in es || x == e;
  }

  /** One more element of a prefix adds its id. */
  lemma IdsOfPrefix(es: seq<AuditEvent>, i: nat)
    requires i < |es|
    ensures IdsOf(es[..i + 1]) == IdsOf(es[..i]) + {es[i].id}
  {
    assert es[..i + 1] == es[..i] + [es[i]];
    IdsOfSnoc(es[..i], es[i]);
  }

  /** The page's state: the query's data, the `logs` and `newIds` state
      hooks, whether the polling interval is installed, and how many of the
      interval's `getLatestLogs()` calls are still awaited. */
  class AuditLogView {
    var initialData: Option<seq<AuditEvent>>
    var logs: seq<AuditEvent>
    var newIds: set<string>
    var polling: bool
    var inFlight: nat

    /** The first render: no data yet, empty log, nothing highlighted, no
        interval, nothing awaited. */
    constructor ()
      ensures initialData.None? && logs == [] && newIds == {} && !polling && inFlight == 0
    {
      initialData := None;
      logs := [];
      newIds := {};
      polling := false;
      inFlight := 0;
    }

    /** The query delivers `data`. Both effects depend on the data
        reference only, so nothing happens when it is the one already held.
        Otherwise the seeding effect replaces `logs` with it, and the
        polling effect clears the old interval and installs a new one only
        when there is data (an empty array counts as data). Fetches already
        started keep running. */
    method ReceiveSnapshot(data: Option<seq<AuditEvent>>)
      modifies this
      ensures initialData == data
      ensures data == old(initialData) ==> logs == old(logs) && polling == old(polling)
      ensures data != old(initialData) && data.Some? ==> logs == data.value
      ensures data != old(initialData) && data.None? ==> logs == old(logs)
      ensures data != old(initialData) ==> (polling <==> data.Some?)
      ensures newIds == old(newIds) && inFlight == old(inFlight)
    {
      if data == initialData {
        return;
      }
      initialData := data;
      if data.Some? {
        logs := data.value;
      }
      polling := data.Some?;
    }

    /** The interval fires: only an installed interval does, and it starts
        one `getLatestLogs()` call. Nothing else changes until that call
        settles. */
    method IntervalFires() returns (started: bool)
      modifies this
      ensures started == polling
      ensures inFlight == old(inFlight) + (if started then 1 else 0)
      ensures initialData == old(initialData) && logs == old(logs) && newIds == old(newIds) && polling == old(polling)
    {
      started := polling;
      if started {
        inFlight := inFlight + 1;
      }
    }

    /** An awaited `getLatestLogs()` call settles; `fetched` is None when it
        rejected. The callback does not look at the interval again, so a
        call started before the interval was cleared still prepends its
        batch (no de-duplication) and highlights its ids. A rejection is
        ignored. Returns the batch whose highlights the matching timeout
        later removes. */
    method FetchSettled(fetched: Option<seq<AuditEvent>>) returns (batch: seq<AuditEvent>)
      requires inFlight > 0
      modifies this
      ensures inFlight == old(inFlight) - 1
      ensures initialData == old(initialData) && polling == old(polling)
      ensures fetched.None? ==> batch == [] && logs == old(logs) && newIds == old(newIds)
      ensures fetched.Some? ==>
        && batch == fetched.value
        && logs == batch + old(logs)
        && |logs| == |old(logs)| + |batch|
        && newIds == old(newIds) + IdsOf(batch)
    {
      inFlight := inFlight - 1;
      batch := [];
      if fetched.None? {
        return;
      }
      var newEntries := fetched.value;
      logs := newEntries + logs;
      var next := newIds;
      var i := 0;
      while i < |newEntries|
        modifies {}
        invariant 0 <= i <= |newEntries|
        invariant next == old(newIds) + IdsOf(newEntries[..i])
      {
        IdsOfPrefix(newEntries, i);
        next := next + {newEntries[i].id};
        i := i + 1;
      }
      assert newEntries[..i] == newEntries;
      newIds := next;
      batch := newEntries;
    }

    /** One interval tick whose fetch settles before anything else happens:
        without an interval nothing happens; otherwise as `FetchSettled`. */
    method Tick(fetched: Option<seq<AuditEvent>>) returns (batch: seq<AuditEvent>)
      modifies this
      ensures initialData == old(initialData) && polling == old(polling) && inFlight == old(inFlight)
      ensures !old(polling) || fetched.None? ==> batch == [] && logs == old(logs) && newIds == old(newIds)
      ensures old(polling) && fetched.Some? ==>
        && batch == fetched.value
        && logs == batch + old(logs)
        && |logs| == |old(logs)| + |batch|
        && newIds == old(newIds) + IdsOf(batch)
    {
      var started := IntervalFires();
      if !started {
        batch := [];
        return;
      }
      batch := FetchSettled(fetched);
    }

    /** The highlight timeout of one batch: removes exactly that batch's ids
        and touches nothing else. The timeout is never cleared, so it runs
        whether or not the interval still is installed. */
    method Expire(batch: seq<AuditEvent>)
      modifies this
      ensures newIds == old(newIds) - IdsOf(batch)
      ensures logs == old(logs) && polling == old(polling) && initialData == old(initialData) && inFlight == old(inFlight)
    {
      var next := newIds;
      var i := 0;
      while i < |batch|
        modifies {}
        invariant 0 <= i <= |batch|
        invariant next == old(newIds) - IdsOf(batch[..i])
      {
        IdsOfPrefix(batch, i);
        next := next - {batch[i].id};
        i := i + 1;
      }
      assert batch[..i] == batch;
      newIds := next;
    }

    /** The effect's cleanup: the interval is cleared and no tick follows;
        calls already started are not cancelled. */
    method Teardown()
      modifies this
      ensures !polling
      ensures logs == old(logs) && newIds == old(newIds) && initialData == old(initialData) && inFlight == old(inFlight)
    {
      polling := false;
    }

    /** A tick followed by its highlight timeout: the batch stays in the log,
        and the highlights are back to what they were when none of the
        batch's ids was highlighted before. */
    method TickThenExpire(fetched: Option<seq<AuditEvent>>) returns (batch: seq<AuditEvent>)
      modifies this
      ensures batch == (if old(polling) && fetched.Some? then fetched.value else [])
      ensures logs == batch + old(logs)
      ensures old(newIds) !! IdsOf(batch) ==> newIds == old(newIds)
      ensures initialData == old(initialData) && polling == old(polling) && inFlight == old(inFlight)
    {
      batch := Tick(fetched);
      Expire(batch);
    }

    /** The interval fires, the page clears it (for instance because the
        query's data changed), and only then the call settles: its batch is
        still prepended. */
    method TeardownDuringFetch(fetched: seq<AuditEvent>)
      requires polling
      modifies this
      ensures !polling && inFlight == old(inFlight)
      ensures logs == fetched + old(logs)
      ensures newIds == old(newIds) + IdsOf(fetched)
    {
      var started := IntervalFires();
      Teardown();
      var batch := FetchSettled(Some(fetched));
    }
  }

  // ----------------------------------------------------- unique ids

  /** No two entries share an id. */
  predicate UniqueIds(logs: seq<AuditEvent>) {
    forall i, j :: 0 <= i < j < |logs| ==> logs[i].id != logs[j].id
  }

  /** Every id has the shape of a seed id or is a live id the generator has
      already issued. */
  predicate IdsIssued(logs: seq<AuditEvent>, counter: nat) {
    forall i :: 0 <= i < |logs| ==> IssuedBy(logs[i].id, counter)
  }

  /** The seed log starts with unique ids, all of them seed ids. */
  lemma SeedLogUnique()
    ensures UniqueIds(MockAuditLog) && IdsIssued(MockAuditLog, InitialCounter)
  {
    SeedIdsShape();
  }

  /** Two lists with unique ids and no id in common concatenate to a list
      with unique ids. */
  lemma UniqueConcat(a: seq<AuditEvent>, b: seq<AuditEvent>)
    requires UniqueIds(a) && UniqueIds(b)
    requires forall i, k :: 0 <= i < |a| && 0 <= k < |b| ==> a[i].id != b[k].id
    ensures UniqueIds(a + b)
  {
    var all := a + b;
    forall i, j | 0 <= i < j < |all|
      ensures all[i].id != all[j].id
    {
      if j < |a| {
        assert all[i] == a[i] && all[j] == a[j];
      } else if i < |a| {
        assert all[i] == a[i] && all[j] == b[j - |a|];
      } else {
        assert all[i] == b[i - |a|] && all[j] == b[j - |a|];
      }
    }
  }

  /** The id of a counter value not yet reached is not in the log. */
  lemma LiveIdNotInLog(m: nat, logs: seq<AuditEvent>, counter: nat)
    requires InitialCounter <= counter < m
    requires IdsIssued(logs, counter)
    ensures forall k :: 0 <= k < |logs| ==> LiveLogId(m) != logs[k].id
  {
    forall k | 0 <= k < |logs|
      ensures LiveLogId(m) != logs[k].id
    {
      FreshLiveId(m, logs[k].id, counter);
    }
  }

  /** The generator's next batch has unique ids. */
  lemma BatchIdsDistinct(counter: nat, batch: seq<AuditEvent>)
    requires counter >= InitialCounter
    requires IdsAfter(batch, counter)
    ensures UniqueIds(batch)
  {
    LiveLogIdsDistinct(counter + 1, counter + 2);
  }

  /** None of the next batch's ids is already in the log. */
  lemma BatchIdsFresh(logs: seq<AuditEvent>, counter: nat, batch: seq<AuditEvent>)
    requires counter >= InitialCounter
    requires IdsIssued(logs, counter)
    requires IdsAfter(batch, counter)
    ensures forall i, k :: 0 <= i < |batch| && 0 <= k < |logs| ==> batch[i].id != logs[k].id
  {
    LiveIdNotInLog(counter + 1, logs, counter);
    LiveIdNotInLog(counter + 2, logs, counter);
  }

  /** After the prepend every id is issued by the advanced counter. */
  lemma {:induction false} PrependKeepsIdsIssued(logs: seq<AuditEvent>, counter: nat, batch: seq<AuditEvent>)
    requires counter >= InitialCounter
    requires IdsIssued(logs, counter)
    requires IdsAfter(batch, counter)
    ensures IdsIssued(batch + logs, counter + |batch|)
  {
    var all := batch + logs;
    forall i | 0 <= i < |all|
      ensures IssuedBy(all[i].id, counter + |batch|)
    {
      if i == 0 {
        LiveIdIssued(counter + 1, counter + |batch|);
      } else if i < |batch| {
        LiveIdIssued(counter + 2, counter + |batch|);
      } else {
        assert all[i] == logs[i - |batch|];
        IssuedByLater(logs[i - |batch|].id, counter, counter + |batch|);
      }
    }
  }

  /** Prepending the generator's next batch keeps ids unique although
      nothing is de-duplicated: live ids start above 100, so they differ
      from the seed ids and from each other. */
  lemma PrependKeepsIdsUnique(logs: seq<AuditEvent>, counter: nat, batch: seq<AuditEvent>)
    requires counter >= InitialCounter
    requires UniqueIds(logs) && IdsIssued(logs, counter)
    requires IdsAfter(batch, counter)
    ensures UniqueIds(batch + logs) && IdsIssued(batch + logs, counter + |batch|)
  {
    BatchIdsDistinct(counter, batch);
    BatchIdsFresh(logs, counter, batch);
    UniqueConcat(batch, logs);
    PrependKeepsIdsIssued(logs, counter, batch);
  }

  /** One poll of the page against the mock service: `getLatestLogs()` runs
      the generator and the tick prepends its batch. Ids stay unique and
      issued. */
  method PollOnce(view: AuditLogView, gen: LiveLogGenerator, countDraw: real, first: LiveDraws, second: LiveDraws, now1: string, now2: string)
    returns (batch: seq<AuditEvent>)
    requires view.polling
    requires ValidDraws(first) && ValidDraws(second)
    requires gen.logCounter >= InitialCounter
    requires UniqueIds(view.logs) && IdsIssued(view.logs, gen.logCounter)
    modifies view, gen
    ensures view.logs == batch + old(view.logs) && 1 <= |batch| <= 2
    ensures gen.logCounter == old(gen.logCounter) + |batch|
    ensures UniqueIds(view.logs) && IdsIssued(view.logs, gen.logCounter)
  {
    ghost var counter := gen.logCounter;
    var entries := GetLatestLogs(gen, countDraw, first, second, now1, now2);
    LatestBatchIds(counter, countDraw, first, second, now1, now2);
    PrependKeepsIdsUnique(view.logs, counter, entries);
    batch := view.Tick(Some(entries));
  }
}
