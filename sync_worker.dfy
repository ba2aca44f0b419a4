/**
 * The background sync worker's scheduling state (backend/sync_worker.py).
 *
 * The worker keeps a `running` flag and a map from provider id to the time
 * of that provider's last successful sync. Every check it snapshots the
 * providers with their effective interval, selects the ones that are due,
 * and syncs them one at a time, recording a timestamp only after a
 * successful sync. Time is an integer clock in seconds; the outcome of each
 * sync call (which runs code outside this model) is a parameter.
 */
module SyncScheduler {
  import opened Wrappers

  /** A provider row as read at the start of a check (line 86). */
  datatype ProviderRow = ProviderRow(id: int, name: string, syncEnabled: bool, syncInterval: Option<int>)

  /** The snapshot the selection works on (lines 89-94). */
  datatype ProviderInfo = ProviderInfo(id: int, name: string, syncEnabled: bool, interval: int)

  /** A provider row as re-read at sync time (line 148). */
  datatype DbProvider = DbProvider(syncEnabled: bool, kind: string)

  /** What a sync or push call did: finished (and committed) at a time, or raised. */
  datatype CallOutcome = Completed(finishedAt: int) | Raised

  /** What `sync_providers` did with one id. */
  datatype Disposition =
    | Missing           // the provider no longer exists
    | Disabled          // sync was switched off since the selection
    | NoTarget          // a compat provider while no LiteLLM URL is configured
    | Synced(at: int)   // success: the timestamp recorded
    | Failed            // the call raised; the session is rolled back

  /** The provider's own interval when set and non-zero, else the global one. */
  function EffectiveInterval(own: Option<int>, global: int): int
  {
    if own.Some? && own.value != 0 then own.value else global
  }

  function Snapshot(row: ProviderRow, global: int): (r: ProviderInfo)
    ensures r.id == row.id && r.name == row.name && r.syncEnabled == row.syncEnabled
    ensures row.syncInterval.Some? && row.syncInterval.value != 0 ==> r.interval == row.syncInterval.value
    ensures row.syncInterval.None? || row.syncInterval == Some(0) ==> r.interval == global
  {
    ProviderInfo(row.id, row.name, row.syncEnabled, EffectiveInterval(row.syncInterval, global))
  }

  function Snapshots(rows: seq<ProviderRow>, global: int): (r: seq<ProviderInfo>)
    ensures |r| == |rows|
    ensures forall i :: 0 <= i < |rows| ==> r[i] == Snapshot(rows[i], global)
  {
    seq(|rows|, i requires 0 <= i < |rows| => Snapshot(rows[i], global))
  }

  /** Whether a provider is selected at time `now` (lines 108-120). */
  predicate IsDue(info: ProviderInfo, last: map<int, int>, now: int)
  {
    info.syncEnabled && info.interval != 0 &&
    (info.id !in last || now - last[info.id] >= info.interval)
  }

  /** The ids selected, in provider order. */
  function DueIds(infos: seq<ProviderInfo>, last: map<int, int>, now: int): seq<int>
  {
    if infos == [] then []
    else
      var prev := DueIds(infos[..|infos| - 1], last, now);
      if IsDue(infos[|infos| - 1], last, now) then prev + [infos[|infos| - 1].id] else prev
  }

  /** Python truthiness of the configured LiteLLM base URL (line 169); "" stands for unset. */
  function Classify(row: Option<DbProvider>, baseUrl: string, outcome: CallOutcome): (r: Disposition)
    ensures r.Synced? <==> row.Some? && row.value.syncEnabled
                            && !(row.value.kind in {"compat", "completion"} && baseUrl == "")
                            && outcome.Completed?
    ensures r.Synced? ==> r.at == outcome.finishedAt
  {
    match row
    case None => Missing
    case Some(p) =>
      if !p.syncEnabled then Disabled
      else if p.kind in {"compat", "completion"} && baseUrl == "" then NoTarget
      else match outcome
        case Completed(t) => Synced(t)
        case Raised => Failed
  }

  /** The disposition of the id at position `i` of the list being synced. */
  function DispositionAt(ids: seq<int>, i: nat, db: map<int, DbProvider>, baseUrl: string, outcomes: nat -> CallOutcome): Disposition
    requires i < |ids|
  {
    Classify(if ids[i] in db then Some(db[ids[i]]) else None, baseUrl, outcomes(i))
  }

  /** The map after syncing `ids` in order: each success records its own time. */
  function RecordSyncs(last: map<int, int>, ids: seq<int>, db: map<int, DbProvider>, baseUrl: string, outcomes: nat -> CallOutcome): map<int, int>
  {
    if ids == [] then last
    else
      var n := |ids| - 1;
      var prev := RecordSyncs(last, ids[..n], db, baseUrl, outcomes);
      match DispositionAt(ids, n, db, baseUrl, outcomes)
      case Synced(t) => prev[ids[n] := t]
      case _ => prev
  }

  /** One pass of the main loop: what the worker reads and what its calls return. */
  datatype Check = Check(
    rows: seq<ProviderRow>,               // get_all_providers
    global: int,                          // the configured global interval
    baseUrl: string,                      // litellm_base_url, "" when unset
    now: int,                             // the clock at selection time
    db: map<int, DbProvider>,             // get_provider_by_id at sync time
    outcomes: nat -> CallOutcome,         // the sync call at each position
    signalled: bool)                      // SIGTERM/SIGINT arrives during this pass

  /** The timestamps after one pass. */
  function AfterCheck(last: map<int, int>, c: Check): map<int, int>
  {
    RecordSyncs(last, DueIds(Snapshots(c.rows, c.global), last, c.now), c.db, c.baseUrl, c.outcomes)
  }

  /** The timestamps after the loop has run over `checks`, stopping after the first signalled pass. */
  function AfterRun(last: map<int, int>, checks: seq<Check>): map<int, int>
    decreases checks
  {
    if checks == [] then last
    else
      var next := AfterCheck(last, checks[0]);
      if checks[0].signalled then next else AfterRun(next, checks[1..])
  }

  function Signalled(checks: seq<Check>): bool
  {
    exists i :: 0 <= i < |checks| && checks[i].signalled
  }

  class SyncWorker {
    var running: bool
    var lastSyncTimes: map<int, int>

    constructor ()
      ensures running && lastSyncTimes == map[]
    {
      running := true;
      lastSyncTimes := map[];
    }

    /** The `providers_info` list (lines 85-94). */
    method ProviderSnapshots(rows: seq<ProviderRow>, global: int) returns (infos: seq<ProviderInfo>)
      ensures infos == Snapshots(rows, global)
    {
      infos := [];
      for i := 0 to |rows|
        invariant infos == Snapshots(rows[..i], global)
      {
        var p := rows[i];
        var interval := if p.syncInterval.Some? && p.syncInterval.value != 0 then p.syncInterval.value else global;
        infos := infos + [ProviderInfo(p.id, p.name, p.syncEnabled, interval)];
      }
      assert rows[..|rows|] == rows;
    }

    /** The `providers_to_sync` list (lines 105-120). */
    method DueProviders(infos: seq<ProviderInfo>, now: int) returns (due: seq<int>)
      ensures due == DueIds(infos, lastSyncTimes, now)
    {
      due := [];
      for i := 0 to |infos|
        invariant due == DueIds(infos[..i], lastSyncTimes, now)
      {
        assert infos[..i + 1][..i] == infos[..i];
        var info := infos[i];
        if !info.syncEnabled {
          continue;
        }
        var interval := info.interval;
        if interval == 0 {
          continue;
        }
        if info.id !in lastSyncTimes || now - lastSyncTimes[info.id] >= interval {
          due := due + [info.id];
        }
      }
      assert infos[..|infos|] == infos;
    }

    /** `sync_providers` (lines 140-212): one provider at a time, in list order. */
    method SyncProviders(ids: seq<int>, db: map<int, DbProvider>, baseUrl: string, outcomes: nat -> CallOutcome)
      modifies this
      ensures lastSyncTimes == RecordSyncs(old(lastSyncTimes), ids, db, baseUrl, outcomes)
      ensures running == old(running)
    {
      if ids == [] {
        return;
      }
      ghost var start := lastSyncTimes;
      for i := 0 to |ids|
        invariant lastSyncTimes == RecordSyncs(start, ids[..i], db, baseUrl, outcomes)
        invariant running == old(running)
      {
        assert ids[..i + 1][..i] == ids[..i];
        var id := ids[i];
        if id !in db {
          continue;
        }
        var provider := db[id];
        if !provider.syncEnabled {
          continue;
        }
        if provider.kind in {"compat", "completion"} {
          if baseUrl != "" {
            match outcomes(i)
            case Completed(t) =>
              lastSyncTimes := lastSyncTimes[id := t];
            case Raised =>
          }
          continue;
        }
        match outcomes(i)
        case Completed(t) =>
          lastSyncTimes := lastSyncTimes[id := t];
        case Raised =>
      }
      assert ids[..|ids|] == ids;
    }

    /** `handle_shutdown` (lines 214-217). */
    method HandleShutdown()
      modifies this
      ensures !running && lastSyncTimes == old(lastSyncTimes)
    {
      running := false;
    }

    /** One pass of the main loop (lines 80-125). */
    method RunCheck(c: Check)
      modifies this
      ensures lastSyncTimes == AfterCheck(old(lastSyncTimes), c)
      ensures running == old(running)
    {
      var infos := ProviderSnapshots(c.rows, c.global);
      var due := DueProviders(infos, c.now);
      if due != [] {
        SyncProviders(due, c.db, c.baseUrl, c.outcomes);
      }
    }

    /** The main loop (lines 77-132): passes run while `running` holds. */
    method Run(checks: seq<Check>)
      modifies this
      ensures old(running) ==> lastSyncTimes == AfterRun(old(lastSyncTimes), checks)
      ensures !old(running) ==> lastSyncTimes == old(lastSyncTimes)
      ensures running <==> old(running) && !Signalled(checks)
    {
      if !running {
        return;
      }
      ghost var goal := AfterRun(lastSyncTimes, checks);
      var i := 0;
      while running && i < |checks|
        invariant 0 <= i <= |checks|
        invariant running ==> goal == AfterRun(lastSyncTimes, checks[i..]) && !Signalled(checks[..i])
        invariant !running ==> goal == lastSyncTimes && Signalled(checks)
        decreases |checks| - i
      {
        assert checks[i..][0] == checks[i] && checks[i..][1..] == checks[i + 1..];
        RunCheck(checks[i]);
        if checks[i].signalled {
          HandleShutdown();
        } else {
          assert checks[..i + 1] == checks[..i] + [checks[i]];
        }
        i := i + 1;
      }
      if running {
        assert checks[i..] == [];
        assert checks[..i] == checks;
      }
    }
  }

  // ---------------------------------------------------------------------
  // Properties of the selection
  // ---------------------------------------------------------------------

  /** An id is selected iff some snapshot with that id is due. */
  lemma {:induction false} DueIdsExactly(infos: seq<ProviderInfo>, last: map<int, int>, now: int, id: int)
    ensures id in DueIds(infos, last, now) <==> exists i :: 0 <= i < |infos| && infos[i].id == id && IsDue(infos[i], last, now)
  {
    if infos != [] {
      var n := |infos| - 1;
      DueIdsExactly(infos[..n], last, now, id);
      if exists i :: 0 <= i < |infos| && infos[i].id == id && IsDue(infos[i], last, now) {
        var i :| 0 <= i < |infos| && infos[i].id == id && IsDue(infos[i], last, now);
        if i < n {
          assert infos[..n][i] == infos[i];
        }
      }
      if exists i :: 0 <= i < n && infos[..n][i].id == id && IsDue(infos[..n][i], last, now) {
        var i :| 0 <= i < n && infos[..n][i].id == id && IsDue(infos[..n][i], last, now);
        assert infos[i] == infos[..n][i];
      }
    }
  }

  /** Selection keeps the provider order: selecting over a concatenation concatenates the selections. */
  lemma {:induction false} DueIdsAppend(a: seq<ProviderInfo>, b: seq<ProviderInfo>, last: map<int, int>, now: int)
    ensures DueIds(a + b, last, now) == DueIds(a, last, now) + DueIds(b, last, now)
  {
    if b != [] {
      var n := |b| - 1;
      assert (a + b)[..|a + b| - 1] == a + b[..n];
      assert (a + b)[|a + b| - 1] == b[n];
      DueIdsAppend(a, b[..n], last, now);
    } else {
      assert a + b == a;
    }
  }

  /**
   * With distinct ids, a provider that is disabled, or whose effective
   * interval is 0, is never selected; an enabled provider with a non-zero
   * interval is selected iff it was never synced or its interval has elapsed.
   */
  lemma SelectionRule(infos: seq<ProviderInfo>, last: map<int, int>, now: int, k: int)
    requires 0 <= k < |infos|
    requires forall i, j :: 0 <= i < j < |infos| ==> infos[i].id != infos[j].id
    ensures !infos[k].syncEnabled ==> infos[k].id !in DueIds(infos, last, now)
    ensures infos[k].interval == 0 ==> infos[k].id !in DueIds(infos, last, now)
    ensures infos[k].syncEnabled && infos[k].interval != 0 ==>
      (infos[k].id in DueIds(infos, last, now) <==>
        infos[k].id !in last || now - last[infos[k].id] >= infos[k].interval)
  {
    DueIdsExactly(infos, last, now, infos[k].id);
    if infos[k].id in DueIds(infos, last, now) {
      var i :| 0 <= i < |infos| && infos[i].id == infos[k].id && IsDue(infos[i], last, now);
      assert i == k;
    }
  }

  // ---------------------------------------------------------------------
  // Properties of the timestamp bookkeeping
  // ---------------------------------------------------------------------

  predicate SyncedAt(ids: seq<int>, i: nat, db: map<int, DbProvider>, baseUrl: string, outcomes: nat -> CallOutcome)
    requires i < |ids|
  {
    DispositionAt(ids, i, db, baseUrl, outcomes).Synced?
  }

  /**
   * An entry changes only through a successful sync: an id none of whose
   * positions synced keeps its entry (or its absence), and every entry that
   * is new or changed is the time of a successful sync of that id.
   */
  lemma {:induction false} OnlySuccessWrites(last: map<int, int>, ids: seq<int>, db: map<int, DbProvider>, baseUrl: string, outcomes: nat -> CallOutcome, id: int)
    ensures (forall i :: 0 <= i < |ids| && ids[i] == id ==> !SyncedAt(ids, i, db, baseUrl, outcomes)) ==>
      (id in RecordSyncs(last, ids, db, baseUrl, outcomes) <==> id in last) &&
      (id in last ==> RecordSyncs(last, ids, db, baseUrl, outcomes)[id] == last[id])
    ensures id in RecordSyncs(last, ids, db, baseUrl, outcomes) && (id !in last || RecordSyncs(last, ids, db, baseUrl, outcomes)[id] != last[id]) ==>
      exists i :: 0 <= i < |ids| && ids[i] == id && DispositionAt(ids, i, db, baseUrl, outcomes) == Synced(RecordSyncs(last, ids, db, baseUrl, outcomes)[id])
  {
    if ids != [] {
      var n := |ids| - 1;
      var pre := ids[..n];
      OnlySuccessWrites(last, pre, db, baseUrl, outcomes, id);
      forall i | 0 <= i < n
        ensures DispositionAt(pre, i, db, baseUrl, outcomes) == DispositionAt(ids, i, db, baseUrl, outcomes)
      {
        assert pre[i] == ids[i];
      }
    }
  }

  /** Entries are never removed. */
  lemma {:induction false} RecordSyncsKeepsKeys(last: map<int, int>, ids: seq<int>, db: map<int, DbProvider>, baseUrl: string, outcomes: nat -> CallOutcome)
    ensures last.Keys <= RecordSyncs(last, ids, db, baseUrl, outcomes).Keys
  {
    if ids != [] {
      RecordSyncsKeepsKeys(last, ids[..|ids| - 1], db, baseUrl, outcomes);
    }
  }

  /**
   * A provider that was due and whose sync failed (or was skipped) stays
   * due at any later check, as long as its snapshot is the same.
   */
  lemma FailedStaysDue(info: ProviderInfo, last: map<int, int>, now: int, later: int,
                       ids: seq<int>, db: map<int, DbProvider>, baseUrl: string, outcomes: nat -> CallOutcome)
    requires IsDue(info, last, now) && now <= later
    requires forall i :: 0 <= i < |ids| && ids[i] == info.id ==> !SyncedAt(ids, i, db, baseUrl, outcomes)
    ensures IsDue(info, RecordSyncs(last, ids, db, baseUrl, outcomes), later)
  {
    OnlySuccessWrites(last, ids, db, baseUrl, outcomes, info.id);
  }

  /**
   * The last success of an id in the list decides its entry: when position
   * `i` synced and the id does not occur again after it, the map holds the
   * time at which that sync finished.
   */
  lemma {:induction false} LastSuccessRecorded(last: map<int, int>, ids: seq<int>, db: map<int, DbProvider>, baseUrl: string, outcomes: nat -> CallOutcome, i: nat)
    requires i < |ids| && SyncedAt(ids, i, db, baseUrl, outcomes)
    requires forall j :: i < j < |ids| ==> ids[j] != ids[i]
    ensures ids[i] in RecordSyncs(last, ids, db, baseUrl, outcomes)
    ensures Synced(RecordSyncs(last, ids, db, baseUrl, outcomes)[ids[i]]) == DispositionAt(ids, i, db, baseUrl, outcomes)
  {
    var n := |ids| - 1;
    if i < n {
      var pre := ids[..n];
      assert pre[i] == ids[i];
      assert DispositionAt(pre, i, db, baseUrl, outcomes) == DispositionAt(ids, i, db, baseUrl, outcomes);
      LastSuccessRecorded(last, pre, db, baseUrl, outcomes, i);
      assert ids[n] != ids[i];
    }
  }

  /** A compat or completion provider is not touched while no LiteLLM URL is configured. */
  lemma CompatWithoutTargetUntouched(last: map<int, int>, ids: seq<int>, db: map<int, DbProvider>, outcomes: nat -> CallOutcome, id: int)
    requires id in db && db[id].kind in {"compat", "completion"}
    ensures (id in RecordSyncs(last, ids, db, "", outcomes) <==> id in last)
    ensures id in last ==> RecordSyncs(last, ids, db, "", outcomes)[id] == last[id]
  {
    OnlySuccessWrites(last, ids, db, "", outcomes, id);
  }

  /** Once a signal has been handled, later passes change nothing. */
  lemma {:induction false} SignalStopsLoop(last: map<int, int>, a: seq<Check>, c: Check, b: seq<Check>)
    requires !Signalled(a) && c.signalled
    ensures AfterRun(last, a + [c] + b) == AfterRun(last, a + [c])
    decreases a
  {
    if a == [] {
      assert (a + [c] + b)[0] == c && (a + [c])[0] == c;
    } else {
      assert (a + [c] + b)[0] == a[0] && (a + [c])[0] == a[0];
      assert !a[0].signalled;
      assert (a + [c] + b)[1..] == a[1..] + [c] + b;
      assert (a + [c])[1..] == a[1..] + [c];
      assert !Signalled(a[1..]) by {
        forall i | 0 <= i < |a[1..]| ensures !a[1..][i].signalled {
          assert a[1..][i] == a[i + 1];
        }
      }
      SignalStopsLoop(AfterCheck(last, a[0]), a[1..], c, b);
    }
  }
}
