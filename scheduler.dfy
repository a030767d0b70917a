/** The extension's timers: the debounced commit scheduled on every edit or
    save of a file (`commitTimers`, one per path), and the periodic sync
    (`syncInterval`). The host's timer table is part of the state, so that
    `setTimeout`, `setInterval`, `clearTimeout` and `clearInterval` are
    updates of it and a timer firing is an explicit event. */
module Scheduler {
  import opened Options

  /** The floor of the debounce delay, in milliseconds. */
  const MinDebounceMs: int := 5000

  /** `Math.max(5000, debounceSeconds * 1000)`. */
  function DebounceDelayMs(debounceSeconds: int): (ms: int)
    ensures ms >= MinDebounceMs && ms >= debounceSeconds * 1000
    ensures ms == MinDebounceMs || ms == debounceSeconds * 1000
  {
    if debounceSeconds * 1000 > MinDebounceMs then debounceSeconds * 1000 else MinDebounceMs
  }

  /** The configured delay counts from five seconds on; anything shorter is
      raised to five seconds. */
  lemma DebounceDelayFloor(debounceSeconds: int)
    ensures debounceSeconds >= 5 ==> DebounceDelayMs(debounceSeconds) == debounceSeconds * 1000
    ensures debounceSeconds <= 5 ==> DebounceDelayMs(debounceSeconds) == MinDebounceMs
  {
  }

  /** The period of the sync timer, `intervalMinutes * 60 * 1000`. */
  function SyncPeriodMs(intervalMinutes: int): int {
    intervalMinutes * 60 * 1000
  }

  /** The part of a `TextDocument` the scheduler looks at. */
  datatype Document = Document(scheme: string, fileName: string)

  /** What a timer runs when it fires: `autoCommit(document)` followed by the
      removal of the path's entry, or `autoSync()`. */
  datatype Callback = CommitDocument(document: Document) | PeriodicSync

  /** A timer armed in the host: its callback, its delay and whether it
      repeats (`setInterval`) or fires once (`setTimeout`). */
  datatype Timer = Timer(callback: Callback, delayMs: int, repeating: bool)

  /** `t` is a pending debounced commit of path `p`. */
  predicate IsCommitTimerFor(t: Timer, p: string) {
    !t.repeating && t.callback.CommitDocument? && t.callback.document.fileName == p
  }

  /** The handles of the armed commit timers of path `p`. */
  function PendingCommits(armed: map<nat, Timer>, p: string): set<nat> {
    set h | h in armed && IsCommitTimerFor(armed[h], p)
  }

  /** The handles of the armed repeating timers. */
  function RepeatingTimers(armed: map<nat, Timer>): set<nat> {
    set h | h in armed && armed[h].repeating
  }

  /** The module's variables agree with the host's timer table: each entry of
      `commitTimers` names an armed one-shot commit timer of its own path,
      each armed one-shot timer is the entry of its path, the only repeating
      timer is the one `syncInterval` names (which, once cancelled, names no
      armed timer), and handles are never reused. */
  predicate Consistent(commitTimers: map<string, nat>, armed: map<nat, Timer>, syncInterval: Option<nat>, nextHandle: nat) {
    && (forall p :: p in commitTimers ==> commitTimers[p] in armed && IsCommitTimerFor(armed[commitTimers[p]], p))
    && (forall h :: h in armed && !armed[h].repeating ==>
          && armed[h].callback.CommitDocument?
          && armed[h].callback.document.fileName in commitTimers
          && commitTimers[armed[h].callback.document.fileName] == h)
    && (forall h :: h in armed && armed[h].repeating ==> armed[h].callback == PeriodicSync && syncInterval == Some(h))
    && (syncInterval.Some? && syncInterval.value in armed ==> armed[syncInterval.value].repeating)
    && (forall h :: h in armed ==> h < nextHandle)
    && (syncInterval.Some? ==> syncInterval.value < nextHandle)
  }

  /** At most one debounced commit is pending per path: exactly the one
      `commitTimers` names, if any. */
  lemma OneCommitTimerPerPath(commitTimers: map<string, nat>, armed: map<nat, Timer>, syncInterval: Option<nat>, nextHandle: nat, p: string)
    requires Consistent(commitTimers, armed, syncInterval, nextHandle)
    ensures PendingCommits(armed, p) == if p in commitTimers then {commitTimers[p]} else {}
  {
    var pending := PendingCommits(armed, p);
    if p in commitTimers {
      assert commitTimers[p] in pending;
    }
    forall h | h in pending ensures p in commitTimers && h == commitTimers[p] {
      assert armed[h].callback.document.fileName == p;
    }
  }

  /** Replacing the pending commit of path `p` by a new timer under the next
      handle keeps the variables and the timer table in agreement. */
  lemma ReplaceCommitTimer(commitTimers: map<string, nat>, armed: map<nat, Timer>, syncInterval: Option<nat>, nextHandle: nat, p: string, t: Timer)
    requires Consistent(commitTimers, armed, syncInterval, nextHandle)
    requires IsCommitTimerFor(t, p)
    ensures var cleared := armed - (if p in commitTimers then {commitTimers[p]} else {});
      Consistent(commitTimers[p := nextHandle], cleared[nextHandle := t], syncInterval, nextHandle + 1)
  {
    var cleared := armed - (if p in commitTimers then {commitTimers[p]} else {});
    var timers, table := commitTimers[p := nextHandle], cleared[nextHandle := t];
    forall q | q in timers ensures timers[q] in table && IsCommitTimerFor(table[timers[q]], q) {
      if q != p {
        assert commitTimers[q] != nextHandle;
        assert p in commitTimers ==> commitTimers[q] != commitTimers[p];
      }
    }
    forall h | h in table && !table[h].repeating
      ensures table[h].callback.CommitDocument? && table[h].callback.document.fileName in timers
      ensures timers[table[h].callback.document.fileName] == h
    {
      if h != nextHandle {
        var q := armed[h].callback.document.fileName;
        assert commitTimers[q] == h;
        assert q != p;
      }
    }
  }

  /** After the replacement the path has exactly the new timer pending, and
      every other path keeps what it had. */
  lemma ReplaceKeepsOtherPaths(commitTimers: map<string, nat>, armed: map<nat, Timer>, syncInterval: Option<nat>, nextHandle: nat, p: string, t: Timer)
    requires Consistent(commitTimers, armed, syncInterval, nextHandle)
    requires IsCommitTimerFor(t, p)
    ensures var table := (armed - (if p in commitTimers then {commitTimers[p]} else {}))[nextHandle := t];
      && PendingCommits(table, p) == {nextHandle}
      && forall q :: q != p ==> PendingCommits(table, q) == PendingCommits(armed, q)
  {
    var timers := commitTimers[p := nextHandle];
    var table := (armed - (if p in commitTimers then {commitTimers[p]} else {}))[nextHandle := t];
    ReplaceCommitTimer(commitTimers, armed, syncInterval, nextHandle, p, t);
    OneCommitTimerPerPath(timers, table, syncInterval, nextHandle + 1, p);
    forall q | q != p ensures PendingCommits(table, q) == PendingCommits(armed, q) {
      OneCommitTimerPerPath(commitTimers, armed, syncInterval, nextHandle, q);
      OneCommitTimerPerPath(timers, table, syncInterval, nextHandle + 1, q);
    }
  }

  /** At most one periodic sync is armed: the one `syncInterval` names. */
  lemma OneSyncTimer(commitTimers: map<string, nat>, armed: map<nat, Timer>, syncInterval: Option<nat>, nextHandle: nat)
    requires Consistent(commitTimers, armed, syncInterval, nextHandle)
    ensures RepeatingTimers(armed) <= if syncInterval.Some? then {syncInterval.value} else {}
  {
  }

  /** The timer state of the extension host running this extension. */
  class Timers {
    var commitTimers: map<string, nat>
    var syncInterval: Option<nat>
    var armed: map<nat, Timer>
    var nextHandle: nat

    ghost predicate Valid()
      reads this
    {
      Consistent(commitTimers, armed, syncInterval, nextHandle)
    }

    /** The state when the extension is loaded: no timers. */
    constructor ()
      ensures Valid()
      ensures commitTimers == map[] && syncInterval == None && armed == map[]
    {
      commitTimers, syncInterval, armed, nextHandle := map[], None, map[], 0;
    }

    /** `setTimeout` / `setInterval`: arm a timer under a fresh handle. */
    method Arm(t: Timer) returns (h: nat)
      requires forall k :: k in armed ==> k < nextHandle
      modifies this
      ensures h == old(nextHandle) && h !in old(armed)
      ensures nextHandle == old(nextHandle) + 1 && armed == old(armed)[h := t]
      ensures commitTimers == old(commitTimers) && syncInterval == old(syncInterval)
    {
      h := nextHandle;
      nextHandle := nextHandle + 1;
      armed := armed[h := t];
    }

    /** `scheduleAutoCommitOnEdit(document)`: only for documents on disk,
        cancel the path's pending commit and arm a new one, so that the
        commit runs once the path has gone quiet for the debounce delay. */
    method ScheduleAutoCommitOnEdit(document: Document, debounceSeconds: int)
      requires Valid()
      modifies this
      ensures Valid()
      ensures document.scheme != "file" ==> unchanged(this)
      ensures document.scheme == "file" ==>
        var p, h := document.fileName, old(nextHandle);
        && commitTimers == old(commitTimers)[p := h]
        && armed == (old(armed) - (if p in old(commitTimers) then {old(commitTimers)[p]} else {}))
                      [h := Timer(CommitDocument(document), DebounceDelayMs(debounceSeconds), false)]
        && syncInterval == old(syncInterval)
        && PendingCommits(armed, p) == {h}
        && forall q :: q != p ==> PendingCommits(armed, q) == old(PendingCommits(armed, q))
    {
      if document.scheme != "file" {
        return;
      }
      var p := document.fileName;
      var t := Timer(CommitDocument(document), DebounceDelayMs(debounceSeconds), false);
      ReplaceCommitTimer(commitTimers, armed, syncInterval, nextHandle, p, t);
      ReplaceKeepsOtherPaths(commitTimers, armed, syncInterval, nextHandle, p, t);
      armed := armed - (if p in commitTimers then {commitTimers[p]} else {});
      var h := Arm(t);
      commitTimers := commitTimers[p := h];
    }

    /** `scheduleAutoCommit(document)`, the save listener: the same debounce. */
    method ScheduleAutoCommit(document: Document, debounceSeconds: int)
      requires Valid()
      modifies this
      ensures Valid()
      ensures document.scheme != "file" ==> unchanged(this)
      ensures document.scheme == "file" ==>
        var p, h := document.fileName, old(nextHandle);
        && commitTimers == old(commitTimers)[p := h]
        && armed == (old(armed) - (if p in old(commitTimers) then {old(commitTimers)[p]} else {}))
                      [h := Timer(CommitDocument(document), DebounceDelayMs(debounceSeconds), false)]
        && syncInterval == old(syncInterval)
        && PendingCommits(armed, p) == {h}
        && forall q :: q != p ==> PendingCommits(armed, q) == old(PendingCommits(armed, q))
    {
      ScheduleAutoCommitOnEdit(document, debounceSeconds);
    }

    /** The host fires armed timer `h` and answers what it runs. A debounced
        commit removes its path's entry and is disarmed; the periodic sync
        stays armed. */
    method Fire(h: nat) returns (callback: Callback)
      requires Valid() && h in armed
      modifies this
      ensures Valid()
      ensures callback == old(armed[h].callback)
      ensures syncInterval == old(syncInterval) && nextHandle == old(nextHandle)
      ensures old(armed[h].repeating) ==> commitTimers == old(commitTimers) && armed == old(armed)
      ensures !old(armed[h].repeating) ==>
        var p := callback.document.fileName;
        && callback.CommitDocument?
        && old(commitTimers[p]) == h
        && commitTimers == old(commitTimers) - {p}
        && armed == old(armed) - {h}
        && PendingCommits(armed, p) == {}
    {
      var t := armed[h];
      callback := t.callback;
      if !t.repeating {
        var p := callback.document.fileName;
        armed := armed - {h};
        commitTimers := commitTimers - {p};
        OneCommitTimerPerPath(commitTimers, armed, syncInterval, nextHandle, p);
      }
    }

    /** `startSyncTimer(intervalMinutes)`: cancel the periodic sync, if one was
        started, and start a new one. */
    method StartSyncTimer(intervalMinutes: int)
      requires Valid()
      modifies this
      ensures Valid()
      ensures syncInterval == Some(old(nextHandle))
      ensures commitTimers == old(commitTimers)
      ensures armed == (old(armed) - (if old(syncInterval).Some? then {old(syncInterval).value} else {}))
                         [old(nextHandle) := Timer(PeriodicSync, SyncPeriodMs(intervalMinutes), true)]
      ensures RepeatingTimers(armed) == {old(nextHandle)}
    {
      if syncInterval.Some? {
        armed := armed - {syncInterval.value};
      }
      assert RepeatingTimers(armed) == {};
      var h := Arm(Timer(PeriodicSync, SyncPeriodMs(intervalMinutes), true));
      syncInterval := Some(h);
      OneSyncTimer(commitTimers, armed, syncInterval, nextHandle);
    }

    /** `deactivate()`: cancels the periodic sync only. The variable keeps the
        cancelled handle, and pending debounced commits stay armed. */
    method Deactivate()
      requires Valid()
      modifies this
      ensures Valid()
      ensures commitTimers == old(commitTimers) && syncInterval == old(syncInterval)
      ensures armed == old(armed) - (if syncInterval.Some? then {syncInterval.value} else {})
      ensures RepeatingTimers(armed) == {}
      ensures forall p :: PendingCommits(armed, p) == old(PendingCommits(armed, p))
    {
      if syncInterval.Some? {
        armed := armed - {syncInterval.value};
      }
      OneSyncTimer(old(commitTimers), old(armed), syncInterval, nextHandle);
    }
  }
}
