/** `ExtensionTestHelper`: stand-alone versions of the sync, of commit-and-sync
    and of message generation, which answer an outcome record instead of
    showing notifications. Unlike `autoSync`, `testAutoSync` refuses to run
    on a dirty tree and never commits. */
module TestHelper {
  import opened Options
  import opened JsString
  import opened Synthesizer
  import opened Git
  import opened Orchestrator

  const DisabledReason: string := "extension disabled"
  const UncommittedReason: string := "uncommitted changes"
  const NoRemoteReason: string := "no remote"

  /** `{ success, reason?, skipped? }`; an absent `skipped` reads as false. */
  datatype SyncOutcome = SyncOutcome(success: bool, reason: Option<string>, skipped: bool)

  datatype SyncRun = SyncRun(outcome: SyncOutcome, world: World)

  /** `{ success, committed, synced, reason? }`. */
  datatype CommitSyncOutcome = CommitSyncOutcome(success: bool, committed: bool, synced: bool, reason: Option<string>)

  datatype CommitSyncRun = CommitSyncRun(outcome: CommitSyncOutcome, world: World)

  /** `{ message, isAI }`. */
  datatype GeneratedMessage = GeneratedMessage(message: string, isAI: bool)

  /** The error of the last operation issued since `before`, if it failed. */
  function LastFault(before: World, after: World): Option<string>
    requires |before.trace| <= |after.trace|
  {
    var k := |after.trace| - 1;
    if |before.trace| <= k && k in before.faults then Some(before.faults[k]) else None
  }

  /** A run that stopped at its first failure stopped at the last operation
      it issued. */
  lemma RanLastFault(before: World, after: World, script: seq<Op>, failed: Option<string>)
    requires Ran(before, after, script, failed)
    ensures failed == LastFault(before, after)
  {
    if failed.None? && |script| == 0 {
      assert after.trace == before.trace;
    }
  }

  // ---------------------------------------------------------------------
  // testAutoSync

  /** What `testAutoSync` issues when nothing fails: `status`, and on a clean
      tree the remote phase. */
  function TestAutoSyncScript(w: World): seq<Op> {
    [Status] + (if Changes(w) != {} then [] else RemoteScript(w.remotes))
  }

  /** `testAutoSync()`: gated on `enabled`; skips a dirty tree; otherwise
      the remote phase, whose outcome it reports. */
  function TestAutoSyncRun(enabled: bool, w: World): (o: SyncRun)
    ensures !enabled ==> o == SyncRun(SyncOutcome(false, Some(DisabledReason), false), w)
    ensures o.world.worktree == w.worktree && o.world.index == w.index
    ensures o.outcome.skipped ==> !o.outcome.success && o.outcome.reason == Some(UncommittedReason)
  {
    if !enabled then SyncRun(SyncOutcome(false, Some(DisabledReason), false), w)
    else
      var status := Exec(w, Status);
      if status.error.Some? then SyncRun(SyncOutcome(false, status.error, false), status.world)
      else if Changes(status.world) != {} then SyncRun(SyncOutcome(false, Some(UncommittedReason), true), status.world)
      else
        var sync := RemoteSync(status.world);
        var outcome :=
          if sync.report.Failed? then SyncOutcome(false, Some(sync.report.error), false)
          else if sync.report == NoRemote then SyncOutcome(false, Some(NoRemoteReason), false)
          else SyncOutcome(true, None, false);
        SyncRun(outcome, sync.world)
  }

  /** The operations `testAutoSync` issues, and the outcome it reports: the
      error text of the step that failed, and otherwise whether the tree was
      dirty or a remote was missing. */
  lemma TestAutoSyncRan(w: World)
    ensures var o := TestAutoSyncRun(true, w);
      && |w.trace| <= |o.world.trace|
      && var failed := LastFault(w, o.world);
      && Ran(w, o.world, TestAutoSyncScript(w), failed)
      && (failed.Some? ==> o.outcome == SyncOutcome(false, failed, false))
      && (failed.None? ==>
            o.outcome == if Changes(w) != {} then SyncOutcome(false, Some(UncommittedReason), true)
                         else if w.remotes == 0 then SyncOutcome(false, Some(NoRemoteReason), false)
                         else SyncOutcome(true, None, false))
  {
    var o := TestAutoSyncRun(true, w);
    var status := Exec(w, Status);
    var rest := if Changes(w) != {} then [] else RemoteScript(w.remotes);
    RanExec(w, Status);
    var failed: Option<string>;
    if status.error.Some? {
      RanStopped(w, status.world, [Status], rest, status.error.value);
      failed := status.error;
    } else if Changes(w) != {} {
      assert TestAutoSyncScript(w) == [Status];
      failed := None;
    } else {
      RemoteSyncRan(status.world);
      failed := ErrorOf(RemoteSync(status.world).report);
      RanThen(w, status.world, o.world, [Status], rest, failed);
    }
    RanLastFault(w, o.world, TestAutoSyncScript(w), failed);
  }

  /** What `testAutoSync` promises whichever steps fail: nothing when
      disabled; on a dirty tree no remote lookup, pull or push; no pull or
      push without a remote; every push right after a pull; success only
      after status, remote lookup, pull and push all answered. */
  lemma TestAutoSyncSafety(enabled: bool, w: World)
    ensures var o := TestAutoSyncRun(enabled, w);
      && |w.trace| <= |o.world.trace|
      && var ops := NewOps(w, o.world);
      && (!enabled ==> ops == [])
      && (Changes(w) != {} ==> GetRemotes !in ops && NoSync(ops))
      && PushAfterPull(ops)
      && (w.remotes == 0 ==> NoSync(ops))
      && (o.outcome.success ==> ops == [Status, GetRemotes, Pull, Push])
      && (enabled && NoPendingFaults(w) ==> ops == TestAutoSyncScript(w))
  {
    var o := TestAutoSyncRun(enabled, w);
    if enabled {
      TestAutoSyncRan(w);
      TestAutoSyncRunSafe(w, o);
    } else {
      assert NewOps(w, w) == [];
    }
  }

  /** The safety facts follow from the operations issued and the outcome
      reported. */
  lemma TestAutoSyncRunSafe(w: World, o: SyncRun)
    requires |w.trace| <= |o.world.trace|
    requires var failed := LastFault(w, o.world);
      && Ran(w, o.world, TestAutoSyncScript(w), failed)
      && (failed.Some? ==> o.outcome == SyncOutcome(false, failed, false))
      && (failed.None? ==>
            o.outcome == if Changes(w) != {} then SyncOutcome(false, Some(UncommittedReason), true)
                         else if w.remotes == 0 then SyncOutcome(false, Some(NoRemoteReason), false)
                         else SyncOutcome(true, None, false))
    ensures var ops := NewOps(w, o.world);
      && (Changes(w) != {} ==> GetRemotes !in ops && NoSync(ops))
      && PushAfterPull(ops)
      && (w.remotes == 0 ==> NoSync(ops))
      && (o.outcome.success ==> ops == [Status, GetRemotes, Pull, Push])
      && (NoPendingFaults(w) ==> ops == TestAutoSyncScript(w))
  {
    var script := TestAutoSyncScript(w);
    var ops := NewOps(w, o.world);
    assert && (Changes(w) != {} ==> GetRemotes !in ops && NoSync(ops))
           && PushAfterPull(ops)
           && (w.remotes == 0 ==> NoSync(ops)) by {
      RemoteScriptShape(w.remotes);
      if Changes(w) == {} {
        PushAfterPullAppend([Status], RemoteScript(w.remotes));
      }
      IssuedPrefixKeeps(w, o.world, script);
      IssuedOps(w, o.world, script);
      if Changes(w) != {} {
        assert script == [Status];
      }
    }
    if NoPendingFaults(w) {
      RanWithoutFaults(w, o.world, script, LastFault(w, o.world));
    }
    if o.outcome.success {
      assert LastFault(w, o.world).None? && Changes(w) == {} && w.remotes > 0;
      assert script == [Status, GetRemotes, Pull, Push];
      IssuedOps(w, o.world, script);
      assert ops == script[..|script|];
    }
  }

  /** On a clean tree without a remote, `testAutoSync` answers `no remote`
      and changes nothing but the log, so running it again answers the same. */
  lemma TestAutoSyncRepeats(w: World)
    requires Changes(w) == {} && w.remotes == 0 && NoPendingFaults(w)
    ensures var o := TestAutoSyncRun(true, w);
      && o.outcome == SyncOutcome(false, Some(NoRemoteReason), false)
      && o.world == w.(trace := w.trace + [Status, GetRemotes])
      && NoPendingFaults(o.world)
      && TestAutoSyncRun(true, o.world).outcome == o.outcome
  {
    var o := TestAutoSyncRun(true, w);
    TestAutoSyncRan(w);
    RanWithoutFaults(w, o.world, TestAutoSyncScript(w), LastFault(w, o.world));
    assert TestAutoSyncScript(w) == [Status, GetRemotes];
    assert o.world == w.(trace := w.trace + [Status, GetRemotes]);
    TestAutoSyncRan(o.world);
  }

  // ---------------------------------------------------------------------
  // testCommitAndSync

  /** The message `testCommitAndSync` commits with. */
  function TestCommitMessage(now: string): string {
    "Test commit: All changes at " + now
  }

  /** `testCommitAndSync()`: stage, commit what is staged, then the remote
      phase; `committed` and `synced` record how far it got. */
  function TestCommitAndSyncRun(enabled: bool, now: string, w: World): (o: CommitSyncRun)
    ensures !enabled ==> o == CommitSyncRun(CommitSyncOutcome(false, false, false, Some(DisabledReason)), w)
    ensures o.outcome.synced ==> o.outcome.success
  {
    if !enabled then CommitSyncRun(CommitSyncOutcome(false, false, false, Some(DisabledReason)), w)
    else StageCommitSync(TestCommitMessage(now), w)
  }

  /** The git calls of `testCommitAndSync`, given its message. */
  function StageCommitSync(message: string, w: World): (o: CommitSyncRun)
    ensures o.outcome.synced ==> o.outcome.success
  {
    var add := Exec(w, AddAll);
    if add.error.Some? then CommitSyncRun(CommitSyncOutcome(false, false, false, add.error), add.world)
    else
      var status := Exec(add.world, Status);
      if status.error.Some? then CommitSyncRun(CommitSyncOutcome(false, false, false, status.error), status.world)
      else CommitIfStagedThenSync(message, status.world)
  }

  /** From the staged count on: commit when something is staged, then the
      remote phase. */
  function CommitIfStagedThenSync(message: string, w: World): (o: CommitSyncRun)
    ensures o.outcome.synced ==> o.outcome.success
  {
    var committed := |w.index| > 0;
    var commit := if committed then Exec(w, Commit(message)) else Skip(w);
    if commit.error.Some? then CommitSyncRun(CommitSyncOutcome(false, false, false, commit.error), commit.world)
    else
      var sync := RemoteSync(commit.world);
      var outcome :=
        if sync.report.Failed? then CommitSyncOutcome(false, committed, false, Some(sync.report.error))
        else if sync.report == NoRemote then CommitSyncOutcome(true, committed, false, Some(NoRemoteReason))
        else CommitSyncOutcome(true, committed, true, None);
      CommitSyncRun(outcome, sync.world)
  }

  /** What `testCommitAndSync` issues when nothing fails, given its message. */
  function StageCommitSyncScript(w: World, message: string): seq<Op> {
    [AddAll, Status] + (if Changes(w) == {} then [] else [Commit(message)]) + RemoteScript(w.remotes)
  }

  /** The flags of a run from the staged count on: a failure carries its
      error text and leaves `synced` false; otherwise `committed` says
      whether anything was staged and `synced` whether there is a remote. */
  lemma CommitIfStagedThenSyncRan(message: string, w: World)
    requires w.worktree == {}
    ensures var o := CommitIfStagedThenSync(message, w);
      && |w.trace| <= |o.world.trace|
      && var failed := LastFault(w, o.world);
      && Ran(w, o.world, (if w.index == {} then [] else [Commit(message)]) + RemoteScript(w.remotes), failed)
      && (failed.Some? ==> !o.outcome.success && !o.outcome.synced && o.outcome.reason == failed
                           && (o.outcome.committed <==> w.index != {} && o.world.index == {}))
      && (failed.None? ==>
            && o.outcome == CommitSyncOutcome(true, w.index != {}, w.remotes > 0,
                                              if w.remotes == 0 then Some(NoRemoteReason) else None)
            && o.world.index == {})
  {
    var o := CommitIfStagedThenSync(message, w);
    var commitOps := if w.index == {} then [] else [Commit(message)];
    var commit := if |w.index| > 0 then Exec(w, Commit(message)) else Skip(w);
    if w.index != {} {
      RanExec(w, Commit(message));
    } else {
      RanNothing(w);
    }
    var failed: Option<string>;
    if commit.error.Some? {
      RanStopped(w, commit.world, commitOps, RemoteScript(w.remotes), commit.error.value);
      failed := commit.error;
    } else {
      RemoteSyncRan(commit.world);
      failed := ErrorOf(RemoteSync(commit.world).report);
      RanThen(w, commit.world, o.world, commitOps, RemoteScript(w.remotes), failed);
    }
    RanLastFault(w, o.world, commitOps + RemoteScript(w.remotes), failed);
  }

  /** What a run of the git calls of `testCommitAndSync` reports: the
      operations issued, the error text of the one that failed, and
      otherwise the flags a full run sets. */
  predicate StageCommitSyncReports(message: string, w: World, o: CommitSyncRun) {
    && |w.trace| <= |o.world.trace|
    && var failed := LastFault(w, o.world);
    && Ran(w, o.world, StageCommitSyncScript(w, message), failed)
    && (failed.Some? ==> !o.outcome.success && !o.outcome.synced && o.outcome.reason == failed)
    && (failed.None? ==>
          o.outcome == CommitSyncOutcome(true, Changes(w) != {}, w.remotes > 0,
                                         if w.remotes == 0 then Some(NoRemoteReason) else None))
    && (o.outcome.committed <==> Changes(w) != {} && |w.trace| + 3 <= |o.world.trace| && o.world.index == {})
  }

  lemma StageCommitSyncRan(message: string, w: World)
    ensures var o := StageCommitSync(message, w);
      && |w.trace| <= |o.world.trace|
      && var failed := LastFault(w, o.world);
      && Ran(w, o.world, StageCommitSyncScript(w, message), failed)
      && (failed.Some? ==> !o.outcome.success && !o.outcome.synced && o.outcome.reason == failed)
      && (failed.None? ==>
            o.outcome == CommitSyncOutcome(true, Changes(w) != {}, w.remotes > 0,
                                           if w.remotes == 0 then Some(NoRemoteReason) else None))
      && (o.outcome.committed <==> Changes(w) != {} && |w.trace| + 3 <= |o.world.trace| && o.world.index == {})
  {
    var add := Exec(w, AddAll);
    if add.error.Some? {
      StageFailedAdd(message, w);
    } else if Exec(add.world, Status).error.Some? {
      StageFailedStatus(message, w);
    } else {
      StageThenCommitIfStaged(message, w);
    }
  }

  /** `add -A` failed: nothing else is issued. */
  lemma StageFailedAdd(message: string, w: World)
    requires Exec(w, AddAll).error.Some?
    ensures StageCommitSyncReports(message, w, StageCommitSync(message, w))
  {
    var add := Exec(w, AddAll);
    var script := StageCommitSyncScript(w, message);
    assert script == [AddAll] + script[1..];
    RanExec(w, AddAll);
    RanStopped(w, add.world, [AddAll], script[1..], add.error.value);
    RanLastFault(w, add.world, script, add.error);
  }

  /** `status` failed after `add -A`: nothing else is issued. */
  lemma StageFailedStatus(message: string, w: World)
    requires Exec(w, AddAll).error.None?
    requires Exec(Exec(w, AddAll).world, Status).error.Some?
    ensures StageCommitSyncReports(message, w, StageCommitSync(message, w))
  {
    var add := Exec(w, AddAll);
    var status := Exec(add.world, Status);
    var script := StageCommitSyncScript(w, message);
    assert script == [AddAll, Status] + script[2..];
    RanExec(w, AddAll);
    RanExec(add.world, Status);
    RanStopped(add.world, status.world, [Status], script[2..], status.error.value);
    assert [AddAll] + ([Status] + script[2..]) == script;
    RanThen(w, add.world, status.world, [AddAll], [Status] + script[2..], status.error);
    RanLastFault(w, status.world, script, status.error);
  }

  /** `add -A` and `status` went through: the index holds every change, and
      the rest of the run commits it, if any, then syncs. */
  lemma StageThenCommitIfStaged(message: string, w: World)
    requires Exec(w, AddAll).error.None?
    requires Exec(Exec(w, AddAll).world, Status).error.None?
    ensures StageCommitSyncReports(message, w, StageCommitSync(message, w))
  {
    var add := Exec(w, AddAll);
    var v := Exec(add.world, Status).world;
    assert StageCommitSync(message, w) == CommitIfStagedThenSync(message, v);
    assert Ran(w, v, [AddAll, Status], None) by {
      RanExec(w, AddAll);
      RanExec(add.world, Status);
      RanThen(w, add.world, v, [AddAll], [Status], None);
    }
    CommitIfStagedThenSyncRan(message, v);
    StagedReports(message, w, v, CommitIfStagedThenSync(message, v));
  }

  /** Putting together the staging steps and the rest of the run. */
  lemma StagedReports(message: string, w: World, v: World, o: CommitSyncRun)
    requires Ran(w, v, [AddAll, Status], None)
    requires v.index == Changes(w) && v.worktree == {} && v.remotes == w.remotes
    requires |v.trace| <= |o.world.trace|
    requires var failed := LastFault(v, o.world);
      && Ran(v, o.world, (if v.index == {} then [] else [Commit(message)]) + RemoteScript(v.remotes), failed)
      && (failed.Some? ==> !o.outcome.success && !o.outcome.synced && o.outcome.reason == failed
                           && (o.outcome.committed <==> v.index != {} && o.world.index == {}))
      && (failed.None? ==>
            && o.outcome == CommitSyncOutcome(true, v.index != {}, v.remotes > 0,
                                              if v.remotes == 0 then Some(NoRemoteReason) else None)
            && o.world.index == {})
    ensures StageCommitSyncReports(message, w, o)
  {
    var tail := (if v.index == {} then [] else [Commit(message)]) + RemoteScript(v.remotes);
    var script := StageCommitSyncScript(w, message);
    var failed := LastFault(v, o.world);
    assert script == [AddAll, Status] + tail;
    RanThen(w, v, o.world, [AddAll, Status], tail, failed);
    assert |o.world.trace| > |v.trace| && LastFault(w, o.world) == failed;
  }

  /** The flags against the operations issued: `committed` says that a
      commit was issued and went through, and a commit is issued only when
      `add -A` left something staged; `synced` says that the push went
      through. */
  lemma StageCommitSyncProgress(message: string, w: World)
    ensures var o := StageCommitSync(message, w);
      && |w.trace| <= |o.world.trace|
      && var ops, failed := NewOps(w, o.world), LastFault(w, o.world);
      && (o.outcome.committed <==> Commits(ops) && o.world.index == {})
      && (Commits(ops) ==> Changes(w) != {})
      && (o.outcome.synced <==> Push in ops && failed.None?)
  {
    var o := StageCommitSync(message, w);
    StageCommitSyncRan(message, w);
    FlagsFollowTrace(message, w, o.world, o.outcome);
  }

  lemma FlagsFollowTrace(message: string, w: World, after: World, outcome: CommitSyncOutcome)
    requires |w.trace| <= |after.trace|
    requires var failed := LastFault(w, after);
      && Ran(w, after, StageCommitSyncScript(w, message), failed)
      && (failed.Some? ==> !outcome.synced)
      && (failed.None? ==> outcome.synced == (w.remotes > 0))
      && (outcome.committed <==> Changes(w) != {} && |w.trace| + 3 <= |after.trace| && after.index == {})
    ensures var ops, failed := NewOps(w, after), LastFault(w, after);
      && (outcome.committed <==> Commits(ops) && after.index == {})
      && (Commits(ops) ==> Changes(w) != {})
      && (outcome.synced <==> Push in ops && failed.None?)
  {
    var script := StageCommitSyncScript(w, message);
    var n := |after.trace| - |w.trace|;
    IssuedOps(w, after, script);
    StageCommitSyncScriptCommits(w, message, n);
    if LastFault(w, after).None? {
      assert script[..n] == script;
      StageCommitSyncScriptPushes(w, message);
    }
  }

  /** A prefix of the script holds a commit exactly when `add -A` had
      something to stage and the prefix reaches the third operation. */
  lemma StageCommitSyncScriptCommits(w: World, message: string, n: nat)
    requires n <= |StageCommitSyncScript(w, message)|
    ensures Commits(StageCommitSyncScript(w, message)[..n]) <==> Changes(w) != {} && n >= 3
  {
    var script := StageCommitSyncScript(w, message);
    var ops := script[..n];
    RemoteScriptShape(w.remotes);
    if Changes(w) != {} && n >= 3 {
      assert ops[2].Commit?;
    }
    if Changes(w) == {} {
      assert script == [AddAll, Status] + RemoteScript(w.remotes);
      forall i | 0 <= i < |ops| ensures !ops[i].Commit? {
        if i >= 2 {
          assert ops[i] == RemoteScript(w.remotes)[i - 2];
        }
      }
    } else if n < 3 {
      forall i | 0 <= i < |ops| ensures !ops[i].Commit? {
      }
    }
  }

  /** The script pushes exactly when there is a remote. */
  lemma StageCommitSyncScriptPushes(w: World, message: string)
    ensures Push in StageCommitSyncScript(w, message) <==> w.remotes > 0
  {
    var script := StageCommitSyncScript(w, message);
    var front := [AddAll, Status] + (if Changes(w) == {} then [] else [Commit(message)]);
    assert script == front + RemoteScript(w.remotes);
    assert Push !in front;
  }

  lemma StageCommitSyncScriptShape(w: World, message: string)
    ensures var script := StageCommitSyncScript(w, message);
      && PushAfterPull(script) && AtMostOneCommit(script)
      && (w.remotes == 0 ==> NoSync(script))
  {
    var script := StageCommitSyncScript(w, message);
    var front := [AddAll, Status] + (if Changes(w) == {} then [] else [Commit(message)]);
    assert script == front + RemoteScript(w.remotes);
    RemoteScriptShape(w.remotes);
    PushAfterPullAppend(front, RemoteScript(w.remotes));
    forall i, j | 0 <= i < j < |script| && script[i].Commit? ensures !script[j].Commit? {
      assert i == 2;
    }
  }

  /** The operations `testCommitAndSync` issues and what it reports. Without
      a failure: committed exactly when `add -A` staged something, synced
      exactly when there is a remote, and `no remote` without one. With a
      failure: its error text, and how far the run got. */
  lemma TestCommitAndSyncRan(now: string, w: World)
    ensures var o := TestCommitAndSyncRun(true, now, w);
      && |w.trace| <= |o.world.trace|
      && var ops, failed := NewOps(w, o.world), LastFault(w, o.world);
      && Ran(w, o.world, StageCommitSyncScript(w, TestCommitMessage(now)), failed)
      && (failed.Some? ==> !o.outcome.success && !o.outcome.synced && o.outcome.reason == failed)
      && (failed.None? ==>
            o.outcome == CommitSyncOutcome(true, Changes(w) != {}, w.remotes > 0,
                                           if w.remotes == 0 then Some(NoRemoteReason) else None))
      && (o.outcome.committed <==> Commits(ops) && o.world.index == {})
      && (Commits(ops) ==> Changes(w) != {})
      && (o.outcome.synced <==> Push in ops && failed.None?)
  {
    StageCommitSyncRan(TestCommitMessage(now), w);
    StageCommitSyncProgress(TestCommitMessage(now), w);
  }

  /** What `testCommitAndSync` promises whichever steps fail: nothing when
      disabled; at most one commit; every push right after a pull; with zero
      remotes no pull or push, and a successful run says `no remote`. */
  lemma TestCommitAndSyncSafety(enabled: bool, now: string, w: World)
    ensures var o := TestCommitAndSyncRun(enabled, now, w);
      && |w.trace| <= |o.world.trace|
      && var ops := NewOps(w, o.world);
      && (!enabled ==> ops == [])
      && PushAfterPull(ops)
      && AtMostOneCommit(ops)
      && (w.remotes == 0 ==> NoSync(ops))
      && (w.remotes == 0 && o.outcome.success ==> !o.outcome.synced && o.outcome.reason == Some(NoRemoteReason))
  {
    var o := TestCommitAndSyncRun(enabled, now, w);
    if enabled {
      var message := TestCommitMessage(now);
      StageCommitSyncRan(message, w);
      StageCommitSyncScriptShape(w, message);
      IssuedPrefixKeeps(w, o.world, StageCommitSyncScript(w, message));
    } else {
      assert NewOps(w, w) == [];
    }
  }

  // ---------------------------------------------------------------------
  // testGenerateCommitMessage

  /** `testGenerateCommitMessage(statusOutput)`: the fallback path of
      `generateCommitMessage`, without the model. */
  function TestGenerateCommitMessage(statusOutput: string, now: string): (r: GeneratedMessage)
    ensures !r.isAI
    ensures StatusLines(statusOutput) == [] ==> r.message == NoChangesMessage
  {
    var lines := StatusLines(statusOutput);
    var changedFiles := seq(|lines|, i requires 0 <= i < |lines| => Substring(lines[i], 3, |lines[i]|));
    if |changedFiles| == 0 then GeneratedMessage(NoChangesMessage, false)
    else GeneratedMessage(FallbackPrefix + Join(changedFiles, ", ") + " at " + now, false)
  }

  /** The helper's message is the extension's message when the model gives
      no answer. */
  lemma TestGenerateMatchesFallback(statusOutput: string, now: string)
    ensures TestGenerateCommitMessage(statusOutput, now).message == GenerateCommitMessage(statusOutput, None, now)
  {
    var lines := StatusLines(statusOutput);
    var changedFiles := seq(|lines|, i requires 0 <= i < |lines| => Substring(lines[i], 3, |lines[i]|));
    var files := ParseStatus(statusOutput);
    if |lines| > 0 {
      assert changedFiles == Paths(files);
      assert AiAnswer(None) == None;
    }
  }

  /** With some change parsed, the helper's message is the fallback, which
      starts with `Auto-commit: `, lists every parsed path in order,
      separated by `", "`, and ends with the time. */
  lemma TestGenerateIsFallback(statusOutput: string, now: string)
    requires ParseStatus(statusOutput) != []
    ensures TestGenerateCommitMessage(statusOutput, now).message == FallbackMessage(Paths(ParseStatus(statusOutput)), now)
  {
    TestGenerateMatchesFallback(statusOutput, now);
    assert AiAnswer(None) == None;
  }

  // ---------------------------------------------------------------------
  // The helper object

  /** Once staging and the status query went through, `testCommitAndSync`
      goes on with the staged count. */
  lemma TestCommitAndSyncUnfolds(now: string, w: World, staged: World)
    requires Exec(w, AddAll).error.None?
    requires var status := Exec(Exec(w, AddAll).world, Status);
      status.error.None? && staged == status.world
    ensures TestCommitAndSyncRun(true, now, w) == CommitIfStagedThenSync(TestCommitMessage(now), staged)
  {
  }

  /** The helper owns a `simple-git` handle on one workspace. */
  class ExtensionTestHelper {
    const git: Repository

    constructor (repo: Repository)
      ensures git == repo
    {
      git := repo;
    }

    /** `testAutoSync()`. */
    method TestAutoSync(enabled: bool) returns (outcome: SyncOutcome)
      modifies git
      ensures SyncRun(outcome, git.State()) == TestAutoSyncRun(enabled, old(git.State()))
    {
      if !enabled {
        return SyncOutcome(false, Some(DisabledReason), false);
      }
      var files, staged, error := git.Status();
      if error.Some? {
        return SyncOutcome(false, error, false);
      }
      if files > 0 {
        return SyncOutcome(false, Some(UncommittedReason), true);
      }
      var count;
      count, error := git.GetRemotes();
      if error.Some? {
        return SyncOutcome(false, error, false);
      }
      if count == 0 {
        return SyncOutcome(false, Some(NoRemoteReason), false);
      }
      error := git.Pull();
      if error.Some? {
        return SyncOutcome(false, error, false);
      }
      error := git.Push();
      if error.Some? {
        return SyncOutcome(false, error, false);
      }
      outcome := SyncOutcome(true, None, false);
    }

    /** `testCommitAndSync()`. */
    method TestCommitAndSync(enabled: bool, now: string) returns (outcome: CommitSyncOutcome)
      modifies git
      ensures CommitSyncRun(outcome, git.State()) == TestCommitAndSyncRun(enabled, now, old(git.State()))
    {
      if !enabled {
        return CommitSyncOutcome(false, false, false, Some(DisabledReason));
      }
      var committed, synced := false, false;
      var error := git.Add();
      if error.Some? {
        return CommitSyncOutcome(false, committed, synced, error);
      }
      var files, staged;
      files, staged, error := git.Status();
      if error.Some? {
        return CommitSyncOutcome(false, committed, synced, error);
      }
      TestCommitAndSyncUnfolds(now, old(git.State()), git.State());
      if staged > 0 {
        error := git.Commit(TestCommitMessage(now));
        if error.Some? {
          return CommitSyncOutcome(false, committed, synced, error);
        }
        committed := true;
      }
      var count;
      count, error := git.GetRemotes();
      if error.Some? {
        return CommitSyncOutcome(false, committed, synced, error);
      }
      if count == 0 {
        return CommitSyncOutcome(true, committed, false, Some(NoRemoteReason));
      }
      error := git.Pull();
      if error.Some? {
        return CommitSyncOutcome(false, committed, synced, error);
      }
      error := git.Push();
      if error.Some? {
        return CommitSyncOutcome(false, committed, synced, error);
      }
      synced := true;
      outcome := CommitSyncOutcome(true, committed, synced, None);
    }
  }
}
