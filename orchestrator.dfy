/** The three command sequences of the extension: `autoSync`, `autoCommit`
    and `manualCommitAndSync`. Each is a function from a world to the report
    and the world after it (what the function promises), and a method that
    runs the same steps against a `Repository` (what the extension does).
    Lemmas relate every run to the script of operations it issues. */
module Orchestrator {
  import opened Options
  import opened JsString
  import opened Synthesizer
  import opened Git

  /** The configuration and workspace a run sees: `vscode-autoGit.enabled`,
      `vscode-autoGit.syncAfterCommit`, and whether a workspace folder is
      open. */
  datatype Settings = Settings(enabled: bool, syncAfterCommit: bool, hasWorkspace: bool)

  /** How a run ended, as the notifications and the status bar tell it. */
  datatype Report =
    | Disabled
    | NoWorkspace
    | NothingToCommit
    | NoRemote
    | Synced
    | Failed(error: string)
    | Committed(message: string, sync: Option<Report>)

  datatype Run = Run(report: Report, world: World)

  /** The error a report carries, if it is a failure. */
  function ErrorOf(r: Report): Option<string> {
    if r.Failed? then Some(r.error) else None
  }

  // ---------------------------------------------------------------------
  // Scripts: the operations a run issues when nothing fails

  predicate NoSync(ops: seq<Op>) {
    Pull !in ops && Push !in ops
  }

  /** Every push comes right after a pull. */
  predicate PushAfterPull(ops: seq<Op>) {
    forall i :: 0 <= i < |ops| && ops[i] == Push ==> 0 < i && ops[i - 1] == Pull
  }

  predicate Commits(ops: seq<Op>) {
    exists i :: 0 <= i < |ops| && ops[i].Commit?
  }

  predicate AtMostOneCommit(ops: seq<Op>) {
    forall i, j :: 0 <= i < j < |ops| && ops[i].Commit? ==> !ops[j].Commit?
  }

  /** The remote phase shared by all runs: look up the remotes, and pull then
      push when there is one. */
  function RemoteScript(remotes: nat): seq<Op> {
    [GetRemotes] + (if remotes == 0 then [] else [Pull, Push])
  }

  /** `after` is `before` with a prefix of `script` issued. */
  predicate Issued(before: World, after: World, script: seq<Op>) {
    && after.faults == before.faults
    && |before.trace| <= |after.trace| <= |before.trace| + |script|
    && after.trace == before.trace + script[..|after.trace| - |before.trace|]
  }

  /** As `Issued`, and the prefix stops at the first operation that failed,
      `failed` being its error, and is the whole script when nothing failed. */
  predicate Ran(before: World, after: World, script: seq<Op>, failed: Option<string>) {
    && Issued(before, after, script)
    && (forall k :: |before.trace| <= k < |after.trace| - 1 ==> k !in before.faults)
    && (failed.None? ==> |after.trace| == |before.trace| + |script| && (|script| > 0 ==> |after.trace| - 1 !in before.faults))
    && (failed.Some? ==>
          && |after.trace| > |before.trace| && |after.trace| - 1 in before.faults
          && failed.value == before.faults[|after.trace| - 1])
  }

  lemma RanExec(w: World, op: Op)
    ensures Ran(w, Exec(w, op).world, [op], Exec(w, op).error)
  {
    assert [op][..1] == [op];
  }

  lemma RanNothing(w: World)
    ensures Ran(w, w, [], None)
  {
  }

  /** Running `p` to the end and then `q` runs `p + q`. */
  lemma RanThen(a: World, b: World, c: World, p: seq<Op>, q: seq<Op>, failed: Option<string>)
    requires Ran(a, b, p, None) && Ran(b, c, q, failed)
    ensures Ran(a, c, p + q, failed)
  {
    var n := |c.trace| - |b.trace|;
    assert (p + q)[..|p| + n] == p + q[..n];
    if |p| > 0 && n > 0 {
      assert |b.trace| - 1 !in a.faults;
    }
  }

  /** A run that stopped on a failure inside `p` stopped inside `p + q`. */
  lemma RanStopped(a: World, b: World, p: seq<Op>, q: seq<Op>, e: string)
    requires Ran(a, b, p, Some(e))
    ensures Ran(a, b, p + q, Some(e))
  {
    var n := |b.trace| - |a.trace|;
    assert (p + q)[..n] == p[..n];
  }

  lemma IssuedThen(a: World, b: World, c: World, p: seq<Op>, q: seq<Op>)
    requires Issued(a, b, p) && b.trace == a.trace + p && Issued(b, c, q)
    ensures Issued(a, c, p + q)
  {
    var n := |c.trace| - |b.trace|;
    assert (p + q)[..|p| + n] == p + q[..n];
  }

  lemma IssuedStopped(a: World, b: World, p: seq<Op>, q: seq<Op>)
    requires Issued(a, b, p)
    ensures Issued(a, b, p + q)
  {
    var n := |b.trace| - |a.trace|;
    assert (p + q)[..n] == p[..n];
  }

  /** The operations issued are the script's prefix of that length. */
  lemma IssuedOps(before: World, after: World, script: seq<Op>)
    requires Issued(before, after, script)
    ensures NewOps(before, after) == script[..|after.trace| - |before.trace|]
  {
  }

  /** What a prefix of a script inherits from the script: the order of pull
      and push, the absence of pull and push, and of commits. */
  lemma IssuedPrefixKeeps(before: World, after: World, script: seq<Op>)
    requires Issued(before, after, script)
    ensures var ops := NewOps(before, after);
      && (PushAfterPull(script) ==> PushAfterPull(ops))
      && (NoSync(script) ==> NoSync(ops))
      && (Commits(ops) ==> Commits(script))
      && (AtMostOneCommit(script) ==> AtMostOneCommit(ops))
  {
    var n := |after.trace| - |before.trace|;
    var ops := NewOps(before, after);
    assert ops == script[..n];
    if PushAfterPull(script) {
      PushAfterPullPrefix(script, n);
    }
    if Commits(ops) {
      var i :| 0 <= i < |ops| && ops[i].Commit?;
      assert script[i].Commit?;
    }
  }

  /** Without a fault waiting, a run issues its whole script. */
  lemma RanWithoutFaults(a: World, b: World, script: seq<Op>, failed: Option<string>)
    requires NoPendingFaults(a) && Ran(a, b, script, failed)
    ensures failed.None? && b.trace == a.trace + script
  {
  }

  lemma {:induction false} PushAfterPullPrefix(ops: seq<Op>, n: nat)
    requires n <= |ops| && PushAfterPull(ops)
    ensures PushAfterPull(ops[..n])
  {
    forall i | 0 <= i < n && ops[..n][i] == Push ensures 0 < i && ops[..n][i - 1] == Pull {
      assert ops[i] == Push;
    }
  }

  lemma {:induction false} PushAfterPullAppend(a: seq<Op>, b: seq<Op>)
    requires PushAfterPull(a) && PushAfterPull(b) && (b != [] ==> b[0] != Push)
    ensures PushAfterPull(a + b)
  {
    forall i | 0 <= i < |a + b| && (a + b)[i] == Push ensures 0 < i && (a + b)[i - 1] == Pull {
      if i >= |a| {
        assert b[i - |a|] == Push;
      }
    }
  }

  lemma RemoteScriptShape(remotes: nat)
    ensures PushAfterPull(RemoteScript(remotes)) && RemoteScript(remotes)[0] == GetRemotes
    ensures remotes == 0 ==> NoSync(RemoteScript(remotes))
    ensures !Commits(RemoteScript(remotes))
  {
  }

  // ---------------------------------------------------------------------
  // Commit messages

  /** `Auto-commit: All changes at <timestamp>`, and its manual twin. */
  function AllChangesMessage(prefix: string, now: string): string {
    prefix + "All changes at " + now
  }

  const ManualPrefix: string := "Manual commit: "

  /** `if (!commitMessage || !commitMessage.trim()) commitMessage = fallback`. */
  function MessageOrFallback(generated: Option<string>, fallback: string): (m: string)
    ensures generated.Some? && !IsBlank(generated.value) ==> m == generated.value
    ensures generated.None? || IsBlank(generated.value) ==> m == fallback
  {
    if generated.None? then fallback
    else
      BlankIffTrimsToEmpty(generated.value);
      if Trim(generated.value) == [] then fallback else generated.value
  }

  /** `generateCommitMessage` never answers a blank message, so the fallback
      the runs apply to its answer is never used. */
  lemma GeneratedMessageNeedsNoFallback(statusOutput: string, ai: Option<string>, now: string, fallback: string)
    ensures MessageOrFallback(Some(GenerateCommitMessage(statusOutput, ai, now)), fallback)
      == GenerateCommitMessage(statusOutput, ai, now)
  {
  }

  // ---------------------------------------------------------------------
  // The remote phase

  /** `getRemotes`; with none, stop; otherwise `pull` then `push`. */
  function RemoteSync(w: World): (o: Run)
    ensures o.report == NoRemote || o.report == Synced || o.report.Failed?
    ensures o.world == w.(trace := o.world.trace)
  {
    var lookup := Exec(w, GetRemotes);
    if lookup.error.Some? then Run(Failed(lookup.error.value), lookup.world)
    else if lookup.world.remotes == 0 then Run(NoRemote, lookup.world)
    else
      var pull := Exec(lookup.world, Pull);
      if pull.error.Some? then Run(Failed(pull.error.value), pull.world)
      else
        var push := Exec(pull.world, Push);
        if push.error.Some? then Run(Failed(push.error.value), push.world)
        else Run(Synced, push.world)
  }

  lemma RemoteSyncRan(w: World)
    ensures var o := RemoteSync(w);
      && Ran(w, o.world, RemoteScript(w.remotes), ErrorOf(o.report))
      && (!o.report.Failed? ==> o.report == if w.remotes == 0 then NoRemote else Synced)
  {
    var lookup := Exec(w, GetRemotes);
    RanExec(w, GetRemotes);
    if lookup.error.None? && w.remotes > 0 {
      var pull := Exec(lookup.world, Pull);
      RanExec(lookup.world, Pull);
      if pull.error.Some? {
        RanStopped(lookup.world, pull.world, [Pull], [Push], pull.error.value);
        RanThen(w, lookup.world, pull.world, [GetRemotes], [Pull, Push], pull.error);
      } else {
        var push := Exec(pull.world, Push);
        RanExec(pull.world, Push);
        RanThen(lookup.world, pull.world, push.world, [Pull], [Push], push.error);
        RanThen(w, lookup.world, push.world, [GetRemotes], [Pull, Push], push.error);
      }
    } else if lookup.error.Some? && w.remotes > 0 {
      RanStopped(w, lookup.world, [GetRemotes], [Pull, Push], lookup.error.value);
    }
  }

  // ---------------------------------------------------------------------
  // autoSync

  /** The message `autoSync` commits with. */
  function SyncMessage(statusOutput: string, ai: Option<string>, now: string): string {
    MessageOrFallback(Some(GenerateCommitMessage(statusOutput, ai, now)), AllChangesMessage(FallbackPrefix, now))
  }

  /** What `autoSync` issues when nothing fails: stage, read the porcelain
      status, count the staged changes, commit when there are some, then the
      remote phase. */
  function AutoSyncScript(w: World, message: string): seq<Op> {
    [AddAll, StatusPorcelain, Status] + (if Changes(w) == {} then [] else [Commit(message)]) + RemoteScript(w.remotes)
  }

  /** The part of `autoSync` after staging: count the staged changes,
      commit when there are some, then the remote phase. */
  function CommitStagedThenSync(message: string, w: World): (o: Run)
    ensures o.report == NoRemote || o.report == Synced || o.report.Failed?
    ensures o.world.remotes == w.remotes && o.world.porcelain == w.porcelain
  {
    var status := Exec(w, Status);
    if status.error.Some? then Run(Failed(status.error.value), status.world)
    else
      var commit := if |status.world.index| > 0 then Exec(status.world, Commit(message)) else Skip(status.world);
      if commit.error.Some? then Run(Failed(commit.error.value), commit.world)
      else RemoteSync(commit.world)
  }

  lemma CommitStagedThenSyncRan(message: string, w: World)
    requires w.worktree == {}
    ensures var o := CommitStagedThenSync(message, w);
      && Ran(w, o.world, [Status] + (if w.index == {} then [] else [Commit(message)]) + RemoteScript(w.remotes), ErrorOf(o.report))
      && (!o.report.Failed? ==> o.report == (if w.remotes == 0 then NoRemote else Synced) && Changes(o.world) == {})
  {
    var commitOps := if w.index == {} then [] else [Commit(message)];
    var tail := commitOps + RemoteScript(w.remotes);
    assert [Status] + commitOps + RemoteScript(w.remotes) == [Status] + tail;
    var o := CommitStagedThenSync(message, w);
    var status := Exec(w, Status);
    RanExec(w, Status);
    if status.error.Some? {
      RanStopped(w, status.world, [Status], tail, status.error.value);
    } else {
      var commit := if |status.world.index| > 0 then Exec(status.world, Commit(message)) else Skip(status.world);
      if w.index != {} {
        RanExec(status.world, Commit(message));
      } else {
        RanNothing(status.world);
      }
      if commit.error.Some? {
        RanStopped(status.world, commit.world, commitOps, RemoteScript(w.remotes), commit.error.value);
      } else {
        RemoteSyncRan(commit.world);
        RanThen(status.world, commit.world, o.world, commitOps, RemoteScript(w.remotes), ErrorOf(o.report));
      }
      RanThen(w, status.world, o.world, [Status], tail, ErrorOf(o.report));
    }
  }

  /** `autoSync()`: gated on `enabled` and on an open workspace; the first
      failing git call ends the run. */
  function AutoSyncRun(settings: Settings, ai: Option<string>, now: string, w: World): (o: Run)
    ensures !settings.enabled ==> o == Run(Disabled, w)
    ensures settings.enabled && !settings.hasWorkspace ==> o == Run(NoWorkspace, w)
    ensures o.report in {Disabled, NoWorkspace, NoRemote, Synced} || o.report.Failed?
    ensures o.world.remotes == w.remotes && o.world.porcelain == w.porcelain
  {
    AutoSyncWith(settings, SyncMessage(w.porcelain, ai, now), w)
  }

  /** `autoSync` with the message it would commit already chosen: the message
      depends only on the porcelain text, which the query answers unchanged. */
  function AutoSyncWith(settings: Settings, message: string, w: World): (o: Run)
    ensures !settings.enabled ==> o == Run(Disabled, w)
    ensures settings.enabled && !settings.hasWorkspace ==> o == Run(NoWorkspace, w)
    ensures o.report in {Disabled, NoWorkspace, NoRemote, Synced} || o.report.Failed?
    ensures o.world.remotes == w.remotes && o.world.porcelain == w.porcelain
  {
    if !settings.enabled then Run(Disabled, w)
    else if !settings.hasWorkspace then Run(NoWorkspace, w)
    else StageThenCommitAndSync(message, w)
  }

  /** The git calls of `autoSync`: stage everything, read the porcelain
      status, then commit what is staged and sync. */
  function StageThenCommitAndSync(message: string, w: World): (o: Run)
    ensures o.report == NoRemote || o.report == Synced || o.report.Failed?
    ensures o.world.remotes == w.remotes && o.world.porcelain == w.porcelain
  {
    var add := Exec(w, AddAll);
    if add.error.Some? then Run(Failed(add.error.value), add.world)
    else
      var raw := Exec(add.world, StatusPorcelain);
      if raw.error.Some? then Run(Failed(raw.error.value), raw.world)
      else CommitStagedThenSync(message, raw.world)
  }

  lemma StageThenCommitAndSyncRan(message: string, w: World)
    ensures var o := StageThenCommitAndSync(message, w);
      && Ran(w, o.world, AutoSyncScript(w, message), ErrorOf(o.report))
      && (!o.report.Failed? ==> o.report == (if w.remotes == 0 then NoRemote else Synced) && Changes(o.world) == {})
  {
    var script := AutoSyncScript(w, message);
    var add := Exec(w, AddAll);
    RanExec(w, AddAll);
    if add.error.Some? {
      assert script == [AddAll] + script[1..];
      RanStopped(w, add.world, [AddAll], script[1..], add.error.value);
      return;
    }
    var raw := Exec(add.world, StatusPorcelain);
    RanExec(add.world, StatusPorcelain);
    if raw.error.Some? {
      assert script == [AddAll] + ([StatusPorcelain] + script[2..]);
      RanStopped(add.world, raw.world, [StatusPorcelain], script[2..], raw.error.value);
      RanThen(w, add.world, raw.world, [AddAll], [StatusPorcelain] + script[2..], raw.error);
    } else {
      StagedThenCommitAndSyncRan(message, w);
    }
  }

  /** `add -A` and the porcelain query went through: the index holds every
      change, and the rest of the run commits it, if any, then syncs. */
  lemma StagedThenCommitAndSyncRan(message: string, w: World)
    requires Exec(w, AddAll).error.None?
    requires Exec(Exec(w, AddAll).world, StatusPorcelain).error.None?
    ensures var o := StageThenCommitAndSync(message, w);
      && Ran(w, o.world, AutoSyncScript(w, message), ErrorOf(o.report))
      && (!o.report.Failed? ==> o.report == (if w.remotes == 0 then NoRemote else Synced) && Changes(o.world) == {})
  {
    var add := Exec(w, AddAll);
    var v := Exec(add.world, StatusPorcelain).world;
    var o := CommitStagedThenSync(message, v);
    assert StageThenCommitAndSync(message, w) == o;
    assert Ran(w, v, [AddAll, StatusPorcelain], None) by {
      RanExec(w, AddAll);
      RanExec(add.world, StatusPorcelain);
      RanThen(w, add.world, v, [AddAll], [StatusPorcelain], None);
    }
    assert v.index == Changes(w) && v.worktree == {} && v.remotes == w.remotes;
    var rest := [Status] + (if v.index == {} then [] else [Commit(message)]) + RemoteScript(v.remotes);
    assert AutoSyncScript(w, message) == [AddAll, StatusPorcelain] + rest;
    CommitStagedThenSyncRan(message, v);
    RanThen(w, v, o.world, [AddAll, StatusPorcelain], rest, ErrorOf(o.report));
  }


  /** An enabled `autoSync` in a workspace issues its script up to the first
      failure; a run that did not fail reports `NoRemote` or `Synced` as the
      remote count says, and leaves no change uncommitted. */
  lemma AutoSyncRan(settings: Settings, ai: Option<string>, now: string, w: World)
    requires settings.enabled && settings.hasWorkspace
    ensures var o := AutoSyncRun(settings, ai, now, w);
      && Ran(w, o.world, AutoSyncScript(w, SyncMessage(w.porcelain, ai, now)), ErrorOf(o.report))
      && (!o.report.Failed? ==> o.report == (if w.remotes == 0 then NoRemote else Synced) && Changes(o.world) == {})
  {
    StageThenCommitAndSyncRan(SyncMessage(w.porcelain, ai, now), w);
  }

  lemma AutoSyncScriptShape(w: World, message: string)
    ensures var script := AutoSyncScript(w, message);
      && PushAfterPull(script)
      && (w.remotes == 0 ==> NoSync(script))
      && (Commits(script) ==> Changes(w) != {})
  {
    var front := [AddAll, StatusPorcelain, Status] + (if Changes(w) == {} then [] else [Commit(message)]);
    RemoteScriptShape(w.remotes);
    PushAfterPullAppend(front, RemoteScript(w.remotes));
    var script := AutoSyncScript(w, message);
  }

  /** What `autoSync` promises whichever git calls fail: nothing when it is
      disabled or has no workspace; a commit only when `add -A` left
      something staged; no pull or push without a remote; every push right
      after a pull. With no failure pending it reports `NoRemote` or
      `Synced` and leaves nothing uncommitted. */
  lemma AutoSyncSafety(settings: Settings, ai: Option<string>, now: string, w: World)
    ensures var o := AutoSyncRun(settings, ai, now, w);
      && |w.trace| <= |o.world.trace|
      && var ops := NewOps(w, o.world);
      && (!settings.enabled || !settings.hasWorkspace ==> ops == [])
      && PushAfterPull(ops)
      && (w.remotes == 0 ==> NoSync(ops))
      && (Commits(ops) ==> Changes(w) != {})
      && (settings.enabled && settings.hasWorkspace && NoPendingFaults(w) ==>
            && ops == AutoSyncScript(w, SyncMessage(w.porcelain, ai, now))
            && o.report == (if w.remotes == 0 then NoRemote else Synced)
            && Changes(o.world) == {})
  {
    var o := AutoSyncRun(settings, ai, now, w);
    if settings.enabled && settings.hasWorkspace {
      var script := AutoSyncScript(w, SyncMessage(w.porcelain, ai, now));
      AutoSyncRan(settings, ai, now, w);
      AutoSyncScriptShape(w, SyncMessage(w.porcelain, ai, now));
      IssuedPrefixKeeps(w, o.world, script);
      if NoPendingFaults(w) {
        RanWithoutFaults(w, o.world, script, ErrorOf(o.report));
      }
    }
  }

  // ---------------------------------------------------------------------
  // autoCommit

  /** The message `autoCommit` commits with: the generated one, unless the
      porcelain query (the operation right after staging) failed, in which
      case the fixed `All changes` message. */
  function AutoCommitMessage(w: World, ai: Option<string>, now: string): string {
    if |w.trace| + 1 in w.faults then AllChangesMessage(FallbackPrefix, now)
    else GenerateCommitMessage(w.porcelain, ai, now)
  }

  /** What `autoCommit` issues when nothing fails: stage, query, commit, and
      with `syncAfterCommit` the calls of an `autoSync` that finds nothing
      left to commit. */
  function AutoCommitScript(w: World, message: string, syncAfterCommit: bool): seq<Op> {
    [AddAll, StatusPorcelain, Commit(message)]
      + (if syncAfterCommit then [AddAll, StatusPorcelain, Status] + RemoteScript(w.remotes) else [])
  }

  /** `autoCommit(document)`: gated like `autoSync`; a failing porcelain query
      only costs the generated message, and the commit is made whatever is
      staged. With `syncAfterCommit` it then runs `autoSync`, which reports
      its own outcome. */
  function AutoCommitRun(settings: Settings, ai: Option<string>, now: string, w: World): (o: Run)
    ensures !settings.enabled ==> o == Run(Disabled, w)
    ensures settings.enabled && !settings.hasWorkspace ==> o == Run(NoWorkspace, w)
    ensures o.report in {Disabled, NoWorkspace} || o.report.Failed? || o.report.Committed?
    ensures o.report.Committed? ==> (o.report.sync.Some? <==> settings.syncAfterCommit)
    ensures o.world.remotes == w.remotes && o.world.porcelain == w.porcelain
  {
    if !settings.enabled then Run(Disabled, w)
    else if !settings.hasWorkspace then Run(NoWorkspace, w)
    else
      var fallback := AllChangesMessage(FallbackPrefix, now);
      var answered := MessageOrFallback(Some(GenerateCommitMessage(w.porcelain, ai, now)), fallback);
      var unanswered := MessageOrFallback(None, fallback);
      StageThenCommit(settings, answered, unanswered, SyncMessage(w.porcelain, ai, now), w)
  }

  /** The git calls of `autoCommit`, given the message it commits when the
      porcelain query answers, the one it commits when the query fails, and
      the message the following `autoSync` would use. */
  function StageThenCommit(settings: Settings, answered: string, unanswered: string, syncMessage: string, w: World): (o: Run)
    ensures o.report.Failed? || o.report.Committed?
    ensures o.report.Committed? ==> (o.report.sync.Some? <==> settings.syncAfterCommit)
    ensures o.world.remotes == w.remotes && o.world.porcelain == w.porcelain
  {
    var add := Exec(w, AddAll);
    if add.error.Some? then Run(Failed(add.error.value), add.world)
    else
      var raw := Exec(add.world, StatusPorcelain);
      var message := if raw.error.Some? then unanswered else answered;
      CommitThenMaybeSync(settings, message, syncMessage, raw.world)
  }

  /** The part of `autoCommit` from the commit on. */
  function CommitThenMaybeSync(settings: Settings, message: string, syncMessage: string, w: World): (o: Run)
    ensures o.report.Failed? || o.report.Committed?
    ensures o.report.Committed? ==> o.report.message == message && (o.report.sync.Some? <==> settings.syncAfterCommit)
    ensures o.world.remotes == w.remotes && o.world.porcelain == w.porcelain
  {
    var commit := Exec(w, Commit(message));
    if commit.error.Some? then Run(Failed(commit.error.value), commit.world)
    else if !settings.syncAfterCommit then Run(Committed(message, None), commit.world)
    else
      var sync := AutoSyncWith(settings, syncMessage, commit.world);
      Run(Committed(message, Some(sync.report)), sync.world)
  }

  lemma CommitThenMaybeSyncRan(settings: Settings, message: string, syncMessage: string, w: World)
    requires settings.enabled && settings.hasWorkspace && w.worktree == {}
    ensures var o := CommitThenMaybeSync(settings, message, syncMessage, w);
      var script := [Commit(message)] + (if settings.syncAfterCommit then [AddAll, StatusPorcelain, Status] + RemoteScript(w.remotes) else []);
      && Issued(w, o.world, script)
      && (o.report.Failed? <==> |o.world.trace| == |w.trace| + 1 && |w.trace| in w.faults)
      && (o.report.Failed? ==> o.report.error == w.faults[|w.trace|])
      && (NoPendingFaults(w) ==>
            && o.world.trace == w.trace + script
            && o.report == Committed(message, if settings.syncAfterCommit then Some(if w.remotes == 0 then NoRemote else Synced) else None)
            && Changes(o.world) == {})
  {
    var o := CommitThenMaybeSync(settings, message, syncMessage, w);
    var commit := Exec(w, Commit(message));
    RanExec(w, Commit(message));
    var rest := if settings.syncAfterCommit then [AddAll, StatusPorcelain, Status] + RemoteScript(w.remotes) else [];
    if commit.error.Some? {
      IssuedStopped(w, commit.world, [Commit(message)], rest);
    } else if settings.syncAfterCommit {
      var sync := StageThenCommitAndSync(syncMessage, commit.world);
      StageThenCommitAndSyncRan(syncMessage, commit.world);
      assert AutoSyncScript(commit.world, syncMessage) == rest;
      IssuedThen(w, commit.world, o.world, [Commit(message)], rest);
      if NoPendingFaults(w) {
        RanWithoutFaults(commit.world, o.world, rest, ErrorOf(sync.report));
      }
    } else {
      assert [Commit(message)] + rest == [Commit(message)];
    }
  }

  /** How the staging part of `autoCommit` fails: exactly when `add -A`
      fails, which ends the run after that one call, or when the commit
      fails, which ends it after add, query and commit. A failing porcelain
      query ends nothing. */
  lemma StageThenCommitFails(settings: Settings, answered: string, unanswered: string, syncMessage: string, w: World)
    requires settings.enabled && settings.hasWorkspace
    ensures var o := StageThenCommit(settings, answered, unanswered, syncMessage, w);
      && (o.report.Failed? <==> |w.trace| in w.faults || |w.trace| + 2 in w.faults)
      && (o.report.Failed? ==> |o.world.trace| == if |w.trace| in w.faults then |w.trace| + 1 else |w.trace| + 3)
  {
    StageThenCommitUnfolds(settings, answered, unanswered, syncMessage, w);
    var add := Exec(w, AddAll);
    if add.error.None? {
      var raw := Exec(add.world, StatusPorcelain);
      var message := if |w.trace| + 1 in w.faults then unanswered else answered;
      CommitThenMaybeSyncRan(settings, message, syncMessage, raw.world);
    }
  }

  /** A failing porcelain query does not end `autoCommit`: the run goes on
      from the staged tree, with add and query logged, and commits the
      message kept for an unanswered query. */
  lemma StageThenCommitAfterFailedQuery(settings: Settings, answered: string, unanswered: string, syncMessage: string, w: World)
    requires |w.trace| !in w.faults && |w.trace| + 1 in w.faults
    ensures StageThenCommit(settings, answered, unanswered, syncMessage, w)
      == CommitThenMaybeSync(settings, unanswered, syncMessage,
           w.(index := Changes(w), worktree := {}, trace := w.trace + [AddAll, StatusPorcelain]))
  {
    StageThenCommitUnfolds(settings, answered, unanswered, syncMessage, w);
    var add := Exec(w, AddAll);
    assert add.world.trace + [StatusPorcelain] == w.trace + [AddAll, StatusPorcelain];
  }

  /** The staging part of `autoCommit` issues a prefix of its script,
      commits the message chosen by whether the query failed, and fails
      exactly as StageThenCommitFails says. */
  lemma StageThenCommitRan(settings: Settings, answered: string, unanswered: string, syncMessage: string, w: World)
    requires settings.enabled && settings.hasWorkspace
    ensures var o := StageThenCommit(settings, answered, unanswered, syncMessage, w);
      var message := if |w.trace| + 1 in w.faults then unanswered else answered;
      var script := AutoCommitScript(w, message, settings.syncAfterCommit);
      && Issued(w, o.world, script)
      && (o.report.Failed? <==> |w.trace| in w.faults || |w.trace| + 2 in w.faults)
      && (o.report.Failed? ==> |o.world.trace| == if |w.trace| in w.faults then |w.trace| + 1 else |w.trace| + 3)
      && (o.report.Failed? ==> |o.world.trace| - 1 in w.faults && o.report.error == w.faults[|o.world.trace| - 1]
                               && |o.world.trace| <= |w.trace| + 3)
      && (o.report.Committed? ==> o.report.message == message)
      && (NoPendingFaults(w) ==>
            && o.world.trace == w.trace + script
            && o.report == Committed(message, if settings.syncAfterCommit then Some(if w.remotes == 0 then NoRemote else Synced) else None)
            && Changes(o.world) == {})
  {
    StageThenCommitIssues(settings, answered, unanswered, syncMessage, w);
    StageThenCommitFails(settings, answered, unanswered, syncMessage, w);
  }

  lemma StageThenCommitIssues(settings: Settings, answered: string, unanswered: string, syncMessage: string, w: World)
    requires settings.enabled && settings.hasWorkspace
    ensures var o := StageThenCommit(settings, answered, unanswered, syncMessage, w);
      var message := if |w.trace| + 1 in w.faults then unanswered else answered;
      var script := AutoCommitScript(w, message, settings.syncAfterCommit);
      && Issued(w, o.world, script)
      && (o.report.Failed? ==> |o.world.trace| - 1 in w.faults && o.report.error == w.faults[|o.world.trace| - 1]
                               && |o.world.trace| <= |w.trace| + 3)
      && (o.report.Committed? ==> o.report.message == message)
      && (NoPendingFaults(w) ==>
            && o.world.trace == w.trace + script
            && o.report == Committed(message, if settings.syncAfterCommit then Some(if w.remotes == 0 then NoRemote else Synced) else None)
            && Changes(o.world) == {})
  {
    var message := if |w.trace| + 1 in w.faults then unanswered else answered;
    var rest := [Commit(message)] + (if settings.syncAfterCommit then [AddAll, StatusPorcelain, Status] + RemoteScript(w.remotes) else []);
    assert AutoCommitScript(w, message, settings.syncAfterCommit) == [AddAll] + ([StatusPorcelain] + rest);
    var add := Exec(w, AddAll);
    RanExec(w, AddAll);
    StageThenCommitUnfolds(settings, answered, unanswered, syncMessage, w);
    if add.error.Some? {
      IssuedStopped(w, add.world, [AddAll], [StatusPorcelain] + rest);
    } else {
      var raw := Exec(add.world, StatusPorcelain);
      RanExec(add.world, StatusPorcelain);
      CommitAfterStagingRan(settings, message, syncMessage, w, add.world, raw.world);
    }
  }

  /** The commit and sync that follow staging and the porcelain query,
      stated against the world before staging. */
  lemma CommitAfterStagingRan(settings: Settings, message: string, syncMessage: string, w: World, add: World, raw: World)
    requires settings.enabled && settings.hasWorkspace
    requires Issued(w, add, [AddAll]) && add.trace == w.trace + [AddAll]
    requires Issued(add, raw, [StatusPorcelain]) && raw.trace == add.trace + [StatusPorcelain]
    requires raw.worktree == {} && raw.remotes == w.remotes && |w.trace| !in w.faults
    ensures var o := CommitThenMaybeSync(settings, message, syncMessage, raw);
      var script := AutoCommitScript(w, message, settings.syncAfterCommit);
      && Issued(w, o.world, script)
      && (o.report.Failed? ==> |o.world.trace| - 1 in w.faults && o.report.error == w.faults[|o.world.trace| - 1]
                               && |o.world.trace| <= |w.trace| + 3)
      && (o.report.Committed? ==> o.report.message == message)
      && (NoPendingFaults(w) ==>
            && o.world.trace == w.trace + script
            && o.report == Committed(message, if settings.syncAfterCommit then Some(if w.remotes == 0 then NoRemote else Synced) else None)
            && Changes(o.world) == {})
  {
    var rest := [Commit(message)] + (if settings.syncAfterCommit then [AddAll, StatusPorcelain, Status] + RemoteScript(w.remotes) else []);
    assert AutoCommitScript(w, message, settings.syncAfterCommit) == [AddAll] + ([StatusPorcelain] + rest);
    CommitThenMaybeSyncRan(settings, message, syncMessage, raw);
    var o := CommitThenMaybeSync(settings, message, syncMessage, raw);
    IssuedTwoThen(w, add, raw, o.world, rest);
    if NoPendingFaults(w) {
      assert NoPendingFaults(raw);
    }
  }

  lemma StageThenCommitUnfolds(settings: Settings, answered: string, unanswered: string, syncMessage: string, w: World)
    ensures var message := if |w.trace| + 1 in w.faults then unanswered else answered;
      var add := Exec(w, AddAll);
      StageThenCommit(settings, answered, unanswered, syncMessage, w)
        == if add.error.Some? then Run(Failed(add.error.value), add.world)
           else CommitThenMaybeSync(settings, message, syncMessage, Exec(add.world, StatusPorcelain).world)
  {
  }

  lemma IssuedTwoThen(a: World, b: World, c: World, d: World, rest: seq<Op>)
    requires Issued(a, b, [AddAll]) && b.trace == a.trace + [AddAll]
    requires Issued(b, c, [StatusPorcelain]) && c.trace == b.trace + [StatusPorcelain]
    requires Issued(c, d, rest)
    ensures Issued(a, d, [AddAll] + ([StatusPorcelain] + rest))
  {
    IssuedThen(b, c, d, [StatusPorcelain], rest);
    IssuedThen(a, b, d, [AddAll], [StatusPorcelain] + rest);
  }

  /** An enabled `autoCommit` in a workspace issues a prefix of its script;
      it fails exactly when staging or the commit fails, never because of
      the porcelain query, and with no failure
      pending it commits the generated message, runs the sync when asked,
      and leaves nothing uncommitted. */
  lemma AutoCommitRan(settings: Settings, ai: Option<string>, now: string, w: World)
    requires settings.enabled && settings.hasWorkspace
    ensures var o := AutoCommitRun(settings, ai, now, w);
      var script := AutoCommitScript(w, AutoCommitMessage(w, ai, now), settings.syncAfterCommit);
      && Issued(w, o.world, script)
      && (o.report.Failed? <==> |w.trace| in w.faults || |w.trace| + 2 in w.faults)
      && (o.report.Failed? ==> |o.world.trace| == if |w.trace| in w.faults then |w.trace| + 1 else |w.trace| + 3)
      && (o.report.Failed? ==> |o.world.trace| - 1 in w.faults && o.report.error == w.faults[|o.world.trace| - 1]
                               && |o.world.trace| <= |w.trace| + 3)
      && (o.report.Committed? ==> o.report.message == AutoCommitMessage(w, ai, now) && !IsBlank(o.report.message))
      && (NoPendingFaults(w) ==>
            && o.world.trace == w.trace + script
            && o.report == Committed(GenerateCommitMessage(w.porcelain, ai, now),
                 if settings.syncAfterCommit then Some(if w.remotes == 0 then NoRemote else Synced) else None)
            && Changes(o.world) == {})
  {
    var fallback := AllChangesMessage(FallbackPrefix, now);
    AutoCommitRunThroughStaging(settings, ai, now, w);
    AutoCommitRunUnfolds(settings, ai, now, w);
    StageThenCommitFails(settings, MessageOrFallback(Some(GenerateCommitMessage(w.porcelain, ai, now)), fallback),
      MessageOrFallback(None, fallback), SyncMessage(w.porcelain, ai, now), w);
    AutoCommitMessageCases(w, ai, now);
    AutoCommitMessageNotBlank(w, ai, now);
    if NoPendingFaults(w) {
      assert |w.trace| + 1 !in w.faults;
    }
  }

  /** The message chosen inside the run is the one `AutoCommitMessage` names. */
  lemma AutoCommitMessageCases(w: World, ai: Option<string>, now: string)
    ensures var fallback := AllChangesMessage(FallbackPrefix, now);
      AutoCommitMessage(w, ai, now)
        == if |w.trace| + 1 in w.faults then MessageOrFallback(None, fallback)
           else MessageOrFallback(Some(GenerateCommitMessage(w.porcelain, ai, now)), fallback)
  {
    GeneratedMessageNeedsNoFallback(w.porcelain, ai, now, AllChangesMessage(FallbackPrefix, now));
  }

  lemma AutoCommitRunThroughStaging(settings: Settings, ai: Option<string>, now: string, w: World)
    requires settings.enabled && settings.hasWorkspace
    ensures var fallback := AllChangesMessage(FallbackPrefix, now);
      var answered := MessageOrFallback(Some(GenerateCommitMessage(w.porcelain, ai, now)), fallback);
      var unanswered := MessageOrFallback(None, fallback);
      var message := if |w.trace| + 1 in w.faults then unanswered else answered;
      var o := AutoCommitRun(settings, ai, now, w);
      var script := AutoCommitScript(w, message, settings.syncAfterCommit);
      && Issued(w, o.world, script)
      && (o.report.Failed? ==> |o.world.trace| - 1 in w.faults && o.report.error == w.faults[|o.world.trace| - 1]
                               && |o.world.trace| <= |w.trace| + 3)
      && (o.report.Committed? ==> o.report.message == message)
      && (NoPendingFaults(w) ==>
            && o.world.trace == w.trace + script
            && o.report == Committed(message, if settings.syncAfterCommit then Some(if w.remotes == 0 then NoRemote else Synced) else None)
            && Changes(o.world) == {})
  {
    var fallback := AllChangesMessage(FallbackPrefix, now);
    var answered := MessageOrFallback(Some(GenerateCommitMessage(w.porcelain, ai, now)), fallback);
    var unanswered := MessageOrFallback(None, fallback);
    AutoCommitRunUnfolds(settings, ai, now, w);
    StageThenCommitIssues(settings, answered, unanswered, SyncMessage(w.porcelain, ai, now), w);
  }

  lemma AutoCommitRunUnfolds(settings: Settings, ai: Option<string>, now: string, w: World)
    requires settings.enabled && settings.hasWorkspace
    ensures var fallback := AllChangesMessage(FallbackPrefix, now);
      AutoCommitRun(settings, ai, now, w)
        == StageThenCommit(settings, MessageOrFallback(Some(GenerateCommitMessage(w.porcelain, ai, now)), fallback),
             MessageOrFallback(None, fallback), SyncMessage(w.porcelain, ai, now), w)
  {
  }

  lemma AutoCommitMessageNotBlank(w: World, ai: Option<string>, now: string)
    ensures !IsBlank(AutoCommitMessage(w, ai, now))
  {
    NotBlankWith(AllChangesMessage(FallbackPrefix, now), 0);
  }

  lemma AutoCommitScriptShape(w: World, message: string, syncAfterCommit: bool)
    ensures var script := AutoCommitScript(w, message, syncAfterCommit);
      && PushAfterPull(script)
      && AtMostOneCommit(script)
      && (w.remotes == 0 || !syncAfterCommit ==> NoSync(script))
  {
    var script := AutoCommitScript(w, message, syncAfterCommit);
    var front := [AddAll, StatusPorcelain, Commit(message)] + (if syncAfterCommit then [AddAll, StatusPorcelain, Status] else []);
    var tail := if syncAfterCommit then RemoteScript(w.remotes) else [];
    assert script == front + tail;
    RemoteScriptShape(w.remotes);
    PushAfterPullAppend(front, tail);
    forall i, j | 0 <= i < j < |script| && script[i].Commit? ensures !script[j].Commit? {
      assert i == 2;
      if j >= |front| {
        assert tail[j - |front|] == script[j];
      }
    }
  }

  /** What `autoCommit` promises whichever git calls fail: nothing when
      disabled or without a workspace; at most one commit, even with the
      sync that follows it; no pull or push unless `syncAfterCommit` is on
      and there is a remote; every push right after a pull. */
  lemma AutoCommitSafety(settings: Settings, ai: Option<string>, now: string, w: World)
    ensures var o := AutoCommitRun(settings, ai, now, w);
      && |w.trace| <= |o.world.trace|
      && var ops := NewOps(w, o.world);
      && (!settings.enabled || !settings.hasWorkspace ==> ops == [])
      && PushAfterPull(ops)
      && AtMostOneCommit(ops)
      && (w.remotes == 0 || !settings.syncAfterCommit ==> NoSync(ops))
  {
    var o := AutoCommitRun(settings, ai, now, w);
    if settings.enabled && settings.hasWorkspace {
      var script := AutoCommitScript(w, AutoCommitMessage(w, ai, now), settings.syncAfterCommit);
      AutoCommitRan(settings, ai, now, w);
      AutoCommitScriptShape(w, AutoCommitMessage(w, ai, now), settings.syncAfterCommit);
      IssuedPrefixKeeps(w, o.world, script);
    }
  }

  // ---------------------------------------------------------------------
  // manualCommitAndSync

  /** The message `manualCommitAndSync` commits with. */
  function ManualMessage(statusOutput: string, ai: Option<string>, now: string): string {
    MessageOrFallback(Some(GenerateCommitMessage(statusOutput, ai, now)), AllChangesMessage(ManualPrefix, now))
  }

  /** What `manualCommitAndSync` issues when nothing fails: stage and count
      the staged changes; with some, read the porcelain status, commit, and
      run the remote phase. */
  function ManualScript(w: World, message: string): seq<Op> {
    [AddAll, Status] + (if Changes(w) == {} then [] else [StatusPorcelain, Commit(message)] + RemoteScript(w.remotes))
  }

  /** `manualCommitAndSync()`: not gated on `enabled`, only on an open
      workspace; stops with `No changes to commit` when nothing is staged. */
  function ManualCommitAndSyncRun(hasWorkspace: bool, ai: Option<string>, now: string, w: World): (o: Run)
    ensures !hasWorkspace ==> o == Run(NoWorkspace, w)
    ensures o.report in {NoWorkspace, NothingToCommit} || o.report.Failed? || o.report.Committed?
    ensures o.world.remotes == w.remotes && o.world.porcelain == w.porcelain
  {
    if !hasWorkspace then Run(NoWorkspace, w)
    else ManualSteps(ManualMessage(w.porcelain, ai, now), w)
  }

  /** The git calls of `manualCommitAndSync`, its message already chosen. */
  function ManualSteps(message: string, w: World): (o: Run)
    ensures o.report == NothingToCommit || o.report.Failed? || o.report.Committed?
    ensures o.world.remotes == w.remotes && o.world.porcelain == w.porcelain
  {
    var add := Exec(w, AddAll);
    if add.error.Some? then Run(Failed(add.error.value), add.world)
    else
      var status := Exec(add.world, Status);
      if status.error.Some? then Run(Failed(status.error.value), status.world)
      else if |status.world.index| == 0 then Run(NothingToCommit, status.world)
      else CommitStaged(message, status.world)
  }

  /** The part of `manualCommitAndSync` once something is staged. */
  function CommitStaged(message: string, w: World): (o: Run)
    ensures o.report.Failed? || o.report.Committed?
    ensures o.world.remotes == w.remotes && o.world.porcelain == w.porcelain
  {
    var raw := Exec(w, StatusPorcelain);
    if raw.error.Some? then Run(Failed(raw.error.value), raw.world)
    else
      var commit := Exec(raw.world, Commit(message));
      if commit.error.Some? then Run(Failed(commit.error.value), commit.world)
      else
        var sync := RemoteSync(commit.world);
        Run(if sync.report.Failed? then sync.report else Committed(message, Some(sync.report)), sync.world)
  }

  lemma CommitStagedRan(message: string, w: World)
    requires w.worktree == {}
    ensures var o := CommitStaged(message, w);
      && Ran(w, o.world, [StatusPorcelain, Commit(message)] + RemoteScript(w.remotes), ErrorOf(o.report))
      && (!o.report.Failed? ==> o.report == Committed(message, Some(if w.remotes == 0 then NoRemote else Synced)) && Changes(o.world) == {})
  {
    var o := CommitStaged(message, w);
    var tail := [Commit(message)] + RemoteScript(w.remotes);
    assert [StatusPorcelain, Commit(message)] + RemoteScript(w.remotes) == [StatusPorcelain] + tail;
    var raw := Exec(w, StatusPorcelain);
    RanExec(w, StatusPorcelain);
    if raw.error.Some? {
      RanStopped(w, raw.world, [StatusPorcelain], tail, raw.error.value);
    } else {
      var commit := Exec(raw.world, Commit(message));
      RanExec(raw.world, Commit(message));
      if commit.error.Some? {
        RanStopped(raw.world, commit.world, [Commit(message)], RemoteScript(w.remotes), commit.error.value);
      } else {
        var sync := RemoteSync(commit.world);
        RemoteSyncRan(commit.world);
        assert ErrorOf(o.report) == ErrorOf(sync.report);
        RanThen(raw.world, commit.world, o.world, [Commit(message)], RemoteScript(w.remotes), ErrorOf(o.report));
      }
      RanThen(w, raw.world, o.world, [StatusPorcelain], tail, ErrorOf(o.report));
    }
  }

  lemma ManualStepsRan(message: string, w: World)
    ensures var o := ManualSteps(message, w);
      && Ran(w, o.world, ManualScript(w, message), ErrorOf(o.report))
      && (!o.report.Failed? ==>
            o.report == if Changes(w) == {} then NothingToCommit
                        else Committed(message, Some(if w.remotes == 0 then NoRemote else Synced)))
  {
    var o := ManualSteps(message, w);
    var rest := if Changes(w) == {} then [] else [StatusPorcelain, Commit(message)] + RemoteScript(w.remotes);
    assert ManualScript(w, message) == [AddAll] + ([Status] + rest);
    var add := Exec(w, AddAll);
    RanExec(w, AddAll);
    if add.error.Some? {
      RanStopped(w, add.world, [AddAll], [Status] + rest, add.error.value);
      return;
    }
    var status := Exec(add.world, Status);
    RanExec(add.world, Status);
    if status.error.Some? {
      RanStopped(add.world, status.world, [Status], rest, status.error.value);
    } else if Changes(w) == {} {
      assert |status.world.index| == 0;
      RanNothing(status.world);
      RanThen(add.world, status.world, o.world, [Status], rest, None);
    } else {
      assert status.world.index == Changes(w) && status.world.worktree == {};
      CommitStagedRan(message, status.world);
      RanThen(add.world, status.world, o.world, [Status], rest, ErrorOf(o.report));
    }
    RanThen(w, add.world, o.world, [AddAll], [Status] + rest, ErrorOf(o.report));
  }

  lemma ManualScriptShape(w: World, message: string)
    ensures var script := ManualScript(w, message);
      && PushAfterPull(script)
      && (w.remotes == 0 ==> NoSync(script))
      && (Changes(w) == {} ==> script == [AddAll, Status])
  {
    RemoteScriptShape(w.remotes);
    if Changes(w) != {} {
      PushAfterPullAppend([AddAll, Status, StatusPorcelain, Commit(message)], RemoteScript(w.remotes));
      assert ManualScript(w, message) == [AddAll, Status, StatusPorcelain, Commit(message)] + RemoteScript(w.remotes);
    }
  }

  /** What the git calls of `manualCommitAndSync` promise for any message. */
  lemma ManualStepsSafety(message: string, w: World)
    ensures var o := ManualSteps(message, w);
      && |w.trace| <= |o.world.trace|
      && var ops := NewOps(w, o.world);
      && (Changes(w) == {} ==> !Commits(ops) && NoSync(ops))
      && PushAfterPull(ops)
      && (w.remotes == 0 ==> NoSync(ops))
      && (NoPendingFaults(w) ==>
            && ops == ManualScript(w, message)
            && o.report == if Changes(w) == {} then NothingToCommit
                           else Committed(message, Some(if w.remotes == 0 then NoRemote else Synced)))
  {
    var o := ManualSteps(message, w);
    ManualStepsRan(message, w);
    ManualScriptShape(w, message);
    IssuedPrefixKeeps(w, o.world, ManualScript(w, message));
    if NoPendingFaults(w) {
      RanWithoutFaults(w, o.world, ManualScript(w, message), ErrorOf(o.report));
    }
  }

  lemma ManualCommitAndSyncUnfolds(ai: Option<string>, now: string, w: World)
    ensures ManualCommitAndSyncRun(true, ai, now, w) == ManualSteps(GenerateCommitMessage(w.porcelain, ai, now), w)
  {
    GeneratedMessageNeedsNoFallback(w.porcelain, ai, now, AllChangesMessage(ManualPrefix, now));
  }

  /** What `manualCommitAndSync` promises whichever git calls fail, and
      whatever `enabled` says: nothing without a workspace; when `add -A`
      leaves nothing staged, no commit, pull or push; no pull or push without
      a remote; every push right after a pull. With no failure pending it
      commits the generated message. */
  lemma ManualCommitAndSyncSafety(hasWorkspace: bool, ai: Option<string>, now: string, w: World)
    ensures var o := ManualCommitAndSyncRun(hasWorkspace, ai, now, w);
      && |w.trace| <= |o.world.trace|
      && var ops := NewOps(w, o.world);
      && (!hasWorkspace ==> ops == [])
      && (Changes(w) == {} ==> !Commits(ops) && NoSync(ops))
      && PushAfterPull(ops)
      && (w.remotes == 0 ==> NoSync(ops))
      && (hasWorkspace && NoPendingFaults(w) ==>
            && ops == ManualScript(w, GenerateCommitMessage(w.porcelain, ai, now))
            && o.report == if Changes(w) == {} then NothingToCommit
                           else Committed(GenerateCommitMessage(w.porcelain, ai, now), Some(if w.remotes == 0 then NoRemote else Synced)))
  {
    if hasWorkspace {
      ManualCommitAndSyncUnfolds(ai, now, w);
      ManualStepsSafety(GenerateCommitMessage(w.porcelain, ai, now), w);
    } else {
      assert NewOps(w, w) == [];
    }
  }

  // ---------------------------------------------------------------------
  // The runs as the extension performs them, one `simple-git` call at a time

  /** The remote phase against the repository. */
  method SyncWithRemote(repo: Repository) returns (report: Report)
    modifies repo
    ensures Run(report, repo.State()) == RemoteSync(old(repo.State()))
  {
    var count, error := repo.GetRemotes();
    if error.Some? {
      return Failed(error.value);
    }
    if count == 0 {
      return NoRemote;
    }
    error := repo.Pull();
    if error.Some? {
      return Failed(error.value);
    }
    error := repo.Push();
    if error.Some? {
      return Failed(error.value);
    }
    report := Synced;
  }

  /** `autoSync()`. */
  method AutoSync(repo: Repository, settings: Settings, ai: Option<string>, now: string) returns (report: Report)
    modifies repo
    ensures Run(report, repo.State()) == AutoSyncRun(settings, ai, now, old(repo.State()))
  {
    if !settings.enabled {
      return Disabled;
    }
    if !settings.hasWorkspace {
      return NoWorkspace;
    }
    var error := repo.Add();
    if error.Some? {
      return Failed(error.value);
    }
    var text;
    text, error := repo.StatusPorcelain();
    if error.Some? {
      return Failed(error.value);
    }
    var message := MessageOrFallback(Some(GenerateCommitMessage(text, ai, now)), AllChangesMessage(FallbackPrefix, now));
    var files, staged;
    files, staged, error := repo.Status();
    if error.Some? {
      return Failed(error.value);
    }
    if staged > 0 {
      error := repo.Commit(message);
      if error.Some? {
        return Failed(error.value);
      }
    }
    report := SyncWithRemote(repo);
  }

  /** `autoCommit(document)`: a failing porcelain query is caught and leaves
      the message to the fallback; with `syncAfterCommit` the run ends with
      an `autoSync`, whose own outcome it reports. */
  method AutoCommit(repo: Repository, settings: Settings, ai: Option<string>, now: string) returns (report: Report)
    modifies repo
    ensures Run(report, repo.State()) == AutoCommitRun(settings, ai, now, old(repo.State()))
  {
    if !settings.enabled {
      return Disabled;
    }
    if !settings.hasWorkspace {
      return NoWorkspace;
    }
    ghost var w := repo.State();
    var error := repo.Add();
    if error.Some? {
      return Failed(error.value);
    }
    var text, queryError := repo.StatusPorcelain();
    var generated := if queryError.None? then Some(GenerateCommitMessage(text, ai, now)) else None;
    var message := MessageOrFallback(generated, AllChangesMessage(FallbackPrefix, now));
    error := repo.Commit(message);
    if error.Some? {
      return Failed(error.value);
    }
    if !settings.syncAfterCommit {
      return Committed(message, None);
    }
    ghost var committed := repo.State();
    var sync := AutoSync(repo, settings, ai, now);
    report := Committed(message, Some(sync));
    assert AutoSyncRun(settings, ai, now, committed) == AutoSyncWith(settings, SyncMessage(w.porcelain, ai, now), committed);
  }

  /** `manualCommitAndSync()`. */
  method ManualCommitAndSync(repo: Repository, hasWorkspace: bool, ai: Option<string>, now: string) returns (report: Report)
    modifies repo
    ensures Run(report, repo.State()) == ManualCommitAndSyncRun(hasWorkspace, ai, now, old(repo.State()))
  {
    if !hasWorkspace {
      return NoWorkspace;
    }
    var error := repo.Add();
    if error.Some? {
      return Failed(error.value);
    }
    var files, staged;
    files, staged, error := repo.Status();
    if error.Some? {
      return Failed(error.value);
    }
    if staged == 0 {
      return NothingToCommit;
    }
    var text;
    text, error := repo.StatusPorcelain();
    if error.Some? {
      return Failed(error.value);
    }
    var message := MessageOrFallback(Some(GenerateCommitMessage(text, ai, now)), AllChangesMessage(ManualPrefix, now));
    error := repo.Commit(message);
    if error.Some? {
      return Failed(error.value);
    }
    var sync := SyncWithRemote(repo);
    report := if sync.Failed? then sync else Committed(message, Some(sync));
  }
}
