/** The repository the extension drives through `simple-git`, seen from the
    outside: the changes waiting in the work tree, the staged set, the number
    of remotes, the text `git status --porcelain` answers, and the log of
    every git operation issued. Any operation may fail; which ones do is
    fixed in advance by a map from trace positions to error texts, so that a
    property proved for every such map holds whichever calls fail. */
module Git {
  import opened Options

  /** The `simple-git` calls the extension makes. */
  datatype Op =
    | AddAll            // git.add("-A")
    | StatusPorcelain   // git.raw(["status", "--porcelain"])
    | Status            // git.status()
    | Commit(message: string)
    | GetRemotes        // git.getRemotes(true)
    | Pull
    | Push

  /** The repository and its environment. `faults[k]` is the error text of
      the operation issued at trace position `k`, if that one fails. */
  datatype World = World(
    worktree: set<string>,
    index: set<string>,
    remotes: nat,
    porcelain: string,
    faults: map<nat, string>,
    trace: seq<Op>)

  /** The world after one operation, and the error it raised, if any. */
  datatype Step = Step(world: World, error: Option<string>)

  /** The error the next operation raises. */
  function NextFault(w: World): Option<string> {
    if |w.trace| in w.faults then Some(w.faults[|w.trace|]) else None
  }

  /** Only an operation issued from now on can fail. */
  predicate NoPendingFaults(w: World) {
    forall k :: k in w.faults ==> k < |w.trace|
  }

  /** Everything the work tree and the index hold between them. */
  function Changes(w: World): set<string> {
    w.index + w.worktree
  }

  /** Issuing one operation: it is logged whether or not it fails; a failing
      one changes nothing else. `add -A` stages every change and `commit`
      empties the index; the queries change nothing. */
  function Exec(w: World, op: Op): (s: Step)
    ensures s.world.trace == w.trace + [op]
    ensures s.world.remotes == w.remotes && s.world.porcelain == w.porcelain && s.world.faults == w.faults
    ensures s.error.Some? <==> |w.trace| in w.faults
    ensures s.error.Some? ==> s.error.value == w.faults[|w.trace|]
    ensures !op.Commit? ==> Changes(s.world) == Changes(w)
    ensures s.error.None? && op == AddAll ==> s.world.worktree == {}
    ensures s.error.None? && op.Commit? ==> s.world.index == {} && s.world.worktree == w.worktree
    ensures s.error.Some? || !(op == AddAll || op.Commit?) ==>
      s.world.worktree == w.worktree && s.world.index == w.index
  {
    var logged := w.(trace := w.trace + [op]);
    match NextFault(w)
    case Some(e) => Step(logged, Some(e))
    case None =>
      match op
      case AddAll => Step(logged.(index := w.index + w.worktree, worktree := {}), None)
      case Commit(_) => Step(logged.(index := {}), None)
      case _ => Step(logged, None)
  }

  /** A step that was not taken: the world as it is, and no error. */
  function Skip(w: World): Step {
    Step(w, None)
  }

  /** The operations issued since `before`. */
  function NewOps(before: World, after: World): seq<Op>
    requires |before.trace| <= |after.trace|
  {
    after.trace[|before.trace|..]
  }

  /** The repository as the extension sees it through `simple-git`. */
  class Repository {
    var worktree: set<string>
    var index: set<string>
    var remotes: nat
    var porcelain: string
    var faults: map<nat, string>
    var trace: seq<Op>

    function State(): World
      reads this
    {
      World(worktree, index, remotes, porcelain, faults, trace)
    }

    constructor (w: World)
      ensures State() == w
    {
      worktree, index, remotes, porcelain, faults, trace :=
        w.worktree, w.index, w.remotes, w.porcelain, w.faults, w.trace;
    }

    /** Logs `op` and answers the error it raises, if any. */
    method Issue(op: Op) returns (error: Option<string>)
      modifies this
      ensures error == NextFault(old(State()))
      ensures State() == old(State()).(trace := old(trace) + [op])
    {
      error := if |trace| in faults then Some(faults[|trace|]) else None;
      trace := trace + [op];
    }

    /** `git.add("-A")`. */
    method Add() returns (error: Option<string>)
      modifies this
      ensures Step(State(), error) == Exec(old(State()), Op.AddAll)
    {
      error := Issue(Op.AddAll);
      if error.None? {
        index := index + worktree;
        worktree := {};
      }
    }

    /** `git.raw(["status", "--porcelain"])`. */
    method StatusPorcelain() returns (text: string, error: Option<string>)
      modifies this
      ensures Step(State(), error) == Exec(old(State()), Op.StatusPorcelain)
      ensures error.None? ==> text == porcelain
    {
      error := Issue(Op.StatusPorcelain);
      text := porcelain;
    }

    /** `git.status()`: how many files differ, and how many are staged. */
    method Status() returns (files: nat, staged: nat, error: Option<string>)
      modifies this
      ensures Step(State(), error) == Exec(old(State()), Op.Status)
      ensures error.None? ==> files == |Changes(State())| && staged == |index|
    {
      error := Issue(Op.Status);
      files := |index + worktree|;
      staged := |index|;
    }

    /** `git.commit(message)`. */
    method Commit(message: string) returns (error: Option<string>)
      modifies this
      ensures Step(State(), error) == Exec(old(State()), Op.Commit(message))
    {
      error := Issue(Op.Commit(message));
      if error.None? {
        index := {};
      }
    }

    /** `git.getRemotes(true)`: how many remotes are configured. */
    method GetRemotes() returns (count: nat, error: Option<string>)
      modifies this
      ensures Step(State(), error) == Exec(old(State()), Op.GetRemotes)
      ensures error.None? ==> count == remotes
    {
      error := Issue(Op.GetRemotes);
      count := remotes;
    }

    method Pull() returns (error: Option<string>)
      modifies this
      ensures Step(State(), error) == Exec(old(State()), Op.Pull)
    {
      error := Issue(Op.Pull);
    }

    method Push() returns (error: Option<string>)
      modifies this
      ensures Step(State(), error) == Exec(old(State()), Op.Push)
    {
      error := Issue(Op.Push);
    }
  }
}
