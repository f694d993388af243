/**
  Preparing a task's branch: it is created from the base unless it exists, fetched, and marked in
  progress by an opening commit unless its tracker says so already. Every call to origin may fail,
  and a push may land and still be reported as failed.
 */
module OpeningCommit {
  import opened Wrappers
  import opened Records
  import opened BranchNames
  import opened Commits

  // ----- What a branch says of a task -----

  predicate Touches(patch: Patch, task: TaskId) { !patch.Other? && patch.task == task }

  function Effect(patch: Patch): Option<Status> {
    match patch
    case Opening(_) => Some(InProgress)
    case Marks(_, status) => Some(status)
    case Drops(_) => None
    case Other(_) => None
  }

  /** The task's status in the tracker at a commit, if it has an entry. */
  function StatusAt(c: Commit, task: TaskId): Option<Status> {
    if c.Root? then None else if Touches(c.patch, task) then Effect(c.patch) else StatusAt(c.parent, task)
  }

  /** A patch decides the status of the one task it touches, and leaves every other as it was. */
  lemma StatusMeans(c: Commit, task: TaskId, other: TaskId, status: Status, name: string)
    ensures StatusAt(Root, task).None?
    ensures StatusAt(Child(c, Opening(task)), task) == Some(InProgress)
    ensures StatusAt(Child(c, Marks(task, status)), task) == Some(status)
    ensures StatusAt(Child(c, Drops(task)), task).None?
    ensures StatusAt(Child(c, Other(name)), task) == StatusAt(c, task)
    ensures other != task ==>
      && StatusAt(Child(c, Opening(task)), other) == StatusAt(Child(c, Marks(task, status)), other)
      == StatusAt(Child(c, Drops(task)), other) == StatusAt(c, other)
  {
  }

  function Touching(patches: seq<Patch>, task: TaskId): seq<Patch> {
    if patches == [] then [] else
      Touching(patches[..|patches| - 1], task)
      + if Touches(patches[|patches| - 1], task) then [patches[|patches| - 1]] else []
  }

  // ----- One preparation -----

  datatype Push = Push(lands: bool, reported: bool)

  /** What others do to the branch. */
  datatype Move = Commits(patches: seq<Patch>) | Deletes

  /** How the calls of a preparation go; `meanwhile` is what others do before its last push. */
  datatype Faults = Faults(looked: bool, created: Push, fetched: bool, meanwhile: seq<Move>, marked: Push)

  const CALM := Faults(true, Push(true, true), true, [], Push(true, true))

  /** The branch on origin, its copy in the clone, and the commit it was last created from. */
  datatype World = World(remote: Option<Commit>, tracked: Option<Commit>, base: Commit)

  function Extend(tip: Commit, patches: seq<Patch>): Commit
    decreases |patches|
  {
    if patches == [] then tip else Extend(Child(tip, patches[0]), patches[1..])
  }

  function Moved(remote: Option<Commit>, moves: seq<Move>): Option<Commit>
    decreases |moves|
  {
    if moves == [] then remote else
      match moves[0]
      case Commits(patches) => Moved(if remote.None? then None else Some(Extend(remote.value, patches)), moves[1..])
      case Deletes => Moved(None, moves[1..])
  }

  /** A push or fetch that is not forced moves a ref only forward. */
  predicate Forward(from: Option<Commit>, to: Commit) { from.None? || IsAncestor(from.value, to) }

  function Ensured(w: World, base: Commit, go: Faults): (World, bool) {
    if !go.looked then (w, false)
    else
      var creates := w.remote.None?;
      var w1 := if creates && go.created.lands then w.(remote := Some(base), base := base) else w;
      if creates && !(go.created.lands && go.created.reported) then (w1, false)
      else if !go.fetched || !Forward(w1.tracked, w1.remote.value) then (w1, false)
      else (w1.(tracked := w1.remote), true)
  }

  /** `Ok` says whether this call made the opening commit. */
  function Opened(w: World, task: TaskId, go: Faults): (World, Result<bool>)
    requires w.tracked.Some?
  {
    var tip := w.tracked.value;
    var status := StatusAt(tip, task);
    if status.None? then (w, Refused(502))
    else if status == Some(InProgress) then (w, Ok(false))
    else
      var opening := Child(tip, Opening(task));
      var w1 := w.(remote := Moved(w.remote, go.meanwhile));
      var landed := go.marked.lands && Forward(w1.remote, opening);
      (if landed then w1.(remote := Some(opening)) else w1,
       if landed && go.marked.reported then Ok(true) else Refused(502))
  }

  function PreparedWorld(w: World, task: TaskId, base: Commit, go: Faults): (World, Result<bool>) {
    var (w1, ready) := Ensured(w, base, go);
    if ready then Opened(w1, task, go) else (w1, Refused(502))
  }

  /** How a removal goes: whether the lookup answers, and what becomes of the deletion on origin. */
  datatype Removal = Removal(looked: bool, deleted: Push)

  /** The branch goes from origin, if it is there, and then from the clone. */
  function Cleared(w: World, go: Removal): (World, bool) {
    if !go.looked then (w, false)
    else
      var w1 := if go.deleted.lands then w.(remote := None) else w;
      if w.remote.Some? && !(go.deleted.lands && go.deleted.reported) then (w1, false)
      else (w1.(tracked := None), true)
  }

  /** A forced fetch, as a rebase begins with. */
  function Refetched(w: World): World { if w.remote.Some? then w.(tracked := w.remote) else w }

  function Entry(refs: Remote, name: string): Option<Commit> { if name in refs then Some(refs[name]) else None }

  function WithEntry(refs: Remote, name: string, tip: Option<Commit>): (r: Remote)
    ensures Entry(r, name) == tip && forall other | other != name :: Entry(r, other) == Entry(refs, other)
  {
    if tip.None? then refs - {name} else refs[name := tip.value]
  }

  class Clone {
    /** Origin's branches and the clone's copies of them. */
    var refs: Remote
    var tracking: Remote
    /** The commit each task branch was last created from. */
    ghost var bases: Remote

    constructor (refs: Remote, tracking: Remote)
      ensures this.refs == refs && this.tracking == tracking && bases == map[]
    {
      this.refs, this.tracking, bases := refs, tracking, map[];
    }

    ghost function WorldOf(task: TaskId): World
      reads this
    {
      var name := TaskBranch(task);
      World(Entry(refs, name), Entry(tracking, name), if name in bases then bases[name] else Root)
    }

    /** Only this task's branch changes. */
    twostate predicate OnlyBranch(task: TaskId)
      reads this
    {
      && (forall name | name != TaskBranch(task) :: Entry(refs, name) == Entry(old(refs), name))
      && (forall name | name != TaskBranch(task) :: Entry(tracking, name) == Entry(old(tracking), name))
    }

    method EnsureTaskBranch(task: TaskId, base: Commit, go: Faults) returns (ready: bool)
      modifies this
      ensures (WorldOf(task), ready) == Ensured(old(WorldOf(task)), base, go)
      ensures OnlyBranch(task)
      // a branch that exists is left alone; one that does not is created at the base, or stays absent
      ensures
        var was, now := Entry(old(refs), TaskBranch(task)), Entry(refs, TaskBranch(task));
        now == if was.None? && go.looked && go.created.lands then Some(base) else was
      // ready: the clone has what origin has, and has not gone back for it
      ensures ready ==> TaskBranch(task) in refs && Entry(tracking, TaskBranch(task)) == Some(refs[TaskBranch(task)])
      ensures ready ==>
        TaskBranch(task) in old(tracking) ==> IsAncestor(old(tracking)[TaskBranch(task)], refs[TaskBranch(task)])
      ensures !ready ==> tracking == old(tracking)
    {
      var name := TaskBranch(task);
      if !go.looked {
        return false;
      }
      if name !in refs {
        if go.created.lands {
          refs := refs[name := base];
          bases := bases[name := base];
        }
        if !go.created.lands || !go.created.reported {
          return false;
        }
      }
      if !go.fetched || !Forward(Entry(tracking, name), refs[name]) {
        return false;
      }
      tracking := tracking[name := refs[name]];
      return true;
    }

    /** Others change the branch. */
    method Interfere(task: TaskId, moves: seq<Move>)
      modifies this`refs
      ensures refs == WithEntry(old(refs), TaskBranch(task), Moved(Entry(old(refs), TaskBranch(task)), moves))
    {
      var name := TaskBranch(task);
      for i := 0 to |moves|
        invariant Moved(Entry(refs, name), moves[i..]) == Moved(Entry(old(refs), name), moves)
        invariant refs == WithEntry(old(refs), name, Entry(refs, name))
      {
        assert moves[i..][1..] == moves[i + 1..];
        match moves[i] {
          case Commits(patches) =>
            if name in refs { refs := refs[name := Extend(refs[name], patches)]; }
          case Deletes =>
            refs := refs - {name};
        }
      }
    }

    method PushOpeningCommit(task: TaskId, go: Faults) returns (result: Result<bool>)
      requires TaskBranch(task) in tracking
      modifies this
      ensures (WorldOf(task), result) == Opened(old(WorldOf(task)), task, go)
      ensures OnlyBranch(task) && tracking == old(tracking)
      ensures
        var name := TaskBranch(task);
        var status, opening := StatusAt(tracking[name], task), Child(tracking[name], Opening(task));
        if status.None? || status == Some(InProgress) then
          refs == old(refs) && result == if status.None? then Refused(502) else Ok(false)
        else
          var left := Moved(Entry(old(refs), name), go.meanwhile);
          // what others committed meanwhile is still there
          && (left.Some? ==> name in refs && IsAncestor(left.value, refs[name]))
          // a branch that went its own way is not touched, and the call fails
          && (left.Some? && !IsAncestor(left.value, opening) ==> result == Refused(502) && refs[name] == left.value)
          && (left.None? || IsAncestor(left.value, opening) ==>
                Entry(refs, name) == (if go.marked.lands then Some(opening) else left)
                && result == if go.marked.lands && go.marked.reported then Ok(true) else Refused(502))
    {
      var name := TaskBranch(task);
      var tip := tracking[name];
      var status := StatusAt(tip, task);
      if status.None? {
        return Refused(502);
      }
      if status == Some(InProgress) {
        return Ok(false);
      }
      var opening := Child(tip, Opening(task));
      Interfere(task, go.meanwhile);
      var landed := go.marked.lands && Forward(Entry(refs, name), opening);
      if landed {
        refs := refs[name := opening];
      }
      return if landed && go.marked.reported then Ok(true) else Refused(502);
    }

    method DeleteTaskBranch(task: TaskId, go: Removal) returns (done: bool)
      modifies this
      ensures (WorldOf(task), done) == Cleared(old(WorldOf(task)), go)
      ensures OnlyBranch(task)
      ensures done ==> TaskBranch(task) !in refs && TaskBranch(task) !in tracking
      ensures !done ==> tracking == old(tracking)
    {
      var name := TaskBranch(task);
      if !go.looked {
        return false;
      }
      if name in refs {
        if go.deleted.lands {
          refs := refs - {name};
        }
        if !go.deleted.lands || !go.deleted.reported {
          return false;
        }
      }
      tracking := tracking - {name};
      return true;
    }

    method Prepare(task: TaskId, base: Commit, go: Faults) returns (result: Result<bool>)
      modifies this
      ensures (WorldOf(task), result) == PreparedWorld(old(WorldOf(task)), task, base, go)
      ensures OnlyBranch(task)
    {
      var ready := EnsureTaskBranch(task, base, go);
      if !ready {
        return Refused(502);
      }
      result := PushOpeningCommit(task, go);
    }
  }

  // ----- Any sequence of preparations -----

  datatype Step = Prepares(base: Commit, go: Faults) | Expires(removal: Removal) | Refetches | Others(move: Move)

  function After(w: World, task: TaskId, step: Step): World {
    match step
    case Prepares(base, go) => PreparedWorld(w, task, base, go).0
    case Expires(removal) => Cleared(w, removal).0
    case Refetches => Refetched(w)
    case Others(move) => w.(remote := Moved(w.remote, [move]))
  }

  function Run(w: World, task: TaskId, steps: seq<Step>): World {
    if steps == [] then w else After(Run(w, task, steps[..|steps| - 1]), task, steps[|steps| - 1])
  }

  /** Nobody else edits this task's status on the branch. */
  ghost predicate HandsOff(move: Move, task: TaskId) {
    move.Commits? ==> forall patch | patch in move.patches :: !Touches(patch, task)
  }

  ghost predicate Undisturbed(step: Step, task: TaskId) {
    match step
    case Prepares(_, go) => forall move | move in go.meanwhile :: HandsOff(move, task)
    case Expires(_) => true
    case Refetches => true
    case Others(move) => HandsOff(move, task)
  }

  /** How many opening commits the branch has past its base: none, or one if the base was not in progress. */
  ghost predicate Clean(base: Commit, tip: Commit, task: TaskId) {
    && IsAncestor(base, tip)
    && var own := Touching(PatchesAfter(base, tip), task);
       if own == [] then StatusAt(tip, task) == StatusAt(base, task)
       else own == [Opening(task)] && StatusAt(tip, task) == Some(InProgress) && StatusAt(base, task) != Some(InProgress)
  }

  ghost predicate Inv(w: World, task: TaskId) {
    w.remote.Some? ==> Clean(w.base, w.remote.value, task)
  }

  lemma {:induction false} ExtendKeeps(base: Commit, tip: Commit, patches: seq<Patch>, task: TaskId)
    requires Clean(base, tip, task) && forall patch | patch in patches :: !Touches(patch, task)
    ensures Clean(base, Extend(tip, patches), task)
    decreases |patches|
  {
    if patches == [] {
    } else {
      var next := Child(tip, patches[0]);
      AddOne(base, tip, patches[0], task);
      ExtendKeeps(base, next, patches[1..], task);
    }
  }

  /** One more commit past the base. */
  lemma AddOne(base: Commit, tip: Commit, patch: Patch, task: TaskId)
    requires IsAncestor(base, tip)
    ensures IsAncestor(base, Child(tip, patch))
    ensures Touching(PatchesAfter(base, Child(tip, patch)), task) ==
      Touching(PatchesAfter(base, tip), task) + if Touches(patch, task) then [patch] else []
  {
    OnePatch(base, tip, patch);
    var patches := PatchesAfter(base, tip);
    assert (patches + [patch])[..|patches|] == patches;
  }

  lemma {:induction false} MovesKeep(base: Commit, remote: Option<Commit>, moves: seq<Move>, task: TaskId)
    requires remote.Some? ==> Clean(base, remote.value, task)
    requires forall move | move in moves :: HandsOff(move, task)
    ensures var after := Moved(remote, moves); after.Some? ==> Clean(base, after.value, task)
    decreases |moves|
  {
    if moves == [] {
    } else {
      var move := moves[0];
      assert HandsOff(move, task);
      if move.Commits? && remote.Some? {
        ExtendKeeps(base, remote.value, move.patches, task);
      }
      var next := if move.Deletes? || remote.None? then None else Some(Extend(remote.value, move.patches));
      MovesKeep(base, next, moves[1..], task);
    }
  }

  lemma EnsureKeeps(w: World, task: TaskId, base: Commit, go: Faults)
    requires Inv(w, task)
    ensures
      var (after, ready) := Ensured(w, base, go);
      Inv(after, task) && (ready ==> after.remote.Some? && after.tracked == after.remote)
  {
    if w.remote.None? {
      assert Clean(base, base, task) by { assert PatchesAfter(base, base) == []; }
    }
  }

  lemma OpeningIsClean(base: Commit, tip: Commit, task: TaskId)
    requires Clean(base, tip, task) && StatusAt(tip, task) != Some(InProgress)
    ensures Clean(base, Child(tip, Opening(task)), task)
    ensures StatusAt(Child(tip, Opening(task)), task) == Some(InProgress)
  {
    AddOne(base, tip, Opening(task), task);
  }

  lemma OpenKeeps(w: World, task: TaskId, go: Faults)
    requires Inv(w, task) && w.remote.Some? && w.tracked == w.remote
    requires forall move | move in go.meanwhile :: HandsOff(move, task)
    ensures
      var (after, result) := Opened(w, task, go);
      && Inv(after, task)
      && (result.Ok? ==> after.remote.Some? && StatusAt(after.remote.value, task) == Some(InProgress))
  {
    var tip := w.tracked.value;
    MovesKeep(w.base, w.remote, go.meanwhile, task);
    if StatusAt(tip, task) != Some(InProgress) { OpeningIsClean(w.base, tip, task); }
  }

  lemma PrepareKeeps(w: World, task: TaskId, base: Commit, go: Faults)
    requires Inv(w, task) && forall move | move in go.meanwhile :: HandsOff(move, task)
    ensures
      var (after, result) := PreparedWorld(w, task, base, go);
      && Inv(after, task)
      && (result.Ok? ==> after.remote.Some? && StatusAt(after.remote.value, task) == Some(InProgress))
  {
    EnsureKeeps(w, task, base, go);
    var (w1, ready) := Ensured(w, base, go);
    if ready { OpenKeeps(w1, task, go); }
  }

  lemma {:induction false} RunKeeps(w: World, task: TaskId, steps: seq<Step>)
    requires Inv(w, task) && forall step | step in steps :: Undisturbed(step, task)
    ensures Inv(Run(w, task, steps), task)
  {
    if steps == [] {
    } else {
      var before, step := steps[..|steps| - 1], steps[|steps| - 1];
      RunKeeps(w, task, before);
      assert Undisturbed(step, task);
      match step {
        case Prepares(base, go) => PrepareKeeps(Run(w, task, before), task, base, go);
        case Expires(removal) =>
        case Refetches =>
        case Others(move) => MovesKeep(Run(w, task, before).base, Run(w, task, before).remote, [move], task);
      }
    }
  }

  /**
    Any sequence of preparations, failed at any point or landed and reported as failed, with others
    committing in between, leaves at most one opening commit past the base; and after one that
    succeeds there is exactly one if the base had another status, and none if it was in progress.
   */
  lemma OneOpeningCommit(w: World, task: TaskId, steps: seq<Step>, base: Commit, go: Faults)
    requires w.remote.None?
    requires forall step | step in steps :: Undisturbed(step, task)
    requires Undisturbed(Prepares(base, go), task)
    ensures
      var before := Run(w, task, steps);
      var (after, result) := PreparedWorld(before, task, base, go);
      && (before.remote.Some? ==>
            IsAncestor(before.base, before.remote.value)
            && |Touching(PatchesAfter(before.base, before.remote.value), task)| <= 1)
      && (result.Ok? ==>
            && after.remote.Some? && IsAncestor(after.base, after.remote.value)
            && Touching(PatchesAfter(after.base, after.remote.value), task) ==
                 if StatusAt(after.base, task) == Some(InProgress) then [] else [Opening(task)])
  {
    RunKeeps(w, task, steps);
    PrepareKeeps(Run(w, task, steps), task, base, go);
  }

  /**
    Left undisturbed, a preparation succeeds exactly when the clone's copy of the branch can be
    brought forward and the tracker on the branch has the task; and the next one then adds nothing.
   */
  lemma CalmPreparation(w: World, task: TaskId, base: Commit, base': Commit)
    ensures
      var (after, result) := PreparedWorld(w, task, base, CALM);
      var tip := if w.remote.Some? then w.remote.value else base;
      && (result.Ok? <==> Forward(w.tracked, tip) && StatusAt(tip, task).Some?)
      && (result.Ok? ==> PreparedWorld(after, task, base', CALM) == (after.(tracked := after.remote), Ok(false)))
  {
    var tip := if w.remote.Some? then w.remote.value else base;
    var (w1, ready) := Ensured(w, base, CALM);
    assert ready <==> Forward(w.tracked, tip);
    if ready {
      assert w1.remote == w1.tracked == Some(tip);
      assert Moved(w1.remote, []) == w1.remote;
      assert IsAncestor(tip, Child(tip, Opening(task)).parent);
    }
  }

  // ----- No commit is lost -----

  ghost predicate NoneDeletes(moves: seq<Move>) { forall move | move in moves :: move.Commits? }

  /** Nobody deletes the branch in this step. */
  ghost predicate Preserves(step: Step) {
    match step
    case Prepares(_, go) => NoneDeletes(go.meanwhile)
    case Expires(_) => false
    case Refetches => true
    case Others(move) => move.Commits?
  }

  /** What was on the branch is still on it. */
  ghost predicate StillThere(before: Option<Commit>, after: Option<Commit>) {
    before.Some? ==> after.Some? && IsAncestor(before.value, after.value)
  }

  lemma StillThereChains(a: Option<Commit>, b: Option<Commit>, c: Option<Commit>)
    requires StillThere(a, b) && StillThere(b, c)
    ensures StillThere(a, c)
  {
    if a.Some? { AncestryIsTransitive(a.value, b.value, c.value); }
  }

  lemma {:induction false} CommitsStay(remote: Option<Commit>, moves: seq<Move>)
    requires NoneDeletes(moves)
    ensures StillThere(remote, Moved(remote, moves))
    decreases |moves|
  {
    if moves == [] {
    } else {
      assert moves[0] in moves;
      var next := if remote.None? then None else Some(Extend(remote.value, moves[0].patches));
      if remote.Some? { ExtendGoesOn(remote.value, moves[0].patches); }
      assert forall move | move in moves[1..] :: move in moves;
      CommitsStay(next, moves[1..]);
      StillThereChains(remote, next, Moved(remote, moves));
    }
  }

  /** A preparation keeps whatever others have put on the branch, up to the moment of its last push. */
  lemma PreparationLosesNothing(w: World, task: TaskId, base: Commit, go: Faults)
    requires NoneDeletes(go.meanwhile)
    ensures StillThere(w.remote, PreparedWorld(w, task, base, go).0.remote)
  {
    hide StatusAt;
    var (w1, ready) := Ensured(w, base, go);
    assert StillThere(w.remote, w1.remote);
    if ready {
      CommitsStay(w1.remote, go.meanwhile);
      var left := Moved(w1.remote, go.meanwhile);
      assert StillThere(left, Opened(w1, task, go).0.remote) || Opened(w1, task, go).0.remote == w1.remote;
      if StillThere(left, Opened(w1, task, go).0.remote) {
        StillThereChains(w1.remote, left, Opened(w1, task, go).0.remote);
      }
      StillThereChains(w.remote, w1.remote, Opened(w1, task, go).0.remote);
    }
  }

  /** Unless somebody deletes the branch, no sequence of preparations and commits loses a commit. */
  lemma {:induction false} NoCommitIsLost(w: World, task: TaskId, steps: seq<Step>)
    requires forall step | step in steps :: Preserves(step)
    ensures StillThere(w.remote, Run(w, task, steps).remote)
  {
    if steps == [] {
    } else {
      var front, last := steps[..|steps| - 1], steps[|steps| - 1];
      NoCommitIsLost(w, task, front);
      assert last in steps;
      var before, after := Run(w, task, front), Run(w, task, steps);
      match last {
        case Prepares(base, go) => PreparationLosesNothing(before, task, base, go);
        case Refetches =>
        case Others(move) =>
          assert move in [move] && forall m | m in [move] :: m == move;
          CommitsStay(before.remote, [move]);
        case Expires(_) => assert false;
      }
      StillThereChains(w.remote, before.remote, after.remote);
    }
  }

  // ----- A copy that origin has left behind -----

  /** The clone's copy and origin's branch have both gone their own way. */
  ghost predicate Diverged(w: World) {
    && w.tracked.Some? && w.remote.Some?
    && !IsAncestor(w.tracked.value, w.remote.value) && !IsAncestor(w.remote.value, w.tracked.value)
  }

  lemma {:induction false} ExtendGoesOn(tip: Commit, patches: seq<Patch>)
    ensures IsAncestor(tip, Extend(tip, patches))
    decreases |patches|
  {
    if patches == [] {
    } else {
      var next := Child(tip, patches[0]);
      ExtendGoesOn(next, patches[1..]);
      assert IsAncestor(tip, next.parent);
      AncestryIsTransitive(tip, next, Extend(tip, patches));
    }
  }

  /** Of two ancestors of one commit, one is an ancestor of the other. */
  lemma {:induction false} AncestorsCompare(a: Commit, b: Commit, tip: Commit)
    requires IsAncestor(a, tip) && IsAncestor(b, tip)
    ensures IsAncestor(a, b) || IsAncestor(b, a)
  {
    if a == tip || b == tip {
    } else {
      AncestorsCompare(a, b, tip.parent);
    }
  }

  lemma {:induction false} ExtendByPatches(base: Commit, tip: Commit, more: seq<Patch>)
    requires IsAncestor(base, tip)
    ensures Extend(base, PatchesAfter(base, tip) + more) == Extend(tip, more)
  {
    if base == tip {
      assert PatchesAfter(base, tip) + more == more;
    } else {
      var front := PatchesAfter(base, tip.parent);
      assert PatchesAfter(base, tip) + more == front + ([tip.patch] + more);
      ExtendByPatches(base, tip.parent, [tip.patch] + more);
      assert ([tip.patch] + more)[1..] == more;
    }
  }

  predicate BringUp(copy: Commit, tip: Commit, patches: seq<Patch>) { IsAncestor(copy, Extend(tip, patches)) }

  lemma CatchesUp(copy: Commit, tip: Commit) returns (patches: seq<Patch>)
    requires IsAncestor(copy, tip) || IsAncestor(tip, copy)
    ensures BringUp(copy, tip, patches)
  {
    if IsAncestor(copy, tip) {
      patches := [];
      assert Extend(tip, patches) == tip;
    } else {
      patches := PatchesAfter(tip, copy);
      ExtendByPatches(tip, copy, []);
      assert patches + [] == patches && Extend(copy, []) == copy;
    }
  }

  /** Commits on origin's branch can bring it up to a copy exactly when the two have not diverged. */
  lemma CanCatchUp(copy: Commit, tip: Commit)
    ensures (exists patches :: BringUp(copy, tip, patches)) <==> IsAncestor(copy, tip) || IsAncestor(tip, copy)
  {
    if IsAncestor(copy, tip) || IsAncestor(tip, copy) {
      var patches := CatchesUp(copy, tip);
      assert BringUp(copy, tip, patches);
    }
    forall patches | BringUp(copy, tip, patches) ensures IsAncestor(copy, tip) || IsAncestor(tip, copy) {
      ExtendGoesOn(tip, patches);
      AncestorsCompare(copy, tip, Extend(tip, patches));
    }
  }

  /** Preparations, and commits by others. */
  predicate OnlyGrows(step: Step) {
    step.Prepares? || (step.Others? && step.move.Commits?)
  }

  /** Whatever its calls do, a preparation is refused on a diverged branch, and leaves everything as it was. */
  lemma DivergedIsRefused(w: World, task: TaskId, base: Commit, go: Faults)
    requires Diverged(w)
    ensures PreparedWorld(w, task, base, go) == (w, Refused(502))
  {
  }

  lemma DivergedStays(w: World, task: TaskId, step: Step)
    requires Diverged(w) && OnlyGrows(step)
    ensures Diverged(After(w, task, step)) && After(w, task, step).tracked == w.tracked
  {
    match step
    case Prepares(base, go) => DivergedIsRefused(w, task, base, go);
    case Others(move) =>
      var copy, tip := w.tracked.value, w.remote.value;
      var more := Extend(tip, move.patches);
      assert Moved(w.remote, [move]) == Some(more) by { assert [move][1..] == []; }
      ExtendGoesOn(tip, move.patches);
      if IsAncestor(copy, more) { AncestorsCompare(copy, tip, more); }
      if IsAncestor(more, copy) { AncestryIsTransitive(tip, more, copy); }
  }

  lemma {:induction false} DivergedForGood(w: World, task: TaskId, steps: seq<Step>)
    requires Diverged(w) && forall step | step in steps :: OnlyGrows(step)
    ensures Diverged(Run(w, task, steps)) && Run(w, task, steps).tracked == w.tracked
  {
    if steps == [] {
    } else {
      var front, last := steps[..|steps| - 1], steps[|steps| - 1];
      DivergedForGood(w, task, front);
      assert last in steps;
      DivergedStays(Run(w, task, front), task, last);
    }
  }

  /**
    Once the copy and the branch have diverged, every preparation is refused, after any preparations
    with any faults and any commits by others; only a deleted branch, a forced fetch or an expiry helps.
   */
  lemma DivergedIsStuck(w: World, task: TaskId, steps: seq<Step>, base: Commit, go: Faults)
    requires Diverged(w) && forall step | step in steps :: OnlyGrows(step)
    ensures
      var later := Run(w, task, steps);
      PreparedWorld(later, task, base, go) == (later, Refused(502))
  {
    DivergedForGood(w, task, steps);
    DivergedIsRefused(Run(w, task, steps), task, base, go);
  }

  /**
    An instance: a branch is prepared twice, so that the clone has a copy with the opening commit, and
    others delete it. Recreated from a main that moved on, it has diverged from the copy, and every
    later preparation is refused.
   */
  lemma RecreatedBranchDiverges(task: TaskId, steps: seq<Step>, later: Commit, go: Faults)
    requires forall step | step in steps :: OnlyGrows(step)
    ensures
      var base := Child(Root, Marks(task, Pending));
      var moved := Child(base, Other("main moves on"));
      var start := World(None, None, base);
      var first, deleted := Prepares(base, CALM), Others(Deletes);
      var prepared := After(start, task, first);
      var again := After(After(After(prepared, task, first), task, deleted), task, Prepares(moved, CALM));
      && PreparedWorld(start, task, base, CALM).1 == Ok(true)
      && PreparedWorld(prepared, task, base, CALM).1 == Ok(false)
      && Diverged(again)
      && PreparedWorld(Run(again, task, steps), task, later, go).1 == Refused(502)
  {
    var base := Child(Root, Marks(task, Pending));
    var moved, marked := Child(base, Other("main moves on")), Child(base, Opening(task));
    var start := World(None, None, base);
    assert StatusAt(base, task) == Some(Pending);
    CalmPreparation(start, task, base, base);
    var prepared := After(start, task, Prepares(base, CALM));
    assert Moved(Some(base), []) == Some(base) && IsAncestor(base, marked.parent);
    assert prepared == World(Some(marked), Some(base), base);
    var twice := After(prepared, task, Prepares(base, CALM));
    assert twice == World(Some(marked), Some(marked), base);
    var gone := After(twice, task, Others(Deletes));
    assert gone == twice.(remote := None) by { assert [Deletes][1..] == []; }
    ForksApart(base, Other("main moves on"), Opening(task));
    ForksApart(base, Opening(task), Other("main moves on"));
    var again := After(gone, task, Prepares(moved, CALM));
    assert again == World(Some(moved), Some(marked), moved);
    DivergedIsStuck(again, task, steps, later, go);
  }

  /** After a forced fetch the copy is no hindrance: an undisturbed preparation of a branch with the task succeeds. */
  lemma RefetchCatchesUp(w: World, task: TaskId, base: Commit)
    requires w.remote.Some? && StatusAt(w.remote.value, task).Some?
    ensures PreparedWorld(Refetched(w), task, base, CALM).1.Ok?
  {
    CalmPreparation(Refetched(w), task, base, base);
  }

  /**
    Expiring a task starts it afresh: whatever the branch and the copy had come to, the next
    undisturbed preparation from a base whose tracker has the task succeeds, and leaves the base with
    the opening commit, or the base alone where it was in progress.
   */
  lemma ExpiryStartsAfresh(w: World, task: TaskId, go: Removal, base: Commit)
    requires Cleared(w, go).1 && StatusAt(base, task).Some?
    ensures
      var (after, result) := PreparedWorld(Cleared(w, go).0, task, base, CALM);
      var started := StatusAt(base, task) == Some(InProgress);
      && result == Ok(!started)
      && after.base == base && after.tracked == Some(base)
      && after.remote == Some(if started then base else Child(base, Opening(task)))
      && Touching(PatchesAfter(base, after.remote.value), task) == (if started then [] else [Opening(task)])
  {
    hide Cleared, PreparedWorld, StatusAt;
    ClearedIsEmpty(w, go);
    PreparedFromNothing(Cleared(w, go).0, task, base);
    OpeningPastBase(base, task);
  }

  lemma ClearedIsEmpty(w: World, go: Removal)
    requires Cleared(w, go).1
    ensures Cleared(w, go).0.remote.None? && Cleared(w, go).0.tracked.None?
  {
  }

  lemma PreparedFromNothing(w: World, task: TaskId, base: Commit)
    requires w.remote.None? && w.tracked.None? && StatusAt(base, task).Some?
    ensures
      var started := StatusAt(base, task) == Some(InProgress);
      PreparedWorld(w, task, base, CALM) ==
        (World(Some(if started then base else Child(base, Opening(task))), Some(base), base), Ok(!started))
  {
    hide StatusAt;
    assert Ensured(w, base, CALM) == (World(Some(base), Some(base), base), true);
    assert Moved(Some(base), []) == Some(base) && IsAncestor(base, Child(base, Opening(task)).parent);
  }

  lemma OpeningPastBase(base: Commit, task: TaskId)
    ensures IsAncestor(base, base) && IsAncestor(base, Child(base, Opening(task)))
    ensures Touching(PatchesAfter(base, base), task) == []
    ensures Touching(PatchesAfter(base, Child(base, Opening(task))), task) == [Opening(task)]
  {
    assert PatchesAfter(base, base) == [];
    AddOne(base, base, Opening(task), task);
  }
}
