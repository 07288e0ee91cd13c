/** The session of hourtab/hourtab.go: the project registry and its lookup
    rules, the sweep of the save loop, the dispatch of watcher events and the
    startup sequence. Locks, goroutines, the ticker and file I/O are not part
    of this model; each method is one atomic step, and every outcome of a
    collaborator (the watcher, the lock file, the IPC bind, the snapshot load,
    the clock) is a parameter. */
module Hourtab {
  import opened Errors
  import opened Ints
  import opened Projects
  import opened Options
  import opened Ipc

  /** `strings.HasPrefix(s, prefix)`: a plain prefix of the characters, not of
      path components. */
  predicate HasPrefix(s: string, prefix: string)
    ensures HasPrefix(s, prefix) <==> |s| >= |prefix| && s[0..|prefix|] == prefix
  {
    prefix <= s
  }

  /** The position of the project that owns `query`: the first, in list
      order, whose path is a prefix of the query. */
  function OwnerIndex(ps: seq<Project>, query: string): (r: Option<nat>)
    ensures r.Some? ==> r.value < |ps| && HasPrefix(query, ps[r.value].path)
    ensures r.Some? ==> forall j :: 0 <= j < r.value ==> !HasPrefix(query, ps[j].path)
    ensures r.None? <==> forall j :: 0 <= j < |ps| ==> !HasPrefix(query, ps[j].path)
  {
    if ps == [] then None
    else if HasPrefix(query, ps[0].path) then Some(0)
    else match OwnerIndex(ps[1..], query)
      case None => None
      case Some(i) => Some(i + 1)
  }

  /** The position of the first project whose path equals `path` exactly. */
  function ExactIndex(ps: seq<Project>, path: string): (r: Option<nat>)
    ensures r.Some? ==> r.value < |ps| && ps[r.value].path == path
    ensures r.Some? ==> forall j :: 0 <= j < r.value ==> ps[j].path != path
    ensures r.None? <==> forall j :: 0 <= j < |ps| ==> ps[j].path != path
  {
    if ps == [] then None
    else if ps[0].path == path then Some(0)
    else match ExactIndex(ps[1..], path)
      case None => None
      case Some(i) => Some(i + 1)
  }

  /** Swap-with-last removal: the last element overwrites position `i` and
      the list is cut by one. */
  function SwapRemove(ps: seq<Project>, i: nat): (r: seq<Project>)
    requires i < |ps|
    ensures |r| == |ps| - 1
  {
    ps[i := ps[|ps| - 1]][..|ps| - 1]
  }

  /** Swap-with-last removal drops exactly the element at `i`: the list is one
      shorter, the former last element takes position `i`, every other
      position keeps its element, and the multiset loses one copy of `ps[i]`. */
  lemma {:induction false} SwapRemoveEffect(ps: seq<Project>, i: nat)
    requires i < |ps|
    ensures |SwapRemove(ps, i)| == |ps| - 1
    ensures i < |ps| - 1 ==> SwapRemove(ps, i)[i] == ps[|ps| - 1]
    ensures forall j :: 0 <= j < |ps| - 1 && j != i ==> SwapRemove(ps, i)[j] == ps[j]
    ensures multiset(SwapRemove(ps, i)) == multiset(ps) - multiset{ps[i]}
  {
    var n := |ps| - 1;
    var r := SwapRemove(ps, i);
    if i == n {
      assert r == ps[..n];
      assert ps == ps[..n] + [ps[n]];
    } else {
      assert r == ps[..i] + [ps[n]] + ps[i + 1..n];
      assert ps == ps[..i] + [ps[i]] + ps[i + 1..n] + [ps[n]];
    }
  }

  /** After a project is appended, every path under its root has an owner;
      the appended project is that owner exactly when no earlier project's
      path is a prefix of the query, since earlier entries take precedence. */
  lemma {:induction false} OwnerAfterAppend(ps: seq<Project>, p: Project, q: string)
    requires HasPrefix(q, p.path)
    ensures OwnerIndex(ps + [p], q).Some?
    ensures OwnerIndex(ps + [p], q) == Some(|ps|) <==> forall j :: 0 <= j < |ps| ==> !HasPrefix(q, ps[j].path)
  {
    var qs := ps + [p];
    assert qs[|ps|] == p;
    forall j | 0 <= j < |ps|
      ensures qs[j] == ps[j]
    {
    }
  }

  /** The prefix rule ignores path components: a project at `/home/a` owns
      files under `/home/ab`. */
  lemma PrefixCrossesComponents(p: Project)
    requires p.path == "/home/a"
    ensures OwnerIndex([p], "/home/ab/main.go") == Some(0)
  {
    assert HasPrefix("/home/ab/main.go", p.path);
  }

  /** The subscriptions the watch loop makes at startup, given the outcome of
      each project's recursive subscription: the successful ones, in order. */
  function Subscribed(ps: seq<Project>, results: seq<Outcome>): (ws: seq<Watch>)
    requires |ps| == |results|
    ensures |ws| == CountOk(results) <= |ps|
    ensures forall w :: w in ws ==> exists j :: 0 <= j < |ps| && results[j].Ok? && w == Recursive(ps[j].path)
    ensures forall j :: 0 <= j < |ps| && results[j].Ok? ==> Recursive(ps[j].path) in ws
  {
    if ps == [] then []
    else
      var n := |ps| - 1;
      Subscribed(ps[..n], results[..n]) + (if results[n].Ok? then [Recursive(ps[n].path)] else [])
  }

  /** The number of successful outcomes. */
  function CountOk(results: seq<Outcome>): (n: nat)
    ensures n <= |results|
    ensures (forall j :: 0 <= j < |results| ==> results[j].Ok?) ==> n == |results|
  {
    if results == [] then 0
    else CountOk(results[..|results| - 1]) + (if results[|results| - 1].Ok? then 1 else 0)
  }

  /** The session timeout, `uint64(SyncFrequency.Nanoseconds() *
      int64(TimeoutAfter))`: the 64-bit product, wrapped as the int64
      multiplication and the uint64 conversion wrap it. */
  function SessionTimeout(syncFrequency: i64, timeoutAfter: u64): (t: u64)
    ensures (syncFrequency * timeoutAfter - t) % TwoTo64 == 0
  {
    (syncFrequency * timeoutAfter) % TwoTo64
  }

  /** Without overflow the timeout is the plain product. */
  lemma SessionTimeoutExact(syncFrequency: i64, timeoutAfter: u64)
    requires 0 <= syncFrequency * timeoutAfter < 0x8000_0000_0000_0000
    ensures SessionTimeout(syncFrequency, timeoutAfter) == syncFrequency * timeoutAfter
  {
  }

  /** With the default options the timeout is 20 seconds. */
  lemma DefaultSessionTimeout(home: string)
    ensures DefaultOptions(Success(home)).Success?
    ensures var o := DefaultOptions(Success(home)).value;
      SessionTimeout(o.syncFrequency, o.timeoutAfter) == 20_000_000_000
  {
  }

  /** A subscription the session has made with the watcher. */
  datatype Watch = Recursive(path: string) | Single(path: string)

  /** The watcher's event kinds. */
  datatype Op = Create | Write | Remove | Rename | Chmod | Move

  datatype Event = Event(op: Op, path: string)

  /** What the watch loop did with one event. */
  datatype Action =
    | Ignored
    | Extended(path: string, added: bool)
    | Bumped(index: nat)

  class Session {
    /** `Projects`, in list order. */
    var projects: seq<Project>
    /** The watcher's subscriptions, in the order they were made. */
    var watched: seq<Watch>
    /** `IPC`: the descriptor clients dial. */
    const ipc: IPCStatus
    const opts: SessionOptions
    /** The converted timeout, in nanoseconds. */
    const timeout: u64

    /** The session `New` assembles from a loaded project list, the freshly
        bound descriptor and the options, with a new watcher. */
    constructor (loaded: seq<Project>, status: IPCStatus, options: SessionOptions)
      ensures projects == loaded && watched == []
      ensures ipc == status && opts == options
      ensures timeout == SessionTimeout(options.syncFrequency, options.timeoutAfter)
    {
      projects := loaded;
      watched := [];
      ipc := status;
      opts := options;
      timeout := SessionTimeout(options.syncFrequency, options.timeoutAfter);
    }

    /** `GetAllProjects`: the project list itself. */
    method GetAllProjects() returns (r: seq<Project>)
      ensures r == projects
    {
      r := projects;
    }

    /** The loop of `GetProject`: the position of the owning project. */
    method FindOwner(query: string) returns (r: Option<nat>)
      ensures r == OwnerIndex(projects, query)
    {
      var i := 0;
      while i < |projects|
        invariant 0 <= i <= |projects|
        invariant forall j :: 0 <= j < i ==> !HasPrefix(query, projects[j].path)
      {
        if HasPrefix(query, projects[i].path) {
          return Some(i);
        }
        i := i + 1;
      }
      return None;
    }

    /** `GetProject`: the first project, in list order, whose path is a
        prefix of the query, or nil when there is none. */
    method GetProject(query: string) returns (r: Option<Project>)
      ensures r.None? <==> forall j :: 0 <= j < |projects| ==> !HasPrefix(query, projects[j].path)
      ensures r.Some? ==> exists i :: 0 <= i < |projects| && r.value == projects[i] && OwnerIndex(projects, query) == Some(i)
    {
      var i := FindOwner(query);
      if i.None? {
        return None;
      }
      r := Some(projects[i.value]);
    }

    /** `AddProject`, given the outcome of the recursive watch subscription:
        on failure the wrapped error and nothing changed; on success the
        project appended, with no duplicate check. */
    method AddProject(p: Project, subscribe: Outcome) returns (err: Outcome)
      modifies this
      ensures subscribe.Fail? ==>
        && err == Fail(Wrapped("Failed to add " + p.gitOrigin, subscribe.error))
        && projects == old(projects) && watched == old(watched)
      ensures subscribe.Ok? ==>
        && err == Ok
        && projects == old(projects) + [p] && watched == old(watched) + [Recursive(p.path)]
    {
      if subscribe.Fail? {
        return Fail(Wrapped("Failed to add " + p.gitOrigin, subscribe.error));
      }
      watched := watched + [Recursive(p.path)];
      projects := projects + [p];
      return Ok;
    }

    /** `UntrackProject`: removes the first project whose path equals `path`
        by swap-with-last and reports whether one was found. */
    method UntrackProject(path: string) returns (deleted: bool)
      modifies this`projects
      ensures deleted <==> exists j :: 0 <= j < |old(projects)| && old(projects)[j].path == path
      ensures !deleted ==> projects == old(projects)
      ensures deleted ==>
        && ExactIndex(old(projects), path).Some?
        && projects == SwapRemove(old(projects), ExactIndex(old(projects), path).value)
      ensures deleted ==> multiset(projects) == multiset(old(projects)) - multiset{old(projects)[ExactIndex(old(projects), path).value]}
    {
      var i := 0;
      while i < |projects|
        invariant 0 <= i <= |projects|
        invariant projects == old(projects)
        invariant forall j :: 0 <= j < i ==> projects[j].path != path
      {
        if projects[i].path == path {
          assert ExactIndex(projects, path) == Some(i);
          SwapRemoveEffect(projects, i);
          var last := |projects| - 1;
          projects := projects[i := projects[last]];
          projects := projects[..last];
          return true;
        }
        i := i + 1;
      }
      return false;
    }

    /** `timeoutProjects`: `expire(p, t, now)` applied once to every project,
        in list order, with the same pair; no project added or removed. */
    method TimeoutProjects(t: u64, now: u64, expire: Transition)
      modifies this`projects
      ensures |projects| == |old(projects)|
      ensures forall j :: 0 <= j < |projects| ==> projects[j] == expire(old(projects)[j], t, now)
    {
      var i := 0;
      while i < |projects|
        invariant 0 <= i <= |projects| == |old(projects)|
        invariant forall j :: 0 <= j < i ==> projects[j] == expire(old(projects)[j], t, now)
        invariant forall j :: i <= j < |projects| ==> projects[j] == old(projects)[j]
      {
        projects := projects[i := expire(projects[i], t, now)];
        i := i + 1;
      }
    }

    /** One iteration of the save loop: sweep every project with the session
        timeout and the tick's time, then save; a failed save is only logged,
        and the logged error is returned. */
    method SaveTick(now: u64, expire: Transition, saved: Outcome) returns (logged: Option<Error>)
      modifies this`projects
      ensures |projects| == |old(projects)|
      ensures forall j :: 0 <= j < |projects| ==> projects[j] == expire(old(projects)[j], timeout, now)
      ensures logged == if saved.Fail? then Some(saved.error) else None
    {
      TimeoutProjects(timeout, now, expire);
      logged := if saved.Fail? then Some(saved.error) else None;
    }

    /** The start of the watch loop: a recursive subscription for every
        project, given each one's outcome; failures are only logged. */
    method WatchAll(results: seq<Outcome>)
      requires |results| == |projects|
      modifies this`watched
      ensures watched == old(watched) + Subscribed(projects, results)
    {
      var i := 0;
      while i < |projects|
        invariant 0 <= i <= |projects|
        invariant watched == old(watched) + Subscribed(projects[..i], results[..i])
      {
        assert projects[..i + 1][..i] == projects[..i];
        assert results[..i + 1][..i] == results[..i];
        if results[i].Ok? {
          watched := watched + [Recursive(projects[i].path)];
        }
        i := i + 1;
      }
      assert projects[..i] == projects && results[..i] == results;
    }

    /** One event of the watch loop. An event outside every project is
        ignored; a `Create` only extends the watch to the new path (`added`
        is the outcome of that subscription) and never bumps; any other kind
        bumps the owning project with the current time and the session
        timeout. */
    method HandleEvent(ev: Event, now: u64, bump: Transition, added: Outcome) returns (action: Action)
      modifies this
      ensures OwnerIndex(old(projects), ev.path).None? ==>
        action == Ignored && projects == old(projects) && watched == old(watched)
      ensures OwnerIndex(old(projects), ev.path).Some? && ev.op == Create ==>
        && action == Extended(ev.path, added.Ok?)
        && projects == old(projects)
        && watched == old(watched) + (if added.Ok? then [Single(ev.path)] else [])
      ensures var o := OwnerIndex(old(projects), ev.path);
        o.Some? && ev.op != Create ==>
          && action == Bumped(o.value)
          && projects == old(projects)[o.value := bump(old(projects)[o.value], timeout, now)]
          && watched == old(watched)
    {
      var i := FindOwner(ev.path);
      if i.None? {
        return Ignored;
      }
      if ev.op == Create {
        if added.Ok? {
          watched := watched + [Single(ev.path)];
        }
        return Extended(ev.path, added.Ok?);
      }
      projects := projects[i.value := bump(projects[i.value], timeout, now)];
      return Bumped(i.value);
    }
  }

  const MasterLockFailed: string := "Failed to acquire master lock"
  const MasterLockHeld: string := "Master lock already acquired, terminate the other processes!"

  /** A step of the startup sequence. */
  datatype Step = ResolveDefaults | AcquireLock | BindIpc | LoadState | RegisterRpc

  /** A decoded snapshot: the saved projects and the descriptor saved with them. */
  datatype Snapshot = Snapshot(projects: seq<Project>, ipc: IPCStatus)

  /** `New`. The parameters are the given options, the home-directory lookup
      used for the defaults, the outcome of `TryLock`, the outcome of the IPC
      bind, and the outcome of loading the snapshot; `steps` are the steps it
      ran, in order. It stops at the first step that fails and returns that
      step's error; a successful session carries the freshly bound
      descriptor, whatever descriptor the snapshot held. */
  method New(opts: Option<SessionOptions>, home: Result<string>, tryLock: Result<bool>,
             bound: Result<IPCStatus>, loaded: Result<Snapshot>)
    returns (s: Session?, err: Option<Error>, steps: seq<Step>)
    ensures s == null <==> err.Some?
    ensures var pre := if opts.None? then [ResolveDefaults] else [];
      var o := if opts.Some? then Success(opts.value) else DefaultOptions(home);
      && (o.Failure? ==>
            err == Some(o.error) && steps == pre)
      && (o.Success? && tryLock.Failure? ==>
            err == Some(Wrapped(MasterLockFailed, tryLock.error)) && steps == pre + [AcquireLock])
      && (o.Success? && tryLock == Success(false) ==>
            err == Some(Message(MasterLockHeld)) && steps == pre + [AcquireLock])
      && (o.Success? && tryLock == Success(true) && bound.Failure? ==>
            err == Some(bound.error) && steps == pre + [AcquireLock, BindIpc])
      && (o.Success? && tryLock == Success(true) && bound.Success? && loaded.Failure? ==>
            err == Some(loaded.error) && steps == pre + [AcquireLock, BindIpc, LoadState])
      && (o.Success? && tryLock == Success(true) && bound.Success? && loaded.Success? ==>
            && err == None && steps == pre + [AcquireLock, BindIpc, LoadState, RegisterRpc]
            && s != null && fresh(s)
            && s.projects == loaded.value.projects && s.watched == []
            && s.ipc == bound.value
            && s.opts == o.value
            && s.timeout == SessionTimeout(s.opts.syncFrequency, s.opts.timeoutAfter))
  {
    steps := [];
    s := null;
    var options: SessionOptions;
    if opts.None? {
      steps := steps + [ResolveDefaults];
      var d := DefaultOptions(home);
      if d.Failure? {
        return null, Some(d.error), steps;
      }
      options := d.value;
    } else {
      options := opts.value;
    }

    steps := steps + [AcquireLock];
    if tryLock.Failure? {
      return null, Some(Wrapped(MasterLockFailed, tryLock.error)), steps;
    }
    if !tryLock.value {
      return null, Some(Message(MasterLockHeld)), steps;
    }

    steps := steps + [BindIpc];
    if bound.Failure? {
      return null, Some(bound.error), steps;
    }

    steps := steps + [LoadState];
    if loaded.Failure? {
      return null, Some(loaded.error), steps;
    }

    s := new Session(loaded.value.projects, bound.value, options);
    steps := steps + [RegisterRpc];
    err := None;
  }
}
