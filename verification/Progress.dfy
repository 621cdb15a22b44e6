/** Mutual exclusion, absence of self-deadlock, and the length of the critical section. */
module Progress {
  import opened Basics
  import opened AuthServer
  import opened Credentials
  import opened Protocol
  import opened Invariant
  import opened Preservation

  /** At most one process is between acquire and release, it is the lock's holder, and nobody who
      waits, has returned or has died still holds the lock. */
  lemma MutualExclusion(w: World, p: Pid, q: Pid)
    requires Reachable(w)
    ensures Critical(Pc(w, p)) && Critical(Pc(w, q)) ==> p == q && w.lock == Some(p)
    ensures Pc(w, p).Waiting? || Resting(Pc(w, p)) || Pc(w, p).Dead? ==> w.lock != Some(p)
  {
    ReachableInv(w);
    assert w.lock == Some(p) <==> Critical(Pc(w, p));
    assert w.lock == Some(q) <==> Critical(Pc(w, q));
  }

  predicate FailsWith(w: World, w': World, p: Pid, failure: Failure) {
    Pc(w', p) == Releasing(Err(failure)) && w'.file == w.file && w'.rows == w.rows && w'.requests == w.requests
  }

  /** Whatever a process is doing may fail, leaving file, table and requests as they are. */
  lemma OperationsMayFail(w: World, p: Pid, request: int)
    ensures Pc(w, p).Waiting? ==>
              Enabled(w, TimeOut(p)) && Pc(Apply(w, TimeOut(p)), p) == Finished(Err(LockTimeout))
    ensures Pc(w, p).Locked? ==>
              Enabled(w, Reload(p, false)) && FailsWith(w, Apply(w, Reload(p, false)), p, StoreUnreadable)
    ensures Pc(w, p).Loaded? ==>
              Enabled(w, Send(p, request, false)) && FailsWith(w, Apply(w, Send(p, request, false)), p, RefreshFailed)
    ensures Pc(w, p).Sent? ==> Enabled(w, GiveUp(p)) && FailsWith(w, Apply(w, GiveUp(p)), p, RefreshFailed)
    ensures Pc(w, p).Committed? ==>
              Enabled(w, Receive(p, NoResponse)) && FailsWith(w, Apply(w, Receive(p, NoResponse)), p, RefreshFailed)
    ensures Pc(w, p).Writing? ==>
              Enabled(w, Snapshot(p, false)) && FailsWith(w, Apply(w, Snapshot(p, false)), p, PersistFailed)
    ensures Pc(w, p).Merging? ==>
              Enabled(w, Rename(p, false)) && FailsWith(w, Apply(w, Rename(p, false)), p, PersistFailed)
  {
  }

  /** A process at rest may start a refresh of any key at any captured instant, and a login with any
      credential that has no refresh token or a new one of a new lineage. */
  lemma AnyoneMayStart(w: World, p: Pid, key: Key, now: int, cred: Credential, lineage: int, expiresAt: int)
    requires Pc(w, p).Idle? || Pc(w, p).Finished?
    ensures Enabled(w, StartRefresh(p, key, now))
    ensures Pc(Apply(w, StartRefresh(p, key, now)), p) == Waiting(Refresh(key, now))
    ensures cred.refreshToken == ""
            || (cred.refreshToken !in w.rows && forall t :: t in w.rows ==> w.rows[t].lineage != lineage)
            ==> && Enabled(w, StartLogin(p, key, cred, lineage, expiresAt))
                && Pc(Apply(w, StartLogin(p, key, cred, lineage, expiresAt)), p) == Waiting(Login(key, cred))
  {
  }

  /** In any world the file may be corrupted, a living process killed, which frees its lock, a known
      lineage revoked, and an outstanding request served at any instant. */
  lemma EnvironmentIsFree(w: World, p: Pid, request: int, at: int, mint: Mint, lineage: int)
    ensures !Pc(w, p).Dead? ==>
              && Enabled(w, Crash(p)) && Pc(Apply(w, Crash(p)), p) == Proc.Dead
              && Apply(w, Crash(p)).lock == if w.lock == Some(p) then None else w.lock
    ensures Enabled(w, CorruptFile) && Apply(w, CorruptFile) == w.(file := Corrupt)
    ensures lineage in Lineages(w.rows) ==>
              Enabled(w, RevokeLineage(lineage)) && AuthServer.Dead(Apply(w, RevokeLineage(lineage)).rows, lineage)
    ensures request in w.requests && mint.token != "" && mint.token !in w.rows ==>
              Enabled(w, Serve(request, at, mint)) && request !in Apply(w, Serve(request, at, mint)).requests
  {
  }

  /** How many more steps of its own the holder can take before it lets go. */
  function Rank(pc: Proc): nat {
    match pc
    case Locked(_, _) => 6
    case Loaded(_, _, _) => 5
    case Sent(_, _, _, _, _) => 4
    case Committed(_, _, _, _, _) => 4
    case Writing(_, _, _) => 3
    case Merging(_, _, _, _) => 2
    case Releasing(_) => 1
    case _ => 0
  }

  /** A step the holder can always take. */
  function NextStep(w: World, q: Pid): Step
    requires Critical(Pc(w, q))
  {
    match Pc(w, q)
    case Locked(_, _) => Reload(q, true)
    case Loaded(_, _, _) => Send(q, 0, false)
    case Sent(_, _, _, _, _) => GiveUp(q)
    case Committed(_, _, _, _, _) => Receive(q, NoResponse)
    case Writing(_, _, _) => Snapshot(q, true)
    case Merging(_, _, _, _) => Rename(q, true)
    case Releasing(_) => Release(q)
  }

  /** The step is one that q itself takes while it holds the lock, or its death. */
  predicate StepOf(step: Step, q: Pid) {
    match step
    case Serve(_, _, _) => false
    case ReadAll(_) => false
    case CorruptFile => false
    case RevokeLineage(_) => false
    case _ => step.p == q
  }

  /** The step is the server's answer to a request q waits on. */
  predicate Answers(w: World, step: Step, q: Pid) {
    step.Serve? && step.request in w.requests && w.requests[step.request].p == q && Awaited(w, step.request)
  }

  /** Every step of the holder brings it strictly closer to letting go, an answer takes it no further
      away, and nobody else's step moves it or takes the lock from it. */
  lemma HolderDescends(w: World, step: Step, q: Pid)
    requires LockOk(w) && w.lock == Some(q) && Enabled(w, step)
    ensures StepOf(step, q) ==> Rank(Pc(Apply(w, step), q)) < Rank(Pc(w, q))
    ensures StepOf(step, q) && Apply(w, step).lock != Some(q) ==> Apply(w, step).lock == None
    ensures !StepOf(step, q) ==> Apply(w, step).lock == Some(q) && Rank(Pc(Apply(w, step), q)) <= Rank(Pc(w, q))
    ensures !StepOf(step, q) && !Answers(w, step, q) ==> Pc(Apply(w, step), q) == Pc(w, q)
  {
    assert w.lock == Some(q) <==> Critical(Pc(w, q));
  }

  /** In any reachable world a waiter is never stuck: the lock is free and it may take it, or some
      other process holds it, has a step to take toward releasing it, and frees it by dying. */
  lemma WaiterIsNeverStuck(w: World, p: Pid)
    requires Reachable(w) && Pc(w, p).Waiting?
    ensures w.lock == None ==> Enabled(w, Acquire(p)) && Apply(w, Acquire(p)).lock == Some(p)
    ensures w.lock.Some? ==>
              var q := w.lock.value;
              && q != p && Critical(Pc(w, q))
              && Enabled(w, NextStep(w, q)) && Rank(Pc(Apply(w, NextStep(w, q)), q)) < Rank(Pc(w, q))
              && Enabled(w, Crash(q)) && Apply(w, Crash(q)).lock == None
  {
    ReachableInv(w);
    if w.lock.Some? {
      var q := w.lock.value;
      assert Critical(Pc(w, q)) && !Critical(Pc(w, p));
      HolderDescends(w, NextStep(w, q), q);
    }
  }

  function OwnSteps(steps: seq<Step>, q: Pid): nat {
    if steps == [] then 0 else (if StepOf(steps[0], q) then 1 else 0) + OwnSteps(steps[1..], q)
  }

  /** q lets go of the lock at some point of the run. */
  ghost predicate Releases(w: World, steps: seq<Step>, q: Pid)
    requires Run(w, steps)
    decreases |steps|
  {
    w.lock != Some(q) || (steps != [] && Releases(Apply(w, steps[0]), steps[1..], q))
  }

  lemma {:induction false} DescentEnds(w: World, steps: seq<Step>, q: Pid)
    requires Inv(w) && Run(w, steps) && OwnSteps(steps, q) >= Rank(Pc(w, q))
    ensures Releases(w, steps, q)
    decreases |steps|
  {
    if w.lock != Some(q) {
    } else {
      assert Critical(Pc(w, q));
      HolderDescends(w, steps[0], q);
      StepKept(w, steps[0]);
      DescentEnds(Apply(w, steps[0]), steps[1..], q);
    }
  }

  /** However the others and the server interleave, six steps of the holder suffice for it to let go. */
  lemma CriticalSectionIsShort(w: World, steps: seq<Step>, q: Pid)
    requires Reachable(w) && Run(w, steps) && OwnSteps(steps, q) >= 6
    ensures Releases(w, steps, q)
  {
    ReachableInv(w);
    DescentEnds(w, steps, q);
  }
}
