/** Every step preserves the invariant, so every reachable world satisfies it. */
module Preservation {
  import opened Basics
  import opened Credentials
  import opened AuthServer
  import opened Protocol
  import opened Invariant
  import opened ClientSteps
  import opened ServerSteps

  lemma StepKept(w: World, step: Step)
    requires Inv(w) && Enabled(w, step)
    ensures Inv(Apply(w, step))
  {
    hide Inv;
    match step {
      case StartRefresh(p, key, now) => WaitingKept(w, step);
      case StartLogin(p, key, cred, lineage, expiresAt) => StartLoginKept(w, step);
      case TimeOut(p) => WaitingKept(w, step);
      case Acquire(p) => WaitingKept(w, step);
      case Reload(p, readable) => ReloadKept(w, p, readable);
      case Send(p, request, leaves) => SendKept(w, p, request, leaves);
      case Serve(request, at, mint) => ServeKept(w, request, at, mint);
      case GiveUp(p) => FailKept(w, p, RefreshFailed);
      case Receive(p, reply) =>
        if Usable(reply) { ReceivedKept(w, p, reply); } else { FailKept(w, p, RefreshFailed); }
      case Snapshot(p, readable) =>
        if readable && Contents(w.file).Some? { SnapshotKept(w, p); } else { FailKept(w, p, PersistFailed); }
      case Rename(p, ok) =>
        if ok { RenameKept(w, p); } else { FailKept(w, p, PersistFailed); }
      case Release(p) => WaitingKept(w, step);
      case Crash(p) => CrashKept(w, p);
      case ReadAll(p) => BystanderKept(w, step);
      case CorruptFile => BystanderKept(w, step);
      case RevokeLineage(lineage) => RevokeKept(w, lineage);
    }
  }

  lemma {:induction false} RunKept(w: World, steps: seq<Step>)
    requires Inv(w) && Run(w, steps)
    ensures Inv(After(w, steps))
    decreases |steps|
  {
    if steps == [] {
    } else {
      StepKept(w, steps[0]);
      RunKept(Apply(w, steps[0]), steps[1..]);
    }
  }

  lemma ReachableInv(w: World)
    requires Reachable(w)
    ensures Inv(w)
  {
    var steps :| Run(START, steps) && After(START, steps) == w;
    assert Inv(START) by {
      assert forall p :: Pc(START, p) == Idle;
    }
    RunKept(START, steps);
  }
}
