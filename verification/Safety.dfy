/** Token safety over whole runs. A consumed refresh token is presented, and a lineage revoked for
    it, only after a consumer left a request or a rotation of that very lineage behind: it gave up
    or died after sending and before its rename. Interleaving alone never causes it, however late
    the server gets to a request, and neither does a store found unreadable before a request. */
module Safety {
  import opened Basics
  import opened Credentials
  import opened AuthServer
  import opened Protocol
  import opened Invariant
  import opened Frames
  import opened ClientSteps
  import opened Preservation
  import opened Chronicle

  // ----- what abandonments and burns are -----

  /** The step makes p fail or die while this lineage is pending: p dies or stops waiting for the
      answer, the reply is lost or unusable, the store cannot be read back, or the write fails. */
  predicate LeavesBehind(w: World, step: Step, lineage: int) {
    && (step.Crash? || step.GiveUp? || step.Receive? || step.Snapshot? || step.Rename?)
    && Pending(Pc(w, step.p)) == Some(lineage)
    && match step
       case Receive(_, reply) => !Usable(reply)
       case Snapshot(_, readable) => !readable || w.file.Corrupt?
       case Rename(_, ok) => !ok
       case _ => true
  }

  /** The step loses a rotation of this lineage: it leaves one behind that the server has already
      committed, or the server commits one for a sender that is gone. */
  predicate LosesRotation(w: World, step: Step, lineage: int) {
    || (LeavesBehind(w, step, lineage) && InFlight(Pc(w, step.p)).Some?)
    || (step.Serve? && step.request in w.requests && !Awaited(w, step.request)
        && VerdictOn(w, step.request, step.at) == Rotated(lineage))
  }

  lemma AbandonMarks(pc: Proc, lineage: int)
    ensures Abandoned(lineage) in Abandon(pc) <==> Pending(pc) == Some(lineage)
    ensures Burned(lineage) in Abandon(pc) <==> InFlight(pc) == Some(lineage)
  {
  }

  /** Abandonments are logged by exactly those steps. */
  lemma AbandonmentsAreExact(w: World, step: Step, lineage: int)
    requires Enabled(w, step)
    ensures LeavesBehind(w, step, lineage) <==> Abandoned(lineage) in Since(w, Apply(w, step))
  {
    hide Apply, Since, Abandon;
    StepEmits(w, step);
    if !step.Serve? && !step.CorruptFile? && !step.RevokeLineage? {
      AbandonMarks(Pc(w, step.p), lineage);
    }
  }

  lemma BurnsOf(w: World, step: Step, lineage: int)
    requires Enabled(w, step)
    ensures LosesRotation(w, step, lineage) <==> Burned(lineage) in Since(w, Apply(w, step))
  {
    hide Apply, Since, Abandon;
    StepEmits(w, step);
    if !step.Serve? && !step.CorruptFile? && !step.RevokeLineage? {
      AbandonMarks(Pc(w, step.p), lineage);
    }
  }

  /** Burns are logged by exactly those steps, and no lineage is burned twice. */
  lemma BurnsAreExact(w: World, step: Step, lineage: int)
    requires Reachable(w) && Enabled(w, step)
    ensures LosesRotation(w, step, lineage) <==> Burned(lineage) in Since(w, Apply(w, step))
    ensures LosesRotation(w, step, lineage) ==> Burned(lineage) !in w.log
  {
    hide *;
    BurnsOf(w, step, lineage);
    ReachableInv(w);
    if LosesRotation(w, step, lineage) {
      LostOnlyOnce(w, step, lineage);
    }
  }

  lemma LostOnlyOnce(w: World, step: Step, lineage: int)
    requires Inv(w) && Enabled(w, step) && LosesRotation(w, step, lineage)
    ensures Burned(lineage) !in w.log
  {
    if step.Serve? {
      assert RequestOk(w, step.request);
    } else {
      PendingRow(w, step.p, lineage);
    }
  }

  // ----- blame -----

  /** Every reuse the server detects follows an abandonment of the same lineage, and no lineage is
      detected twice. */
  lemma ReuseFollowsAbandonment(w: World, i: nat)
    requires Reachable(w) && i < |w.log| && w.log[i].ReuseDetected?
    ensures exists j :: 0 <= j < i && w.log[j] == Abandoned(w.log[i].lineage)
    ensures forall j :: 0 <= j < |w.log| && w.log[j] == w.log[i] ==> j == i
  {
    ReachableChronicled(w);
    assert Justified(w.log[..i], w.log[i]);
    forall j | 0 <= j < |w.log| && w.log[j] == w.log[i] ensures j == i {
      DetectedOnce(w.log, i, j);
    }
  }

  lemma DetectedOnce(log: seq<Event>, i: nat, j: nat)
    requires Chronicled(log) && i < |log| && j < |log| && log[i].ReuseDetected? && log[i] == log[j]
    ensures i == j
  {
    assert Justified(log[..i], log[i]) && Justified(log[..j], log[j]);
  }

  lemma DetectedWasAbandoned(log: seq<Event>, lineage: int)
    requires Chronicled(log) && ReuseDetected(lineage) in log
    ensures Abandoned(lineage) in log
  {
    var i :| 0 <= i < |log| && log[i] == ReuseDetected(lineage);
    assert Justified(log[..i], log[i]);
  }

  /** In a run without abandonments, whatever the interleaving and however slow the server: no
      request is orphaned, none presents a consumed token, the server never detects reuse, only an
      operator ever revokes, and a stored token is live unless its own rotation is under way. */
  lemma NoAbandonNoReuse(w: World)
    requires Reachable(w) && forall l: int :: Abandoned(l) !in w.log
    ensures forall l: int :: ReuseDetected(l) !in w.log && Burned(l) !in w.log
    ensures forall t :: t in w.rows && w.rows[t].revoked ==> OperatorRevoked(w.rows[t].lineage) in w.log
    ensures forall r :: r in w.requests ==>
              Awaited(w, r) && w.requests[r].token in w.rows && !w.rows[w.requests[r].token].consumed
    ensures forall p :: Pc(w, p).Loaded? ==>
              Pc(w, p).cred.refreshToken in w.rows && !w.rows[Pc(w, p).cred.refreshToken].consumed
    ensures forall k :: k in Written(w.log) && Written(w.log)[k].refreshToken != "" ==>
              var t := Written(w.log)[k].refreshToken;
              t in w.rows && (w.rows[t].consumed <==> HeldInFlight(w, w.rows[t].lineage))
  {
    ReachableChronicled(w);
    forall l: int ensures ReuseDetected(l) !in w.log && Burned(l) !in w.log {
      if ReuseDetected(l) in w.log { DetectedWasAbandoned(w.log, l); }
      if Burned(l) in w.log { BurnedWasAbandoned(w.log, l); }
    }
    forall r | r in w.requests
      ensures Awaited(w, r) && w.requests[r].token in w.rows && !w.rows[w.requests[r].token].consumed
    {
      OutstandingIsKnown(w, r);
    }
    forall p | Pc(w, p).Loaded?
      ensures Pc(w, p).cred.refreshToken in w.rows && !w.rows[Pc(w, p).cred.refreshToken].consumed
    {
      LoadedIsKnown(w, p);
    }
    forall k | k in Written(w.log) ensures StoredTokenOk(w, Written(w.log)[k]) {
      assert TokensOk(w);
    }
  }

  /** An outstanding request presents a known token under its own client, and is awaited unless it
      was abandoned; while it is awaited the token is consumed exactly when the lineage is burned. */
  lemma OutstandingIsKnown(w: World, request: int)
    requires Inv(w) && request in w.requests
    ensures var Request(_, t, clientId) := w.requests[request];
            && t in w.rows && w.rows[t].clientId == clientId
            && (w.rows[t].consumed <==> Spent(t) in w.log)
            && (w.rows[t].revoked <==> HasRevoked(w.log, w.rows[t].lineage))
            && (Awaited(w, request) || Abandoned(w.rows[t].lineage) in w.log)
            && (Awaited(w, request) ==> (w.rows[t].consumed <==> Burned(w.rows[t].lineage) in w.log))
  {
    assert RequestOk(w, request);
    if Awaited(w, request) {
      AwaitedStored(w, request);
    }
  }

  /** So does a process about to send. */
  lemma LoadedIsKnown(w: World, p: Pid)
    requires Inv(w) && Pc(w, p).Loaded?
    ensures var t := Pc(w, p).cred.refreshToken;
            && t in w.rows && w.rows[t].clientId == Pc(w, p).cred.clientId
            && (w.rows[t].consumed <==> Burned(w.rows[t].lineage) in w.log)
  {
    assert ProcOk(w, Pc(w, p)) && StoredTokenOk(w, Written(w.log)[Pc(w, p).key]) && Critical(Pc(w, p));
  }

  /** Exactly what the server answers any outstanding request, at any time and whether or not its
      sender still waits, from the log alone: refused if the lineage was revoked, reuse if the token
      was spent, lapsed or rotated otherwise. A presented token is never unknown and never another
      client's. To a sender still waiting the answer is reuse exactly when an abandoned rotation of
      the lineage has been committed. */
  lemma VerdictIsExact(w: World, request: int, at: int)
    requires Reachable(w) && request in w.requests
    ensures var Request(_, t, _) := w.requests[request];
            && t in w.rows
            && var row, verdict := w.rows[t], VerdictOn(w, request, at);
            && var revoked, spent := HasRevoked(w.log, row.lineage), Spent(t) in w.log;
            && (verdict == Revoked <==> revoked)
            && (verdict == Reused(row.lineage) <==> !revoked && spent)
            && (verdict == Lapsed <==> !revoked && !spent && at >= row.expiresAt)
            && (verdict == Rotated(row.lineage) <==> !revoked && !spent && at < row.expiresAt)
            && (Awaited(w, request) ==> (spent <==> Burned(row.lineage) in w.log))
            && (!Awaited(w, request) ==> Abandoned(row.lineage) in w.log)
  {
    ReachableInv(w);
    OutstandingIsKnown(w, request);
  }

  // ----- recovery -----

  /** A login's rename puts a live token of a lineage never abandoned or burned under its key,
      whatever had befallen the key before. */
  lemma LoginRestores(w: World, p: Pid)
    requires Reachable(w) && Pc(w, p).Merging? && Pc(w, p).origin == FromLogin && Pc(w, p).cred.refreshToken != ""
    ensures var w' := Apply(w, Rename(p, true));
            var key, t := Pc(w, p).key, Pc(w, p).cred.refreshToken;
            && Contents(w'.file).Some? && key in Contents(w'.file).value
            && Contents(w'.file).value[key] == Pc(w, p).cred
            && t in w'.rows && !w'.rows[t].consumed
            && Abandoned(w'.rows[t].lineage) !in w'.log && Burned(w'.rows[t].lineage) !in w'.log
            && (w'.rows[t].revoked ==> OperatorRevoked(w'.rows[t].lineage) in w'.log)
  {
    ReachableChronicled(w);
    var lineage := LineageOf(w.rows, Pc(w, p).cred.refreshToken);
    RenameUnmarked(w, p);
    LoginUnmarked(w, p);
    if ReuseDetected(lineage) in w.log {
      DetectedWasAbandoned(w.log, lineage);
    }
  }

  lemma LoginUnmarked(w: World, p: Pid)
    requires Inv(w) && Pc(w, p).Merging? && Pc(w, p).origin == FromLogin && Pc(w, p).cred.refreshToken != ""
    ensures var t := Pc(w, p).cred.refreshToken;
            && t in w.rows && !w.rows[t].consumed
            && Abandoned(w.rows[t].lineage) !in w.log && Burned(w.rows[t].lineage) !in w.log
            && (w.rows[t].revoked <==> HasRevoked(w.log, w.rows[t].lineage))
  {
    NewcomerKnown(w, p);
  }

  /** From any reachable world on, reuse of a lineage not abandoned so far needs an abandonment of
      that lineage in what follows. With LoginRestores: after a login, only a later abandonment of
      the new lineage can hurt its key, whatever requests of the old one are still outstanding. */
  lemma FreshLineageNeedsFreshAbandonment(w: World, steps: seq<Step>, lineage: int)
    requires Reachable(w) && Run(w, steps) && Abandoned(lineage) !in w.log
    requires ReuseDetected(lineage) in After(w, steps).log
    ensures Abandoned(lineage) in Since(w, After(w, steps))
  {
    ReachableChronicled(w);
    RunChronicled(w, steps);
    RunGrows(w, steps);
    DetectedWasAbandoned(After(w, steps).log, lineage);
    assert After(w, steps).log == w.log + Since(w, After(w, steps));
  }

  // ----- an unreadable store -----

  predicate DialedBy(e: Event, p: Pid) {
    e.Dialed? && e.p == p
  }

  /** Not in a refresh that could still dial. */
  predicate PastDialing(pc: Proc) {
    !pc.Locked? && !pc.Loaded? && (pc.Waiting? ==> pc.job.Login?)
  }

  lemma PastDialingStays(w: World, step: Step, p: Pid)
    requires Enabled(w, step) && PastDialing(Pc(w, p)) && !(step.StartRefresh? && step.p == p)
    ensures PastDialing(Pc(Apply(w, step), p))
  {
  }

  lemma OnlySendersDial(w: World, step: Step, p: Pid)
    requires Enabled(w, step) && !Pc(w, p).Loaded?
    ensures forall e :: e in Since(w, Apply(w, step)) ==> !DialedBy(e, p)
  {
    hide Apply, Since;
    StepEmits(w, step);
  }

  lemma {:induction false} NoDialAlong(w: World, steps: seq<Step>, p: Pid)
    requires Run(w, steps) && PastDialing(Pc(w, p))
    requires forall step :: step in steps ==> !(step.StartRefresh? && step.p == p)
    ensures forall e :: e in Since(w, After(w, steps)) ==> !DialedBy(e, p)
    decreases |steps|
  {
    if steps == [] {
    } else {
      PastDialingStays(w, steps[0], p);
      OnlySendersDial(w, steps[0], p);
      NoDialAlong(Apply(w, steps[0]), steps[1..], p);
      SinceSplits(w, steps);
    }
  }

  lemma SinceSplits(w: World, steps: seq<Step>)
    requires Run(w, steps) && steps != []
    ensures var next, end := Apply(w, steps[0]), After(w, steps);
            Since(w, end) == Since(w, next) + Since(next, end)
  {
    StepEmits(w, steps[0]);
    RunGrows(Apply(w, steps[0]), steps[1..]);
  }

  /** A store that is corrupt or unreadable at the locked re-read is never the cause: from that
      re-read on, until the process starts another refresh, it does not dial. */
  lemma UnreadableNeverDials(w: World, p: Pid, readable: bool, steps: seq<Step>)
    requires Pc(w, p).Locked? && (w.file.Corrupt? || !readable)
    requires Run(w, steps) && steps != [] && steps[0] == Reload(p, readable)
    requires forall step :: step in steps ==> !(step.StartRefresh? && step.p == p)
    ensures forall e :: e in Since(w, After(w, steps)) ==> !DialedBy(e, p)
  {
    OnlySendersDial(w, steps[0], p);
    NoDialAlong(Apply(w, steps[0]), steps[1..], p);
    SinceSplits(w, steps);
  }
}
