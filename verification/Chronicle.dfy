/** What every log says: each entry is justified by the entries before it. */
module Chronicle {
  import opened Credentials
  import opened AuthServer
  import opened Protocol
  import opened Invariant
  import opened Frames
  import opened Preservation

  /** The store holds cred under key after these events. */
  ghost predicate Holds(before: seq<Event>, key: Key, cred: Credential) {
    key in Written(before) && Written(before)[key] == cred
  }

  ghost predicate Justified(before: seq<Event>, e: Event) {
    match e
    case Dialed(_, key, now, token) =>
      key in Written(before) && Written(before)[key].refreshToken == token && NeedsRefresh(Written(before)[key], now)
    case ReuseDetected(lineage) => Abandoned(lineage) in before && !HasRevoked(before, lineage)
    case Burned(lineage) => Abandoned(lineage) in before && Burned(lineage) !in before
    case Spent(token) => Spent(token) !in before
    case Renamed(key, cred, FromRotation(now, replaced, _)) =>
      Holds(before, key, replaced) && NeedsRefresh(replaced, now) && Rotation(cred, now)
    case Returned(_, key, now, cred) => Holds(before, key, cred) && !NeedsRefresh(cred, now)
    case Listed(_, content) => content == Written(before)
    case _ => true
  }

  ghost predicate Chronicled(log: seq<Event>) {
    forall i :: 0 <= i < |log| ==> Justified(log[..i], log[i])
  }

  lemma Extend(log: seq<Event>, e: Event)
    requires Chronicled(log) && Justified(log, e)
    ensures Chronicled(log + [e])
  {
    forall i | 0 <= i < |log + [e]| ensures Justified((log + [e])[..i], (log + [e])[i]) {
      assert (log + [e])[..i] == log[..i];
      if i == |log| {
        assert log[..i] == log;
      }
    }
  }

  lemma ExtendTwo(log: seq<Event>, a: Event, b: Event)
    requires Chronicled(log) && Justified(log, a) && Justified(log + [a], b)
    ensures Chronicled(log + [a, b])
  {
    Extend(log, a);
    Extend(log + [a], b);
    assert log + [a, b] == log + [a] + [b];
  }

  /** Entries that need no justification. */
  predicate Free(e: Event) {
    e.OperatorRevoked? || e.Abandoned? || e.GaveUp?
  }

  /** A failure: perhaps an abandonment, perhaps with a burn, then word of it. */
  lemma AbandonChronicled(w: World, p: Pid)
    requires LockOk(w) && ProcsOk(w) && Chronicled(w.log)
    ensures Chronicled(w.log + Abandon(Pc(w, p)))
  {
    var pc := Pc(w, p);
    if InFlight(pc).Some? {
      var lineage := InFlight(pc).value;
      PendingRow(w, p, lineage);
      ExtendTwo(w.log, Abandoned(lineage), Burned(lineage));
      Extend(w.log + [Abandoned(lineage), Burned(lineage)], GaveUp(pc.key));
      assert w.log + Abandon(pc) == w.log + [Abandoned(lineage), Burned(lineage)] + [GaveUp(pc.key)];
    } else if pc.Sent? {
      ExtendTwo(w.log, Abandoned(pc.lineage), GaveUp(pc.key));
    } else if Refreshing(pc).Some? {
      Extend(w.log, GaveUp(pc.key));
    } else {
      assert w.log + Abandon(pc) == w.log;
    }
  }

  lemma FailChronicled(w: World, p: Pid, failure: Failure)
    requires LockOk(w) && ProcsOk(w) && Chronicled(w.log)
    ensures Chronicled(Fail(w, p, failure).log)
  {
    AbandonChronicled(w, p);
  }

  lemma SendChronicled(w: World, p: Pid, request: int, leaves: bool)
    requires LockOk(w) && ProcsOk(w) && Chronicled(w.log) && Enabled(w, Send(p, request, leaves))
    ensures Chronicled(DoSend(w, p, request, leaves).log)
  {
    FailChronicled(w, p, RefreshFailed);
    assert ProcOk(w, Pc(w, p));
    Extend(w.log, Dialed(p, Pc(w, p).key, Pc(w, p).now, Pc(w, p).cred.refreshToken));
  }

  /** In any chronicled log a burned lineage was abandoned. */
  lemma BurnedWasAbandoned(log: seq<Event>, lineage: int)
    requires Chronicled(log) && Burned(lineage) in log
    ensures Abandoned(lineage) in log
  {
    var i :| 0 <= i < |log| && log[i] == Burned(lineage);
    assert Justified(log[..i], log[i]);
  }

  /** Whoever presents a consumed token, its lineage was abandoned before: a request nobody waits for
      was itself abandoned, and a live sender's stored token is consumed only if it was burned. */
  lemma ReusedWasAbandoned(w: World, request: int, at: int)
    requires LockOk(w) && TokensOk(w) && ProcsOk(w) && SentOk(w) && RequestsOk(w) && RevocationOk(w)
    requires Chronicled(w.log) && request in w.requests && VerdictOn(w, request, at).Reused?
    ensures Justified(w.log, ReuseDetected(VerdictOn(w, request, at).lineage))
    ensures Awaited(w, request) ==> Burned(VerdictOn(w, request, at).lineage) in w.log
  {
    var lineage := VerdictOn(w, request, at).lineage;
    assert RequestOk(w, request);
    if Awaited(w, request) {
      AwaitedStored(w, request);
      BurnedWasAbandoned(w.log, lineage);
    }
  }

  /** While its sender waits, the presented token is consumed exactly when its lineage is burned. */
  lemma AwaitedStored(w: World, request: int)
    requires LockOk(w) && TokensOk(w) && ProcsOk(w) && SentOk(w)
    requires request in w.requests && Awaited(w, request)
    ensures var t := w.requests[request].token;
            t in w.rows && (w.rows[t].consumed <==> Burned(w.rows[t].lineage) in w.log)
  {
    var pc := Pc(w, w.requests[request].p);
    assert ProcOk(w, pc) && StoredTokenOk(w, Written(w.log)[pc.key]) && Critical(pc);
  }

  lemma ReusedChronicled(w: World, request: int, at: int)
    requires Inv(w) && Chronicled(w.log) && request in w.requests && VerdictOn(w, request, at).Reused?
    ensures Chronicled(w.log + Served(w, request, VerdictOn(w, request, at)))
  {
    var detected := ReuseDetected(VerdictOn(w, request, at).lineage);
    ReusedWasAbandoned(w, request, at);
    Extend(w.log, detected);
    if Awaited(w, request) {
      ExtendTwo(w.log, detected, GaveUp(Pc(w, w.requests[request].p).key));
    }
  }

  lemma RotatedChronicled(w: World, request: int, at: int)
    requires Inv(w) && Chronicled(w.log)
    requires request in w.requests && VerdictOn(w, request, at).Rotated?
    ensures Chronicled(w.log + Served(w, request, VerdictOn(w, request, at)))
  {
    assert RequestOk(w, request);
    var spent := Spent(w.requests[request].token);
    Extend(w.log, spent);
    if !Awaited(w, request) {
      ExtendTwo(w.log, spent, Burned(VerdictOn(w, request, at).lineage));
    }
  }

  lemma ServeChronicled(w: World, request: int, at: int, mint: Mint)
    requires Inv(w) && Chronicled(w.log) && Enabled(w, Serve(request, at, mint))
    ensures Chronicled(DoServe(w, request, at, mint).log)
  {
    hide Chronicled, Inv;
    var verdict, r := VerdictOn(w, request, at), w.requests[request];
    if verdict.Reused? {
      ReusedChronicled(w, request, at);
    } else if verdict.Rotated? {
      RotatedChronicled(w, request, at);
    } else if Awaited(w, request) {
      Extend(w.log, GaveUp(Pc(w, r.p).key));
    } else {
      assert w.log + [] == w.log;
    }
  }

  lemma RenameChronicled(w: World, p: Pid)
    requires ProcsOk(w) && Chronicled(w.log) && Pc(w, p).Merging?
    ensures Chronicled(DoRename(w, p, true).log)
  {
    var Merging(key, cred, origin, snapshot) := Pc(w, p);
    assert ProcOk(w, Pc(w, p));
    if origin.FromRotation? {
      AfterRename(w.log, key, cred, origin);
      ExtendTwo(w.log, Renamed(key, cred, origin), Returned(p, key, origin.now, cred));
    } else {
      Extend(w.log, Renamed(key, cred, origin));
    }
  }

  lemma AfterRename(log: seq<Event>, key: Key, cred: Credential, origin: Origin)
    ensures Holds(log + [Renamed(key, cred, origin)], key, cred)
  {
  }

  lemma ReloadChronicled(w: World, p: Pid, readable: bool)
    requires LockOk(w) && FileOk(w) && ProcsOk(w) && Chronicled(w.log) && Pc(w, p).Locked?
    ensures Chronicled(DoReload(w, p, readable).log)
  {
    var Locked(key, now) := Pc(w, p);
    FailChronicled(w, p, StoreUnreadable);
    assert w.log + [] == w.log;
    if Contents(w.file).Some? && key in Contents(w.file).value && !NeedsRefresh(Contents(w.file).value[key], now) {
      Extend(w.log, Returned(p, key, now, Contents(w.file).value[key]));
    }
  }

  lemma StepChronicled(w: World, step: Step)
    requires Inv(w) && Chronicled(w.log) && Enabled(w, step)
    ensures Chronicled(Apply(w, step).log)
  {
    hide Chronicled;
    assert w.log + [] == w.log;
    match step {
      case Reload(p, readable) => ReloadChronicled(w, p, readable);
      case Send(p, request, leaves) => SendChronicled(w, p, request, leaves);
      case Serve(request, at, mint) => ServeChronicled(w, request, at, mint);
      case GiveUp(p) => AbandonChronicled(w, p);
      case Receive(p, reply) => AbandonChronicled(w, p);
      case Snapshot(p, readable) => AbandonChronicled(w, p);
      case Rename(p, ok) => if ok { RenameChronicled(w, p); } else { AbandonChronicled(w, p); }
      case Crash(p) => AbandonChronicled(w, p);
      case ReadAll(p) => if Contents(w.file).Some? { Extend(w.log, Listed(p, Contents(w.file).value)); }
      case RevokeLineage(lineage) => Extend(w.log, OperatorRevoked(lineage));
      case _ =>
    }
  }

  // ----- what each step logs -----

  function Emitted(w: World, step: Step): seq<Event>
    requires Enabled(w, step)
  {
    match step
    case Reload(p, readable) =>
      var Locked(key, now) := Pc(w, p);
      if !readable || Contents(w.file).None? || key !in Contents(w.file).value then Abandon(Pc(w, p))
      else
        var cred := Contents(w.file).value[key];
        if NeedsRefresh(cred, now) then [] else [Returned(p, key, now, cred)]
    case Send(p, _, leaves) =>
      var pc := Pc(w, p);
      if leaves then [Dialed(p, pc.key, pc.now, pc.cred.refreshToken)] else Abandon(pc)
    case Serve(request, at, _) => Served(w, request, VerdictOn(w, request, at))
    case Receive(p, reply) => if Usable(reply) then [] else Abandon(Pc(w, p))
    case Snapshot(p, readable) => if readable && Contents(w.file).Some? then [] else Abandon(Pc(w, p))
    case Rename(p, ok) =>
      var pc := Pc(w, p);
      if !ok then Abandon(pc)
      else if pc.origin.FromLogin? then [Renamed(pc.key, pc.cred, pc.origin)]
      else [Renamed(pc.key, pc.cred, pc.origin), Returned(p, pc.key, pc.origin.now, pc.cred)]
    case GiveUp(p) => Abandon(Pc(w, p))
    case Crash(p) => Abandon(Pc(w, p))
    case ReadAll(p) => if Contents(w.file).Some? then [Listed(p, Contents(w.file).value)] else []
    case RevokeLineage(lineage) => [OperatorRevoked(lineage)]
    case _ => []
  }

  lemma StepEmits(w: World, step: Step)
    requires Enabled(w, step)
    ensures Apply(w, step).log == w.log + Emitted(w, step)
    ensures w.log <= Apply(w, step).log && Since(w, Apply(w, step)) == Emitted(w, step)
  {
    assert w.log + [] == w.log;
  }

  lemma {:induction false} RunGrows(w: World, steps: seq<Step>)
    requires Run(w, steps)
    ensures w.log <= After(w, steps).log
    decreases |steps|
  {
    if steps == [] {
    } else {
      StepEmits(w, steps[0]);
      RunGrows(Apply(w, steps[0]), steps[1..]);
    }
  }

  lemma {:induction false} RunChronicled(w: World, steps: seq<Step>)
    requires Inv(w) && Chronicled(w.log) && Run(w, steps)
    ensures Inv(After(w, steps)) && Chronicled(After(w, steps).log)
    decreases |steps|
  {
    if steps == [] {
    } else {
      StepKept(w, steps[0]);
      StepChronicled(w, steps[0]);
      RunChronicled(Apply(w, steps[0]), steps[1..]);
    }
  }

  /** The log of every reachable world is chronicled. */
  lemma ReachableChronicled(w: World)
    requires Reachable(w)
    ensures Inv(w) && Chronicled(w.log)
  {
    var steps :| Run(START, steps) && After(START, steps) == w;
    assert Inv(START) by {
      assert forall p :: Pc(START, p) == Idle;
    }
    RunChronicled(START, steps);
  }
}
