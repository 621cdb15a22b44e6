/** Any number of consumers racing on one credential rotate it once. */
module Race {
  import opened Basics
  import opened Credentials
  import opened AuthServer
  import opened Protocol
  import opened Invariant
  import opened Frames
  import opened ServerSteps
  import opened Preservation
  import opened Chronicle

  predicate Consults(e: Event, key: Key) {
    (e.Dialed? || e.Returned?) && e.key == key
  }

  predicate Rotates(e: Event, key: Key) {
    e.Renamed? && e.origin.FromRotation? && e.key == key
  }

  /** The race as an observer sees it: nobody fails on the key or logs in to it, every consumer's
      captured instant finds the contested credential in its window, and none finds a rotated one
      in its window. */
  ghost predicate Fair(seen: seq<Event>, key: Key, contested: Credential) {
    && (forall e :: e in seen ==> e != GaveUp(key) && !(e.Renamed? && e.key == key && e.origin.FromLogin?))
    && (forall e :: e in seen && Consults(e, key) ==> NeedsRefresh(contested, e.now))
    && (forall e, r :: e in seen && r in seen && Consults(e, key) && Rotates(r, key) ==> !NeedsRefresh(r.cred, e.now))
  }

  function Dials(seen: seq<Event>, key: Key): nat {
    if seen == [] then 0
    else Dials(seen[..|seen| - 1], key) + (if seen[|seen| - 1].Dialed? && seen[|seen| - 1].key == key then 1 else 0)
  }

  /** The process has presented the key's token and the result is not yet on disk. */
  predicate PastDial(pc: Proc, key: Key) {
    Pending(pc).Some? && Refreshing(pc) == Some(key)
  }

  predicate Touches(e: Event, key: Key) {
    Consults(e, key) || (e.Renamed? && e.key == key)
  }

  ghost predicate Untouched(seen: seq<Event>, key: Key) {
    forall e :: e in seen ==> !Touches(e, key)
  }

  /** Nobody has dialed yet. */
  ghost predicate Contested(w: World, seen: seq<Event>, key: Key, contested: Credential) {
    && Holds(w.log, key, contested) && Untouched(seen, key) && Dials(seen, key) == 0
    && forall p :: !PastDial(Pc(w, p), key)
  }

  /** One consumer has dialed and is bringing the rotation home. */
  ghost predicate UnderWay(w: World, seen: seq<Event>, key: Key, contested: Credential) {
    && Holds(w.log, key, contested) && Dials(seen, key) == 1
    && (forall e :: e in seen && Touches(e, key) ==> e.Dialed?)
    && w.lock.Some? && PastDial(Pc(w, w.lock.value), key)
  }

  /** The rotation is on disk and everyone who has returned was given it. */
  ghost predicate Settled(w: World, seen: seq<Event>, key: Key) {
    && Dials(seen, key) == 1 && key in Written(w.log)
    && (exists r :: r in seen && Rotates(r, key) && r.cred == Written(w.log)[key])
    && (forall e :: e in seen && e.Returned? && e.key == key ==> e.cred == Written(w.log)[key])
    && forall p :: !PastDial(Pc(w, p), key)
  }

  ghost predicate Phase(w: World, seen: seq<Event>, key: Key, contested: Credential) {
    Contested(w, seen, key, contested) || UnderWay(w, seen, key, contested) || Settled(w, seen, key)
  }

  // ----- what a step can do to a race -----

  ghost predicate SameFlights(w: World, w': World, key: Key) {
    forall p :: PastDial(Pc(w, p), key) <==> PastDial(Pc(w', p), key)
  }

  ghost predicate SameEntry(w: World, w': World, key: Key) {
    && (key in Written(w.log) <==> key in Written(w'.log))
    && (key in Written(w.log) ==> Written(w'.log)[key] == Written(w.log)[key])
  }

  ghost predicate Aside(w: World, w': World, events: seq<Event>, key: Key) {
    Untouched(events, key) && SameFlights(w, w', key) && SameEntry(w, w', key)
  }

  ghost predicate DialsNow(w: World, w': World, events: seq<Event>, key: Key) {
    && |events| == 1 && events[0].Dialed? && events[0].key == key
    && key in Written(w.log) && NeedsRefresh(Written(w.log)[key], events[0].now)
    && w.lock.Some? && !PastDial(Pc(w, w.lock.value), key)
    && w'.lock == w.lock && PastDial(Pc(w', w.lock.value), key) && SameEntry(w, w', key)
  }

  ghost predicate RereadsNow(w: World, w': World, events: seq<Event>, key: Key) {
    && |events| == 1 && events[0].Returned? && events[0].key == key
    && Holds(w.log, key, events[0].cred) && !NeedsRefresh(events[0].cred, events[0].now)
    && w.lock.Some? && !PastDial(Pc(w, w.lock.value), key)
    && SameFlights(w, w', key) && SameEntry(w, w', key)
  }

  ghost predicate LandsNow(w: World, w': World, events: seq<Event>, key: Key) {
    && |events| == 2 && Rotates(events[0], key)
    && events[1].Returned? && events[1].key == key && events[1].cred == events[0].cred
    && Holds(w'.log, key, events[0].cred)
    && w.lock.Some? && PastDial(Pc(w, w.lock.value), key)
    && forall p :: !PastDial(Pc(w', p), key)
  }

  ghost predicate SpoilsRace(events: seq<Event>, key: Key) {
    exists e :: e in events && (e == GaveUp(key) || (e.Renamed? && e.key == key && e.origin.FromLogin?))
  }

  ghost predicate Shaped(w: World, w': World, events: seq<Event>, key: Key) {
    || Aside(w, w', events, key) || DialsNow(w, w', events, key) || RereadsNow(w, w', events, key)
    || LandsNow(w, w', events, key) || SpoilsRace(events, key)
  }

  /** Only p moved, and not past the dial for the key or back. */
  lemma FlightsFrame(w: World, w': World, p: Pid, key: Key)
    requires OnlyMoved(w, w', p) && (PastDial(Pc(w, p), key) <==> PastDial(Pc(w', p), key))
    ensures SameFlights(w, w', key)
  {
  }

  /** A step of p that writes nothing, says nothing about the key and does not move past the dial. */
  lemma AsideFrom(w: World, w': World, p: Pid, events: seq<Event>, key: Key)
    requires Written(w'.log) == Written(w.log) && Untouched(events, key) && OnlyMoved(w, w', p)
    requires PastDial(Pc(w, p), key) <==> PastDial(Pc(w', p), key)
    ensures Shaped(w, w', events, key)
  {
    FlightsFrame(w, w', p, key);
    assert Aside(w, w', events, key);
  }

  lemma Spoils(w: World, w': World, events: seq<Event>, e: Event, key: Key)
    requires e in events && (e == GaveUp(key) || (e.Renamed? && e.key == key && e.origin.FromLogin?))
    ensures Shaped(w, w', events, key)
  {
    assert SpoilsRace(events, key);
  }

  lemma AbandonShaped(w: World, w': World, p: Pid, key: Key)
    requires Written(w'.log) == Written(w.log) && OnlyMoved(w, w', p)
    requires Pc(w', p).Releasing? || Pc(w', p).Dead?
    ensures Shaped(w, w', Abandon(Pc(w, p)), key)
  {
    if Refreshing(Pc(w, p)) == Some(key) {
      Spoils(w, w', Abandon(Pc(w, p)), GaveUp(key), key);
    } else {
      AsideFrom(w, w', p, Abandon(Pc(w, p)), key);
    }
  }

  /** Steps that log nothing about any key and move nobody past a dial. */
  lemma SilentShaped(w: World, w': World, p: Pid, events: seq<Event>, key: Key)
    requires OnlyMoved(w, w', p) && w'.log == w.log + events
    requires PastDial(Pc(w, p), key) <==> PastDial(Pc(w', p), key)
    requires forall e :: e in events ==> e.Listed? || e.OperatorRevoked?
    ensures Shaped(w, w', events, key)
  {
    WrittenQuiet(w.log, events);
    AsideFrom(w, w', p, events, key);
  }

  lemma RereadShaped(w: World, p: Pid, cred: Credential, key: Key)
    requires LockOk(w) && FileOk(w) && Pc(w, p).Locked? && Contents(w.file).Some?
    requires Pc(w, p).key in Contents(w.file).value && cred == Contents(w.file).value[Pc(w, p).key]
    requires !NeedsRefresh(cred, Pc(w, p).now)
    ensures var returned := [Returned(p, Pc(w, p).key, Pc(w, p).now, cred)];
            Shaped(w, Move(w, p, Releasing(Ok(cred)), returned), returned, key)
  {
    var returned := [Returned(p, Pc(w, p).key, Pc(w, p).now, cred)];
    var w' := Move(w, p, Releasing(Ok(cred)), returned);
    WrittenQuiet(w.log, returned);
    assert Critical(Pc(w, p));
    if Pc(w, p).key != key {
      AsideFrom(w, w', p, returned, key);
    } else {
      FlightsFrame(w, w', p, key);
      assert RereadsNow(w, w', returned, key);
    }
  }

  lemma FailShaped(w: World, p: Pid, failure: Failure, key: Key)
    ensures Shaped(w, Fail(w, p, failure), Abandon(Pc(w, p)), key)
  {
    hide Shaped;
    WrittenQuiet(w.log, Abandon(Pc(w, p)));
    AbandonShaped(w, Fail(w, p, failure), p, key);
  }

  lemma ReloadShaped(w: World, p: Pid, readable: bool, key: Key)
    requires LockOk(w) && FileOk(w) && Pc(w, p).Locked?
    ensures Shaped(w, DoReload(w, p, readable), Emitted(w, Reload(p, readable)), key)
  {
    hide LockOk, FileOk, Shaped;
    var Locked(mine, now) := Pc(w, p);
    if !readable || Contents(w.file).None? {
      FailShaped(w, p, StoreUnreadable, key);
    } else if mine !in Contents(w.file).value {
      FailShaped(w, p, NoCredential, key);
    } else {
      var cred := Contents(w.file).value[mine];
      if NeedsRefresh(cred, now) {
        SilentShaped(w, Move(w, p, Loaded(mine, now, cred), []), p, [], key);
      } else {
        RereadShaped(w, p, cred, key);
      }
    }
  }

  lemma SendShaped(w: World, p: Pid, request: int, leaves: bool, key: Key)
    requires LockOk(w) && ProcOk(w, Pc(w, p)) && Enabled(w, Send(p, request, leaves))
    ensures Shaped(w, DoSend(w, p, request, leaves), Emitted(w, Send(p, request, leaves)), key)
  {
    var w', events := DoSend(w, p, request, leaves), Emitted(w, Send(p, request, leaves));
    SendQuiet(w, p, request, leaves);
    assert Critical(Pc(w, p));
    if !leaves {
      FailShaped(w, p, RefreshFailed, key);
    } else if Pc(w, p).key != key {
      AsideFrom(w, w', p, events, key);
    } else {
      assert DialsNow(w, w', events, key);
    }
  }

  lemma ServedUntouched(w: World, request: int, verdict: Verdict, key: Key)
    requires request in w.requests
    ensures Untouched(Served(w, request, verdict), key) && NoRename(Served(w, request, verdict))
    ensures Awaited(w, request) && !verdict.Rotated? ==>
              GaveUp(Pc(w, w.requests[request].p).key) in Served(w, request, verdict)
  {
  }

  /** Whoever is answered was past the dial and stays there, or has failed. */
  lemma ServeShaped(w: World, request: int, at: int, mint: Mint, key: Key)
    requires Enabled(w, Serve(request, at, mint))
    ensures Shaped(w, DoServe(w, request, at, mint), Emitted(w, Serve(request, at, mint)), key)
  {
    hide Shaped, Served, Untouched, NoRename;
    var w', p, verdict := DoServe(w, request, at, mint), w.requests[request].p, VerdictOn(w, request, at);
    ServedUntouched(w, request, verdict, key);
    WrittenQuiet(w.log, Served(w, request, verdict));
    ServeDelivers(w, request, at, mint);
    if Awaited(w, request) && !verdict.Rotated? && Pc(w, p).key == key {
      Spoils(w, w', Served(w, request, verdict), GaveUp(key), key);
    } else {
      AsideFrom(w, w', p, Served(w, request, verdict), key);
    }
  }

  lemma RenameShaped(w: World, p: Pid, key: Key)
    requires LockOk(w) && Pc(w, p).Merging?
    ensures Shaped(w, DoRename(w, p, true), Emitted(w, Rename(p, true)), key)
  {
    var w', events, pc := DoRename(w, p, true), Emitted(w, Rename(p, true)), Pc(w, p);
    assert Critical(pc);
    WrittenStep(w, Rename(p, true));
    if pc.key != key {
      FlightsFrame(w, w', p, key);
      assert Aside(w, w', events, key);
    } else if pc.origin.FromRotation? {
      forall q ensures !PastDial(Pc(w', q), key) {
        assert w.lock == Some(q) <==> Critical(Pc(w, q));
      }
      assert LandsNow(w, w', events, key);
    } else {
      Spoils(w, w', events, events[0], key);
    }
  }

  lemma QueueShaped(w: World, step: Step, key: Key)
    requires Enabled(w, step)
    requires step.StartRefresh? || step.StartLogin? || step.TimeOut? || step.Acquire? || step.Release?
    ensures Shaped(w, Apply(w, step), Emitted(w, step), key)
  {
    StepEmits(w, step);
    SilentShaped(w, Apply(w, step), step.p, [], key);
  }

  lemma WriteOutShaped(w: World, step: Step, key: Key)
    requires Enabled(w, step) && (step.Receive? || step.Snapshot?)
    ensures Shaped(w, Apply(w, step), Emitted(w, step), key)
  {
    hide Shaped;
    if Pc(Apply(w, step), step.p).Releasing? {
      FailShaped(w, step.p, if step.Receive? then RefreshFailed else PersistFailed, key);
    } else {
      StepEmits(w, step);
      SilentShaped(w, Apply(w, step), step.p, [], key);
    }
  }

  lemma BystanderShaped(w: World, step: Step, key: Key)
    requires Enabled(w, step) && (step.ReadAll? || step.CorruptFile? || step.RevokeLineage?)
    ensures Shaped(w, Apply(w, step), Emitted(w, step), key)
  {
    StepEmits(w, step);
    SilentShaped(w, Apply(w, step), 0, Emitted(w, step), key);
  }

  lemma StepShaped(w: World, step: Step, key: Key)
    requires LockOk(w) && FileOk(w) && ProcsOk(w) && Enabled(w, step)
    ensures Shaped(w, Apply(w, step), Emitted(w, step), key)
  {
    hide LockOk, FileOk, Shaped;
    match step {
      case Reload(p, readable) => ReloadShaped(w, p, readable, key);
      case Send(p, request, leaves) => SendShaped(w, p, request, leaves, key);
      case Serve(request, at, mint) => ServeShaped(w, request, at, mint, key);
      case GiveUp(p) => FailShaped(w, p, RefreshFailed, key);
      case Receive(p, _) => WriteOutShaped(w, step, key);
      case Snapshot(p, _) => WriteOutShaped(w, step, key);
      case Rename(p, ok) => if ok { RenameShaped(w, p, key); } else { FailShaped(w, p, PersistFailed, key); }
      case Crash(p) => WrittenStep(w, step); AbandonShaped(w, Apply(w, step), p, key);
      case ReadAll(p) => BystanderShaped(w, step, key);
      case CorruptFile => BystanderShaped(w, step, key);
      case RevokeLineage(lineage) => BystanderShaped(w, step, key);
      case _ => QueueShaped(w, step, key);
    }
  }

  // ----- the race, step by step -----

  lemma {:induction false} DialsSplit(seen: seq<Event>, events: seq<Event>, key: Key)
    ensures Dials(seen + events, key) == Dials(seen, key) + Dials(events, key)
    decreases |events|
  {
    if events == [] {
      assert seen + events == seen;
    } else {
      assert (seen + events)[..|seen + events| - 1] == seen + events[..|events| - 1];
      DialsSplit(seen, events[..|events| - 1], key);
    }
  }

  lemma {:induction false} NoDials(events: seq<Event>, key: Key)
    requires forall e :: e in events ==> !(e.Dialed? && e.key == key)
    ensures Dials(events, key) == 0
    decreases |events|
  {
    if events == [] {
    } else {
      assert events[|events| - 1] in events;
      NoDials(events[..|events| - 1], key);
    }
  }

  lemma AsidePhase(w: World, w': World, seen: seq<Event>, events: seq<Event>, key: Key, contested: Credential)
    requires LockOk(w') && Phase(w, seen, key, contested) && Aside(w, w', events, key)
    ensures Phase(w', seen + events, key, contested)
  {
    DialsSplit(seen, events, key);
    NoDials(events, key);
    if UnderWay(w, seen, key, contested) {
      assert Critical(Pc(w', w.lock.value));
      assert UnderWay(w', seen + events, key, contested);
    } else if Contested(w, seen, key, contested) {
      assert Contested(w', seen + events, key, contested);
    } else {
      assert Settled(w', seen + events, key);
    }
  }

  /** Once settled, nobody finds the credential in its window. */
  lemma SettledIsFresh(w: World, seen: seq<Event>, events: seq<Event>, e: Event, key: Key, contested: Credential)
    requires Settled(w, seen, key) && Fair(seen + events, key, contested) && e in events && Consults(e, key)
    ensures key in Written(w.log) && !NeedsRefresh(Written(w.log)[key], e.now)
  {
    var r :| r in seen && Rotates(r, key) && r.cred == Written(w.log)[key];
    assert r in seen + events && e in seen + events;
  }

  lemma DialPhase(w: World, w': World, seen: seq<Event>, events: seq<Event>, key: Key, contested: Credential)
    requires Phase(w, seen, key, contested) && DialsNow(w, w', events, key) && Fair(seen + events, key, contested)
    ensures Phase(w', seen + events, key, contested)
  {
    var e := events[0];
    assert e in events && events == [e];
    assert !Settled(w, seen, key) by {
      if Settled(w, seen, key) {
        SettledIsFresh(w, seen, events, e, key, contested);
      }
    }
    assert Contested(w, seen, key, contested);
    DialsSplit(seen, events, key);
    assert Dials([e], key) == 1 by { assert [e][..0] == []; }
    assert UnderWay(w', seen + events, key, contested);
  }

  /** Until settled, everybody finds the credential in its window. */
  lemma UnsettledIsDue(w: World, seen: seq<Event>, events: seq<Event>, e: Event, key: Key, contested: Credential)
    requires Phase(w, seen, key, contested) && !Settled(w, seen, key)
    requires Fair(seen + events, key, contested) && e in events && Consults(e, key)
    ensures key in Written(w.log) && NeedsRefresh(Written(w.log)[key], e.now)
  {
    assert e in seen + events;
  }

  lemma RereadPhase(w: World, w': World, seen: seq<Event>, events: seq<Event>, key: Key, contested: Credential)
    requires Phase(w, seen, key, contested) && RereadsNow(w, w', events, key) && Fair(seen + events, key, contested)
    ensures Phase(w', seen + events, key, contested)
  {
    var e := events[0];
    assert e in events && events == [e];
    assert Settled(w, seen, key) by {
      if !Settled(w, seen, key) {
        UnsettledIsDue(w, seen, events, e, key, contested);
      }
    }
    var r :| r in seen && Rotates(r, key) && r.cred == Written(w.log)[key];
    assert r in seen + events;
    DialsSplit(seen, events, key);
    NoDials(events, key);
    assert Settled(w', seen + events, key);
  }

  lemma LandPhase(w: World, w': World, seen: seq<Event>, events: seq<Event>, key: Key, contested: Credential)
    requires Phase(w, seen, key, contested) && LandsNow(w, w', events, key)
    ensures Phase(w', seen + events, key, contested)
  {
    assert events == [events[0], events[1]];
    DialsSplit(seen, events, key);
    NoDials(events, key);
    assert events[0] in seen + events && Rotates(events[0], key);
    assert Settled(w', seen + events, key);
  }

  lemma FairUnspoiled(seen: seq<Event>, events: seq<Event>, key: Key, contested: Credential)
    requires Fair(seen + events, key, contested)
    ensures !SpoilsRace(events, key)
  {
    assert forall e :: e in events ==> e in seen + events;
  }

  lemma PhaseKept(w: World, step: Step, seen: seq<Event>, key: Key, contested: Credential)
    requires Inv(w) && Enabled(w, step) && Phase(w, seen, key, contested)
    requires Fair(seen + Since(w, Apply(w, step)), key, contested)
    ensures Phase(Apply(w, step), seen + Since(w, Apply(w, step)), key, contested)
  {
    hide Apply, Since, Emitted, Phase, UnderWay, Fair, Aside, DialsNow, RereadsNow, LandsNow, SpoilsRace;
    var w', events := Apply(w, step), Since(w, Apply(w, step));
    StepEmits(w, step);
    StepShaped(w, step, key);
    LockKept(w, step);
    FairUnspoiled(seen, events, key, contested);
    if Aside(w, w', events, key) {
      AsidePhase(w, w', seen, events, key, contested);
    } else if DialsNow(w, w', events, key) {
      DialPhase(w, w', seen, events, key, contested);
    } else if RereadsNow(w, w', events, key) {
      RereadPhase(w, w', seen, events, key, contested);
    } else {
      LandPhase(w, w', seen, events, key, contested);
    }
  }

  lemma FairPrefix(seen: seq<Event>, more: seq<Event>, key: Key, contested: Credential)
    requires seen <= more && Fair(more, key, contested)
    ensures Fair(seen, key, contested)
  {
  }

  lemma SinceSplits(w: World, w1: World, end: World, seen: seq<Event>)
    requires w.log <= w1.log <= end.log
    ensures seen + Since(w, w1) + Since(w1, end) == seen + Since(w, end)
  {
  }

  lemma {:induction false} PhaseAlong(w: World, steps: seq<Step>, seen: seq<Event>, key: Key, contested: Credential)
    requires Inv(w) && Run(w, steps) && Phase(w, seen, key, contested)
    requires Fair(seen + Since(w, After(w, steps)), key, contested)
    ensures Phase(After(w, steps), seen + Since(w, After(w, steps)), key, contested)
    decreases |steps|
  {
    if steps == [] {
      assert seen + Since(w, w) == seen;
    } else {
      var w1, end := Apply(w, steps[0]), After(w, steps);
      StepEmits(w, steps[0]);
      RunGrows(w1, steps[1..]);
      SinceSplits(w, w1, end, seen);
      FairPrefix(seen + Since(w, w1), seen + Since(w, end), key, contested);
      PhaseKept(w, steps[0], seen, key, contested);
      StepKept(w, steps[0]);
      PhaseAlong(w1, steps[1..], seen + Since(w, w1), key, contested);
    }
  }

  /** While the lock is free nobody has dialed. */
  lemma StartsContested(w: World, key: Key, contested: Credential)
    requires LockOk(w) && w.lock == None && Holds(w.log, key, contested)
    ensures Contested(w, [], key, contested)
  {
    forall p ensures !PastDial(Pc(w, p), key) {
      assert w.lock != Some(p);
    }
  }

  /** Where the race can end: nothing handed out before the rotation is on disk. */
  lemma UndialedUntouched(w: World, seen: seq<Event>, key: Key, contested: Credential)
    requires Phase(w, seen, key, contested)
    ensures Dials(seen, key) <= 1
    ensures forall e :: e in seen && e.Returned? && e.key == key ==>
              Dials(seen, key) == 1 && Holds(w.log, key, e.cred)
  {
  }

  /** From any reachable world with the lock free, in any fair run: at most one consumer dials for
      the contested key, everyone handed a credential is handed the one on disk, and once anyone
      has been, exactly one dial took place. */
  lemma RaceRotatesOnce(w: World, steps: seq<Step>, key: Key, contested: Credential)
    requires Reachable(w) && w.lock == None && Holds(w.log, key, contested)
    requires Run(w, steps) && Fair(Since(w, After(w, steps)), key, contested)
    ensures var seen, end := Since(w, After(w, steps)), After(w, steps);
            && Dials(seen, key) <= 1
            && forall e :: e in seen && e.Returned? && e.key == key ==>
                 Dials(seen, key) == 1 && Holds(end.log, key, e.cred)
  {
    hide Run, After, Since, Fair, Written, Contested;
    ReachableInv(w);
    StartsContested(w, key, contested);
    assert [] + Since(w, After(w, steps)) == Since(w, After(w, steps));
    PhaseAlong(w, steps, [], key, contested);
    UndialedUntouched(After(w, steps), Since(w, After(w, steps)), key, contested);
  }
}
