/** The steps of the processes preserve the invariant, and so do reads and corruption of the file. */
module ClientSteps {
  import opened Basics
  import opened Credentials
  import opened AuthServer
  import opened Protocol
  import opened Invariant
  import opened Frames

  // ----- steps that leave the table and the marks alone -----

  lemma CalmKept(w: World, w': World, p: Pid)
    requires Inv(w) && LockOk(w') && FileOk(w') && OnlyMoved(w, w', p)
    requires w'.rows == w.rows && w'.requests == w.requests
    requires Written(w'.log) == Written(w.log) && SameMarks(w.log, w'.log)
    requires InFlight(Pc(w, p)) == InFlight(Pc(w', p)) && ProcOk(w, Pc(w', p))
    requires Newcomer(Pc(w', p)).None? || Newcomer(Pc(w', p)) == Newcomer(Pc(w, p))
    requires Pc(w', p) == Pc(w, p) || (!Pc(w, p).Sent? && !Pc(w', p).Sent?)
    ensures Inv(w')
  {
    CalmCore(w, w', p);
    RequestsFollow(w, w');
  }

  lemma WaitingKept(w: World, step: Step)
    requires Inv(w) && Enabled(w, step)
    requires step.StartRefresh? || step.TimeOut? || step.Acquire? || step.Release?
    ensures Inv(Apply(w, step))
  {
    hide LockOk, FileOk, StoreOk, NewcomersApart, SentOk, RequestsOk, RowsOk, Written;
    LockKept(w, step);
    FileKept(w, step);
    WrittenStep(w, step);
    assert ProcOk(w, Pc(w, step.p));
    CalmKept(w, Apply(w, step), step.p);
  }

  lemma MoveLock(w: World, p: Pid, pc: Proc, events: seq<Event>)
    requires LockOk(w) && Critical(Pc(w, p)) && Critical(pc)
    ensures LockOk(Move(w, p, pc, events))
  {
    var w' := Move(w, p, pc, events);
    forall q ensures w'.lock == Some(q) <==> Critical(Pc(w', q)) {
      assert w.lock == Some(q) <==> Critical(Pc(w, q));
    }
  }

  /** The holder moves on within its critical section, between requests and flights. */
  lemma MoveKept(w: World, p: Pid, pc: Proc, events: seq<Event>)
    requires Inv(w) && Critical(Pc(w, p)) && Critical(pc) && !Pc(w, p).Sent? && !pc.Sent?
    requires NoRename(events) && forall e :: e in events ==> !Mark(e)
    requires InFlight(Pc(w, p)) == InFlight(pc) && ProcOk(w, pc)
    requires Newcomer(pc).None? || Newcomer(pc) == Newcomer(Pc(w, p))
    ensures Inv(Move(w, p, pc, events))
  {
    hide StoreOk, ProcsOk, NewcomersApart, SentOk, RequestsOk, RowsOk, SameMarks, ProcOk, Written;
    MoveLock(w, p, pc, events);
    WrittenQuiet(w.log, events);
    Unmarked(w.log, events);
    CalmKept(w, Move(w, p, pc, events), p);
  }

  lemma ReceivedKept(w: World, p: Pid, reply: Reply)
    requires Inv(w) && Enabled(w, Receive(p, reply)) && Usable(reply)
    ensures Inv(DoReceive(w, p, reply))
  {
    var pc := Pc(w, p);
    assert ProcOk(w, pc);
    RenewedIsUsable(pc.cred, pc.now, reply.body.value);
    MoveKept(w, p, Pc(DoReceive(w, p, reply), p), []);
  }

  lemma SnapshotKept(w: World, p: Pid)
    requires Inv(w) && Pc(w, p).Writing? && Contents(w.file).Some?
    ensures Inv(DoSnapshot(w, p, true))
  {
    assert ProcOk(w, Pc(w, p));
    MoveKept(w, p, Pc(DoSnapshot(w, p, true), p), []);
  }

  lemma ReloadedKept(w: World, p: Pid)
    requires Inv(w) && Pc(w, p).Locked? && Contents(w.file).Some? && Pc(w, p).key in Contents(w.file).value
    ensures Inv(DoReload(w, p, true))
  {
    var Locked(key, now) := Pc(w, p);
    var cred := Contents(w.file).value[key];
    if NeedsRefresh(cred, now) {
      MoveKept(w, p, Loaded(key, now, cred), []);
    } else {
      MoveKept(w, p, Releasing(Ok(cred)), [Returned(p, key, now, cred)]);
    }
  }

  lemma BystanderKept(w: World, step: Step)
    requires Inv(w) && Enabled(w, step) && (step.ReadAll? || step.CorruptFile?)
    ensures Inv(Apply(w, step))
  {
    hide LockOk, FileOk, StoreOk, NewcomersApart, SentOk, RequestsOk, RowsOk, Written;
    LockKept(w, step);
    FileKept(w, step);
    WrittenStep(w, step);
    assert ProcOk(w, Pc(w, 0));
    CalmKept(w, Apply(w, step), 0);
  }

  // ----- giving up -----

  /** p abandons what it was doing, by failing or by dying. */
  lemma AbandonKept(w: World, w': World, p: Pid)
    requires Inv(w) && LockOk(w') && FileOk(w') && OnlyMoved(w, w', p)
    requires w'.rows == w.rows && w'.requests == w.requests && w'.log == w.log + Abandon(Pc(w, p))
    requires Pc(w', p).Releasing? || Pc(w', p).Dead?
    ensures Inv(w')
  {
    hide LockOk, FileOk, StoreOk, NewcomersApart, SentOk, RequestsOk, RowsOk, Written;
    var pc := Pc(w, p);
    WrittenQuiet(w.log, Abandon(pc));
    if Pending(pc).None? {
      CalmKept(w, w', p);
    } else {
      PendingRow(w, p, Pending(pc).value);
      LeftMarks(w, w', p, Pending(pc).value);
      LeaveKept(w, w', p, Pending(pc).value);
    }
  }

  /** w' is w after p, with this lineage pending, left it behind. */
  ghost predicate Left(w: World, w': World, p: Pid, lineage: int) {
    && Pending(Pc(w, p)) == Some(lineage) && w.lock == Some(p) && OnlyMoved(w, w', p)
    && (Pc(w', p).Releasing? || Pc(w', p).Dead?)
    && w'.rows == w.rows && w'.requests == w.requests && Written(w'.log) == Written(w.log)
    && (forall l: int :: Abandoned(l) in w'.log <==> Abandoned(l) in w.log || l == lineage)
    && (forall l: int :: Burned(l) in w'.log <==> Burned(l) in w.log || InFlight(Pc(w, p)) == Some(l))
    && (forall l: int :: HasRevoked(w.log, l) <==> HasRevoked(w'.log, l))
    && (forall t: string :: Spent(t) in w.log <==> Spent(t) in w'.log)
  }

  lemma LeftMarks(w: World, w': World, p: Pid, lineage: int)
    requires Pending(Pc(w, p)) == Some(lineage) && w.lock == Some(p) && OnlyMoved(w, w', p)
    requires w'.rows == w.rows && w'.requests == w.requests && Written(w'.log) == Written(w.log)
    requires Pc(w', p).Releasing? || Pc(w', p).Dead?
    requires w'.log == w.log + Abandon(Pc(w, p))
    ensures Left(w, w', p, lineage)
  {
    var pc := Pc(w, p);
    AddAbandoned(w.log, lineage, [GaveUp(pc.key)]);
    AddAbandoned(w.log, lineage, [Burned(lineage), GaveUp(pc.key)]);
    assert [Abandoned(lineage)] + [GaveUp(pc.key)] == [Abandoned(lineage), GaveUp(pc.key)];
    assert [Abandoned(lineage)] + [Burned(lineage), GaveUp(pc.key)]
        == [Abandoned(lineage), Burned(lineage), GaveUp(pc.key)];
  }

  /** An abandonment joins the log, perhaps with a burn, and no other mark. */
  lemma AddAbandoned(log: seq<Event>, lineage: int, rest: seq<Event>)
    requires forall e :: e in rest ==> !Mark(e) || e.Burned?
    ensures var log' := log + ([Abandoned(lineage)] + rest);
            && (forall l: int :: Abandoned(l) in log' <==> Abandoned(l) in log || l == lineage)
            && (forall l: int :: Burned(l) in log' <==> Burned(l) in log || Burned(l) in rest)
            && (forall l: int :: HasRevoked(log, l) <==> HasRevoked(log', l))
            && (forall t: string :: Spent(t) in log <==> Spent(t) in log')
  {
  }

  /** A rotation in flight becomes a burn, so the server stays exactly as far ahead. */
  lemma LeftAhead(w: World, w': World, p: Pid, lineage: int)
    requires LockOk(w) && LockOk(w') && Left(w, w', p, lineage)
    ensures SameAhead(w, w')
  {
    NobodyInFlight(w, w', p);
  }

  lemma LeftProcs(w: World, w': World, p: Pid, lineage: int)
    requires LockOk(w) && ProcsOk(w) && NewcomersApart(w) && TokensOk(w)
    requires Left(w, w', p, lineage) && SameAhead(w, w')
    ensures ProcsOk(w') && NewcomersApart(w')
  {
    forall q | q != p && Newcomer(Pc(w, q)).Some? ensures NewcomerOk(w', Newcomer(Pc(w, q)).value) {
      NewcomerKnown(w, q);
      PendingApart(w, p, lineage, q);
      NewcomerFollows(w, w', Newcomer(Pc(w, q)).value);
    }
    HolderMoves(w, w', p);
    NewcomersStayApart(w, w', p);
  }

  /** A request left behind is on record as abandoned. */
  lemma LeftRequests(w: World, w': World, p: Pid, lineage: int)
    requires ProcOk(w, Pc(w, p)) && SentOk(w) && RequestsOk(w)
    requires Left(w, w', p, lineage) && SameAhead(w, w')
    ensures SentOk(w') && RequestsOk(w')
  {
    forall r | r in w'.requests && Awaited(w, r)
      ensures Awaited(w', r) || Abandoned(LineageOf(w.rows, w.requests[r].token)) in w'.log
    {
      if w.requests[r].p == p {
        assert w.requests[r].token == Pc(w, p).cred.refreshToken;
      }
    }
    RequestsFollow(w, w');
  }

  lemma LeaveKept(w: World, w': World, p: Pid, lineage: int)
    requires Inv(w) && LockOk(w') && FileOk(w') && Left(w, w', p, lineage) && lineage in Lineages(w.rows)
    ensures Inv(w')
  {
    LeftAhead(w, w', p, lineage);
    StoreFollows(w, w');
    LeftProcs(w, w', p, lineage);
    LeftRequests(w, w', p, lineage);
    RowsFollow(w, w');
  }

  lemma FailKept(w: World, p: Pid, failure: Failure)
    requires Inv(w) && Critical(Pc(w, p))
    ensures Inv(Fail(w, p, failure))
  {
    hide LockOk, StoreOk, ProcsOk, NewcomersApart, SentOk, RequestsOk, RowsOk, Written;
    WrittenQuiet(w.log, Abandon(Pc(w, p)));
    MoveLock(w, p, Releasing(Err(failure)), Abandon(Pc(w, p)));
    AbandonKept(w, Fail(w, p, failure), p);
  }

  lemma CrashKept(w: World, p: Pid)
    requires Inv(w) && !Pc(w, p).Dead?
    ensures Inv(DoCrash(w, p))
  {
    hide LockOk, FileOk, StoreOk, ProcsOk, NewcomersApart, SentOk, RequestsOk, RowsOk, Written;
    LockKept(w, Crash(p));
    FileKept(w, Crash(p));
    AbandonKept(w, DoCrash(w, p), p);
  }

  lemma ReloadKept(w: World, p: Pid, readable: bool)
    requires Inv(w) && Pc(w, p).Locked?
    ensures Inv(DoReload(w, p, readable))
  {
    hide Inv;
    if !readable || Contents(w.file).None? {
      FailKept(w, p, StoreUnreadable);
    } else if Pc(w, p).key !in Contents(w.file).value {
      FailKept(w, p, NoCredential);
    } else {
      ReloadedKept(w, p);
    }
  }

  // ----- a new lineage -----

  /** w' is w after p enrolled token t of the new lineage and queued for the lock with it. */
  ghost predicate Enrolled(w: World, w': World, p: Pid, t: string, lineage: int) {
    && w'.log == w.log && w'.lock == w.lock && w'.requests == w.requests
    && t != "" && t !in w.rows && lineage !in Lineages(w.rows)
    && t in w'.rows && w'.rows[t].lineage == lineage && !w'.rows[t].consumed && !w'.rows[t].revoked
    && (forall u :: u in w.rows ==> u in w'.rows && w'.rows[u] == w.rows[u])
    && (forall u :: u in w'.rows ==> u in w.rows || u == t)
    && OnlyMoved(w, w', p) && Resting(Pc(w, p)) && Pc(w', p).Waiting? && Newcomer(Pc(w', p)).Some?
    && Newcomer(Pc(w', p)).value.refreshToken == t && w'.rows[t].clientId == Newcomer(Pc(w', p)).value.clientId
  }

  /** The new lineage appears nowhere yet. */
  lemma LineageUnused(w: World, lineage: int)
    requires LockOk(w) && ProcsOk(w) && LineagesKnown(w) && lineage !in Lineages(w.rows)
    ensures !Ahead(w, lineage) && Abandoned(lineage) !in w.log && !HasRevoked(w.log, lineage)
  {
    if HeldInFlight(w, lineage) {
      PendingRow(w, w.lock.value, lineage);
    }
  }

  lemma EnrolledRows(w: World, w': World, p: Pid, t: string, lineage: int)
    requires RowsOk(w) && Enrolled(w, w', p, t, lineage) && !HasRevoked(w.log, lineage)
    ensures RowsOk(w')
  {
    forall u | u in w.rows ensures w.rows[u].lineage in Lineages(w.rows) && w.rows[u].lineage in Lineages(w'.rows) {
      Known(w.rows, u);
      Known(w'.rows, u);
    }
    forall l: int | l in Lineages(w.rows) ensures l in Lineages(w'.rows) {
      var u :| u in w.rows && w.rows[u].lineage == l;
    }
  }

  lemma EnrolledNewcomer(w: World, w': World, p: Pid, t: string, lineage: int)
    requires TokensOk(w) && Enrolled(w, w', p, t, lineage) && SameAhead(w, w')
    requires !Ahead(w, lineage) && Abandoned(lineage) !in w.log
    ensures NewcomerOk(w', Newcomer(Pc(w', p)).value)
  {
    forall k | k in Written(w'.log) ensures !Kin(w'.rows, Newcomer(Pc(w', p)).value, Written(w'.log)[k]) {
      var u := Written(w.log)[k].refreshToken;
      assert StoredTokenOk(w, Written(w.log)[k]);
      if u in w.rows {
        Known(w.rows, u);
      }
    }
  }

  lemma EnrolledOther(w: World, w': World, p: Pid, t: string, lineage: int, q: Pid)
    requires TokensOk(w) && ProcOk(w, Pc(w, q)) && Enrolled(w, w', p, t, lineage) && SameAhead(w, w')
    ensures ProcOk(w', Pc(w, q))
  {
    if Newcomer(Pc(w, q)).Some? {
      NewcomerFollows(w, w', Newcomer(Pc(w, q)).value);
    }
  }

  lemma EnrolledApart(w: World, w': World, p: Pid, t: string, lineage: int)
    requires ProcsOk(w) && NewcomersApart(w) && Enrolled(w, w', p, t, lineage)
    ensures NewcomersApart(w')
  {
    forall q, r | Newcomer(Pc(w', q)).Some? && Newcomer(Pc(w', r)).Some?
      ensures Kin(w'.rows, Newcomer(Pc(w', q)).value, Newcomer(Pc(w', r)).value) ==> q == r
    {
      if q != p { EnrolledStranger(w, w', p, t, lineage, q); }
      if r != p { EnrolledStranger(w, w', p, t, lineage, r); }
    }
  }

  lemma EnrolledStranger(w: World, w': World, p: Pid, t: string, lineage: int, q: Pid)
    requires ProcsOk(w) && Enrolled(w, w', p, t, lineage) && q != p && Newcomer(Pc(w', q)).Some?
    ensures Newcomer(Pc(w, q)) == Newcomer(Pc(w', q))
    ensures var u := Newcomer(Pc(w, q)).value.refreshToken;
            u != "" ==> u in w.rows && w'.rows[u].lineage == w.rows[u].lineage != lineage
  {
    NewcomerKnown(w, q);
    var u := Newcomer(Pc(w, q)).value.refreshToken;
    if u in w.rows {
      Known(w.rows, u);
    }
  }

  lemma EnrolledKept(w: World, w': World, p: Pid, t: string, lineage: int)
    requires Inv(w) && LockOk(w') && FileOk(w') && Enrolled(w, w', p, t, lineage)
    ensures Inv(w')
  {
    AheadSame(w, w', p);
    LineageUnused(w, lineage);
    StoreFollows(w, w');
    EnrolledNewcomer(w, w', p, t, lineage);
    forall q ensures ProcOk(w', Pc(w', q)) {
      assert ProcOk(w, Pc(w, q));
      if q != p {
        EnrolledOther(w, w', p, t, lineage, q);
      }
    }
    EnrolledApart(w, w', p, t, lineage);
    RequestsFollow(w, w');
    EnrolledRows(w, w', p, t, lineage);
  }

  /** A login without a refresh token claims nothing. */
  lemma LoginWithoutToken(w: World, w': World, p: Pid)
    requires Inv(w) && LockOk(w') && FileOk(w') && OnlyMoved(w, w', p) && Resting(Pc(w, p)) && Pc(w', p).Waiting?
    requires Newcomer(Pc(w', p)).Some? && Newcomer(Pc(w', p)).value.refreshToken == ""
    requires w'.rows == w.rows && w'.requests == w.requests && w'.log == w.log
    ensures Inv(w')
  {
    AheadSame(w, w', p);
    StoreFollows(w, w');
    forall q ensures ProcOk(w', Pc(w', q)) {
      assert ProcOk(w, Pc(w, q));
      if q != p {
        ProcFollows(w, w', Pc(w, q));
      }
    }
    forall q, r | Newcomer(Pc(w', q)).Some? && Newcomer(Pc(w', r)).Some?
      ensures Kin(w'.rows, Newcomer(Pc(w', q)).value, Newcomer(Pc(w', r)).value) ==> q == r
    {
    }
    RequestsFollow(w, w');
    RowsFollow(w, w');
  }

  lemma StartLoginKept(w: World, step: Step)
    requires Inv(w) && step.StartLogin? && Enabled(w, step)
    ensures Inv(Apply(w, step))
  {
    LockKept(w, step);
    FileKept(w, step);
    if step.cred.refreshToken == "" {
      LoginWithoutToken(w, Apply(w, step), step.p);
    } else {
      EnrolledKept(w, Apply(w, step), step.p, step.cred.refreshToken, step.lineage);
    }
  }

  // ----- sending -----

  lemma SendRequests(w: World, w': World, p: Pid, request: int)
    requires LockOk(w) && TokensOk(w) && ProcsOk(w) && SentOk(w) && RequestsOk(w) && SameAhead(w, w')
    requires Enabled(w, Send(p, request, true)) && w' == DoSend(w, p, request, true)
    ensures SentOk(w') && RequestsOk(w')
  {
    var cred := Pc(w, p).cred;
    assert ProcOk(w, Pc(w, p)) && StoredTokenOk(w, Written(w.log)[Pc(w, p).key]);
    forall q | Pc(w', q).Sent?
      ensures Pc(w', q).request in w'.requests
      ensures w'.requests[Pc(w', q).request] == Request(q, Pc(w', q).cred.refreshToken, Pc(w', q).cred.clientId)
    {
      assert q != p ==> Pc(w, q).Sent?;
    }
    forall r | r in w'.requests ensures RequestOk(w', r) {
      if r != request {
        assert RequestOk(w, r);
      } else {
        assert Awaited(w', r);
      }
    }
  }

  lemma SentProc(w: World, p: Pid, request: int)
    requires TokensOk(w) && ProcsOk(w) && Pc(w, p).Loaded?
    ensures ProcOk(w, Pc(DoSend(w, p, request, true), p))
  {
    assert ProcOk(w, Pc(w, p)) && StoredTokenOk(w, Written(w.log)[Pc(w, p).key]);
  }

  lemma SentKept(w: World, w': World, p: Pid, request: int)
    requires Inv(w) && Enabled(w, Send(p, request, true)) && w' == DoSend(w, p, request, true) && LockOk(w')
    ensures Inv(w')
  {
    hide LockOk, TokensOk, KeysApart, ProcsOk, NewcomersApart, SentOk, RequestsOk, RowsOk, SameMarks, Written;
    SendQuiet(w, p, request, true);
    SentProc(w, p, request);
    Unmarked(w.log, [Dialed(p, Pc(w, p).key, Pc(w, p).now, Pc(w, p).cred.refreshToken)]);
    CalmCore(w, w', p);
    SendRequests(w, w', p, request);
  }

  lemma SendKept(w: World, p: Pid, request: int, leaves: bool)
    requires Inv(w) && Enabled(w, Send(p, request, leaves))
    ensures Inv(DoSend(w, p, request, leaves))
  {
    if !leaves {
      FailKept(w, p, RefreshFailed);
    } else {
      LockKept(w, Send(p, request, leaves));
      SentKept(w, DoSend(w, p, request, leaves), p, request);
    }
  }

  // ----- the rename -----

  /** What the new credential may claim: a known, unconsumed token of an unburned lineage that no
      other key and no waiting login belongs to. */
  ghost predicate Admissible(w: World, key: Key, cred: Credential) {
    cred.refreshToken != "" ==>
      && cred.refreshToken in w.rows && !w.rows[cred.refreshToken].consumed
      && w.rows[cred.refreshToken].clientId == cred.clientId
      && Burned(w.rows[cred.refreshToken].lineage) !in w.log
      && (forall k :: k in Written(w.log) && Kin(w.rows, cred, Written(w.log)[k]) ==> k == key)
      && (forall q :: Newcomer(Pc(w, q)).Some? && Pc(w, q).Waiting? ==> !Kin(w.rows, cred, Newcomer(Pc(w, q)).value))
  }

  lemma LoginAdmissible(w: World, p: Pid)
    requires ProcsOk(w) && NewcomersApart(w) && Pc(w, p).Merging? && Pc(w, p).origin.FromLogin?
    ensures Admissible(w, Pc(w, p).key, Pc(w, p).cred)
  {
    NewcomerKnown(w, p);
  }

  lemma RotationAdmissible(w: World, p: Pid)
    requires LockOk(w) && ProcsOk(w) && StoreOk(w) && Pc(w, p).Merging? && Pc(w, p).origin.FromRotation?
    ensures Admissible(w, Pc(w, p).key, Pc(w, p).cred)
  {
    var key, cred, lineage := Pc(w, p).key, Pc(w, p).cred, Pc(w, p).origin.lineage;
    assert ProcOk(w, Pc(w, p));
    PendingRow(w, p, lineage);
    forall k | k in Written(w.log) && Kin(w.rows, cred, Written(w.log)[k]) ensures k == key {
      assert Kin(w.rows, Written(w.log)[key], Written(w.log)[k]);
    }
    forall q | Newcomer(Pc(w, q)).Some? && Pc(w, q).Waiting?
      ensures !Kin(w.rows, cred, Newcomer(Pc(w, q)).value)
    {
      PendingApart(w, p, lineage, q);
    }
  }

  /** w' is w with one admissible entry replaced, and nobody left in flight. */
  ghost predicate Entered(w: World, w': World, p: Pid, key: Key, cred: Credential) {
    && w'.rows == w.rows && w'.requests == w.requests && SameMarks(w.log, w'.log)
    && Written(w'.log) == Written(w.log)[key := cred]
    && w.lock == Some(p) && OnlyMoved(w, w', p) && Pc(w, p).Merging? && Pc(w', p).Releasing?
    && (forall l: int :: !HeldInFlight(w', l))
    && (forall l: int :: HeldInFlight(w, l) <==> InFlight(Pc(w, p)) == Some(l))
  }

  lemma RenameUnmarked(w: World, p: Pid)
    requires Pc(w, p).Merging?
    ensures SameMarks(w.log, DoRename(w, p, true).log)
  {
    var Merging(key, cred, origin, _) := Pc(w, p);
    if origin.FromLogin? {
      Unmarked(w.log, [Renamed(key, cred, origin)]);
    } else {
      Unmarked(w.log, [Renamed(key, cred, origin), Returned(p, key, origin.now, cred)]);
    }
  }

  lemma RenameFlights(w: World, p: Pid)
    requires LockOk(w) && Pc(w, p).Merging?
    ensures w.lock == Some(p)
    ensures forall l: int :: !HeldInFlight(DoRename(w, p, true), l)
    ensures forall l: int :: HeldInFlight(w, l) <==> InFlight(Pc(w, p)) == Some(l)
  {
    assert Critical(Pc(w, p));
    LockKept(w, Rename(p, true));
    NobodyInFlight(w, DoRename(w, p, true), p);
  }

  lemma RenameEnters(w: World, p: Pid)
    requires LockOk(w) && Pc(w, p).Merging?
    ensures Entered(w, DoRename(w, p, true), p, Pc(w, p).key, Pc(w, p).cred)
  {
    hide LockOk, SameMarks, HeldInFlight, Written;
    RenameFlights(w, p);
    WrittenStep(w, Rename(p, true));
    RenameUnmarked(w, p);
  }

  lemma EnteredStore(w: World, w': World, p: Pid, key: Key, cred: Credential)
    requires LockOk(w) && StoreOk(w) && ProcsOk(w) && Admissible(w, key, cred)
    requires Entered(w, w', p, key, cred) && Pc(w, p).key == key
    ensures StoreOk(w')
  {
    var m, m' := Written(w.log), Written(w'.log);
    forall k | k in m' ensures StoredTokenOk(w', m'[k]) {
      if k != key {
        assert StoredTokenOk(w, m[k]);
        EnteredElsewhere(w, w', p, key, cred, k);
      }
    }
    forall k, l | k in m' && l in m' && Kin(w'.rows, m'[k], m'[l]) ensures k == l {
      assert Kin(w.rows, m'[k], m'[l]) && Kin(w.rows, m'[l], m'[k]);
    }
  }

  /** Another key's lineage was not the one in flight. */
  lemma EnteredElsewhere(w: World, w': World, p: Pid, key: Key, cred: Credential, k: Key)
    requires LockOk(w) && StoreOk(w) && ProcsOk(w) && Entered(w, w', p, key, cred) && Pc(w, p).key == key
    requires k in Written(w.log) && k != key
    ensures var t := Written(w.log)[k].refreshToken;
            t != "" ==> t in w.rows && (Ahead(w, w.rows[t].lineage) <==> Ahead(w', w.rows[t].lineage))
  {
    assert StoredTokenOk(w, Written(w.log)[k]);
    if InFlight(Pc(w, p)).Some? {
      PendingRow(w, p, InFlight(Pc(w, p)).value);
      assert !Kin(w.rows, Written(w.log)[key], Written(w.log)[k]);
    }
  }

  lemma EnteredProcs(w: World, w': World, p: Pid, key: Key, cred: Credential)
    requires LockOk(w) && ProcsOk(w) && NewcomersApart(w)
    requires Admissible(w, key, cred) && Entered(w, w', p, key, cred)
    ensures ProcsOk(w') && NewcomersApart(w')
  {
    forall q | q != p && Newcomer(Pc(w, q)).Some? ensures NewcomerOk(w', Newcomer(Pc(w, q)).value) {
      assert !Critical(Pc(w, q));
      NewcomerKnown(w, q);
      EnteredNewcomer(w, w', p, key, cred, Newcomer(Pc(w, q)).value);
    }
    HolderMoves(w, w', p);
    NewcomersStayApart(w, w', p);
  }

  lemma EnteredNewcomer(w: World, w': World, p: Pid, key: Key, cred: Credential, newcomer: Credential)
    requires Entered(w, w', p, key, cred) && NewcomerOk(w, newcomer)
    requires cred.refreshToken != "" ==> !Kin(w.rows, cred, newcomer)
    ensures NewcomerOk(w', newcomer)
  {
    forall k | newcomer.refreshToken != "" && k in Written(w'.log)
      ensures !Kin(w'.rows, newcomer, Written(w'.log)[k])
    {
      assert k != key ==> !Kin(w.rows, newcomer, Written(w.log)[k]);
    }
  }

  lemma EnteredKept(w: World, w': World, p: Pid, key: Key, cred: Credential)
    requires Inv(w) && LockOk(w') && FileOk(w') && Admissible(w, key, cred)
    requires Entered(w, w', p, key, cred) && Pc(w, p).key == key
    ensures Inv(w')
  {
    EnteredStore(w, w', p, key, cred);
    EnteredProcs(w, w', p, key, cred);
    RequestsFollow(w, w');
    RowsFollow(w, w');
  }

  lemma RenameKept(w: World, p: Pid)
    requires Inv(w) && Pc(w, p).Merging?
    ensures Inv(DoRename(w, p, true))
  {
    hide StoreOk, ProcsOk, NewcomersApart, SentOk, RequestsOk, RowsOk, Admissible, Entered, Written;
    LockKept(w, Rename(p, true));
    FileKept(w, Rename(p, true));
    RenameEnters(w, p);
    if Pc(w, p).origin.FromLogin? {
      LoginAdmissible(w, p);
    } else {
      RotationAdmissible(w, p);
    }
    EnteredKept(w, DoRename(w, p, true), p, Pc(w, p).key, Pc(w, p).cred);
  }
}
