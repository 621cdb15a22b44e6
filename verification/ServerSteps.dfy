/** The steps of the authorization server preserve the invariant: revoking a lineage, and serving a
    request, whether or not anybody still waits for it. */
module ServerSteps {
  import opened Basics
  import opened Credentials
  import opened AuthServer
  import opened Protocol
  import opened Invariant
  import opened Frames

  // ----- the server sweeps a lineage -----

  /** w' is w after a logged sweep of one lineage. */
  ghost predicate Swept(w: World, w': World, lineage: int) {
    && w'.rows == Sweep(w.rows, lineage) && lineage in Lineages(w.rows)
    && Written(w'.log) == Written(w.log)
    && (forall l: int :: Abandoned(l) in w.log <==> Abandoned(l) in w'.log)
    && (forall l: int :: Burned(l) in w.log <==> Burned(l) in w'.log)
    && (forall l: int :: HasRevoked(w'.log, l) <==> HasRevoked(w.log, l) || l == lineage)
    && (forall t: string :: Spent(t) in w.log <==> Spent(t) in w'.log)
  }

  lemma SweepExtends(rows: Table, lineage: int)
    ensures Extends(rows, Sweep(rows, lineage)) && SameConsumed(rows, Sweep(rows, lineage))
    ensures Lineages(Sweep(rows, lineage)) == Lineages(rows)
    ensures OneHead(rows) ==> OneHead(Sweep(rows, lineage))
  {
    SameLineages(rows, Sweep(rows, lineage));
  }

  lemma SweptRows(w: World, w': World, lineage: int)
    requires RowsOk(w) && Swept(w, w', lineage)
    ensures RowsOk(w')
  {
    SweepExtends(w.rows, lineage);
  }

  lemma SweptProc(w: World, w': World, lineage: int, pc: Proc)
    requires Swept(w, w', lineage) && ProcOk(w, pc) && TokensOk(w) && SameAhead(w, w')
    ensures ProcOk(w', pc)
  {
    SweepExtends(w.rows, lineage);
    if Newcomer(pc).Some? {
      NewcomerFollows(w, w', Newcomer(pc).value);
    }
  }

  lemma SweptCore(w: World, w': World, p: Pid, lineage: int)
    requires Inv(w) && LockOk(w') && OnlyMoved(w, w', p) && Swept(w, w', lineage)
    requires Pc(w', p) == Pc(w, p) || (Pc(w, p).Sent? && Pc(w', p).Releasing?)
    ensures StoreOk(w') && ProcsOk(w') && NewcomersApart(w') && RowsOk(w') && SameAhead(w, w')
  {
    SweepExtends(w.rows, lineage);
    AheadSame(w, w', p);
    StoreFollows(w, w');
    forall q ensures ProcOk(w', Pc(w', q)) {
      assert ProcOk(w, Pc(w, q));
      SweptProc(w, w', lineage, Pc(w, q));
    }
    NewcomersStayApart(w, w', p);
    SweptRows(w, w', lineage);
  }

  lemma RevokeSweeps(w: World, lineage: int)
    requires lineage in Lineages(w.rows)
    ensures Swept(w, Apply(w, RevokeLineage(lineage)), lineage)
  {
    WrittenStep(w, RevokeLineage(lineage));
  }

  /** Nobody moved and no request was served. */
  lemma SweptKept(w: World, w': World, lineage: int)
    requires Inv(w) && LockOk(w') && FileOk(w') && Swept(w, w', lineage)
    requires w'.procs == w.procs && w'.requests == w.requests
    ensures Inv(w')
  {
    SweptCore(w, w', 0, lineage);
    SweepExtends(w.rows, lineage);
    RequestsFollow(w, w');
  }

  lemma RevokeKept(w: World, lineage: int)
    requires Inv(w) && lineage in Lineages(w.rows)
    ensures Inv(Apply(w, RevokeLineage(lineage)))
  {
    hide LockOk, FileOk, StoreOk, ProcsOk, NewcomersApart, SentOk, RequestsOk, RowsOk, Swept, Written;
    LockKept(w, RevokeLineage(lineage));
    FileKept(w, RevokeLineage(lineage));
    RevokeSweeps(w, lineage);
    SweptKept(w, Apply(w, RevokeLineage(lineage)), lineage);
  }

  // ----- the server serves a request -----

  /** The request is no longer outstanding and only a sender waiting for it moved. */
  ghost predicate Delivered(w: World, w': World, request: int) {
    && request in w.requests && w'.requests == w.requests - {request}
    && w'.lock == w.lock && OnlyMoved(w, w', w.requests[request].p)
    && (if Awaited(w, request) then !Pc(w', w.requests[request].p).Sent?
        else Pc(w', w.requests[request].p) == Pc(w, w.requests[request].p))
  }

  lemma DeliveredSenders(w: World, w': World, request: int)
    requires SentOk(w) && Delivered(w, w', request)
    ensures SentOk(w')
    ensures forall r :: r in w'.requests && Awaited(w, r) ==> Awaited(w', r)
  {
  }

  /** A refusal changes nothing but the sender. */
  lemma RefusedKept(w: World, w': World, request: int)
    requires Inv(w) && LockOk(w') && FileOk(w') && Delivered(w, w', request)
    requires w'.rows == w.rows && Written(w'.log) == Written(w.log) && SameMarks(w.log, w'.log)
    requires var p := w.requests[request].p; Pc(w', p) == Pc(w, p) || Pc(w', p).Releasing?
    ensures Inv(w')
  {
    var p := w.requests[request].p;
    assert ProcOk(w, Pc(w, p));
    CalmCore(w, w', p);
    DeliveredSenders(w, w', request);
    RequestsFollow(w, w');
  }

  lemma ReusedKept(w: World, w': World, request: int, lineage: int)
    requires Inv(w) && LockOk(w') && FileOk(w') && Delivered(w, w', request) && Swept(w, w', lineage)
    requires var p := w.requests[request].p; Pc(w', p) == Pc(w, p) || (Pc(w, p).Sent? && Pc(w', p).Releasing?)
    ensures Inv(w')
  {
    SweptCore(w, w', w.requests[request].p, lineage);
    DeliveredSenders(w, w', request);
    SweepExtends(w.rows, lineage);
    RequestsFollow(w, w');
  }

  // ----- the server rotates -----

  /** The server consumed the live token t and minted a successor: it is now ahead of the store for
      that lineage, and no further ahead for any other. */
  ghost predicate Rotates(w: World, w': World, t: string, lineage: int, mint: Mint) {
    && t in w.rows && w.rows[t].lineage == lineage && !w.rows[t].consumed && !w.rows[t].revoked
    && mint.token != "" && mint.token !in w.rows
    && w'.rows == Settle(w.rows, t, Rotated(lineage), mint)
    && Written(w'.log) == Written(w.log)
    && (forall l: int :: Abandoned(l) in w.log <==> Abandoned(l) in w'.log)
    && (forall l: int :: Burned(l) in w.log ==> Burned(l) in w'.log)
    && (forall l: int :: Burned(l) in w'.log ==> Burned(l) in w.log || l == lineage)
    && (forall l: int :: HasRevoked(w'.log, l) <==> HasRevoked(w.log, l))
    && (forall u: string :: Spent(u) in w'.log <==> Spent(u) in w.log || u == t)
    && !Ahead(w, lineage)
    && (forall l: int :: Ahead(w', l) <==> Ahead(w, l) || l == lineage)
  }

  lemma RotationExtends(rows: Table, t: string, lineage: int, mint: Mint)
    requires t in rows && rows[t].lineage == lineage && mint.token !in rows
    ensures var rows' := Settle(rows, t, Rotated(lineage), mint);
            && Extends(rows, rows') && Lineages(rows') == Lineages(rows)
            && forall u :: u in rows ==> (rows'[u].consumed <==> rows[u].consumed || u == t)
  {
    Known(rows, t);
    SameLineages(rows, Settle(rows, t, Rotated(lineage), mint));
  }

  lemma RotatesRows(w: World, w': World, t: string, lineage: int, mint: Mint)
    requires RowsOk(w) && Rotates(w, w', t, lineage, mint)
    ensures RowsOk(w')
  {
    RotationExtends(w.rows, t, lineage, mint);
    Known(w.rows, t);
  }

  /** The only live token of the lineage is the one presented, so every other one is consumed. */
  lemma RotatesStore(w: World, w': World, t: string, lineage: int, mint: Mint)
    requires StoreOk(w) && OneHead(w.rows) && Rotates(w, w', t, lineage, mint)
    ensures StoreOk(w')
  {
    RotationExtends(w.rows, t, lineage, mint);
    forall k | k in Written(w'.log) ensures StoredTokenOk(w', Written(w'.log)[k]) {
      assert StoredTokenOk(w, Written(w.log)[k]);
    }
    KeysStayApart(w, w');
  }

  lemma RotatesRequests(w: World, w': World, t: string, lineage: int, mint: Mint, request: int)
    requires RequestsOk(w) && SentOk(w) && OneHead(w.rows) && Rotates(w, w', t, lineage, mint)
    requires Delivered(w, w', request)
    ensures RequestsOk(w') && SentOk(w')
  {
    RotationExtends(w.rows, t, lineage, mint);
    DeliveredSenders(w, w', request);
    forall r | r in w'.requests ensures RequestOk(w', r) {
      assert RequestOk(w, r);
    }
  }

  lemma RotatesNewcomer(w: World, w': World, t: string, lineage: int, mint: Mint, cred: Credential)
    requires TokensOk(w) && Rotates(w, w', t, lineage, mint) && NewcomerOk(w, cred)
    requires cred.refreshToken != "" ==> w.rows[cred.refreshToken].lineage != lineage
    ensures NewcomerOk(w', cred)
  {
    RotationExtends(w.rows, t, lineage, mint);
    NewcomerFollows(w, w', cred);
  }

  /** A process with no part in the rotation: a login of another lineage, or a refresh that is
      elsewhere. */
  lemma RotatesOther(w: World, w': World, t: string, lineage: int, mint: Mint, pc: Proc)
    requires TokensOk(w) && Rotates(w, w', t, lineage, mint) && ProcOk(w, pc)
    requires InFlight(pc) != Some(lineage)
    requires Newcomer(pc).Some? && Newcomer(pc).value.refreshToken != "" ==>
               w.rows[Newcomer(pc).value.refreshToken].lineage != lineage
    ensures ProcOk(w', pc)
  {
    RotationExtends(w.rows, t, lineage, mint);
    if Newcomer(pc).Some? {
      RotatesNewcomer(w, w', t, lineage, mint, Newcomer(pc).value);
    }
  }

  lemma RotationMarks(log: seq<Event>, t: string, burns: seq<Event>)
    requires forall e :: e in burns ==> e.Burned?
    ensures var log' := log + ([Spent(t)] + burns);
            && (forall l: int :: Abandoned(l) in log <==> Abandoned(l) in log')
            && (forall l: int :: Burned(l) in log' <==> Burned(l) in log || Burned(l) in burns)
            && (forall l: int :: HasRevoked(log', l) <==> HasRevoked(log, l))
            && (forall u: string :: Spent(u) in log' <==> Spent(u) in log || u == t)
  {
  }

  /** A rotation its sender still waits for is in flight from now on. */
  lemma AwaitedRotates(w: World, w': World, request: int, at: int, mint: Mint)
    requires LockOk(w) && ProcsOk(w) && SentOk(w) && RequestsOk(w)
    requires Enabled(w, Serve(request, at, mint)) && w' == DoServe(w, request, at, mint)
    requires VerdictOn(w, request, at).Rotated? && Awaited(w, request)
    ensures Rotates(w, w', w.requests[request].token, VerdictOn(w, request, at).lineage, mint)
  {
    var p, t, lineage := w.requests[request].p, w.requests[request].token, VerdictOn(w, request, at).lineage;
    assert RequestOk(w, request) && Critical(Pc(w, p));
    assert Served(w, request, Rotated(lineage)) == [Spent(t)] + [];
    RotationMarks(w.log, t, []);
    WrittenQuiet(w.log, [Spent(t)] + []);
    assert forall l: int :: !HeldInFlight(w, l) && (HeldInFlight(w', l) <==> l == lineage);
  }

  /** One nobody waits for is burned at once. */
  lemma OrphanRotates(w: World, w': World, request: int, at: int, mint: Mint)
    requires RequestsOk(w)
    requires Enabled(w, Serve(request, at, mint)) && w' == DoServe(w, request, at, mint)
    requires VerdictOn(w, request, at).Rotated? && !Awaited(w, request)
    ensures Rotates(w, w', w.requests[request].token, VerdictOn(w, request, at).lineage, mint)
  {
    var t, lineage := w.requests[request].token, VerdictOn(w, request, at).lineage;
    assert RequestOk(w, request);
    RotationMarks(w.log, t, [Burned(lineage)]);
    assert Served(w, request, Rotated(lineage)) == [Spent(t)] + [Burned(lineage)];
    WrittenQuiet(w.log, [Spent(t)] + [Burned(lineage)]);
    assert forall l: int :: HeldInFlight(w, l) <==> HeldInFlight(w', l);
  }

  /** The sender's new state: it carries the successor of what the store holds. */
  lemma Takeoff(w: World, w': World, request: int, at: int, mint: Mint)
    requires ProcsOk(w) && SentOk(w) && RequestsOk(w)
    requires Enabled(w, Serve(request, at, mint)) && w' == DoServe(w, request, at, mint)
    requires VerdictOn(w, request, at).Rotated? && Awaited(w, request)
    requires Rotates(w, w', w.requests[request].token, VerdictOn(w, request, at).lineage, mint)
    ensures ProcOk(w', Pc(w', w.requests[request].p))
    ensures Pending(Pc(w, w.requests[request].p)) == Some(VerdictOn(w, request, at).lineage)
  {
    var p := w.requests[request].p;
    assert ProcOk(w, Pc(w, p)) && RequestOk(w, request);
    assert Pc(w', p) == Answered(Pc(w, p), VerdictOn(w, request, at), mint);
    RotationExtends(w.rows, w.requests[request].token, VerdictOn(w, request, at).lineage, mint);
  }

  lemma AwaitedProcs(w: World, w': World, p: Pid, t: string, lineage: int, mint: Mint)
    requires LockOk(w) && TokensOk(w) && ProcsOk(w) && NewcomersApart(w) && Rotates(w, w', t, lineage, mint)
    requires Pending(Pc(w, p)) == Some(lineage) && OnlyMoved(w, w', p)
    requires ProcOk(w', Pc(w', p)) && Pc(w', p).Committed?
    ensures ProcsOk(w') && NewcomersApart(w')
  {
    PendingRow(w, p, lineage);
    RotationExtends(w.rows, t, lineage, mint);
    forall q | q != p && Newcomer(Pc(w, q)).Some? ensures NewcomerOk(w', Newcomer(Pc(w, q)).value) {
      PendingApart(w, p, lineage, q);
      NewcomerKnown(w, q);
      RotatesNewcomer(w, w', t, lineage, mint, Newcomer(Pc(w, q)).value);
    }
    HolderMoves(w, w', p);
    NewcomersStayApart(w, w', p);
  }

  lemma NotInFlight(w: World, q: Pid, lineage: int)
    requires LockOk(w) && !HeldInFlight(w, lineage)
    ensures InFlight(Pc(w, q)) != Some(lineage)
  {
    assert InFlight(Pc(w, q)).Some? ==> Critical(Pc(w, q));
  }

  lemma OrphanProcs(w: World, w': World, t: string, lineage: int, mint: Mint)
    requires LockOk(w) && TokensOk(w) && ProcsOk(w) && NewcomersApart(w) && Rotates(w, w', t, lineage, mint)
    requires Abandoned(lineage) in w.log && w'.procs == w.procs
    ensures ProcsOk(w') && NewcomersApart(w')
  {
    RotationExtends(w.rows, t, lineage, mint);
    forall q ensures ProcOk(w', Pc(w', q)) {
      assert ProcOk(w, Pc(w, q));
      NotInFlight(w, q, lineage);
      RotatesOther(w, w', t, lineage, mint, Pc(w, q));
    }
    NewcomersStayApart(w, w', 0);
  }

  lemma RotatedProcs(w: World, w': World, request: int, at: int, mint: Mint)
    requires LockOk(w) && TokensOk(w) && ProcsOk(w) && NewcomersApart(w) && SentOk(w) && RequestsOk(w)
    requires Enabled(w, Serve(request, at, mint)) && w' == DoServe(w, request, at, mint)
    requires VerdictOn(w, request, at).Rotated?
    ensures Rotates(w, w', w.requests[request].token, VerdictOn(w, request, at).lineage, mint)
    ensures ProcsOk(w') && NewcomersApart(w')
  {
    var Request(p, t, _) := w.requests[request];
    var lineage := VerdictOn(w, request, at).lineage;
    if Awaited(w, request) {
      AwaitedRotates(w, w', request, at, mint);
      Takeoff(w, w', request, at, mint);
      AwaitedProcs(w, w', p, t, lineage, mint);
    } else {
      assert RequestOk(w, request);
      OrphanRotates(w, w', request, at, mint);
      OrphanProcs(w, w', t, lineage, mint);
    }
  }

  lemma RotatedKept(w: World, w': World, request: int, at: int, mint: Mint)
    requires Inv(w) && LockOk(w') && FileOk(w')
    requires Enabled(w, Serve(request, at, mint)) && w' == DoServe(w, request, at, mint)
    requires VerdictOn(w, request, at).Rotated? && Delivered(w, w', request)
    ensures Inv(w')
  {
    hide TokensOk, KeysApart, ProcsOk, NewcomersApart, SentOk, RequestsOk, Written;
    hide OneHead, RevocationOk, SpentOk, LineagesKnown;
    var t, lineage := w.requests[request].token, VerdictOn(w, request, at).lineage;
    RotatedProcs(w, w', request, at, mint);
    RotatesStore(w, w', t, lineage, mint);
    RotatesRequests(w, w', t, lineage, mint, request);
    RotatesRows(w, w', t, lineage, mint);
  }

  lemma ServeDelivers(w: World, request: int, at: int, mint: Mint)
    requires Enabled(w, Serve(request, at, mint))
    ensures Delivered(w, DoServe(w, request, at, mint), request)
  {
  }

  /** A refusal or a detected reuse leaves these marks. */
  lemma ServedMarks(w: World, request: int, verdict: Verdict)
    requires request in w.requests && !verdict.Rotated?
    ensures var log' := w.log + Served(w, request, verdict);
            && (forall l: int :: Abandoned(l) in w.log <==> Abandoned(l) in log')
            && (forall l: int :: Burned(l) in w.log <==> Burned(l) in log')
            && (forall l: int :: HasRevoked(log', l) <==> HasRevoked(w.log, l) || verdict == Reused(l))
            && (forall t: string :: Spent(t) in w.log <==> Spent(t) in log')
  {
  }

  lemma ServeKept(w: World, request: int, at: int, mint: Mint)
    requires Inv(w) && Enabled(w, Serve(request, at, mint))
    ensures Inv(DoServe(w, request, at, mint))
  {
    hide StoreOk, ProcsOk, NewcomersApart, SentOk, RequestsOk, RowsOk, Written;
    var w', verdict := DoServe(w, request, at, mint), VerdictOn(w, request, at);
    LockKept(w, Serve(request, at, mint));
    FileKept(w, Serve(request, at, mint));
    WrittenStep(w, Serve(request, at, mint));
    ServeDelivers(w, request, at, mint);
    if verdict.Rotated? {
      RotatedKept(w, w', request, at, mint);
    } else {
      ServedMarks(w, request, verdict);
      if verdict.Reused? {
        Known(w.rows, w.requests[request].token);
        ReusedKept(w, w', request, verdict.lineage);
      } else {
        RefusedKept(w, w', request);
      }
    }
  }
}
