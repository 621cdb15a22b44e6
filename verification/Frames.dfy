/** What a step may leave alone, and which parts of the invariant survive for that reason. */
module Frames {
  import opened Basics
  import opened Credentials
  import opened AuthServer
  import opened Protocol
  import opened Invariant

  // ----- what a step may leave alone -----

  /** At most p moved. */
  ghost predicate OnlyMoved(w: World, w': World, p: Pid) {
    forall q :: q != p ==> Pc(w', q) == Pc(w, q)
  }

  ghost predicate SameAhead(w: World, w': World) {
    forall l: int :: Ahead(w, l) <==> Ahead(w', l)
  }

  /** The log gained no abandonment, burn, revocation or consumption. */
  ghost predicate SameMarks(log: seq<Event>, log': seq<Event>) {
    && (forall l: int :: Abandoned(l) in log <==> Abandoned(l) in log')
    && (forall l: int :: Burned(l) in log <==> Burned(l) in log')
    && (forall l: int :: HasRevoked(log, l) <==> HasRevoked(log', l))
    && (forall t: string :: Spent(t) in log <==> Spent(t) in log')
  }

  /** The entries the invariant speaks of. */
  predicate Mark(e: Event) {
    e.Abandoned? || e.Burned? || e.ReuseDetected? || e.OperatorRevoked? || e.Spent?
  }

  lemma Unmarked(log: seq<Event>, events: seq<Event>)
    requires forall e :: e in events ==> !Mark(e)
    ensures SameMarks(log, log + events)
  {
  }

  /** Every token keeps its lineage and its client. */
  ghost predicate Extends(rows: Table, rows': Table) {
    forall t :: t in rows ==>
      t in rows' && rows'[t].lineage == rows[t].lineage && rows'[t].clientId == rows[t].clientId
  }

  ghost predicate SameConsumed(rows: Table, rows': Table) {
    forall t :: t in rows && t in rows' ==> rows'[t].consumed == rows[t].consumed
  }

  /** Moving without entering or leaving a flight leaves the server exactly as far ahead. */
  lemma AheadSame(w: World, w': World, p: Pid)
    requires LockOk(w) && LockOk(w') && OnlyMoved(w, w', p)
    requires InFlight(Pc(w, p)) == InFlight(Pc(w', p))
    requires forall l: int :: Burned(l) in w.log <==> Burned(l) in w'.log
    ensures SameAhead(w, w')
  {
    forall l: int ensures Ahead(w, l) <==> Ahead(w', l) {
      FlightHolder(w, w', p, l);
      FlightHolder(w', w, p, l);
    }
  }

  lemma FlightHolder(w: World, w': World, p: Pid, l: int)
    requires LockOk(w) && LockOk(w') && OnlyMoved(w, w', p)
    requires InFlight(Pc(w, p)) == InFlight(Pc(w', p))
    ensures HeldInFlight(w, l) ==> HeldInFlight(w', l)
  {
    if HeldInFlight(w, l) {
      assert Critical(Pc(w', w.lock.value));
    }
  }

  lemma StoreFollows(w: World, w': World)
    requires StoreOk(w) && Written(w'.log) == Written(w.log)
    requires Extends(w.rows, w'.rows) && SameConsumed(w.rows, w'.rows) && SameAhead(w, w')
    ensures StoreOk(w')
  {
    forall k | k in Written(w'.log) ensures StoredTokenOk(w', Written(w'.log)[k]) {
      assert StoredTokenOk(w, Written(w.log)[k]);
    }
    KeysStayApart(w, w');
  }

  lemma KeysStayApart(w: World, w': World)
    requires StoreOk(w) && Written(w'.log) == Written(w.log) && Extends(w.rows, w'.rows)
    ensures KeysApart(Written(w'.log), w'.rows)
  {
    var m := Written(w.log);
    forall k, l | k in m && l in m && Kin(w'.rows, m[k], m[l]) ensures k == l {
      assert StoredTokenOk(w, m[k]) && StoredTokenOk(w, m[l]);
      assert Kin(w.rows, m[k], m[l]);
    }
  }

  lemma NewcomerFollows(w: World, w': World, cred: Credential)
    requires NewcomerOk(w, cred) && TokensOk(w) && Written(w'.log) == Written(w.log) && Extends(w.rows, w'.rows)
    requires cred.refreshToken != "" ==>
               var t := cred.refreshToken;
               && t in w'.rows && !w'.rows[t].consumed
               && !Ahead(w', w'.rows[t].lineage) && Abandoned(w'.rows[t].lineage) !in w'.log
    ensures NewcomerOk(w', cred)
  {
    forall k | k in Written(w'.log) ensures !Kin(w'.rows, cred, Written(w'.log)[k]) {
      assert StoredTokenOk(w, Written(w.log)[k]) && !Kin(w.rows, cred, Written(w.log)[k]);
    }
  }

  lemma NewcomersStayApart(w: World, w': World, p: Pid)
    requires ProcsOk(w) && NewcomersApart(w) && Extends(w.rows, w'.rows) && OnlyMoved(w, w', p)
    requires Newcomer(Pc(w', p)).None? || Newcomer(Pc(w', p)) == Newcomer(Pc(w, p))
    ensures NewcomersApart(w')
  {
    forall q, r | Newcomer(Pc(w', q)).Some? && Newcomer(Pc(w', r)).Some?
      ensures Kin(w'.rows, Newcomer(Pc(w', q)).value, Newcomer(Pc(w', r)).value) ==> q == r
    {
      assert Newcomer(Pc(w', q)) == Newcomer(Pc(w, q)) && Newcomer(Pc(w', r)) == Newcomer(Pc(w, r));
      NewcomerKnown(w, q);
      NewcomerKnown(w, r);
    }
  }

  lemma NewcomerKnown(w: World, q: Pid)
    requires ProcsOk(w) && Newcomer(Pc(w, q)).Some?
    ensures NewcomerOk(w, Newcomer(Pc(w, q)).value)
  {
    assert ProcOk(w, Pc(w, q));
  }

  /** While p holds the lock, everyone else is outside: what matters of them is a login waiting. */
  lemma HolderMoves(w: World, w': World, p: Pid)
    requires LockOk(w) && w.lock == Some(p) && OnlyMoved(w, w', p) && ProcOk(w', Pc(w', p))
    requires forall q :: q != p && Newcomer(Pc(w, q)).Some? ==> NewcomerOk(w', Newcomer(Pc(w, q)).value)
    ensures ProcsOk(w')
  {
    forall q ensures ProcOk(w', Pc(w', q)) {
      if q != p {
        assert !Critical(Pc(w, q));
      }
    }
  }

  lemma RowsFollow(w: World, w': World)
    requires RowsOk(w) && w'.rows == w.rows
    requires forall l: int :: HasRevoked(w.log, l) <==> HasRevoked(w'.log, l)
    requires forall t: string :: Spent(t) in w.log <==> Spent(t) in w'.log
    requires forall l: int :: Abandoned(l) in w'.log ==> Abandoned(l) in w.log || l in Lineages(w.rows)
    requires forall l: int :: Burned(l) in w'.log ==> Burned(l) in w.log || l in Lineages(w.rows)
    ensures RowsOk(w')
  {
  }

  /** Requests outstanding before and after, none of whose tokens changed. */
  lemma RequestsFollow(w: World, w': World)
    requires RequestsOk(w) && Extends(w.rows, w'.rows) && SameConsumed(w.rows, w'.rows)
    requires forall r :: r in w'.requests ==> r in w.requests && w'.requests[r] == w.requests[r]
    requires forall r :: r in w'.requests && Awaited(w, r) ==>
               Awaited(w', r) || Abandoned(LineageOf(w.rows, w.requests[r].token)) in w'.log
    requires forall l: int :: Ahead(w', l) ==> Ahead(w, l)
    requires forall l: int :: Abandoned(l) in w.log ==> Abandoned(l) in w'.log
    ensures RequestsOk(w')
  {
    forall r | r in w'.requests ensures RequestOk(w', r) {
      assert RequestOk(w, r);
    }
  }

  // ----- who holds what -----

  /** What the store holds for a refresh that has presented its token. */
  lemma PendingRow(w: World, p: Pid, lineage: int)
    requires LockOk(w) && ProcsOk(w) && Pending(Pc(w, p)) == Some(lineage)
    ensures w.lock == Some(p) && lineage in Lineages(w.rows)
    ensures var key := Pc(w, p).key;
            && key in Written(w.log) && Written(w.log)[key].refreshToken != ""
            && Written(w.log)[key].refreshToken in w.rows
            && w.rows[Written(w.log)[key].refreshToken].lineage == lineage
    ensures InFlight(Pc(w, p)).Some? ==> Burned(lineage) !in w.log
  {
    assert ProcOk(w, Pc(w, p));
  }

  /** So a login on its way belongs to another lineage. */
  lemma PendingApart(w: World, p: Pid, lineage: int, q: Pid)
    requires LockOk(w) && ProcsOk(w) && Pending(Pc(w, p)) == Some(lineage) && Newcomer(Pc(w, q)).Some?
    ensures var t := Newcomer(Pc(w, q)).value.refreshToken;
            t != "" ==> t in w.rows && w.rows[t].lineage != lineage
  {
    PendingRow(w, p, lineage);
    NewcomerKnown(w, q);
    assert Newcomer(Pc(w, q)).value.refreshToken != "" ==>
      !Kin(w.rows, Newcomer(Pc(w, q)).value, Written(w.log)[Pc(w, p).key]);
  }

  /** Once the holder is out of flight, nobody is in flight. */
  lemma NobodyInFlight(w: World, w': World, p: Pid)
    requires LockOk(w) && LockOk(w') && w.lock == Some(p) && OnlyMoved(w, w', p) && InFlight(Pc(w', p)).None?
    ensures forall l: int :: !HeldInFlight(w', l)
  {
    assert forall q :: q != p ==> !Critical(Pc(w', q));
  }

  /** Everything but the requests, for a step of p that touches neither table nor marks. */
  lemma CalmCore(w: World, w': World, p: Pid)
    requires Inv(w) && LockOk(w') && OnlyMoved(w, w', p)
    requires w'.rows == w.rows && Written(w'.log) == Written(w.log) && SameMarks(w.log, w'.log)
    requires InFlight(Pc(w, p)) == InFlight(Pc(w', p)) && ProcOk(w, Pc(w', p))
    requires Newcomer(Pc(w', p)).None? || Newcomer(Pc(w', p)) == Newcomer(Pc(w, p))
    ensures StoreOk(w') && ProcsOk(w') && NewcomersApart(w') && RowsOk(w') && SameAhead(w, w')
  {
    AheadSame(w, w', p);
    StoreFollows(w, w');
    forall q ensures ProcOk(w', Pc(w', q)) {
      assert ProcOk(w, Pc(w, q));
      ProcFollows(w, w', Pc(w', q));
    }
    NewcomersStayApart(w, w', p);
    RowsFollow(w, w');
  }

  lemma ProcFollows(w: World, w': World, pc: Proc)
    requires ProcOk(w, pc) && w'.rows == w.rows && Written(w'.log) == Written(w.log)
    requires SameMarks(w.log, w'.log) && SameAhead(w, w')
    ensures ProcOk(w', pc)
  {
  }
}
