/** What every reachable world satisfies. The invariant is a conjunction of small predicates,
    each proved to survive every step. */
module Invariant {
  import opened Basics
  import opened Credentials
  import opened AuthServer
  import opened Protocol

  /** The completed renames applied one at a time to an empty map. */
  function Written(log: seq<Event>): Store {
    if log == [] then map[]
    else
      var before, last := Written(log[..|log| - 1]), log[|log| - 1];
      if last.Renamed? then before[last.key := last.cred] else before
  }

  /** Exactly the lock's holder is between acquire and release. */
  ghost predicate LockOk(w: World) {
    forall p :: w.lock == Some(p) <==> Critical(Pc(w, p))
  }

  ghost predicate FileOk(w: World) {
    Contents(w.file).Some? ==> Contents(w.file).value == Written(w.log)
  }

  // ----- tokens -----

  ghost predicate HeldInFlight(w: World, lineage: int) {
    w.lock.Some? && InFlight(Pc(w, w.lock.value)) == Some(lineage)
  }

  /** The server has rotated past what the store holds for this lineage: the successor was lost, or
      is on its way to the file. */
  ghost predicate Ahead(w: World, lineage: int) {
    Burned(lineage) in w.log || HeldInFlight(w, lineage)
  }

  /** The stored token is known to the server under the same client. It is consumed exactly when
      the server is ahead of the store. */
  ghost predicate StoredTokenOk(w: World, cred: Credential) {
    var t := cred.refreshToken;
    t != "" ==>
      && t in w.rows
      && w.rows[t].clientId == cred.clientId
      && (w.rows[t].consumed <==> Ahead(w, w.rows[t].lineage))
  }

  ghost predicate TokensOk(w: World) {
    forall k :: k in Written(w.log) ==> StoredTokenOk(w, Written(w.log)[k])
  }

  /** Two credentials belong to one lineage. */
  ghost predicate Kin(rows: Table, a: Credential, b: Credential) {
    && a.refreshToken != "" && b.refreshToken != ""
    && a.refreshToken in rows && b.refreshToken in rows
    && rows[a.refreshToken].lineage == rows[b.refreshToken].lineage
  }

  ghost predicate KeysApart(m: Store, rows: Table) {
    forall k, l :: k in m && l in m && Kin(rows, m[k], m[l]) ==> k == l
  }

  // ----- processes -----

  /** A credential on its way to its first write: freshly issued, of a lineage that was never
      abandoned and that nothing in the store belongs to. */
  ghost predicate NewcomerOk(w: World, cred: Credential) {
    var t := cred.refreshToken;
    t != "" ==>
      && t in w.rows && !w.rows[t].consumed && w.rows[t].clientId == cred.clientId
      && !Ahead(w, w.rows[t].lineage) && Abandoned(w.rows[t].lineage) !in w.log
      && forall k :: k in Written(w.log) ==> !Kin(w.rows, cred, Written(w.log)[k])
  }

  /** The rotation under way replaces what the store still holds under the key. */
  ghost predicate ReplacingOk(w: World, key: Key, now: int, replaced: Credential) {
    key in Written(w.log) && Written(w.log)[key] == replaced && NeedsRefresh(replaced, now)
  }

  ghost predicate FlightOk(w: World, replaced: Credential, lineage: int, minted: string) {
    && replaced.refreshToken in w.rows && w.rows[replaced.refreshToken].lineage == lineage
    && minted != "" && minted in w.rows
    && w.rows[minted].lineage == lineage && !w.rows[minted].consumed
    && w.rows[minted].clientId == replaced.clientId
    && Burned(lineage) !in w.log
  }

  ghost predicate WriteOk(w: World, key: Key, cred: Credential, origin: Origin) {
    match origin
    case FromLogin => NewcomerOk(w, cred)
    case FromRotation(now, replaced, lineage) =>
      && ReplacingOk(w, key, now, replaced)
      && Rotation(cred, now)
      && cred.clientId == replaced.clientId
      && FlightOk(w, replaced, lineage, cred.refreshToken)
  }

  ghost predicate ProcOk(w: World, pc: Proc) {
    match pc
    case Waiting(Login(_, cred)) => NewcomerOk(w, cred)
    case Loaded(key, now, cred) => ReplacingOk(w, key, now, cred)
    case Sent(key, now, cred, lineage, _) =>
      ReplacingOk(w, key, now, cred) && cred.refreshToken in w.rows && w.rows[cred.refreshToken].lineage == lineage
    case Committed(key, now, cred, lineage, minted) =>
      ReplacingOk(w, key, now, cred) && FlightOk(w, cred, lineage, minted)
    case Writing(key, cred, origin) => WriteOk(w, key, cred, origin)
    case Merging(key, cred, origin, snapshot) => WriteOk(w, key, cred, origin) && snapshot == Written(w.log)
    case _ => true
  }

  ghost predicate ProcsOk(w: World) {
    forall p :: ProcOk(w, Pc(w, p))
  }

  /** The credential a login process still has to write. */
  function Newcomer(pc: Proc): Option<Credential> {
    match pc
    case Waiting(Login(_, cred)) => Some(cred)
    case Writing(_, cred, FromLogin) => Some(cred)
    case Merging(_, cred, FromLogin, _) => Some(cred)
    case _ => None
  }

  ghost predicate NewcomersApart(w: World) {
    forall p, q | Newcomer(Pc(w, p)).Some? && Newcomer(Pc(w, q)).Some? ::
      Kin(w.rows, Newcomer(Pc(w, p)).value, Newcomer(Pc(w, q)).value) ==> p == q
  }

  // ----- requests -----

  /** The request this process waits on is its own and is still outstanding. */
  ghost predicate SentOk(w: World) {
    forall p :: Pc(w, p).Sent? ==>
      && Pc(w, p).request in w.requests
      && w.requests[Pc(w, p).request] == Request(p, Pc(w, p).cred.refreshToken, Pc(w, p).cred.clientId)
  }

  /** An outstanding request presents a known token under its client. While the token is unconsumed
      the server is not ahead of the store, and a request nobody waits for was abandoned. */
  ghost predicate RequestOk(w: World, request: int)
    requires request in w.requests
  {
    var Request(p, t, clientId) := w.requests[request];
    && t in w.rows && w.rows[t].clientId == clientId
    && (!w.rows[t].consumed ==> !Ahead(w, w.rows[t].lineage))
    && (Awaited(w, request) || Abandoned(w.rows[t].lineage) in w.log)
  }

  ghost predicate RequestsOk(w: World) {
    forall r :: r in w.requests ==> RequestOk(w, r)
  }

  // ----- the server's rows -----

  ghost predicate HasRevoked(log: seq<Event>, lineage: int) {
    ReuseDetected(lineage) in log || OperatorRevoked(lineage) in log
  }

  ghost predicate RevocationOk(w: World) {
    forall t :: t in w.rows ==> (w.rows[t].revoked <==> HasRevoked(w.log, w.rows[t].lineage))
  }

  /** The log knows exactly which tokens are consumed. */
  ghost predicate SpentOk(w: World) {
    forall t :: Spent(t) in w.log <==> t in w.rows && w.rows[t].consumed
  }

  ghost predicate LineagesKnown(w: World) {
    forall l: int :: Abandoned(l) in w.log || Burned(l) in w.log || HasRevoked(w.log, l) ==> l in Lineages(w.rows)
  }

  ghost predicate RowsOk(w: World) {
    OneHead(w.rows) && RevocationOk(w) && SpentOk(w) && LineagesKnown(w)
  }

  ghost predicate StoreOk(w: World) {
    TokensOk(w) && KeysApart(Written(w.log), w.rows)
  }

  ghost predicate Inv(w: World) {
    && LockOk(w) && FileOk(w) && StoreOk(w)
    && ProcsOk(w) && NewcomersApart(w) && SentOk(w) && RequestsOk(w)
    && RowsOk(w)
  }

  // ----- how Written grows -----

  predicate NoRename(events: seq<Event>) {
    forall e :: e in events ==> !e.Renamed?
  }

  lemma {:induction false} WrittenQuiet(log: seq<Event>, events: seq<Event>)
    requires NoRename(events)
    ensures Written(log + events) == Written(log)
    decreases |events|
  {
    if events == [] {
      assert log + events == log;
    } else {
      var front := events[..|events| - 1];
      assert (log + events)[..|log + events| - 1] == log + front;
      WrittenQuiet(log, front);
    }
  }

  lemma WrittenRename(log: seq<Event>, key: Key, cred: Credential, origin: Origin, p: Pid, now: int)
    ensures Written(log + [Renamed(key, cred, origin)]) == Written(log)[key := cred]
    ensures Written(log + [Renamed(key, cred, origin), Returned(p, key, now, cred)]) == Written(log)[key := cred]
  {
    var r, both := [Renamed(key, cred, origin)], [Renamed(key, cred, origin), Returned(p, key, now, cred)];
    assert (log + r)[..|log + r| - 1] == log;
    assert (log + both)[..|log + both| - 1] == log + r;
  }

  /** Only a completed rename changes what has been written, and only under its own key. */
  lemma WrittenStep(w: World, step: Step)
    requires Enabled(w, step)
    ensures step.Rename? && step.ok ==>
              Written(Apply(w, step).log) == Written(w.log)[Pc(w, step.p).key := Pc(w, step.p).cred]
    ensures !(step.Rename? && step.ok) ==> Written(Apply(w, step).log) == Written(w.log)
  {
    match step {
      case Rename(p, ok) =>
        var pc := Pc(w, p);
        if ok {
          WrittenRename(w.log, pc.key, pc.cred, pc.origin, p, if pc.origin.FromRotation? then pc.origin.now else 0);
        } else {
          WrittenQuiet(w.log, Abandon(pc));
        }
      case Reload(p, readable) => ReloadQuiet(w, p, readable);
      case Send(p, request, leaves) => SendQuiet(w, p, request, leaves);
      case Serve(request, at, mint) => WrittenQuiet(w.log, Served(w, request, VerdictOn(w, request, at)));
      case GiveUp(p) => WrittenQuiet(w.log, Abandon(Pc(w, p)));
      case Receive(p, reply) => WrittenQuiet(w.log, Abandon(Pc(w, p))); WrittenQuiet(w.log, []);
      case Snapshot(p, readable) => WrittenQuiet(w.log, Abandon(Pc(w, p))); WrittenQuiet(w.log, []);
      case Crash(p) => WrittenQuiet(w.log, Abandon(Pc(w, p)));
      case ReadAll(p) =>
        if Contents(w.file).Some? { WrittenQuiet(w.log, [Listed(p, Contents(w.file).value)]); }
      case RevokeLineage(lineage) => WrittenQuiet(w.log, [OperatorRevoked(lineage)]);
      case _ => WrittenQuiet(w.log, []);
    }
  }

  lemma ReloadQuiet(w: World, p: Pid, readable: bool)
    requires Pc(w, p).Locked?
    ensures Written(DoReload(w, p, readable).log) == Written(w.log)
  {
    var Locked(key, now) := Pc(w, p);
    WrittenQuiet(w.log, Abandon(Pc(w, p)));
    WrittenQuiet(w.log, []);
    if Contents(w.file).Some? && key in Contents(w.file).value {
      WrittenQuiet(w.log, [Returned(p, key, now, Contents(w.file).value[key])]);
    }
  }

  lemma SendQuiet(w: World, p: Pid, request: int, leaves: bool)
    requires Pc(w, p).Loaded?
    ensures Written(DoSend(w, p, request, leaves).log) == Written(w.log)
  {
    WrittenQuiet(w.log, Abandon(Pc(w, p)));
    WrittenQuiet(w.log, [Dialed(p, Pc(w, p).key, Pc(w, p).now, Pc(w, p).cred.refreshToken)]);
  }

  // ----- preservation -----

  lemma LockKept(w: World, step: Step)
    requires LockOk(w) && Enabled(w, step)
    ensures LockOk(Apply(w, step))
  {
    var w' := Apply(w, step);
    forall p ensures w'.lock == Some(p) <==> Critical(Pc(w', p)) {
      assert w.lock == Some(p) <==> Critical(Pc(w, p));
    }
  }

  lemma FileKept(w: World, step: Step)
    requires FileOk(w) && ProcsOk(w) && Enabled(w, step)
    ensures FileOk(Apply(w, step))
  {
    hide Written, Abandon, Served;
    WrittenStep(w, step);
    if step.Rename? {
      assert ProcOk(w, Pc(w, step.p));
    }
  }
}
