/** The credential store as a transition system: any number of processes sharing one lock, one
    file and one authorization server. A refresher locks, re-reads, decides, dials, merges and
    renames; a login locks, merges and renames; a reader takes no lock. A request sent stays
    outstanding until the server serves it, whatever becomes of its sender meanwhile. The
    environment may crash a process at any point, delay or lose a request, lose or mangle a reply,
    fail a read or a write, time a waiter out, corrupt the file, and revoke a lineage. */
module Protocol {
  import opened Basics
  import opened Credentials
  import opened AuthServer

  type Pid = int
  type Key = string
  type Store = map<Key, Credential>

  datatype File = Missing | Corrupt | Stored(content: Store)

  datatype Job =
    | Refresh(key: Key, now: int)
    | Login(key: Key, cred: Credential)

  datatype Failure = LockTimeout | StoreUnreadable | NoCredential | RefreshFailed | PersistFailed

  /** Why a credential is being written. A rotation remembers the captured instant, the
      credential it replaces, and the lineage whose old token the server has just consumed. */
  datatype Origin =
    | FromLogin
    | FromRotation(now: int, replaced: Credential, lineage: int)

  datatype Proc =
    | Idle
    | Waiting(job: Job)
    | Locked(key: Key, now: int)
    | Loaded(key: Key, now: int, cred: Credential)
    | Sent(key: Key, now: int, cred: Credential, lineage: int, request: int)
    | Committed(key: Key, now: int, cred: Credential, lineage: int, minted: string)
    | Writing(key: Key, cred: Credential, origin: Origin)
    | Merging(key: Key, cred: Credential, origin: Origin, snapshot: Store)
    | Releasing(outcome: Result<Credential, Failure>)
    | Finished(outcome: Result<Credential, Failure>)
    | Dead

  /** What an observer of the run sees, in order. */
  datatype Event =
    | Dialed(p: Pid, key: Key, now: int, token: string)
    | Spent(token: string)
    | ReuseDetected(lineage: int)
    | OperatorRevoked(lineage: int)
    | Abandoned(lineage: int)
    | Burned(lineage: int)
    | Renamed(key: Key, cred: Credential, origin: Origin)
    | Returned(p: Pid, key: Key, now: int, cred: Credential)
    | GaveUp(key: Key)
    | Listed(p: Pid, content: Store)

  /** A refresh request the server has not served yet: who sent it, and what it presents. */
  datatype Request = Request(p: Pid, token: string, clientId: string)

  datatype World = World(
    lock: Option<Pid>,
    file: File,
    rows: Table,
    requests: map<int, Request>,
    procs: map<Pid, Proc>,
    log: seq<Event>)

  datatype Step =
    | StartRefresh(p: Pid, key: Key, now: int)
    | StartLogin(p: Pid, key: Key, cred: Credential, lineage: int, expiresAt: int)
    | TimeOut(p: Pid)
    | Acquire(p: Pid)
    | Reload(p: Pid, readable: bool)
    | Send(p: Pid, request: int, leaves: bool)
    | Serve(request: int, at: int, mint: Mint)
    | GiveUp(p: Pid)
    | Receive(p: Pid, reply: Reply)
    | Snapshot(p: Pid, readable: bool)
    | Rename(p: Pid, ok: bool)
    | Release(p: Pid)
    | Crash(p: Pid)
    | ReadAll(p: Pid)
    | CorruptFile
    | RevokeLineage(lineage: int)

  function Pc(w: World, p: Pid): Proc {
    if p in w.procs then w.procs[p] else Idle
  }

  /** The process is between acquiring and releasing the lock. */
  predicate Critical(pc: Proc) {
    pc.Locked? || pc.Loaded? || pc.Sent? || pc.Committed? || pc.Writing? || pc.Merging? || pc.Releasing?
  }

  /** The lineage whose old token is consumed at the server while its successor is not on disk. */
  function InFlight(pc: Proc): Option<int> {
    match pc
    case Committed(_, _, _, lineage, _) => Some(lineage)
    case Writing(_, _, FromRotation(_, _, lineage)) => Some(lineage)
    case Merging(_, _, FromRotation(_, _, lineage), _) => Some(lineage)
    case _ => None
  }

  /** The lineage of a token presented, or rotated, but with no successor on disk yet. */
  function Pending(pc: Proc): Option<int> {
    if pc.Sent? then Some(pc.lineage) else InFlight(pc)
  }

  /** The key a running refresh is about, while it holds the lock and has not returned. */
  function Refreshing(pc: Proc): Option<Key> {
    match pc
    case Locked(key, _) => Some(key)
    case Loaded(key, _, _) => Some(key)
    case Sent(key, _, _, _, _) => Some(key)
    case Committed(key, _, _, _, _) => Some(key)
    case Writing(key, _, FromRotation(_, _, _)) => Some(key)
    case Merging(key, _, FromRotation(_, _, _), _) => Some(key)
    case _ => None
  }

  /** The file as List reads it. */
  function Contents(file: File): Option<Store> {
    match file
    case Missing => Some(map[])
    case Corrupt => None
    case Stored(content) => Some(content)
  }

  /** The events of abandoning the current operation: a request or rotation left behind, a burn
      when the server had already rotated, and a failed refresh. */
  function Abandon(pc: Proc): seq<Event> {
    if pc.Sent? then [Abandoned(pc.lineage), GaveUp(pc.key)]
    else if InFlight(pc).Some? then [Abandoned(InFlight(pc).value), Burned(InFlight(pc).value), GaveUp(pc.key)]
    else if Refreshing(pc).Some? then [GaveUp(pc.key)]
    else []
  }

  function Move(w: World, p: Pid, pc: Proc, events: seq<Event>): World {
    w.(procs := w.procs[p := pc], log := w.log + events)
  }

  function Fail(w: World, p: Pid, failure: Failure): World {
    Move(w, p, Releasing(Err(failure)), Abandon(Pc(w, p)))
  }

  /** The sender is still waiting for the answer to this request. */
  predicate Awaited(w: World, request: int)
    requires request in w.requests
  {
    Pc(w, w.requests[request].p).Sent? && Pc(w, w.requests[request].p).request == request
  }

  // ----- one step -----

  predicate Resting(pc: Proc) {
    pc.Idle? || pc.Finished?
  }

  predicate Enabled(w: World, step: Step) {
    match step
    case StartRefresh(p, _, _) => Resting(Pc(w, p))
    case StartLogin(p, _, cred, lineage, _) =>
      && Resting(Pc(w, p))
      && (cred.refreshToken == "" || (cred.refreshToken !in w.rows && lineage !in Lineages(w.rows)))
    case TimeOut(p) => Pc(w, p).Waiting?
    case Acquire(p) => Pc(w, p).Waiting? && w.lock == None
    case Reload(p, _) => Pc(w, p).Locked?
    case Send(p, request, leaves) => Pc(w, p).Loaded? && (leaves ==> request !in w.requests)
    case Serve(request, _, mint) => request in w.requests && mint.token != "" && mint.token !in w.rows
    case GiveUp(p) => Pc(w, p).Sent?
    case Receive(p, reply) =>
      Pc(w, p).Committed? && (Usable(reply) ==> reply.body.value.refreshToken == Pc(w, p).minted)
    case Snapshot(p, _) => Pc(w, p).Writing?
    case Rename(p, _) => Pc(w, p).Merging?
    case Release(p) => Pc(w, p).Releasing?
    case Crash(p) => !Pc(w, p).Dead?
    case ReadAll(p) => true
    case CorruptFile => true
    case RevokeLineage(lineage) => lineage in Lineages(w.rows)
  }

  function DoStartLogin(w: World, p: Pid, key: Key, cred: Credential, lineage: int, expiresAt: int): World {
    Move(w.(rows := if cred.refreshToken == "" then w.rows
                    else Enroll(w.rows, cred.refreshToken, lineage, cred.clientId, expiresAt)),
         p, Waiting(Login(key, cred)), [])
  }

  function DoAcquire(w: World, p: Pid): World
    requires Pc(w, p).Waiting?
  {
    Move(w.(lock := Some(p)), p,
         match Pc(w, p).job
         case Refresh(key, now) => Locked(key, now)
         case Login(key, cred) => Writing(key, cred, FromLogin), [])
  }

  function DoReload(w: World, p: Pid, readable: bool): World
    requires Pc(w, p).Locked?
  {
    var Locked(key, now) := Pc(w, p);
    if !readable || Contents(w.file).None? then Fail(w, p, StoreUnreadable)
    else
      var all := Contents(w.file).value;
      if key !in all then Fail(w, p, NoCredential)
      else if !NeedsRefresh(all[key], now) then
        Move(w, p, Releasing(Ok(all[key])), [Returned(p, key, now, all[key])])
      else Move(w, p, Loaded(key, now, all[key]), [])
  }

  /** The request leaves and is outstanding from now on, or it never does. */
  function DoSend(w: World, p: Pid, request: int, leaves: bool): World
    requires Pc(w, p).Loaded?
  {
    var Loaded(key, now, cred) := Pc(w, p);
    if !leaves then Fail(w, p, RefreshFailed)
    else
      Move(w.(requests := w.requests[request := Request(p, cred.refreshToken, cred.clientId)]), p,
           Sent(key, now, cred, LineageOf(w.rows, cred.refreshToken), request),
           [Dialed(p, key, now, cred.refreshToken)])
  }

  /** What is seen when a request is served: a token spent or a reuse detected; then, if the sender
      still waits, a refresh refused, and if it does not, a rotation lost on the spot. */
  function Served(w: World, request: int, verdict: Verdict): seq<Event>
    requires request in w.requests
  {
    var Request(p, token, _) := w.requests[request];
    if Awaited(w, request) then
      match verdict
      case Rotated(_) => [Spent(token)]
      case Reused(lineage) => [ReuseDetected(lineage), GaveUp(Pc(w, p).key)]
      case _ => [GaveUp(Pc(w, p).key)]
    else
      match verdict
      case Rotated(lineage) => [Spent(token), Burned(lineage)]
      case Reused(lineage) => [ReuseDetected(lineage)]
      case _ => []
  }

  /** A waiting sender after the answer. */
  function Answered(pc: Proc, verdict: Verdict, mint: Mint): Proc
    requires pc.Sent?
  {
    if verdict.Rotated? then Committed(pc.key, pc.now, pc.cred, verdict.lineage, mint.token)
    else Releasing(Err(RefreshFailed))
  }

  /** The server's answer to an outstanding request at an instant. */
  function VerdictOn(w: World, request: int, at: int): Verdict
    requires request in w.requests
  {
    Classify(w.rows, w.requests[request].token, w.requests[request].clientId, at)
  }

  /** The server serves an outstanding request, at any time. */
  function DoServe(w: World, request: int, at: int, mint: Mint): World
    requires request in w.requests
  {
    var Request(p, token, _) := w.requests[request];
    var verdict := VerdictOn(w, request, at);
    w.(requests := w.requests - {request},
       rows := Settle(w.rows, token, verdict, mint),
       procs := if Awaited(w, request) then w.procs[p := Answered(Pc(w, p), verdict, mint)] else w.procs,
       log := w.log + Served(w, request, verdict))
  }

  function DoReceive(w: World, p: Pid, reply: Reply): World
    requires Pc(w, p).Committed?
  {
    var Committed(key, now, cred, lineage, minted) := Pc(w, p);
    if !Usable(reply) then Fail(w, p, RefreshFailed)
    else Move(w, p, Writing(key, Renewed(cred, now, reply.body.value), FromRotation(now, cred, lineage)), [])
  }

  function DoSnapshot(w: World, p: Pid, readable: bool): World
    requires Pc(w, p).Writing?
  {
    var Writing(key, cred, origin) := Pc(w, p);
    if !readable || Contents(w.file).None? then Fail(w, p, PersistFailed)
    else Move(w, p, Merging(key, cred, origin, Contents(w.file).value), [])
  }

  function DoRename(w: World, p: Pid, ok: bool): World
    requires Pc(w, p).Merging?
  {
    var Merging(key, cred, origin, snapshot) := Pc(w, p);
    if !ok then Fail(w, p, PersistFailed)
    else
      Move(w.(file := Stored(snapshot[key := cred])), p, Releasing(Ok(cred)),
           if origin.FromRotation? then [Renamed(key, cred, origin), Returned(p, key, origin.now, cred)]
           else [Renamed(key, cred, origin)])
  }

  function DoRelease(w: World, p: Pid): World
    requires Pc(w, p).Releasing?
  {
    Move(w.(lock := None), p, Finished(Pc(w, p).outcome), [])
  }

  /** The kernel drops a dead process's lock. */
  function DoCrash(w: World, p: Pid): World {
    Move(if w.lock == Some(p) then w.(lock := None) else w, p, Dead, Abandon(Pc(w, p)))
  }

  function Apply(w: World, step: Step): World
    requires Enabled(w, step)
  {
    match step
    case StartRefresh(p, key, now) => Move(w, p, Waiting(Refresh(key, now)), [])
    case StartLogin(p, key, cred, lineage, expiresAt) => DoStartLogin(w, p, key, cred, lineage, expiresAt)
    case TimeOut(p) => Move(w, p, Finished(Err(LockTimeout)), [])
    case Acquire(p) => DoAcquire(w, p)
    case Reload(p, readable) => DoReload(w, p, readable)
    case Send(p, request, leaves) => DoSend(w, p, request, leaves)
    case Serve(request, at, mint) => DoServe(w, request, at, mint)
    case GiveUp(p) => Fail(w, p, RefreshFailed)
    case Receive(p, reply) => DoReceive(w, p, reply)
    case Snapshot(p, readable) => DoSnapshot(w, p, readable)
    case Rename(p, ok) => DoRename(w, p, ok)
    case Release(p) => DoRelease(w, p)
    case Crash(p) => DoCrash(w, p)
    case ReadAll(p) =>
      if Contents(w.file).None? then w else w.(log := w.log + [Listed(p, Contents(w.file).value)])
    case CorruptFile => w.(file := Corrupt)
    case RevokeLineage(lineage) =>
      w.(rows := Sweep(w.rows, lineage), log := w.log + [OperatorRevoked(lineage)])
  }

  // ----- runs -----

  const START: World := World(None, Missing, map[], map[], map[], [])

  /** Every step of the run is enabled where it is taken. */
  ghost predicate Run(w: World, steps: seq<Step>)
    decreases |steps|
  {
    steps == [] || (Enabled(w, steps[0]) && Run(Apply(w, steps[0]), steps[1..]))
  }

  function After(w: World, steps: seq<Step>): World
    requires Run(w, steps)
    decreases |steps|
  {
    if steps == [] then w else After(Apply(w, steps[0]), steps[1..])
  }

  /** The events of a run from w to w'. */
  function Since(w: World, w': World): seq<Event> {
    if |w.log| <= |w'.log| then w'.log[|w.log|..] else []
  }

  ghost predicate Reachable(w: World) {
    exists steps :: Run(START, steps) && After(START, steps) == w
  }
}
