/** The sequential code of the store, run by one process among many. Between any two operations of
    this process the others and the server may take any number of steps. Each method is shown to be a
    sequence of the transition system's steps, so every theorem about reachable worlds holds of it. */
module Client {
  import opened Basics
  import opened AuthServer
  import opened Credentials
  import opened StoreKey
  import opened Protocol
  import opened Invariant
  import opened Preservation
  import opened Chronicle
  import opened Progress

  lemma {:induction false} RunSnoc(w: World, steps: seq<Step>, step: Step)
    requires Run(w, steps) && Enabled(After(w, steps), step)
    ensures Run(w, steps + [step]) && After(w, steps + [step]) == Apply(After(w, steps), step)
    decreases |steps|
  {
    if steps == [] {
      assert steps + [step] == [step];
    } else {
      assert (steps + [step])[1..] == steps[1..] + [step];
      RunSnoc(Apply(w, steps[0]), steps[1..], step);
    }
  }

  lemma OthersLeaveIt(w: World, step: Step, p: Pid)
    requires Enabled(w, step) && !StepOf(step, p) && !Answers(w, step, p)
    ensures Pc(Apply(w, step), p) == Pc(w, p)
  {
  }

  lemma OnlyHolderRenames(w: World, step: Step, p: Pid)
    requires LockOk(w) && Enabled(w, step) && !StepOf(step, p) && w.lock == Some(p)
    ensures !step.Rename?
  {
    assert step.Rename? ==> Critical(Pc(w, step.p));
  }

  /** A step of anyone else leaves this process where it is; while this process holds the lock it
      keeps it, and nothing is written. */
  lemma OthersKeepOut(w: World, step: Step, p: Pid)
    requires LockOk(w) && Enabled(w, step) && !StepOf(step, p) && !Answers(w, step, p)
    ensures Pc(Apply(w, step), p) == Pc(w, p)
    ensures w.lock == Some(p) ==> Apply(w, step).lock == Some(p) && Written(Apply(w, step).log) == Written(w.log)
  {
    hide Apply, LockOk;
    OthersLeaveIt(w, step, p);
    WrittenStep(w, step);
    if w.lock == Some(p) {
      HolderDescends(w, step, p);
      OnlyHolderRenames(w, step, p);
    }
  }

  /** What Load answers for a URL. */
  function Lookup(file: File, url: string): Result<Credential, Failure> {
    match Contents(file)
    case None => Err(StoreUnreadable)
    case Some(all) => if NormalizeUrl(url) in all then Ok(all[NormalizeUrl(url)]) else Err(NoCredential)
  }

  /** A record is found under every URL of the same normal form. */
  lemma FoundUnder(store: Store, url: string, cred: Credential)
    ensures forall v :: NormalizeUrl(v) == NormalizeUrl(url) ==>
              Lookup(Stored(store[NormalizeUrl(url) := cred]), v) == Ok(cred)
  {
  }

  predicate LastWrites(log: seq<Event>, key: Key, cred: Credential) {
    log != [] && log[|log| - 1] == Renamed(key, cred, FromLogin)
  }

  lemma LastWriteStored(log: seq<Event>, key: Key, cred: Credential)
    requires LastWrites(log, key, cred)
    ensures Written(log) == Written(log[..|log| - 1])[key := cred]
  {
  }

  /** How a request fares while its sender waits: it never leaves, or no answer comes in time, or the
      server gets to it. */
  datatype Dialing = NeverSent | NoAnswer | Answered

  /** How the environment treats one call: what the others do before each operation, how often the
      lock is tried, how each operation that can fail fares, which number the request gets, and when
      and with which successor the server would serve it. */
  datatype Fate = Fate(
    others: nat -> seq<Step>,
    attempts: nat,
    readable: bool,
    request: int,
    dialing: Dialing,
    at: int,
    mint: Mint,
    reply: Reply,
    rereadable: bool,
    renames: bool)

  // ----- which worlds a call passes through -----

  function Do(w: World, step: Step): World {
    if Enabled(w, step) then Apply(w, step) else w
  }

  /** A step another process, or the server for another process, may take now. */
  predicate Foreign(w: World, step: Step, p: Pid) {
    Enabled(w, step) && !StepOf(step, p) && !Answers(w, step, p)
  }

  /** What becomes of the world while p is between two operations: of these steps, those happen that
      are foreign to p when their turn comes. */
  function Meanwhile(w: World, steps: seq<Step>, p: Pid): World
    decreases |steps|
  {
    if steps == [] then w
    else Meanwhile(if Foreign(w, steps[0], p) then Apply(w, steps[0]) else w, steps[1..], p)
  }

  ghost predicate AllForeign(w: World, steps: seq<Step>, p: Pid)
    decreases |steps|
  {
    steps == [] || (Foreign(w, steps[0], p) && AllForeign(Apply(w, steps[0]), steps[1..], p))
  }

  /** Any run of the others can happen meanwhile. */
  lemma {:induction false} MeanwhileIsAnyRun(w: World, steps: seq<Step>, p: Pid)
    requires AllForeign(w, steps, p)
    ensures Run(w, steps) && Meanwhile(w, steps, p) == After(w, steps)
    decreases |steps|
  {
    if steps == [] {
    } else {
      MeanwhileIsAnyRun(Apply(w, steps[0]), steps[1..], p);
    }
  }

  /** The world at the n-th poll for the lock, by a process that queued in w. */
  function Polled(w: World, f: Fate, n: nat, p: Pid): World {
    Meanwhile(if n == 0 then w else Polled(w, f, n - 1, p), f.others(n), p)
  }

  /** The first poll from n on that finds the lock free, or the number of attempts if none does. */
  function FirstFree(w: World, f: Fate, n: nat, p: Pid): (k: nat)
    requires n <= f.attempts
    ensures n <= k <= f.attempts
    ensures forall i :: n <= i < k ==> Polled(w, f, i, p).lock != None
    ensures k < f.attempts ==> Polled(w, f, k, p).lock == None
    decreases f.attempts - n
  {
    if n < f.attempts && Polled(w, f, n, p).lock != None then FirstFree(w, f, n + 1, p) else n
  }

  lemma FirstFreeIs(w: World, f: Fate, k: nat, p: Pid)
    requires k < f.attempts && Polled(w, f, k, p).lock == None
    requires forall n: nat :: n < k ==> Polled(w, f, n, p).lock != None
    ensures FirstFree(w, f, 0, p) == k
  {
    hide Polled;
  }

  /** Some poll within the attempts finds the lock free. */
  ghost predicate GetsLock(w: World, f: Fate, p: Pid) {
    exists n: nat :: n < f.attempts && Polled(w, f, n, p).lock == None
  }

  /** The world in which a process that queued in w has just taken the lock. */
  function Locking(w: World, f: Fate, p: Pid): World {
    Do(Polled(w, f, FirstFree(w, f, 0, p), p), Acquire(p))
  }

  /** The worlds in which a process that has just re-read a due credential sends its request, in which
      the server gets to it, in which the reply is read, and in which the store is read back. */
  datatype Course = Course(sent: World, answered: World, replied: World, merged: World)

  function CourseFrom(w: World, f: Fate, p: Pid): Course {
    var sent := Meanwhile(w, f.others(f.attempts + 1), p);
    var answered := Meanwhile(Do(sent, Send(p, f.request, true)), f.others(f.attempts + 2), p);
    var replied := Meanwhile(Do(answered, Serve(f.request, f.at, f.mint)), f.others(f.attempts + 3), p);
    Course(sent, answered, replied, MergedAt(Do(replied, Receive(p, Heard(f.reply, f.mint.token))), f, p))
  }

  /** The world in which a process that has just come to its write reads the store back. */
  function MergedAt(w: World, f: Fate, p: Pid): World {
    Meanwhile(w, f.others(f.attempts + 4), p)
  }

  /** A usable reply carries the minted token. */
  function Heard(reply: Reply, minted: string): Reply {
    if Usable(reply) then reply.(body := Some(reply.body.value.(refreshToken := minted))) else reply
  }

  /** The request leaves under a new number and the server, getting to it in time, rotates. */
  predicate Grants(f: Fate, sent: World, answered: World) {
    && f.dialing == Answered && f.request !in sent.requests
    && f.mint.token != "" && f.mint.token !in answered.rows
    && f.request in answered.requests && VerdictOn(answered, f.request, f.at).Rotated?
  }

  /** The store can be read back and replaced. */
  predicate Persists(f: Fate, merged: World) {
    f.rereadable && !merged.file.Corrupt? && f.renames
  }

  /** How the exchange and the write-back of a due credential end, for each of their causes. */
  ghost predicate Exchanges(r: Result<Credential, Failure>, c: Course, cred: Credential, now: int, f: Fate) {
    if !Grants(f, c.sent, c.answered) || !Usable(f.reply) then r == Err(RefreshFailed)
    else if !Persists(f, c.merged) then r == Err(PersistFailed)
    else r.Ok? && Carries(r.value, cred, now, f.reply.body.value.(refreshToken := f.mint.token))
  }

  /** How a refresh ends that has just taken the lock in w: one failure for each cause, and otherwise
      the entry it re-read, if that is not due, or the renewed credential. */
  ghost predicate Refreshes(r: Result<Credential, Failure>, w: World, p: Pid, key: Key, now: int, f: Fate) {
    var reread := Meanwhile(w, f.others(f.attempts), p);
    if !f.readable || reread.file.Corrupt? then r == Err(StoreUnreadable)
    else if reread.file.Missing? || key !in reread.file.content then r == Err(NoCredential)
    else
      var cred := reread.file.content[key];
      if !NeedsRefresh(cred, now) then r == Ok(cred)
      else Exchanges(r, CourseFrom(Do(reread, Reload(p, true)), f, p), cred, now, f)
  }

  class Process {
    const pid: Pid
    var world: World
    ghost var trace: seq<Step>

    /** The world is the one this trace leads to from the start. */
    ghost predicate Valid()
      reads this
    {
      Run(START, trace) && After(START, trace) == world
    }

    ghost function Here(): Proc
      reads this
    {
      Pc(world, pid)
    }

    lemma HolderIsCritical()
      requires Valid()
      ensures Critical(Here()) <==> world.lock == Some(pid)
    {
      ReachableInv(world);
    }

    lemma StoreIsWritten()
      requires Valid()
      ensures Contents(world.file).Some? ==> Contents(world.file).value == Written(world.log)
      ensures Here().Merging? ==> Here().snapshot == Written(world.log)
    {
      ReachableInv(world);
      assert ProcOk(world, Here());
    }

    lemma LoadedIsDue()
      requires Valid() && Here().Loaded?
      ensures NeedsRefresh(Here().cred, Here().now)
    {
      ReachableInv(world);
      assert ProcOk(world, Here());
    }

    lemma CommittedIsMinted()
      requires Valid() && Here().Committed?
      ensures Here().minted != "" && Refreshable(Here().cred)
    {
      ReachableInv(world);
      assert ProcOk(world, Here());
    }

    lemma RequestIsOurs()
      requires Valid() && Here().Sent?
      ensures Here().request in world.requests
      ensures world.requests[Here().request] == Request(pid, Here().cred.refreshToken, Here().cred.clientId)
    {
      ReachableInv(world);
    }

    constructor (pid: Pid, world: World, ghost trace: seq<Step>)
      requires Run(START, trace) && After(START, trace) == world
      ensures Valid() && this.pid == pid && this.world == world && this.trace == trace
    {
      this.pid, this.world, this.trace := pid, world, trace;
    }

    /** One step of the transition system. */
    method Take(step: Step)
      requires Valid() && Enabled(world, step)
      modifies this
      ensures Valid() && world == Apply(old(world), step) && trace == old(trace) + [step]
    {
      RunSnoc(START, trace, step);
      world := Apply(world, step);
      trace := trace + [step];
    }

    /** The others run. */
    method Yield(others: seq<Step>)
      requires Valid()
      modifies this
      ensures Valid() && Here() == old(Here()) && old(trace) <= trace
      ensures world == Meanwhile(old(world), others, pid)
      ensures old(world.lock) == Some(pid) ==>
                world.lock == Some(pid) && Written(world.log) == Written(old(world.log))
    {
      for i := 0 to |others|
        invariant Valid() && Here() == old(Here()) && old(trace) <= trace
        invariant Meanwhile(world, others[i..], pid) == Meanwhile(old(world), others, pid)
        invariant old(world.lock) == Some(pid) ==>
                    world.lock == Some(pid) && Written(world.log) == Written(old(world.log))
      {
        assert others[i..][0] == others[i] && others[i..][1..] == others[i + 1..];
        if Foreign(world, others[i], pid) {
          ReachableInv(world);
          OthersKeepOut(world, others[i], pid);
          Take(others[i]);
        }
      }
    }

    /** lockStore: poll until the lock is free or the attempts run out. */
    method LockStore(fate: Fate) returns (held: bool)
      requires Valid() && Here().Waiting?
      modifies this
      ensures Valid() && old(trace) <= trace
      // the lock is taken exactly when some poll finds it free, and at the first that does
      ensures held <==> GetsLock(old(world), fate, pid)
      ensures held ==> world == Locking(old(world), fate, pid) && world.lock == Some(pid)
                       && Here() == match old(Here()).job
                                    case Refresh(key, now) => Locked(key, now)
                                    case Login(key, cred) => Writing(key, cred, FromLogin)
      ensures !held ==> Here() == Finished(Err(LockTimeout)) && world.lock != Some(pid)
    {
      hide Run, After, Meanwhile, FirstFree;
      for i := 0 to fate.attempts
        invariant Valid() && Here() == old(Here()) && old(trace) <= trace
        invariant world == if i == 0 then old(world) else Polled(old(world), fate, i - 1, pid)
        invariant forall n: nat :: n < i ==> Polled(old(world), fate, n, pid).lock != None
      {
        Yield(fate.others(i));
        assert world == Polled(old(world), fate, i, pid);
        if world.lock == None {
          FirstFreeIs(old(world), fate, i, pid);
          Take(Acquire(pid));
          return true;
        }
      }
      Take(TimeOut(pid));
      HolderIsCritical();
      return false;
    }

    method Unlock()
      requires Valid() && Here().Releasing?
      modifies this
      ensures Valid() && old(trace) <= trace && Here() == Finished(old(Here()).outcome)
      ensures world.lock == None && world.file == old(world.file) && world.log == old(world.log)
    {
      Take(Release(pid));
    }

    /** List: the whole store, with no lock. */
    method List(readable: bool) returns (r: Result<Store, Failure>)
      requires Valid()
      modifies this
      ensures Valid() && old(trace) <= trace && world.file == old(world.file) && Here() == old(Here())
      // a missing file is an empty store, a corrupt or unreadable one an error
      ensures !readable || world.file.Corrupt? <==> r == Err(StoreUnreadable)
      ensures readable && world.file.Missing? ==> r == Ok(map[])
      ensures readable && world.file.Stored? ==> r == Ok(world.file.content)
      ensures r.Ok? ==> r.value == Written(world.log) && Listed(pid, r.value) in world.log
    {
      if !readable {
        return Err(StoreUnreadable);
      }
      Take(ReadAll(pid));
      StoreIsWritten();
      match world.file {
        case Missing => r := Ok(map[]);
        case Corrupt => r := Err(StoreUnreadable);
        case Stored(content) => r := Ok(content);
      }
    }

    /** Load: List, then the normalized key. */
    method Load(url: string, readable: bool) returns (r: Result<Credential, Failure>)
      requires Valid()
      modifies this
      ensures Valid() && old(trace) <= trace && Here() == old(Here()) && world.file == old(world.file)
      ensures r == Err(StoreUnreadable) <==> !readable || world.file.Corrupt?
      ensures r == Err(NoCredential) <==>
                && readable && !world.file.Corrupt?
                && (world.file.Missing? || NormalizeUrl(url) !in world.file.content)
      ensures r.Ok? ==>
                && world.file.Stored? && NormalizeUrl(url) in world.file.content
                && r.value == world.file.content[NormalizeUrl(url)]
      ensures r.Ok? ==> Holds(world.log, NormalizeUrl(url), r.value)
    {
      var all := List(readable);
      if all.Err? {
        return Err(all.error);
      }
      if NormalizeUrl(url) !in all.value {
        return Err(NoCredential);
      }
      return Ok(all.value[NormalizeUrl(url)]);
    }

    /** storeLocked: read, merge, rename, with the lock already held. */
    method StoreLocked(key: Key, cred: Credential, fate: Fate) returns (r: Result<Credential, Failure>)
      requires Valid() && Here().Writing? && Here().key == key && Here().cred == cred && world.lock == Some(pid)
      modifies this
      ensures Valid() && old(trace) <= trace && world.lock == Some(pid) && Here() == Releasing(r)
      // it succeeds exactly when the store can be read back and replaced
      ensures r == if Persists(fate, MergedAt(old(world), fate, pid)) then Ok(cred) else Err(PersistFailed)
      // the store changes exactly when the call succeeds, and then only under the key
      ensures Written(world.log) == if r.Ok? then Written(old(world.log))[key := cred] else Written(old(world.log))
      ensures r.Ok? ==> world.file == Stored(Written(world.log))
      ensures r.Ok? && old(Here()).origin.FromLogin? ==> LastWrites(world.log, key, cred)
      ensures r.Ok? && old(Here()).origin.FromRotation? ==>
                Returned(pid, key, old(Here()).origin.now, cred) in world.log
    {
      hide Run, After, Meanwhile;
      Yield(fate.others(fate.attempts + 4));
      var file := world.file;
      WrittenStep(world, Snapshot(pid, fate.rereadable));
      Take(Snapshot(pid, fate.rereadable));
      if !fate.rereadable || file == Corrupt {
        return Err(PersistFailed);
      }
      var all := if file.Stored? then file.content else map[];
      Yield(fate.others(fate.attempts + 5));
      StoreIsWritten();
      WrittenStep(world, Rename(pid, fate.renames));
      Take(Rename(pid, fate.renames));
      if !fate.renames {
        return Err(PersistFailed);
      }
      assert world.file == Stored(all[key := cred]);
      return Ok(cred);
    }

    /** Store: a login's credential, just issued by the server, written under the lock. */
    method Store(url: string, cred: Credential, lineage: int, expiresAt: int, fate: Fate)
      returns (r: Result<Credential, Failure>)
      requires Valid() && Enabled(world, StartLogin(pid, NormalizeUrl(url), cred, lineage, expiresAt))
      modifies this
      ensures Valid() && old(trace) <= trace && Here() == Finished(r) && world.lock != Some(pid)
      // it fails only if no poll finds the lock free, or the store cannot be read back or replaced
      ensures var queued := Apply(old(world), StartLogin(pid, NormalizeUrl(url), cred, lineage, expiresAt));
              r == if !GetsLock(queued, fate, pid) then Err(LockTimeout)
                   else if !Persists(fate, MergedAt(Locking(queued, fate, pid), fate, pid)) then Err(PersistFailed)
                   else Ok(cred)
      // the record is found under every URL of the same normal form
      ensures r.Ok? ==> forall v :: NormalizeUrl(v) == NormalizeUrl(url) ==> Lookup(world.file, v) == Ok(cred)
      // the last thing that happened is this write, and every other key holds what it held before it
      ensures r.Ok? ==>
                && LastWrites(world.log, NormalizeUrl(url), cred)
                && world.file == Stored(Written(world.log[..|world.log| - 1])[NormalizeUrl(url) := cred])
    {
      hide NormalizeUrl, Lookup, Run, After, GetsLock, Locking, MergedAt, Persists;
      var key := NormalizeUrl(url);
      Take(StartLogin(pid, key, cred, lineage, expiresAt));
      var held := LockStore(fate);
      if !held {
        return Err(LockTimeout);
      }
      r := StoreLocked(key, cred, fate);
      if r.Ok? {
        LastWriteStored(world.log, key, cred);
        FoundUnder(Written(world.log[..|world.log| - 1]), url, cred);
      }
      Unlock();
    }

    /** refreshStoredAt: lock, re-read, decide, dial, persist, unlock. */
    method RefreshStored(url: string, now: int, fate: Fate) returns (r: Result<Credential, Failure>)
      requires Valid() && Resting(Here())
      modifies this
      ensures Valid() && old(trace) <= trace && Here() == Finished(r) && world.lock != Some(pid)
      // it fails only for the causes listed: no poll finds the lock free, or one of those under the lock
      ensures var queued := Apply(old(world), StartRefresh(pid, NormalizeUrl(url), now));
              if !GetsLock(queued, fate, pid) then r == Err(LockTimeout)
              else Refreshes(r, Locking(queued, fate, pid), pid, NormalizeUrl(url), now, fate)
      // a credential handed out is on record as handed out, and outside its window at `now`
      ensures r.Ok? ==> !NeedsRefresh(r.value, now) && Returned(pid, NormalizeUrl(url), now, r.value) in world.log
      // and it is what the store holds when the call returns
      ensures r.Ok? ==>
                && Holds(world.log, NormalizeUrl(url), r.value)
                && world.file.Stored? && NormalizeUrl(url) in world.file.content
                && world.file.content[NormalizeUrl(url)] == r.value
    {
      hide NormalizeUrl, Run, After, GetsLock, Locking, Refreshes;
      var key := NormalizeUrl(url);
      Take(StartRefresh(pid, key, now));
      var held := LockStore(fate);
      if !held {
        return Err(LockTimeout);
      }
      r := UnderLock(url, now, fate);
      Unlock();
    }

    /** The critical section of a refresh. */
    method UnderLock(url: string, now: int, fate: Fate) returns (r: Result<Credential, Failure>)
      requires Valid() && Here() == Locked(NormalizeUrl(url), now) && world.lock == Some(pid)
      modifies this
      ensures Valid() && old(trace) <= trace && Here() == Releasing(r) && world.lock == Some(pid)
      ensures Refreshes(r, old(world), pid, NormalizeUrl(url), now, fate)
      ensures r.Ok? ==> !NeedsRefresh(r.value, now) && Returned(pid, NormalizeUrl(url), now, r.value) in world.log
      ensures r.Ok? ==>
                && world.file.Stored? && NormalizeUrl(url) in world.file.content
                && world.file.content[NormalizeUrl(url)] == r.value
      // a failure leaves the store as it was; a success changes at most the key, to the result
      ensures Written(world.log) == if r.Ok? then Written(old(world.log))[NormalizeUrl(url) := r.value]
                                    else Written(old(world.log))
    {
      hide Run, After, Apply, Enabled, Do, Meanwhile, CourseFrom, Exchanges, NeedsRefresh;
      Yield(fate.others(fate.attempts));
      r := Reread(url, now, fate.readable);
      if r.Ok? && NeedsRefresh(r.value, now) {
        r := Present(NormalizeUrl(url), now, r.value, fate);
      }
    }

    /** The re-read under the lock, and the decision it leads to. */
    method Reread(url: string, now: int, readable: bool) returns (r: Result<Credential, Failure>)
      requires Valid() && Here() == Locked(NormalizeUrl(url), now) && world.lock == Some(pid)
      modifies this
      ensures Valid() && old(trace) <= trace && world.lock == Some(pid)
      ensures world == Do(old(world), Reload(pid, readable)) && world.file == old(world.file)
      ensures r == if readable then Lookup(old(world.file), url) else Err(StoreUnreadable)
      ensures if r.Ok? && NeedsRefresh(r.value, now) then Here() == Loaded(NormalizeUrl(url), now, r.value)
              else Here() == Releasing(r)
      ensures r.Ok? && !NeedsRefresh(r.value, now) ==> Returned(pid, NormalizeUrl(url), now, r.value) in world.log
      ensures Written(world.log) == Written(old(world.log)) && (r.Ok? ==> Holds(world.log, NormalizeUrl(url), r.value))
    {
      StoreIsWritten();
      WrittenStep(world, Reload(pid, readable));
      r := if readable then Lookup(world.file, url) else Err(StoreUnreadable);
      Take(Reload(pid, readable));
    }

    /** Present the token, derive the new credential, persist it. */
    method Present(key: Key, now: int, cred: Credential, fate: Fate) returns (r: Result<Credential, Failure>)
      requires Valid() && Here() == Loaded(key, now, cred) && world.lock == Some(pid)
      modifies this
      ensures Valid() && old(trace) <= trace && Here() == Releasing(r) && world.lock == Some(pid)
      ensures Exchanges(r, CourseFrom(old(world), fate, pid), cred, now, fate)
      ensures r.Ok? ==> Rotation(r.value, now) && Returned(pid, key, now, r.value) in world.log
      ensures r.Ok? ==> world.file == Stored(Written(world.log))
      // the store changes exactly when the call succeeds, and then only under the key
      ensures Written(world.log) == if r.Ok? then Written(old(world.log))[key := r.value] else Written(old(world.log))
    {
      hide Run, After, Apply, Enabled, Do, Meanwhile, Grants, Persists, Rotation, Written, MergedAt, Carries;
      LoadedIsDue();
      Yield(fate.others(fate.attempts + 1));
      var minted := Dial(fate);
      if minted.None? {
        return Err(RefreshFailed);
      }
      Yield(fate.others(fate.attempts + 3));
      r := Fetch(minted.value, fate.reply);
      if r.Err? {
        return;
      }
      r := StoreLocked(key, r.value, fate);
    }

    /** The request. It never leaves, or it is outstanding while the others run, and then the server
        answers it or its sender gives up on it. */
    method Dial(fate: Fate) returns (minted: Option<string>)
      requires Valid() && Here().Loaded? && world.lock == Some(pid)
      modifies this
      ensures Valid() && old(trace) <= trace && world.lock == Some(pid)
      ensures Written(world.log) == Written(old(world.log))
      // a successor is minted exactly when the server, getting to the request in time, rotates
      ensures var answered := Meanwhile(Do(old(world), Send(pid, fate.request, true)),
                                        fate.others(fate.attempts + 2), pid);
              && minted == (if Grants(fate, old(world), answered) then Some(fate.mint.token) else None)
              && (minted.Some? ==> world == Do(answered, Serve(fate.request, fate.at, fate.mint)))
      ensures minted.None? ==> Here() == Releasing(Err(RefreshFailed))
      // a request that got no answer in time is still outstanding, and may yet be served
      ensures fate.dialing.NoAnswer? && fate.request !in old(world.requests) ==>
                && fate.request in world.requests
                && world.requests[fate.request] ==
                     Request(pid, old(Here()).cred.refreshToken, old(Here()).cred.clientId)
      ensures minted.Some? ==>
                && Here().Committed? && Here().minted == minted.value != ""
                && Here().key == old(Here()).key && Here().now == old(Here()).now && Here().cred == old(Here()).cred
    {
      hide Run, After, Meanwhile, Written, VerdictOn;
      var leaves := fate.dialing != NeverSent && fate.request !in world.requests;
      SendQuiet(world, pid, fate.request, leaves);
      Take(Send(pid, fate.request, leaves));
      if !leaves {
        return None;
      }
      Yield(fate.others(fate.attempts + 2));
      RequestIsOurs();
      if fate.dialing == Answered && fate.mint.token != "" && fate.mint.token !in world.rows {
        minted := Hear(fate.request, fate.at, fate.mint);
      } else {
        WrittenStep(world, GiveUp(pid));
        Take(GiveUp(pid));
        minted := None;
      }
    }

    /** The server serves the request while its sender waits. */
    method Hear(request: int, at: int, mint: Mint) returns (minted: Option<string>)
      requires Valid() && Here().Sent? && Here().request == request && world.lock == Some(pid)
      requires Enabled(world, Serve(request, at, mint)) && Answers(world, Serve(request, at, mint), pid)
      modifies this
      ensures Valid() && old(trace) <= trace && world.lock == Some(pid)
      ensures Written(world.log) == Written(old(world.log))
      ensures minted == if VerdictOn(old(world), request, at).Rotated? then Some(mint.token) else None
      ensures world == Apply(old(world), Serve(request, at, mint))
      ensures minted.None? ==> Here() == Releasing(Err(RefreshFailed))
      ensures minted.Some? ==>
                && Here().Committed? && Here().minted == minted.value
                && Here().key == old(Here()).key && Here().now == old(Here()).now && Here().cred == old(Here()).cred
    {
      hide Run, After, Written;
      WrittenStep(world, Serve(request, at, mint));
      minted := if VerdictOn(world, request, at).Rotated? then Some(mint.token) else None;
      Take(Serve(request, at, mint));
    }

    /** The reply. A usable one carries the minted token. */
    method Fetch(minted: string, heard: Reply) returns (r: Result<Credential, Failure>)
      requires Valid() && Here().Committed? && Here().minted == minted && world.lock == Some(pid)
      modifies this
      ensures Valid() && old(trace) <= trace && world.lock == Some(pid)
      ensures Written(world.log) == Written(old(world.log))
      // it succeeds exactly on a usable reply, and the result carries what the reply grants
      ensures if Usable(heard) then r.Ok? else r == Err(RefreshFailed)
      ensures r.Ok? ==>
                Carries(r.value, old(Here()).cred, old(Here()).now, heard.body.value.(refreshToken := minted))
      ensures world == Do(old(world), Receive(pid, Heard(heard, minted)))
      ensures r.Err? ==> Here() == Releasing(r)
      ensures r.Ok? ==>
                && Rotation(r.value, old(Here()).now)
                && Here() == Writing(old(Here()).key, r.value,
                                     FromRotation(old(Here()).now, old(Here()).cred, old(Here()).lineage))
    {
      hide Run, After, Rotation, NeedsRefresh, Carries;
      CommittedIsMinted();
      var reply := Heard(heard, minted);
      var pc := world.procs[pid];
      var fetched := RefreshAt(pc.cred, pc.now, reply);
      WrittenStep(world, Receive(pid, reply));
      Take(Receive(pid, reply));
      if fetched.Err? {
        return Err(RefreshFailed);
      }
      RenewedIsUsable(pc.cred, pc.now, reply.body.value);
      return Ok(fetched.value);
    }
  }
}
