/** The bounded, cancellable wait for the credential lock: a non-blocking attempt retried on a
    timer until it succeeds, breaks, or the context is done. Time is the caller's clock. */
module LockWait {
  import opened Basics
  import opened GoInt
  import opened Credentials

  const POLL_INTERVAL: int := 20 * MILLISECOND
  const LOCK_WAIT: int := 10 * SECOND

  datatype Flock = Acquired | WouldBlock | Broken

  /** What happens in one turn of the loop: how the attempt ends and how long it takes, how late
      the poll timer fires, and who wins if timer and cancellation coincide. */
  datatype Turn = Turn(result: Flock, took: nat, late: nat, cancelWins: bool)

  datatype Outcome = Held | OpenFailed | LockFailed | Cancelled

  /** The open file the lock is taken on. */
  class Descriptor {
    var open: bool
    var locked: bool

    constructor ()
      ensures open && !locked
    {
      open, locked := true, false;
    }

    method Release()
      modifies this
      ensures !open && !locked
    {
      locked := false;
      open := false;
    }
  }

  /** How long the first n turns take when each ends in another poll. */
  function Polling(turns: nat -> Turn, n: nat): nat {
    if n == 0 then 0 else Polling(turns, n - 1) + turns(n - 1).took + POLL_INTERVAL + turns(n - 1).late
  }

  lemma {:induction false} PollingGrows(turns: nat -> Turn, m: nat, n: nat)
    requires m <= n
    ensures Polling(turns, m) + (n - m) * POLL_INTERVAL <= Polling(turns, n)
    decreases n
  {
    if m == n {
    } else {
      PollingGrows(turns, m, n - 1);
    }
  }

  /** The first k attempts find the lock taken, and the next one is the first to be answered otherwise. */
  ghost predicate FirstAnswer(turns: nat -> Turn, k: nat, answer: Flock) {
    (forall i :: 0 <= i < k ==> turns(i).result == WouldBlock) && turns(k).result == answer
  }

  /** If n attempts were refused but perhaps the last, and a refused last one leaves no time for another,
      then n is where the first answer in time came. */
  lemma LastAttempt(turns: nat -> Turn, start: int, done: int, n: nat)
    requires n > 0 && forall i :: 0 <= i < n - 1 ==> turns(i).result == WouldBlock
    ensures turns(n - 1).result != WouldBlock || done <= start + Polling(turns, n) ==>
              forall k: nat, answer ::
                && FirstAnswer(turns, k, answer) && answer != WouldBlock
                && (k == 0 || Polling(turns, k) < done - start)
                ==> n == k + 1
  {
    forall k: nat | n <= k ensures Polling(turns, n) <= Polling(turns, k) {
      PollingGrows(turns, n, k);
    }
  }

  /** lockExclusive. `done` is the instant at which the context is done; `asked` is when the last
      attempt began, `at` when the call returned. */
  method LockExclusive(opens: bool, turns: nat -> Turn, start: int, done: int)
    returns (outcome: Outcome, f: Descriptor, attempts: nat, asked: int, at: int)
    // the lock is held exactly when the call says so, and a failure leaves nothing open
    ensures (f.open <==> outcome == Held) && (f.locked <==> outcome == Held)
    ensures (outcome == OpenFailed <==> !opens) && (!opens ==> attempts == 0)
    // every attempt but the last found the lock taken, and the last decides the outcome
    ensures opens ==> attempts > 0 && forall i :: 0 <= i < attempts - 1 ==> turns(i).result == WouldBlock
    ensures opens ==> outcome == (match turns(attempts - 1).result
                                  case Acquired => Held case Broken => LockFailed case WouldBlock => Cancelled)
    // the wait is bounded: no attempt begins after the context is done, except the first
    ensures opens && attempts > 1 ==> asked <= done
    ensures opens && attempts > 1 ==> (attempts - 1) * POLL_INTERVAL <= asked - start
    ensures opens ==> at >= asked >= start && (attempts == 1 ==> asked == start)
    // each attempt follows the one before as soon as the poll timer fires
    ensures opens ==> asked == start + Polling(turns, attempts - 1)
    ensures outcome == Held || outcome == LockFailed ==> at == asked + turns(attempts - 1).took
    // cancellation is honoured no sooner and no later than it must be: only when the context is done
    // before the next poll
    ensures outcome == Cancelled ==>
              var last := turns(attempts - 1);
              && done <= asked + last.took + POLL_INTERVAL + last.late
              && at == if asked + last.took < done then done else asked + last.took
    // so a lock freed in time is taken, and a broken one reported, at the first attempt that can
    ensures forall k: nat ::
              opens && FirstAnswer(turns, k, Acquired) && (k == 0 || Polling(turns, k) < done - start)
              ==> outcome == Held && attempts == k + 1
    ensures forall k: nat ::
              opens && FirstAnswer(turns, k, Broken) && (k == 0 || Polling(turns, k) < done - start)
              ==> outcome == LockFailed && attempts == k + 1
  {
    f := new Descriptor();
    attempts, asked, at := 0, start, start;
    if !opens {
      f.Release();
      return OpenFailed, f, 0, start, start;
    }
    while true
      invariant f.open && !f.locked
      invariant at == start + Polling(turns, attempts) && attempts * POLL_INTERVAL <= at - start
      invariant attempts == 0 ==> at == start
      invariant attempts > 0 ==> at <= done
      invariant forall i :: 0 <= i < attempts ==> turns(i).result == WouldBlock
      decreases done - at
    {
      var turn := turns(attempts);
      attempts := attempts + 1;
      asked := at;
      at := at + turn.took;
      LastAttempt(turns, start, done, attempts);
      if turn.result == Acquired {
        f.locked := true;
        return Held, f, attempts, asked, at;
      }
      if turn.result == Broken {
        f.Release();
        return LockFailed, f, attempts, asked, at;
      }
      var timer := at + POLL_INTERVAL + turn.late;
      if done < timer || (done == timer && turn.cancelWins) {
        at := if at < done then done else at;
        f.Release();
        return Cancelled, f, attempts, asked, at;
      }
      at := timer;
    }
  }

  /** lockStore: the caller's context, cut off after LOCK_WAIT. Whatever the contention, the number
      of attempts is bounded by the wait over the poll interval plus a constant. */
  method LockStore(opens: bool, turns: nat -> Turn, start: int, callerDone: Option<int>)
    returns (outcome: Outcome, f: Descriptor, attempts: nat, asked: int, at: int)
    ensures (f.open <==> outcome == Held) && (f.locked <==> outcome == Held)
    ensures attempts <= LOCK_WAIT / POLL_INTERVAL + 1 == 501
    ensures opens ==> start <= asked <= start + 10 * SECOND
    ensures opens && callerDone.Some? && attempts > 1 ==>
              asked <= callerDone.value && (attempts - 1) * POLL_INTERVAL <= callerDone.value - start
    ensures outcome == Cancelled ==> at >= start + LOCK_WAIT || (callerDone.Some? && at >= callerDone.value)
    // no cancellation before the cut-off or the caller's own, and none that another poll would precede
    ensures opens ==> attempts > 0 && asked == start + Polling(turns, attempts - 1)
    ensures outcome == Cancelled ==>
              attempts > 0
              && var last := turns(attempts - 1);
              || start + 10 * SECOND <= asked + last.took + POLL_INTERVAL + last.late
              || (callerDone.Some? && callerDone.value <= asked + last.took + POLL_INTERVAL + last.late)
    // a lock freed within ten seconds, and within the caller's own wait, is taken at the first attempt
    // that can
    ensures forall k: nat ::
              && opens && FirstAnswer(turns, k, Acquired) && Polling(turns, k) < 10 * SECOND
              && (callerDone.Some? ==> Polling(turns, k) < callerDone.value - start)
              ==> outcome == Held && attempts == k + 1
    // an uncontended lock is taken at once, even under a context that is already done
    ensures opens && turns(0).result == Acquired ==> outcome == Held && attempts == 1 && at == start + turns(0).took
  {
    var done := start + LOCK_WAIT;
    if callerDone.Some? && callerDone.value < done {
      done := callerDone.value;
    }
    outcome, f, attempts, asked, at := LockExclusive(opens, turns, start, done);
  }
}
