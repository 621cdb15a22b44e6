/** The settled-content-change detector of the MCP shim: a poll fires when the file's hash differs
    from the running child's and was the same on the poll just before. */
module Watcher {
  import opened Basics

  newtype byte = x: int | 0 <= x < 256

  type Bytes = seq<byte>

  /** What has happened to a watcher: a poll that read a hash or failed, or a new baseline. */
  datatype Event =
    | Poll(hash: Option<Bytes>)
    | Reset(to: Bytes)

  // ----- the predicate over the whole history -----

  /** The last baseline set, or empty before the first. */
  function Baseline(history: seq<Event>): Bytes {
    if history == [] then []
    else if history[|history| - 1].Reset? then history[|history| - 1].to
    else Baseline(history[..|history| - 1])
  }

  /** The candidate: what the latest event read, if it was a successful poll off the baseline. */
  function Candidate(history: seq<Event>): Option<Bytes> {
    if history != [] && history[|history| - 1].Poll? && history[|history| - 1].hash != Some(Baseline(history))
    then history[|history| - 1].hash else None
  }

  /** The two latest events are polls that read the same hash, and it is not the baseline. */
  predicate Fires(history: seq<Event>) {
    && |history| >= 2
    && history[|history| - 1].Poll? && history[|history| - 2] == history[|history| - 1]
    && history[|history| - 1].hash.Some? && history[|history| - 1].hash.value != Baseline(history)
  }

  /** A poll fires exactly when the candidate before it is what it reads. */
  lemma FiresIffCandidateRepeats(history: seq<Event>, h: Bytes)
    ensures Baseline(history + [Poll(Some(h))]) == Baseline(history)
    ensures Candidate(history + [Poll(Some(h))]) == if h == Baseline(history) then None else Some(h)
    ensures Fires(history + [Poll(Some(h))]) <==> Candidate(history) == Some(h)
  {
  }

  lemma FailedPoll(history: seq<Event>)
    ensures Baseline(history + [Poll(None)]) == Baseline(history) && !Fires(history + [Poll(None)])
    ensures Candidate(history + [Poll(None)]) == None
  {
  }

  method CloneBytes(b: array<byte>) returns (out: array<byte>)
    ensures fresh(out) && out[..] == b[..]
  {
    out := new byte[b.Length];
    for i := 0 to b.Length
      invariant out[..i] == b[..i]
    {
      out[i] := b[i];
    }
  }

  method Equal(a: array<byte>, b: array?<byte>) returns (same: bool)
    ensures same <==> a[..] == if b == null then [] else b[..]
  {
    if b == null {
      return a.Length == 0;
    }
    if a.Length != b.Length {
      return false;
    }
    for i := 0 to a.Length
      invariant a[..i] == b[..i]
    {
      if a[i] != b[i] {
        assert a[..][i] != b[..][i];
        return false;
      }
    }
    assert a[..] == a[..a.Length] && b[..] == b[..b.Length];
    return true;
  }

  class Watch {
    var baseline: array?<byte>
    var pending: array?<byte>
    ghost var history: seq<Event>

    ghost function Buffers(): set<object>
      reads this
    {
      (if baseline == null then {} else {baseline}) + (if pending == null then {} else {pending})
    }

    /** The two fields are the history predicate's values. */
    ghost predicate Valid()
      reads this, Buffers()
    {
      && (baseline != null ==> baseline != pending)
      && (if baseline == null then [] else baseline[..]) == Baseline(history)
      && (if pending == null then None else Some(pending[..])) == Candidate(history)
    }

    constructor ()
      ensures Valid() && history == [] && Buffers() == {}
    {
      baseline, pending, history := null, null, [];
    }

    /** One poll. `read` is the hash just computed, or null when the file could not be read. */
    method Step(read: array?<byte>) returns (changed: bool, hash: array?<byte>)
      requires Valid() && read !in Buffers()
      modifies this
      ensures Valid()
      ensures history == old(history) + [Poll(if read == null then None else Some(read[..]))]
      ensures changed <==> Fires(history)
      ensures hash == if changed then read else null
      // nothing the caller holds is kept
      ensures baseline == old(baseline) && (pending == old(pending) || pending == null || fresh(pending))
      ensures read !in Buffers()
    {
      if read == null {
        FailedPoll(history);
        history := history + [Poll(None)];
        pending := null;
        return false, null;
      }
      FiresIffCandidateRepeats(history, read[..]);
      CandidateOffBaseline(history);
      var same := Equal(read, baseline);
      history := history + [Poll(Some(read[..]))];
      if same {
        pending := null;
        return false, null;
      }
      if pending != null {
        var settled := Equal(read, pending);
        if settled {
          return true, read;
        }
      }
      pending := CloneBytes(read);
      return false, null;
    }

    method SetBaseline(h: array<byte>)
      requires Valid()
      modifies this
      ensures Valid() && history == old(history) + [Reset(h[..])]
      ensures fresh(Buffers()) && h !in Buffers()
    {
      baseline := CloneBytes(h);
      pending := null;
      history := history + [Reset(h[..])];
    }
  }

  // ----- runs in which every firing is followed by a swap -----

  /** A poll, and the swap and reset that follow if it fires. */
  function Tick(history: seq<Event>, poll: Option<Bytes>): seq<Event> {
    var polled := history + [Poll(poll)];
    if Fires(polled) then polled + [Reset(poll.value)] else polled
  }

  /** The history of a supervisor that swaps, and resets the baseline, whenever a poll fires. */
  function Supervised(launch: Bytes, polls: seq<Option<Bytes>>): seq<Event> {
    if polls == [] then [Reset(launch)]
    else Tick(Supervised(launch, polls[..|polls| - 1]), polls[|polls| - 1])
  }

  /** How many swaps that took. */
  function Swaps(launch: Bytes, polls: seq<Option<Bytes>>): nat {
    if polls == [] then 0
    else
      Swaps(launch, polls[..|polls| - 1])
      + (if Fires(Supervised(launch, polls[..|polls| - 1]) + [Poll(polls[|polls| - 1])]) then 1 else 0)
  }

  method Hash(content: Bytes) returns (h: array<byte>)
    ensures fresh(h) && h[..] == content
  {
    h := new byte[|content|](i requires 0 <= i < |content| => content[i]);
  }

  /** One tick of the supervisor's loop, with the swap done as soon as it is armed. */
  method TickOnce(w: Watch, poll: Option<Bytes>) returns (swapped: bool)
    requires w.Valid()
    modifies w
    ensures w.Valid() && w.history == Tick(old(w.history), poll)
    ensures swapped <==> Fires(old(w.history) + [Poll(poll)])
    ensures fresh(w.Buffers() - old(w.Buffers()))
  {
    var read: array?<byte> := null;
    if poll.Some? {
      read := Hash(poll.value);
    }
    var changed, hash := w.Step(read);
    if changed {
      w.SetBaseline(hash);
    }
    return changed;
  }

  lemma SupervisedGrows(launch: Bytes, polls: seq<Option<Bytes>>, i: nat)
    requires i < |polls|
    ensures Supervised(launch, polls[..i + 1]) == Tick(Supervised(launch, polls[..i]), polls[i])
    ensures Swaps(launch, polls[..i + 1]) ==
              Swaps(launch, polls[..i]) + (if Fires(Supervised(launch, polls[..i]) + [Poll(polls[i])]) then 1 else 0)
  {
    assert polls[..i + 1][..i] == polls[..i];
  }

  /** The loop itself: it realizes exactly the supervised history. */
  method Supervise(launch: array<byte>, polls: seq<Option<Bytes>>) returns (w: Watch, swaps: nat)
    ensures w.Valid() && w.history == Supervised(launch[..], polls) && swaps == Swaps(launch[..], polls)
  {
    ghost var start := launch[..];
    w := new Watch();
    w.SetBaseline(launch);
    swaps := 0;
    for i := 0 to |polls|
      invariant fresh(w) && w.Valid()
      invariant w.history == Supervised(start, polls[..i]) && swaps == Swaps(start, polls[..i])
    {
      SupervisedGrows(start, polls, i);
      var swapped := TickOnce(w, polls[i]);
      swaps := if swapped then swaps + 1 else swaps;
    }
    assert polls[..|polls|] == polls;
  }

  /** Two polls are spent on every swap, and one more while a candidate is pending. */
  lemma {:induction false} SwapsAreRare(launch: Bytes, polls: seq<Option<Bytes>>)
    ensures 2 * Swaps(launch, polls) <= |polls|
    ensures Candidate(Supervised(launch, polls)).Some? ==> 2 * Swaps(launch, polls) + 1 <= |polls|
    decreases |polls|
  {
    if polls == [] {
    } else {
      var front, last := polls[..|polls| - 1], polls[|polls| - 1];
      SwapsAreRare(launch, front);
      var history := Supervised(launch, front);
      if last.Some? {
        FiresIffCandidateRepeats(history, last.value);
      } else {
        FailedPoll(history);
      }
    }
  }

  /** A swap happens only to content other than the child's, and makes that content the baseline. */
  lemma SwapChangesBaseline(launch: Bytes, polls: seq<Option<Bytes>>)
    requires polls != [] && Swaps(launch, polls) > Swaps(launch, polls[..|polls| - 1])
    ensures polls[|polls| - 1].Some?
    ensures Baseline(Supervised(launch, polls)) == polls[|polls| - 1].value
    ensures Baseline(Supervised(launch, polls[..|polls| - 1])) != polls[|polls| - 1].value
  {
  }

  /** One more successful poll. */
  lemma PollOnce(launch: Bytes, polls: seq<Option<Bytes>>, h: Bytes)
    ensures var before, after := Supervised(launch, polls), Supervised(launch, polls + [Some(h)]);
            var more := Swaps(launch, polls + [Some(h)]) - Swaps(launch, polls);
            if Baseline(before) == h then Baseline(after) == h && more == 0
            else if Candidate(before) == Some(h) then Baseline(after) == h && more == 1
            else Baseline(after) == Baseline(before) && Candidate(after) == Some(h) && more == 0
  {
  }

  lemma CandidateOffBaseline(history: seq<Event>)
    ensures Candidate(history) != Some(Baseline(history))
  {
  }

  lemma TwoPollsSettle(launch: Bytes, polls: seq<Option<Bytes>>, h: Bytes)
    ensures Baseline(Supervised(launch, polls + [Some(h)] + [Some(h)])) == h
    ensures Swaps(launch, polls + [Some(h)] + [Some(h)]) <= Swaps(launch, polls) + 1
  {
  }

  ghost predicate AllRead(polls: seq<Option<Bytes>>, h: Bytes) {
    forall i :: 0 <= i < |polls| ==> polls[i] == Some(h)
  }

  lemma {:induction false} StaysSettled(launch: Bytes, polls: seq<Option<Bytes>>, h: Bytes, more: seq<Option<Bytes>>)
    requires Baseline(Supervised(launch, polls)) == h && AllRead(more, h)
    ensures Baseline(Supervised(launch, polls + more)) == h
    ensures Swaps(launch, polls + more) == Swaps(launch, polls)
    decreases |more|
  {
    if more == [] {
      assert polls + more == polls;
    } else {
      var front := more[..|more| - 1];
      StaysSettled(launch, polls, h, front);
      PollOnce(launch, polls + front, h);
      assert polls + more == polls + front + [Some(h)];
    }
  }

  /** The launch content is the first baseline: polls that read it, or fail, never swap. */
  lemma {:induction false} LaunchContentNeverSwaps(launch: Bytes, polls: seq<Option<Bytes>>)
    requires forall i :: 0 <= i < |polls| ==> polls[i] == None || polls[i] == Some(launch)
    ensures Baseline(Supervised(launch, polls)) == launch && Swaps(launch, polls) == 0
    ensures Candidate(Supervised(launch, polls)) == None
    decreases |polls|
  {
    if polls == [] {
    } else {
      var front, last := polls[..|polls| - 1], polls[|polls| - 1];
      LaunchContentNeverSwaps(launch, front);
      FailedPoll(Supervised(launch, front));
      FiresIffCandidateRepeats(Supervised(launch, front), launch);
    }
  }

  /** Whatever came before, once the content is constant and readable the child runs it within two
      polls, after at most one swap, and no later poll swaps again. */
  lemma ConstantContentSettles(launch: Bytes, polls: seq<Option<Bytes>>, h: Bytes, more: seq<Option<Bytes>>)
    requires AllRead(more, h)
    ensures var settled := polls + [Some(h)] + [Some(h)];
            && Baseline(Supervised(launch, settled)) == h
            && Swaps(launch, settled) <= Swaps(launch, polls) + 1
            && Baseline(Supervised(launch, settled + more)) == h
            && Swaps(launch, settled + more) == Swaps(launch, settled)
  {
    TwoPollsSettle(launch, polls, h);
    StaysSettled(launch, polls + [Some(h)] + [Some(h)], h, more);
  }
}
