/** Two runs showing that the conditions of the safety theorems cannot be dropped: a lost rotation
    costs the lineage, and so does a request served late, though no rotation was lost. */
module Necessity {
  import opened Basics
  import opened Credentials
  import opened AuthServer
  import opened Protocol

  const CRED := Credential("a0", "s", [], "p", Some(0), "r0", "c", "e", None)

  /** A login stores a credential that is already due. */
  const LOGIN: seq<Step> := [StartLogin(0, "k", CRED, 7, 100), Acquire(0), Snapshot(0, true)]
  const STORED: seq<Step> := [Rename(0, true), Release(0)]

  /** A consumer takes the lock and finds the credential due. */
  function Reread(p: Pid): seq<Step> {
    [StartRefresh(p, "k", 0), Acquire(p), Reload(p, true)]
  }

  /** The first one's request is served, but it dies before the rename; the next one presents the
      consumed token. */
  const LOSS: seq<Step> := [Send(1, 0, true), Serve(0, 0, Mint("r1", 100)), Crash(1)]
  const REUSE: seq<Step> := [Send(2, 0, true), Serve(0, 0, Mint("r2", 100))]

  const REPLY := Response(200, "", Some(TokenResponse("a1", 900, "r1", None, "", "")))

  /** The first one gives up while its request is under way; the next one rotates the same token and
      persists the result; only then does the server get to the first request. */
  const LEAVE: seq<Step> := [Send(1, 0, true), GiveUp(1), Release(1)]
  const ROTATE: seq<Step> := [Send(2, 1, true), Serve(1, 0, Mint("r1", 100)), Receive(2, REPLY)]
  const PERSIST: seq<Step> := [Snapshot(2, true), Rename(2, true), Release(2)]
  const LATE: seq<Step> := [Serve(0, 0, Mint("r2", 100))]

  lemma {:induction false} RunJoin(w: World, a: seq<Step>, b: seq<Step>)
    requires Run(w, a) && Run(After(w, a), b)
    ensures Run(w, a + b) && After(w, a + b) == After(After(w, a), b)
    decreases |a|
  {
    if a == [] {
      assert a + b == b;
    } else {
      assert (a + b)[1..] == a[1..] + b;
      RunJoin(Apply(w, a[0]), a[1..], b);
    }
  }

  lemma RunOne(w: World, a: Step)
    requires Enabled(w, a)
    ensures Run(w, [a]) && After(w, [a]) == Apply(w, a)
  {
  }

  lemma RunTwo(w: World, a: Step, b: Step)
    requires Enabled(w, a) && Enabled(Apply(w, a), b)
    ensures Run(w, [a, b]) && After(w, [a, b]) == Apply(Apply(w, a), b)
  {
    RunOne(w, a);
    RunOne(Apply(w, a), b);
    RunJoin(w, [a], [b]);
    assert [a] + [b] == [a, b];
  }

  lemma RunThree(w: World, a: Step, b: Step, c: Step)
    requires Enabled(w, a) && Enabled(Apply(w, a), b) && Enabled(Apply(Apply(w, a), b), c)
    ensures Run(w, [a, b, c]) && After(w, [a, b, c]) == Apply(Apply(Apply(w, a), b), c)
  {
    RunTwo(w, a, b);
    RunOne(Apply(Apply(w, a), b), c);
    RunJoin(w, [a, b], [c]);
    assert [a, b] + [c] == [a, b, c];
  }

  /** The stored credential is the one logged in, with the token's row and the requests as given. */
  predicate AtRest(w: World, row: Row, requests: map<int, Request>) {
    && w.lock == None && w.file == Stored(map["k" := CRED]) && w.requests == requests
    && "r0" in w.rows && w.rows["r0"] == row && "r2" !in w.rows
    && Pc(w, 2) == Idle
  }

  const LIVE := Row(7, "c", false, false, 100)

  lemma LoginRuns() returns (w: World)
    ensures Run(START, LOGIN + STORED) && After(START, LOGIN + STORED) == w
    ensures AtRest(w, LIVE, map[]) && Pc(w, 1) == Idle && "r1" !in w.rows && Burned(7) !in w.log
  {
    RunThree(START, LOGIN[0], LOGIN[1], LOGIN[2]);
    RunTwo(After(START, LOGIN), STORED[0], STORED[1]);
    RunJoin(START, LOGIN, STORED);
    w := After(START, LOGIN + STORED);
  }

  lemma RereadRuns(w: World, p: Pid, row: Row, requests: map<int, Request>) returns (loaded: World)
    requires AtRest(w, row, requests) && Pc(w, p) == Idle
    ensures Run(w, Reread(p)) && After(w, Reread(p)) == loaded
    ensures loaded == w.(lock := Some(p), procs := loaded.procs)
    ensures Pc(loaded, p) == Loaded("k", 0, CRED) && forall q :: q != p ==> Pc(loaded, q) == Pc(w, q)
  {
    RunThree(w, StartRefresh(p, "k", 0), Acquire(p), Reload(p, true));
    loaded := After(w, Reread(p));
    assert w.log + [] == w.log;
  }

  /** The first consumer is about to send, and nobody has rotated. */
  predicate FirstLoaded(w: World) {
    && w.lock == Some(1) && w.file == Stored(map["k" := CRED]) && w.requests == map[]
    && Pc(w, 1) == Loaded("k", 0, CRED) && Pc(w, 2) == Idle
    && "r0" in w.rows && w.rows["r0"] == LIVE && "r1" !in w.rows && "r2" !in w.rows && Burned(7) !in w.log
  }

  lemma FirstReread() returns (w: World)
    ensures Run(START, LOGIN + STORED + Reread(1)) && After(START, LOGIN + STORED + Reread(1)) == w && FirstLoaded(w)
  {
    var stored := LoginRuns();
    w := RereadRuns(stored, 1, LIVE, map[]);
    RunJoin(START, LOGIN + STORED, Reread(1));
  }

  lemma LossRuns(w: World) returns (end: World)
    requires FirstLoaded(w)
    ensures Run(w, LOSS) && After(w, LOSS) == end && AtRest(end, LIVE.(consumed := true), map[])
  {
    RunThree(w, LOSS[0], LOSS[1], LOSS[2]);
    end := After(w, LOSS);
  }

  /** One crash between commit and rename, and the next consumer trips reuse detection. */
  lemma LostRotationCostsLineage()
    ensures var run := LOGIN + STORED + Reread(1) + LOSS + Reread(2) + REUSE;
            Run(START, run) && ReuseDetected(7) in After(START, run).log
  {
    var first := FirstReread();
    var burned := LossRuns(first);
    RunJoin(START, LOGIN + STORED + Reread(1), LOSS);
    var again := RereadRuns(burned, 2, LIVE.(consumed := true), map[]);
    RunJoin(START, LOGIN + STORED + Reread(1) + LOSS, Reread(2));
    RunTwo(again, REUSE[0], REUSE[1]);
    RunJoin(START, LOGIN + STORED + Reread(1) + LOSS + Reread(2), REUSE);
  }

  const PENDING: map<int, Request> := map[0 := Request(1, "r0", "c")]

  lemma LeaveRuns(w: World) returns (end: World)
    requires FirstLoaded(w)
    ensures Run(w, LEAVE) && After(w, LEAVE) == end
    ensures AtRest(end, LIVE, PENDING) && Pc(end, 1).Finished? && "r1" !in end.rows && Burned(7) !in end.log
  {
    RunThree(w, LEAVE[0], LEAVE[1], LEAVE[2]);
    end := After(w, LEAVE);
  }

  /** The second consumer holds a rotated credential and has not written it. */
  predicate SecondWriting(w: World) {
    && w.lock == Some(2) && w.file == Stored(map["k" := CRED]) && w.requests == PENDING
    && Pc(w, 1).Finished? && Pc(w, 2) == Writing("k", Renewed(CRED, 0, REPLY.body.value), FromRotation(0, CRED, 7))
    && "r0" in w.rows && w.rows["r0"] == LIVE.(consumed := true)
    && "r1" in w.rows && w.rows["r1"] == LIVE && "r2" !in w.rows && Burned(7) !in w.log
  }

  /** The second consumer is about to send, and the first one's request is still outstanding. */
  predicate SecondLoaded(w: World) {
    && w.lock == Some(2) && w.file == Stored(map["k" := CRED]) && w.requests == PENDING
    && Pc(w, 1).Finished? && Pc(w, 2) == Loaded("k", 0, CRED)
    && "r0" in w.rows && w.rows["r0"] == LIVE && "r1" !in w.rows && "r2" !in w.rows && Burned(7) !in w.log
  }

  lemma ServedRuns(w: World) returns (served: World)
    requires SecondLoaded(w)
    ensures Run(w, [ROTATE[0], ROTATE[1]]) && After(w, [ROTATE[0], ROTATE[1]]) == served
    ensures served.lock == Some(2) && served.file == w.file && served.requests == PENDING && Burned(7) !in served.log
    ensures Pc(served, 1).Finished? && Pc(served, 2) == Committed("k", 0, CRED, 7, "r1")
    ensures served.rows == w.rows["r1" := LIVE]["r0" := LIVE.(consumed := true)]
  {
    RunTwo(w, ROTATE[0], ROTATE[1]);
    served := After(w, [ROTATE[0], ROTATE[1]]);
  }

  lemma RotateRuns(w: World) returns (end: World)
    requires SecondLoaded(w)
    ensures Run(w, ROTATE) && After(w, ROTATE) == end && SecondWriting(end)
  {
    var served := ServedRuns(w);
    RunOne(served, ROTATE[2]);
    RunJoin(w, [ROTATE[0], ROTATE[1]], [ROTATE[2]]);
    assert [ROTATE[0], ROTATE[1]] + [ROTATE[2]] == ROTATE;
    end := After(w, ROTATE);
  }

  lemma PersistRuns(w: World) returns (end: World)
    requires SecondWriting(w)
    ensures Run(w, PERSIST) && After(w, PERSIST) == end
    ensures end.file == Stored(map["k" := Renewed(CRED, 0, REPLY.body.value)]) && end.requests == PENDING
    ensures end.rows == w.rows && Pc(end, 1).Finished? && Burned(7) !in end.log
  {
    RunThree(w, PERSIST[0], PERSIST[1], PERSIST[2]);
    end := After(w, PERSIST);
    assert map["k" := CRED]["k" := Renewed(CRED, 0, REPLY.body.value)]
        == map["k" := Renewed(CRED, 0, REPLY.body.value)];
  }

  /** Nobody loses a rotation: a consumer gives up on a slow request, the next one rotates and
      persists in good order, and then the server serves the first request. It sees a consumed token
      and revokes the lineage of the credential on disk. */
  lemma LateServiceCostsLineage()
    ensures var run := LOGIN + STORED + Reread(1) + LEAVE + Reread(2) + ROTATE + PERSIST + LATE;
            && Run(START, run)
            && var end := After(START, run);
            && ReuseDetected(7) in end.log && Burned(7) !in end.log
            && end.file.Stored? && "k" in end.file.content
            && var stored := end.file.content["k"].refreshToken;
            && stored in end.rows && end.rows[stored].revoked && !end.rows[stored].consumed
  {
    var first := FirstReread();
    var left := LeaveRuns(first);
    RunJoin(START, LOGIN + STORED + Reread(1), LEAVE);
    var loaded := RereadRuns(left, 2, LIVE, PENDING);
    RunJoin(START, LOGIN + STORED + Reread(1) + LEAVE, Reread(2));
    var writing := RotateRuns(loaded);
    RunJoin(START, LOGIN + STORED + Reread(1) + LEAVE + Reread(2), ROTATE);
    var persisted := PersistRuns(writing);
    RunJoin(START, LOGIN + STORED + Reread(1) + LEAVE + Reread(2) + ROTATE, PERSIST);
    RunOne(persisted, LATE[0]);
    RunJoin(START, LOGIN + STORED + Reread(1) + LEAVE + Reread(2) + ROTATE + PERSIST, LATE);
  }
}
