/** How often a key can be rotated. Captured instants are taken before the lock wait, so they need
    not be ordered across processes; the persisted rotations of a key are nevertheless spaced. */
module RotationRate {
  import opened GoInt
  import opened Credentials
  import opened Protocol
  import opened Chronicle
  import opened Refinement

  /** The credentials rotated into the key since its last login. */
  function Rotations(log: seq<Event>, key: Key): seq<Credential> {
    if log == [] then []
    else
      var before, last := Rotations(log[..|log| - 1], key), log[|log| - 1];
      if !Writes(last, key) then before
      else if last.origin.FromLogin? then []
      else before + [last.cred]
  }

  function Issued(c: Credential): int {
    if c.issuedAt.Some? then c.issuedAt.value else 0
  }

  /** How long a credential stays outside its refresh window. */
  function Gap(c: Credential): int {
    Lifetime(c) - Skew(Lifetime(c))
  }

  /** Each rotation waited out the previous one's lifetime, less its margin. */
  ghost predicate Spaced(rs: seq<Credential>) {
    && (forall i :: 0 <= i < |rs| ==> Rotation(rs[i], Issued(rs[i])))
    && (forall i, j :: 0 <= i < j < |rs| && j == i + 1 ==> Issued(rs[j]) - Issued(rs[i]) >= Gap(rs[i]))
  }

  lemma ChroniclePrefix(log: seq<Event>, n: nat)
    requires Chronicled(log) && n <= |log|
    ensures Chronicled(log[..n])
  {
    forall i | 0 <= i < n ensures Justified(log[..n][..i], log[..n][i]) {
      assert log[..n][..i] == log[..i];
    }
  }

  lemma AppendSpaced(rs: seq<Credential>, c: Credential)
    requires Spaced(rs) && Rotation(c, Issued(c))
    requires rs != [] ==> NeedsRefresh(rs[|rs| - 1], Issued(c))
    ensures Spaced(rs + [c])
  {
  }

  /** One entry: a rotation of the key extends the spaced sequence. */
  lemma RotationAppends(log: seq<Event>, key: Key)
    requires log != [] && Justified(log[..|log| - 1], log[|log| - 1])
    requires Spaced(Rotations(log[..|log| - 1], key))
    requires var rs := Rotations(log[..|log| - 1], key); rs != [] ==> Holds(log[..|log| - 1], key, rs[|rs| - 1])
    ensures Spaced(Rotations(log, key))
    ensures var rs := Rotations(log, key); rs != [] ==> Holds(log, key, rs[|rs| - 1])
  {
    var rs, last := Rotations(log[..|log| - 1], key), log[|log| - 1];
    if Writes(last, key) && last.origin.FromRotation? {
      AppendSpaced(rs, last.cred);
    }
  }

  lemma {:induction false} RotationsSpaced(log: seq<Event>, key: Key)
    requires Chronicled(log)
    ensures Spaced(Rotations(log, key))
    ensures var rs := Rotations(log, key); rs != [] ==> Holds(log, key, rs[|rs| - 1])
    decreases |log|
  {
    if log == [] {
    } else {
      ChroniclePrefix(log, |log| - 1);
      RotationsSpaced(log[..|log| - 1], key);
      RotationAppends(log, key);
    }
  }

  /** In every reachable world the rotations of a key since its last login are spaced by at least
      lifetime less margin. */
  lemma RotationsAreSpaced(w: World, key: Key)
    requires Reachable(w)
    ensures Spaced(Rotations(w.log, key))
  {
    ReachableChronicled(w);
    RotationsSpaced(w.log, key);
  }

  lemma {:induction false} SpacedSpan(rs: seq<Credential>, gap: int)
    requires Spaced(rs) && rs != []
    requires forall c :: c in rs ==> Gap(c) >= gap
    ensures Issued(rs[|rs| - 1]) - Issued(rs[0]) >= (|rs| - 1) * gap
    decreases |rs|
  {
    if |rs| == 1 {
    } else {
      var front := rs[..|rs| - 1];
      assert forall c :: c in front ==> c in rs;
      SpacedSpan(front, gap);
      var i, j := |rs| - 2, |rs| - 1;
      assert rs[i] in rs && Issued(rs[j]) - Issued(rs[i]) >= Gap(rs[i]);
      OneMore(|rs| - 2, gap);
    }
  }

  lemma OneMore(n: int, gap: int)
    ensures (n + 1) * gap == n * gap + gap
  {
  }

  /** n rotations between two logins, each of lifetime at least L, span at least (n - 1) times half
      of L, rounded up. */
  lemma RotationsTakeTime(w: World, key: Key, shortest: int64)
    requires Reachable(w) && Rotations(w.log, key) != [] && shortest > 0
    requires forall c :: c in Rotations(w.log, key) ==> Lifetime(c) >= shortest
    ensures var rs := Rotations(w.log, key);
            Issued(rs[|rs| - 1]) - Issued(rs[0]) >= (|rs| - 1) * ((shortest + 1) / 2)
  {
    RotationsAreSpaced(w, key);
    forall c | c in Rotations(w.log, key) ensures Gap(c) >= (shortest + 1) / 2 {
      assert Skew(Lifetime(c)) <= Lifetime(c) / 2;
    }
    SpacedSpan(Rotations(w.log, key), (shortest + 1) / 2);
  }

  /** What a consumer is handed, by re-read or by rotation, is what the store holds at that moment
      and is outside its refresh window at the consumer's captured instant. */
  lemma ReturnedIsStoredAndFresh(w: World, i: nat)
    requires Reachable(w) && i < |w.log| && w.log[i].Returned?
    ensures Holds(w.log[..i], w.log[i].key, w.log[i].cred) && !NeedsRefresh(w.log[i].cred, w.log[i].now)
  {
    ReachableChronicled(w);
    assert Justified(w.log[..i], w.log[i]);
  }

  /** So a returned refreshable credential living at least twenty seconds is still unexpired after
      the longest permitted lock wait. */
  lemma ReturnedOutlastsLockWait(w: World, i: nat, later: int)
    requires Reachable(w) && i < |w.log| && w.log[i].Returned? && Refreshable(w.log[i].cred)
    requires w.log[i].cred.expiresAt.Some? ==> Lifetime(w.log[i].cred) >= 20 * SECOND
    requires later <= w.log[i].now + 10 * SECOND
    ensures !Expired(w.log[i].cred, later)
  {
    ReturnedIsStoredAndFresh(w, i);
    FreshOutlastsLockWait(w.log[i].cred, w.log[i].now, later);
  }
}
