/** The file refines a plain map updated by one write at a time. */
module Refinement {
  import opened Protocol
  import opened Invariant
  import opened Preservation
  import opened Chronicle

  /** Whenever the file can be parsed it equals the completed renames, in lock order, applied one
      at a time to the empty map. Crashes and failures inside a write leave no trace in it. */
  lemma FileIsReplayedRenames(w: World)
    requires Reachable(w)
    ensures Contents(w.file).Some? ==> Contents(w.file).value == Written(w.log)
    ensures w.file.Missing? ==> Written(w.log) == map[]
  {
    ReachableInv(w);
  }

  predicate Writes(e: Event, key: Key) {
    e.Renamed? && e.key == key
  }

  /** Through any run, a key nobody renamed keeps its entry in the file: a login for one backend
      never undoes another backend's rotation, and neither does a crash or a failed write. */
  lemma UnwrittenKeysSurvive(w: World, steps: seq<Step>, key: Key)
    requires Reachable(w) && Run(w, steps)
    requires Contents(w.file).Some? && Contents(After(w, steps).file).Some?
    requires forall e :: e in Since(w, After(w, steps)) ==> !Writes(e, key)
    ensures var before, after := Contents(w.file).value, Contents(After(w, steps).file).value;
            && (key in after <==> key in before)
            && (key in before ==> after[key] == before[key])
  {
    ReachableInv(w);
    RunKept(w, steps);
    RunGrows(w, steps);
    var log := After(w, steps).log;
    assert log == w.log + log[|w.log|..];
    KeySurvives(w.log, log[|w.log|..], key);
  }

  lemma {:induction false} KeySurvives(log: seq<Event>, events: seq<Event>, key: Key)
    requires forall e :: e in events ==> !Writes(e, key)
    ensures key in Written(log + events) <==> key in Written(log)
    ensures key in Written(log) ==> Written(log + events)[key] == Written(log)[key]
    decreases |events|
  {
    if events == [] {
      assert log + events == log;
    } else {
      var front, last := events[..|events| - 1], events[|events| - 1];
      assert (log + events)[..|log + events| - 1] == log + front;
      assert (log + events)[|log + events| - 1] == last && last in events;
      KeySurvives(log, front, key);
    }
  }

  // ----- readers -----

  /** Every content the store has had, oldest first. */
  function Versions(log: seq<Event>): (vs: seq<Store>)
    ensures vs != [] && vs[|vs| - 1] == Written(log)
  {
    if log == [] then [map[]]
    else
      var before := Versions(log[..|log| - 1]);
      if log[|log| - 1].Renamed? then before + [Written(log)] else before
  }

  lemma {:induction false} VersionsGrow(log: seq<Event>, i: nat)
    requires i <= |log|
    ensures Versions(log[..i]) <= Versions(log)
    decreases |log|
  {
    if i < |log| {
      assert log[..|log| - 1][..i] == log[..i];
      VersionsGrow(log[..|log| - 1], i);
    } else {
      assert log[..i] == log;
    }
  }

  /** The index among all versions of the one current after the first i events. */
  function Current(log: seq<Event>, i: nat): int
    requires i <= |log|
  {
    |Versions(log[..i])| - 1
  }

  lemma CurrentVersion(log: seq<Event>, i: nat)
    requires i <= |log|
    ensures 0 <= Current(log, i) < |Versions(log)| && Versions(log)[Current(log, i)] == Written(log[..i])
  {
    VersionsGrow(log, i);
    var vs := Versions(log[..i]);
    assert vs[|vs| - 1] == Versions(log)[|vs| - 1];
  }

  lemma CurrentAdvances(log: seq<Event>, i: nat, j: nat)
    requires i <= j <= |log|
    ensures Current(log, i) <= Current(log, j)
  {
    VersionsGrow(log[..j], i);
    assert log[..j][..i] == log[..i];
  }

  /** A lock-free read returns the version current when it happened, and a later read by anyone
      returns the same or a later one. */
  lemma ReadsAreOrderedVersions(w: World, i: nat, j: nat)
    requires Reachable(w) && i <= j < |w.log| && w.log[i].Listed? && w.log[j].Listed?
    ensures 0 <= Current(w.log, i) <= Current(w.log, j) < |Versions(w.log)|
    ensures Versions(w.log)[Current(w.log, i)] == w.log[i].content
    ensures Versions(w.log)[Current(w.log, j)] == w.log[j].content
  {
    ReachableChronicled(w);
    assert Justified(w.log[..i], w.log[i]) && Justified(w.log[..j], w.log[j]);
    CurrentVersion(w.log, i);
    CurrentVersion(w.log, j);
    CurrentAdvances(w.log, i, j);
  }
}
