/** Sorting the family names. A sorted listing of a set of names is unique, which is what makes a
    report independent of the order in which a map is iterated. */
module SortedNames {

  /** Lexicographic order. */
  predicate Leq(a: string, b: string) {
    a == [] || (b != [] && (a[0] < b[0] || (a[0] == b[0] && Leq(a[1..], b[1..]))))
  }

  /** a and b agree up to k, and there a ends or has the smaller character. */
  ghost predicate SmallerAt(a: string, b: string, k: nat) {
    && k <= |a| && k <= |b| && a[..k] == b[..k]
    && (k == |a| || (k < |b| && a[k] < b[k]))
  }

  /** It is the order of dictionaries: a prefix comes first, otherwise the first difference decides. */
  lemma {:induction false} LeqIff(a: string, b: string)
    ensures Leq(a, b) <==> exists k: nat :: SmallerAt(a, b, k)
    decreases |a|
  {
    if a == [] {
      assert SmallerAt(a, b, 0);
    } else if b == [] {
    } else if a[0] != b[0] {
      assert SmallerAt(a, b, 0) <==> a[0] < b[0];
      forall k: nat | k > 0 ensures !SmallerAt(a, b, k) {
        assert k <= |a| && k <= |b| ==> a[..k][0] == a[0] && b[..k][0] == b[0];
      }
    } else {
      LeqIff(a[1..], b[1..]);
      forall k: nat ensures SmallerAt(a[1..], b[1..], k) <==> SmallerAt(a, b, k + 1) {
        SmallerLater(a, b, k);
      }
      assert !SmallerAt(a, b, 0);
      forall k: nat | SmallerAt(a, b, k) ensures SmallerAt(a[1..], b[1..], k - 1) {
        assert k == (k - 1) + 1;
      }
    }
  }

  lemma SmallerLater(a: string, b: string, k: nat)
    requires a != [] && b != [] && a[0] == b[0]
    ensures SmallerAt(a[1..], b[1..], k) <==> SmallerAt(a, b, k + 1)
  {
    if k + 1 <= |a| && k + 1 <= |b| {
      assert a[..k + 1] == [a[0]] + a[1..][..k] && b[..k + 1] == [b[0]] + b[1..][..k];
      assert a[1..][..k] == a[..k + 1][1..] && b[1..][..k] == b[..k + 1][1..];
    }
  }

  lemma FamiliesInOrder()
    ensures Leq("claude-opus", "gpt-5.5") && !Leq("gpt-5.5", "claude-opus")
    ensures Leq("claude-opus", "claude-opus-5-5") && !Leq("claude-opus-5-5", "claude-opus")
  {
    assert SmallerAt("claude-opus", "gpt-5.5", 0) && SmallerAt("claude-opus", "claude-opus-5-5", 11);
    LeqIff("claude-opus", "gpt-5.5");
    LeqIff("claude-opus", "claude-opus-5-5");
    LeqTotal("claude-opus", "gpt-5.5");
    LeqTotal("claude-opus", "claude-opus-5-5");
  }

  lemma {:induction false} LeqTotal(a: string, b: string)
    ensures Leq(a, b) || Leq(b, a)
    ensures Leq(a, b) && Leq(b, a) ==> a == b
    decreases |a|
  {
    if a != [] && b != [] && a[0] == b[0] {
      LeqTotal(a[1..], b[1..]);
      assert a == [a[0]] + a[1..] && b == [b[0]] + b[1..];
    }
  }

  lemma {:induction false} LeqTransitive(a: string, b: string, c: string)
    requires Leq(a, b) && Leq(b, c)
    ensures Leq(a, c)
    decreases |a|
  {
    if a != [] && a[0] == b[0] == c[0] {
      LeqTransitive(a[1..], b[1..], c[1..]);
    }
  }

  ghost predicate Sorted(s: seq<string>) {
    forall i, j :: 0 <= i < j < |s| ==> Leq(s[i], s[j])
  }

  ghost predicate Distinct(s: seq<string>) {
    forall i, j :: 0 <= i < j < |s| ==> s[i] != s[j]
  }

  /** s lists the names of the set, each once. */
  ghost predicate Lists(s: seq<string>, names: set<string>) {
    Distinct(s) && (forall n :: n in s <==> n in names)
  }

  lemma {:induction false} SortedListingUnique(s: seq<string>, t: seq<string>, names: set<string>)
    requires Sorted(s) && Sorted(t) && Lists(s, names) && Lists(t, names)
    ensures s == t
    decreases |s|
  {
    EmptyListing(s, names);
    EmptyListing(t, names);
    if s == [] {
    } else {
      FirstAgree(s, t, names);
      DropFirst(s, names);
      DropFirst(t, names);
      SortedListingUnique(s[1..], t[1..], names - {s[0]});
      assert s == [s[0]] + s[1..] && t == [t[0]] + t[1..];
    }
  }

  lemma {:induction false} ListsCount(s: seq<string>, names: set<string>)
    requires Lists(s, names)
    ensures |s| == |names|
    decreases |s|
  {
    EmptyListing(s, names);
    if s == [] {
    } else {
      assert s[0] in s;
      assert Lists(s[1..], names - {s[0]});
      ListsCount(s[1..], names - {s[0]});
    }
  }

  lemma EmptyListing(s: seq<string>, names: set<string>)
    requires Lists(s, names)
    ensures s == [] <==> names == {}
  {
    if s != [] {
      assert s[0] in s;
    }
  }

  lemma FirstAgree(s: seq<string>, t: seq<string>, names: set<string>)
    requires Sorted(s) && Sorted(t) && Lists(s, names) && Lists(t, names) && s != [] && t != []
    ensures s[0] == t[0]
  {
    assert t[0] in s && s[0] in t;
    assert Leq(s[0], t[0]) && Leq(t[0], s[0]) by {
      LeqTotal(s[0], s[0]);
    }
    LeqTotal(s[0], t[0]);
  }

  lemma DropFirst(s: seq<string>, names: set<string>)
    requires Sorted(s) && Lists(s, names) && s != []
    ensures Sorted(s[1..]) && Lists(s[1..], names - {s[0]})
  {
  }

  lemma LastIsGreatest(front: seq<string>, last: string)
    requires Sorted(front + [last]) && Distinct(front + [last])
    ensures forall n :: n in front ==> n != last && Leq(n, last)
  {
    var s := front + [last];
    forall n | n in front ensures n != last && Leq(n, last) {
      var i :| 0 <= i < |front| && front[i] == n;
      assert s[i] == n && s[|front|] == last;
    }
  }

  /** sort.Strings, as an insertion sort. */
  method SortNames(names: seq<string>, ghost all: set<string>) returns (sorted: seq<string>)
    requires Lists(names, all)
    ensures Sorted(sorted) && Lists(sorted, all)
  {
    sorted := [];
    ghost var taken: set<string> := {};
    for i := 0 to |names|
      invariant Sorted(sorted) && Lists(sorted, taken)
      invariant forall n :: n in taken <==> n in names[..i]
    {
      assert names[i] !in taken by {
        assert forall j :: 0 <= j < i ==> names[..i][j] == names[j] != names[i];
      }
      sorted := Insert(sorted, names[i], taken);
      taken := taken + {names[i]};
      assert names[..i + 1] == names[..i] + [names[i]];
    }
    assert names[..|names|] == names;
    assert taken == all;
  }

  method Insert(s: seq<string>, n: string, ghost names: set<string>) returns (r: seq<string>)
    requires Sorted(s) && Lists(s, names) && n !in names
    ensures Sorted(r) && Lists(r, names + {n})
  {
    var k := 0;
    while k < |s| && Leq(s[k], n)
      invariant 0 <= k <= |s|
      invariant forall i :: 0 <= i < k ==> Leq(s[i], n)
    {
      k := k + 1;
    }
    r := s[..k] + [n] + s[k..];
    if k < |s| {
      LeqTotal(s[k], n);
    }
    InsertedSorted(s, n, k);
    InsertedLists(s, n, k, names);
  }

  lemma InsertedSorted(s: seq<string>, n: string, k: nat)
    requires Sorted(s) && k <= |s|
    requires (forall i :: 0 <= i < k ==> Leq(s[i], n)) && (k < |s| ==> Leq(n, s[k]))
    ensures Sorted(s[..k] + [n] + s[k..])
  {
    forall i | k < i < |s| ensures Leq(n, s[i]) {
      LeqTransitive(n, s[k], s[i]);
    }
  }

  lemma InsertedLists(s: seq<string>, n: string, k: nat, names: set<string>)
    requires Lists(s, names) && n !in names && k <= |s|
    ensures Lists(s[..k] + [n] + s[k..], names + {n})
  {
  }
}
