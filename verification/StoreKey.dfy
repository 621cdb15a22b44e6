/** The key under which a backend's credential is stored: the URL with surrounding white space
    removed and then its trailing slashes removed, in that order. */
module StoreKey {

  /** The characters Go's unicode.IsSpace accepts. */
  predicate IsSpace(c: char) {
    var n := c as int;
    || 0x09 <= n <= 0x0D || n == 0x20 || n == 0x85 || n == 0xA0 || n == 0x1680
    || 0x2000 <= n <= 0x200A || n == 0x2028 || n == 0x2029 || n == 0x202F || n == 0x205F
    || n == 0x3000
  }

  /** White space, character by character: the six ASCII ones, and those of Latin-1 and beyond. */
  lemma SpaceIff(c: char)
    ensures IsSpace(c) <==>
              c in "\t\n\U{0B}\U{0C}\r \U{85}\U{A0}\U{1680}\U{2000}\U{2001}\U{2002}\U{2003}\U{2004}\U{2005}"
                   + "\U{2006}\U{2007}\U{2008}\U{2009}\U{200A}\U{2028}\U{2029}\U{202F}\U{205F}\U{3000}"
  {
    var n := c as int;
    assert n as char == c;
  }

  predicate IsSlash(c: char) {
    c == '/'
  }

  ghost predicate All(p: char -> bool, s: string) {
    forall i :: 0 <= i < |s| ==> p(s[i])
  }

  /** The first index from i on whose character is not a p-character. */
  function Skip(p: char -> bool, s: string, i: nat): (n: nat)
    requires i <= |s|
    ensures i <= n <= |s| && (n == |s| || !p(s[n]))
    ensures forall j :: i <= j < n ==> p(s[j])
    decreases |s| - i
  {
    if i < |s| && p(s[i]) then Skip(p, s, i + 1) else i
  }

  /** The length left when the p-characters ending at n are dropped. */
  function Keep(p: char -> bool, s: string, n: nat): (m: nat)
    requires n <= |s|
    ensures m <= n && (m == 0 || !p(s[m - 1]))
    ensures forall j :: m <= j < n ==> p(s[j])
  {
    if n > 0 && p(s[n - 1]) then Keep(p, s, n - 1) else n
  }

  function TrimLeft(p: char -> bool, s: string): string {
    s[Skip(p, s, 0)..]
  }

  function TrimRight(p: char -> bool, s: string): string {
    s[..Keep(p, s, |s|)]
  }

  /** Any split into a core and a tail of p-characters, with a core not ending in one, is the
      split TrimRight makes. */
  lemma TrimRightUnique(p: char -> bool, core: string, tail: string)
    requires All(p, tail) && (core == [] || !p(core[|core| - 1]))
    ensures TrimRight(p, core + tail) == core
  {
    var s := core + tail;
    var m := Keep(p, s, |s|);
    assert forall j :: |core| <= j < |s| ==> s[j] == tail[j - |core|] && p(s[j]);
    assert core != [] ==> s[|core| - 1] == core[|core| - 1];
    assert m == |core|;
  }

  lemma TrimLeftUnique(p: char -> bool, head: string, core: string)
    requires All(p, head) && (core == [] || !p(core[0]))
    ensures TrimLeft(p, head + core) == core
  {
    var s := head + core;
    assert forall j :: 0 <= j < |head| ==> s[j] == head[j] && p(s[j]);
    assert core != [] ==> s[|head|] == core[0];
    assert Skip(p, s, 0) == |head|;
  }

  function TrimSpace(s: string): string {
    TrimRight(IsSpace, TrimLeft(IsSpace, s))
  }

  function NormalizeUrl(u: string): string {
    TrimRight(IsSlash, TrimSpace(u))
  }

  /** A URL whose first and last characters are neither white space nor, at the end, a slash. */
  predicate Clean(core: string) {
    core != [] && !IsSpace(core[0]) && !IsSpace(core[|core| - 1]) && !IsSlash(core[|core| - 1])
  }

  /** Every decoration of a clean URL with outer white space and trailing slashes addresses the
      same record as the URL itself. */
  lemma DecorationsShareOneKey(core: string, before: string, slashes: string, after: string)
    requires Clean(core) && All(IsSpace, before) && All(IsSlash, slashes) && All(IsSpace, after)
    ensures NormalizeUrl(before + (core + slashes + after)) == core
    ensures NormalizeUrl(core) == core
  {
    NormalizeDecorated(core, before, slashes, after);
    NormalizeDecorated(core, "", "", "");
    assert "" + (core + "" + "") == core;
  }

  lemma NormalizeDecorated(core: string, before: string, slashes: string, after: string)
    requires core != [] && !IsSpace(core[0]) && !IsSlash(core[|core| - 1])
    requires slashes == [] ==> !IsSpace(core[|core| - 1])
    requires All(IsSpace, before) && All(IsSlash, slashes) && All(IsSpace, after)
    ensures NormalizeUrl(before + (core + slashes + after)) == core
  {
    TrimLeftUnique(IsSpace, before, core + slashes + after);
    if slashes != [] {
      assert IsSlash(slashes[|slashes| - 1]);
    }
    TrimRightUnique(IsSpace, core + slashes, after);
    TrimRightUnique(IsSlash, core, slashes);
  }

  /** u is outer white space around a core and its trailing slashes, and the core itself ends in
      white space. */
  ghost predicate SplitsBadly(u: string, before: string, core: string, slashes: string, after: string) {
    && u == before + (core + slashes + after)
    && All(IsSpace, before) && All(IsSlash, slashes) && All(IsSpace, after)
    && slashes != [] && core != [] && !IsSpace(core[0]) && IsSpace(core[|core| - 1])
  }

  /** White space stands directly before the URL's trailing slashes, after some other character. */
  ghost predicate SpaceBeforeSlashes(u: string) {
    exists before, core, slashes, after :: SplitsBadly(u, before, core, slashes, after)
  }

  /** One pass settles a URL exactly when no white space stands before its trailing slashes. */
  lemma IdempotentIff(u: string)
    ensures NormalizeUrl(NormalizeUrl(u)) == NormalizeUrl(u) <==> !SpaceBeforeSlashes(u)
  {
    var before, core, slashes, after := CanonicalSplit(u);
    if core == [] {
      assert NormalizeUrl(core) == core;
    } else if IsSpace(core[|core| - 1]) {
      assert SplitsBadly(u, before, core, slashes, after);
    } else {
      DecorationsShareOneKey(core, "", "", "");
    }
    if SpaceBeforeSlashes(u) {
      var b, c, s, a :| SplitsBadly(u, b, c, s, a);
      BadSplitUnsettles(u, b, c, s, a);
    }
  }

  lemma CanonicalSplit(u: string) returns (before: string, core: string, slashes: string, after: string)
    ensures u == before + (core + slashes + after) && core == NormalizeUrl(u)
    ensures All(IsSpace, before) && All(IsSlash, slashes) && All(IsSpace, after)
    ensures core != [] ==> !IsSpace(core[0]) && !IsSlash(core[|core| - 1])
    ensures slashes == [] && core != [] ==> !IsSpace(core[|core| - 1])
  {
    before, core, slashes, after := SplitBy(IsSpace, IsSlash, u);
  }

  lemma SplitBy(outer: char -> bool, inner: char -> bool, u: string)
    returns (before: string, core: string, tail: string, after: string)
    ensures u == before + (core + tail + after)
    ensures core == TrimRight(inner, TrimRight(outer, TrimLeft(outer, u)))
    ensures All(outer, before) && All(inner, tail) && All(outer, after)
    ensures core != [] ==> !outer(core[0]) && !inner(core[|core| - 1])
    ensures tail == [] && core != [] ==> !outer(core[|core| - 1])
  {
    var l, t;
    l, before := CutLeft(outer, u);
    t, after := CutRight(outer, l);
    core, tail := CutRight(inner, t);
    if core != [] {
      assert core[0] == t[0] == l[0];
    }
  }

  lemma CutLeft(p: char -> bool, s: string) returns (rest: string, head: string)
    ensures rest == TrimLeft(p, s) && s == head + rest && All(p, head) && (rest == [] || !p(rest[0]))
  {
    var n := Skip(p, s, 0);
    rest, head := s[n..], s[..n];
  }

  lemma CutRight(p: char -> bool, s: string) returns (rest: string, tail: string)
    ensures rest == TrimRight(p, s) && s == rest + tail && All(p, tail) && (rest == [] || !p(rest[|rest| - 1]))
  {
    var n := Keep(p, s, |s|);
    rest, tail := s[..n], s[n..];
  }

  lemma BadSplitUnsettles(u: string, before: string, core: string, slashes: string, after: string)
    requires SplitsBadly(u, before, core, slashes, after)
    ensures NormalizeUrl(u) == core && |NormalizeUrl(core)| < |core|
  {
    assert !IsSlash(core[|core| - 1]);
    NormalizeDecorated(core, before, slashes, after);
    TrimmingShrinks(IsSpace, core);
  }

  lemma TrimmingShrinks(p: char -> bool, s: string)
    requires s != [] && p(s[|s| - 1])
    ensures |TrimRight(p, TrimLeft(p, s))| < |s|
  {
  }

  /** The canonicalization is not a projection: this URL changes on a second pass. */
  lemma NormalizeTwiceDiffers()
    ensures NormalizeUrl(NormalizeUrl("http://a /")) != NormalizeUrl("http://a /")
  {
    var core := "http://a ";
    assert core[0] == 'h' && core[|core| - 1] == ' ';
    assert SplitsBadly("http://a /", "", core, "/", "");
    BadSplitUnsettles("http://a /", "", core, "/", "");
  }
}
