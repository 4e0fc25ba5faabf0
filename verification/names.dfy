/** Metric names: the sanitised container name, i.e. `strings.Replace(name,
    "/", "", 1)`, and the two keys built from it. */
module Names {

  /** Go's strings.Index for a single character: the position of the first
      occurrence of `c` in `s`, or -1 when there is none. */
  function IndexOf(s: string, c: char): int
  {
    if s == [] then -1
    else if s[0] == c then 0
    else
      var j := IndexOf(s[1..], c);
      if j == -1 then -1 else j + 1
  }

  /** IndexOf finds the first occurrence: -1 exactly when `c` is absent, and
      otherwise a position holding `c` with no `c` before it. */
  lemma {:induction false} IndexOfSpec(s: string, c: char)
    ensures IndexOf(s, c) == -1 <==> c !in s
    ensures IndexOf(s, c) != -1 ==>
              0 <= IndexOf(s, c) < |s| && s[IndexOf(s, c)] == c && c !in s[..IndexOf(s, c)]
  {
    if s != [] && s[0] != c {
      IndexOfSpec(s[1..], c);
      var j := IndexOf(s[1..], c);
      if j != -1 {
        assert s[..j + 1] == [s[0]] + s[1..][..j];
      }
    }
  }

  /** A position holding `c` with no `c` before it is the one IndexOf finds. */
  lemma {:induction false} IndexOfFirst(s: string, c: char, k: int)
    requires 0 <= k < |s| && s[k] == c && c !in s[..k]
    ensures IndexOf(s, c) == k
  {
    if k > 0 {
      assert s[..k] == [s[0]] + s[1..][..k - 1];
      IndexOfFirst(s[1..], c, k - 1);
    }
  }

  /** `strings.Replace(name, "/", "", 1)`: find the first '/' wherever it is
      (not only a leading one) and splice it out; a name without one is
      returned unchanged. */
  function Sanitize(name: string): string
  {
    IndexOfSpec(name, '/');
    var i := IndexOf(name, '/');
    if i == -1 then name else name[..i] + name[i + 1..]
  }

  /** A name with a '/' comes out one character shorter; one without comes
      out as it went in. */
  lemma SanitizeLength(name: string)
    ensures '/' !in name ==> Sanitize(name) == name
    ensures |Sanitize(name)| == if '/' in name then |name| - 1 else |name|
  {
    IndexOfSpec(name, '/');
  }

  /** What goes is exactly one '/': the characters that remain are the
      name's characters less one '/'. */
  lemma SanitizeRemovesOneSlash(name: string)
    requires '/' in name
    ensures multiset(Sanitize(name)) + multiset{'/'} == multiset(name)
  {
    IndexOfSpec(name, '/');
    var i := IndexOf(name, '/');
    SpliceMultiset(name, i);
  }

  /** Cutting one position out of a sequence removes exactly that element. */
  lemma SpliceMultiset(s: string, i: int)
    requires 0 <= i < |s|
    ensures multiset(s[..i] + s[i + 1..]) + multiset{s[i]} == multiset(s)
  {
    var before, rest, after := s[..i], s[i..], s[i + 1..];
    assert s == before + rest && rest == [s[i]] + after;
    assert multiset(s) == multiset(before) + multiset(rest);
  }

  /** Only the first '/' goes: every later one survives, and the
      characters before the first are untouched. */
  lemma SanitizeKeepsLaterSlashes(s: string, t: string)
    requires '/' !in s
    ensures Sanitize(s + "/" + t) == s + t
  {
    var name := s + "/" + t;
    assert name[..|s|] == s && name[|s|] == '/';
    IndexOfFirst(name, '/', |s|);
    assert name[|s| + 1..] == t;
  }

  /** The conventional leading '/' of a Docker name is what goes:
      "/web" becomes "web". */
  lemma SanitizeLeadingSlash(s: string)
    ensures Sanitize("/" + s) == s
  {
    SanitizeKeepsLaterSlashes("", s);
  }

  /** The key for a container's memory figure. */
  function MemoryKey(name: string): string
  {
    "memory." + name + ".Usage"
  }

  /** The key for a container's CPU figure. */
  function CpuKey(name: string): string
  {
    "cpu." + name + ".Usage"
  }

  /** Distinct names give distinct keys, and no memory key is a CPU key, so
      two keys collide only when the sanitised names do. */
  lemma KeysDistinguishNames(a: string, b: string)
    ensures MemoryKey(a) == MemoryKey(b) <==> a == b
    ensures CpuKey(a) == CpuKey(b) <==> a == b
    ensures MemoryKey(a) != CpuKey(b)
  {
    var ma, mb, ca, cb := MemoryKey(a), MemoryKey(b), CpuKey(a), CpuKey(b);
    assert ma[7..|ma| - 6] == a && mb[7..|mb| - 6] == b;
    assert ca[4..|ca| - 6] == a && cb[4..|cb| - 6] == b;
    assert ma[0] == 'm' && cb[0] == 'c';
  }
}
