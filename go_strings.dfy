/**
 * The pieces of Go's `strings` and `path` packages that the explorer and the
 * configuration watcher rely on: `strings.Contains`, the first element of
 * `strings.Split`, `path.Base` and `path.Join`. Each executable definition is paired with
 * a lemma or contract that characterises it independently.
 */
module GoStrings {

  /** `sub` occurs in `s` starting at index `i`. */
  predicate OccursAt(s: string, sub: string, i: int) {
    0 <= i && i + |sub| <= |s| && s[i..i + |sub|] == sub
  }

  /** `strings.Contains(s, sub)`: the empty string is contained in every string. */
  function Contains(s: string, sub: string): bool
    decreases |s|
  {
    (|sub| <= |s| && s[..|sub|] == sub) || (|s| > 0 && Contains(s[1..], sub))
  }

  lemma OccursShift(s: string, sub: string, i: int)
    requires |s| > 0 && i >= 1
    ensures OccursAt(s, sub, i) <==> OccursAt(s[1..], sub, i - 1)
  {
    if i + |sub| <= |s| {
      assert s[1..][i - 1..i - 1 + |sub|] == s[i..i + |sub|];
    }
  }

  /** `Contains` agrees with the index-based definition of a substring occurrence. */
  lemma {:induction false} ContainsIffOccurs(s: string, sub: string)
    ensures Contains(s, sub) <==> exists i :: OccursAt(s, sub, i)
    decreases |s|
  {
    if |sub| <= |s| && s[..|sub|] == sub {
      assert OccursAt(s, sub, 0);
    } else if |s| > 0 {
      ContainsIffOccurs(s[1..], sub);
      if Contains(s[1..], sub) {
        var i :| OccursAt(s[1..], sub, i);
        OccursShift(s, sub, i + 1);
      } else {
        forall i ensures !OccursAt(s, sub, i) {
          if i >= 1 {
            OccursShift(s, sub, i);
          }
        }
      }
    } else {
      forall i ensures !OccursAt(s, sub, i) {
      }
    }
  }

  /** A one-character string is contained exactly when that character is. */
  lemma ContainsChar(s: string, c: char)
    ensures Contains(s, [c]) <==> c in s
  {
    ContainsIffOccurs(s, [c]);
    if c in s {
      var i :| 0 <= i < |s| && s[i] == c;
      assert s[i..i + 1] == [c];
      assert OccursAt(s, [c], i);
    }
    if exists i :: OccursAt(s, [c], i) {
      var i :| OccursAt(s, [c], i);
      assert s[i] == s[i..i + 1][0];
    }
  }

  /** A string is contained in any string built around it. */
  lemma ContainsInfix(a: string, sub: string, b: string)
    ensures Contains(a + sub + b, sub)
  {
    var s := a + sub + b;
    assert s[|a|..|a| + |sub|] == sub;
    assert OccursAt(s, sub, |a|);
    ContainsIffOccurs(s, sub);
  }

  /**
   * `strings.Split(s, string(c))[0]`: the longest prefix of `s` that does not
   * contain `c`. The contract determines the result uniquely.
   */
  function BeforeFirst(s: string, c: char): (r: string)
    ensures |r| <= |s| && r == s[..|r|]
    ensures c !in r
    ensures |r| < |s| ==> s[|r|] == c
  {
    if s == [] then []
    else if s[0] == c then []
    else [s[0]] + BeforeFirst(s[1..], c)
  }

  /** The prefix stops short of the whole string exactly when `c` occurs. */
  lemma BeforeFirstShort(s: string, c: char)
    ensures |BeforeFirst(s, c)| < |s| <==> c in s
  {
    var r := BeforeFirst(s, c);
    if |r| == |s| {
      assert r == s;
    }
  }

  /** Splitting `p + [c] + q` at the first `c` gives `p` when `p` has no `c`. */
  lemma BeforeFirstOfJoined(p: string, c: char, q: string)
    requires c !in p
    ensures BeforeFirst(p + [c] + q, c) == p
  {
    var s := p + [c] + q;
    var r := BeforeFirst(s, c);
    assert forall i :: 0 <= i < |r| ==> s[i] == r[i];
    assert forall i :: 0 <= i < |p| ==> s[i] == p[i];
    assert s[|p|] == c;
    assert |r| == |p|;
    assert r == s[..|p|] == p;
  }

  /** Drops every trailing '/'. */
  function StripTrailingSlashes(p: string): (r: string)
    ensures |r| <= |p| && r == p[..|r|]
    ensures r == [] || r[|r| - 1] != '/'
    ensures forall i :: |r| <= i < |p| ==> p[i] == '/'
  {
    if p != [] && p[|p| - 1] == '/' then StripTrailingSlashes(p[..|p| - 1]) else p
  }

  /** The part of `p` after its last '/', or all of `p` when it has none. */
  function AfterLastSlash(p: string): (r: string)
    ensures |r| <= |p| && r == p[|p| - |r|..]
    ensures '/' !in r
    ensures |r| < |p| ==> p[|p| - |r| - 1] == '/'
  {
    if p == [] then []
    else if p[|p| - 1] == '/' then []
    else AfterLastSlash(p[..|p| - 1]) + [p[|p| - 1]]
  }

  /**
   * `path.Base`: "." for the empty path, "/" for a path made only of slashes,
   * otherwise the last element after trailing slashes are removed.
   */
  function Base(path: string): (r: string)
    ensures r != []
    ensures r == "/" || '/' !in r
  {
    if path == [] then "."
    else
      var last := AfterLastSlash(StripTrailingSlashes(path));
      if last == [] then "/" else last
  }

  /** The last element of a path that ends in a plain name is that name. */
  lemma {:induction false} AfterLastSlashOfName(a: string, b: string)
    requires '/' !in b
    requires a == [] || a[|a| - 1] == '/'
    ensures AfterLastSlash(a + b) == b
    decreases |b|
  {
    if b != [] {
      var b' := b[..|b| - 1];
      assert (a + b)[..|a + b| - 1] == a + b';
      AfterLastSlashOfName(a, b');
      assert b' + [b[|b| - 1]] == b;
    } else {
      assert a + b == a;
    }
  }

  /** The base of `dir/name` is `name` for a plain, non-empty file name. */
  lemma BaseOfJoined(dir: string, name: string)
    requires name != [] && '/' !in name
    ensures Base(dir + "/" + name) == name
  {
    var p := dir + "/" + name;
    assert p[|p| - 1] == name[|name| - 1];
    assert StripTrailingSlashes(p) == p;
    AfterLastSlashOfName(dir + "/", name);
    assert p == (dir + "/") + name;
  }

  /** The base of a plain, non-empty file name is the name itself. */
  lemma BaseOfName(name: string)
    requires name != [] && '/' !in name
    ensures Base(name) == name
  {
    assert StripTrailingSlashes(name) == name;
    AfterLastSlashOfName([], name);
    assert [] + name == name;
  }

  /**
   * `path.Join` of a directory and a file name: empty elements are dropped
   * and the rest joined by '/'. The lexical clean-up `path.Join` applies
   * afterwards is not modelled.
   */
  function Join(dir: string, name: string): (r: string)
    ensures dir == [] ==> r == name
    ensures dir != [] && name != [] ==> r == dir + "/" + name
  {
    if dir == [] then name
    else if name == [] then dir
    else dir + "/" + name
  }

  /** Joining a plain file name onto any directory and taking the base gives the name back. */
  lemma BaseOfJoin(dir: string, name: string)
    requires name != [] && '/' !in name
    ensures Base(Join(dir, name)) == name
  {
    if dir == [] {
      BaseOfName(name);
    } else {
      BaseOfJoined(dir, name);
    }
  }
}
