/**
 * The array operations the application uses (`filter`, `map`, `join`,
 * `includes` on strings, `endsWith`), given once here with the facts the
 * other modules rely on.
 */
module Seqs {

  /** `s.filter(p)`: the elements of `s` that satisfy `p`, in their original order. */
  function Filter<T>(s: seq<T>, p: T -> bool): (r: seq<T>)
    ensures |r| <= |s|
  {
    if s == [] then [] else (if p(s[0]) then [s[0]] else []) + Filter(s[1..], p)
  }

  /** A filter keeps only elements of its input that pass, and every element that passes. */
  lemma {:induction false} FilterMembers<T>(s: seq<T>, p: T -> bool)
    ensures forall i :: 0 <= i < |Filter(s, p)| ==> Filter(s, p)[i] in s && p(Filter(s, p)[i])
    ensures forall i :: 0 <= i < |s| && p(s[i]) ==> s[i] in Filter(s, p)
  {
    if s != [] {
      FilterMembers(s[1..], p);
      var r := Filter(s, p);
      var rest := Filter(s[1..], p);
      forall i | 0 <= i < |r|
        ensures r[i] in s && p(r[i])
      {
        if p(s[0]) && i == 0 {
        } else {
          var j := if p(s[0]) then i - 1 else i;
          assert r[i] == rest[j];
        }
      }
      forall i | 0 <= i < |s| && p(s[i])
        ensures s[i] in r
      {
        if i > 0 {
          assert s[i] == s[1..][i - 1];
        }
      }
    }
  }

  /** Filtering distributes over concatenation: it keeps the relative order of what it keeps. */
  lemma {:induction false} FilterConcat<T>(a: seq<T>, b: seq<T>, p: T -> bool)
    ensures Filter(a + b, p) == Filter(a, p) + Filter(b, p)
  {
    if a == [] {
      assert a + b == b;
    } else {
      var ab := a + b;
      var h := if p(a[0]) then [a[0]] else [];
      assert ab[0] == a[0] && ab[1..] == a[1..] + b;
      FilterConcat(a[1..], b, p);
      assert Filter(ab, p) == h + (Filter(a[1..], p) + Filter(b, p));
      assert Filter(a, p) == h + Filter(a[1..], p);
    }
  }

  /** Filtering one more element of a prefix appends it when it passes. */
  lemma FilterSnoc<T>(s: seq<T>, i: nat, p: T -> bool)
    requires i < |s|
    ensures Filter(s[..i + 1], p) == Filter(s[..i], p) + (if p(s[i]) then [s[i]] else [])
  {
    assert s[..i + 1] == s[..i] + [s[i]];
    FilterConcat(s[..i], [s[i]], p);
  }

  /** Two tests that agree on every element filter alike. */
  lemma {:induction false} FilterCongruent<T>(s: seq<T>, p: T -> bool, q: T -> bool)
    requires forall i :: 0 <= i < |s| ==> p(s[i]) == q(s[i])
    ensures Filter(s, p) == Filter(s, q)
  {
    if s != [] {
      assert forall i :: 0 <= i < |s[1..]| ==> s[1..][i] == s[i + 1];
      FilterCongruent(s[1..], p, q);
    }
  }

  /** A filter returns its input unchanged exactly when every element passes. */
  lemma {:induction false} FilterIdentity<T>(s: seq<T>, p: T -> bool)
    ensures Filter(s, p) == s <==> forall i :: 0 <= i < |s| ==> p(s[i])
  {
    if s != [] {
      FilterIdentity(s[1..], p);
      if !p(s[0]) {
        FilterShorter(s, p, 0);
      }
    }
  }

  /** A filter that rejects some element is strictly shorter than its input. */
  lemma {:induction false} FilterShorter<T>(s: seq<T>, p: T -> bool, k: nat)
    requires k < |s| && !p(s[k])
    ensures |Filter(s, p)| < |s|
  {
    if k > 0 {
      FilterShorter(s[1..], p, k - 1);
    }
  }

  /** Filtering three elements keeps each that passes, in order. */
  lemma Filter3<T>(a: T, b: T, c: T, p: T -> bool)
    ensures Filter([a, b, c], p) == (if p(a) then [a] else []) + (if p(b) then [b] else []) + (if p(c) then [c] else [])
  {
    assert [a, b, c][1..] == [b, c] && [b, c][1..] == [c] && [c][1..] == [];
    assert Filter([c], p) == (if p(c) then [c] else []) + Filter([], p);
    assert Filter([b, c], p) == (if p(b) then [b] else []) + Filter([c], p);
  }

  /** `s.map(f)`. */
  function Map<A, B>(s: seq<A>, f: A -> B): (r: seq<B>)
    ensures |r| == |s|
    ensures forall i :: 0 <= i < |s| ==> r[i] == f(s[i])
  {
    seq(|s|, i requires 0 <= i < |s| => f(s[i]))
  }

  /** `s.map((x, i) => f(x, i))`: the callback also receives the index. */
  function MapWithIndex<A, B>(s: seq<A>, f: (A, nat) -> B): (r: seq<B>)
    ensures |r| == |s|
    ensures forall i :: 0 <= i < |s| ==> r[i] == f(s[i], i)
  {
    seq(|s|, i requires 0 <= i < |s| => f(s[i], i))
  }

  lemma MapWithIndexSnoc<A, B>(s: seq<A>, f: (A, nat) -> B, i: nat)
    requires i < |s|
    ensures MapWithIndex(s[..i + 1], f) == MapWithIndex(s[..i], f) + [f(s[i], i)]
  {
    assert s[..i + 1][..i] == s[..i];
  }

  lemma MapConcat<A, B>(a: seq<A>, b: seq<A>, f: A -> B)
    ensures Map(a + b, f) == Map(a, f) + Map(b, f)
  {
    assert forall i :: 0 <= i < |a| + |b| ==> Map(a + b, f)[i] == (Map(a, f) + Map(b, f))[i];
  }

  lemma MapSnoc<A, B>(s: seq<A>, x: A, f: A -> B)
    ensures Map(s + [x], f) == Map(s, f) + [f(x)]
  {
    MapConcat(s, [x], f);
  }

  /** Filtering a mapped suffix decides its first element, then filters the rest. */
  lemma FilterMapTail<A, B>(s: seq<A>, from: nat, f: A -> B, p: B -> bool)
    requires from < |s|
    ensures Filter(Map(s[from..], f), p) == (if p(f(s[from])) then [f(s[from])] else []) + Filter(Map(s[from + 1..], f), p)
  {
    var m := Map(s[from..], f);
    assert m[0] == f(s[from]);
    assert m[1..] == Map(s[from + 1..], f);
  }

  /** A map that fixes each of three elements fixes their sequence. */
  lemma MapFixed3<A>(a: A, b: A, c: A, f: A -> A)
    requires f(a) == a && f(b) == b && f(c) == c
    ensures Map([a, b, c], f) == [a, b, c]
  {
  }

  /** `parts.join(sep)`: no separator before the first part or after the last. */
  function Join(parts: seq<string>, sep: string): (r: string)
    ensures |parts| == 1 ==> r == parts[0]
  {
    if |parts| == 0 then ""
    else if |parts| == 1 then parts[0]
    else parts[0] + sep + Join(parts[1..], sep)
  }

  /** The number of occurrences of `c` in `s`. */
  function Count(s: string, c: char): (n: nat)
    ensures n <= |s|
  {
    if s == [] then 0 else (if s[0] == c then 1 else 0) + Count(s[1..], c)
  }

  lemma {:induction false} CountConcat(a: string, b: string, c: char)
    ensures Count(a + b, c) == Count(a, c) + Count(b, c)
  {
    if a == [] {
      assert a + b == b;
    } else {
      assert (a + b)[1..] == a[1..] + b;
      CountConcat(a[1..], b, c);
    }
  }

  /** The occurrences of `c` in all the parts together. */
  function CountAll(parts: seq<string>, c: char): nat
  {
    if parts == [] then 0 else Count(parts[0], c) + CountAll(parts[1..], c)
  }

  /** A separator without `c` adds no `c`: the joined string holds exactly the parts' ones. */
  lemma {:induction false} JoinCount(parts: seq<string>, sep: string, c: char)
    requires |parts| > 0 && Count(sep, c) == 0
    ensures Count(Join(parts, sep), c) == CountAll(parts, c)
  {
    if |parts| > 1 {
      var rest := Join(parts[1..], sep);
      assert Join(parts, sep) == (parts[0] + sep) + rest;
      JoinCount(parts[1..], sep, c);
      CountConcat(parts[0] + sep, rest, c);
      CountConcat(parts[0], sep, c);
    } else {
      assert parts[1..] == [];
    }
  }

  /** Joining with the one-character separator `c` adds exactly `|parts| - 1` of them: a
      separator is never escaped or merged. */
  lemma {:induction false} JoinCountSeparator(parts: seq<string>, c: char)
    requires |parts| > 0
    ensures Count(Join(parts, [c]), c) == CountAll(parts, c) + |parts| - 1
  {
    if |parts| > 1 {
      var rest := Join(parts[1..], [c]);
      assert Join(parts, [c]) == (parts[0] + [c]) + rest;
      JoinCountSeparator(parts[1..], c);
      CountConcat(parts[0] + [c], rest, c);
      CountConcat(parts[0], [c], c);
      assert Count([c], c) == 1;
    } else {
      assert parts[1..] == [];
    }
  }

  /** Parts none of which holds `c` hold no `c` together. */
  lemma {:induction false} CountAllZero(parts: seq<string>, c: char)
    requires forall i :: 0 <= i < |parts| ==> Count(parts[i], c) == 0
    ensures CountAll(parts, c) == 0
  {
    if parts != [] {
      CountAllZero(parts[1..], c);
    }
  }

  lemma Join3(a: string, b: string, c: string, sep: string)
    ensures Join([a, b, c], sep) == a + sep + b + sep + c
  {
    assert [a, b, c][1..] == [b, c] && [b, c][1..] == [c];
  }

  lemma Join4(a: string, b: string, c: string, d: string, sep: string)
    ensures Join([a, b, c, d], sep) == a + sep + b + sep + c + sep + d
  {
    assert [a, b, c, d][1..] == [b, c, d];
    Join3(b, c, d, sep);
  }

  /** A joined string starts with its first part. */
  lemma JoinStartsWith(parts: seq<string>, sep: string)
    requires |parts| > 0
    ensures IsPrefix(parts[0], Join(parts, sep))
  {
    if |parts| > 1 {
      assert Join(parts, sep)[..|parts[0]|] == parts[0];
    }
  }

  /** `s.startsWith(p)`. */
  predicate IsPrefix<T(==)>(p: seq<T>, s: seq<T>)
  {
    |p| <= |s| && s[..|p|] == p
  }

  /** `s.includes(sub)`: `sub` occurs at some position of `s`. */
  predicate Contains<T(==)>(s: seq<T>, sub: seq<T>)
    decreases |s|
  {
    IsPrefix(sub, s) || (|s| > 0 && Contains(s[1..], sub))
  }

  /** `Contains` holds exactly when `sub` occurs at some offset. */
  lemma {:induction false} ContainsAt<T>(s: seq<T>, sub: seq<T>)
    ensures Contains(s, sub) <==> exists k :: 0 <= k <= |s| - |sub| && IsPrefix(sub, s[k..])
    decreases |s|
  {
    if |s| > 0 {
      ContainsAt(s[1..], sub);
      if Contains(s[1..], sub) {
        var k :| 0 <= k <= |s[1..]| - |sub| && IsPrefix(sub, s[1..][k..]);
        assert s[1..][k..] == s[k + 1..];
      } else if IsPrefix(sub, s) {
        assert s[0..] == s;
      }
      if exists k :: 0 <= k <= |s| - |sub| && IsPrefix(sub, s[k..]) {
        var k :| 0 <= k <= |s| - |sub| && IsPrefix(sub, s[k..]);
        if k > 0 {
          assert s[1..][k - 1..] == s[k..];
        }
      }
    } else if sub == [] {
      assert IsPrefix(sub, s[0..]);
    }
  }

  /** `s.endsWith(suffix)`. */
  predicate EndsWith<T(==)>(s: seq<T>, suffix: seq<T>)
  {
    |suffix| <= |s| && s[|s| - |suffix|..] == suffix
  }
}
