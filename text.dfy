/**
 * String and list helpers shared by the conversation and onboarding
 * modules: Python slicing (`s[:n]`), `sep.join(parts)`, substring tests
 * (`w in s`), ASCII lower-casing and `list(set(xs))`.
 */
module Text {
  import opened Numeric

  /** `s[:n]`: the first `n` elements, or all of them when there are fewer. */
  function Take<T>(s: seq<T>, n: nat): (r: seq<T>)
    ensures |r| == Min(|s| as real, n as real) as int
    ensures |r| <= n && r == s[..|r|]
    ensures |s| <= n ==> r == s
  {
    if |s| <= n then s else s[..n]
  }

  /** `sep.join(parts)`. */
  function Join(parts: seq<string>, sep: string): string
  {
    if |parts| == 0 then ""
    else if |parts| == 1 then parts[0]
    else Join(parts[..|parts| - 1], sep) + sep + parts[|parts| - 1]
  }

  /** Joining puts the parts in order with one separator between neighbours. */
  lemma {:induction false} JoinFirst(first: string, rest: seq<string>, sep: string)
    requires |rest| > 0
    ensures Join([first] + rest, sep) == first + sep + Join(rest, sep)
    decreases |rest|
  {
    var all := [first] + rest;
    if |rest| == 1 {
      assert all[..|all| - 1] == [first];
    } else {
      assert all[..|all| - 1] == [first] + rest[..|rest| - 1];
      JoinFirst(first, rest[..|rest| - 1], sep);
    }
  }

  /** `w in s` for strings: `w` occurs somewhere in `s`. */
  predicate Contains(s: string, w: string)
  {
    exists i :: 0 <= i <= |s| - |w| && OccursAt(s, w, i)
  }

  /** `w` occurs in `s` starting at index `i`. */
  predicate OccursAt(s: string, w: string, i: int)
  {
    0 <= i <= |s| - |w| && s[i..i + |w|] == w
  }

  /** Any of the words occurs in `s`. */
  predicate ContainsAny(s: string, words: seq<string>)
  {
    exists k :: 0 <= k < |words| && Contains(s, words[k])
  }

  /** ASCII lower-casing, the part of `str.lower` the keyword lists need. */
  function LowerChar(c: char): (d: char)
    ensures 'A' <= c <= 'Z' ==> 'a' <= d <= 'z'
    ensures !('A' <= c <= 'Z') ==> d == c
  {
    if 'A' <= c <= 'Z' then (c as int - 'A' as int + 'a' as int) as char else c
  }

  function Lower(s: string): (r: string)
    ensures |r| == |s| && forall i :: 0 <= i < |s| ==> r[i] == LowerChar(s[i])
  {
    seq(|s|, i requires 0 <= i < |s| => LowerChar(s[i]))
  }

  predicate Distinct<T(==)>(xs: seq<T>)
  {
    forall i, j :: 0 <= i < j < |xs| ==> xs[i] != xs[j]
  }

  function Elements<T>(xs: seq<T>): set<T>
  {
    set x | x in xs
  }

  /**
   * `list(set(xs))`: the elements of `xs` once each. Python leaves the
   * order unspecified; this one keeps first occurrences.
   */
  function Dedup<T(==)>(xs: seq<T>): (r: seq<T>)
    ensures Distinct(r) && Elements(r) == Elements(xs) && |r| <= |xs|
  {
    if |xs| == 0 then []
    else
      var r := Dedup(xs[..|xs| - 1]);
      var x := xs[|xs| - 1];
      assert xs == xs[..|xs| - 1] + [x];
      assert Elements(xs) == Elements(xs[..|xs| - 1]) + {x};
      if x in r then r else r + [x]
  }

  /** A list without repeats has as many elements as its set. */
  lemma {:induction false} DistinctCard<T>(xs: seq<T>)
    requires Distinct(xs)
    ensures |Elements(xs)| == |xs|
  {
    if |xs| > 0 {
      var init := xs[..|xs| - 1];
      var x := xs[|xs| - 1];
      assert Distinct(init);
      DistinctCard(init);
      assert x !in init;
      assert Elements(xs) == Elements(init) + {x};
    }
  }

  /** `list(set(xs))` is exactly as long as the number of distinct elements. */
  lemma DedupCard<T>(xs: seq<T>)
    ensures |Dedup(xs)| == |Elements(xs)|
  {
    DistinctCard(Dedup(xs));
  }

  /** A prefix of a list without repeats has none either. */
  lemma TakeDistinct<T>(xs: seq<T>, n: nat)
    requires Distinct(xs)
    ensures Distinct(Take(xs, n)) && Elements(Take(xs, n)) <= Elements(xs)
  {
  }
}
