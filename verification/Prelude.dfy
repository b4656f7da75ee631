/** Shared vocabulary: bytes, optional values, results, and the iterator adaptors (`position`, `find`, `retain`)
    the source applies to its record vectors. */
module Prelude {

  type byte = x: int | 0 <= x < 256
  type Bytes = seq<byte>

  datatype Option<+T> = None | Some(value: T)

  datatype Result<+T, +E> = Ok(value: T) | Err(error: E)

  /** `iter().position(p)`: the first index satisfying `p`, or the length when there is none. */
  function Position<T>(s: seq<T>, p: T -> bool): (i: nat)
    ensures i <= |s|
    ensures i < |s| ==> p(s[i])
    ensures forall j :: 0 <= j < i ==> !p(s[j])
  {
    if s == [] || p(s[0]) then 0 else 1 + Position(s[1..], p)
  }

  /** `iter().find(p)`. */
  function Find<T(!new)>(s: seq<T>, p: T -> bool): (r: Option<T>)
    ensures r.Some? ==> r.value in s && p(r.value)
    ensures r.None? ==> forall x :: x in s ==> !p(x)
  {
    var i := Position(s, p);
    if i < |s| then Some(s[i]) else None
  }

  /** `retain(p)`. */
  function Filter<T(!new)>(s: seq<T>, p: T -> bool): (r: seq<T>)
    ensures |r| <= |s|
    ensures forall x :: x in r <==> x in s && p(x)
  {
    if s == [] then []
    else
      assert s == [s[0]] + s[1..];
      (if p(s[0]) then [s[0]] else []) + Filter(s[1..], p)
  }

  lemma FilterHead<T(!new)>(s: seq<T>, p: T -> bool)
    requires s != []
    ensures Filter(s, p) == (if p(s[0]) then [s[0]] else []) + Filter(s[1..], p)
  {
  }

  lemma {:induction false} FilterSnoc<T(!new)>(s: seq<T>, x: T, p: T -> bool)
    ensures Filter(s + [x], p) == Filter(s, p) + if p(x) then [x] else []
  {
    hide Filter;
    var kept := if p(x) then [x] else [];
    FilterHead(s + [x], p);
    if s == [] {
      assert s + [x] == [x] && [x][1..] == [];
      FilterEmpty(p);
      assert kept + [] == [] + kept;
    } else {
      var first, rest := (if p(s[0]) then [s[0]] else []), Filter(s[1..], p);
      FilterSnoc(s[1..], x, p);
      FilterHead(s, p);
      assert (s + [x])[0] == s[0] && (s + [x])[1..] == s[1..] + [x];
      assert first + (rest + kept) == (first + rest) + kept;
    }
  }

  lemma FilterEmpty<T(!new)>(p: T -> bool)
    ensures Filter([], p) == []
  {
  }

  /** `x` occurs before `y`. */
  ghost predicate InOrderIn<T>(s: seq<T>, x: T, y: T) {
    exists i, j :: 0 <= i < j < |s| && s[i] == x && s[j] == y
  }

  lemma {:induction false} FilterKeepsOrder<T(!new)>(s: seq<T>, p: T -> bool)
    ensures forall i, j :: 0 <= i < j < |Filter(s, p)| ==> InOrderIn(s, Filter(s, p)[i], Filter(s, p)[j])
  {
    if s == [] {
    } else {
      FilterKeepsOrder(s[1..], p);
      var rest := Filter(s[1..], p);
      forall x, y | InOrderIn(s[1..], x, y) ensures InOrderIn(s, x, y) {
        var i, j :| 0 <= i < j < |s[1..]| && s[1..][i] == x && s[1..][j] == y;
        assert s[i + 1] == x && s[j + 1] == y;
      }
      forall y | y in rest ensures InOrderIn(s, s[0], y) {
        var j :| 0 <= j < |s[1..]| && s[1..][j] == y;
        assert s[j + 1] == y;
      }
    }
  }

  /** `iter_mut()` with a per-element update. */
  function Map<T, U>(s: seq<T>, f: T -> U): (r: seq<U>)
    ensures |r| == |s|
    ensures forall i :: 0 <= i < |s| ==> r[i] == f(s[i])
  {
    seq(|s|, i requires 0 <= i < |s| => f(s[i]))
  }

  /** When at most one element satisfies `p`, `find` returns it. */
  lemma FindUnique<T(!new)>(s: seq<T>, p: T -> bool, x: T)
    requires x in s && p(x)
    requires forall y :: y in s && p(y) ==> y == x
    ensures Find(s, p) == Some(x)
  {
  }

  lemma {:induction false} SubsetSize<T>(a: set<T>, b: set<T>)
    requires a <= b
    ensures |a| <= |b|
  {
    if a != {} {
      var x :| x in a;
      SubsetSize(a - {x}, b - {x});
    }
  }
}
