/** Value types and sequence helpers shared by every component of the backend. */
module Common {

  /** A value that may be absent (JavaScript `undefined`). */
  datatype Option<+T> = None | Some(value: T)

  /** JavaScript truthiness of an optional string: `undefined` and `""` are falsy. */
  predicate Truthy(s: Option<string>) {
    s.Some? && s.value != ""
  }

  /** `sub` occurs as a contiguous piece of `s`. */
  ghost predicate Contains(s: string, sub: string) {
    exists i, j :: 0 <= i <= j <= |s| && s[i..j] == sub
  }

  /** A piece found at a known offset witnesses `Contains`. */
  lemma ContainsAt(s: string, i: nat, sub: string)
    requires i + |sub| <= |s| && s[i..i + |sub|] == sub
    ensures Contains(s, sub)
  {
    assert s[i..i + |sub|] == sub;
  }

  /**
   * The elements of `s` that satisfy `f`, in their original order
   * (`Array.prototype.filter`).
   */
  function Filter<T(!new)>(s: seq<T>, f: T -> bool): (r: seq<T>)
    ensures |r| <= |s|
    ensures forall x :: x in r <==> x in s && f(x)
  {
    if s == [] then []
    else
      var init, last := s[..|s| - 1], s[|s| - 1];
      assert s == init + [last];
      Filter(init, f) + (if f(last) then [last] else [])
  }

  /** Filtering a sequence extended by one element. */
  lemma FilterSnoc<T(!new)>(s: seq<T>, x: T, f: T -> bool)
    ensures Filter(s + [x], f) == Filter(s, f) + (if f(x) then [x] else [])
  {
    assert (s + [x])[..|s + [x]| - 1] == s;
  }

  /** Filtering distributes over concatenation. */
  lemma {:induction false} FilterAppend<T(!new)>(a: seq<T>, b: seq<T>, f: T -> bool)
    ensures Filter(a + b, f) == Filter(a, f) + Filter(b, f)
    decreases |b|
  {
    if b == [] {
      assert a + b == a;
    } else {
      var init, last := b[..|b| - 1], b[|b| - 1];
      var kept := if f(last) then [last] else [];
      assert b == init + [last];
      calc {
        Filter(a + b, f);
        { assert a + b == (a + init) + [last]; }
        Filter((a + init) + [last], f);
        { FilterSnoc(a + init, last, f); }
        Filter(a + init, f) + kept;
        { FilterAppend(a, init, f); }
        (Filter(a, f) + Filter(init, f)) + kept;
        Filter(a, f) + (Filter(init, f) + kept);
        { FilterSnoc(init, last, f); }
        Filter(a, f) + Filter(b, f);
      }
    }
  }

  /** A sequence with a matching element keeps at least that element. */
  lemma FilterKeeps<T(!new)>(s: seq<T>, f: T -> bool, x: T)
    requires x in s && f(x)
    ensures |Filter(s, f)| >= 1
  {
    assert x in Filter(s, f);
  }

  /** Filtering keeps each matching value exactly as often as it occurs, and no other value. */
  lemma {:induction false} FilterMultiset<T(!new)>(s: seq<T>, f: T -> bool)
    ensures forall x :: multiset(Filter(s, f))[x] == if f(x) then multiset(s)[x] else 0
  {
    if s != [] {
      var init, last := s[..|s| - 1], s[|s| - 1];
      assert s == init + [last];
      FilterMultiset(init, f);
      FilterSnoc(init, last, f);
    }
  }

  /** A sequence without a matching element filters to nothing. */
  lemma {:induction false} FilterNone<T(!new)>(s: seq<T>, f: T -> bool)
    requires forall x :: x in s ==> !f(x)
    ensures Filter(s, f) == []
  {
    if s != [] {
      var init, last := s[..|s| - 1], s[|s| - 1];
      assert s == init + [last];
      assert last in s;
      FilterNone(init, f);
      FilterSnoc(init, last, f);
    }
  }

  /** The positions of `s` whose element satisfies `f`. */
  ghost function Positions<T>(s: seq<T>, f: T -> bool): set<int> {
    set i | 0 <= i < |s| && f(s[i])
  }

  /** The matching positions of a sequence extended by one element. */
  lemma PositionsSnoc<T>(s: seq<T>, x: T, f: T -> bool)
    ensures Positions(s + [x], f) == Positions(s, f) + (if f(x) then {|s|} else {})
  {
    var t := s + [x];
    forall i ensures i in Positions(t, f) <==> i in Positions(s, f) + (if f(x) then {|s|} else {}) {
      if 0 <= i < |s| {
        assert t[i] == s[i];
      }
    }
  }

  /** The length of the filtered sequence is the number of positions whose element matches. */
  lemma {:induction false} FilterCount<T(!new)>(s: seq<T>, f: T -> bool)
    ensures |Filter(s, f)| == |Positions(s, f)|
  {
    if s != [] {
      var init, last := s[..|s| - 1], s[|s| - 1];
      assert s == init + [last];
      FilterCount(init, f);
      FilterSnoc(init, last, f);
      PositionsSnoc(init, last, f);
      assert |init| !in Positions(init, f);
    }
  }

  /** A sequence whose every element matches filters to itself. */
  lemma {:induction false} FilterAll<T(!new)>(s: seq<T>, f: T -> bool)
    requires forall x :: x in s ==> f(x)
    ensures Filter(s, f) == s
  {
    if s != [] {
      var init, last := s[..|s| - 1], s[|s| - 1];
      assert s == init + [last];
      assert last in s;
      FilterAll(init, f);
      FilterSnoc(init, last, f);
    }
  }

  /** The pieces `f` gives for the elements of `s`, concatenated in order. */
  function FlatMap<T, U>(s: seq<T>, f: T -> seq<U>): seq<U> {
    if s == [] then [] else f(s[0]) + FlatMap(s[1..], f)
  }

  /** The pieces of two consecutive sequences follow each other. */
  lemma {:induction false} FlatMapAppend<T, U>(a: seq<T>, b: seq<T>, f: T -> seq<U>)
    ensures FlatMap(a + b, f) == FlatMap(a, f) + FlatMap(b, f)
  {
    if a == [] {
      assert a + b == b;
    } else {
      calc {
        FlatMap(a + b, f);
        { assert (a + b)[0] == a[0] && (a + b)[1..] == a[1..] + b; }
        f(a[0]) + FlatMap(a[1..] + b, f);
        { FlatMapAppend(a[1..], b, f); }
        f(a[0]) + (FlatMap(a[1..], f) + FlatMap(b, f));
        (f(a[0]) + FlatMap(a[1..], f)) + FlatMap(b, f);
        FlatMap(a, f) + FlatMap(b, f);
      }
    }
  }

  /** The pieces of a one-element sequence are that element's piece. */
  lemma FlatMapSingle<T, U>(x: T, f: T -> seq<U>)
    ensures FlatMap([x], f) == f(x)
  {
    assert [x][1..] == [];
  }
}
