/** The ordering a loaded provider list is sorted by when priority support is present.
    The comparator itself is represented by an abstract integer priority per provider,
    lower first; the sort is stable, as the platform's list sort is. */
module PrioritySort {

  /** No provider comes after one with a strictly lower priority. */
  ghost predicate Sorted<S>(s: seq<S>, priority: S -> int) {
    forall i, j :: 0 <= i < j < |s| ==> priority(s[i]) <= priority(s[j])
  }

  /** The providers of `s` at priority `level`, in the order of `s`. */
  function AtLevel<S>(s: seq<S>, priority: S -> int, level: int): seq<S> {
    if s == [] then []
    else (if priority(s[0]) == level then [s[0]] else []) + AtLevel(s[1..], priority, level)
  }

  /** Puts `x` into `s` before the first element whose priority is not lower than its own. */
  function Insert<S>(x: S, s: seq<S>, priority: S -> int): seq<S> {
    if s == [] then [x]
    else if priority(x) <= priority(s[0]) then [x] + s
    else [s[0]] + Insert(x, s[1..], priority)
  }

  /** The list sort with the priority comparator. */
  function SortByPriority<S>(s: seq<S>, priority: S -> int): (r: seq<S>)
    ensures multiset(r) == multiset(s)
  {
    if s == [] then []
    else
      var rest := SortByPriority(s[1..], priority);
      InsertPermutes(s[0], rest, priority);
      assert s == [s[0]] + s[1..];
      Insert(s[0], rest, priority)
  }

  lemma {:induction false} InsertPermutes<S>(x: S, s: seq<S>, priority: S -> int)
    ensures multiset(Insert(x, s, priority)) == multiset(s) + multiset{x}
  {
    if s != [] && priority(x) > priority(s[0]) {
      InsertPermutes(x, s[1..], priority);
      assert s == [s[0]] + s[1..];
    }
  }

  lemma {:induction false} InsertSorted<S>(x: S, s: seq<S>, priority: S -> int)
    requires Sorted(s, priority)
    ensures Sorted(Insert(x, s, priority), priority)
  {
    if s != [] && priority(x) > priority(s[0]) {
      var rest := Insert(x, s[1..], priority);
      InsertSorted(x, s[1..], priority);
      InsertPermutes(x, s[1..], priority);
      forall k | 0 <= k < |rest| ensures priority(s[0]) <= priority(rest[k]) {
        assert rest[k] in multiset(rest);
        assert rest[k] == x || rest[k] in multiset(s[1..]);
      }
    }
  }

  lemma SortedTail<S>(s: seq<S>, priority: S -> int)
    requires s != [] && Sorted(s, priority)
    ensures Sorted(s[1..], priority)
  {
    var tail := s[1..];
    forall i, j | 0 <= i < j < |tail| ensures priority(tail[i]) <= priority(tail[j]) {
      assert tail[i] == s[i + 1] && tail[j] == s[j + 1];
    }
  }

  lemma AtLevelCons<S>(x: S, s: seq<S>, priority: S -> int, level: int)
    ensures AtLevel([x] + s, priority, level) == (if priority(x) == level then [x] else []) + AtLevel(s, priority, level)
  {
    assert ([x] + s)[0] == x && ([x] + s)[1..] == s;
  }

  lemma {:induction false} InsertStable<S>(x: S, s: seq<S>, priority: S -> int, level: int)
    requires Sorted(s, priority)
    ensures AtLevel(Insert(x, s, priority), priority, level)
         == (if priority(x) == level then [x] else []) + AtLevel(s, priority, level)
  {
    if s == [] {
      AtLevelCons(x, s, priority, level);
    } else if priority(x) <= priority(s[0]) {
      AtLevelCons(x, s, priority, level);
    } else {
      SortedTail(s, priority);
      InsertStable(x, s[1..], priority, level);
      InsertStableAfterHead(x, s, priority, level);
    }
  }

  /** One step of `InsertStable`: when `x` goes past the head of `s`, the head keeps its
      place in front of `x` and of the rest of its level. */
  lemma InsertStableAfterHead<S>(x: S, s: seq<S>, priority: S -> int, level: int)
    requires s != [] && priority(s[0]) < priority(x)
    requires AtLevel(Insert(x, s[1..], priority), priority, level)
          == (if priority(x) == level then [x] else []) + AtLevel(s[1..], priority, level)
    ensures AtLevel(Insert(x, s, priority), priority, level)
         == (if priority(x) == level then [x] else []) + AtLevel(s, priority, level)
  {
    var tail := s[1..];
    var xs := if priority(x) == level then [x] else [];
    var hs := if priority(s[0]) == level then [s[0]] else [];
    var rest := AtLevel(tail, priority, level);
    calc {
      AtLevel(Insert(x, s, priority), priority, level);
      AtLevel([s[0]] + Insert(x, tail, priority), priority, level);
      { AtLevelCons(s[0], Insert(x, tail, priority), priority, level); }
      hs + (xs + rest);
      { if hs != [] { assert xs == []; } }
      xs + (hs + rest);
      { AtLevelCons(s[0], tail, priority, level); assert [s[0]] + tail == s; }
      xs + AtLevel(s, priority, level);
    }
  }

  /** Sorting yields a sorted permutation of its input in which providers of equal
      priority keep their relative order. */
  lemma {:induction false} SortByPriorityCorrect<S>(s: seq<S>, priority: S -> int)
    ensures Sorted(SortByPriority(s, priority), priority)
    ensures multiset(SortByPriority(s, priority)) == multiset(s)
    ensures forall level :: AtLevel(SortByPriority(s, priority), priority, level) == AtLevel(s, priority, level)
  {
    if s != [] {
      var rest := SortByPriority(s[1..], priority);
      SortByPriorityCorrect(s[1..], priority);
      InsertSorted(s[0], rest, priority);
      InsertPermutes(s[0], rest, priority);
      assert s == [s[0]] + s[1..];
      forall level ensures AtLevel(Insert(s[0], rest, priority), priority, level) == AtLevel(s, priority, level) {
        InsertStable(s[0], rest, priority, level);
      }
    }
  }
}
