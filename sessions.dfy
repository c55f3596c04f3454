/**
 * Facts about the per-channel session lists kept by the battle and trade cogs.
 *
 * Both cogs look a session up by scanning a channel's list, collect the stale
 * sessions they pass in a `to_remove` list, and then call `list.remove(x)` (drop the
 * first element equal to `x`) once per collected session. The lemmas here show that,
 * on a list without repeated sessions, this leaves exactly the scanned prefix without
 * its stale sessions, followed by the unscanned rest.
 */
module Sessions {

  /** No element occurs twice. */
  predicate NoDup<T(==)>(s: seq<T>)
  {
    forall i, j :: 0 <= i < j < |s| ==> s[i] != s[j]
  }

  /** The set of elements of `s`. */
  function Elems<T>(s: seq<T>): set<T>
  {
    set x | x in s
  }

  /** The elements of `s` that are not in `r`, in their original order. */
  function Without<T(==)>(s: seq<T>, r: set<T>): (t: seq<T>)
    ensures |t| <= |s|
  {
    if s == [] then []
    else
      var last := s[|s| - 1];
      Without(s[..|s| - 1], r) + (if last in r then [] else [last])
  }

  /** The elements of `s` that are in `r`, in their original order. */
  function Select<T(==)>(s: seq<T>, r: set<T>): (t: seq<T>)
    ensures |t| <= |s|
  {
    if s == [] then []
    else
      var last := s[|s| - 1];
      Select(s[..|s| - 1], r) + (if last in r then [last] else [])
  }

  /** Python's `list.remove(x)`: drop the first element equal to `x` (the model has no
      error case because it is only applied to elements known to be present). */
  function RemoveFirst<T(==)>(s: seq<T>, x: T): (t: seq<T>)
    ensures x in s ==> |t| == |s| - 1
    ensures x !in s ==> t == s
  {
    if s == [] then []
    else if s[0] == x then s[1..]
    else [s[0]] + RemoveFirst(s[1..], x)
  }

  /**
   * `list.remove(x)` cuts the list at the first occurrence of `x`: with `i` that index,
   * the result is everything before it followed by everything after it, in order.
   */
  lemma {:induction false} RemoveFirstCuts<T>(s: seq<T>, x: T, i: nat)
    requires i < |s| && s[i] == x && x !in s[..i]
    ensures RemoveFirst(s, x) == s[..i] + s[i + 1..]
    decreases i
  {
    if i > 0 {
      assert s[0] in s[..i];
      assert s[1..][..i - 1] == s[1..i];
      RemoveFirstCuts(s[1..], x, i - 1);
      assert s[..i] == [s[0]] + s[1..i];
    }
  }

  lemma {:induction false} WithoutMember<T>(s: seq<T>, r: set<T>, x: T)
    ensures x in Without(s, r) <==> x in s && x !in r
  {
    if s != [] {
      WithoutMember(s[..|s| - 1], r, x);
      assert s == s[..|s| - 1] + [s[|s| - 1]];
    }
  }

  lemma {:induction false} SelectMember<T>(s: seq<T>, r: set<T>, x: T)
    ensures x in Select(s, r) <==> x in s && x in r
  {
    if s != [] {
      SelectMember(s[..|s| - 1], r, x);
      assert s == s[..|s| - 1] + [s[|s| - 1]];
    }
  }

  lemma WithoutAppend<T>(s: seq<T>, x: T, r: set<T>)
    ensures Without(s + [x], r) == Without(s, r) + (if x in r then [] else [x])
  {
    assert (s + [x])[..|s|] == s;
  }

  lemma SelectAppend<T>(s: seq<T>, x: T, r: set<T>)
    ensures Select(s + [x], r) == Select(s, r) + (if x in r then [x] else [])
  {
    assert (s + [x])[..|s|] == s;
  }

  lemma NoDupAppend<T>(a: seq<T>, b: seq<T>)
    ensures NoDup(a + b) <==> NoDup(a) && NoDup(b) && Elems(a) !! Elems(b)
  {
    if NoDup(a + b) {
      forall i, j | 0 <= i < j < |a| ensures a[i] != a[j] {
        assert a[i] == (a + b)[i] && a[j] == (a + b)[j];
      }
      forall i, j | 0 <= i < j < |b| ensures b[i] != b[j] {
        assert b[i] == (a + b)[|a| + i] && b[j] == (a + b)[|a| + j];
      }
      forall i, j | 0 <= i < |a| && 0 <= j < |b| ensures a[i] != b[j] {
        assert a[i] == (a + b)[i] && b[j] == (a + b)[|a| + j];
      }
    }
    if NoDup(a) && NoDup(b) && Elems(a) !! Elems(b) {
      forall i, j | 0 <= i < j < |a + b| ensures (a + b)[i] != (a + b)[j] {
        if j < |a| {
          assert (a + b)[i] == a[i] && (a + b)[j] == a[j];
        } else if i >= |a| {
          assert (a + b)[i] == b[i - |a|] && (a + b)[j] == b[j - |a|];
        } else {
          assert (a + b)[i] == a[i] && a[i] in Elems(a);
          assert (a + b)[j] == b[j - |a|] && b[j - |a|] in Elems(b);
        }
      }
    }
  }

  lemma {:induction false} NoDupWithout<T>(s: seq<T>, r: set<T>)
    requires NoDup(s)
    ensures NoDup(Without(s, r))
  {
    if s != [] {
      var s', last := s[..|s| - 1], s[|s| - 1];
      assert s == s' + [last];
      NoDupAppend(s', [last]);
      NoDupWithout(s', r);
      assert last !in s' by { assert last in Elems([last]); }
      WithoutMember(s', r, last);
      NoDupAppend(Without(s', r), if last in r then [] else [last]);
    }
  }

  lemma {:induction false} NoDupSelect<T>(s: seq<T>, r: set<T>)
    requires NoDup(s)
    ensures NoDup(Select(s, r))
  {
    if s != [] {
      var s', last := s[..|s| - 1], s[|s| - 1];
      assert s == s' + [last];
      NoDupAppend(s', [last]);
      NoDupSelect(s', r);
      assert last !in s' by { assert last in Elems([last]); }
      SelectMember(s', r, last);
      NoDupAppend(Select(s', r), if last in r then [last] else []);
    }
  }

  /** Removing an element of the front part of a list leaves the back part alone. */
  lemma {:induction false} RemoveFirstFront<T>(a: seq<T>, b: seq<T>, x: T)
    requires x in a
    ensures RemoveFirst(a + b, x) == RemoveFirst(a, x) + b
  {
    if a[0] != x {
      assert (a + b)[1..] == a[1..] + b;
      RemoveFirstFront(a[1..], b, x);
    } else {
      assert (a + b)[1..] == a[1..] + b;
    }
  }

  /** On a list without repeats, `remove(x)` drops every `x`. */
  lemma {:induction false} RemoveFirstNoDup<T>(s: seq<T>, r: set<T>, x: T)
    requires NoDup(s) && x !in r
    ensures RemoveFirst(Without(s, r), x) == Without(s, r + {x})
  {
    if s != [] {
      var s', last := s[..|s| - 1], s[|s| - 1];
      assert s == s' + [last];
      NoDupAppend(s', [last]);
      RemoveFirstNoDup(s', r, x);
      var w := Without(s', r);
      WithoutAppend(s', last, r);
      WithoutAppend(s', last, r + {x});
      WithoutMember(s', r, x);
      assert last !in s' by { assert last in Elems([last]); }
      if last in r {
        assert Without(s, r) == w;
      } else if last == x {
        assert x !in s';
        WithoutSameOn(s', r, r + {x});
        RemoveFirstTail(w, x);
      } else if x in w {
        RemoveFirstFront(w, [last], x);
      } else {
        assert x !in w + [last];
      }
    }
  }

  lemma {:induction false} RemoveFirstTail<T>(w: seq<T>, x: T)
    requires x !in w
    ensures RemoveFirst(w + [x], x) == w
  {
    if w != [] {
      assert (w + [x])[1..] == w[1..] + [x];
      RemoveFirstTail(w[1..], x);
    }
  }

  /** One step of the `for battle in to_remove: list.remove(battle)` loop. */
  lemma RemoveStep<T>(front: seq<T>, back: seq<T>, done: set<T>, x: T)
    requires NoDup(front) && x !in done && x in front
    ensures RemoveFirst(Without(front, done) + back, x) == Without(front, done + {x}) + back
  {
    WithoutMember(front, done, x);
    RemoveFirstFront(Without(front, done), back, x);
    RemoveFirstNoDup(front, done, x);
  }

  /** `Without` only looks at the elements the list holds. */
  lemma {:induction false} WithoutSameOn<T>(s: seq<T>, r1: set<T>, r2: set<T>)
    requires forall x :: x in s ==> (x in r1 <==> x in r2)
    ensures Without(s, r1) == Without(s, r2)
  {
    if s != [] {
      WithoutSameOn(s[..|s| - 1], r1, r2);
    }
  }

  /**
   * The removal loop as a whole: removing, one by one, the elements of `front` that lie in
   * `stale` (in their order in `front`) from `front + back` yields the live part of
   * `front` followed by `back`.
   */
  lemma RemoveAllStale<T>(front: seq<T>, back: seq<T>, stale: set<T>)
    requires NoDup(front + back)
    ensures RemoveEach(front + back, Select(front, stale)) == Without(front, stale) + back
  {
    NoDupAppend(front, back);
    var rs := Select(front, stale);
    NoDupSelect(front, stale);
    var j := 0;
    var cur := front + back;
    assert Elems(rs[..0]) == {};
    WithoutNothing(front);
    while j < |rs|
      invariant 0 <= j <= |rs|
      invariant cur == Without(front, Elems(rs[..j])) + back
      invariant RemoveEach(front + back, rs[..j]) == cur
    {
      var x := rs[j];
      SelectMember(front, stale, x);
      NextRemoval(rs, j);
      RemoveStep(front, back, Elems(rs[..j]), x);
      cur := RemoveFirst(cur, x);
      j := j + 1;
    }
    assert rs[..|rs|] == rs;
    WithoutSelected(front, stale);
  }

  lemma WithoutSelected<T>(s: seq<T>, r: set<T>)
    ensures Without(s, Elems(Select(s, r))) == Without(s, r)
  {
    forall x | x in s ensures x in Elems(Select(s, r)) <==> x in r {
      SelectMember(s, r, x);
    }
    WithoutSameOn(s, Elems(Select(s, r)), r);
  }

  lemma NextRemoval<T>(rs: seq<T>, j: nat)
    requires NoDup(rs) && j < |rs|
    ensures rs[j] !in Elems(rs[..j])
    ensures Elems(rs[..j + 1]) == Elems(rs[..j]) + {rs[j]}
    ensures rs[..j + 1][..j] == rs[..j]
  {
    assert rs[..j + 1] == rs[..j] + [rs[j]];
    assert forall i :: 0 <= i < j ==> rs[..j][i] == rs[i] != rs[j];
  }

  lemma {:induction false} WithoutNothing<T>(s: seq<T>)
    ensures Without(s, {}) == s
  {
    if s != [] {
      WithoutNothing(s[..|s| - 1]);
      assert s == s[..|s| - 1] + [s[|s| - 1]];
    }
  }

  /**
   * What the pruned list holds: the elements of `front` outside `r`, and all of `back`;
   * it still has no repeats.
   */
  lemma PrunedList<T>(front: seq<T>, back: seq<T>, r: set<T>)
    requires NoDup(front + back)
    ensures NoDup(Without(front, r) + back)
    ensures forall x :: x in Without(front, r) + back <==> (x in front && x !in r) || x in back
  {
    NoDupAppend(front, back);
    NoDupWithout(front, r);
    forall x ensures x in Without(front, r) <==> x in front && x !in r {
      WithoutMember(front, r, x);
    }
    assert Elems(Without(front, r)) !! Elems(back) by {
      forall x | x in Elems(Without(front, r)) ensures x !in Elems(back) {
        assert x in Elems(front);
      }
    }
    NoDupAppend(Without(front, r), back);
  }

  /*
   * The lookup. `stale` holds the sessions the scan skips and collects, `mine` the
   * sessions that involve the user being looked up; only membership of the list's own
   * elements in these sets matters (`SameOn`).
   */

  /** The list holds a session that is not stale and involves the user. */
  predicate HasLive<T(==)>(s: seq<T>, stale: set<T>, mine: set<T>)
  {
    exists x :: x in s && x !in stale && x in mine
  }

  /**
   * The position at which the scan stops: the first session that is not stale and
   * involves the user, or the length of the list when there is none (`FirstMatchIsFirst`).
   */
  function FirstMatch<T(==)>(s: seq<T>, stale: set<T>, mine: set<T>): (i: nat)
    ensures i <= |s|
  {
    if s == [] then 0
    else if s[0] !in stale && s[0] in mine then 0
    else 1 + FirstMatch(s[1..], stale, mine)
  }

  /**
   * The scan stops at a live session of the user, every session before it is stale or
   * belongs to others, and it runs to the end exactly when the user has no live session.
   */
  lemma {:induction false} FirstMatchIsFirst<T>(s: seq<T>, stale: set<T>, mine: set<T>)
    ensures var i := FirstMatch(s, stale, mine);
      && (forall k :: 0 <= k < i ==> s[k] in stale || s[k] !in mine)
      && (i < |s| ==> s[i] !in stale && s[i] in mine)
      && (i < |s| <==> HasLive(s, stale, mine))
  {
    if s != [] && (s[0] in stale || s[0] !in mine) {
      FirstMatchIsFirst(s[1..], stale, mine);
      assert forall k :: 1 <= k < |s| ==> s[k] == s[1..][k - 1];
      assert forall x :: x in s ==> x == s[0] || x in s[1..];
    }
  }

  /** The list the lookup leaves behind: the scanned prefix without its stale sessions, then the rest. */
  function Pruned<T(==)>(s: seq<T>, stale: set<T>, mine: set<T>): seq<T>
  {
    var i := FirstMatch(s, stale, mine);
    Without(s[..i], stale) + s[i..]
  }

  /** Pruning keeps every live session, drops only stale ones, and keeps the list free of repeats. */
  lemma PrunedKeepsLive<T>(s: seq<T>, stale: set<T>, mine: set<T>)
    requires NoDup(s)
    ensures NoDup(Pruned(s, stale, mine))
    ensures forall x :: x in Pruned(s, stale, mine) ==> x in s
    ensures forall x :: x in s && x !in stale ==> x in Pruned(s, stale, mine)
  {
    var i := FirstMatch(s, stale, mine);
    assert s == s[..i] + s[i..];
    PrunedList(s[..i], s[i..], stale);
    forall x | x in Pruned(s, stale, mine) ensures x in s {
      assert x in Without(s[..i], stale) + s[i..];
      WithoutMember(s[..i], stale, x);
      assert x in s[..i] || x in s[i..];
    }
    forall x | x in s && x !in stale ensures x in Pruned(s, stale, mine) {
      assert x in s[..i] + s[i..];
      WithoutMember(s[..i], stale, x);
    }
  }

  /** Pruning for one user does not change which users have a live session. */
  lemma PrunedSameLive<T>(s: seq<T>, stale: set<T>, mine: set<T>, other: set<T>)
    requires NoDup(s)
    ensures HasLive(Pruned(s, stale, mine), stale, other) <==> HasLive(s, stale, other)
  {
    PrunedKeepsLive(s, stale, mine);
  }

  /** With no live session for the user, the scan runs to the end and every stale session goes. */
  lemma PrunedWithoutMatch<T>(s: seq<T>, stale: set<T>, mine: set<T>)
    requires !HasLive(s, stale, mine)
    ensures Pruned(s, stale, mine) == Without(s, stale)
  {
    FirstMatchIsFirst(s, stale, mine);
    assert s[..|s|] == s;
  }

  /** A list that was pruned to its end holds no stale session, so pruning it again changes nothing. */
  lemma PruneTwice<T>(s: seq<T>, stale: set<T>, mine: set<T>)
    ensures Pruned(Without(s, stale), stale, mine) == Without(s, stale)
  {
    var t := Without(s, stale);
    var i := FirstMatch(t, stale, mine);
    forall x | x in t[..i] ensures x !in stale {
      WithoutMember(s, stale, x);
    }
    WithoutSameOn(t[..i], stale, {});
    WithoutNothing(t[..i]);
    assert t[..i] + t[i..] == t;
  }

  /** The lookup only asks about the sessions of the list itself. */
  lemma {:induction false} SameOn<T>(s: seq<T>, st1: set<T>, st2: set<T>, mine1: set<T>, mine2: set<T>)
    requires forall x :: x in s ==> (x in st1 <==> x in st2) && (x in mine1 <==> x in mine2)
    ensures FirstMatch(s, st1, mine1) == FirstMatch(s, st2, mine2)
    ensures HasLive(s, st1, mine1) == HasLive(s, st2, mine2)
    ensures Pruned(s, st1, mine1) == Pruned(s, st2, mine2)
  {
    if s != [] {
      assert forall x :: x in s[1..] ==> x in s;
      SameOn(s[1..], st1, st2, mine1, mine2);
    }
    var i := FirstMatch(s, st1, mine1);
    WithoutSameOn(s[..i], st1, st2);
  }

  /** `for x in to_remove: list.remove(x)`. */
  method RemoveAll<T(==)>(s: seq<T>, toRemove: seq<T>) returns (t: seq<T>)
    ensures t == RemoveEach(s, toRemove)
  {
    t := s;
    for j := 0 to |toRemove|
      invariant t == RemoveEach(s, toRemove[..j])
    {
      assert toRemove[..j + 1][..j] == toRemove[..j];
      t := RemoveFirst(t, toRemove[j]);
    }
    assert toRemove[..|toRemove|] == toRemove;
  }

  /**
   * The scan (collecting the stale sessions it passes) followed by the removal loop
   * leaves the pruned list.
   */
  lemma ScanThenRemove<T>(s: seq<T>, stale: set<T>, mine: set<T>, i: nat, toRemove: seq<T>, t: seq<T>)
    requires NoDup(s)
    requires i == FirstMatch(s, stale, mine) && toRemove == Select(s[..i], stale)
    requires t == RemoveEach(s, toRemove)
    ensures t == Pruned(s, stale, mine)
  {
    assert s[..i] + s[i..] == s;
    RemoveAllStale(s[..i], s[i..], stale);
  }

  /** `for x in xs: s.remove(x)`, for elements known to be present. */
  function RemoveEach<T(==)>(s: seq<T>, xs: seq<T>): seq<T>
  {
    if xs == [] then s else RemoveFirst(RemoveEach(s, xs[..|xs| - 1]), xs[|xs| - 1])
  }
}
