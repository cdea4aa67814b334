/** std::stable_partition: the elements that stay and those that are moved out, each in their old order. */
module Partition {
  /** Among the first `n`, the elements whose position is not chosen. */
  function Kept<T>(s: seq<T>, chosen: nat -> bool, n: nat): seq<T>
    requires n <= |s|
    decreases n
  {
    if n == 0 then []
    else if chosen(n - 1) then Kept(s, chosen, n - 1)
    else Kept(s, chosen, n - 1) + [s[n - 1]]
  }

  function Moved<T>(s: seq<T>, chosen: nat -> bool, n: nat): seq<T>
    requires n <= |s|
    decreases n
  {
    if n == 0 then []
    else if chosen(n - 1) then Moved(s, chosen, n - 1) + [s[n - 1]]
    else Moved(s, chosen, n - 1)
  }

  lemma CountAppend<T>(s: seq<T>, x: T, y: T)
    ensures multiset(s + [x])[y] == multiset(s)[y] + if x == y then 1 else 0
  {
  }

  lemma First<T>(s: seq<T>, chosen: nat -> bool)
    ensures Kept(s, chosen, 0) == Moved(s, chosen, 0) == s[..0] == []
  {
  }

  lemma Last<T>(s: seq<T>, chosen: nat -> bool, n: nat)
    requires n < |s|
    ensures Kept(s, chosen, n + 1) == if chosen(n) then Kept(s, chosen, n) else Kept(s, chosen, n) + [s[n]]
    ensures Moved(s, chosen, n + 1) == if chosen(n) then Moved(s, chosen, n) + [s[n]] else Moved(s, chosen, n)
    ensures s[..n + 1] == s[..n] + [s[n]]
  {
  }

  lemma OneMore<T>(kept: seq<T>, moved: seq<T>, all: seq<T>, last: T, x: T)
    requires multiset(kept)[x] + multiset(moved)[x] == multiset(all)[x]
    ensures multiset(kept + [last])[x] + multiset(moved)[x] == multiset(all + [last])[x]
    ensures multiset(kept)[x] + multiset(moved + [last])[x] == multiset(all + [last])[x]
  {
    CountAppend(kept, last, x);
    CountAppend(moved, last, x);
    CountAppend(all, last, x);
  }

  /** Nothing is lost and nothing is doubled. */
  lemma {:induction false} NothingLost<T>(s: seq<T>, chosen: nat -> bool, n: nat, x: T)
    requires n <= |s|
    ensures multiset(Kept(s, chosen, n))[x] + multiset(Moved(s, chosen, n))[x] == multiset(s[..n])[x]
    decreases n
  {
    hide *;
    if n == 0 {
      First(s, chosen);
    } else {
      var m := n - 1;
      NothingLost(s, chosen, m, x);
      Last(s, chosen, m);
      OneMore(Kept(s, chosen, m), Moved(s, chosen, m), s[..m], s[m], x);
    }
  }

  /** What is moved was chosen at some position, and what was chosen is moved; likewise for what is kept. */
  lemma {:induction false} WhereFrom<T>(s: seq<T>, chosen: nat -> bool, n: nat)
    requires n <= |s|
    ensures forall x <- Moved(s, chosen, n) :: exists i: nat :: i < n && chosen(i) && s[i] == x
    ensures forall x <- Kept(s, chosen, n) :: exists i: nat :: i < n && !chosen(i) && s[i] == x
    ensures forall i: nat :: i < n ==> if chosen(i) then s[i] in Moved(s, chosen, n) else s[i] in Kept(s, chosen, n)
    decreases n
  {
    hide *;
    First(s, chosen);
    if n == 0 {
    } else {
      WhereFrom(s, chosen, n - 1);
      Last(s, chosen, n - 1);
    }
  }

  /** The algorithm: each element is asked about once, in order. */
  method StablePartition<T>(s: seq<T>, chosen: nat -> bool) returns (kept: seq<T>, moved: seq<T>)
    ensures kept == Kept(s, chosen, |s|) && moved == Moved(s, chosen, |s|)
  {
    kept, moved := [], [];
    for i := 0 to |s|
      invariant kept == Kept(s, chosen, i) && moved == Moved(s, chosen, i)
    {
      if chosen(i) {
        moved := moved + [s[i]];
      } else {
        kept := kept + [s[i]];
      }
    }
  }
}
