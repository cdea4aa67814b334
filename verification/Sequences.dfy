/** Sequences of kernel ids and handles. */
module Sequences {
  predicate NoRepeats(s: seq<nat>) { forall i, k :: 0 <= i < k < |s| ==> s[i] != s[k] }

  function Members(s: seq<nat>): set<nat> { set id | id in s }
}
