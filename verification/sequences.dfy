/**
  Sequences that hold nothing twice.
 */
module Sequences {

  ghost predicate Distinct(s: seq<nat>) {
    forall p, q :: 0 <= p < q < |s| ==> s[p] != s[q]
  }
}
