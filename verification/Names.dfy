/** Sequences of ids, keys and feeds, all of them strings. */
module Names {

  function Members(s: seq<string>): set<string> { set x | x in s }

  ghost predicate Distinct(s: seq<string>) { forall i, j | 0 <= i < j < |s| :: s[i] != s[j] }
}
