/**
 What several parts of the model share: optional values, bytes, and lists of names as the
 kernel's linked lists hold them.
 */
module Basics {

  datatype Option<+T> = None | Some(value: T)

  newtype Byte = x: int | 0 <= x < 256

  predicate NoDup(s: seq<nat>) {
    forall i, j :: 0 <= i < j < |s| ==> s[i] != s[j]
  }

  /** list_remove_init of one entry. */
  function Remove(s: seq<nat>, t: nat): (r: seq<nat>)
    ensures NoDup(s) ==> NoDup(r) && (forall x :: x in r <==> x in s && x != t)
    ensures NoDup(s) && t in s ==> |r| == |s| - 1
  {
    if s == [] then []
    else if s[0] == t then s[1..]
    else
      var rest := Remove(s[1..], t);
      assert NoDup(s) ==> NoDup(s[1..]) && s[0] !in s[1..];
      [s[0]] + rest
  }
}
