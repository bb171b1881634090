/**
 The scan with which mm0 inserts into its ordered lists, for vmas as for cached pages:
 put the new key between two neighbours that enclose it, else beside the last one.
 */
module ListInsert {

  /** Where the scan from position i on puts key x. */
  function Place(keys: seq<nat>, x: nat, i: nat): (k: nat)
    requires i < |keys|
    ensures i <= k <= |keys|
    decreases |keys| - i
  {
    if i == |keys| - 1 then (if x > keys[i] then i + 1 else i)
    else if keys[i] < x && keys[i + 1] > x then i + 1
    else Place(keys, x, i + 1)
  }

  function Inserted(keys: seq<nat>, x: nat): seq<nat> {
    if keys == [] then [x] else var k := Place(keys, x, 0); keys[..k] + [x] + keys[k..]
  }

  predicate Sorted(keys: seq<nat>) {
    forall i, j :: 0 <= i < j < |keys| ==> keys[i] < keys[j]
  }

  /** Above keys[i] the scan finds the gap that x belongs in. */
  lemma {:induction false} PlaceAbove(keys: seq<nat>, x: nat, i: nat)
    requires Sorted(keys) && i < |keys| && keys[i] < x && x !in keys
    ensures var k := Place(keys, x, i); i < k && keys[k - 1] < x && (k < |keys| ==> x < keys[k])
    decreases |keys| - i
  {
    if i < |keys| - 1 && keys[i + 1] < x { PlaceAbove(keys, x, i + 1); }
  }

  /** Below all keys the scan runs to the end and stops before the last one. */
  lemma {:induction false} PlaceBelow(keys: seq<nat>, x: nat, i: nat)
    requires Sorted(keys) && i < |keys| && x < keys[i]
    ensures Place(keys, x, i) == |keys| - 1
    decreases |keys| - i
  {
    if i < |keys| - 1 { PlaceBelow(keys, x, i + 1); }
  }

  /** Order survives exactly if the new key is above the head or there is at most one. */
  lemma InsertKeepsOrder(keys: seq<nat>, x: nat)
    requires Sorted(keys) && x !in keys
    ensures Sorted(Inserted(keys, x)) <==> |keys| <= 1 || x > keys[0]
  {
    if keys != [] {
      var r, k := Inserted(keys, x), Place(keys, x, 0);
      if x > keys[0] {
        PlaceAbove(keys, x, 0);
      } else {
        assert keys[0] in keys;
        PlaceBelow(keys, x, 0);
        if |keys| > 1 { assert r[0] == keys[0] && r[k] == x && 0 < k; }
      }
    }
  }

  /** A key below the head of two goes in between them. */
  lemma MisplacesBelowHead()
    ensures Inserted([2, 3], 1) == [2, 1, 3] && Sorted([2, 3]) && !Sorted(Inserted([2, 3], 1))
  {
    var keys := [2, 3];
    assert Place(keys, 1, 1) == 1 && Place(keys, 1, 0) == 1;
    assert keys[..1] + [1] + keys[1..] == [2, 1, 3];
    assert [2, 1, 3][0] > [2, 1, 3][1];
  }

  /** Pages that arrive in rising order, as a range read does, keep a sorted cache sorted. */
  lemma {:induction false} RisingInserts(keys: seq<nat>, from: nat, n: nat)
    requires Sorted(keys) && (forall k :: k in keys ==> !(from <= k < from + n)) && (keys != [] ==> |keys| == 1 || keys[0] < from)
    ensures Sorted(InsertRange(keys, from, n))
    decreases n
  {
    if n > 0 {
      InsertKeepsOrder(keys, from);
      var next := Inserted(keys, from);
      InsertedElements(keys, from);
      if n > 1 {
        SortedHead(next, from);
        RisingInserts(next, from + 1, n - 1);
      }
    }
  }

  function InsertRange(keys: seq<nat>, from: nat, n: nat): seq<nat>
    decreases n
  {
    if n == 0 then keys else InsertRange(Inserted(keys, from), from + 1, n - 1)
  }

  lemma InsertedElements(keys: seq<nat>, x: nat)
    ensures forall y :: y in Inserted(keys, x) <==> y in keys || y == x
  {
    if keys != [] {
      var k := Place(keys, x, 0);
      assert keys[..k] + keys[k..] == keys;
    }
  }

  lemma SortedHead(keys: seq<nat>, x: nat)
    requires Sorted(keys) && x in keys
    ensures keys[0] <= x
  {
  }
}
