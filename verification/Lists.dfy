/** Lists without repetition, as the kernel's linked lists and sorted trees are. */
module Lists {

  ghost predicate NoRepeat(l: seq<nat>) { forall i, j :: 0 <= i < j < |l| ==> l[i] != l[j] }

  ghost predicate Ascending(l: seq<nat>, key: nat -> int) { forall i, j :: 0 <= i < j < |l| ==> key(l[i]) <= key(l[j]) }

  /** Take `x` out. */
  function Without(l: seq<nat>, x: nat): seq<nat> {
    if l == [] then [] else if l[0] == x then l[1..] else [l[0]] + Without(l[1..], x)
  }

  /** Put `x` behind every entry whose key is no greater than its own. */
  function Inserted(l: seq<nat>, x: nat, key: nat -> int): seq<nat> {
    if l == [] || key(x) < key(l[0]) then [x] + l else [l[0]] + Inserted(l[1..], x, key)
  }

  /** Put `z` right after `y`. */
  function PutAfter(l: seq<nat>, y: nat, z: nat): seq<nat> {
    if l == [] then [] else if l[0] == y then [y, z] + l[1..] else [l[0]] + PutAfter(l[1..], y, z)
  }

  /** How many entries are ahead of `x`. */
  function Place(l: seq<nat>, x: nat): (k: nat)
    requires x in l
    ensures k < |l| && l[k] == x
  {
    if l[0] == x then 0 else 1 + Place(l[1..], x)
  }

  lemma {:induction false} WithoutOk(l: seq<nat>, x: nat)
    requires NoRepeat(l)
    ensures NoRepeat(Without(l, x)) && forall y :: y in Without(l, x) <==> y in l && y != x
    ensures |Without(l, x)| == |l| - if x in l then 1 else 0
  {
    if l != [] {
      assert l == [l[0]] + l[1..];
      WithoutOk(l[1..], x);
      assert l[0] !in l[1..];
      if l[0] != x {
        var m := Without(l[1..], x);
        forall y | y in m ensures y != l[0] { assert y in l[1..]; }
      }
    }
  }

  lemma {:induction false} WithoutAscending(l: seq<nat>, x: nat, key: nat -> int)
    requires Ascending(l, key)
    ensures Ascending(Without(l, x), key) && forall y :: y in Without(l, x) ==> y in l
  {
    if l != [] {
      assert l == [l[0]] + l[1..];
      WithoutAscending(l[1..], x, key);
      var m := Without(l[1..], x);
      forall y | y in m ensures key(l[0]) <= key(y) { assert y in l[1..]; }
    }
  }

  lemma {:induction false} WithoutPlace(l: seq<nat>, x: nat, y: nat)
    requires NoRepeat(l) && y in l && x != y
    ensures y in Without(l, x)
    ensures Place(Without(l, x), y) == Place(l, y) - if x in l && Place(l, x) < Place(l, y) then 1 else 0
  {
    WithoutOk(l, x);
    if l[0] == x {
      assert l[1..] == Without(l, x);
    } else if l[0] != y {
      WithoutOk(l[1..], x);
      WithoutPlace(l[1..], x, y);
      assert Without(l, x)[1..] == Without(l[1..], x);
    }
  }

  lemma PrefixOk(x: nat, l: seq<nat>, key: nat -> int)
    requires NoRepeat(l) && Ascending(l, key) && x !in l
    requires l != [] ==> key(x) <= key(l[0])
    ensures NoRepeat([x] + l) && Ascending([x] + l, key)
  {
  }

  lemma {:induction false} InsertedOk(l: seq<nat>, x: nat, key: nat -> int)
    requires NoRepeat(l) && x !in l && Ascending(l, key)
    ensures NoRepeat(Inserted(l, x, key)) && Ascending(Inserted(l, x, key), key)
    ensures forall y :: y in Inserted(l, x, key) <==> y in l || y == x
  {
    if l == [] {
    } else if key(x) < key(l[0]) {
      PrefixOk(x, l, key);
    } else {
      assert l == [l[0]] + l[1..];
      InsertedOk(l[1..], x, key);
      var m := Inserted(l[1..], x, key);
      forall y | y in m ensures key(l[0]) <= key(y) && y != l[0] {
        if y != x { assert y in l[1..]; }
      }
      PrefixOk(l[0], m, key);
    }
  }

  lemma {:induction false} PutAfterOk(l: seq<nat>, y: nat, z: nat)
    requires NoRepeat(l) && y in l && z !in l
    ensures NoRepeat(PutAfter(l, y, z)) && forall x :: x in PutAfter(l, y, z) <==> x in l || x == z
  {
    assert l == [l[0]] + l[1..];
    assert l[0] !in l[1..] && l[0] in l;
    if l[0] != y {
      PutAfterOk(l[1..], y, z);
      var m := PutAfter(l[1..], y, z);
      assert l[0] !in m;
      assert PutAfter(l, y, z) == [l[0]] + m;
    } else {
      assert z !in l[1..];
    }
  }

  lemma {:induction false} PutAfterAscending(l: seq<nat>, y: nat, z: nat, key: nat -> int)
    requires Ascending(l, key) && y in l && key(z) == key(y)
    ensures Ascending(PutAfter(l, y, z), key) && forall x :: x in PutAfter(l, y, z) ==> x in l || x == z
  {
    assert l == [l[0]] + l[1..];
    if l[0] != y {
      PutAfterAscending(l[1..], y, z, key);
      var m := PutAfter(l[1..], y, z);
      assert y in l[1..];
      forall x | x in m ensures key(l[0]) <= key(x) {
        if x != z { assert x in l[1..]; }
      }
    }
  }

  lemma {:induction false} PutAfterPlace(l: seq<nat>, y: nat, z: nat, x: nat)
    requires NoRepeat(l) && y in l && z !in l && x in l
    ensures x in PutAfter(l, y, z) && z in PutAfter(l, y, z)
    ensures Place(PutAfter(l, y, z), x) == Place(l, x) + if Place(l, y) < Place(l, x) then 1 else 0
    ensures Place(PutAfter(l, y, z), z) == Place(l, y) + 1
  {
    PutAfterOk(l, y, z);
    hide NoRepeat;
    var r := PutAfter(l, y, z);
    assert z != l[0];
    if l[0] == y {
      assert r == [y] + ([z] + l[1..]);
      assert r[1..] == [z] + l[1..] && r[1..][1..] == l[1..];
    } else {
      assert r[1..] == PutAfter(l[1..], y, z);
      TailNoRepeat(l);
      PutAfterPlace(l[1..], y, z, if l[0] == x then y else x);
    }
  }

  lemma TailNoRepeat(l: seq<nat>)
    requires NoRepeat(l) && l != []
    ensures NoRepeat(l[1..])
  {
  }

  lemma {:induction false} AppendPlace(l: seq<nat>, z: nat, x: nat)
    requires x in l
    ensures Place(l + [z], x) == Place(l, x)
  {
    if l[0] != x {
      AppendPlace(l[1..], z, x);
      assert (l + [z])[1..] == l[1..] + [z];
    }
  }

  /** An earlier place has no greater key. */
  lemma AscendingAt(l: seq<nat>, key: nat -> int, x: nat)
    requires Ascending(l, key) && x in l
    ensures key(l[0]) <= key(x)
  {
    var k := Place(l, x);
    if k > 0 { assert key(l[0]) <= key(l[k]); }
  }

  lemma {:induction false} WithoutAt(l: seq<nat>, k: nat)
    requires NoRepeat(l) && k < |l|
    ensures Without(l, l[k]) == l[..k] + l[k + 1..]
  {
    if k > 0 {
      TailNoRepeat(l);
      WithoutAt(l[1..], k - 1);
      assert l[..k] == [l[0]] + l[1..][..k - 1] && l[1..][k..] == l[k + 1..];
      assert Without(l, l[k]) == [l[0]] + Without(l[1..], l[k]);
    }
  }

  lemma {:induction false} PlaceAt(l: seq<nat>, k: nat)
    requires NoRepeat(l) && k < |l|
    ensures l[k] in l && Place(l, l[k]) == k
  {
  }

  ghost function Items(l: seq<nat>): set<nat> { set x | x in l }

  /** What stands in the first `k` places. */
  lemma InFront(l: seq<nat>, k: nat, x: nat)
    requires NoRepeat(l) && k <= |l| && x in l
    ensures x in l[..k] <==> Place(l, x) < k
  {
    if Place(l, x) < k { assert l[..k][Place(l, x)] == x; }
  }

  lemma {:induction false} FrontSize(l: seq<nat>, k: nat)
    requires NoRepeat(l) && k <= |l|
    ensures |Items(l[..k])| == k
  {
    if k == 0 {
      assert Items(l[..k]) == {};
    } else {
      FrontSize(l, k - 1);
      assert l[..k] == l[..k - 1] + [l[k - 1]];
      assert Items(l[..k]) == Items(l[..k - 1]) + {l[k - 1]};
    }
  }
}
