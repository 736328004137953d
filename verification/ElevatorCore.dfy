/**
 The elevator core (elevator.c): the hash of requests by end sector that finds back
 merges, the one-hit cache, and the sorted insert into the dispatch queue.

 A request is in the elevator from its sorted insert until it is dispatched or merged
 into another one.  ELV_HASH_FN is an arbitrary function into the buckets.
 */
module ElevatorCore {
  import opened Wrappers
  import opened Lists

  type Id = nat

  /** First sector, length in sectors, and rq_mergeable. */
  datatype Rq = Rq(pos: int, sectors: nat, mergeable: bool) {
    function End(): int { pos + sectors }
  }

  datatype Table = Table(entries: nat, hash: int -> nat) {
    ghost predicate Valid() { forall x :: hash(x) < entries }
  }

  datatype State = State(rqs: map<Id, Rq>, buckets: seq<seq<Id>>, lastMerge: Option<Id>, nrSorted: int)

  // ---------------------------------------------------------------- the invariant

  ghost predicate BucketOk(t: Table, rqs: map<Id, Rq>, l: seq<Id>, i: nat) {
    NoRepeat(l) && forall r :: r in l ==> r in rqs && t.hash(rqs[r].End()) == i
  }

  ghost predicate Hashed(t: Table, s: State, r: Id)
    requires r in s.rqs
  {
    t.hash(s.rqs[r].End()) < |s.buckets| && r in s.buckets[t.hash(s.rqs[r].End())]
  }

  /** Every hashed request is in the bucket of its end sector, every mergeable one is hashed, and the cache points into the elevator. */
  ghost predicate Inv(t: Table, s: State) {
    && t.Valid() && |s.buckets| == t.entries
    && (forall i: nat {:trigger s.buckets[i]} :: i < |s.buckets| ==> BucketOk(t, s.rqs, s.buckets[i], i))
    && (forall r {:trigger Hashed(t, s, r)} :: r in s.rqs && s.rqs[r].mergeable ==> Hashed(t, s, r))
    && (s.lastMerge.Some? ==> s.lastMerge.value in s.rqs && s.rqs[s.lastMerge.value].mergeable)
    && s.nrSorted == |s.rqs|
  }

  // ---------------------------------------------------------------- hash operations

  /** hlist_del_init: wherever the request is hashed, it is taken out. */
  function Unhashed(bs: seq<seq<Id>>, r: Id): seq<seq<Id>> { seq(|bs|, (i: nat) requires i < |bs| => Without(bs[i], r)) }

  function Pushed(bs: seq<seq<Id>>, i: nat, r: Id): seq<seq<Id>>
    requires i < |bs|
  {
    bs[i := [r] + bs[i]]
  }

  /** All buckets in order, apart from request `but`. */
  ghost predicate BucketsBut(t: Table, rqs: map<Id, Rq>, bs: seq<seq<Id>>, but: Id) {
    && |bs| == t.entries
    && (forall i: nat {:trigger bs[i]} :: i < |bs| ==> BucketOk(t, rqs, bs[i], i) && but !in bs[i])
    && (forall r {:trigger rqs[r]} :: r in rqs && r != but && rqs[r].mergeable ==>
          t.hash(rqs[r].End()) < |bs| && r in bs[t.hash(rqs[r].End())])
  }

  /** Taking a request out of the hash frees it to change or to leave. */
  lemma UnhashedOk(t: Table, s: State, r: Id)
    requires Inv(t, s)
    ensures BucketsBut(t, s.rqs, Unhashed(s.buckets, r), r)
  {
    var bs := Unhashed(s.buckets, r);
    forall i: nat | i < |bs| ensures BucketOk(t, s.rqs, bs[i], i) && r !in bs[i] {
      assert BucketOk(t, s.rqs, s.buckets[i], i);
      WithoutOk(s.buckets[i], r);
    }
    forall x | x in s.rqs && x != r && s.rqs[x].mergeable
      ensures t.hash(s.rqs[x].End()) < |bs| && x in bs[t.hash(s.rqs[x].End())]
    {
      assert Hashed(t, s, x);
      var i := t.hash(s.rqs[x].End());
      assert BucketOk(t, s.rqs, s.buckets[i], i);
      WithoutOk(s.buckets[i], r);
    }
  }

  /** An unhashed request may change, or go. */
  lemma ButChanged(t: Table, rqs: map<Id, Rq>, bs: seq<seq<Id>>, r: Id, q: Rq)
    requires BucketsBut(t, rqs, bs, r)
    ensures BucketsBut(t, rqs[r := q], bs, r) && BucketsBut(t, rqs - {r}, bs, r)
  {
    forall i: nat | i < |bs| ensures BucketOk(t, rqs[r := q], bs[i], i) && BucketOk(t, rqs - {r}, bs[i], i) {
      assert BucketOk(t, rqs, bs[i], i) && r !in bs[i];
    }
  }

  /** Hashing it again under its current end sector restores the index. */
  lemma PushedOk(t: Table, s: State, r: Id)
    requires t.Valid() && BucketsBut(t, s.rqs, s.buckets, r) && r in s.rqs && s.nrSorted == |s.rqs|
    requires s.lastMerge.Some? ==> s.lastMerge.value in s.rqs && s.rqs[s.lastMerge.value].mergeable
    ensures Inv(t, s.(buckets := Pushed(s.buckets, t.hash(s.rqs[r].End()), r)))
  {
    var k := t.hash(s.rqs[r].End());
    var bs := Pushed(s.buckets, k, r);
    var u := s.(buckets := bs);
    forall i: nat | i < |bs| ensures BucketOk(t, s.rqs, bs[i], i) {
      assert BucketOk(t, s.rqs, s.buckets[i], i) && r !in s.buckets[i];
    }
    forall x | x in s.rqs && s.rqs[x].mergeable ensures Hashed(t, u, x) {
      if x != r { assert s.rqs[x] == u.rqs[x]; }
    }
  }

  /** A request that is not hashed any more may stay unhashed only if it is not mergeable, or has left. */
  lemma LeftOk(t: Table, s: State, r: Id)
    requires t.Valid() && BucketsBut(t, s.rqs, s.buckets, r) && (r in s.rqs ==> !s.rqs[r].mergeable) && s.nrSorted == |s.rqs|
    requires s.lastMerge.Some? ==> s.lastMerge.value in s.rqs && s.rqs[s.lastMerge.value].mergeable
    ensures Inv(t, s)
  {
    forall x | x in s.rqs && s.rqs[x].mergeable ensures Hashed(t, s, x) {
      assert x != r && s.rqs[x].mergeable;
    }
  }

  // ---------------------------------------------------------------- operations

  /** The sorted insert of __elv_add_request. */
  function Entered(t: Table, s: State, r: Id, q: Rq): State
    requires |s.buckets| == t.entries && t.hash(q.End()) < t.entries
  {
    var u := s.(rqs := s.rqs[r := q], nrSorted := s.nrSorted + 1);
    if q.mergeable then
      u.(buckets := Pushed(s.buckets, t.hash(q.End()), r), lastMerge := if s.lastMerge == None then Some(r) else s.lastMerge)
    else u
  }

  /** REQ_NOMERGE after a refused merge (ll_back_merge_fn and its like); the hash entry is left for a later lookup. */
  function Refused(s: State, r: Id): State
    requires r in s.rqs
  {
    s.(rqs := s.rqs[r := s.rqs[r].(mergeable := false)], lastMerge := if s.lastMerge == Some(r) then None else s.lastMerge)
  }

  /** elv_merged_request after a back merge of `n` sectors. */
  function BackMerged(t: Table, s: State, r: Id, n: nat): State
    requires r in s.rqs && t.hash(s.rqs[r].End() + n) < |s.buckets|
  {
    var q := s.rqs[r].(sectors := s.rqs[r].sectors + n);
    s.(rqs := s.rqs[r := q], buckets := Pushed(Unhashed(s.buckets, r), t.hash(q.End()), r), lastMerge := Some(r))
  }

  /** elv_merged_request after a front merge of `n` sectors: the end sector stays, and so does the hash. */
  function FrontMerged(s: State, r: Id, n: nat): State
    requires r in s.rqs
  {
    s.(rqs := s.rqs[r := s.rqs[r].(pos := s.rqs[r].pos - n, sectors := s.rqs[r].sectors + n)], lastMerge := Some(r))
  }

  /** elv_merge_requests for a `next` that is in the elevator itself. */
  function Joined(t: Table, s: State, r: Id, next: Id): State
    requires r in s.rqs && next in s.rqs && t.hash(s.rqs[r].End() + s.rqs[next].sectors) < |s.buckets|
  {
    var q := s.rqs[r].(sectors := s.rqs[r].sectors + s.rqs[next].sectors);
    s.(rqs := s.rqs[r := q] - {next}, nrSorted := s.nrSorted - 1, lastMerge := Some(r),
       buckets := Unhashed(Pushed(Unhashed(s.buckets, r), t.hash(q.End()), r), next))
  }

  /** A request leaves for the dispatch queue. */
  function Dispatched(s: State, r: Id): State
    requires r in s.rqs
  {
    s.(rqs := s.rqs - {r}, buckets := Unhashed(s.buckets, r), nrSorted := s.nrSorted - 1,
       lastMerge := if s.lastMerge == Some(r) then None else s.lastMerge)
  }

  lemma NotHashed(t: Table, s: State, r: Id)
    requires Inv(t, s) && r !in s.rqs
    ensures BucketsBut(t, s.rqs, s.buckets, r)
  {
    forall i: nat | i < |s.buckets| ensures BucketOk(t, s.rqs, s.buckets[i], i) && r !in s.buckets[i] {
      assert BucketOk(t, s.rqs, s.buckets[i], i);
    }
    forall x | x in s.rqs && x != r && s.rqs[x].mergeable
      ensures t.hash(s.rqs[x].End()) < |s.buckets| && x in s.buckets[t.hash(s.rqs[x].End())]
    {
      assert Hashed(t, s, x);
    }
  }

  lemma EnteredKeeps(t: Table, s: State, r: Id, q: Rq)
    requires Inv(t, s) && r !in s.rqs
    ensures Inv(t, Entered(t, s, r, q)) && Entered(t, s, r, q).rqs == s.rqs[r := q]
    ensures Entered(t, s, r, q).lastMerge == if s.lastMerge == None && q.mergeable then Some(r) else s.lastMerge
  {
    hide BucketsBut, BucketOk, Hashed;
    NotHashed(t, s, r);
    ButChanged(t, s.rqs, s.buckets, r, q);
    var u := s.(rqs := s.rqs[r := q], nrSorted := s.nrSorted + 1);
    if q.mergeable {
      PushedOk(t, u.(lastMerge := if s.lastMerge == None then Some(r) else s.lastMerge), r);
    } else {
      LeftOk(t, u, r);
    }
  }

  lemma RefusedKeeps(t: Table, s: State, r: Id)
    requires Inv(t, s) && r in s.rqs
    ensures Inv(t, Refused(s, r)) && Refused(s, r).rqs == s.rqs[r := Rq(s.rqs[r].pos, s.rqs[r].sectors, false)]
    ensures forall x :: Refused(s, r).lastMerge == Some(x) <==> s.lastMerge == Some(x) && x != r
  {
    var u := Refused(s, r);
    forall i: nat | i < |u.buckets| ensures BucketOk(t, u.rqs, u.buckets[i], i) {
      assert BucketOk(t, s.rqs, s.buckets[i], i);
    }
    forall x | x in u.rqs && u.rqs[x].mergeable ensures Hashed(t, u, x) {
      assert Hashed(t, s, x);
    }
    assert u.rqs.Keys == s.rqs.Keys;
  }

  lemma BackMergedKeeps(t: Table, s: State, r: Id, n: nat)
    requires Inv(t, s) && r in s.rqs && s.rqs[r].mergeable
    ensures Inv(t, BackMerged(t, s, r, n))
  {
    hide BucketsBut, BucketOk, Hashed, Unhashed;
    var q := s.rqs[r].(sectors := s.rqs[r].sectors + n);
    UnhashedOk(t, s, r);
    ButChanged(t, s.rqs, Unhashed(s.buckets, r), r, q);
    var u := s.(rqs := s.rqs[r := q], buckets := Unhashed(s.buckets, r), lastMerge := Some(r));
    assert u.rqs.Keys == s.rqs.Keys;
    PushedOk(t, u, r);
  }

  lemma FrontMergedKeeps(t: Table, s: State, r: Id, n: nat)
    requires Inv(t, s) && r in s.rqs && s.rqs[r].mergeable
    ensures Inv(t, FrontMerged(s, r, n))
  {
    var u := FrontMerged(s, r, n);
    forall i: nat | i < |u.buckets| ensures BucketOk(t, u.rqs, u.buckets[i], i) {
      assert BucketOk(t, s.rqs, s.buckets[i], i);
    }
    forall x | x in u.rqs && u.rqs[x].mergeable ensures Hashed(t, u, x) {
      assert Hashed(t, s, x);
    }
    assert u.rqs.Keys == s.rqs.Keys;
  }

  lemma DispatchedKeeps(t: Table, s: State, r: Id)
    requires Inv(t, s) && r in s.rqs
    ensures Inv(t, Dispatched(s, r)) && Dispatched(s, r).rqs == s.rqs - {r}
    ensures forall x :: Dispatched(s, r).lastMerge == Some(x) <==> s.lastMerge == Some(x) && x != r
  {
    hide BucketsBut, BucketOk, Hashed, Unhashed;
    UnhashedOk(t, s, r);
    ButChanged(t, s.rqs, Unhashed(s.buckets, r), r, s.rqs[r]);
    assert (s.rqs - {r}).Keys == s.rqs.Keys - {r};
    LeftOk(t, Dispatched(s, r), r);
  }

  lemma JoinedKeeps(t: Table, s: State, r: Id, next: Id)
    requires Inv(t, s) && r in s.rqs && next in s.rqs && r != next && s.rqs[r].mergeable
    ensures Inv(t, Joined(t, s, r, next))
  {
    hide BucketsBut, BucketOk, Hashed, Unhashed;
    BackMergedKeeps(t, s, r, s.rqs[next].sectors);
    DispatchedKeeps(t, BackMerged(t, s, r, s.rqs[next].sectors), next);
  }

  // ---------------------------------------------------------------- lookup

  datatype Scan = Scan(kept: seq<Id>, found: Option<Id>)

  /** The walk of elv_rqhash_find along a bucket, dropping what cannot be merged any more. */
  function Walk(rqs: map<Id, Rq>, l: seq<Id>, offset: int): Scan
    requires forall r :: r in l ==> r in rqs
  {
    if l == [] then Scan([], None)
    else if !rqs[l[0]].mergeable then Walk(rqs, l[1..], offset)
    else if rqs[l[0]].End() == offset then Scan(l, Some(l[0]))
    else
      var w := Walk(rqs, l[1..], offset);
      Scan([l[0]] + w.kept, w.found)
  }

  /** Only unmergeable entries are dropped, and an entry is found exactly if there is a mergeable one with this end sector. */
  lemma {:induction false} WalkOk(rqs: map<Id, Rq>, l: seq<Id>, offset: int)
    requires NoRepeat(l) && forall r :: r in l ==> r in rqs
    ensures var w := Walk(rqs, l, offset);
            && NoRepeat(w.kept) && (forall r :: r in w.kept ==> r in l) && (forall r :: r in l && rqs[r].mergeable ==> r in w.kept)
            && (w.found.Some? ==> w.found.value in l && rqs[w.found.value].mergeable && rqs[w.found.value].End() == offset)
            && (w.found == None ==> forall r :: r in l && rqs[r].mergeable ==> rqs[r].End() != offset)
  {
    if l != [] {
      assert l == [l[0]] + l[1..];
      assert l[0] !in l[1..];
      WalkOk(rqs, l[1..], offset);
    }
  }

  function Find(t: Table, s: State, offset: int): (State, Option<Id>)
    requires t.hash(offset) < |s.buckets| && forall r :: r in s.buckets[t.hash(offset)] ==> r in s.rqs
  {
    var i := t.hash(offset);
    var w := Walk(s.rqs, s.buckets[i], offset);
    (s.(buckets := s.buckets[i := w.kept]), w.found)
  }

  /** What a plain scan of the elevator would look for. */
  predicate EndsAt(rqs: map<Id, Rq>, r: Id, offset: int) { r in rqs && rqs[r].mergeable && rqs[r].End() == offset }

  /** The lookup agrees with a plain scan of all requests in the elevator. */
  lemma FindIsScan(t: Table, s: State, offset: int)
    requires Inv(t, s)
    ensures t.hash(offset) < |s.buckets| && forall r :: r in s.buckets[t.hash(offset)] ==> r in s.rqs
    ensures var f := Find(t, s, offset);
            && Inv(t, f.0) && f.0 == s.(buckets := f.0.buckets)
            && (f.1.Some? ==> EndsAt(s.rqs, f.1.value, offset))
            && (f.1 == None ==> forall r :: !EndsAt(s.rqs, r, offset))
  {
    var i := t.hash(offset);
    assert BucketOk(t, s.rqs, s.buckets[i], i);
    WalkOk(s.rqs, s.buckets[i], offset);
    var f := Find(t, s, offset);
    var u := f.0;
    forall j: nat | j < |u.buckets| ensures BucketOk(t, u.rqs, u.buckets[j], j) {
      assert BucketOk(t, s.rqs, s.buckets[j], j);
    }
    forall r | r in s.rqs && s.rqs[r].mergeable ensures Hashed(t, u, r) {
      assert Hashed(t, s, r);
    }
    if f.1 == None {
      forall r ensures !EndsAt(s.rqs, r, offset) {
        if r in s.rqs && s.rqs[r].mergeable { assert Hashed(t, s, r); }
      }
    }
  }

  /** A mergeable request at the head of the bucket of its end sector is what a lookup finds. */
  lemma HeadFound(t: Table, s: State, r: Id)
    requires Inv(t, s) && r in s.rqs && s.rqs[r].mergeable
    requires t.hash(s.rqs[r].End()) < |s.buckets|
    requires s.buckets[t.hash(s.rqs[r].End())] != [] && s.buckets[t.hash(s.rqs[r].End())][0] == r
    ensures forall x :: x in s.buckets[t.hash(s.rqs[r].End())] ==> x in s.rqs
    ensures Find(t, s, s.rqs[r].End()).1 == Some(r)
  {
    FindIsScan(t, s, s.rqs[r].End());
  }

  /** After a back merge the request reaches further, and a lookup at its new end finds it. */
  lemma BackMergedFound(t: Table, s: State, r: Id, n: nat)
    requires Inv(t, s) && r in s.rqs && s.rqs[r].mergeable
    ensures var u, end := BackMerged(t, s, r, n), s.rqs[r].End() + n;
            && u.rqs[r].pos == s.rqs[r].pos && u.rqs[r].End() == end && u.lastMerge == Some(r)
            && (forall x :: x in s.rqs && x != r ==> x in u.rqs && u.rqs[x] == s.rqs[x])
            && t.hash(end) < |u.buckets| && (forall x :: x in u.buckets[t.hash(end)] ==> x in u.rqs) && Find(t, u, end).1 == Some(r)
  {
    BackMergedKeeps(t, s, r, n);
    hide Inv, Unhashed;
    HeadFound(t, BackMerged(t, s, r, n), r);
  }

  /** After a front merge the request starts earlier and ends where it did. */
  lemma FrontMergedSpans(t: Table, s: State, r: Id, n: nat)
    requires Inv(t, s) && r in s.rqs && s.rqs[r].mergeable
    ensures var u := FrontMerged(s, r, n);
            && u.rqs[r].pos == s.rqs[r].pos - n && EndsAt(u.rqs, r, s.rqs[r].End()) && u.lastMerge == Some(r)
            && (forall x :: x in s.rqs && x != r ==> x in u.rqs && u.rqs[x] == s.rqs[x])
  {
  }

  /** A merge of two adjacent requests covers both, and a lookup at the end of the second one finds the first. */
  lemma JoinedFound(t: Table, s: State, r: Id, next: Id)
    requires Inv(t, s) && r in s.rqs && next in s.rqs && r != next && s.rqs[r].mergeable && s.rqs[r].End() == s.rqs[next].pos
    ensures var u, end := Joined(t, s, r, next), s.rqs[next].End();
            && r in u.rqs && next !in u.rqs && u.rqs[r].pos == s.rqs[r].pos && u.rqs[r].End() == end && u.lastMerge == Some(r)
            && (forall x :: x in s.rqs && x != r && x != next ==> x in u.rqs && u.rqs[x] == s.rqs[x])
            && t.hash(end) < |u.buckets| && (forall x :: x in u.buckets[t.hash(end)] ==> x in u.rqs) && Find(t, u, end).1 == Some(r)
  {
    JoinedKeeps(t, s, r, next);
    hide Inv;
    HeadFound(t, Joined(t, s, r, next), r);
  }

  // ---------------------------------------------------------------- conservation of sectors

  /** The sectors of all requests in the elevator. */
  ghost function Load(rqs: map<Id, Rq>): nat {
    if rqs == map[] then 0
    else
      var r :| r in rqs;
      rqs[r].sectors + Load(rqs - {r})
  }

  lemma {:induction false} LoadWithout(rqs: map<Id, Rq>, r: Id)
    requires r in rqs
    ensures Load(rqs) == rqs[r].sectors + Load(rqs - {r})
    decreases |rqs|
  {
    var x :| x in rqs && Load(rqs) == rqs[x].sectors + Load(rqs - {x});
    if x != r {
      assert |rqs - {x}| < |rqs| by { assert (rqs - {x}).Keys == rqs.Keys - {x}; }
      LoadWithout(rqs - {x}, r);
      LoadSwap(rqs, r, x);
    }
  }

  lemma LoadSwap(rqs: map<Id, Rq>, r: Id, x: Id)
    requires r in rqs && x in rqs && r != x
    ensures Load(rqs - {r}) == rqs[x].sectors + Load(rqs - {r} - {x}) && rqs - {x} - {r} == rqs - {r} - {x}
    decreases |rqs|, 0
  {
    assert |rqs - {r}| < |rqs| by { assert (rqs - {r}).Keys == rqs.Keys - {r}; }
    LoadWithout(rqs - {r}, x);
  }

  lemma LoadChanged(rqs: map<Id, Rq>, r: Id, q: Rq)
    ensures Load(rqs[r := q]) == q.sectors + Load(rqs - {r})
  {
    LoadWithout(rqs[r := q], r);
    assert rqs[r := q] - {r} == rqs - {r};
  }

  // ---------------------------------------------------------------- every run

  datatype Op =
    | Enter(r: Id, q: Rq)
    | Refuse(r: Id)
    | BackMerge(r: Id, n: nat)
    | FrontMerge(r: Id, n: nat)
    | Join(r: Id, next: Id)
    | Dispatch(r: Id)
    | Lookup(offset: int)

  ghost predicate Enabled(s: State, op: Op) {
    match op
    case Enter(r, _) => r !in s.rqs
    case BackMerge(r, _) => r in s.rqs && s.rqs[r].mergeable
    case FrontMerge(r, _) => r in s.rqs && s.rqs[r].mergeable
    case Join(r, next) => r in s.rqs && next in s.rqs && r != next && s.rqs[r].mergeable && s.rqs[r].End() == s.rqs[next].pos
    case Lookup(_) => true
    case _ => op.r in s.rqs
  }

  ghost function Next(t: Table, s: State, op: Op): State
    requires Inv(t, s) && Enabled(s, op)
  {
    match op
    case Enter(r, q) => Entered(t, s, r, q)
    case Refuse(r) => Refused(s, r)
    case BackMerge(r, n) => BackMerged(t, s, r, n)
    case FrontMerge(r, n) => FrontMerged(s, r, n)
    case Join(r, next) => Joined(t, s, r, next)
    case Dispatch(r) => Dispatched(s, r)
    case Lookup(offset) =>
      FindIsScan(t, s, offset);
      Find(t, s, offset).0
  }

  lemma NextKeeps(t: Table, s: State, op: Op)
    requires Inv(t, s) && Enabled(s, op)
    ensures Inv(t, Next(t, s, op))
  {
    hide BucketOk, Hashed, Unhashed, Find;
    match op
    case Enter(r, q) => EnteredKeeps(t, s, r, q);
    case Refuse(r) => RefusedKeeps(t, s, r);
    case BackMerge(r, n) => BackMergedKeeps(t, s, r, n);
    case FrontMerge(r, n) => FrontMergedKeeps(t, s, r, n);
    case Join(r, next) => JoinedKeeps(t, s, r, next);
    case Dispatch(r) => DispatchedKeeps(t, s, r);
    case Lookup(offset) => FindIsScan(t, s, offset);
  }

  function Empty(t: Table): State { State(map[], seq(t.entries, _ => []), None, 0) }

  ghost function Run(t: Table, ops: seq<Op>): (s: Option<State>)
    requires t.Valid()
    ensures s.Some? ==> Inv(t, s.value)
  {
    if ops == [] then Some(Empty(t))
    else
      var s := Run(t, ops[..|ops| - 1]);
      if s.Some? && Enabled(s.value, ops[|ops| - 1]) then
        NextKeeps(t, s.value, ops[|ops| - 1]);
        Some(Next(t, s.value, ops[|ops| - 1]))
      else None
  }

  /** After any run of inserts, merges, refusals, lookups and dispatches, lookup is a plain scan and the cache is null or queued. */
  lemma RunIndexed(t: Table, ops: seq<Op>, offset: int)
    requires t.Valid() && Run(t, ops).Some?
    ensures var s := Run(t, ops).value;
            && t.hash(offset) < |s.buckets| && (forall r :: r in s.buckets[t.hash(offset)] ==> r in s.rqs)
            && (Find(t, s, offset).1.Some? <==> exists r :: EndsAt(s.rqs, r, offset))
            && (s.lastMerge.Some? ==> s.lastMerge.value in s.rqs) && s.nrSorted == |s.rqs|
  {
    FindIsScan(t, Run(t, ops).value, offset);
  }

  /** The sectors a step brings into the elevator, less those it takes out. */
  function Flow(s: State, op: Op): int
    requires op.Dispatch? ==> op.r in s.rqs
  {
    match op
    case Enter(_, q) => q.sectors
    case BackMerge(_, n) => n
    case FrontMerge(_, n) => n
    case Dispatch(r) => 0 - s.rqs[r].sectors
    case _ => 0
  }

  ghost function Flows(t: Table, ops: seq<Op>): int
    requires t.Valid() && Run(t, ops).Some?
  {
    if ops == [] then 0 else Flows(t, ops[..|ops| - 1]) + Flow(Run(t, ops[..|ops| - 1]).value, ops[|ops| - 1])
  }

  lemma NextConserves(t: Table, s: State, op: Op)
    requires Inv(t, s) && Enabled(s, op)
    ensures Load(Next(t, s, op).rqs) == Load(s.rqs) + Flow(s, op)
  {
    hide Load, BucketOk, Hashed, Unhashed;
    match op
    case Enter(r, q) =>
      LoadChanged(s.rqs, r, q);
      assert s.rqs - {r} == s.rqs;
    case Refuse(r) =>
      LoadWithout(s.rqs, r);
      LoadChanged(s.rqs, r, Next(t, s, op).rqs[r]);
    case BackMerge(r, n) =>
      LoadWithout(s.rqs, r);
      LoadChanged(s.rqs, r, Next(t, s, op).rqs[r]);
    case FrontMerge(r, n) =>
      LoadWithout(s.rqs, r);
      LoadChanged(s.rqs, r, Next(t, s, op).rqs[r]);
    case Join(r, next) =>
      var q := s.rqs[r].(sectors := s.rqs[r].sectors + s.rqs[next].sectors);
      LoadWithout(s.rqs, r);
      LoadChanged(s.rqs, r, q);
      LoadWithout(s.rqs[r := q], next);
    case Dispatch(r) => LoadWithout(s.rqs, r);
    case Lookup(offset) => FindIsScan(t, s, offset);
  }

  /** In every run the sectors in the elevator are those that came in less those that were dispatched. */
  lemma {:induction false} RunConserves(t: Table, ops: seq<Op>)
    requires t.Valid() && Run(t, ops).Some?
    ensures Load(Run(t, ops).value.rqs) == Flows(t, ops)
  {
    hide Inv, Enabled, Next, Load;
    if ops == [] {
      LoadNone();
    } else {
      RunConserves(t, ops[..|ops| - 1]);
      NextConserves(t, Run(t, ops[..|ops| - 1]).value, ops[|ops| - 1]);
    }
  }

  lemma LoadNone()
    ensures Load(map[]) == 0
  {
  }

  // ---------------------------------------------------------------- the dispatch queue

  /** First sector, direction, discard, and the flags that stop a sort (barrier or started). */
  datatype Entry = Entry(id: Id, pos: int, write: bool, discard: bool, stop: bool)

  predicate Alike(x: Entry, y: Entry) { x.write == y.write && x.discard == y.discard }

  /** One-way elevator order: from the boundary up, then from the bottom up. */
  predicate Follows(x: Entry, y: Entry, boundary: int) {
    if (x.pos >= boundary) == (y.pos >= boundary) then x.pos >= y.pos else x.pos < boundary
  }

  /** Does the backward scan for `x` stop at `y`? */
  predicate StopsAt(x: Entry, y: Entry, boundary: int) { !Alike(x, y) || y.stop || Follows(x, y, boundary) }

  /** Where the scan of elv_dispatch_sort puts `x`: behind the last entry it stops at. */
  function SortPoint(l: seq<Entry>, x: Entry, boundary: int): (k: nat)
    ensures k <= |l|
  {
    if l == [] then 0 else if StopsAt(x, l[|l| - 1], boundary) then |l| else SortPoint(l[..|l| - 1], x, boundary)
  }

  function Sorted(l: seq<Entry>, x: Entry, boundary: int): seq<Entry> {
    var k := SortPoint(l, x, boundary);
    l[..k] + [x] + l[k..]
  }

  /** Two entries of one stretch: alike, and neither stops a sort. */
  predicate Together(x: Entry, y: Entry) { Alike(x, y) && !x.stop && !y.stop }

  ghost predicate InOrder(l: seq<Entry>, boundary: int) {
    forall i :: 0 < i < |l| && Together(l[i - 1], l[i]) ==> Follows(l[i], l[i - 1], boundary)
  }

  lemma {:induction false} SortPointStops(l: seq<Entry>, x: Entry, boundary: int)
    ensures var k := SortPoint(l, x, boundary);
            && (k > 0 ==> StopsAt(x, l[k - 1], boundary))
            && forall i :: k <= i < |l| ==> !StopsAt(x, l[i], boundary)
  {
    if l != [] && !StopsAt(x, l[|l| - 1], boundary) { SortPointStops(l[..|l| - 1], x, boundary); }
  }

  /**
   A sorted insert keeps the order of all others, passes only entries of its own kind that
   are neither barriers nor started, and keeps every stretch in one-way elevator order.
   */
  lemma SortedKeeps(l: seq<Entry>, x: Entry, boundary: int)
    requires InOrder(l, boundary)
    ensures var k := SortPoint(l, x, boundary);
            && Sorted(l, x, boundary) == l[..k] + [x] + l[k..] && InOrder(Sorted(l, x, boundary), boundary)
            && forall i :: k <= i < |l| ==> l[i].write == x.write && l[i].discard == x.discard && !l[i].stop
  {
    SortPointStops(l, x, boundary);
    var k, m := SortPoint(l, x, boundary), Sorted(l, x, boundary);
    forall i | 0 < i < |m| && Together(m[i - 1], m[i]) ensures Follows(m[i], m[i - 1], boundary) {
      if i < k {
        assert m[i - 1] == l[i - 1] && m[i] == l[i];
      } else if i > k + 1 {
        assert m[i - 1] == l[i - 2] && m[i] == l[i - 1];
      }
    }
  }

  lemma {:induction false} StretchInOrder(l: seq<Entry>, boundary: int, i: nat, j: nat)
    requires InOrder(l, boundary) && i < j < |l| && forall k :: i < k <= j ==> Together(l[k - 1], l[k])
    ensures Follows(l[j], l[i], boundary)
  {
    if i + 1 < j { StretchInOrder(l, boundary, i, j - 1); }
  }

  /** What one-way elevator order means: within a stretch the head sweeps up from the boundary, and then up from the bottom to it. */
  lemma {:induction false} StretchSweeps(l: seq<Entry>, boundary: int, i: nat, j: nat) returns (k: nat)
    requires InOrder(l, boundary) && i < j <= |l|
    requires forall m :: i <= m < j ==> l[m].write == l[i].write && l[m].discard == l[i].discard && !l[m].stop
    ensures i <= k <= j && (forall m :: i <= m < k ==> l[m].pos >= boundary) && (forall m :: k <= m < j ==> l[m].pos < boundary)
    ensures forall m, n :: i <= m < n < j && (n < k || k <= m) ==> l[m].pos <= l[n].pos
  {
    if i + 1 == j {
      k := if l[i].pos >= boundary then j else i;
    } else {
      k := StretchSweeps(l, boundary, i, j - 1);
      assert Together(l[j - 2], l[j - 1]);
      assert Follows(l[j - 1], l[j - 2], boundary);
      if k == j - 1 && l[j - 1].pos >= boundary { k := j; }
    }
  }

  /** Any number of sorted inserts into an empty queue, with the boundary fixed. */
  function SortAll(xs: seq<Entry>, boundary: int): seq<Entry> {
    if xs == [] then [] else Sorted(SortAll(xs[..|xs| - 1], boundary), xs[|xs| - 1], boundary)
  }

  lemma SortedSame(l: seq<Entry>, x: Entry, boundary: int)
    ensures multiset(Sorted(l, x, boundary)) == multiset(l) + multiset{x}
  {
    hide SortPoint;
    var k := SortPoint(l, x, boundary);
    assert l == l[..k] + l[k..];
  }

  lemma {:induction false} SortAllInOrder(xs: seq<Entry>, boundary: int)
    ensures InOrder(SortAll(xs, boundary), boundary) && multiset(SortAll(xs, boundary)) == multiset(xs)
  {
    hide SortPoint, Sorted, Together, Follows;
    if xs != [] {
      var n := |xs| - 1;
      SortAllInOrder(xs[..n], boundary);
      var l := SortAll(xs[..n], boundary);
      SortedKeeps(l, xs[n], boundary);
      SortedSame(l, xs[n], boundary);
      assert xs == xs[..n] + [xs[n]];
    }
  }

  // ---------------------------------------------------------------- the queue object

  /** The loop of elv_rqhash_find. */
  method WalkBucket(rqs: map<Id, Rq>, l: seq<Id>, offset: int) returns (kept: seq<Id>, found: Option<Id>)
    requires forall r :: r in l ==> r in rqs
    ensures Scan(kept, found) == Walk(rqs, l, offset)
  {
    kept, found := [], None;
    var k := 0;
    assert l[0..] == l && kept + Walk(rqs, l, offset).kept == Walk(rqs, l, offset).kept;
    while k < |l|
      invariant 0 <= k <= |l| && found == None
      invariant kept + Walk(rqs, l[k..], offset).kept == Walk(rqs, l, offset).kept
      invariant Walk(rqs, l[k..], offset).found == Walk(rqs, l, offset).found
    {
      var r := l[k];
      assert l[k..][0] == r && l[k..][1..] == l[k + 1..];
      if rqs[r].mergeable {
        if rqs[r].End() == offset { return kept + l[k..], Some(r); }
        WalkOn(rqs, l, k, offset, kept);
        kept := kept + [r];
      }
      k := k + 1;
    }
    assert kept + [] == kept;
  }

  class RequestQueue {
    const t: Table
    var rqs: map<Id, Rq>
    var buckets: seq<seq<Id>>
    var lastMerge: Option<Id>
    var nrSorted: int
    /** The dispatch queue and end_sector. */
    var queue: seq<Entry>
    var endSector: int

    ghost function View(): State
      reads this
    {
      State(rqs, buckets, lastMerge, nrSorted)
    }

    ghost predicate Valid()
      reads this
    {
      Inv(t, View())
    }

    constructor (t: Table)
      requires t.Valid()
      ensures Valid() && this.t == t && View() == Empty(t) && queue == []
    {
      this.t := t;
      rqs, buckets, lastMerge, nrSorted := map[], seq(t.entries, _ => []), None, 0;
      queue, endSector := [], 0;
    }

    /** elv_rqhash_add. */
    method HashAdd(r: Id)
      requires r in rqs && t.hash(rqs[r].End()) < |buckets|
      modifies `buckets
      ensures buckets == Pushed(old(buckets), t.hash(rqs[r].End()), r)
    {
      var i := t.hash(rqs[r].End());
      buckets := buckets[i := [r] + buckets[i]];
    }

    /** __elv_add_request with ELEVATOR_INSERT_SORT. */
    method AddSorted(r: Id, q: Rq)
      requires Valid() && r !in rqs
      modifies this
      ensures Valid() && View() == Entered(t, old(View()), r, q)
    {
      hide BucketOk, Hashed;
      EnteredKeeps(t, View(), r, q);
      rqs, nrSorted := rqs[r := q], nrSorted + 1;
      if q.mergeable {
        HashAdd(r);
        if lastMerge == None { lastMerge := Some(r); }
      }
    }

    /** elv_rqhash_find. */
    method HashFind(offset: int) returns (found: Option<Id>)
      requires Valid()
      modifies `buckets
      ensures Valid() && t.hash(offset) < |old(buckets)| && (forall r :: r in old(buckets)[t.hash(offset)] ==> r in rqs)
      ensures View() == Find(t, old(View()), offset).0 && found == Find(t, old(View()), offset).1
      ensures found.Some? <==> exists r :: EndsAt(rqs, r, offset)
    {
      FindIsScan(t, View(), offset);
      var i := t.hash(offset);
      var kept;
      kept, found := WalkBucket(rqs, buckets[i], offset);
      buckets := buckets[i := kept];
    }

    /** elv_merged_request after a back merge, together with the growth of the request. */
    method MergedBack(r: Id, n: nat)
      requires Valid() && r in rqs && rqs[r].mergeable
      modifies this
      ensures Valid() && t.hash(old(rqs)[r].End() + n) < |old(buckets)| && View() == BackMerged(t, old(View()), r, n)
    {
      hide BucketOk, Hashed, Unhashed;
      BackMergedKeeps(t, View(), r, n);
      UnhashedSize(buckets, r);
      rqs := rqs[r := rqs[r].(sectors := rqs[r].sectors + n)];
      buckets := Unhashed(buckets, r);
      HashAdd(r);
      lastMerge := Some(r);
    }

    /** elv_merged_request after a front merge, together with the growth of the request. */
    method MergedFront(r: Id, n: nat)
      requires Valid() && r in rqs && rqs[r].mergeable
      modifies this
      ensures Valid() && View() == FrontMerged(old(View()), r, n)
    {
      hide BucketOk, Hashed;
      FrontMergedKeeps(t, View(), r, n);
      rqs := rqs[r := rqs[r].(pos := rqs[r].pos - n, sectors := rqs[r].sectors + n)];
      lastMerge := Some(r);
    }

    /** The refusal of a merge by ll_new_hw_segment and its callers. */
    method RefuseMerge(r: Id)
      requires Valid() && r in rqs
      modifies this
      ensures Valid() && View() == Refused(old(View()), r)
    {
      hide BucketOk, Hashed;
      RefusedKeeps(t, View(), r);
      rqs := rqs[r := rqs[r].(mergeable := false)];
      if lastMerge == Some(r) { lastMerge := None; }
    }

    /** attempt_merge and elv_merge_requests for two requests of the elevator. */
    method MergeRequests(r: Id, next: Id)
      requires Valid() && r in rqs && next in rqs && r != next && rqs[r].mergeable && rqs[r].End() == rqs[next].pos
      modifies this
      ensures Valid() && t.hash(old(rqs)[r].End() + old(rqs)[next].sectors) < |old(buckets)|
      ensures View() == Joined(t, old(View()), r, next)
    {
      hide BucketOk, Hashed, Unhashed;
      JoinedKeeps(t, View(), r, next);
      UnhashedSize(buckets, r);
      rqs := rqs[r := rqs[r].(sectors := rqs[r].sectors + rqs[next].sectors)];
      buckets := Unhashed(buckets, r);
      HashAdd(r);
      buckets, nrSorted := Unhashed(buckets, next), nrSorted - 1;
      rqs := rqs - {next};
      lastMerge := Some(r);
    }

    /** The backward scan of elv_dispatch_sort. */
    method FindSortPoint(x: Entry) returns (k: nat)
      ensures k == SortPoint(queue, x, endSector)
    {
      k := |queue|;
      assert queue[..k] == queue;
      while k > 0
        invariant k <= |queue| && SortPoint(queue, x, endSector) == SortPoint(queue[..k], x, endSector)
      {
        var y := queue[k - 1];
        assert queue[..k][..k - 1] == queue[..k - 1] && queue[..k][k - 1] == y;
        if x.discard != y.discard || x.write != y.write || y.stop { return; }
        if x.pos >= endSector {
          if y.pos >= endSector && x.pos >= y.pos { return; }
        } else {
          if y.pos >= endSector || x.pos >= y.pos { return; }
        }
        k := k - 1;
      }
    }

    /** The part common to both ways of dispatching. */
    method LeaveElevator(r: Id)
      requires Valid() && r in rqs
      modifies `rqs, `buckets, `lastMerge, `nrSorted
      ensures Valid() && View() == Dispatched(old(View()), r)
    {
      hide BucketOk, Hashed, Unhashed;
      DispatchedKeeps(t, View(), r);
      if lastMerge == Some(r) { lastMerge := None; }
      buckets := Unhashed(buckets, r);
      nrSorted := nrSorted - 1;
      rqs := rqs - {r};
    }

    /** elv_dispatch_sort: `x` describes the request to the dispatch queue. */
    method DispatchSort(x: Entry)
      requires Valid() && x.id in rqs
      modifies this
      ensures Valid() && View() == Dispatched(old(View()), x.id)
      ensures endSector == old(endSector) && queue == Sorted(old(queue), x, endSector)
      ensures InOrder(old(queue), endSector) ==> InOrder(queue, endSector)
    {
      hide Inv, SortPoint, InOrder, Dispatched;
      LeaveElevator(x.id);
      if InOrder(queue, endSector) { SortedKeeps(queue, x, endSector); }
      var k := FindSortPoint(x);
      queue := queue[..k] + [x] + queue[k..];
    }

    /** elv_dispatch_add_tail. */
    method DispatchAddTail(x: Entry, end: int)
      requires Valid() && x.id in rqs
      modifies this
      ensures Valid() && View() == Dispatched(old(View()), x.id) && endSector == end && queue == old(queue) + [x]
    {
      hide Inv, Dispatched;
      LeaveElevator(x.id);
      endSector, queue := end, queue + [x];
    }
  }

  lemma UnhashedSize(bs: seq<seq<Id>>, r: Id)
    ensures |Unhashed(bs, r)| == |bs|
  {
  }

  lemma WalkOn(rqs: map<Id, Rq>, l: seq<Id>, k: nat, offset: int, kept: seq<Id>)
    requires k < |l| && (forall r :: r in l ==> r in rqs) && rqs[l[k]].mergeable && rqs[l[k]].End() != offset
    ensures var w := Walk(rqs, l[k..], offset);
            var v := Walk(rqs, l[k + 1..], offset);
            kept + w.kept == (kept + [l[k]]) + v.kept && w.found == v.found
  {
    assert l[k..][1..] == l[k + 1..];
  }
}
