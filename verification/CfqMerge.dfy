/**
 Cooperating-queue merging in the CFQ I/O scheduler (cfq-iosched.c).

 A sync cfq_queue that should be merged into another one points at it through
 `next` (new_cfqq in the source).  References for the merge are granted in
 advance: when the link is made, the target receives as many references as the
 source has process references, and every process later spends exactly one of
 them, either by moving along the link or by dropping the whole chain.

 A QueueId is the address of a queue.  `queues` holds the live ones only, so a
 lookup of a freed queue is an ill-formed expression: that the methods of
 CfqData verify at all means that no freed queue is ever followed or dropped.
 Only SetupMerge asks for something in return, and only after a reference was
 lost: a chain that is still safe to follow.
 Addresses may be reused after a free, so a stale link can come to point at an
 unrelated new queue.
 */
module CfqMerge {
  import opened Wrappers
  import opened Lists

  type QueueId = nat
  type CicId = nat
  type RqId = nat

  /** cfq_queue, restricted to what the merge protocol uses. */
  datatype Queue = Queue(ref: int, allocR: int, allocW: int, next: Option<QueueId>, coop: bool, splitCoop: bool) {
    function Allocated(): int { allocR + allocW }
    function ProcessRefs(): int { ref - Allocated() }
    function Unalloc(write: bool): Queue {
      if write then this.(allocW := allocW - 1) else this.(allocR := allocR - 1)
    }
    function Bump(write: bool): Queue {
      if write then this.(allocW := allocW + 1, ref := ref + 1) else this.(allocR := allocR + 1, ref := ref + 1)
    }
  }

  const FreshQueue := Queue(1, 0, 0, None, false, false)

  /** A request remembers the queue it was charged to (RQ_CFQQ). */
  datatype Rq = Rq(queue: QueueId, write: bool)

  type Queues = map<QueueId, Queue>
  type Ranks = map<QueueId, nat>
  /** cic->cfqq[SYNC] of every io-context that has one. */
  type Holders = map<CicId, QueueId>
  type Walks = map<CicId, seq<QueueId>>

  datatype State = State(queues: Queues, holders: Holders, rqs: map<RqId, Rq>)

  // ---------------------------------------------------------------- chains

  /** A rank that strictly falls along every link between live queues: new_cfqq is a forest. */
  ghost predicate Ranked(qs: Queues, r: Ranks) {
    && qs.Keys <= r.Keys
    && forall p, q :: p in qs && q in qs && qs[p].next == Some(q) ==> r[q] < r[p]
  }

  /** `c` follows new_cfqq from its first queue to a queue without a link, over live queues only. */
  ghost predicate Linked(qs: Queues, c: seq<QueueId>) {
    && (forall k :: 0 <= k < |c| ==> c[k] in qs)
    && (forall i, j :: 0 <= i < j < |c| && j == i + 1 ==> qs[c[i]].next == Some(c[j]))
    && (c != [] ==> qs[c[|c| - 1]].next == None)
  }

  /** The whole new_cfqq chain of `q`, with `q` first. */
  ghost predicate IsChain(qs: Queues, q: QueueId, c: seq<QueueId>) {
    c != [] && c[0] == q && Linked(qs, c) && NoRepeat(c)
  }

  /** `w` gives the chain of every holder. */
  ghost predicate Walked(qs: Queues, hs: Holders, w: Walks) {
    && w.Keys == hs.Keys
    && (forall h :: h in hs ==> hs[h] in qs && w[h] != [])
    && (forall h {:trigger IsChain(qs, hs[h], w[h])} :: h in w ==> IsChain(qs, hs[h], w[h]))
  }

  ghost function Members(c: seq<QueueId>): set<QueueId> { set x | x in c }

  /** The holders whose chain passes through `q`. */
  ghost function Users(w: Walks, q: QueueId): set<CicId> {
    set h | h in w && q in w[h]
  }

  ghost function RqsOn(rqs: map<RqId, Rq>, q: QueueId, write: bool): set<RqId> {
    set i | i in rqs && rqs[i] == Rq(q, write)
  }

  /** Reference count of `q`: its requests, the holders whose chain passes through it, and `debt` further ones. */
  ghost predicate Balanced(e: Queue, q: QueueId, rqs: map<RqId, Rq>, w: Walks, debt: multiset<QueueId>) {
    && e.allocR == |RqsOn(rqs, q, false)|
    && e.allocW == |RqsOn(rqs, q, true)|
    && e.ref == e.Allocated() + |Users(w, q)| + debt[q]
    && e.ref > 0
  }

  ghost predicate Counted(qs: Queues, rqs: map<RqId, Rq>, w: Walks, debt: multiset<QueueId>) {
    forall q {:trigger Balanced(qs[q], q, rqs, w, debt)} :: q in qs ==> Balanced(qs[q], q, rqs, w, debt)
  }

  ghost predicate Charged(qs: Queues, rqs: map<RqId, Rq>) {
    forall i :: i in rqs ==> rqs[i].queue in qs
  }

  /**
   The invariant, with the references of `debt` on top of those that requests and chains account
   for: drops still owed in the middle of an operation, and references nobody will ever drop.
   */
  ghost predicate Owing(s: State, r: Ranks, w: Walks, debt: multiset<QueueId>) {
    && Ranked(s.queues, r)
    && Walked(s.queues, s.holders, w)
    && Charged(s.queues, s.rqs)
    && (forall q :: q in debt ==> q in s.queues)
    && Counted(s.queues, s.rqs, w, debt)
  }

  /** The invariant between operations when no reference was lost: every reference has an owner. */
  ghost predicate Inv(s: State, r: Ranks, w: Walks) { Owing(s, r, w, multiset{}) }

  /** Following links is deterministic, so a queue has at most one chain. */
  lemma {:induction false} ChainUnique(qs: Queues, c: seq<QueueId>, d: seq<QueueId>)
    requires Linked(qs, c) && Linked(qs, d) && c != [] && d != [] && c[0] == d[0]
    ensures c == d
    decreases |c|
  {
    assert |c| > 1 ==> qs[c[0]].next == Some(c[1]);
    assert |d| > 1 ==> qs[d[0]].next == Some(d[1]);
    if |c| > 1 {
      ChainUnique(qs, c[1..], d[1..]);
      assert c == [c[0]] + c[1..] && d == [d[0]] + d[1..];
    }
  }

  lemma FirstMember(c: seq<QueueId>)
    requires NoRepeat(c) && c != []
    ensures c[0] !in Members(c[1..]) && Members(c) == Members(c[1..]) + {c[0]} && Members(c) - Members(c[1..]) == {c[0]}
  {
    assert c == [c[0]] + c[1..];
  }

  lemma NotEarlier(c: seq<QueueId>, k: nat)
    requires NoRepeat(c) && k < |c|
    ensures c[k] !in c[..k]
    ensures k > 0 ==> c[k] != c[0] && c[k] !in c[1..k]
  {
  }

  lemma LinkAt(qs: Queues, c: seq<QueueId>, k: nat)
    requires Linked(qs, c) && k + 1 < |c|
    ensures qs[c[k]].next == Some(c[k + 1])
  {
  }

  /** A queue without a link can only be the last one of a chain. */
  lemma EndIsLast(qs: Queues, c: seq<QueueId>, k: nat)
    requires Linked(qs, c) && k < |c| && qs[c[k]].next == None
    ensures k + 1 == |c|
  {
    if k + 1 < |c| { LinkAt(qs, c, k); }
  }

  // ---------------------------------------------------------------- effect of each elementary change

  /** cfq_put_queue on every queue of `c`: one reference less, and free at zero. */
  function DropRefs(qs: Queues, c: set<QueueId>): Queues {
    map q | q in qs && !(q in c && qs[q].ref == 1) :: if q in c then qs[q].(ref := qs[q].ref - 1) else qs[q]
  }

  lemma DropRefsTwice(qs: Queues, c: set<QueueId>, q: QueueId)
    requires q !in c
    ensures DropRefs(DropRefs(qs, c), {q}) == DropRefs(qs, c + {q})
  {
  }

  lemma DropRefsOthers(qs: Queues, c: set<QueueId>, q: QueueId)
    requires q in qs && q !in c
    ensures q in DropRefs(qs, c) && DropRefs(qs, c)[q] == qs[q]
  {
  }

  lemma DropNone(qs: Queues)
    ensures DropRefs(qs, {}) == qs
  {
  }

  lemma Paid(lost: multiset<QueueId>, c: set<QueueId>)
    ensures lost + multiset(c) - multiset(c) == lost && forall q :: q in c ==> q in lost + multiset(c)
  {
  }

  lemma PaidOne(lost: multiset<QueueId>, q: QueueId)
    ensures lost + multiset{q} - multiset({q}) == lost && lost + multiset{q} - multiset{q} == lost && q in lost + multiset{q}
  {
  }

  lemma PaidTail(lost: multiset<QueueId>, c: set<QueueId>, q: QueueId)
    requires q !in c
    ensures lost + multiset(c + {q}) - multiset(c) == lost + multiset{q}
  {
  }

  lemma PaidMore(debt: multiset<QueueId>, done: set<QueueId>, q: QueueId)
    requires q !in done
    ensures debt - multiset(done) - multiset{q} == debt - multiset(done + {q})
  {
  }

  lemma PaidNone(debt: multiset<QueueId>)
    ensures debt - multiset({}) == debt
  {
  }

  /** A queue whose last reference is the one owed has neither requests nor users. */
  lemma LastRef(e: Queue, q: QueueId, rqs: map<RqId, Rq>, w: Walks, debt: multiset<QueueId>)
    requires Balanced(e, q, rqs, w, debt) && q in debt && e.ref == 1
    ensures e.Allocated() == 0 && Users(w, q) == {} && RqsOn(rqs, q, false) == {} && RqsOn(rqs, q, true) == {}
  {
  }

  /** Freeing a queue that no chain passes through leaves every chain in place. */
  lemma DropRefsWalked(qs: Queues, hs: Holders, w: Walks, c: set<QueueId>)
    requires Walked(qs, hs, w)
    requires forall q :: q in c && q in qs && qs[q].ref == 1 ==> Users(w, q) == {}
    ensures Walked(DropRefs(qs, c), hs, w)
  {
    var qs' := DropRefs(qs, c);
    forall h | h in w ensures IsChain(qs', hs[h], w[h]) {
      assert IsChain(qs, hs[h], w[h]);
      forall x | x in w[h] ensures x in qs' && qs'[x].next == qs[x].next {
        assert h in Users(w, x);
      }
    }
  }

  lemma DropRefsCharged(qs: Queues, rqs: map<RqId, Rq>, c: set<QueueId>)
    requires Charged(qs, rqs)
    requires forall q :: q in c && q in qs && qs[q].ref == 1 ==> RqsOn(rqs, q, false) == {} && RqsOn(rqs, q, true) == {}
    ensures Charged(DropRefs(qs, c), rqs)
  {
    forall i | i in rqs ensures rqs[i].queue in DropRefs(qs, c) {
      assert i in RqsOn(rqs, rqs[i].queue, rqs[i].write);
    }
  }

  lemma DropRefsCounted(qs: Queues, rqs: map<RqId, Rq>, w: Walks, debt: multiset<QueueId>, c: set<QueueId>)
    requires Counted(qs, rqs, w, debt) && (forall q :: q in debt ==> q in qs) && (forall q :: q in c ==> q in debt)
    ensures Counted(DropRefs(qs, c), rqs, w, debt - multiset(c))
    ensures forall q :: q in debt - multiset(c) ==> q in DropRefs(qs, c)
  {
    var qs' := DropRefs(qs, c);
    forall q | q in qs' ensures Balanced(qs'[q], q, rqs, w, debt - multiset(c)) {
      assert Balanced(qs[q], q, rqs, w, debt);
    }
    forall q | q in debt - multiset(c) ensures q in qs' {
      assert Balanced(qs[q], q, rqs, w, debt);
    }
  }

  /** Paying owed drops keeps the invariant; none of them hits a zero count or frees a queue that still has requests. */
  lemma DropRefsKeeps(s: State, r: Ranks, w: Walks, debt: multiset<QueueId>, c: set<QueueId>)
    requires Owing(s, r, w, debt) && forall q :: q in c ==> q in debt
    ensures forall q :: q in c ==> s.queues[q].ref > 0 && (s.queues[q].ref == 1 ==> s.queues[q].Allocated() == 0)
    ensures Owing(s.(queues := DropRefs(s.queues, c)), r, w, debt - multiset(c))
  {
    forall q | q in c
      ensures s.queues[q].ref > 0
      ensures s.queues[q].ref == 1 ==>
        s.queues[q].Allocated() == 0 && Users(w, q) == {} && RqsOn(s.rqs, q, false) == {} && RqsOn(s.rqs, q, true) == {}
    {
      assert Balanced(s.queues[q], q, s.rqs, w, debt);
      if s.queues[q].ref == 1 { LastRef(s.queues[q], q, s.rqs, w, debt); }
    }
    DropRefsWalked(s.queues, s.holders, w, c);
    DropRefsCharged(s.queues, s.rqs, c);
    DropRefsCounted(s.queues, s.rqs, w, debt, c);
  }

  lemma RemoveUser(w: Walks, h: CicId, q: QueueId)
    requires h in w
    ensures |Users(w - {h}, q)| == |Users(w, q)| - (if q in w[h] then 1 else 0)
  {
    assert Users(w - {h}, q) == Users(w, q) - {h};
    if q in w[h] { assert h in Users(w, q); }
  }

  lemma AddUser(w: Walks, h: CicId, c: seq<QueueId>, q: QueueId)
    requires h !in w
    ensures |Users(w[h := c], q)| == |Users(w, q)| + (if q in c then 1 else 0)
  {
    assert Users(w[h := c], q) == Users(w, q) + (if q in c then {h} else {});
  }

  lemma ReplaceUser(w: Walks, h: CicId, c: seq<QueueId>, q: QueueId)
    requires h in w
    ensures |Users(w[h := c], q)| == |Users(w, q)| - (if q in w[h] then 1 else 0) + (if q in c then 1 else 0)
  {
    RemoveUser(w, h, q);
    AddUser(w - {h}, h, c, q);
    assert (w - {h})[h := c] == w[h := c];
  }

  lemma ReleaseCounted(qs: Queues, rqs: map<RqId, Rq>, w: Walks, lost: multiset<QueueId>, h: CicId)
    requires Counted(qs, rqs, w, lost) && h in w
    ensures Counted(qs, rqs, w - {h}, lost + multiset(Members(w[h])))
  {
    forall q | q in qs ensures Balanced(qs[q], q, rqs, w - {h}, lost + multiset(Members(w[h]))) {
      RemoveUser(w, h, q);
      assert Balanced(qs[q], q, rqs, w, lost);
    }
  }

  lemma MoveCounted(qs: Queues, rqs: map<RqId, Rq>, w: Walks, lost: multiset<QueueId>, h: CicId, a: QueueId, c: seq<QueueId>)
    requires Counted(qs, rqs, w, lost) && h in w
    requires a !in c && forall x :: x in w[h] <==> x == a || x in c
    ensures Counted(qs, rqs, w[h := c], lost + multiset{a})
  {
    forall q | q in qs ensures Balanced(qs[q], q, rqs, w[h := c], lost + multiset{a}) {
      ReplaceUser(w, h, c, q);
      assert Balanced(qs[q], q, rqs, w, lost);
    }
  }

  lemma ReleaseWalked(qs: Queues, hs: Holders, w: Walks, h: CicId)
    requires Walked(qs, hs, w)
    ensures Walked(qs, hs - {h}, w - {h})
  {
    forall g | g in w - {h} ensures IsChain(qs, (hs - {h})[g], (w - {h})[g]) {
      assert IsChain(qs, hs[g], w[g]);
    }
  }

  lemma MoveWalked(qs: Queues, hs: Holders, w: Walks, h: CicId, q: QueueId, c: seq<QueueId>)
    requires Walked(qs, hs, w) && IsChain(qs, q, c)
    ensures Walked(qs, hs[h := q], w[h := c])
  {
    var hs', w' := hs[h := q], w[h := c];
    forall g | g in w' ensures IsChain(qs, hs'[g], w'[g]) {
      if g != h { assert IsChain(qs, hs[g], w[g]); }
    }
  }

  /** A holder that lets go of its queue owes one drop on every queue of its chain. */
  lemma ReleaseKeeps(s: State, r: Ranks, w: Walks, lost: multiset<QueueId>, h: CicId)
    requires Owing(s, r, w, lost) && h in s.holders
    ensures Owing(s.(holders := s.holders - {h}), r, w - {h}, lost + multiset(Members(w[h])))
  {
    assert IsChain(s.queues, s.holders[h], w[h]);
    ReleaseWalked(s.queues, s.holders, w, h);
    ReleaseCounted(s.queues, s.rqs, w, lost, h);
  }

  lemma ChainTail(qs: Queues, q: QueueId, c: seq<QueueId>)
    requires IsChain(qs, q, c) && qs[q].next.Some?
    ensures |c| > 1 && qs[q].next.value == c[1] && IsChain(qs, c[1], c[1..]) && q !in c[1..]
    ensures forall x :: x in c <==> x == q || x in c[1..]
  {
    assert |c| > 1;
    assert qs[c[0]].next == Some(c[1]);
    assert c == [c[0]] + c[1..];
  }

  /** A holder that moves one link along owes one drop on the queue it left. */
  lemma MoveKeeps(s: State, r: Ranks, w: Walks, lost: multiset<QueueId>, h: CicId)
    requires Owing(s, r, w, lost) && h in s.holders && s.holders[h] in s.queues && h in w && s.queues[s.holders[h]].next.Some?
    ensures s.queues[s.holders[h]].next.value in s.queues
    ensures Owing(s.(holders := s.holders[h := s.queues[s.holders[h]].next.value]), r, w[h := w[h][1..]], lost + multiset{s.holders[h]})
  {
    var a := s.holders[h];
    assert IsChain(s.queues, a, w[h]);
    ChainTail(s.queues, a, w[h]);
    MoveWalked(s.queues, s.holders, w, h, w[h][1], w[h][1..]);
    MoveCounted(s.queues, s.rqs, w, lost, h, a, w[h][1..]);
  }

  function AddRq(s: State, i: RqId, q: QueueId, write: bool): State
    requires q in s.queues
  {
    s.(queues := s.queues[q := s.queues[q].Bump(write)], rqs := s.rqs[i := Rq(q, write)])
  }

  lemma AddRqCount(rqs: map<RqId, Rq>, i: RqId, q: QueueId, write: bool, x: QueueId, w: bool)
    requires i !in rqs
    ensures |RqsOn(rqs[i := Rq(q, write)], x, w)| == |RqsOn(rqs, x, w)| + (if x == q && w == write then 1 else 0)
  {
    assert RqsOn(rqs[i := Rq(q, write)], x, w) == RqsOn(rqs, x, w) + (if x == q && w == write then {i} else {});
  }

  lemma AddRqCounted(qs: Queues, rqs: map<RqId, Rq>, w: Walks, lost: multiset<QueueId>, i: RqId, q: QueueId, write: bool)
    requires Counted(qs, rqs, w, lost) && q in qs && i !in rqs
    ensures Counted(qs[q := qs[q].Bump(write)], rqs[i := Rq(q, write)], w, lost)
  {
    var qs' := qs[q := qs[q].Bump(write)];
    forall x | x in qs' ensures Balanced(qs'[x], x, rqs[i := Rq(q, write)], w, lost) {
      assert Balanced(qs[x], x, rqs, w, lost);
      AddRqCount(rqs, i, q, write, x, false);
      AddRqCount(rqs, i, q, write, x, true);
    }
  }

  lemma DropAllocCounted(qs: Queues, rqs: map<RqId, Rq>, w: Walks, lost: multiset<QueueId>, i: RqId, q: QueueId, write: bool)
    requires i !in rqs && q in qs
    requires Counted(qs, rqs[i := Rq(q, write)], w, lost)
    ensures Counted(qs[q := qs[q].Unalloc(write)], rqs, w, lost + multiset{q})
    ensures if write then qs[q].allocW > 0 else qs[q].allocR > 0
  {
    var qs' := qs[q := qs[q].Unalloc(write)];
    forall x | x in qs' ensures Balanced(qs'[x], x, rqs, w, lost + multiset{q}) {
      assert Balanced(qs[x], x, rqs[i := Rq(q, write)], w, lost);
      AddRqCount(rqs, i, q, write, x, false);
      AddRqCount(rqs, i, q, write, x, true);
    }
    assert Balanced(qs'[q], q, rqs, w, lost + multiset{q});
  }

  lemma SameLinksRanked(qs: Queues, qs': Queues, r: Ranks)
    requires Ranked(qs, r) && qs'.Keys == qs.Keys
    requires forall q :: q in qs ==> qs'[q].next == qs[q].next
    ensures Ranked(qs', r)
  {
  }

  /** Chains depend on the links only. */
  lemma SameLinksWalked(qs: Queues, qs': Queues, hs: Holders, w: Walks)
    requires Walked(qs, hs, w)
    requires forall q :: q in qs ==> q in qs' && qs'[q].next == qs[q].next
    ensures Walked(qs', hs, w)
  {
    forall h | h in w ensures IsChain(qs', hs[h], w[h]) {
      assert IsChain(qs, hs[h], w[h]);
    }
  }

  lemma AddRqKeeps(s: State, r: Ranks, w: Walks, lost: multiset<QueueId>, i: RqId, q: QueueId, write: bool)
    requires Owing(s, r, w, lost) && q in s.queues && i !in s.rqs
    ensures Owing(AddRq(s, i, q, write), r, w, lost)
  {
    var s' := AddRq(s, i, q, write);
    SameLinksRanked(s.queues, s'.queues, r);
    SameLinksWalked(s.queues, s'.queues, s.holders, w);
    AddRqCounted(s.queues, s.rqs, w, lost, i, q, write);
  }

  function DropAlloc(s: State, i: RqId): State
    requires i in s.rqs && s.rqs[i].queue in s.queues
  {
    var q := s.rqs[i].queue;
    s.(queues := s.queues[q := s.queues[q].Unalloc(s.rqs[i].write)], rqs := s.rqs - {i})
  }

  /** The count a request is charged to is positive, and ending the request owes one drop on its queue. */
  lemma DropAllocKeeps(s: State, r: Ranks, w: Walks, lost: multiset<QueueId>, i: RqId)
    requires Owing(s, r, w, lost) && i in s.rqs
    ensures s.rqs[i].queue in s.queues
    ensures var e := s.queues[s.rqs[i].queue]; if s.rqs[i].write then e.allocW > 0 else e.allocR > 0
    ensures Owing(DropAlloc(s, i), r, w, lost + multiset{s.rqs[i].queue})
  {
    var q, write := s.rqs[i].queue, s.rqs[i].write;
    var qs' := s.queues[q := s.queues[q].Unalloc(write)];
    assert s.rqs == (s.rqs - {i})[i := Rq(q, write)];
    DropAllocCounted(s.queues, s.rqs - {i}, w, lost, i, q, write);
    SameLinksRanked(s.queues, qs', r);
    SameLinksWalked(s.queues, qs', s.holders, w);
  }

  /** Put `q` at the bottom of the forest; sound whenever `q` itself has no outgoing link. */
  function Lower(r: Ranks, q: QueueId): Ranks {
    map x | x in r.Keys + {q} :: if x == q then 0 else r[x] + 1
  }

  function NewQueue(s: State, c: CicId, x: QueueId): State {
    s.(queues := s.queues[x := FreshQueue], holders := s.holders[c := x])
  }

  lemma NewQueueRanked(qs: Queues, r: Ranks, x: QueueId)
    requires Ranked(qs, r) && x !in qs
    ensures Ranked(qs[x := FreshQueue], Lower(r, x))
  {
  }

  lemma NoUsers(qs: Queues, hs: Holders, w: Walks, q: QueueId)
    requires Walked(qs, hs, w) && q !in qs
    ensures Users(w, q) == {}
  {
    forall h | h in w ensures q !in w[h] { assert IsChain(qs, hs[h], w[h]); }
  }

  lemma NewQueueCounted(qs: Queues, rqs: map<RqId, Rq>, w: Walks, lost: multiset<QueueId>, h: CicId, x: QueueId)
    requires Counted(qs, rqs, w, lost) && Charged(qs, rqs) && x !in qs && x !in lost && h !in w && Users(w, x) == {}
    ensures Counted(qs[x := FreshQueue], rqs, w[h := [x]], lost)
  {
    var qs' := qs[x := FreshQueue];
    forall q | q in qs' ensures Balanced(qs'[q], q, rqs, w[h := [x]], lost) {
      AddUser(w, h, [x], q);
      if q == x {
        assert RqsOn(rqs, q, false) == {} && RqsOn(rqs, q, true) == {};
      } else {
        assert Balanced(qs[q], q, rqs, w, lost);
      }
    }
  }

  /** A fresh queue may land on an address that stale links still point at. */
  lemma NewQueueKeeps(s: State, r: Ranks, w: Walks, lost: multiset<QueueId>, c: CicId, x: QueueId)
    requires Owing(s, r, w, lost) && c !in s.holders && x !in s.queues
    ensures Owing(NewQueue(s, c, x), Lower(r, x), w[c := [x]], lost)
  {
    var qs' := s.queues[x := FreshQueue];
    NewQueueRanked(s.queues, r, x);
    SameLinksWalked(s.queues, qs', s.holders, w);
    MoveWalked(qs', s.holders, w, c, x, [x]);
    NoUsers(s.queues, s.holders, w, x);
    NewQueueCounted(s.queues, s.rqs, w, lost, c, x);
  }

  /** cfqq->new_cfqq = new; new gets as many references as cfqq has process references. */
  function Link(qs: Queues, a: QueueId, b: QueueId): Queues
    requires a in qs && b in qs && a != b
  {
    qs[a := qs[a].(next := Some(b))][b := qs[b].(ref := qs[b].ref + qs[a].ProcessRefs())]
  }

  ghost function LinkWalks(w: Walks, a: QueueId, b: QueueId): Walks {
    map h | h in w :: if a in w[h] then w[h] + [b] else w[h]
  }

  lemma LinkChain(qs: Queues, q: QueueId, c: seq<QueueId>, a: QueueId, b: QueueId)
    requires a in qs && b in qs && a != b && qs[a].next == None && qs[b].next == None
    requires IsChain(qs, q, c)
    ensures IsChain(Link(qs, a, b), q, if a in c then c + [b] else c)
    ensures !(a in c && b in c)
  {
    if a in c {
      var k :| 0 <= k < |c| && c[k] == a;
      EndIsLast(qs, c, k);
      if b in c {
        var j :| 0 <= j < |c| && c[j] == b;
        EndIsLast(qs, c, j);
      }
      var d := c + [b];
      forall i, j | 0 <= i < j < |d| && j == i + 1 ensures Link(qs, a, b)[d[i]].next == Some(d[j]) {
        if j < |c| { LinkAt(qs, c, i); }
      }
    } else {
      forall i, j | 0 <= i < j < |c| && j == i + 1 ensures Link(qs, a, b)[c[i]].next == Some(c[j]) {
        LinkAt(qs, c, i);
      }
    }
  }

  lemma LinkWalked(qs: Queues, hs: Holders, w: Walks, a: QueueId, b: QueueId)
    requires a in qs && b in qs && a != b && qs[a].next == None && qs[b].next == None
    requires Walked(qs, hs, w)
    ensures Walked(Link(qs, a, b), hs, LinkWalks(w, a, b))
    ensures Users(w, a) !! Users(w, b)
  {
    var w' := LinkWalks(w, a, b);
    forall h | h in w ensures IsChain(Link(qs, a, b), hs[h], w'[h]) && !(a in w[h] && b in w[h]) {
      assert IsChain(qs, hs[h], w[h]);
      LinkChain(qs, hs[h], w[h], a, b);
    }
  }

  lemma LinkUsers(w: Walks, a: QueueId, b: QueueId, q: QueueId)
    requires Users(w, a) !! Users(w, b)
    ensures |Users(LinkWalks(w, a, b), q)| == |Users(w, q)| + (if q == b then |Users(w, a)| else 0)
  {
    assert Users(LinkWalks(w, a, b), q) == if q == b then Users(w, a) + Users(w, b) else Users(w, q);
  }

  /** A link hands on the lost references of the source along with the others. */
  ghost function LinkLost(lost: multiset<QueueId>, a: QueueId, b: QueueId): multiset<QueueId> { lost[b := lost[b] + lost[a]] }

  lemma LinkCounted(qs: Queues, rqs: map<RqId, Rq>, w: Walks, lost: multiset<QueueId>, a: QueueId, b: QueueId)
    requires a in qs && b in qs && a != b && Users(w, a) !! Users(w, b)
    requires Counted(qs, rqs, w, lost)
    ensures Counted(Link(qs, a, b), rqs, LinkWalks(w, a, b), LinkLost(lost, a, b))
  {
    var qs' := Link(qs, a, b);
    assert Balanced(qs[a], a, rqs, w, lost);
    forall q | q in qs' ensures Balanced(qs'[q], q, rqs, LinkWalks(w, a, b), LinkLost(lost, a, b)) {
      LinkUsers(w, a, b, q);
      assert Balanced(qs[q], q, rqs, w, lost);
    }
  }

  lemma LinkRanked(qs: Queues, r: Ranks, a: QueueId, b: QueueId)
    requires a in qs && b in qs && a != b && qs[b].next == None
    requires Ranked(qs, r)
    ensures Ranked(Link(qs, a, b), Lower(r, b))
  {
  }

  /** Joining two chain ends keeps the forest and the counts. */
  lemma LinkKeeps(s: State, r: Ranks, w: Walks, lost: multiset<QueueId>, a: QueueId, b: QueueId)
    requires Owing(s, r, w, lost)
    requires a in s.queues && b in s.queues && a != b && s.queues[a].next == None && s.queues[b].next == None
    ensures Owing(s.(queues := Link(s.queues, a, b)), Lower(r, b), LinkWalks(w, a, b), LinkLost(lost, a, b))
  {
    LinkRanked(s.queues, r, a, b);
    LinkWalked(s.queues, s.holders, w, a, b);
    LinkCounted(s.queues, s.rqs, w, lost, a, b);
  }

  /** A reference nobody owns, taken on a live queue. */
  lemma LoseKeeps(s: State, r: Ranks, w: Walks, lost: multiset<QueueId>, q: QueueId)
    requires Owing(s, r, w, lost) && q in s.queues
    ensures Owing(s.(queues := s.queues[q := s.queues[q].(ref := s.queues[q].ref + 1)]), r, w, lost + multiset{q})
  {
    var qs' := s.queues[q := s.queues[q].(ref := s.queues[q].ref + 1)];
    SameLinksRanked(s.queues, qs', r);
    SameLinksWalked(s.queues, qs', s.holders, w);
    LoseCounted(s.queues, s.rqs, w, lost, q);
    hide Ranked, Walked, Counted;
  }

  lemma LoseCounted(qs: Queues, rqs: map<RqId, Rq>, w: Walks, lost: multiset<QueueId>, q: QueueId)
    requires Counted(qs, rqs, w, lost) && q in qs
    ensures Counted(qs[q := qs[q].(ref := qs[q].ref + 1)], rqs, w, lost + multiset{q})
  {
    hide Users, RqsOn;
    var qs' := qs[q := qs[q].(ref := qs[q].ref + 1)];
    forall x | x in qs' ensures Balanced(qs'[x], x, rqs, w, lost + multiset{q}) {
      assert Balanced(qs[x], x, rqs, w, lost);
    }
  }

  lemma HolderLive(s: State, r: Ranks, w: Walks, lost: multiset<QueueId>, c: CicId)
    requires Owing(s, r, w, lost) && c in s.holders
    ensures s.holders[c] in s.queues && c in w && w[c] != []
  {
  }

  lemma OwedLive(s: State, r: Ranks, w: Walks, debt: multiset<QueueId>, q: QueueId)
    requires Owing(s, r, w, debt) && q in debt
    ensures q in s.queues && debt - multiset({q}) == debt - multiset{q}
  {
  }

  lemma RqLive(s: State, r: Ranks, w: Walks, lost: multiset<QueueId>, i: RqId)
    requires Owing(s, r, w, lost) && i in s.rqs
    ensures s.rqs[i].queue in s.queues
  {
  }

  lemma UnallocIs(s: State, i: RqId)
    requires i in s.rqs && s.rqs[i].queue in s.queues
    ensures var q := s.rqs[i].queue;
            DropAlloc(s, i) == State(s.queues[q := s.queues[q].Unalloc(s.rqs[i].write)], s.holders, s.rqs - {i})
  {
  }

  lemma PutStep(s: State, i: RqId, s': State)
    requires i in s.rqs && s.rqs[i].queue in s.queues
    requires s' == DropAlloc(s, i).(queues := DropRefs(DropAlloc(s, i).queues, {s.rqs[i].queue}))
    ensures Next(s, Op.PutRequest(i), s')
  {
  }

  lemma HolderChain(s: State, r: Ranks, w: Walks, lost: multiset<QueueId>, c: CicId)
    requires Owing(s, r, w, lost) && c in s.holders
    ensures c in w && IsChain(s.queues, s.holders[c], w[c]) && s.holders[c] !in Members(w[c][1..])
    ensures Members(w[c]) == Members(w[c][1..]) + {s.holders[c]}
  {
    assert IsChain(s.queues, s.holders[c], w[c]);
    FirstMember(w[c]);
  }

  lemma InMembers(c: seq<QueueId>)
    ensures forall x :: x in c ==> x in Members(c)
  {
  }

  /** Flag changes do not matter to the invariant. */
  lemma FlagsKeep(s: State, r: Ranks, w: Walks, debt: multiset<QueueId>, q: QueueId, e: Queue)
    requires Owing(s, r, w, debt) && q in s.queues
    requires e == s.queues[q].(coop := e.coop, splitCoop := e.splitCoop)
    ensures Owing(s.(queues := s.queues[q := e]), r, w, debt)
  {
    var qs' := s.queues[q := e];
    SameLinksRanked(s.queues, qs', r);
    SameLinksWalked(s.queues, qs', s.holders, w);
    forall x | x in qs' ensures Balanced(qs'[x], x, s.rqs, w, debt) {
      assert Balanced(s.queues[x], x, s.rqs, w, debt);
    }
  }

  // ---------------------------------------------------------------- the operations

  /** What letting go of cic `c`'s queue does: one drop on every queue of its chain. */
  ghost predicate Released(s: State, c: CicId, s': State)
    requires c in s.holders
  {
    exists d :: IsChain(s.queues, s.holders[c], d)
             && s' == State(DropRefs(s.queues, Members(d)), s.holders - {c}, s.rqs)
  }

  /** cfq_merge_cfqqs, if a merge is scheduled for cic `c`'s queue. */
  function Merged(s: State, c: CicId): State
    requires c in s.holders && s.holders[c] in s.queues
    requires s.queues[s.holders[c]].next.Some? ==> s.queues[s.holders[c]].next.value in s.queues
  {
    var a := s.holders[c];
    if s.queues[a].next == None then s
    else
      var b := s.queues[a].next.value;
      State(DropRefs(s.queues[b := s.queues[b].(coop := true)], {a}), s.holders[c := b], s.rqs)
  }

  /** The part of cfq_set_request for a cic that already has a queue; `need` says that it has to get a new one. */
  ghost predicate SetRequestStep(s: State, c: CicId, i: RqId, write: bool, s': State, need: bool) {
    if c !in s.holders then need && s' == s
    else
      var q := s.holders[c];
      && q in s.queues
      && var e := s.queues[q];
         if e.coop && e.splitCoop && e.ProcessRefs() != 1 then need && Released(s, c, s')
         else
           && !need
           && (e.next.Some? ==> e.next.value in s.queues)
           && var t := if e.coop && e.splitCoop then s.(queues := s.queues[q := e.(coop := false, splitCoop := false)]) else s;
              var m := Merged(t, c);
              m.holders[c] in m.queues && s' == AddRq(m, i, m.holders[c], write)
  }

  /** cfq_get_queue and the rest of cfq_set_request, from the moment the lock is (re)taken with memory `x` in hand. */
  ghost predicate GetQueueStep(s: State, c: CicId, i: RqId, write: bool, x: QueueId, s': State) {
    if c in s.holders then
      var q := s.holders[c];
      q in s.queues && s' == AddRq(s.(queues := s.queues[q := s.queues[q].(ref := s.queues[q].ref + 1)]), i, q, write)
    else
      s' == AddRq(NewQueue(s, c, x), i, x, write)
  }

  function LinkEnds(qs: Queues, cfqq: QueueId, d: seq<QueueId>): Queues
    requires cfqq in qs && d != [] && d[|d| - 1] in qs
  {
    var end := d[|d| - 1];
    if cfqq in d || qs[cfqq].ProcessRefs() == 0 || qs[end].ProcessRefs() == 0 then qs
    else if qs[end].ProcessRefs() >= qs[cfqq].ProcessRefs() then Link(qs, cfqq, end)
    else Link(qs, end, cfqq)
  }

  /** cfq_setup_merge as called by cfq_select_queue. */
  ghost predicate SetupMergeStep(qs: Queues, cfqq: QueueId, coop: QueueId, qs': Queues) {
    && cfqq in qs && coop in qs
    && if qs[cfqq].next.Some? || qs[coop].ProcessRefs() == 0 then qs' == qs
       else exists d :: IsChain(qs, coop, d) && qs' == LinkEnds(qs, cfqq, d)
  }

  datatype Op =
    | SetRequest(c: CicId, rq: RqId, write: bool)
    | GetQueue(c: CicId, rq: RqId, write: bool, mem: QueueId)
    | PutRequest(rq: RqId)
    | SetupMerge(cfqq: QueueId, coop: QueueId)
    | MarkSplit(q: QueueId)
    | ExitContext(c: CicId)

  /** What the callers guarantee: fresh request ids, memory from the allocator, live queues from the service trees. */
  ghost predicate Enabled(s: State, op: Op) {
    match op
    case SetRequest(c, i, _) => i !in s.rqs
    case GetQueue(c, i, _, x) => i !in s.rqs && x !in s.queues
    case PutRequest(i) => i in s.rqs
    case SetupMerge(q, coop) => q in s.queues && coop in s.queues && q != coop
    case MarkSplit(q) => q in s.queues
    case ExitContext(c) => true
  }

  ghost predicate Next(s: State, op: Op, s': State) {
    && Enabled(s, op)
    && match op
       case SetRequest(c, i, write) => exists need :: SetRequestStep(s, c, i, write, s', need)
       case GetQueue(c, i, write, x) => GetQueueStep(s, c, i, write, x, s')
       case PutRequest(i) =>
         s.rqs[i].queue in s.queues
         && s' == DropAlloc(s, i).(queues := DropRefs(DropAlloc(s, i).queues, {s.rqs[i].queue}))
       case SetupMerge(q, coop) => SetupMergeStep(s.queues, q, coop, s'.queues) && s' == s.(queues := s'.queues)
       case MarkSplit(q) => s' == s.(queues := s.queues[q := s.queues[q].(splitCoop := true)])
       case ExitContext(c) => if c in s.holders then Released(s, c, s') else s' == s
  }

  lemma ReleasedIs(s: State, r: Ranks, w: Walks, lost: multiset<QueueId>, c: CicId, s': State)
    requires Owing(s, r, w, lost) && c in s.holders && Released(s, c, s')
    ensures c in w && s' == State(DropRefs(s.queues, Members(w[c])), s.holders - {c}, s.rqs)
  {
    var d :| IsChain(s.queues, s.holders[c], d) && s' == State(DropRefs(s.queues, Members(d)), s.holders - {c}, s.rqs);
    assert IsChain(s.queues, s.holders[c], w[c]);
    ChainUnique(s.queues, d, w[c]);
  }

  /** Dropping a cic's whole chain never drops too much and restores the invariant. */
  lemma ReleasedKeeps(s: State, r: Ranks, w: Walks, lost: multiset<QueueId>, c: CicId, s': State)
    requires Owing(s, r, w, lost) && c in s.holders && Released(s, c, s')
    ensures Owing(s', r, w - {c}, lost)
  {
    hide Owing, Released, DropRefs, Members;
    ReleasedIs(s, r, w, lost, c, s');
    ReleaseKeeps(s, r, w, lost, c);
    var debt := Members(w[c]);
    Paid(lost, debt);
    DropRefsKeeps(s.(holders := s.holders - {c}), r, w - {c}, lost + multiset(debt), debt);
  }

  lemma MergedKeeps(s: State, r: Ranks, w: Walks, lost: multiset<QueueId>, c: CicId) returns (w': Walks)
    requires Owing(s, r, w, lost) && c in s.holders
    ensures s.holders[c] in s.queues
    ensures s.queues[s.holders[c]].next.Some? ==> s.queues[s.holders[c]].next.value in s.queues
    ensures Owing(Merged(s, c), r, w', lost) && c in w'
  {
    hide Owing, DropRefs;
    HolderLive(s, r, w, lost, c);
    var a := s.holders[c];
    if s.queues[a].next == None {
      w' := w;
    } else {
      MoveKeeps(s, r, w, lost, c);
      w' := w[c := w[c][1..]];
      var b := s.queues[a].next.value;
      var s1 := s.(holders := s.holders[c := b]);
      var e := s.queues[b].(coop := true);
      FlagsKeep(s1, r, w', lost + multiset{a}, b, e);
      var s2 := s1.(queues := s1.queues[b := e]);
      PaidOne(lost, a);
      DropRefsKeeps(s2, r, w', lost + multiset{a}, {a});
    }
  }

  /** A queue with process references that are not lost lies on some cic's chain, so its own chain runs over live queues. */
  lemma {:induction false} ReferencedChain(s: State, r: Ranks, w: Walks, lost: multiset<QueueId>, q: QueueId) returns (d: seq<QueueId>)
    requires Owing(s, r, w, lost) && q in s.queues && s.queues[q].ProcessRefs() > lost[q]
    ensures IsChain(s.queues, q, d)
  {
    assert Balanced(s.queues[q], q, s.rqs, w, lost);
    var h :| h in Users(w, q);
    assert IsChain(s.queues, s.holders[h], w[h]);
    var k :| 0 <= k < |w[h]| && w[h][k] == q;
    d := w[h][k..];
    ChainSuffix(s.queues, w[h], k);
  }

  lemma ChainSuffix(qs: Queues, c: seq<QueueId>, k: nat)
    requires Linked(qs, c) && NoRepeat(c) && k < |c|
    ensures IsChain(qs, c[k], c[k..])
  {
    var d := c[k..];
    forall i, j | 0 <= i < j < |d| && j == i + 1 ensures qs[d[i]].next == Some(d[j]) { LinkAt(qs, c, k + i); }
  }

  /** Everything that following new_cfqq from `q` ever comes to is live. */
  ghost predicate SafeToFollow(qs: Queues, q: QueueId) {
    forall d {:trigger IsPath(qs, q, d)} :: IsPath(qs, q, d) ==> d[|d| - 1] in qs
  }

  /** `d` is where following new_cfqq from `q` leads in |d| - 1 steps. */
  ghost predicate IsPath(qs: Queues, q: QueueId, d: seq<QueueId>) {
    && d != [] && d[0] == q
    && (forall k :: 0 <= k < |d| - 1 ==> d[k] in qs)
    && (forall i, j :: 0 <= i < j < |d| && j == i + 1 ==> qs[d[i]].next == Some(d[j]))
  }

  lemma {:induction false} PathInChain(qs: Queues, q: QueueId, c: seq<QueueId>, d: seq<QueueId>)
    requires IsChain(qs, q, c) && IsPath(qs, q, d)
    ensures |d| <= |c| && d == c[..|d|]
    decreases |d|
  {
    if |d| == 1 {
      assert d == c[..1];
    } else {
      var e := d[..|d| - 1];
      PathInChain(qs, q, c, e);
      var k := |d| - 2;
      assert d[k] == e[k] == c[k];
      assert qs[d[k]].next == Some(d[k + 1]);
      assert k + 1 < |c|;
      LinkAt(qs, c, k);
      assert d == e + [d[k + 1]];
    }
  }

  /** Following safe links ends, because the ranks fall. */
  lemma {:induction false} FollowToEnd(qs: Queues, r: Ranks, q: QueueId, d: seq<QueueId>) returns (c: seq<QueueId>)
    requires Ranked(qs, r) && SafeToFollow(qs, q) && IsPath(qs, q, d) && d[|d| - 1] in qs && NoRepeat(d)
    requires forall k :: 0 <= k < |d| ==> d[k] in qs && r[d[|d| - 1]] <= r[d[k]]
    ensures IsChain(qs, q, c)
    decreases r[d[|d| - 1]]
  {
    var last := d[|d| - 1];
    if qs[last].next == None {
      c := d;
    } else {
      var x := qs[last].next.value;
      var e := d + [x];
      assert IsPath(qs, q, e);
      assert e[|e| - 1] in qs;
      assert r[x] < r[last];
      c := FollowToEnd(qs, r, q, e);
    }
  }

  /**
   The exact condition under which the walk of cfq_setup_merge is safe: the chain is live to its
   end.  A process reference that is not lost guarantees it.
   */
  lemma SafeExactly(s: State, r: Ranks, w: Walks, lost: multiset<QueueId>, q: QueueId)
    requires Owing(s, r, w, lost) && q in s.queues
    ensures SafeToFollow(s.queues, q) <==> exists d :: IsChain(s.queues, q, d)
    ensures Users(w, q) != {} <==> s.queues[q].ProcessRefs() > lost[q]
    ensures Users(w, q) != {} ==> SafeToFollow(s.queues, q)
  {
    assert Balanced(s.queues[q], q, s.rqs, w, lost);
    if SafeToFollow(s.queues, q) {
      assert IsPath(s.queues, q, [q]);
      var d := FollowToEnd(s.queues, r, q, [q]);
    }
    if s.queues[q].ProcessRefs() > lost[q] {
      var d := ReferencedChain(s, r, w, lost, q);
    }
    forall c, d | IsChain(s.queues, q, c) && IsPath(s.queues, q, d) ensures d[|d| - 1] in s.queues {
      PathInChain(s.queues, q, c, d);
    }
  }

  lemma LiveChain(s: State, r: Ranks, w: Walks, lost: multiset<QueueId>, q: QueueId) returns (d: seq<QueueId>)
    requires Owing(s, r, w, lost) && q in s.queues && s.queues[q].ProcessRefs() != 0 && (lost[q] == 0 || SafeToFollow(s.queues, q))
    ensures IsChain(s.queues, q, d)
  {
    SafeExactly(s, r, w, lost, q);
    assert Balanced(s.queues[q], q, s.rqs, w, lost);
    d :| IsChain(s.queues, q, d);
  }

  /** cfq_setup_merge has a defined outcome exactly if a guard stops it or the cooperator's chain is safe to follow. */
  lemma SetupMergeExactly(s: State, r: Ranks, w: Walks, lost: multiset<QueueId>, cfqq: QueueId, coop: QueueId)
    requires Owing(s, r, w, lost) && Enabled(s, SetupMerge(cfqq, coop))
    ensures (exists qs' :: SetupMergeStep(s.queues, cfqq, coop, qs')) <==>
              s.queues[cfqq].next.Some? || s.queues[coop].ProcessRefs() == 0 || SafeToFollow(s.queues, coop)
  {
    hide Owing, IsChain, LinkEnds, SafeToFollow;
    SafeExactly(s, r, w, lost, coop);
    if s.queues[cfqq].next.Some? || s.queues[coop].ProcessRefs() == 0 {
      assert SetupMergeStep(s.queues, cfqq, coop, s.queues);
    } else if SafeToFollow(s.queues, coop) {
      var d :| IsChain(s.queues, coop, d);
      ChainEnds(s.queues, coop, d);
      assert SetupMergeStep(s.queues, cfqq, coop, LinkEnds(s.queues, cfqq, d));
    }
  }

  lemma ChainEnds(qs: Queues, q: QueueId, d: seq<QueueId>)
    requires IsChain(qs, q, d)
    ensures d != [] && d[|d| - 1] in qs && qs[d[|d| - 1]].next == None
  {
  }

  lemma SetupMergeKeeps(s: State, r: Ranks, w: Walks, lost: multiset<QueueId>, cfqq: QueueId, coop: QueueId, qs': Queues)
    returns (r': Ranks, w': Walks, lost': multiset<QueueId>)
    requires Owing(s, r, w, lost) && cfqq != coop && SetupMergeStep(s.queues, cfqq, coop, qs')
    ensures Owing(s.(queues := qs'), r', w', lost') && LostByLink(s.queues, qs', lost, lost')
  {
    r', w', lost' := r, w, lost;
    if s.queues[cfqq].next == None && s.queues[coop].ProcessRefs() != 0 {
      var d :| IsChain(s.queues, coop, d) && qs' == LinkEnds(s.queues, cfqq, d);
      var end := d[|d| - 1];
      if qs' != s.queues {
        if qs' == Link(s.queues, cfqq, end) {
          LinkKeeps(s, r, w, lost, cfqq, end);
          r', w', lost' := Lower(r, end), LinkWalks(w, cfqq, end), LinkLost(lost, cfqq, end);
          assert Linking(s.queues, qs', cfqq, end);
        } else {
          LinkKeeps(s, r, w, lost, end, cfqq);
          r', w', lost' := Lower(r, cfqq), LinkWalks(w, end, cfqq), LinkLost(lost, end, cfqq);
          assert Linking(s.queues, qs', end, cfqq);
        }
      }
    }
  }

  lemma SetRequestKeeps(s: State, r: Ranks, w: Walks, lost: multiset<QueueId>, c: CicId, i: RqId, write: bool, s': State, need: bool)
    returns (w': Walks)
    requires Owing(s, r, w, lost) && i !in s.rqs && SetRequestStep(s, c, i, write, s', need)
    ensures Owing(s', r, w', lost)
  {
    if c !in s.holders {
      w' := w;
    } else {
      var q := s.holders[c];
      var e := s.queues[q];
      if e.coop && e.splitCoop && e.ProcessRefs() != 1 {
        ReleasedKeeps(s, r, w, lost, c, s');
        w' := w - {c};
      } else {
        var t := s;
        if e.coop && e.splitCoop {
          var f := e.(coop := false, splitCoop := false);
          FlagsKeep(s, r, w, lost, q, f);
          t := s.(queues := s.queues[q := f]);
        }
        w' := MergedKeeps(t, r, w, lost, c);
        var m := Merged(t, c);
        AddRqKeeps(m, r, w', lost, i, m.holders[c], write);
      }
    }
  }

  lemma GetQueueKeeps(s: State, r: Ranks, w: Walks, lost: multiset<QueueId>, c: CicId, i: RqId, write: bool, x: QueueId, s': State)
    returns (r': Ranks, w': Walks)
    requires Owing(s, r, w, lost) && i !in s.rqs && x !in s.queues && GetQueueStep(s, c, i, write, x, s')
    ensures Owing(s', r', w', if c in s.holders then lost + multiset{s.holders[c]} else lost)
    ensures s'.holders == s.holders[c := if c in s.holders then s.holders[c] else x]
    ensures s'.rqs == s.rqs[i := Rq(s'.holders[c], write)]
  {
    hide Owing;
    if c in s.holders {
      r', w' := r, w;
      var q := s.holders[c];
      assert s.holders[c := q] == s.holders;
      LoseKeeps(s, r, w, lost, q);
      AddRqKeeps(s.(queues := s.queues[q := s.queues[q].(ref := s.queues[q].ref + 1)]), r, w, lost + multiset{q}, i, q, write);
    } else {
      NewQueueKeeps(s, r, w, lost, c, x);
      r', w' := Lower(r, x), w[c := [x]];
      AddRqKeeps(NewQueue(s, c, x), r', w', lost, i, x, write);
    }
  }

  /** cfq_get_queue finds that the cic was given a queue while the lock was dropped for the allocation. */
  predicate Raced(s: State, op: Op) { op.GetQueue? && op.c in s.holders }

  /** The step from `qs` to `qs'` made a link from `a` to `b`. */
  ghost predicate Linking(qs: Queues, qs': Queues, a: QueueId, b: QueueId) {
    a in qs && b in qs && a != b && qs[a].next == None && qs' == Link(qs, a, b)
  }

  ghost predicate LostByLink(qs: Queues, qs': Queues, lost: multiset<QueueId>, lost': multiset<QueueId>) {
    (qs' == qs && lost' == lost) || exists a, b :: Linking(qs, qs', a, b) && lost' == LinkLost(lost, a, b)
  }

  lemma LinkLoses(qs: Queues, lost: multiset<QueueId>, a: QueueId, b: QueueId)
    requires a in qs && b in qs && a != b && qs[a].next == None
    ensures LostByLink(qs, Link(qs, a, b), lost, LinkLost(lost, a, b))
  {
    assert Linking(qs, Link(qs, a, b), a, b);
  }

  /** How a step changes the lost references: a raced call loses one, a link hands them on, nothing ever drops one. */
  ghost predicate LostStep(s: State, op: Op, s': State, lost: multiset<QueueId>, lost': multiset<QueueId>) {
    match op
    case GetQueue(c, _, _, _) => lost' == if c in s.holders then lost + multiset{s.holders[c]} else lost
    case SetupMerge(_, _) => LostByLink(s.queues, s'.queues, lost, lost')
    case _ => lost' == lost
  }

  /** Every operation keeps the invariant. */
  lemma NextKeepsInv(s: State, r: Ranks, w: Walks, lost: multiset<QueueId>, op: Op, s': State)
    returns (r': Ranks, w': Walks, lost': multiset<QueueId>)
    requires Owing(s, r, w, lost) && Next(s, op, s')
    ensures Owing(s', r', w', lost') && LostStep(s, op, s', lost, lost')
  {
    hide Owing;
    r', w', lost' := r, w, lost;
    match op {
      case SetRequest(c, i, write) =>
        var need :| SetRequestStep(s, c, i, write, s', need);
        w' := SetRequestKeeps(s, r, w, lost, c, i, write, s', need);
      case GetQueue(c, i, write, x) =>
        r', w' := GetQueueKeeps(s, r, w, lost, c, i, write, x, s');
        lost' := if c in s.holders then lost + multiset{s.holders[c]} else lost;
      case PutRequest(i) =>
        var q := s.rqs[i].queue;
        DropAllocKeeps(s, r, w, lost, i);
        PaidOne(lost, q);
        DropRefsKeeps(DropAlloc(s, i), r, w, lost + multiset{q}, {q});
      case SetupMerge(q, coop) =>
        r', w', lost' := SetupMergeKeeps(s, r, w, lost, q, coop, s'.queues);
      case MarkSplit(q) =>
        FlagsKeep(s, r, w, lost, q, s.queues[q].(splitCoop := true));
      case ExitContext(c) =>
        if c in s.holders {
          ReleasedKeeps(s, r, w, lost, c, s');
          w' := w - {c};
        }
    }
  }

  const Empty := State(map[], map[], map[])

  /** A run, with raced calls, in which cfq_setup_merge follows live chains only. */
  ghost predicate IsRun(tr: seq<State>, ops: seq<Op>) {
    && |tr| == |ops| + 1
    && tr[0] == Empty
    && forall k :: 0 <= k < |ops| ==> Next(tr[k], ops[k], tr[k + 1])
  }

  /** `ls` follows the lost references through the first `k` steps of a run. */
  ghost predicate LostAlong(tr: seq<State>, ops: seq<Op>, ls: seq<multiset<QueueId>>, k: nat)
    requires |tr| == |ops| + 1 && k <= |ops|
  {
    && |ls| == k + 1 && ls[0] == multiset{}
    && forall i, j :: 0 <= i < j <= k && j == i + 1 ==> LostStep(tr[i], ops[i], tr[j], ls[i], ls[j])
  }

  /**
   In every state of every run: new_cfqq is a forest, and the references to a queue are its
   requests, the cics whose chain passes through it, and the references lost so far.
   */
  lemma {:induction false} RunCounts(tr: seq<State>, ops: seq<Op>, k: nat)
    returns (r: Ranks, w: Walks, ls: seq<multiset<QueueId>>)
    requires IsRun(tr, ops) && k < |tr|
    ensures LostAlong(tr, ops, ls, k) && Owing(tr[k], r, w, ls[k])
  {
    hide Owing, Next, LostStep;
    if k == 0 {
      r, w, ls := map[], map[], [multiset{}];
      EmptyOk();
    } else {
      var ls0;
      r, w, ls0 := RunCounts(tr, ops, k - 1);
      assert Next(tr[k - 1], ops[k - 1], tr[k - 1 + 1]);
      var lost;
      r, w, lost := NextKeepsInv(tr[k - 1], r, w, ls0[k - 1], ops[k - 1], tr[k]);
      ls := ls0 + [lost];
    }
  }

  lemma EmptyOk()
    ensures Inv(Empty, map[], map[])
  {
  }

  /** A reference is lost exactly by a raced call. */
  lemma {:induction false} LostExactly(tr: seq<State>, ops: seq<Op>, ls: seq<multiset<QueueId>>, k: nat)
    requires |tr| == |ops| + 1 && k <= |ops| && LostAlong(tr, ops, ls, k)
    ensures ls[k] == multiset{} <==> forall i :: 0 <= i < k ==> !Raced(tr[i], ops[i])
  {
    if k > 0 {
      hide Link;
      var ls0 := ls[..k];
      assert LostAlong(tr, ops, ls0, k - 1);
      LostExactly(tr, ops, ls0, k - 1);
      assert LostStep(tr[k - 1], ops[k - 1], tr[k], ls[k - 1], ls[k]);
      LostOnce(tr[k - 1], ops[k - 1], tr[k], ls[k - 1], ls[k]);
    }
  }

  lemma LostOnce(s: State, op: Op, s': State, lost: multiset<QueueId>, lost': multiset<QueueId>)
    requires LostStep(s, op, s', lost, lost')
    ensures lost' == multiset{} <==> lost == multiset{} && !Raced(s, op)
  {
    if op.SetupMerge? && lost' != lost {
      var a, b :| Linking(s.queues, s'.queues, a, b) && lost' == LinkLost(lost, a, b);
      assert lost[a] > 0;
      assert a in lost';
    } else if Raced(s, op) {
      assert s.holders[op.c] in lost';
    }
  }

  /** Without raced calls every reference has an owner, in every state of every run. */
  lemma RunKeepsInv(tr: seq<State>, ops: seq<Op>, k: nat) returns (r: Ranks, w: Walks)
    requires IsRun(tr, ops) && k < |tr| && forall i :: 0 <= i < k ==> !Raced(tr[i], ops[i])
    ensures Inv(tr[k], r, w)
  {
    hide LostAlong, Owing;
    var ls;
    r, w, ls := RunCounts(tr, ops, k);
    LostExactly(tr, ops, ls, k);
  }

  /** The queue context `c` works with once a scheduled merge is carried out. */
  function Target(s: State, c: CicId): QueueId
    requires c in s.holders && s.holders[c] in s.queues
  {
    if s.queues[s.holders[c]].next.Some? then s.queues[s.holders[c]].next.value else s.holders[c]
  }

  /**
   What cfq_set_request does for a context that has a queue.  A queue that is to be split and has
   more than one process reference is let go of, and a new one is needed.  Otherwise the context
   moves to the target of a scheduled merge, which is marked as cooperating, and the request is
   charged there in its own direction; a split queue with one process left is an ordinary one again.
   */
  lemma SetRequestExactly(s: State, r: Ranks, w: Walks, lost: multiset<QueueId>, c: CicId, i: RqId, write: bool, s': State, need: bool)
    requires Owing(s, r, w, lost) && i !in s.rqs && c in s.holders && SetRequestStep(s, c, i, write, s', need)
    ensures s.holders[c] in s.queues && Target(s, c) in s.queues
    ensures var q, t := s.holders[c], Target(s, c);
            var e := s.queues[q];
            && (need <==> e.coop && e.splitCoop && e.ProcessRefs() != 1)
            && (need ==> s'.holders == s.holders - {c} && s'.rqs == s.rqs)
            && (!need ==>
                  && s'.holders == s.holders[c := t] && s'.rqs == s.rqs[i := Rq(t, write)]
                  && t in s'.queues && (if write then s'.queues[t].allocW == s.queues[t].allocW + 1 else s'.queues[t].allocR == s.queues[t].allocR + 1)
                  && (t != q ==> s'.queues[t].coop && s'.queues[t].ref == s.queues[t].ref + 1)
                  && (t == q ==>
                        && s'.queues[q].ref == e.ref + 1
                        && (if e.coop && e.splitCoop then !s'.queues[q].coop && !s'.queues[q].splitCoop
                            else s'.queues[q].coop == e.coop && s'.queues[q].splitCoop == e.splitCoop)))
  {
    var q := s.holders[c];
    HolderChain(s, r, w, lost, c);
    if s.queues[q].next.Some? { ChainTail(s.queues, q, w[c]); }
    hide Owing, IsChain, Members;
  }

  /** A cooperating queue that is marked for a split loses the next context that sends it a request, unless that is its last process. */
  lemma MarkedSplits(s: State, q: QueueId, s': State, r: Ranks, w: Walks, lost: multiset<QueueId>, c: CicId, i: RqId, write: bool, s'': State, need: bool)
    requires Next(s, MarkSplit(q), s') && Owing(s', r, w, lost) && c in s'.holders && s'.holders[c] == q
    requires i !in s'.rqs && SetRequestStep(s', c, i, write, s'', need)
    ensures q in s.queues && (need <==> s.queues[q].coop && s.queues[q].ProcessRefs() != 1) && (c in s''.holders <==> !need)
  {
    hide Owing, SetRequestStep;
    SetRequestExactly(s', r, w, lost, c, i, write, s'', need);
  }

  /** `qs'` differs from `qs` in that `a` is to be merged into `b`, which got one reference for each process reference of `a`. */
  ghost predicate MergesInto(qs: Queues, qs': Queues, a: QueueId, b: QueueId) {
    && a in qs && b in qs && a != b && qs'.Keys == qs.Keys
    && qs'[a] == qs[a].(next := Some(b)) && qs[a].next == None
    && qs'[b] == qs[b].(ref := qs[b].ref + qs[a].ProcessRefs())
    && forall q :: q in qs && q != a && q != b ==> qs'[q] == qs[q]
  }

  /**
   What cfq_setup_merge does behind its guards, with `d` the chain of the cooperator: nothing if
   the chain leads back to cfqq or one side has no process references; otherwise the side with
   fewer process references is to be merged into the other, and cfqq into the end on a tie.
   */
  lemma MergesLesserWork(qs: Queues, cfqq: QueueId, coop: QueueId, qs': Queues, d: seq<QueueId>)
    requires SetupMergeStep(qs, cfqq, coop, qs') && IsChain(qs, coop, d)
    requires qs[cfqq].next == None && qs[coop].ProcessRefs() != 0
    ensures d != [] && d[|d| - 1] in qs
    ensures var end := d[|d| - 1];
            var mine, theirs := qs[cfqq].ProcessRefs(), qs[end].ProcessRefs();
            && (qs' == qs <==> cfqq in d || mine == 0 || theirs == 0)
            && (qs' != qs && mine <= theirs ==> MergesInto(qs, qs', cfqq, end))
            && (qs' != qs && mine > theirs ==> MergesInto(qs, qs', end, cfqq))
  {
    var e :| IsChain(qs, coop, e) && qs' == LinkEnds(qs, cfqq, e);
    ChainUnique(qs, d, e);
    ChainEnds(qs, coop, d);
    hide IsChain, Linked, NoRepeat;
    var end := d[|d| - 1];
    if !(cfqq in d || qs[cfqq].ProcessRefs() == 0 || qs[end].ProcessRefs() == 0) {
      if qs[cfqq].ProcessRefs() <= qs[end].ProcessRefs() {
        assert MergesInto(qs, qs', cfqq, end) && qs'[cfqq] != qs[cfqq];
      } else {
        assert MergesInto(qs, qs', end, cfqq) && qs'[end] != qs[end];
      }
    }
  }

  /** Without raced calls `cfq_setup_merge` always has a defined outcome. */
  lemma RunMergesSafely(tr: seq<State>, ops: seq<Op>, k: nat, cfqq: QueueId, coop: QueueId)
    requires IsRun(tr, ops) && k < |tr| && forall i :: 0 <= i < k ==> !Raced(tr[i], ops[i])
    requires Enabled(tr[k], SetupMerge(cfqq, coop))
    ensures exists qs' :: SetupMergeStep(tr[k].queues, cfqq, coop, qs')
  {
    hide Owing, SetupMergeStep, SafeToFollow, IsRun, Users;
    var r, w := RunKeepsInv(tr, ops, k);
    SafeExactly(tr[k], r, w, multiset{}, coop);
    SetupMergeExactly(tr[k], r, w, multiset{}, cfqq, coop);
    ProcessRefsCountsChains(tr[k], r, w, multiset{}, coop);
  }

  /** What the law says about one queue, without the bookkeeping: cfqq_process_refs counts cics and lost references. */
  lemma ProcessRefsCountsChains(s: State, r: Ranks, w: Walks, lost: multiset<QueueId>, q: QueueId)
    requires Owing(s, r, w, lost) && q in s.queues
    ensures s.queues[q].ProcessRefs() == |Users(w, q)| + lost[q] >= 0
    ensures forall c, d :: c in s.holders && IsChain(s.queues, s.holders[c], d) ==> (c in Users(w, q) <==> q in d)
  {
    assert Balanced(s.queues[q], q, s.rqs, w, lost);
    forall c, d | c in s.holders && IsChain(s.queues, s.holders[c], d) ensures d == w[c] {
      assert IsChain(s.queues, s.holders[c], w[c]);
      ChainUnique(s.queues, d, w[c]);
    }
  }

  /**
   If another task sharing the io-context installed a queue while the lock was
   dropped for the allocation, cfq_get_queue takes one more reference that no
   one owns: that every reference has an owner survives the step exactly when the
   cic still has no queue at the time the lock is retaken.
   */
  lemma GetQueueExact(s: State, r: Ranks, w: Walks, c: CicId, i: RqId, write: bool, x: QueueId, s': State)
    requires Inv(s, r, w) && i !in s.rqs && x !in s.queues && GetQueueStep(s, c, i, write, x, s')
    ensures (exists r', w' :: Inv(s', r', w')) <==> c !in s.holders
  {
    if c !in s.holders {
      var r', w' := GetQueueKeeps(s, r, w, multiset{}, c, i, write, x, s');
      assert Inv(s', r', w');
    } else {
      forall r', w' ensures !Inv(s', r', w') { LostReference(s, r, w, c, i, write, x, s', r', w'); }
    }
  }

  /** After a raced cfq_get_queue the queue of the cic has one process reference more than chains through it. */
  lemma LostReference(s: State, r: Ranks, w: Walks, c: CicId, i: RqId, write: bool, x: QueueId, s': State, r': Ranks, w': Walks)
    requires Inv(s, r, w) && i !in s.rqs && c in s.holders && GetQueueStep(s, c, i, write, x, s')
    ensures !Inv(s', r', w')
  {
    hide RqsOn, Users, Linked, NoRepeat, Ranked;
    var q := s.holders[c];
    SameLinksWalked(s.queues, s'.queues, s.holders, w);
    if Walked(s'.queues, s.holders, w') {
      forall h | h in w ensures w'[h] == w[h] {
        assert IsChain(s'.queues, s.holders[h], w[h]) && IsChain(s'.queues, s.holders[h], w'[h]);
        ChainUnique(s'.queues, w[h], w'[h]);
      }
      assert w' == w;
      assert Balanced(s.queues[q], q, s.rqs, w, multiset{});
      assert !Balanced(s'.queues[q], q, s'.rqs, w', multiset{});
    }
  }

  // ---------------------------------------------------------------- a run that loses a reference

  function Plain(ref: int, reqs: int, next: Option<QueueId>): Queue { Queue(ref, reqs, 0, next, false, false) }

  const ON_ONE := Rq(1, false)
  const ON_TWO := Rq(2, false)
  const ON_THREE := Rq(3, false)

  /** Context 1 has queue 1 and context 2 has queue 2, with one request each. */
  const RACE_TWO := State(map[1 := Plain(2, 1, None), 2 := Plain(2, 1, None)], map[1 := 1, 2 := 2], map[10 := ON_ONE, 20 := ON_TWO])
  /** Queue 1 is to be merged into queue 2. */
  const RACE_LINKED := RACE_TWO.(queues := map[1 := Plain(2, 1, Some(2)), 2 := Plain(3, 1, None)])
  /** A second task of context 1, whose allocation began when the context had no queue, takes queue 1. */
  const RACE_LOST := State(map[1 := Plain(4, 2, Some(2)), 2 := Plain(3, 1, None)], map[1 := 1, 2 := 2], map[10 := ON_ONE, 20 := ON_TWO, 11 := ON_ONE])
  /** Context 1 exits; both its requests are still out. */
  const RACE_EXIT := RACE_LOST.(queues := map[1 := Plain(3, 2, Some(2)), 2 := Plain(2, 1, None)], holders := map[2 := 2])
  /** The request of context 2 completes. */
  const RACE_PUT := State(map[1 := Plain(3, 2, Some(2)), 2 := Plain(1, 0, None)], map[2 := 2], map[10 := ON_ONE, 11 := ON_ONE])
  /** Context 2 exits, and queue 2 is freed. */
  const RACE_FREED := State(map[1 := Plain(3, 2, Some(2))], map[], map[10 := ON_ONE, 11 := ON_ONE])
  /** Context 3 gets a queue, for which queue 1 may come up as a cooperator. */
  const RACE_END := State(map[1 := Plain(3, 2, Some(2)), 3 := Plain(2, 1, None)], map[3 := 3], map[10 := ON_ONE, 11 := ON_ONE, 30 := ON_THREE])

  const RACE_ONE := State(map[1 := Plain(2, 1, None)], map[1 := 1], map[10 := ON_ONE])

  const RACE_STATES := [Empty, RACE_ONE, RACE_TWO, RACE_LINKED, RACE_LOST, RACE_EXIT, RACE_PUT, RACE_FREED, RACE_END]
  const RACE_OPS := [GetQueue(1, 10, false, 1), GetQueue(2, 20, false, 2), SetupMerge(1, 2), GetQueue(1, 11, false, 3),
                     ExitContext(1), PutRequest(20), ExitContext(2), GetQueue(3, 30, false, 3)]

  lemma RaceBegins()
    ensures Next(Empty, RACE_OPS[0], RACE_ONE) && Next(RACE_ONE, RACE_OPS[1], RACE_TWO)
  {
  }

  lemma RaceLinks()
    ensures Next(RACE_TWO, RACE_OPS[2], RACE_LINKED)
  {
    var qs := RACE_TWO.queues;
    assert IsChain(qs, 2, [2]);
    assert LinkEnds(qs, 1, [2]) == Link(qs, 1, 2) == RACE_LINKED.queues;
  }

  lemma RaceLoses()
    ensures Next(RACE_LINKED, RACE_OPS[3], RACE_LOST) && Raced(RACE_LINKED, RACE_OPS[3])
  {
  }

  lemma RaceDrops()
    ensures DropRefs(RACE_LOST.queues, {1, 2}) == RACE_EXIT.queues && Members([1, 2]) == {1, 2}
  {
  }

  lemma RaceExits()
    ensures Next(RACE_LOST, RACE_OPS[4], RACE_EXIT)
  {
    hide DropRefs, Members;
    RaceDrops();
    assert IsChain(RACE_LOST.queues, 1, [1, 2]);
    assert RACE_LOST.holders - {1} == RACE_EXIT.holders;
  }

  lemma RacePuts()
    ensures Next(RACE_EXIT, RACE_OPS[5], RACE_PUT)
  {
    var a := DropAlloc(RACE_EXIT, 20);
    assert DropRefs(a.queues, {2}) == RACE_PUT.queues;
    assert a.rqs == RACE_PUT.rqs;
  }

  lemma RaceFrees()
    ensures Next(RACE_PUT, RACE_OPS[6], RACE_FREED)
  {
    var qs := RACE_PUT.queues;
    assert IsChain(qs, 2, [2]);
    assert Members([2]) == {2};
    assert DropRefs(qs, {2}) == RACE_FREED.queues;
    assert RACE_PUT.holders - {2} == RACE_FREED.holders;
  }

  lemma RaceEnds()
    ensures Next(RACE_FREED, RACE_OPS[7], RACE_END)
  {
  }

  lemma RaceIsRun()
    ensures IsRun(RACE_STATES, RACE_OPS)
  {
    hide Next;
    RaceBegins();
    RaceLinks();
    RaceLoses();
    RaceExits();
    RacePuts();
    RaceFrees();
    RaceEnds();
  }

  /**
   What a lost reference can lead to.  At the end of this run queue 1 passes the process-reference
   guard of cfq_setup_merge with its lost reference alone, and its link names a freed queue.
   */
  lemma LostReferenceMisleads()
    ensures IsRun(RACE_STATES, RACE_OPS) && RACE_STATES[8] == RACE_END && Enabled(RACE_END, SetupMerge(3, 1))
    ensures RACE_END.queues[3].next == None && RACE_END.queues[1].ProcessRefs() == 1
    ensures !SafeToFollow(RACE_END.queues, 1) && forall s' :: !Next(RACE_END, SetupMerge(3, 1), s')
  {
    RaceIsRun();
    hide IsRun;
    var qs := RACE_END.queues;
    assert IsPath(qs, 1, [1, 2]);
    forall d ensures !IsChain(qs, 1, d) {
      if IsChain(qs, 1, d) { SecondLive(qs, 1, d, 2); }
    }
  }

  lemma SecondLive(qs: Queues, q: QueueId, d: seq<QueueId>, x: QueueId)
    requires IsChain(qs, q, d) && qs[q].next == Some(x)
    ensures x in qs
  {
    ChainTail(qs, q, d);
  }

  // ---------------------------------------------------------------- the code

  /** The queues, io-contexts and requests of one cfq_data, updated in place by the functions of the source. */
  class CfqData {
    var queues: Queues
    var holders: Holders
    var rqs: map<RqId, Rq>
    ghost var rank: Ranks
    ghost var walks: Walks
    ghost var lost: multiset<QueueId>

    ghost function S(): State
      reads this
    {
      State(queues, holders, rqs)
    }

    ghost predicate Valid()
      reads this
    {
      Owing(S(), rank, walks, lost)
    }

    constructor ()
      ensures Valid() && S() == Empty && lost == multiset{}
    {
      queues, holders, rqs := map[], map[], map[];
      rank, walks, lost := map[], map[], multiset{};
    }

    /** cfq_put_queue; the two asserts are its BUG_ONs. */
    method PutQueue(q: QueueId, ghost debt: multiset<QueueId>)
      requires Owing(S(), rank, walks, debt) && q in debt
      modifies this`queues
      ensures queues == DropRefs(old(queues), {q})
      ensures Owing(S(), rank, walks, debt - multiset{q})
    {
      hide Owing;
      OwedLive(S(), rank, walks, debt, q);
      DropRefsKeeps(S(), rank, walks, debt, {q});
      var e := queues[q];
      assert e.ref > 0;
      e := e.(ref := e.ref - 1);
      if e.ref != 0 {
        queues := queues[q := e];
      } else {
        assert e.Allocated() == 0;
        queues := queues - {q};
      }
      assert queues == DropRefs(old(queues), {q});
    }

    /** cfq_put_cooperator: walk the merge chain behind cfqq and drop the reference taken on each queue. */
    method PutCooperator(cfqq: QueueId, ghost d: seq<QueueId>, ghost debt: multiset<QueueId>)
      requires IsChain(queues, cfqq, d)
      requires Owing(S(), rank, walks, debt) && forall x :: x in d ==> x in debt
      modifies this`queues
      ensures queues == DropRefs(old(queues), Members(d[1..]))
      ensures Owing(S(), rank, walks, debt - multiset(Members(d[1..])))
    {
      hide Owing, DropRefs, NoRepeat;
      var cur := queues[cfqq].next;
      ghost var k := 1;
      ghost var done: set<QueueId> := {};
      if |d| > 1 { LinkAt(queues, d, 0); }
      DropNone(queues);
      PaidNone(debt);
      while cur.Some?
        invariant 1 <= k <= |d|
        invariant cur == if k < |d| then Some(d[k]) else None
        invariant done == Members(d[1..k])
        invariant queues == DropRefs(old(queues), done)
        invariant Owing(S(), rank, walks, debt - multiset(done))
        decreases |d| - k
      {
        var q := cur.value;
        assert q != cfqq && q !in done by { NotEarlier(d, k); }  // no loop
        DropRefsOthers(old(queues), done, q);
        var next := queues[q].next;
        if k + 1 < |d| { LinkAt(old(queues), d, k); }
        PutQueue(q, debt - multiset(done));
        DropRefsTwice(old(queues), done, q);
        PaidMore(debt, done, q);
        assert d[1..k + 1] == d[1..k] + [q];
        done := done + {q};
        cur, k := next, k + 1;
      }
      assert d[1..k] == d[1..];
      assert done == Members(d[1..]);
    }

    /** What cfq_exit_cfqq and the second half of split_cfqq do for a cic, including cic->cfqq[SYNC] = NULL. */
    method DropContext(c: CicId)
      requires Valid() && c in holders
      modifies this
      ensures Valid() && lost == old(lost) && Released(old(S()), c, S())
    {
      hide Owing, DropRefs, IsChain, Members, Linked;
      HolderLive(S(), rank, walks, lost, c);
      var cfqq := holders[c];
      ghost var d := walks[c];
      ghost var all, rest := Members(d), Members(d[1..]);
      ReleaseKeeps(S(), rank, walks, lost, c);
      HolderChain(S(), rank, walks, lost, c);
      holders := holders - {c};
      walks := walks - {c};
      Paid(lost, all);
      InMembers(d);
      PutCooperator(cfqq, d, lost + multiset(all));
      PaidTail(lost, rest, cfqq);
      PaidOne(lost, cfqq);
      PutQueue(cfqq, lost + multiset{cfqq});
      DropRefsTwice(old(queues), rest, cfqq);
    }

    /** __cfq_exit_single_io_context, sync part. */
    method ExitContext(c: CicId)
      requires Valid()
      modifies this
      ensures Valid() && lost == old(lost) && Next(old(S()), Op.ExitContext(c), S())
    {
      if c in holders { DropContext(c); }
    }

    /** cfq_put_request. */
    method PutRequest(i: RqId)
      requires Valid() && i in rqs
      modifies this
      ensures Valid() && lost == old(lost) && Next(old(S()), Op.PutRequest(i), S())
    {
      hide Owing, DropRefs, Next, DropAlloc;
      RqLive(S(), rank, walks, lost, i);
      var q, write := rqs[i].queue, rqs[i].write;
      DropAllocKeeps(S(), rank, walks, lost, i);
      assert if write then queues[q].allocW > 0 else queues[q].allocR > 0;  // BUG_ON(!cfqq->allocated[rw])
      ghost var dropped := DropAlloc(S(), i);
      UnallocIs(S(), i);
      queues := queues[q := queues[q].Unalloc(write)];
      rqs := rqs - {i};
      assert S() == dropped;
      PaidOne(lost, q);
      PutQueue(q, lost + multiset{q});
      PutStep(old(S()), i, S());
    }

    /** The walk of cfq_setup_merge: the last queue of coop's chain, or None if the chain runs into cfqq. */
    method FindEnd(cfqq: QueueId, coop: QueueId, ghost d: seq<QueueId>) returns (end: Option<QueueId>)
      requires IsChain(queues, coop, d) && cfqq != coop
      ensures end == if cfqq in d then None else Some(d[|d| - 1])
    {
      var cur := coop;
      ghost var k := 0;
      while queues[cur].next.Some?
        invariant 0 <= k < |d| && cur == d[k] && cfqq !in d[..k + 1]
        decreases |d| - k
      {
        if k + 1 < |d| { LinkAt(queues, d, k); }
        assert d[..k + 2] == d[..k + 1] + [d[k + 1]];
        cur, k := queues[cur].next.value, k + 1;
        if cur == cfqq { return None; }
      }
      EndIsLast(queues, d, k);
      assert d[..k + 1] == d;
      return Some(cur);
    }

    /** cfq_setup_merge with the guard of its caller cfq_select_queue. */
    method SetupMerge(cfqq: QueueId, coop: QueueId)
      requires Valid() && cfqq in queues && coop in queues && cfqq != coop
      requires lost[coop] == 0 || SafeToFollow(queues, coop)
      modifies this
      ensures Valid() && Next(old(S()), Op.SetupMerge(cfqq, coop), S()) && LostByLink(old(queues), queues, old(lost), lost)
    {
      if queues[cfqq].next.Some? || queues[coop].ProcessRefs() == 0 { return; }
      ghost var d := LiveChain(S(), rank, walks, lost, coop);
      var found := FindEnd(cfqq, coop, d);
      if found == None {
        assert LinkEnds(queues, cfqq, d) == queues;
        return;
      }
      var end := found.value;
      var refs, endRefs := queues[cfqq].ProcessRefs(), queues[end].ProcessRefs();
      hide Owing, IsChain, Linked, NoRepeat;
      if refs == 0 || endRefs == 0 {
        assert LinkEnds(queues, cfqq, d) == queues;
      } else if endRefs >= refs {
        LinkTo(cfqq, end);
      } else {
        LinkTo(end, cfqq);
      }
    }

    /** One arm of the last step of cfq_setup_merge. */
    method LinkTo(a: QueueId, b: QueueId)
      requires Valid() && a in queues && b in queues && a != b && queues[a].next == None && queues[b].next == None
      modifies this
      ensures Valid() && S() == old(S()).(queues := Link(old(queues), a, b)) && lost == LinkLost(old(lost), a, b)
      ensures LostByLink(old(queues), queues, old(lost), lost)
    {
      hide Owing, LinkWalks, LinkLost, LostByLink;
      LinkKeeps(S(), rank, walks, lost, a, b);
      LinkLoses(queues, lost, a, b);
      var refs := queues[a].ProcessRefs();
      queues := queues[a := queues[a].(next := Some(b))];
      queues := queues[b := queues[b].(ref := queues[b].ref + refs)];
      rank, walks, lost := Lower(rank, b), LinkWalks(walks, a, b), LinkLost(lost, a, b);
    }

    /** cfq_merge_cfqqs when cfqq->new_cfqq is set; otherwise nothing. */
    method MergeCfqqs(c: CicId) returns (q: QueueId)
      requires Valid() && c in holders
      modifies this
      ensures Valid() && lost == old(lost) && c in holders && q == holders[c] && q in queues && rqs == old(rqs)
      ensures old(queues[holders[c]]).next.Some? ==> old(queues[holders[c]]).next.value in old(queues)
      ensures S() == Merged(old(S()), c)
    {
      hide Owing, DropRefs;
      HolderLive(S(), rank, walks, lost, c);
      q := holders[c];
      if queues[q].next == None { return; }
      MoveKeeps(S(), rank, walks, lost, c);
      var b := queues[q].next.value;
      holders := holders[c := b];
      walks := walks[c := walks[c][1..]];
      FlagsKeep(S(), rank, walks, lost + multiset{q}, b, queues[b].(coop := true));
      queues := queues[b := queues[b].(coop := true)];
      PaidOne(lost, q);
      PutQueue(q, lost + multiset{q});
      q := b;
      HolderLive(S(), rank, walks, lost, c);
    }

    /** cfq_set_request up to the point where the cic has to be given a new queue. */
    method SetRequest(c: CicId, i: RqId, write: bool) returns (need: bool)
      requires Valid() && i !in rqs
      modifies this
      ensures Valid() && lost == old(lost) && SetRequestStep(old(S()), c, i, write, S(), need)
    {
      hide Owing;
      if c !in holders { return true; }
      HolderLive(S(), rank, walks, lost, c);
      var q := holders[c];
      var e := queues[q];
      if e.coop && e.splitCoop {
        if e.ProcessRefs() != 1 {  // split_cfqq
          DropContext(c);
          return true;
        }
        FlagsKeep(S(), rank, walks, lost, q, e.(coop := false, splitCoop := false));
        queues := queues[q := e.(coop := false, splitCoop := false)];
      }
      q := MergeCfqqs(c);
      AddRqKeeps(S(), rank, walks, lost, i, q, write);
      queues := queues[q := queues[q].Bump(write)];
      rqs := rqs[i := Rq(q, write)];
      need := false;
    }

    /**
     The rest of cfq_set_request, from the moment the lock is retaken with fresh
     memory in hand.  If the cic got a queue meanwhile, that one is used and
     referenced once too often.
     */
    method GetQueue(c: CicId, i: RqId, write: bool, mem: QueueId)
      requires Valid() && i !in rqs && mem !in queues
      modifies this
      ensures Valid() && GetQueueStep(old(S()), c, i, write, mem, S())
      ensures lost == if c in old(holders) then old(lost) + multiset{old(holders)[c]} else old(lost)
    {
      hide Owing, Lower;
      var q := mem;
      if c in holders {
        HolderLive(S(), rank, walks, lost, c);
        q := holders[c];
        LoseKeeps(S(), rank, walks, lost, q);
        queues := queues[q := queues[q].(ref := queues[q].ref + 1)];
        lost := lost + multiset{q};
      } else {
        NewQueueKeeps(S(), rank, walks, lost, c, mem);
        rank, walks := Lower(rank, mem), walks[c := [mem]];
        queues, holders := queues[mem := FreshQueue], holders[c := mem];
      }
      AddRqKeeps(S(), rank, walks, lost, i, q, write);
      queues := queues[q := queues[q].Bump(write)];
      rqs := rqs[i := Rq(q, write)];
    }
  }
}
