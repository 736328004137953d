/**
 The deadline I/O scheduler (deadline-iosched.c).  The red-black tree of a direction
 is the sequence of its requests in sector order; settings do not change during a run.
 */
module DeadlineElevator {
  import opened Wrappers
  import opened Arithmetic
  import opened Lists

  type Id = nat

  datatype Dir = Read | Write

  datatype Config = Config(fifoBatch: nat, writesStarved: nat, readExpire: nat, writeExpire: nat) {
    predicate Valid() { fifoBatch >= 1 && writesStarved >= 1 }
    function Expire(d: Dir): nat { if d == Read then readExpire else writeExpire }
  }

  /** Direction, first sector and expiry time of a queued request. */
  datatype Rq = Rq(dir: Dir, pos: int, time: int)

  /** fifo_list, sort_list and next_rq of one direction. */
  datatype Side = Side(fifo: seq<Id>, sort: seq<Id>, next: Option<Id>)

  datatype State = State(rqs: map<Id, Rq>, rd: Side, wr: Side, batching: nat, starved: nat) {
    function Of(d: Dir): Side { if d == Read then rd else wr }
    function With(d: Dir, x: Side): State { if d == Read then this.(rd := x) else this.(wr := x) }
  }

  // ---------------------------------------------------------------- one direction

  function PosOf(rqs: map<Id, Rq>): Id -> int { (x: Id) => if x in rqs then rqs[x].pos else 0 }

  function TimeOf(rqs: map<Id, Rq>): Id -> int { (x: Id) => if x in rqs then rqs[x].time else 0 }

  /** The list holds exactly the queued requests of its direction. */
  ghost predicate Holds(rqs: map<Id, Rq>, l: seq<Id>, d: Dir) {
    NoRepeat(l) && forall x :: x in l <==> x in rqs && rqs[x].dir == d
  }

  ghost predicate SideOk(rqs: map<Id, Rq>, x: Side, d: Dir) {
    && Holds(rqs, x.fifo, d) && Holds(rqs, x.sort, d)
    && Ascending(x.fifo, TimeOf(rqs)) && Ascending(x.sort, PosOf(rqs))
    && (x.next.Some? ==> x.next.value in x.sort)
  }

  ghost predicate Inv(c: Config, s: State) {
    && SideOk(s.rqs, s.rd, Read) && SideOk(s.rqs, s.wr, Write)
    && (s.rd.next.Some? ==> s.wr.next == None) && s.starved <= c.writesStarved
    && (s.rd.next.Some? || s.wr.next.Some? ==> s.batching >= 1)
  }

  /** The request after `x` in sector order. */
  function Latter(sort: seq<Id>, x: Id): Option<Id>
    requires x in sort
  {
    var k := Place(sort, x);
    if k + 1 < |sort| then Some(sort[k + 1]) else None
  }

  /** deadline_remove_request. */
  function Removed(x: Side, r: Id): Side
    requires r in x.sort
  {
    Side(Without(x.fifo, r), Without(x.sort, r), if x.next == Some(r) then Latter(x.sort, r) else x.next)
  }

  /** The keys depend only on the requests in the list. */
  lemma SameKeys(l: seq<Id>, f: Id -> int, g: Id -> int)
    requires Ascending(l, f) && forall x :: x in l ==> f(x) == g(x)
    ensures Ascending(l, g)
  {
    forall i, j | 0 <= i < j < |l| ensures g(l[i]) <= g(l[j]) {
      assert l[i] in l && l[j] in l;
    }
  }

  /** The lists do not see a request of the other direction come, go or change. */
  lemma OtherSide(rqs: map<Id, Rq>, rqs': map<Id, Rq>, x: Side, d: Dir)
    requires SideOk(rqs, x, d)
    requires forall y :: y in rqs && rqs[y].dir == d ==> y in rqs' && rqs'[y] == rqs[y]
    requires forall y :: y in rqs' && rqs'[y].dir == d ==> y in rqs && rqs[y] == rqs'[y]
    ensures SideOk(rqs', x, d)
  {
    SameKeys(x.fifo, TimeOf(rqs), TimeOf(rqs'));
    SameKeys(x.sort, PosOf(rqs), PosOf(rqs'));
  }

  lemma LatterOk(sort: seq<Id>, r: Id)
    requires NoRepeat(sort) && r in sort
    ensures Latter(sort, r).Some? ==> Latter(sort, r).value in sort && Latter(sort, r).value != r
  {
  }

  lemma HoldsWithout(rqs: map<Id, Rq>, l: seq<Id>, d: Dir, r: Id)
    requires Holds(rqs, l, d)
    ensures Holds(rqs - {r}, Without(l, r), d)
  {
    WithoutOk(l, r);
    hide NoRepeat, Without;
  }

  lemma RemovedOk(rqs: map<Id, Rq>, x: Side, d: Dir, r: Id)
    requires SideOk(rqs, x, d) && r in x.sort
    ensures SideOk(rqs - {r}, Removed(x, r), d)
  {
    hide Ascending, Without;
    HoldsWithout(rqs, x.fifo, d, r);
    HoldsWithout(rqs, x.sort, d, r);
    WithoutAscending(x.fifo, r, TimeOf(rqs));
    WithoutAscending(x.sort, r, PosOf(rqs));
    WithoutOk(x.sort, r);
    LatterOk(x.sort, r);
    SameKeys(Without(x.fifo, r), TimeOf(rqs), TimeOf(rqs - {r}));
    SameKeys(Without(x.sort, r), PosOf(rqs), PosOf(rqs - {r}));
  }

  lemma RemovedElsewhere(rqs: map<Id, Rq>, x: Side, d: Dir, r: Id)
    requires SideOk(rqs, x, d) && r in rqs && rqs[r].dir != d
    ensures SideOk(rqs - {r}, x, d)
  {
    OtherSide(rqs, rqs - {r}, x, d);
  }

  // ---------------------------------------------------------------- inserts and merges

  /** deadline_add_request. */
  function Added(c: Config, s: State, r: Id, d: Dir, pos: int, now: nat): State {
    var rqs := s.rqs[r := Rq(d, pos, now + c.Expire(d))];
    var x := s.Of(d);
    s.(rqs := rqs).With(d, x.(fifo := x.fifo + [r], sort := Inserted(x.sort, r, PosOf(rqs))))
  }

  /** No request expires later than one added now would. */
  ghost predicate Clocked(c: Config, s: State, now: nat) {
    forall x :: x in s.rqs ==> s.rqs[x].time <= now + c.Expire(s.rqs[x].dir)
  }

  lemma AppendAscending(l: seq<Id>, key: Id -> int, r: Id)
    requires Ascending(l, key) && forall x :: x in l ==> key(x) <= key(r)
    ensures Ascending(l + [r], key)
  {
    forall i | 0 <= i < |l| ensures key(l[i]) <= key(r) { assert l[i] in l; }
  }

  lemma HoldsMore(rqs: map<Id, Rq>, l: seq<Id>, m: seq<Id>, d: Dir, r: Id, q: Rq)
    requires Holds(rqs, l, d) && r !in rqs && q.dir == d && NoRepeat(m) && forall x :: x in m <==> x in l || x == r
    ensures Holds(rqs[r := q], m, d)
  {
    hide NoRepeat;
  }

  lemma AddedSide(c: Config, s: State, r: Id, d: Dir, pos: int, now: nat)
    requires SideOk(s.rqs, s.Of(d), d) && r !in s.rqs && Clocked(c, s, now)
    ensures var t := Added(c, s, r, d, pos, now); SideOk(t.rqs, t.Of(d), d)
  {
    hide Ascending, NoRepeat, Inserted;
    var t, x := Added(c, s, r, d, pos, now), s.Of(d);
    assert r !in x.fifo && r !in x.sort;
    SameKeys(x.fifo, TimeOf(s.rqs), TimeOf(t.rqs));
    SameKeys(x.sort, PosOf(s.rqs), PosOf(t.rqs));
    InsertedOk(x.sort, r, PosOf(t.rqs));
    AppendAscending(x.fifo, TimeOf(t.rqs), r);
    AppendNoRepeat(x.fifo, r);
    HoldsMore(s.rqs, x.fifo, x.fifo + [r], d, r, t.rqs[r]);
    HoldsMore(s.rqs, x.sort, t.Of(d).sort, d, r, t.rqs[r]);
  }

  lemma AppendNoRepeat(l: seq<Id>, r: Id)
    requires NoRepeat(l) && r !in l
    ensures NoRepeat(l + [r])
  {
  }

  lemma AddedKeeps(c: Config, s: State, r: Id, d: Dir, pos: int, now: nat)
    requires Inv(c, s) && r !in s.rqs && Clocked(c, s, now)
    ensures Inv(c, Added(c, s, r, d, pos, now)) && Clocked(c, Added(c, s, r, d, pos, now), now)
  {
    hide SideOk;
    var t := Added(c, s, r, d, pos, now);
    AddedSide(c, s, r, d, pos, now);
    OtherSide(s.rqs, t.rqs, s.Of(if d == Read then Write else Read), if d == Read then Write else Read);
  }

  /** The removal part of a dispatch or a merge. */
  function Dropped(s: State, r: Id): State
    requires r in s.rqs && r in s.Of(s.rqs[r].dir).sort
  {
    s.(rqs := s.rqs - {r}).With(s.rqs[r].dir, Removed(s.Of(s.rqs[r].dir), r))
  }

  lemma DroppedKeeps(c: Config, s: State, r: Id)
    requires Inv(c, s) && r in s.rqs
    ensures r in s.Of(s.rqs[r].dir).sort && Inv(c, Dropped(s, r))
  {
    var d := s.rqs[r].dir;
    RemovedOk(s.rqs, s.Of(d), d, r);
    RemovedElsewhere(s.rqs, s.Of(if d == Read then Write else Read), if d == Read then Write else Read, r);
    hide Holds, Ascending;
  }

  lemma DroppedNext(c: Config, s: State, r: Id)
    requires Inv(c, s) && r in s.rqs && r in s.Of(s.rqs[r].dir).sort && Inv(c, Dropped(s, r))
    ensures var t := Dropped(s, r); t.rqs == s.rqs - {r} && t.rd.next != Some(r) && t.wr.next != Some(r)
  {
  }

  /** deadline_merged_request after a front merge: the request has a new first sector. */
  function Repositioned(s: State, r: Id, pos: int): State
    requires r in s.rqs
  {
    var d := s.rqs[r].dir;
    var rqs, x := s.rqs[r := s.rqs[r].(pos := pos)], s.Of(d);
    s.(rqs := rqs).With(d, x.(sort := Inserted(Without(x.sort, r), r, PosOf(rqs))))
  }

  lemma RepositionedSide(s: State, r: Id, pos: int)
    requires r in s.rqs && SideOk(s.rqs, s.Of(s.rqs[r].dir), s.rqs[r].dir)
    ensures var t := Repositioned(s, r, pos); SideOk(t.rqs, t.Of(s.rqs[r].dir), s.rqs[r].dir)
  {
    hide Ascending, Without, Inserted, NoRepeat;
    var d := s.rqs[r].dir;
    var t, x := Repositioned(s, r, pos), s.Of(d);
    var rest := Without(x.sort, r);
    WithoutOk(x.sort, r);
    WithoutAscending(x.sort, r, PosOf(s.rqs));
    SameKeys(rest, PosOf(s.rqs), PosOf(t.rqs));
    InsertedOk(rest, r, PosOf(t.rqs));
    SameKeys(x.fifo, TimeOf(s.rqs), TimeOf(t.rqs));
  }

  lemma RepositionedKeeps(c: Config, s: State, r: Id, pos: int)
    requires Inv(c, s) && r in s.rqs
    ensures Inv(c, Repositioned(s, r, pos))
  {
    hide SideOk;
    var d := s.rqs[r].dir;
    RepositionedSide(s, r, pos);
    OtherSide(s.rqs, Repositioned(s, r, pos).rqs, s.Of(if d == Read then Write else Read), if d == Read then Write else Read);
  }

  /** `x` is queued, and in the tree of its direction. */
  predicate Listed(s: State, x: Id) { x in s.rqs && x in s.Of(s.rqs[x].dir).sort }

  /** The first half of deadline_merged_requests: take over the earlier expiry and the place of `next`. */
  function TakenOver(s: State, r: Id, next: Id): State
    requires r in s.rqs && next in s.rqs
  {
    if s.rqs[next].time < s.rqs[r].time then
      var d := s.rqs[r].dir;
      var x := s.Of(d);
      s.(rqs := s.rqs[r := s.rqs[r].(time := s.rqs[next].time)]).With(d, x.(fifo := PutAfter(Without(x.fifo, r), next, r)))
    else s
  }

  /** deadline_merged_requests. */
  function Merged(s: State, r: Id, next: Id): State
    requires r in s.rqs && Listed(s, next) && r != next
  {
    Dropped(TakenOver(s, r, next), next)
  }

  lemma TakenOverSide(s: State, r: Id, next: Id)
    requires r in s.rqs && next in s.rqs && r != next && s.rqs[r].dir == s.rqs[next].dir && s.rqs[next].time < s.rqs[r].time
    requires SideOk(s.rqs, s.Of(s.rqs[r].dir), s.rqs[r].dir)
    ensures var t := TakenOver(s, r, next); SideOk(t.rqs, t.Of(s.rqs[r].dir), s.rqs[r].dir)
  {
    hide Ascending, Without, PutAfter, NoRepeat;
    var d := s.rqs[r].dir;
    var t, x := TakenOver(s, r, next), s.Of(d);
    var rest := Without(x.fifo, r);
    WithoutOk(x.fifo, r);
    WithoutAscending(x.fifo, r, TimeOf(s.rqs));
    SameKeys(rest, TimeOf(s.rqs), TimeOf(t.rqs));
    PutAfterOk(rest, next, r);
    PutAfterAscending(rest, next, r, TimeOf(t.rqs));
    SameKeys(x.sort, PosOf(s.rqs), PosOf(t.rqs));
  }

  lemma TakenOverKeeps(c: Config, s: State, r: Id, next: Id)
    requires Inv(c, s) && r in s.rqs && next in s.rqs && r != next && s.rqs[r].dir == s.rqs[next].dir
    ensures Inv(c, TakenOver(s, r, next))
  {
    hide SideOk;
    var d := s.rqs[r].dir;
    if s.rqs[next].time < s.rqs[r].time {
      TakenOverSide(s, r, next);
      OtherSide(s.rqs, TakenOver(s, r, next).rqs, s.Of(if d == Read then Write else Read), if d == Read then Write else Read);
    }
  }

  lemma MergedKeeps(c: Config, s: State, r: Id, next: Id)
    requires Inv(c, s) && r in s.rqs && next in s.rqs && r != next && s.rqs[r].dir == s.rqs[next].dir
    ensures Listed(s, next) && Inv(c, Merged(s, r, next))
  {
    TakenOverKeeps(c, s, r, next);
    DroppedKeeps(c, TakenOver(s, r, next), next);
  }

  // ---------------------------------------------------------------- dispatch

  /** deadline_move_request. */
  function Sent(s: State, r: Id): State
    requires r in s.rqs && r in s.Of(s.rqs[r].dir).sort
  {
    var d := s.rqs[r].dir;
    var next := Latter(s.Of(d).sort, r);
    var u := s.(rd := s.rd.(next := None), wr := s.wr.(next := None));
    Dropped(u.With(d, u.Of(d).(next := next)), r)
  }

  /** The batch position moves on before the request is taken out. */
  lemma SentBegins(c: Config, s: State, r: Id)
    requires Inv(c, s) && r in s.rqs && s.batching >= 1
    ensures r in s.Of(s.rqs[r].dir).sort && NoRepeat(s.Of(s.rqs[r].dir).sort)
    ensures var d := s.rqs[r].dir;
            var u := s.(rd := s.rd.(next := None), wr := s.wr.(next := None));
            Inv(c, u.With(d, u.Of(d).(next := Latter(s.Of(d).sort, r))))
  {
    var d := s.rqs[r].dir;
    assert r in s.Of(d).sort;
    LatterOk(s.Of(d).sort, r);
    hide Holds, Ascending;
  }

  lemma SentKeeps(c: Config, s: State, r: Id)
    requires Inv(c, s) && r in s.rqs && s.batching >= 1
    ensures r in s.Of(s.rqs[r].dir).sort && Inv(c, Sent(s, r))
  {
    var d := s.rqs[r].dir;
    SentBegins(c, s, r);
    hide SideOk, Dropped, Latter;
    var u := s.(rd := s.rd.(next := None), wr := s.wr.(next := None));
    DroppedKeeps(c, u.With(d, u.Of(d).(next := Latter(s.Of(d).sort, r))), r);
  }

  /**
   A batch goes on upwards: its next candidate is at or past the request just sent, and
   no request behind that one in sector order is before the candidate.
   */
  lemma BatchAscends(c: Config, s: State, r: Id)
    requires Inv(c, s) && r in s.rqs && s.batching >= 1
    ensures r in s.Of(s.rqs[r].dir).sort
    ensures var l, k := s.Of(s.rqs[r].dir).sort, Candidate(Sent(s, r));
            && (k == None <==> Place(l, r) == |l| - 1)
            && (k.Some? ==> k.value in l && k.value in s.rqs && s.rqs[r].pos <= s.rqs[k.value].pos
                            && forall i :: Place(l, r) < i < |l| ==> l[i] in s.rqs && s.rqs[k.value].pos <= s.rqs[l[i]].pos)
  {
    hide Ascending, NoRepeat, Without, Latter, PosOf, TimeOf;
    var d := s.rqs[r].dir;
    var l := s.Of(d).sort;
    assert r in l;
    SuccessorOk(s.rqs, l, r);
    SentCandidate(s, r);
  }

  lemma SentCandidate(s: State, r: Id)
    requires r in s.rqs && r in s.Of(s.rqs[r].dir).sort && NoRepeat(s.Of(s.rqs[r].dir).sort)
    ensures Candidate(Sent(s, r)) == Latter(s.Of(s.rqs[r].dir).sort, r)
  {
    LatterOk(s.Of(s.rqs[r].dir).sort, r);
    hide Latter, Without;
  }

  lemma SuccessorOk(rqs: map<Id, Rq>, l: seq<Id>, r: Id)
    requires NoRepeat(l) && Ascending(l, PosOf(rqs)) && r in l && forall x :: x in l ==> x in rqs
    ensures var k := Latter(l, r);
            && (k == None <==> Place(l, r) == |l| - 1)
            && (k.Some? ==> k.value in l && rqs[r].pos <= rqs[k.value].pos
                            && forall i :: Place(l, r) < i < |l| ==> l[i] in rqs && rqs[k.value].pos <= rqs[l[i]].pos)
  {
    var p := Place(l, r);
    if p + 1 < |l| {
      assert PosOf(rqs)(l[p]) <= PosOf(rqs)(l[p + 1]);
      forall i | p < i < |l| ensures l[i] in rqs && rqs[l[p + 1]].pos <= rqs[l[i]].pos {
        if i > p + 1 { assert PosOf(rqs)(l[p + 1]) <= PosOf(rqs)(l[i]); }
      }
    }
  }

  function Candidate(s: State): Option<Id> { if s.wr.next.Some? then s.wr.next else s.rd.next }

  /** A running batch may go on. */
  predicate Batching(c: Config, s: State) { Candidate(s).Some? && s.batching < c.fifoBatch }

  /** The direction of the next batch, and the starvation count after choosing it. */
  function Turn(c: Config, s: State): Option<(Dir, nat)> {
    if s.rd.fifo != [] then
      if s.wr.fifo == [] then Some((Read, s.starved))
      else if s.starved >= c.writesStarved then Some((Write, 0))
      else Some((Read, s.starved + 1))
    else if s.wr.fifo != [] then Some((Write, 0))
    else None
  }

  /** Where a batch starts: at the oldest request if it has expired or there is nothing to continue from. */
  function Start(s: State, d: Dir, now: nat): Id
    requires s.Of(d).fifo != [] && s.Of(d).fifo[0] in s.rqs
  {
    var x := s.Of(d);
    if now > s.rqs[x.fifo[0]].time || x.next == None then x.fifo[0] else x.next.value
  }

  datatype Dispatched = Dispatched(s: State, rq: Option<Id>)

  /** The lists and the batch positions name queued requests. */
  predicate Ready(s: State) {
    && (forall x :: x in s.rd.fifo ==> Listed(s, x)) && (forall x :: x in s.wr.fifo ==> Listed(s, x))
    && (s.rd.next.Some? ==> Listed(s, s.rd.next.value)) && (s.wr.next.Some? ==> Listed(s, s.wr.next.value))
  }

  lemma InvReady(c: Config, s: State)
    requires Inv(c, s)
    ensures Ready(s)
  {
  }

  /** deadline_dispatch_requests. */
  function Dispatch(c: Config, s: State, now: nat): Dispatched
    requires Ready(s)
  {
    if Batching(c, s) then
      var r := Candidate(s).value;
      Dispatched(Sent(s.(batching := s.batching + 1), r), Some(r))
    else
      match Turn(c, s)
      case None => Dispatched(s, None)
      case Some((d, starved)) =>
        assert s.Of(d).fifo[0] in s.Of(d).fifo;
        var r := Start(s, d, now);
        Dispatched(Sent(s.(starved := starved, batching := 1), r), Some(r))
  }

  lemma CandidateQueued(c: Config, s: State)
    requires Inv(c, s) && Candidate(s).Some?
    ensures Candidate(s).value in s.rqs
  {
  }

  /** A batch starts in the direction whose turn it is, unless nothing is queued. */
  lemma TurnQueued(c: Config, s: State, now: nat)
    requires Inv(c, s)
    ensures Turn(c, s) == None <==> s.rqs == map[]
    ensures Turn(c, s).Some? ==>
              var (d, starved) := Turn(c, s).value;
              && s.Of(d).fifo != [] && s.Of(d).fifo[0] in s.rqs && starved <= c.writesStarved
              && Start(s, d, now) in s.rqs && s.rqs[Start(s, d, now)].dir == d
  {
    if Turn(c, s).Some? {
      var (d, starved) := Turn(c, s).value;
      assert s.Of(d).fifo[0] in s.Of(d).fifo;
    } else {
      forall x ensures x !in s.rqs {
        assert x !in s.rd.fifo && x !in s.wr.fifo;
      }
      assert s.rqs == map[];
    }
  }

  lemma DispatchKeeps(c: Config, s: State, now: nat)
    requires Inv(c, s)
    ensures var d := Dispatch(c, s, now);
            && Inv(c, d.s)
            && (d.rq == None <==> s.rqs == map[]) && (d.rq == None ==> d.s == s)
            && (d.rq.Some? ==> d.rq.value in s.rqs && d.s.rqs == s.rqs - {d.rq.value})
  {
    hide SideOk, Start, Sent;
    TurnQueued(c, s, now);
    if Batching(c, s) {
      var r := Candidate(s).value;
      CandidateQueued(c, s);
      SentKeeps(c, s.(batching := s.batching + 1), r);
      SentRqs(s.(batching := s.batching + 1), r);
    } else if Turn(c, s).Some? {
      var (d, starved) := Turn(c, s).value;
      var r := Start(s, d, now);
      SentKeeps(c, s.(starved := starved, batching := 1), r);
      SentRqs(s.(starved := starved, batching := 1), r);
    }
  }

  lemma SentRqs(s: State, r: Id)
    requires r in s.rqs && r in s.Of(s.rqs[r].dir).sort
    ensures Sent(s, r).rqs == s.rqs - {r} && Sent(s, r).batching == s.batching && Sent(s, r).starved == s.starved
  {
  }

  // ---------------------------------------------------------------- batches

  /** A request expires the time of its direction after it was added, and the new one is the last of its FIFO. */
  lemma AddedExpires(c: Config, s: State, r: Id, d: Dir, pos: int, now: nat)
    ensures var u := Added(c, s, r, d, pos, now);
            && u.rqs == s.rqs[r := Rq(d, pos, now + if d == Read then c.readExpire else c.writeExpire)]
            && u.Of(d).fifo == s.Of(d).fifo + [r] && u.batching == s.batching && u.starved == s.starved && Candidate(u) == Candidate(s)
  {
  }

  /** A batch whose next request is merged away goes on with the one behind it in sector order; other merges leave the batch alone. */
  lemma MergedCandidate(c: Config, s: State, req: Id, next: Id)
    requires Inv(c, s) && req in s.rqs && next in s.rqs && req != next && s.rqs[req].dir == s.rqs[next].dir
    ensures Listed(s, next)
    ensures var u := Merged(s, req, next);
            && Candidate(u) == (if Candidate(s) == Some(next) then Latter(s.Of(s.rqs[next].dir).sort, next) else Candidate(s))
            && u.batching == s.batching && u.starved == s.starved
  {
    hide Latter, Without, PutAfter;
  }

  /** Which request starts a batch: reads first unless writes have waited long enough; the oldest if it has expired, and else where the last batch of that direction left off. */
  lemma NewBatch(c: Config, s: State, now: nat)
    requires Inv(c, s) && !(Candidate(s).Some? && s.batching < c.fifoBatch) && s.rqs != map[]
    ensures var r := Dispatch(c, s, now).rq;
            && r.Some? && r.value in s.rqs
            && var d := s.rqs[r.value].dir;
               && (d == Read <==> s.rd.fifo != [] && (s.wr.fifo == [] || s.starved < c.writesStarved))
               && s.Of(d).fifo != [] && s.Of(d).fifo[0] in s.rqs
               && r.value == (if s.rqs[s.Of(d).fifo[0]].time < now || s.Of(d).next == None then s.Of(d).fifo[0] else s.Of(d).next.value)
               && Dispatch(c, s, now).s.batching == 1
               && Dispatch(c, s, now).s.starved
                    == (if d == Write then 0 else if s.wr.fifo == [] then s.starved else s.starved + 1)
  {
    hide SideOk, Sent;
    TurnQueued(c, s, now);
    var (d, starved) := Turn(c, s).value;
    var x := Start(s, d, now);
    QueuedInFifo(c, s, x);
    SentRqs(s.(starved := starved, batching := 1), x);
  }

  /** The requests that dispatch calls at the given times return. */
  ghost function SentBy(c: Config, s: State, nows: seq<nat>): seq<Option<Id>>
    requires Inv(c, s)
    decreases |nows|
  {
    if nows == [] then []
    else
      DispatchKeeps(c, s, nows[0]);
      [Dispatch(c, s, nows[0]).rq] + SentBy(c, Dispatch(c, s, nows[0]).s, nows[1..])
  }

  /**
   A batch that is not full goes on in sector order, whatever has expired meanwhile: the next calls,
   as many as fifo_batch allows and as the direction has requests, return consecutive ones.
   */
  lemma {:induction false} BatchSends(c: Config, s: State, nows: seq<nat>, k: Id)
    requires Inv(c, s) && Candidate(s) == Some(k) && s.batching + |nows| <= c.fifoBatch
    requires k in s.rqs && k in s.Of(s.rqs[k].dir).sort
    requires Place(s.Of(s.rqs[k].dir).sort, k) + |nows| <= |s.Of(s.rqs[k].dir).sort|
    ensures var l := s.Of(s.rqs[k].dir).sort;
            |SentBy(c, s, nows)| == |nows| && forall i :: 0 <= i < |nows| ==> SentBy(c, s, nows)[i] == Some(l[Place(l, k) + i])
    decreases |nows|
  {
    hide Inv, Dispatch, Place, Candidate;
    if nows != [] {
      var l := s.Of(s.rqs[k].dir).sort;
      var p := Place(l, k);
      DispatchKeeps(c, s, nows[0]);
      BatchStep(c, s, k, nows[0]);
      var s' := Dispatch(c, s, nows[0]).s;
      if |nows| > 1 {
        BatchSends(c, s', nows[1..], l[p + 1]);
        BatchShifts(c, s, nows, k);
      }
    }
  }

  lemma BatchShifts(c: Config, s: State, nows: seq<nat>, k: Id)
    requires Inv(c, s) && nows != [] && Inv(c, Dispatch(c, s, nows[0]).s) && Dispatch(c, s, nows[0]).rq == Some(k)
    ensures SentBy(c, s, nows) == [Some(k)] + SentBy(c, Dispatch(c, s, nows[0]).s, nows[1..])
  {
  }

  /** One call of a batch that is not full. */
  lemma BatchStep(c: Config, s: State, k: Id, now: nat)
    requires Inv(c, s) && Candidate(s) == Some(k) && s.batching < c.fifoBatch && k in s.rqs && k in s.Of(s.rqs[k].dir).sort
    ensures Ready(s)
    ensures var l, p, e := s.Of(s.rqs[k].dir).sort, Place(s.Of(s.rqs[k].dir).sort, k), Dispatch(c, s, now);
            && e.rq == Some(k) && e.s.batching == s.batching + 1 && |e.s.Of(s.rqs[k].dir).sort| == |l| - 1
            && (p + 1 < |l| ==>
                  && Candidate(e.s) == Some(l[p + 1]) && l[p + 1] in e.s.rqs && e.s.rqs[l[p + 1]].dir == s.rqs[k].dir
                  && l[p + 1] in e.s.Of(s.rqs[k].dir).sort && Place(e.s.Of(s.rqs[k].dir).sort, l[p + 1]) == p
                  && forall i :: p < i < |l| ==> e.s.Of(s.rqs[k].dir).sort[i - 1] == l[i])
  {
    hide SideOk, Sent, NoRepeat, Without;
    var d := s.rqs[k].dir;
    var l := s.Of(d).sort;
    var p := Place(l, k);
    var u := s.(batching := s.batching + 1);
    InvReady(c, s);
    SortHolds(c, s, d);
    SentRqs(u, k);
    SentCandidate(u, k);
    SentSort(u, k);
    NextInPlace(l, p);
    if p + 1 < |l| { assert l[p + 1] in l; }
  }

  /** What stands behind an entry moves up when the entry goes. */
  lemma NextInPlace(l: seq<Id>, p: nat)
    requires NoRepeat(l) && p < |l|
    ensures var m := Without(l, l[p]);
            && |m| == |l| - 1 && (forall i :: p < i < |l| ==> m[i - 1] == l[i])
            && (p + 1 < |l| ==> l[p + 1] != l[p] && l[p + 1] in m && Place(m, l[p + 1]) == p)
  {
    hide Without;
    WithoutAt(l, p);
    WithoutOk(l, l[p]);
    if p + 1 < |l| { PlaceAt(Without(l, l[p]), p); }
  }

  lemma SortHolds(c: Config, s: State, d: Dir)
    requires Inv(c, s)
    ensures NoRepeat(s.Of(d).sort) && forall x :: x in s.Of(d).sort ==> x in s.rqs && s.rqs[x].dir == d
  {
  }

  lemma SentSort(s: State, r: Id)
    requires r in s.rqs && r in s.Of(s.rqs[r].dir).sort
    ensures Sent(s, r).Of(s.rqs[r].dir).sort == Without(s.Of(s.rqs[r].dir).sort, r)
  {
  }

  // ---------------------------------------------------------------- bounded starvation

  /** How many requests are ahead of `r` in its FIFO. */
  function Ahead(s: State, r: Id): nat
    requires r in s.rqs && r in s.Of(s.rqs[r].dir).fifo
  {
    Place(s.Of(s.rqs[r].dir).fifo, r)
  }

  /**
   At most so many batches start until one starts with `r`: one write batch between read
   batches, `writes_starved` read batches between write batches.
   */
  function Batches(c: Config, d: Dir, k: nat, starved: nat): int {
    if d == Read then 2 * k + (if starved >= c.writesStarved then 2 else 1)
    else k * (c.writesStarved + 1) + (c.writesStarved - starved) + 1
  }

  /** Calls left in the running batch. */
  function Rest(c: Config, s: State): nat { if Batching(c, s) then c.fifoBatch - s.batching else 0 }

  /** At most so many further dispatch calls until a request of direction `d` with `k` expired ones before it is dispatched. */
  function CallsAt(c: Config, s: State, d: Dir, k: nat): int {
    (Batches(c, d, k, s.starved) - 1) * c.fifoBatch + 1 + Rest(c, s)
  }

  function Calls(c: Config, s: State, r: Id): int
    requires r in s.rqs && r in s.Of(s.rqs[r].dir).fifo
  {
    CallsAt(c, s, s.rqs[r].dir, Ahead(s, r))
  }

  lemma BatchesMono(c: Config, d: Dir, k: nat, k': nat, starved: nat)
    requires k' <= k && starved <= c.writesStarved
    ensures 1 <= Batches(c, d, k', starved) <= Batches(c, d, k, starved)
  {
    MulMono(k', k, c.writesStarved + 1);
  }

  lemma CallsMono(c: Config, b: int, b': int, rest: nat, rest': nat)
    requires c.Valid() && b' <= b && rest' <= rest
    ensures (b' - 1) * c.fifoBatch + 1 + rest' <= (b - 1) * c.fifoBatch + 1 + rest
  {
    assert (b - b') * c.fifoBatch >= 0;
  }

  lemma QueuedInFifo(c: Config, s: State, r: Id)
    requires Inv(c, s) && r in s.rqs
    ensures r in s.Of(s.rqs[r].dir).fifo && r in s.Of(s.rqs[r].dir).sort && NoRepeat(s.Of(s.rqs[r].dir).fifo)
    ensures s.starved <= c.writesStarved
  {
  }

  /** Dispatching another request never pushes `r` back. */
  lemma SentNears(c: Config, s: State, r: Id, x: Id)
    requires Inv(c, s) && r in s.rqs && x in s.rqs && r != x
    ensures x in s.Of(s.rqs[x].dir).sort && r in s.Of(s.rqs[r].dir).fifo
    ensures var t := Sent(s, x);
            && r in t.rqs && r in t.Of(t.rqs[r].dir).fifo && t.rqs[r] == s.rqs[r] && Ahead(t, r) <= Ahead(s, r)
            && (s.rqs[x].dir == s.rqs[r].dir && s.Of(s.rqs[r].dir).fifo[0] == x ==> Ahead(t, r) == Ahead(s, r) - 1)
            && t.batching == s.batching && t.starved == s.starved
  {
    hide SideOk, Without;
    QueuedInFifo(c, s, r);
    QueuedInFifo(c, s, x);
    var l := s.Of(s.rqs[r].dir).fifo;
    WithoutPlace(l, x, r);
  }

  /** The oldest request of a direction has expired if any has. */
  lemma HeadExpired(c: Config, s: State, r: Id, now: nat)
    requires Inv(c, s) && r in s.rqs && s.rqs[r].time < now
    ensures var l := s.Of(s.rqs[r].dir).fifo; l != [] && l[0] in s.rqs && s.rqs[l[0]].time < now
  {
    var l := s.Of(s.rqs[r].dir).fifo;
    AscendingAt(l, TimeOf(s.rqs), r);
    assert l[0] in l;
  }

  /** The start of a batch, in either direction, uses up one of the batches allowed to direction `d0`. */
  lemma TurnSpends(c: Config, s: State, d0: Dir, k: nat)
    requires c.Valid() && s.starved <= c.writesStarved && s.Of(d0).fifo != [] && Turn(c, s).Some?
    ensures var (d, starved) := Turn(c, s).value;
            && (d == d0 && k > 0 ==> Batches(c, d0, k - 1, starved) <= Batches(c, d0, k, s.starved) - 1)
            && (d != d0 ==> Batches(c, d0, k, starved) <= Batches(c, d0, k, s.starved) - 1)
  {
    if d0 == Write && k > 0 {
      assert k * (c.writesStarved + 1) == (k - 1) * (c.writesStarved + 1) + (c.writesStarved + 1);
    }
  }

  /** The start of a batch takes an expired `r` at least one batch nearer. */
  lemma TurnNears(c: Config, s: State, r: Id, now: nat)
    requires c.Valid() && Inv(c, s) && r in s.rqs && s.rqs[r].time < now && Turn(c, s).Some?
    ensures r in s.Of(s.rqs[r].dir).fifo
    ensures var (d, starved) := Turn(c, s).value;
            && s.Of(d).fifo != [] && s.Of(d).fifo[0] in s.rqs
            && var x := Start(s, d, now);
               var k := Ahead(s, r) - (if d == s.rqs[r].dir then 1 else 0);
               && (d == s.rqs[r].dir ==> x == s.Of(d).fifo[0] && (x != r ==> k >= 0))
               && (x != r ==> Batches(c, s.rqs[r].dir, k, starved) <= Batches(c, s.rqs[r].dir, Ahead(s, r), s.starved) - 1)
  {
    hide SideOk;
    QueuedInFifo(c, s, r);
    HeadExpired(c, s, r, now);
    TurnQueued(c, s, now);
    TurnSpends(c, s, s.rqs[r].dir, Ahead(s, r));
  }

  /** Every dispatch call brings an expired request nearer, until it is the one dispatched. */
  lemma DispatchNears(c: Config, s: State, r: Id, now: nat)
    requires c.Valid() && Inv(c, s) && r in s.rqs && s.rqs[r].time < now
    ensures r in s.Of(s.rqs[r].dir).fifo
    ensures var d := Dispatch(c, s, now);
            && d.rq.Some?
            && (d.rq.value != r ==>
                  r in d.s.rqs && d.s.rqs[r] == s.rqs[r] && r in d.s.Of(d.s.rqs[r].dir).fifo && Calls(c, d.s, r) <= Calls(c, s, r) - 1)
  {
    hide SideOk, Sent, Start, Ahead, Batches;
    QueuedInFifo(c, s, r);
    DispatchKeeps(c, s, now);
    var b := Batches(c, s.rqs[r].dir, Ahead(s, r), s.starved);
    if Batching(c, s) {
      var x := Candidate(s).value;
      CandidateQueued(c, s);
      if x != r {
        var u := s.(batching := s.batching + 1);
        SentNears(c, u, r, x);
        SameAhead(s, u, r);
        var t := Sent(u, x);
        BatchesMono(c, s.rqs[r].dir, Ahead(s, r), Ahead(t, r), s.starved);
        CallsMono(c, b, Batches(c, s.rqs[r].dir, Ahead(t, r), s.starved), Rest(c, s) - 1, Rest(c, t));
      }
    } else {
      TurnQueued(c, s, now);
      var (d, starved) := Turn(c, s).value;
      var x := Start(s, d, now);
      TurnNears(c, s, r, now);
      if x != r {
        var u := s.(starved := starved, batching := 1);
        SentNears(c, u, r, x);
        SameAhead(s, u, r);
        var t := Sent(u, x);
        BatchesMono(c, s.rqs[r].dir, Ahead(s, r) - (if d == s.rqs[r].dir then 1 else 0), Ahead(t, r), starved);
        var b' := Batches(c, s.rqs[r].dir, Ahead(t, r), starved);
        CallsMono(c, b - 1, b', c.fifoBatch - 1, Rest(c, t));
        assert (b - 1) * c.fifoBatch == (b - 2) * c.fifoBatch + c.fifoBatch;
      }
    }
  }

  lemma SameAhead(s: State, u: State, r: Id)
    requires u.rqs == s.rqs && u.rd == s.rd && u.wr == s.wr && r in s.rqs && r in s.Of(s.rqs[r].dir).fifo
    ensures Ahead(u, r) == Ahead(s, r)
  {
  }

  lemma BatchesBound(c: Config, d: Dir, k: nat, starved: nat)
    requires c.Valid() && starved <= c.writesStarved
    ensures 1 <= Batches(c, d, k, starved) <= (k + 1) * (c.writesStarved + 1)
  {
    BatchesMono(c, d, k, k, starved);
    if d == Read {
      MulMono(2, c.writesStarved + 1, k + 1);
    } else {
      assert (k + 1) * (c.writesStarved + 1) == k * (c.writesStarved + 1) + (c.writesStarved + 1);
    }
  }

  /** The bound on dispatch calls for a request that `k` others may precede. */
  function Bound(c: Config, k: nat): nat { (k + 1) * (c.writesStarved + 1) * c.fifoBatch }

  /** The stated bound covers the sharper one. */
  lemma CallsBound(c: Config, s: State, d: Dir, k: nat)
    requires c.Valid() && Inv(c, s)
    ensures 1 <= CallsAt(c, s, d, k) <= Bound(c, k)
  {
    hide SideOk, Batches;
    var b := Batches(c, d, k, s.starved);
    BatchesBound(c, d, k, s.starved);
    var m := (k + 1) * (c.writesStarved + 1);
    CallsMono(c, b, 1, Rest(c, s), 0);
    CallsMono(c, m, b, c.fifoBatch - 1, Rest(c, s));
    assert m * c.fifoBatch == (m - 1) * c.fifoBatch + c.fifoBatch;
  }

  datatype Op =
    | Insert(now: nat, r: Id, d: Dir, pos: int)
    | FrontMerge(now: nat, r: Id, pos: int)
    | Join(now: nat, r: Id, next: Id)
    | Call(now: nat)

  predicate Enabled(s: State, op: Op) {
    match op
    case Insert(_, r, _, _) => r !in s.rqs
    case FrontMerge(_, r, _) => r in s.rqs
    case Join(_, r, next) => r in s.rqs && Listed(s, next) && r != next && s.rqs[r].dir == s.rqs[next].dir
    case Call(_) => Ready(s)
  }

  function Next(c: Config, s: State, op: Op): State
    requires Enabled(s, op)
  {
    match op
    case Insert(now, r, d, pos) => Added(c, s, r, d, pos, now)
    case FrontMerge(_, r, pos) => Repositioned(s, r, pos)
    case Join(_, r, next) => Merged(s, r, next)
    case Call(now) => Dispatch(c, s, now).s
  }

  lemma NextKeeps(c: Config, s: State, op: Op)
    requires Inv(c, s) && Enabled(s, op) && Clocked(c, s, op.now)
    ensures Inv(c, Next(c, s, op)) && Clocked(c, Next(c, s, op), op.now)
  {
    hide SideOk, Dispatch, Repositioned;
    match op
    case Insert(now, r, d, pos) => AddedKeeps(c, s, r, d, pos, now);
    case FrontMerge(_, r, pos) =>
      RepositionedKeeps(c, s, r, pos);
      RepositionedTimes(s, r, pos);
    case Join(_, r, next) => MergedKeeps(c, s, r, next);
    case Call(now) => DispatchKeeps(c, s, now);
  }

  lemma RepositionedTimes(s: State, r: Id, pos: int)
    requires r in s.rqs
    ensures Repositioned(s, r, pos).rqs == s.rqs[r := s.rqs[r].(pos := pos)]
  {
  }

  /** Inserts behind it and sector changes leave `r` where it is. */
  lemma AddedNears(c: Config, s: State, x: Id, d: Dir, pos: int, now: nat, r: Id)
    requires Inv(c, s) && x !in s.rqs && r in s.rqs
    ensures r in s.Of(s.rqs[r].dir).fifo
    ensures var t := Added(c, s, x, d, pos, now);
            r in t.rqs && t.rqs[r] == s.rqs[r] && r in t.Of(t.rqs[r].dir).fifo && Calls(c, t, r) == Calls(c, s, r)
  {
    hide SideOk, Inserted;
    QueuedInFifo(c, s, r);
    AppendPlace(s.Of(s.rqs[r].dir).fifo, x, r);
  }

  lemma RepositionedNears(c: Config, s: State, x: Id, pos: int, r: Id)
    requires Inv(c, s) && x in s.rqs && r in s.rqs
    ensures r in s.Of(s.rqs[r].dir).fifo
    ensures var t := Repositioned(s, x, pos);
            r in t.rqs && t.rqs[r].time == s.rqs[r].time && r in t.Of(t.rqs[r].dir).fifo && Calls(c, t, r) == Calls(c, s, r)
  {
    hide SideOk, Inserted, Without;
    QueuedInFifo(c, s, r);
  }

  /** Where requests are after `req` took the place of `next` in front of it. */
  lemma MovedPlace(l: seq<Id>, req: Id, next: Id, r: Id)
    requires NoRepeat(l) && req in l && next in l && r in l && req != next && r != next && Place(l, next) < Place(l, req)
    ensures var m := Without(PutAfter(Without(l, req), next, req), next); r in m && Place(m, r) <= Place(l, r)
  {
    WithoutOk(l, req);
    WithoutPlace(l, req, next);
    var l1 := Without(l, req);
    if r != req { WithoutPlace(l, req, r); }
    PutAfterOk(l1, next, req);
    PutAfterPlace(l1, next, req, if r == req then next else r);
    PutAfterPlace(l1, next, req, next);
    var l2 := PutAfter(l1, next, req);
    WithoutPlace(l2, next, r);
    hide NoRepeat, Without, PutAfter;
  }

  /** An earlier expiry is an earlier place. */
  lemma EarlierAhead(l: seq<Id>, key: Id -> int, x: Id, y: Id)
    requires Ascending(l, key) && x in l && y in l && key(x) < key(y)
    ensures Place(l, x) < Place(l, y)
  {
  }

  /** A merge of two requests never pushes a third one, or the surviving one, back. */
  lemma MergedNears(c: Config, s: State, req: Id, next: Id, r: Id)
    requires c.Valid() && Inv(c, s) && r in s.rqs && r != next
    requires req in s.rqs && next in s.rqs && req != next && s.rqs[req].dir == s.rqs[next].dir
    ensures r in s.Of(s.rqs[r].dir).fifo && Listed(s, next)
    ensures var t := Merged(s, req, next);
            && r in t.rqs && t.rqs[r].dir == s.rqs[r].dir && t.rqs[r].time <= s.rqs[r].time && r in t.Of(t.rqs[r].dir).fifo
            && Ahead(t, r) <= Ahead(s, r) && t.starved == s.starved && Rest(c, t) <= Rest(c, s)
  {
    hide SideOk, Without, PutAfter, NoRepeat;
    MergedKeeps(c, s, req, next);
    QueuedInFifo(c, s, r);
    QueuedInFifo(c, s, req);
    QueuedInFifo(c, s, next);
    var l := s.Of(s.rqs[r].dir).fifo;
    WithoutPlace(l, next, r);
    if s.rqs[next].time < s.rqs[req].time && s.rqs[r].dir == s.rqs[req].dir {
      EarlierInFifo(c, s, next, req);
      MovedPlace(l, req, next, r);
    }
    DroppedRest(c, TakenOver(s, req, next), next);
    RestSame(c, s, req, next);
  }

  /** Where the surviving request is after it took the place of `next`. */
  lemma TakenPlace(l: seq<Id>, req: Id, next: Id)
    requires NoRepeat(l) && req in l && next in l && req != next && Place(l, next) < Place(l, req)
    ensures var m := Without(PutAfter(Without(l, req), next, req), next); req in m && Place(m, req) == Place(l, next)
  {
    hide NoRepeat, Without, PutAfter;
    WithoutOk(l, req);
    WithoutPlace(l, req, next);
    var l1 := Without(l, req);
    PutAfterOk(l1, next, req);
    PutAfterPlace(l1, next, req, next);
    WithoutPlace(PutAfter(l1, next, req), next, req);
  }

  /**
   A request that is merged into another one expires no later there, and keeps its place
   in line exactly if it expired earlier or the other one was not further back than next to it.
   */
  lemma AbsorbedKeepsPlace(c: Config, s: State, req: Id, next: Id)
    requires Inv(c, s) && req in s.rqs && next in s.rqs && req != next && s.rqs[req].dir == s.rqs[next].dir
    ensures Listed(s, next)
    ensures req in s.Of(s.rqs[req].dir).fifo && next in s.Of(s.rqs[next].dir).fifo
    ensures var t := Merged(s, req, next);
            && req in t.rqs && t.rqs[req].time <= s.rqs[next].time && req in t.Of(t.rqs[req].dir).fifo
            && (Ahead(t, req) <= Ahead(s, next) <==>
                  s.rqs[next].time < s.rqs[req].time || Ahead(s, req) <= Ahead(s, next) + 1)
  {
    hide SideOk, Without, PutAfter, NoRepeat;
    MergedKeeps(c, s, req, next);
    QueuedInFifo(c, s, req);
    QueuedInFifo(c, s, next);
    var l := s.Of(s.rqs[req].dir).fifo;
    if s.rqs[next].time < s.rqs[req].time {
      EarlierInFifo(c, s, next, req);
      TakenPlace(l, req, next);
    } else {
      WithoutPlace(l, next, req);
    }
  }

  lemma EarlierInFifo(c: Config, s: State, x: Id, y: Id)
    requires Inv(c, s) && x in s.rqs && y in s.rqs && s.rqs[x].dir == s.rqs[y].dir && s.rqs[x].time < s.rqs[y].time
    ensures var l := s.Of(s.rqs[x].dir).fifo; x in l && y in l && Place(l, x) < Place(l, y)
  {
    EarlierAhead(s.Of(s.rqs[x].dir).fifo, TimeOf(s.rqs), x, y);
  }

  lemma DroppedRest(c: Config, s: State, x: Id)
    requires x in s.rqs && x in s.Of(s.rqs[x].dir).sort
    ensures Rest(c, Dropped(s, x)) <= Rest(c, s)
  {
  }

  lemma RestSame(c: Config, s: State, r: Id, next: Id)
    requires r in s.rqs && next in s.rqs
    ensures Rest(c, TakenOver(s, r, next)) == Rest(c, s)
  {
  }

  /** What any step does to an expired request that stays queued. */
  lemma NextNears(c: Config, s: State, op: Op, r: Id)
    requires c.Valid() && Inv(c, s) && Enabled(s, op) && Clocked(c, s, op.now)
    requires r in s.rqs && s.rqs[r].time < op.now && r in Next(c, s, op).rqs
    ensures var t := Next(c, s, op);
            && t.rqs[r].time <= s.rqs[r].time && r in s.Of(s.rqs[r].dir).fifo && r in t.Of(t.rqs[r].dir).fifo
            && Calls(c, t, r) + (if op.Call? then 1 else 0) <= Calls(c, s, r)
  {
    hide SideOk, Dispatch, Merged, Added, Repositioned, Ahead;
    NextKeeps(c, s, op);
    QueuedInFifo(c, s, r);
    match op
    case Insert(now, x, d, pos) => AddedNears(c, s, x, d, pos, now, r);
    case FrontMerge(_, x, pos) => RepositionedNears(c, s, x, pos, r);
    case Join(_, req, next) =>
      MergedKeeps(c, s, req, next);
      if r != next { MergedNears(c, s, req, next, r); }
      MergedGone(c, s, req, next);
      var t := Merged(s, req, next);
      BatchesMono(c, s.rqs[r].dir, Ahead(s, r), Ahead(t, r), s.starved);
      CallsMono(c, Batches(c, s.rqs[r].dir, Ahead(s, r), s.starved), Batches(c, s.rqs[r].dir, Ahead(t, r), s.starved),
                Rest(c, s), Rest(c, t));
    case Call(now) =>
      DispatchKeeps(c, s, now);
      DispatchNears(c, s, r, now);
  }

  lemma MergedGone(c: Config, s: State, r: Id, next: Id)
    requires r in s.rqs && Listed(s, next) && r != next
    ensures next !in Merged(s, r, next).rqs
  {
  }

  /** A run: `ss[i]` is the state before `ops[i]`, and time does not go back. */
  ghost predicate IsRun(c: Config, ss: seq<State>, ops: seq<Op>) {
    && |ss| == |ops| + 1 && Inv(c, ss[0]) && (ops != [] ==> Clocked(c, ss[0], ops[0].now))
    && (forall i, j :: 0 <= i < j < |ops| ==> ops[i].now <= ops[j].now)
    && forall i {:trigger ops[i]} :: 0 <= i < |ops| ==> Enabled(ss[i], ops[i]) && ss[i + 1] == Next(c, ss[i], ops[i])
  }

  function CallsIn(ops: seq<Op>): nat { if ops == [] then 0 else CallsIn(ops[..|ops| - 1]) + if ops[|ops| - 1].Call? then 1 else 0 }

  lemma {:induction false} RunKeeps(c: Config, ss: seq<State>, ops: seq<Op>, n: nat)
    requires IsRun(c, ss, ops) && n <= |ops|
    ensures Inv(c, ss[n]) && (n < |ops| ==> Clocked(c, ss[n], ops[n].now))
  {
    hide SideOk, Next, Enabled;
    if n > 0 {
      RunKeeps(c, ss, ops, n - 1);
      NextKeeps(c, ss[n - 1], ops[n - 1]);
    }
  }

  lemma {:induction false} CallsSpent(c: Config, ss: seq<State>, ops: seq<Op>, r: Id, n: nat)
    requires c.Valid() && IsRun(c, ss, ops) && n <= |ops|
    requires forall i :: 0 <= i <= n ==> r in ss[i].rqs
    requires forall i :: 0 <= i < n ==> ss[0].rqs[r].time < ops[i].now
    ensures Inv(c, ss[n]) && r in ss[n].Of(ss[n].rqs[r].dir).fifo && r in ss[0].Of(ss[0].rqs[r].dir).fifo
    ensures ss[n].rqs[r].time <= ss[0].rqs[r].time
    ensures Calls(c, ss[n], r) + CallsIn(ops[..n]) <= Calls(c, ss[0], r)
  {
    hide Calls, SideOk, Enabled, Next;
    RunKeeps(c, ss, ops, n);
    QueuedInFifo(c, ss[n], r);
    QueuedInFifo(c, ss[0], r);
    if n > 0 {
      RunKeeps(c, ss, ops, n - 1);
      CallsSpent(c, ss, ops, r, n - 1);
      NextNears(c, ss[n - 1], ops[n - 1], r);
      assert ops[..n][..n - 1] == ops[..n - 1];
    }
  }

  /** A request leaves the queue only by being dispatched or by being merged into another one. */
  lemma LeavesOnlyBy(c: Config, s: State, op: Op, r: Id)
    requires Inv(c, s) && Enabled(s, op) && r in s.rqs && r !in Next(c, s, op).rqs
    ensures (op.Call? && Dispatch(c, s, op.now).rq == Some(r)) || (op.Join? && op.next == r)
  {
    hide SideOk;
    if op.Call? { DispatchKeeps(c, s, op.now); }
  }

  /** Where a request that was queued at first and is not later leaves the queue. */
  lemma {:induction false} LeavesAt(ss: seq<State>, r: Id, n: nat) returns (i: nat)
    requires n < |ss| && r in ss[0].rqs && r !in ss[n].rqs
    ensures i < n && r !in ss[i + 1].rqs && forall j :: 0 <= j <= i ==> r in ss[j].rqs
  {
    i := 0;
    while r in ss[i + 1].rqs
      invariant i < n && forall j :: 0 <= j <= i ==> r in ss[j].rqs
      decreases n - i
    {
      i := i + 1;
    }
  }

  /** The dispatch call `ops[i]` of a run returns `x`. */
  ghost predicate SentAt(c: Config, ss: seq<State>, ops: seq<Op>, i: nat, x: Id)
    requires |ss| == |ops| + 1
  {
    i < |ops| && ops[i].Call? && Ready(ss[i]) && Dispatch(c, ss[i], ops[i].now).rq == Some(x)
  }

  /** An expired request with `k` others ahead of it leaves the queue within (k + 1) * (writes_starved + 1) * fifo_batch calls. */
  lemma LeavesWithin(c: Config, ss: seq<State>, ops: seq<Op>, r: Id)
    requires c.Valid() && IsRun(c, ss, ops) && r in ss[0].rqs && r in ss[0].Of(ss[0].rqs[r].dir).fifo
    requires forall i :: 0 <= i < |ops| ==> ss[0].rqs[r].time < ops[i].now
    requires CallsIn(ops) >= Bound(c, Ahead(ss[0], r))
    ensures exists i :: 0 <= i <= |ops| && r !in ss[i].rqs
  {
    hide CallsAt, SideOk, Ahead, Enabled, Next, Bound, CallsIn;
    if forall i :: 0 <= i <= |ops| ==> r in ss[i].rqs {
      CallsSpent(c, ss, ops, r, |ops|);
      assert ops[..|ops|] == ops;
      CallsBound(c, ss[0], ss[0].rqs[r].dir, Ahead(ss[0], r));
      CallsBound(c, ss[|ops|], ss[|ops|].rqs[r].dir, Ahead(ss[|ops|], r));
      assert false;
    }
  }

  /**
   Bounded starvation of the request itself: unless it is merged into another one, a
   request that has expired with `k` others ahead of it is dispatched within
   (k + 1) * (writes_starved + 1) * fifo_batch dispatch calls.
   */
  lemma DispatchedUnlessMerged(c: Config, ss: seq<State>, ops: seq<Op>, r: Id)
    requires c.Valid() && IsRun(c, ss, ops) && r in ss[0].rqs && r in ss[0].Of(ss[0].rqs[r].dir).fifo
    requires forall i :: 0 <= i < |ops| ==> ss[0].rqs[r].time < ops[i].now && !(ops[i].Join? && ops[i].next == r)
    requires CallsIn(ops) >= Bound(c, Ahead(ss[0], r))
    ensures exists i: nat :: SentAt(c, ss, ops, i, r) && CallsIn(ops[..i]) < Bound(c, Ahead(ss[0], r))
  {
    hide CallsAt, SideOk, Ahead, Enabled, Next, Dispatch, Bound, CallsIn;
    LeavesWithin(c, ss, ops, r);
    var n :| 0 <= n <= |ops| && r !in ss[n].rqs;
    var i := LeavesAt(ss, r, n);
    RunKeeps(c, ss, ops, i);
    assert Enabled(ss[i], ops[i]);
    LeavesOnlyBy(c, ss[i], ops[i], r);
    CallsSpent(c, ss, ops, r, i);
    CallsBound(c, ss[0], ss[0].rqs[r].dir, Ahead(ss[0], r));
    CallsBound(c, ss[i], ss[i].rqs[r].dir, Ahead(ss[i], r));
    InvReady(c, ss[i]);
    assert SentAt(c, ss, ops, i, r);
  }

  // ---------------------------------------------------------------- bounded starvation of merged data

  /** The request that holds the data of `h` after a step: a merge of `h` into another request hands it on. */
  function Heir(op: Op, h: Id): Id { if op.Join? && op.next == h then op.r else h }

  /** The request that holds the data of `r` before `ops[i]`. */
  function Holder(ops: seq<Op>, r: Id, i: nat): Id
    requires i <= |ops|
  {
    if i == 0 then r else Heir(ops[i - 1], Holder(ops, r, i - 1))
  }

  /** The queued requests of direction `d` that expire at `t` or before. */
  ghost function Due(s: State, d: Dir, t: int): set<Id> {
    set x | x in s.rqs && s.rqs[x].dir == d && s.rqs[x].time <= t
  }

  /** How many other requests of its direction expire no later than `r`. */
  ghost function Rivals(s: State, r: Id): nat
    requires r in s.rqs
  {
    |Due(s, s.rqs[r].dir, s.rqs[r].time) - {r}|
  }

  /** `h` is queued in direction `d` and expires at `t` or before. */
  predicate Pending(s: State, d: Dir, t: int, h: Id) { h in s.rqs && s.rqs[h].dir == d && s.rqs[h].time <= t }

  /** At most so many further dispatch calls until none of direction `d` is left that expires at `t` or before. */
  ghost function CallsLeft(c: Config, s: State, d: Dir, t: int): int {
    if Due(s, d, t) == {} then 0 else CallsAt(c, s, d, |Due(s, d, t)| - 1)
  }

  lemma CallsLeftIs(c: Config, s: State, d: Dir, t: int, h: Id)
    requires Pending(s, d, t, h)
    ensures |Due(s, d, t)| >= 1 && CallsLeft(c, s, d, t) == CallsAt(c, s, d, |Due(s, d, t)| - 1)
  {
    assert h in Due(s, d, t);
  }

  /** Fewer requests that are due, no more starvation and no more of a running batch leave no more calls. */
  lemma CallsLeftMono(c: Config, s: State, u: State, d: Dir, t: int, h: Id, g: Id)
    requires c.Valid() && Pending(s, d, t, h) && Pending(u, d, t, g) && |Due(u, d, t)| <= |Due(s, d, t)|
    requires u.starved == s.starved <= c.writesStarved && Rest(c, u) <= Rest(c, s)
    ensures CallsLeft(c, u, d, t) <= CallsLeft(c, s, d, t)
  {
    hide Due, Rest, Batches;
    CallsLeftIs(c, s, d, t, h);
    CallsLeftIs(c, u, d, t, g);
    var k, k' := |Due(s, d, t)| - 1, |Due(u, d, t)| - 1;
    BatchesMono(c, d, k, k', s.starved);
    CallsMono(c, Batches(c, d, k, s.starved), Batches(c, d, k', s.starved), Rest(c, s), Rest(c, u));
  }

  lemma DueWithout(s: State, u: State, d: Dir, t: int, x: Id)
    requires u.rqs == s.rqs - {x}
    ensures Due(u, d, t) == Due(s, d, t) - {x}
    ensures |Due(u, d, t)| == |Due(s, d, t)| - (if x in Due(s, d, t) then 1 else 0)
  {
    assert Due(u, d, t) == Due(s, d, t) - {x};
  }

  /** A dispatch that goes on with a running batch. */
  lemma BatchSpends(c: Config, s: State, d: Dir, t: int, h: Id)
    requires c.Valid() && Inv(c, s) && Pending(s, d, t, h) && Batching(c, s) && Candidate(s).value != h
    ensures Candidate(s).value in s.rqs && Listed(s, Candidate(s).value)
    ensures var u := Sent(s.(batching := s.batching + 1), Candidate(s).value);
            Pending(u, d, t, h) && CallsLeft(c, u, d, t) <= CallsLeft(c, s, d, t) - 1
  {
    hide SideOk, Sent, Due, CallsLeft, Batches;
    var x := Candidate(s).value;
    CandidateQueued(c, s);
    QueuedInFifo(c, s, x);
    var v := s.(batching := s.batching + 1);
    SentRqs(v, x);
    var u := Sent(v, x);
    DueWithout(s, u, d, t, x);
    CallsLeftIs(c, s, d, t, h);
    CallsLeftIs(c, u, d, t, h);
    var k, k' := |Due(s, d, t)| - 1, |Due(u, d, t)| - 1;
    BatchesMono(c, d, k, k', s.starved);
    CallsMono(c, Batches(c, d, k, s.starved), Batches(c, d, k', s.starved), Rest(c, s) - 1, Rest(c, u));
  }

  /** The head of the FIFO is due if anything in it is. */
  lemma HeadDue(c: Config, s: State, d: Dir, t: int, h: Id)
    requires Inv(c, s) && Pending(s, d, t, h)
    ensures s.Of(d).fifo != [] && Pending(s, d, t, s.Of(d).fifo[0])
  {
    var l := s.Of(d).fifo;
    AscendingAt(l, TimeOf(s.rqs), h);
    assert l[0] in l;
  }

  /** What the choice of a new batch does to the batches and to the requests that are due. */
  lemma TurnTakes(c: Config, s: State, d: Dir, t: int, h: Id, now: nat)
    requires c.Valid() && Inv(c, s) && Pending(s, d, t, h) && t < now
    ensures Turn(c, s).Some?
    ensures var (e, starved) := Turn(c, s).value;
            && s.Of(e).fifo != [] && s.Of(e).fifo[0] in s.rqs && starved <= c.writesStarved
            && Listed(s, Start(s, e, now))
            && (e == d ==> Start(s, e, now) in Due(s, d, t))
  {
    hide SideOk;
    assert h in s.rqs;
    TurnQueued(c, s, now);
    HeadDue(c, s, d, t, h);
    var (e, starved) := Turn(c, s).value;
    QueuedInFifo(c, s, Start(s, e, now));
  }

  /** A dispatch that starts a batch. */
  lemma StartSpends(c: Config, s: State, d: Dir, t: int, h: Id, now: nat)
    requires c.Valid() && Inv(c, s) && Pending(s, d, t, h) && t < now && !Batching(c, s)
    ensures Turn(c, s).Some? && s.Of(Turn(c, s).value.0).fifo != [] && s.Of(Turn(c, s).value.0).fifo[0] in s.rqs
    ensures var x := Start(s, Turn(c, s).value.0, now);
            && Listed(s, x)
            && var u := Sent(s.(starved := Turn(c, s).value.1, batching := 1), x);
               x != h ==> Pending(u, d, t, h) && CallsLeft(c, u, d, t) <= CallsLeft(c, s, d, t) - 1
  {
    hide SideOk, Sent, Due, CallsLeft, Batches, Start, Listed;
    TurnTakes(c, s, d, t, h, now);
    HeadDue(c, s, d, t, h);
    var (e, starved) := Turn(c, s).value;
    var x := Start(s, e, now);
    if x != h {
      var v := s.(starved := starved, batching := 1);
      StartedSpends(c, s, v, d, t, h, x);
    }
  }

  lemma StartedSpends(c: Config, s: State, v: State, d: Dir, t: int, h: Id, x: Id)
    requires c.Valid() && s.starved <= c.writesStarved && s.Of(d).fifo != [] && Turn(c, s).Some? && !Batching(c, s)
    requires Pending(s, d, t, h) && Listed(s, x) && x != h && (Turn(c, s).value.0 == d ==> x in Due(s, d, t))
    requires v == s.(starved := Turn(c, s).value.1, batching := 1) && v.starved <= c.writesStarved
    ensures var u := Sent(v, x); Pending(u, d, t, h) && CallsLeft(c, u, d, t) <= CallsLeft(c, s, d, t) - 1
  {
    hide Sent, Due, CallsLeft, Batches, Turn;
    var (e, starved) := Turn(c, s).value;
    SentRqs(v, x);
    var u := Sent(v, x);
    DueWithout(s, u, d, t, x);
    CallsLeftIs(c, s, d, t, h);
    CallsLeftIs(c, u, d, t, h);
    var k, k' := |Due(s, d, t)| - 1, |Due(u, d, t)| - 1;
    TurnSpends(c, s, d, k);
    var b, b' := Batches(c, d, k, s.starved), Batches(c, d, k', starved);
    BatchesMono(c, d, if e == d then k - 1 else k, k', starved);
    CallsMono(c, b - 1, b', c.fifoBatch - 1, Rest(c, u));
    assert (b - 1) * c.fifoBatch == (b - 2) * c.fifoBatch + c.fifoBatch;
  }

  /** Every dispatch call that does not return the holder brings it nearer. */
  lemma DispatchSpends(c: Config, s: State, d: Dir, t: int, h: Id, now: nat)
    requires c.Valid() && Inv(c, s) && Pending(s, d, t, h) && t < now
    ensures var e := Dispatch(c, s, now);
            e.rq != Some(h) ==> Pending(e.s, d, t, h) && CallsLeft(c, e.s, d, t) <= CallsLeft(c, s, d, t) - 1
  {
    hide SideOk, Sent, Start, CallsLeft, Pending;
    if Batching(c, s) {
      if Candidate(s).value != h { BatchSpends(c, s, d, t, h); }
    } else {
      StartSpends(c, s, d, t, h, now);
    }
  }

  lemma MergedStarved(s: State, req: Id, next: Id)
    requires req in s.rqs && Listed(s, next) && req != next
    ensures Listed(TakenOver(s, req, next), next) && Merged(s, req, next).starved == s.starved
  {
  }

  lemma MergedRqs(s: State, req: Id, next: Id)
    requires req in s.rqs && Listed(s, next) && req != next
    ensures var q, n := s.rqs[req], s.rqs[next];
            Merged(s, req, next).rqs == s.rqs[req := q.(time := if n.time < q.time then n.time else q.time)] - {next}
  {
  }

  /** A merge never adds to the requests that are due: the surviving one is due if the other one was. */
  lemma MergedDue(s: State, u: State, req: Id, next: Id, d: Dir, t: int)
    requires req in s.rqs && next in s.rqs && req != next && s.rqs[req].dir == s.rqs[next].dir
    requires var q, n := s.rqs[req], s.rqs[next];
             u.rqs == s.rqs[req := q.(time := if n.time < q.time then n.time else q.time)] - {next}
    ensures |Due(u, d, t)| <= |Due(s, d, t)|
  {
    var a := Due(s, d, t);
    if next in a {
      assert Due(u, d, t) == a - {next} + {req};
      assert |a - {next}| == |a| - 1;
    } else {
      assert Due(u, d, t) == a;
    }
  }

  /** A merge hands the data on to a request that expires no later. */
  lemma MergedPending(s: State, u: State, req: Id, next: Id, d: Dir, t: int, h: Id)
    requires req in s.rqs && next in s.rqs && req != next && s.rqs[req].dir == s.rqs[next].dir
    requires var q, n := s.rqs[req], s.rqs[next];
             u.rqs == s.rqs[req := q.(time := if n.time < q.time then n.time else q.time)] - {next}
    requires Pending(s, d, t, h)
    ensures Pending(u, d, t, if h == next then req else h)
  {
  }

  lemma MergedSpends(c: Config, s: State, req: Id, next: Id, d: Dir, t: int, h: Id)
    requires c.Valid() && Inv(c, s) && Pending(s, d, t, h)
    requires req in s.rqs && Listed(s, next) && req != next && s.rqs[req].dir == s.rqs[next].dir
    ensures var u := Merged(s, req, next);
            Pending(u, d, t, if h == next then req else h) && CallsLeft(c, u, d, t) <= CallsLeft(c, s, d, t)
  {
    var u := Merged(s, req, next);
    hide SideOk, Due, CallsLeft, Rest, Pending, TakenOver, Dropped;
    DroppedRest(c, TakenOver(s, req, next), next);
    RestSame(c, s, req, next);
    MergedStarved(s, req, next);
    MergedRqs(s, req, next);
    MergedDue(s, u, req, next, d, t);
    MergedPending(s, u, req, next, d, t, h);
    CallsLeftMono(c, s, u, d, t, h, if h == next then req else h);
  }

  /** Inserts past `t` and sector changes leave the requests that are due alone. */
  lemma AddedSpends(c: Config, s: State, x: Id, e: Dir, pos: int, now: nat, d: Dir, t: int, h: Id)
    requires x !in s.rqs && Pending(s, d, t, h) && t < now
    ensures var u := Added(c, s, x, e, pos, now); Pending(u, d, t, h) && CallsLeft(c, u, d, t) == CallsLeft(c, s, d, t)
  {
    hide Inserted, Batches;
    assert Due(Added(c, s, x, e, pos, now), d, t) == Due(s, d, t);
  }

  lemma RepositionedSpends(c: Config, s: State, x: Id, pos: int, d: Dir, t: int, h: Id)
    requires x in s.rqs && Pending(s, d, t, h)
    ensures var u := Repositioned(s, x, pos); Pending(u, d, t, h) && CallsLeft(c, u, d, t) == CallsLeft(c, s, d, t)
  {
    hide Inserted, Without, Batches;
    assert Due(Repositioned(s, x, pos), d, t) == Due(s, d, t);
  }

  /** What any step does to the data of an expired request, unless it is the dispatch of its holder. */
  lemma NextSpends(c: Config, s: State, op: Op, d: Dir, t: int, h: Id)
    requires c.Valid() && Inv(c, s) && Enabled(s, op) && Pending(s, d, t, h) && t < op.now
    requires !(op.Call? && Dispatch(c, s, op.now).rq == Some(h))
    ensures var u := Next(c, s, op);
            && Pending(u, d, t, Heir(op, h))
            && CallsLeft(c, u, d, t) + (if op.Call? then 1 else 0) <= CallsLeft(c, s, d, t)
  {
    hide SideOk, Dispatch, Merged, Added, Repositioned, CallsLeft, Pending;
    match op
    case Insert(now, x, e, pos) => AddedSpends(c, s, x, e, pos, now, d, t, h);
    case FrontMerge(_, x, pos) => RepositionedSpends(c, s, x, pos, d, t, h);
    case Join(_, req, next) => MergedSpends(c, s, req, next, d, t, h);
    case Call(now) => DispatchSpends(c, s, d, t, h, now);
  }

  /** Until its holder is dispatched, the data of an expired request stays queued, and every call brings it nearer. */
  lemma {:induction false} HolderSpent(c: Config, ss: seq<State>, ops: seq<Op>, r: Id, n: nat)
    requires c.Valid() && IsRun(c, ss, ops) && n <= |ops| && r in ss[0].rqs
    requires forall i :: 0 <= i < n ==> ss[0].rqs[r].time < ops[i].now
    requires forall i: nat {:trigger Holder(ops, r, i)} :: i < n ==> !SentAt(c, ss, ops, i, Holder(ops, r, i))
    ensures var d, t := ss[0].rqs[r].dir, ss[0].rqs[r].time;
            && Inv(c, ss[n]) && Pending(ss[n], d, t, Holder(ops, r, n))
            && CallsLeft(c, ss[n], d, t) + CallsIn(ops[..n]) <= CallsLeft(c, ss[0], d, t)
  {
    hide CallsLeft, SideOk, Enabled, Next, Heir, Dispatch;
    RunKeeps(c, ss, ops, n);
    if n > 0 {
      var d, t := ss[0].rqs[r].dir, ss[0].rqs[r].time;
      HolderSpent(c, ss, ops, r, n - 1);
      InvReady(c, ss[n - 1]);
      assert !SentAt(c, ss, ops, n - 1, Holder(ops, r, n - 1));
      NextSpends(c, ss[n - 1], ops[n - 1], d, t, Holder(ops, r, n - 1));
      assert ops[..n][..n - 1] == ops[..n - 1];
    }
  }

  /** The first call up to `n` that returns the holder, if there is one. */
  lemma FirstSent(c: Config, ss: seq<State>, ops: seq<Op>, r: Id, n: nat) returns (i: nat)
    requires |ss| == |ops| + 1 && n <= |ops|
    ensures i <= n && (i < n ==> SentAt(c, ss, ops, i, Holder(ops, r, i)))
    ensures forall j: nat {:trigger Holder(ops, r, j)} :: j < i ==> !SentAt(c, ss, ops, j, Holder(ops, r, j))
  {
    hide SentAt;
    i := 0;
    while i < n && !SentAt(c, ss, ops, i, Holder(ops, r, i))
      invariant i <= n
      invariant forall j: nat {:trigger Holder(ops, r, j)} :: j < i ==> !SentAt(c, ss, ops, j, Holder(ops, r, j))
    {
      i := i + 1;
    }
  }

  lemma RivalsDue(s: State, r: Id)
    requires r in s.rqs
    ensures |Due(s, s.rqs[r].dir, s.rqs[r].time)| == Rivals(s, r) + 1
  {
    assert r in Due(s, s.rqs[r].dir, s.rqs[r].time);
  }

  /**
   Bounded starvation.  In any run, with inserts and merges in between: when a request has
   expired and `k` others of its direction expire no later, the request that holds its data
   is dispatched within (k + 1) * (writes_starved + 1) * fifo_batch dispatch calls.
   */
  lemma BoundedStarvation(c: Config, ss: seq<State>, ops: seq<Op>, r: Id)
    requires c.Valid() && IsRun(c, ss, ops) && r in ss[0].rqs
    requires forall i :: 0 <= i < |ops| ==> ss[0].rqs[r].time < ops[i].now
    requires CallsIn(ops) >= Bound(c, Rivals(ss[0], r))
    ensures exists i: nat :: i < |ops| && SentAt(c, ss, ops, i, Holder(ops, r, i)) && CallsIn(ops[..i]) < Bound(c, Rivals(ss[0], r))
  {
    hide CallsAt, CallsLeft, SideOk, Enabled, Next, Dispatch, Rivals, SentAt, Due, Bound, CallsIn, Holder;
    var d, t := ss[0].rqs[r].dir, ss[0].rqs[r].time;
    var i := FirstSent(c, ss, ops, r, |ops|);
    HolderSpent(c, ss, ops, r, i);
    RunKeeps(c, ss, ops, 0);
    RivalsDue(ss[0], r);
    CallsLeftIs(c, ss[0], d, t, r);
    CallsLeftIs(c, ss[i], d, t, Holder(ops, r, i));
    CallsBound(c, ss[0], d, Rivals(ss[0], r));
    CallsBound(c, ss[i], d, |Due(ss[i], d, t)| - 1);
    assert ops[..|ops|] == ops;
  }

  /** The requests behind `r` in its FIFO that expire at the same time. */
  ghost function Ties(s: State, r: Id): set<Id>
    requires r in s.rqs && r in s.Of(s.rqs[r].dir).fifo
  {
    var l := s.Of(s.rqs[r].dir).fifo;
    set x | x in l && x in s.rqs && s.rqs[x].time == s.rqs[r].time && Place(l, r) < Place(l, x)
  }

  /** Which requests of a FIFO expire no later than `r`: those ahead of it, itself, and the ties behind it. */
  lemma DueInFifo(s: State, d: Dir, r: Id)
    requires r in s.rqs && s.rqs[r].dir == d && Holds(s.rqs, s.Of(d).fifo, d) && Ascending(s.Of(d).fifo, TimeOf(s.rqs))
    ensures var l := s.Of(d).fifo; Due(s, d, s.rqs[r].time) - {r} == Items(l[..Place(l, r)]) + Ties(s, r)
  {
    hide Ascending, Place;
    TiesOf(s.rqs, s.Of(d).fifo, d, r);
    hide Holds;
    assert Due(s, d, s.rqs[r].time) - {r} == Items(s.Of(d).fifo[..Place(s.Of(d).fifo, r)]) + Ties(s, r);
  }

  lemma TiesOf(rqs: map<Id, Rq>, l: seq<Id>, d: Dir, r: Id)
    requires Holds(rqs, l, d) && Ascending(l, TimeOf(rqs)) && r in l
    ensures forall x :: x in rqs && rqs[x].dir == d && rqs[x].time <= rqs[r].time && x != r <==>
                        x in l[..Place(l, r)] || (x in l && x in rqs && rqs[x].time == rqs[r].time && Place(l, r) < Place(l, x))
  {
    var k := Place(l, r);
    forall x
      ensures x in rqs && rqs[x].dir == d && rqs[x].time <= rqs[r].time && x != r <==>
              x in l[..k] || (x in l && x in rqs && rqs[x].time == rqs[r].time && k < Place(l, x))
    {
      if x in l {
        var j := Place(l, x);
        InFront(l, k, x);
        if j < k { assert TimeOf(rqs)(l[j]) <= TimeOf(rqs)(l[k]); }
        if k < j { assert TimeOf(rqs)(l[k]) <= TimeOf(rqs)(l[j]); }
      }
    }
  }

  /** The bound for merged data differs from the bound for the request itself only by the ties behind it. */
  lemma RivalsSplit(c: Config, s: State, r: Id)
    requires Inv(c, s) && r in s.rqs
    ensures r in s.Of(s.rqs[r].dir).fifo && Rivals(s, r) == Ahead(s, r) + |Ties(s, r)|
  {
    DueInFifo(s, s.rqs[r].dir, r);
    var l := s.Of(s.rqs[r].dir).fifo;
    QueuedInFifo(c, s, r);
    FrontSize(l, Place(l, r));
    forall x | x in Ties(s, r) ensures x !in Items(l[..Place(l, r)]) { InFront(l, Place(l, r), x); }
    hide SideOk, NoRepeat, Ties, Items, Due;
    assert Items(l[..Place(l, r)]) !! Ties(s, r);
  }

  /** With no tie behind it, merges do not cost a request anything: its data keeps the bound of the request itself. */
  lemma NoTiesNoLoss(c: Config, ss: seq<State>, ops: seq<Op>, r: Id)
    requires c.Valid() && IsRun(c, ss, ops) && r in ss[0].rqs && r in ss[0].Of(ss[0].rqs[r].dir).fifo && Ties(ss[0], r) == {}
    requires forall i :: 0 <= i < |ops| ==> ss[0].rqs[r].time < ops[i].now
    requires CallsIn(ops) >= Bound(c, Ahead(ss[0], r))
    ensures exists i: nat :: i < |ops| && SentAt(c, ss, ops, i, Holder(ops, r, i)) && CallsIn(ops[..i]) < Bound(c, Ahead(ss[0], r))
  {
    hide Rivals, SentAt, Holder, CallsIn, Bound, Ahead, Enabled, Next, SideOk, Ties;
    RivalsSplit(c, ss[0], r);
    BoundedStarvation(c, ss, ops, r);
  }

  const QUIET := State(map[], Side([], [], None), Side([], [], None), 0, 0)

  /** Four reads that expire at the same time. */
  const TIED := State(map[0 := Rq(Read, 3, 0), 1 := Rq(Read, 10, 0), 2 := Rq(Read, 20, 0), 3 := Rq(Read, 2, 0)],
                      Side([0, 1, 2, 3], [3, 0, 1, 2], None), Side([], [], None), 0, 0)

  const ONE_AT_A_TIME := Config(1, 1, 0, 0)

  const TIED_TWO := State(map[0 := Rq(Read, 3, 0), 1 := Rq(Read, 10, 0)], Side([0, 1], [0, 1], None), Side([], [], None), 0, 0)

  lemma TiedTwo()
    ensures var c := ONE_AT_A_TIME; Added(c, Added(c, QUIET, 0, Read, 3, 0), 1, Read, 10, 0) == TIED_TWO
  {
    var c := ONE_AT_A_TIME;
    var a := Added(c, QUIET, 0, Read, 3, 0);
    assert a.rd == Side([0], [0], None);
    InsertedLast([0], 1, PosOf(Added(c, a, 1, Read, 10, 0).rqs));
  }

  lemma TiedThree()
    ensures var a := Added(ONE_AT_A_TIME, TIED_TWO, 2, Read, 20, 0);
            a.rd == Side([0, 1, 2], [0, 1, 2], None) && a.rqs == TIED_TWO.rqs[2 := Rq(Read, 20, 0)] && a == TIED_TWO.(rd := a.rd, rqs := a.rqs)
  {
    InsertedLast([0, 1], 2, PosOf(Added(ONE_AT_A_TIME, TIED_TWO, 2, Read, 20, 0).rqs));
  }

  lemma TiedFour()
    ensures var c := ONE_AT_A_TIME; Added(c, Added(c, TIED_TWO, 2, Read, 20, 0), 3, Read, 2, 0) == TIED
  {
    TiedThree();
  }

  /** Inserts in one clock tick make ties. */
  lemma TiedReached()
    ensures var c := ONE_AT_A_TIME;
            && Inv(c, QUIET)
            && Added(c, Added(c, Added(c, Added(c, QUIET, 0, Read, 3, 0), 1, Read, 10, 0), 2, Read, 20, 0), 3, Read, 2, 0) == TIED
            && Inv(c, TIED) && Clocked(c, TIED, 0)
  {
    var c := ONE_AT_A_TIME;
    QuietInv(c);
    hide Added, Inv, Clocked;
    TiedTwo();
    TiedFour();
    var a := Added(c, QUIET, 0, Read, 3, 0);
    AddedKeeps(c, QUIET, 0, Read, 3, 0);
    AddedRqs(c, QUIET, 0, Read, 3, 0);
    AddedKeeps(c, a, 1, Read, 10, 0);
    AddedKeeps(c, TIED_TWO, 2, Read, 20, 0);
    AddedRqs(c, TIED_TWO, 2, Read, 20, 0);
    AddedKeeps(c, Added(c, TIED_TWO, 2, Read, 20, 0), 3, Read, 2, 0);
  }

  lemma QuietInv(c: Config)
    ensures Inv(c, QUIET) && Clocked(c, QUIET, 0)
  {
  }

  lemma AddedRqs(c: Config, s: State, r: Id, d: Dir, pos: int, now: nat)
    ensures Added(c, s, r, d, pos, now).rqs.Keys == s.rqs.Keys + {r}
  {
  }

  lemma {:induction false} InsertedLast(l: seq<Id>, x: Id, key: Id -> int)
    requires forall y :: y in l ==> key(y) <= key(x)
    ensures Inserted(l, x, key) == l + [x]
  {
    if l != [] {
      assert l[0] in l;
      InsertedLast(l[1..], x, key);
      assert l == [l[0]] + l[1..];
    }
  }

  const TIE_JOINED := State(map[1 := Rq(Read, 10, 0), 2 := Rq(Read, 20, 0), 3 := Rq(Read, 2, 0)],
                            Side([1, 2, 3], [3, 1, 2], None), Side([], [], None), 0, 0)

  const TIE_SENT := State(map[2 := Rq(Read, 20, 0), 3 := Rq(Read, 2, 0)], Side([2, 3], [3, 2], Some(2)), Side([], [], None), 1, 0)

  const TIE_LEFT := State(map[3 := Rq(Read, 2, 0)], Side([3], [3], None), Side([], [], None), 1, 0)

  lemma TieJoins()
    ensures Enabled(TIED, Join(1, 3, 0)) && Next(ONE_AT_A_TIME, TIED, Join(1, 3, 0)) == TIE_JOINED
  {
    assert Without([3, 0, 1, 2], 0) == [3] + Without([0, 1, 2], 0) == [3, 1, 2];
    assert TIED.rqs - {0} == TIE_JOINED.rqs;
  }

  lemma TieSends()
    ensures Enabled(TIE_JOINED, Call(1)) && Next(ONE_AT_A_TIME, TIE_JOINED, Call(1)) == TIE_SENT
    ensures Dispatch(ONE_AT_A_TIME, TIE_JOINED, 1).rq == Some(1)
  {
    assert Without([3, 1, 2], 1) == [3] + Without([1, 2], 1) == [3, 2];
    assert Place([3, 1, 2], 1) == 1 + Place([1, 2], 1);
    assert TIE_JOINED.rqs - {1} == TIE_SENT.rqs;
  }

  lemma TieSendsAgain()
    ensures Enabled(TIE_SENT, Call(1)) && Next(ONE_AT_A_TIME, TIE_SENT, Call(1)) == TIE_LEFT
    ensures Dispatch(ONE_AT_A_TIME, TIE_SENT, 1).rq == Some(2)
  {
    assert Without([3, 2], 2) == [3] + Without([2], 2) == [3];
    assert Place([3, 2], 2) == 1 + Place([2], 2);
    assert TIE_SENT.rqs - {2} == TIE_LEFT.rqs;
  }

  const TIE_STATES := [TIED, TIE_JOINED, TIE_SENT, TIE_LEFT]
  const TIE_OPS := [Join(1, 3, 0), Call(1), Call(1)]

  lemma TieStarts()
    ensures Inv(ONE_AT_A_TIME, TIED) && Clocked(ONE_AT_A_TIME, TIED, 1)
  {
    hide Added, Inv;
    TiedReached();
  }

  lemma TieIsRun()
    ensures IsRun(ONE_AT_A_TIME, TIE_STATES, TIE_OPS)
  {
    hide Enabled, Next, Dispatch, Inv, Clocked;
    TieStarts();
    TieJoins();
    TieSends();
    TieSendsAgain();
  }

  lemma TieCalls()
    ensures CallsIn(TIE_OPS) == 2
  {
    var ops := TIE_OPS;
    assert ops[..2] == [Join(1, 3, 0), Call(1)] && ops[..2][..1] == [Join(1, 3, 0)];
    assert CallsIn(ops) == CallsIn(ops[..2]) + 1 && CallsIn(ops[..2]) == CallsIn([Join(1, 3, 0)]) + 1;
  }

  lemma TieNotSent(i: nat)
    requires i < 3
    ensures !SentAt(ONE_AT_A_TIME, TIE_STATES, TIE_OPS, i, Holder(TIE_OPS, 0, i))
  {
    hide Dispatch;
    TieSends();
    TieSendsAgain();
    assert Holder(TIE_OPS, 0, 1) == 3 && Holder(TIE_OPS, 0, 2) == 3;
  }

  /**
   Ties do cost: request 0 is at the head of its FIFO, is merged into a request that expires at
   the same time but stands further back, and the calls of its own bound send two others first.
   */
  lemma TieBreaksBound()
    ensures var c, ss, ops := ONE_AT_A_TIME, TIE_STATES, TIE_OPS;
            && c.Valid() && IsRun(c, ss, ops) && Ahead(ss[0], 0) == 0 && CallsIn(ops) == Bound(c, Ahead(ss[0], 0))
            && (forall i :: 0 <= i < |ops| ==> ss[0].rqs[0].time < ops[i].now)
            && (forall i: nat :: i < |ops| ==> !SentAt(c, ss, ops, i, Holder(ops, 0, i)))
  {
    hide IsRun, SentAt, Holder, CallsIn;
    TieIsRun();
    TieCalls();
    forall i: nat | i < 3 ensures !SentAt(ONE_AT_A_TIME, TIE_STATES, TIE_OPS, i, Holder(TIE_OPS, 0, i)) { TieNotSent(i); }
  }

  // ---------------------------------------------------------------- the scheduler object

  class DeadlineData {
    const c: Config
    var rqs: map<Id, Rq>
    var rd: Side
    var wr: Side
    var batching: nat
    var starved: nat

    ghost function View(): State
      reads this
    {
      State(rqs, rd, wr, batching, starved)
    }

    ghost predicate Valid()
      reads this
    {
      c.Valid() && Inv(c, View())
    }

    constructor (c: Config)
      requires c.Valid()
      ensures Valid() && this.c == c && rqs == map[]
    {
      this.c := c;
      rqs, rd, wr, batching, starved := map[], Side([], [], None), Side([], [], None), 0, 0;
    }

    method SetSide(d: Dir, x: Side)
      modifies `rd, `wr
      ensures View() == old(View()).With(d, x)
    {
      if d == Read { rd := x; } else { wr := x; }
    }

    /** deadline_add_request. */
    method AddRequest(r: Id, d: Dir, pos: int, now: nat)
      requires Valid() && r !in rqs && Clocked(c, View(), now)
      modifies this
      ensures Valid() && View() == Added(c, old(View()), r, d, pos, now)
      ensures rqs == old(rqs)[r := Rq(d, pos, now + if d == Read then c.readExpire else c.writeExpire)]
    {
      hide Inv, Inserted;
      AddedKeeps(c, View(), r, d, pos, now);
      rqs := rqs[r := Rq(d, pos, now + c.Expire(d))];
      var x := if d == Read then rd else wr;
      x := x.(sort := Inserted(x.sort, r, PosOf(rqs)));
      x := x.(fifo := x.fifo + [r]);
      SetSide(d, x);
    }

    /** deadline_remove_request. */
    method RemoveRequest(r: Id)
      requires Valid() && r in rqs
      modifies this
      ensures Valid() && Listed(old(View()), r) && View() == Dropped(old(View()), r)
      ensures rqs == old(rqs) - {r} && rd.next != Some(r) && wr.next != Some(r)
    {
      hide Without, Latter, SideOk;
      DroppedKeeps(c, View(), r);
      DroppedNext(c, View(), r);
      var d := rqs[r].dir;
      var x := if d == Read then rd else wr;
      x := x.(fifo := Without(x.fifo, r));
      if x.next == Some(r) { x := x.(next := Latter(x.sort, r)); }
      x := x.(sort := Without(x.sort, r));
      rqs := rqs - {r};
      SetSide(d, x);
    }

    /** deadline_merged_request for a front merge. */
    method MergedRequest(r: Id, pos: int)
      requires Valid() && r in rqs
      modifies this
      ensures Valid() && View() == Repositioned(old(View()), r, pos)
    {
      hide Inv, Inserted, Without;
      RepositionedKeeps(c, View(), r, pos);
      rqs := rqs[r := rqs[r].(pos := pos)];
      var d := rqs[r].dir;
      var x := if d == Read then rd else wr;
      x := x.(sort := Without(x.sort, r));
      x := x.(sort := Inserted(x.sort, r, PosOf(rqs)));
      SetSide(d, x);
    }

    /** deadline_merged_requests. */
    method MergedRequests(r: Id, next: Id)
      requires Valid() && r in rqs && next in rqs && r != next && rqs[r].dir == rqs[next].dir
      modifies this
      ensures Valid() && Listed(old(View()), next)
      ensures View() == Merged(old(View()), r, next)
    {
      hide Inv, Without, PutAfter, Dropped;
      MergedKeeps(c, View(), r, next);
      TakenOverKeeps(c, View(), r, next);
      if rqs[next].time < rqs[r].time {
        var d := rqs[r].dir;
        var x := if d == Read then rd else wr;
        SetSide(d, x.(fifo := PutAfter(Without(x.fifo, r), next, r)));
        rqs := rqs[r := rqs[r].(time := rqs[next].time)];
      }
      RemoveRequest(next);
    }

    /** deadline_move_request. */
    method MoveRequest(r: Id)
      requires Valid() && r in rqs && batching >= 1
      modifies this
      ensures Valid() && Listed(old(View()), r) && View() == Sent(old(View()), r)
      ensures rqs == old(rqs) - {r} && Candidate(View()) == Latter(old(View()).Of(old(rqs)[r].dir).sort, r)
    {
      hide Latter, Dropped, SideOk, Candidate;
      SentKeeps(c, View(), r);
      SentBegins(c, View(), r);
      SentCandidate(View(), r);
      var d := rqs[r].dir;
      var next := Latter((if d == Read then rd else wr).sort, r);
      rd, wr := rd.(next := None), wr.(next := None);
      SetSide(d, (if d == Read then rd else wr).(next := next));
      RemoveRequest(r);
    }

    /** deadline_dispatch_requests. */
    method DispatchRequests(now: nat) returns (sent: Option<Id>)
      requires Valid()
      modifies this
      ensures Valid() && View() == Dispatch(c, old(View()), now).s && sent == Dispatch(c, old(View()), now).rq
    {
      hide SideOk, Sent;
      ghost var s := View();
      DispatchKeeps(c, s, now);
      TurnQueued(c, s, now);
      var rq := if wr.next.Some? then wr.next else rd.next;
      if rq == None || batching >= c.fifoBatch {
        var anyReads, anyWrites := rd.fifo != [], wr.fifo != [];
        if !anyReads && !anyWrites { return None; }
        var d := Read;
        if anyReads {
          if anyWrites {
            if starved >= c.writesStarved { d := Write; } else { starved := starved + 1; }
          }
        } else {
          d := Write;
        }
        if d == Write { starved := 0; }
        var x := if d == Read then rd else wr;
        rq := if now > rqs[x.fifo[0]].time || x.next == None then Some(x.fifo[0]) else x.next;
        batching := 0;
        assert rq == Some(Start(s, d, now));
      } else {
        CandidateQueued(c, s);
      }
      batching := batching + 1;
      QueuedInFifo(c, s, rq.value);
      MoveRequest(rq.value);
      return rq;
    }
  }
}
