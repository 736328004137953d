/**
 The FLUSH/FUA sequencer of the block layer (blk-flush.c).

 A sequenced request runs PREFLUSH, DATA and POSTFLUSH, as far as its policy
 asks for them.  Flushes are shared: requests that need one wait on the pending
 one of two lists, and issuing the single embedded flush request turns the
 pending list into the running one.

 `State` carries a log of everything that happened, in order; it, the positions
 `qAt`, `dAt`, `issuedAt`, the times `joined` and the records `kicks` are history
 and are never read by the code.
 */
module FlushSequence {
  import opened Lists

  type Id = nat

  datatype Stage = Pre | Data | Post | Done

  /** A mask of REQ_FSEQ_* bits. */
  datatype Bits = Bits(pre: bool, data: bool, post: bool) {
    function Or(b: Bits): Bits { Bits(pre || b.pre, data || b.data, post || b.post) }
    function Not(): Bits { Bits(!pre, !data, !post) }
    predicate Disjoint(b: Bits) { !(pre && b.pre) && !(data && b.data) && !(post && b.post) }
    predicate Has(s: Stage) { match s case Pre => pre case Data => data case Post => post case Done => false }
  }

  const NoBits := Bits(false, false, false)

  function Bit(s: Stage): Bits { Bits(s.Pre?, s.Data?, s.Post?) }

  /** blk_flush_policy: what a request needs on a device with the given cache and FUA support. */
  function FlushPolicy(cached: bool, deviceFua: bool, hasData: bool, flush: bool, fua: bool): Bits {
    Bits(cached && flush, hasData, cached && !deviceFua && fua)
  }

  /** blk_flush_cur_seq: the lowest bit not yet set. */
  function CurSeq(done: Bits): Stage {
    if !done.pre then Pre else if !done.data then Data else if !done.post then Post else Done
  }

  datatype Event =
    | Queued(r: Id, pol: Bits)
    | Plain(r: Id)
    | FlushIssued(n: nat)
    | FlushDone(n: nat, ok: bool)
    | DataQueued(r: Id)
    | StageDone(r: Id, stage: Stage, ok: bool)
    | Ended(r: Id, ok: bool)

  /** `joined` is when the request last joined a list of waiting ones. */
  datatype Rq = Rq(pol: Bits, done: Bits, qAt: nat, dAt: nat, joined: nat) {
    /** The event after which the flush this request waits for has to be issued. */
    function Mark(): nat { if pol.data && done.data then dAt else qAt }
  }

  /** When a flush was issued, when the oldest request it serves had joined, and whether DATA was in flight. */
  datatype Kicked = Kicked(now: nat, joined: nat, busy: bool)

  datatype State = State(
    reqs: map<Id, Rq>, lists: seq<seq<Id>>, data: set<Id>, pend: nat, run: nat, since: nat, timeout: nat,
    flushes: nat, issuedAt: nat, log: seq<Event>, kicks: seq<Kicked>)

  function JoinedAt(reqs: map<Id, Rq>, r: Id): nat { if r in reqs then reqs[r].joined else 0 }

  // ---------------------------------------------------------------- the operations

  /** blk_kick_flush. */
  ghost function Kick(s: State, now: nat): State
    requires |s.lists| == 2 && s.pend < 2
  {
    if s.pend != s.run || s.lists[s.pend] == [] then s
    else if s.data != {} && now < s.since + s.timeout then s
    else s.(pend := 1 - s.pend, log := s.log + [FlushIssued(s.flushes)], issuedAt := |s.log|, flushes := s.flushes + 1,
            kicks := s.kicks + [Kicked(now, JoinedAt(s.reqs, s.lists[s.pend][0]), s.data != {})])
  }

  /** blk_flush_complete_seq up to the kick, for a request that is on no list. */
  ghost function Advance(s: State, r: Id, mask: Bits, ok: bool, now: nat): State
    requires r in s.reqs && |s.lists| == 2 && s.pend < 2
  {
    var q := s.reqs[r].(done := s.reqs[r].done.Or(mask));
    match (if ok then CurSeq(q.done) else Done)
    case Data => s.(reqs := s.reqs[r := q], data := s.data + {r}, log := s.log + [DataQueued(r)])
    case Done => s.(reqs := s.reqs - {r}, log := s.log + [Ended(r, ok)])
    case _ => s.(reqs := s.reqs[r := q.(joined := now)], since := if s.lists[s.pend] == [] then now else s.since,
                 lists := s.lists[s.pend := s.lists[s.pend] + [r]])
  }

  ghost function CompleteSeq(s: State, r: Id, mask: Bits, ok: bool, now: nat): State
    requires r in s.reqs && |s.lists| == 2 && s.pend < 2
  {
    Kick(Advance(s, r, mask, ok, now), now)
  }

  ghost function Arrive(s: State, r: Id, pol: Bits): State {
    s.(reqs := s.reqs[r := Rq(pol, NoBits, |s.log|, 0, 0)], log := s.log + [Queued(r, pol)])
  }

  /** blk_insert_flush. */
  ghost function Insert(s: State, r: Id, pol: Bits, now: nat): State
    requires |s.lists| == 2 && s.pend < 2
  {
    if pol == NoBits then s.(log := s.log + [Queued(r, pol)] + [Ended(r, true)])
    else if !pol.pre && !pol.post then s.(log := s.log + [Queued(r, pol)] + [Plain(r)])
    else CompleteSeq(Arrive(s, r, pol), r, pol.Not(), true, now)
  }

  ghost function DataArrived(s: State, r: Id, ok: bool): State
    requires r in s.reqs
  {
    s.(reqs := s.reqs[r := s.reqs[r].(dAt := |s.log|)], data := s.data - {r}, log := s.log + [StageDone(r, Data, ok)])
  }

  /** flush_data_end_io. */
  ghost function DataEnd(s: State, r: Id, ok: bool, now: nat): State
    requires r in s.reqs && |s.lists| == 2 && s.pend < 2
  {
    CompleteSeq(DataArrived(s, r, ok), r, Bit(Data), ok, now)
  }

  ghost function FlushArrived(s: State, ok: bool): State
    requires |s.lists| == 2 && s.run < 2 && s.flushes > 0
  {
    s.(run := 1 - s.run, lists := s.lists[s.run := []], log := s.log + [FlushDone(s.flushes - 1, ok)])
  }

  ghost function StageLogged(s: State, r: Id, ok: bool): State
    requires r in s.reqs
  {
    s.(log := s.log + [StageDone(r, CurSeq(s.reqs[r].done), ok)])
  }

  // ---------------------------------------------------------------- what the log has to satisfy

  ghost predicate At(log: seq<Event>, i: int, e: Event) { 0 <= i < |log| && log[i] == e }

  /** A flush that was issued after event `a` has completed without error before event `i`. */
  ghost predicate Flushed(log: seq<Event>, a: nat, i: nat) {
    exists b: nat, c: nat, n :: a < b < c < i && At(log, b, FlushIssued(n)) && At(log, c, FlushDone(n, true))
  }

  /** DATA of `r`, queued at `a`, has completed without error at `d`. */
  ghost predicate Written(log: seq<Event>, r: Id, a: nat, d: nat) {
    a < d && At(log, d, StageDone(r, Data, true))
  }

  /** What has to have happened before event `i` if it ends `r` without error. */
  ghost predicate Durable(log: seq<Event>, r: Id, pol: Bits, a: nat, i: nat) {
    && (pol.pre ==> Flushed(log, a, i))
    && (pol.data ==> exists d: nat :: d < i && Written(log, r, a, d) && (pol.post ==> Flushed(log, d, i)))
    && (pol.post && !pol.data ==> Flushed(log, a, i))
  }

  /** What has to have happened before event `i` if it sends DATA to the device. */
  ghost predicate Clean(log: seq<Event>, pol: Bits, a: nat, i: nat) {
    pol.data && (pol.pre ==> Flushed(log, a, i))
  }

  ghost predicate DataLawful(log: seq<Event>, r: Id, i: nat) {
    exists a: nat, pol :: a < i && At(log, a, Queued(r, pol)) && Clean(log, pol, a, i)
  }

  ghost predicate EndLawful(log: seq<Event>, r: Id, i: nat) {
    exists a: nat, pol :: a < i && At(log, a, Queued(r, pol)) && Durable(log, r, pol, a, i)
  }

  /** The ordering promise: cache flushes stand where the request's policy wants them. */
  ghost predicate Lawful(log: seq<Event>, i: nat)
    requires i < |log|
  {
    match log[i]
    case DataQueued(r) => DataLawful(log, r, i)
    case Ended(r, ok) => ok ==> EndLawful(log, r, i)
    case _ => true
  }

  ghost predicate Ordered(log: seq<Event>) {
    forall i {:trigger Lawful(log, i)} :: 0 <= i < |log| ==> Lawful(log, i)
  }

  lemma FlushedExtend(log: seq<Event>, e: Event, a: nat, i: nat, j: nat)
    requires Flushed(log, a, i) && i <= j
    ensures Flushed(log + [e], a, j)
  {
    var b: nat, c: nat, n :| a < b < c < i && At(log, b, FlushIssued(n)) && At(log, c, FlushDone(n, true));
    assert At(log + [e], b, FlushIssued(n)) && At(log + [e], c, FlushDone(n, true));
  }

  lemma DurableExtend(log: seq<Event>, e: Event, r: Id, pol: Bits, a: nat, i: nat)
    requires Durable(log, r, pol, a, i)
    ensures Durable(log + [e], r, pol, a, i)
  {
    hide Flushed;
    if pol.pre || (pol.post && !pol.data) { FlushedExtend(log, e, a, i, i); }
    if pol.data {
      var d: nat :| d < i && Written(log, r, a, d) && (pol.post ==> Flushed(log, d, i));
      assert Written(log + [e], r, a, d);
      if pol.post { FlushedExtend(log, e, d, i, i); }
    }
  }

  lemma LawfulExtend(log: seq<Event>, e: Event, i: nat)
    requires i < |log| && Lawful(log, i)
    ensures Lawful(log + [e], i)
  {
    hide Flushed, Durable;
    match log[i]
    case DataQueued(r) =>
      var a: nat, pol :| a < i && At(log, a, Queued(r, pol)) && Clean(log, pol, a, i);
      if pol.pre { FlushedExtend(log, e, a, i, i); }
      assert At(log + [e], a, Queued(r, pol));
    case Ended(r, ok) =>
      if ok {
        var a: nat, pol :| a < i && At(log, a, Queued(r, pol)) && Durable(log, r, pol, a, i);
        DurableExtend(log, e, r, pol, a, i);
        assert At(log + [e], a, Queued(r, pol));
      }
    case _ =>
  }

  lemma OrderedExtend(log: seq<Event>, e: Event)
    requires Ordered(log) && Lawful(log + [e], |log|)
    ensures Ordered(log + [e])
  {
    forall i | 0 <= i < |log + [e]| ensures Lawful(log + [e], i) {
      if i < |log| { LawfulExtend(log, e, i); }
    }
  }

  // ---------------------------------------------------------------- the invariant

  ghost function Ids(l: seq<Id>): set<Id> { set r | r in l }

  /** Every live request is in exactly one place; `hand` holds those an operation is moving right now. */
  ghost predicate Placed(s: State, hand: set<Id>) {
    && |s.lists| == 2 && s.pend < 2 && s.run < 2
    && NoRepeat(s.lists[0]) && NoRepeat(s.lists[1])
    && Ids(s.lists[0]) !! Ids(s.lists[1]) !! s.data !! hand
    && s.reqs.Keys == Ids(s.lists[0]) + Ids(s.lists[1]) + s.data + hand
  }

  /** The two indices differ exactly while the one embedded flush request is outstanding. */
  ghost predicate FlushState(s: State)
    requires |s.lists| == 2 && s.pend < 2 && s.run < 2
  {
    if s.pend == s.run then s.lists[1 - s.pend] == []
    else s.lists[s.run] != [] && s.flushes > 0 && At(s.log, s.issuedAt, FlushIssued(s.flushes - 1))
  }

  /** No stall: a waiting request has a flush or a DATA in flight that will kick the queue again. */
  ghost predicate Settled(s: State)
    requires |s.lists| == 2 && s.pend < 2
  {
    s.lists[s.pend] != [] ==> s.pend != s.run || s.data != {}
  }

  /** What the log says about a live request, given the stages it has behind it. */
  ghost predicate RqLogged(log: seq<Event>, r: Id, q: Rq) {
    && At(log, q.qAt, Queued(r, q.pol))
    && (q.pol.pre && q.done.pre ==> Flushed(log, q.qAt, |log|))
    && (q.pol.data && q.done.data ==> Written(log, r, q.qAt, q.dAt))
    && (q.pol.post && q.done.post ==> Flushed(log, q.Mark(), |log|))
  }

  ghost predicate RqPlaced(s: State, r: Id)
    requires r in s.reqs && |s.lists| == 2 && s.pend < 2 && s.run < 2
  {
    var q := s.reqs[r];
    && (r in s.data ==> CurSeq(q.done) == Data)
    && (r in s.lists[s.pend] || r in s.lists[s.run] ==> CurSeq(q.done).Pre? || CurSeq(q.done).Post?)
    && (s.pend != s.run && r in s.lists[s.run] ==> q.Mark() < s.issuedAt)
  }

  ghost predicate Inv(s: State, hand: set<Id>) {
    && Placed(s, hand)
    && FlushState(s)
    && (forall r {:trigger RqLogged(s.log, r, s.reqs[r])} :: r in s.reqs ==> RqLogged(s.log, r, s.reqs[r]))
    && (forall r {:trigger RqPlaced(s, r)} :: r in s.reqs ==> RqPlaced(s, r))
    && Ordered(s.log)
  }

  lemma RqLoggedExtend(log: seq<Event>, e: Event, r: Id, q: Rq)
    requires RqLogged(log, r, q)
    ensures RqLogged(log + [e], r, q)
  {
    hide Flushed;
    if q.pol.pre && q.done.pre { FlushedExtend(log, e, q.qAt, |log|, |log| + 1); }
    if q.pol.post && q.done.post { FlushedExtend(log, e, q.Mark(), |log|, |log| + 1); }
  }

  /** Logging an event that is itself lawful disturbs nothing. */
  lemma LogKeeps(s: State, hand: set<Id>, e: Event)
    requires Inv(s, hand) && Lawful(s.log + [e], |s.log|)
    ensures Inv(s.(log := s.log + [e]), hand)
  {
    hide Flushed, Lawful, RqLogged, Ids, NoRepeat;
    var s' := s.(log := s.log + [e]);
    OrderedExtend(s.log, e);
    forall r | r in s.reqs ensures RqLogged(s'.log, r, s.reqs[r]) && RqPlaced(s', r) {
      assert RqLogged(s.log, r, s.reqs[r]) && RqPlaced(s, r);
      RqLoggedExtend(s.log, e, r, s.reqs[r]);
    }
  }

  /** Considering a flush keeps the invariant and never leaves the queue stalled. */
  lemma KickKeeps(s: State, hand: set<Id>, now: nat)
    requires Inv(s, hand)
    ensures Inv(Kick(s, now), hand) && Settled(Kick(s, now))
  {
    hide Flushed, RqLogged, Ids, NoRepeat, Ordered;
    if s.pend == s.run && s.lists[s.pend] != [] && (s.data == {} || now >= s.since + s.timeout) {
      var e := FlushIssued(s.flushes);
      LogKeeps(s, hand, e);
      var s1 := s.(log := s.log + [e]);
      var s' := Kick(s, now);
      forall r | r in s'.reqs ensures RqPlaced(s', r) && RqLogged(s'.log, r, s'.reqs[r]) {
        assert RqPlaced(s1, r) && RqLogged(s1.log, r, s1.reqs[r]);
        assert RqLogged(s.log, r, s.reqs[r]);
        MarkBound(s.log, r, s.reqs[r]);
      }
    }
  }

  lemma MarkBound(log: seq<Event>, r: Id, q: Rq)
    requires RqLogged(log, r, q)
    ensures q.Mark() < |log|
  {
  }

  lemma AppendIds(l: seq<Id>, r: Id)
    requires NoRepeat(l) && r !in l
    ensures NoRepeat(l + [r]) && Ids(l + [r]) == Ids(l) + {r}
  {
  }

  lemma ForgetKeeps(s: State, hand: set<Id>, r: Id)
    requires Inv(s, hand) && r in hand
    ensures Inv(s.(reqs := s.reqs - {r}), hand - {r})
  {
    hide Flushed, RqLogged, Ids, NoRepeat, Ordered;
    var s' := s.(reqs := s.reqs - {r});
    forall x | x in s'.reqs ensures RqLogged(s'.log, x, s'.reqs[x]) && RqPlaced(s', x) {
      assert RqLogged(s.log, x, s.reqs[x]) && RqPlaced(s, x);
    }
  }

  lemma SendDataKeeps(s: State, hand: set<Id>, r: Id, q: Rq)
    requires Inv(s, hand) && r in hand && RqLogged(s.log, r, q) && CurSeq(q.done) == Data
    ensures Inv(s.(reqs := s.reqs[r := q], data := s.data + {r}), hand - {r})
  {
    var s' := s.(reqs := s.reqs[r := q], data := s.data + {r});
    assert r !in s.lists[0] && r !in s.lists[1] by { assert r !in Ids(s.lists[0]) && r !in Ids(s.lists[1]); }
    hide Flushed, RqLogged, Ids, NoRepeat, Ordered;
    forall x | x in s'.reqs ensures RqLogged(s'.log, x, s'.reqs[x]) && RqPlaced(s', x) {
      if x != r { assert RqLogged(s.log, x, s.reqs[x]) && RqPlaced(s, x); }
    }
  }

  lemma WaitKeeps(s: State, hand: set<Id>, r: Id, q: Rq, since: nat)
    requires Inv(s, hand) && r in hand && RqLogged(s.log, r, q) && (CurSeq(q.done) == Pre || CurSeq(q.done) == Post)
    ensures Inv(s.(reqs := s.reqs[r := q], since := since, lists := s.lists[s.pend := s.lists[s.pend] + [r]]), hand - {r})
  {
    var s' := s.(reqs := s.reqs[r := q], since := since, lists := s.lists[s.pend := s.lists[s.pend] + [r]]);
    assert r !in s.lists[0] && r !in s.lists[1] by { assert r !in Ids(s.lists[0]) && r !in Ids(s.lists[1]); }
    AppendIds(s.lists[s.pend], r);
    hide Flushed, RqLogged, Ids, NoRepeat, Ordered;
    assert Placed(s', hand - {r});
    forall x | x in s'.reqs ensures RqLogged(s'.log, x, s'.reqs[x]) && RqPlaced(s', x) {
      if x != r { assert RqLogged(s.log, x, s.reqs[x]) && RqPlaced(s, x); }
    }
  }

  lemma DurableNow(log: seq<Event>, r: Id, q: Rq)
    requires RqLogged(log, r, q) && CurSeq(q.done) == Done
    ensures Durable(log, r, q.pol, q.qAt, |log|)
  {
    hide Flushed;
  }

  /** Moving a request to its next stage keeps the invariant; what the stage promises has been earned. */
  lemma AdvanceKeeps(s: State, hand: set<Id>, r: Id, mask: Bits, ok: bool, now: nat)
    requires Inv(s, hand) && r in hand
    requires ok ==> RqLogged(s.log, r, s.reqs[r].(done := s.reqs[r].done.Or(mask)))
    requires ok ==> s.reqs[r].done.Or(mask).Or(s.reqs[r].pol) == Bits(true, true, true)
    ensures Inv(Advance(s, r, mask, ok, now), hand - {r})
  {
    var q := s.reqs[r].(done := s.reqs[r].done.Or(mask));
    var stage := if ok then CurSeq(q.done) else Done;
    match stage
    case Data =>
      SendDataKeeps(s, hand, r, q);
      assert Lawful(s.log + [DataQueued(r)], |s.log|) by {
        hide Flushed;
        RqLoggedExtend(s.log, DataQueued(r), r, q);
        if q.pol.pre { FlushedExtend(s.log, DataQueued(r), q.qAt, |s.log|, |s.log|); }
        assert At(s.log + [DataQueued(r)], q.qAt, Queued(r, q.pol)) && Clean(s.log + [DataQueued(r)], q.pol, q.qAt, |s.log|);
      }
      LogKeeps(s.(reqs := s.reqs[r := q], data := s.data + {r}), hand - {r}, DataQueued(r));
    case Done =>
      ForgetKeeps(s, hand, r);
      var e := Ended(r, ok);
      assert Lawful(s.log + [e], |s.log|) by {
        hide Flushed, Durable;
        if ok {
          DurableNow(s.log, r, q);
          DurableExtend(s.log, e, r, q.pol, q.qAt, |s.log|);
          assert At(s.log + [e], q.qAt, Queued(r, q.pol));
        }
      }
      LogKeeps(s.(reqs := s.reqs - {r}), hand - {r}, e);
    case _ =>
      WaitKeeps(s, hand, r, q.(joined := now), if s.lists[s.pend] == [] then now else s.since);
  }

  lemma CompleteSeqKeeps(s: State, hand: set<Id>, r: Id, mask: Bits, ok: bool, now: nat)
    requires Inv(s, hand) && r in hand
    requires ok ==> RqLogged(s.log, r, s.reqs[r].(done := s.reqs[r].done.Or(mask)))
    requires ok ==> s.reqs[r].done.Or(mask).Or(s.reqs[r].pol) == Bits(true, true, true)
    ensures Inv(CompleteSeq(s, r, mask, ok, now), hand - {r})
    ensures Settled(CompleteSeq(s, r, mask, ok, now))
  {
    hide RqLogged, Settled, Advance, Kick, Ordered, Ids, NoRepeat;
    AdvanceKeeps(s, hand, r, mask, ok, now);
    KickKeeps(Advance(s, r, mask, ok, now), hand - {r}, now);
  }

  // ---------------------------------------------------------------- the story of one request

  predicate About(e: Event, r: Id) { !e.FlushIssued? && !e.FlushDone? && e.r == r }

  /** The events of request `r`, in order. */
  ghost function Hist(log: seq<Event>, r: Id): seq<Event> {
    if log == [] then []
    else
      var n := |log| - 1;
      Hist(log[..n], r) + (if About(log[n], r) then [log[n]] else [])
  }

  lemma HistExtend(log: seq<Event>, e: Event, r: Id)
    ensures Hist(log + [e], r) == if About(e, r) then Hist(log, r) + [e] else Hist(log, r)
  {
    assert (log + [e])[..|log|] == log;
    assert Hist(log, r) + [] == Hist(log, r);
  }

  function Chapter(r: Id, pol: Bits, done: Bits, stage: Stage): seq<Event> {
    if pol.Has(stage) && done.Has(stage) then (if stage.Data? then [DataQueued(r)] else []) + [StageDone(r, stage, true)]
    else []
  }

  /** Exactly the stages of the policy that are done, in PREFLUSH, DATA, POSTFLUSH order. */
  function Story(r: Id, pol: Bits, done: Bits): seq<Event> {
    [Queued(r, pol)] + Chapter(r, pol, done, Pre) + Chapter(r, pol, done, Data) + Chapter(r, pol, done, Post)
  }

  predicate Sequential(pol: Bits, done: Bits) {
    && done.Or(pol) == Bits(true, true, true)
    && (pol.data && done.data ==> done.pre)
    && (pol.post && done.post ==> done.pre && done.data)
  }

  lemma StoryNext(r: Id, pol: Bits, done: Bits)
    requires Sequential(pol, done) && CurSeq(done) != Done
    ensures pol.Has(CurSeq(done)) && Sequential(pol, done.Or(Bit(CurSeq(done))))
    ensures Story(r, pol, done.Or(Bit(CurSeq(done)))) ==
            Story(r, pol, done) + (if CurSeq(done).Data? then [DataQueued(r)] else []) + [StageDone(r, CurSeq(done), true)]
  {
  }

  /** The whole life of a request that has ended: all its stages once and in order, or up to the first that failed. */
  ghost predicate Over(h: seq<Event>, r: Id) {
    || h == []
    || (exists pol {:trigger Story(r, pol, Bits(true, true, true))} :: h == Story(r, pol, Bits(true, true, true)) + [Ended(r, true)])
    || (exists pol, done {:trigger Story(r, pol, done)} :: Sequential(pol, done) && h == Failed(r, pol, done))
    || h == [Queued(r, Bits(false, true, false)), Plain(r)]
  }

  function Failed(r: Id, pol: Bits, done: Bits): seq<Event> {
    Story(r, pol, done) + (if CurSeq(done).Data? then [DataQueued(r)] else []) + [StageDone(r, CurSeq(done), false)] + [Ended(r, false)]
  }

  ghost predicate Told(s: State, r: Id) {
    if r in s.reqs then
      && Sequential(s.reqs[r].pol, s.reqs[r].done)
      && Hist(s.log, r) == Story(r, s.reqs[r].pol, s.reqs[r].done) + (if r in s.data then [DataQueued(r)] else [])
    else
      Over(Hist(s.log, r), r)
  }

  /** Every request but `except` is where its story says. */
  ghost predicate AllTold(s: State, except: set<Id>) {
    forall r {:trigger Told(s, r)} :: r !in except ==> Told(s, r)
  }

  /** The history with which a request may enter its next stage: the completed mask is accounted for. */
  ghost predicate Ready(s: State, r: Id, mask: Bits, ok: bool)
    requires r in s.reqs
  {
    var q := s.reqs[r];
    if ok then
      && Sequential(q.pol, q.done.Or(mask))
      && Hist(s.log, r) == Story(r, q.pol, q.done.Or(mask))
    else
      && Sequential(q.pol, q.done)
      && Hist(s.log, r) + [Ended(r, false)] == Failed(r, q.pol, q.done)
  }

  lemma KickTold(s: State, now: nat)
    requires |s.lists| == 2 && s.pend < 2 && AllTold(s, {})
    ensures AllTold(Kick(s, now), {})
  {
    hide Story, Over, Sequential, Failed;
    var s' := Kick(s, now);
    forall r ensures Told(s', r) {
      assert Told(s, r);
      HistExtend(s.log, FlushIssued(s.flushes), r);
    }
  }

  lemma AdvanceToldOther(s: State, r: Id, mask: Bits, ok: bool, now: nat, x: Id)
    requires |s.lists| == 2 && s.pend < 2 && r in s.reqs && x != r && Told(s, x)
    ensures Told(Advance(s, r, mask, ok, now), x)
  {
    hide Story, Over, Sequential;
    HistExtend(s.log, DataQueued(r), x);
    HistExtend(s.log, Ended(r, ok), x);
  }

  lemma AdvanceToldSelf(s: State, r: Id, mask: Bits, ok: bool, now: nat)
    requires |s.lists| == 2 && s.pend < 2 && r in s.reqs && r !in s.data && Ready(s, r, mask, ok)
    ensures Told(Advance(s, r, mask, ok, now), r)
  {
    var q := s.reqs[r];
    var s' := Advance(s, r, mask, ok, now);
    HistExtend(s.log, DataQueued(r), r);
    HistExtend(s.log, Ended(r, ok), r);
    if !ok {
      assert Story(r, q.pol, q.done) == Story(r, q.pol, q.done) && Hist(s'.log, r) == Failed(r, q.pol, q.done);
    } else if CurSeq(q.done.Or(mask)) == Done {
      assert Hist(s'.log, r) == Story(r, q.pol, Bits(true, true, true)) + [Ended(r, true)];
    } else {
      hide Story;
      assert Story(r, q.pol, q.done.Or(mask)) + [] == Story(r, q.pol, q.done.Or(mask));
    }
  }

  lemma AdvanceTold(s: State, hand: set<Id>, r: Id, mask: Bits, ok: bool, now: nat)
    requires Placed(s, hand) && r in hand && AllTold(s, {r}) && Ready(s, r, mask, ok)
    ensures AllTold(Advance(s, r, mask, ok, now), {})
  {
    AdvanceToldSelf(s, r, mask, ok, now);
    hide Told, Advance, Ready;
    forall x ensures Told(Advance(s, r, mask, ok, now), x) {
      if x != r {
        assert Told(s, x);
        AdvanceToldOther(s, r, mask, ok, now, x);
      }
    }
  }

  lemma CompleteSeqTold(s: State, hand: set<Id>, r: Id, mask: Bits, ok: bool, now: nat)
    requires Placed(s, hand) && r in hand && AllTold(s, {r}) && Ready(s, r, mask, ok)
    ensures AllTold(CompleteSeq(s, r, mask, ok, now), {})
  {
    AdvanceTold(s, hand, r, mask, ok, now);
    KickTold(Advance(s, r, mask, ok, now), now);
  }

  // ---------------------------------------------------------------- the steps

  /** What holds between any two steps. */
  ghost predicate Full(s: State) { Inv(s, {}) && Settled(s) && AllTold(s, {}) }

  lemma ArriveKeeps(s: State, r: Id, pol: Bits)
    requires Inv(s, {}) && r !in s.reqs
    ensures Inv(Arrive(s, r, pol), {r})
  {
    hide Flushed, Ids, NoRepeat, Ordered;
    var e := Queued(r, pol);
    LogKeeps(s, {}, e);
    var s1, s' := s.(log := s.log + [e]), Arrive(s, r, pol);
    assert r !in s.lists[0] && r !in s.lists[1] by { ListedLive(s, {}, r); }
    forall x | x in s'.reqs ensures RqLogged(s'.log, x, s'.reqs[x]) && RqPlaced(s', x) {
      if x != r { assert RqLogged(s1.log, x, s1.reqs[x]) && RqPlaced(s1, x); }
    }
  }

  lemma ListedLive(s: State, hand: set<Id>, r: Id)
    requires Placed(s, hand)
    ensures (r in s.lists[0] || r in s.lists[1] || r in s.data) ==> r in s.reqs
    ensures r in s.lists[0] ==> r !in s.lists[1] && r !in s.data && r !in hand
    ensures r in s.lists[1] ==> r !in s.lists[0] && r !in s.data && r !in hand
  {
    assert r in s.lists[0] <==> r in Ids(s.lists[0]);
    assert r in s.lists[1] <==> r in Ids(s.lists[1]);
  }

  lemma ShortStories(r: Id, pol: Bits)
    ensures Story(r, pol, pol.Not()) == [Queued(r, pol)]
    ensures Story(r, NoBits, Bits(true, true, true)) == [Queued(r, NoBits)]
  {
  }

  lemma BypassInv(s: State, r: Id, pol: Bits, e: Event)
    requires Inv(s, {})
    requires (pol == NoBits && e == Ended(r, true)) || (pol == Bits(false, true, false) && e == Plain(r))
    ensures Inv(s.(log := s.log + [Queued(r, pol)] + [e]), {})
  {
    hide Inv, Flushed;
    var l1 := s.log + [Queued(r, pol)];
    var l2 := l1 + [e];
    LogKeeps(s, {}, Queued(r, pol));
    assert At(l2, |s.log|, Queued(r, pol)) && (e.Ended? ==> Durable(l2, r, pol, |s.log|, |l1|));
    assert Lawful(l2, |l1|);
    LogKeeps(s.(log := l1), {}, e);
  }

  /** Steps that touch no request: an empty policy ends at once, and plain data bypasses the machinery. */
  lemma BypassKeeps(s: State, r: Id, pol: Bits, e: Event)
    requires Full(s) && r !in s.reqs && Hist(s.log, r) == []
    requires (pol == NoBits && e == Ended(r, true)) || (pol == Bits(false, true, false) && e == Plain(r))
    ensures Full(s.(log := s.log + [Queued(r, pol)] + [e]))
  {
    hide Inv, Hist, Story, Sequential;
    BypassInv(s, r, pol, e);
    var l1 := s.log + [Queued(r, pol)];
    HistExtend(s.log, Queued(r, pol), r);
    HistExtend(l1, e, r);
    ShortStories(r, pol);
    BypassOver(r, pol, e);
    forall x ensures Told(s.(log := l1 + [e]), x) {
      assert Told(s, x);
      HistExtend(s.log, Queued(r, pol), x);
      HistExtend(l1, e, x);
    }
  }

  lemma BypassOver(r: Id, pol: Bits, e: Event)
    requires (pol == NoBits && e == Ended(r, true)) || (pol == Bits(false, true, false) && e == Plain(r))
    ensures Over([] + [Queued(r, pol)] + [e], r)
  {
    ShortStories(r, pol);
    assert [] + [Queued(r, pol)] + [e] == [Queued(r, pol), e];
  }

  /** blk_insert_flush keeps everything. */
  lemma InsertKeeps(s: State, r: Id, pol: Bits, now: nat)
    requires Full(s) && r !in s.reqs && Hist(s.log, r) == []
    ensures Full(Insert(s, r, pol, now))
  {
    if pol == NoBits {
      BypassKeeps(s, r, pol, Ended(r, true));
    } else if !pol.pre && !pol.post {
      BypassKeeps(s, r, pol, Plain(r));
    } else {
      hide Inv, AllTold, Told, Settled, Ready;
      ArriveKeeps(s, r, pol);
      ArriveTold(s, r, pol);
      ArriveReady(s, r, pol);
      var s1 := Arrive(s, r, pol);
      CompleteSeqTold(s1, {r}, r, pol.Not(), true, now);
      CompleteSeqKeeps(s1, {r}, r, pol.Not(), true, now);
      assert {r} - {r} == {};
    }
  }

  lemma ArriveTold(s: State, r: Id, pol: Bits)
    requires AllTold(s, {}) && r !in s.reqs && Hist(s.log, r) == []
    ensures AllTold(Arrive(s, r, pol), {r}) && Ready(Arrive(s, r, pol), r, pol.Not(), true)
  {
    hide Sequential, Over;
    var s1 := Arrive(s, r, pol);
    HistExtend(s.log, Queued(r, pol), r);
    ShortStories(r, pol);
    ArriveSequential(pol);
    forall x | x != r ensures Told(s1, x) {
      assert Told(s, x);
      HistExtend(s.log, Queued(r, pol), x);
    }
  }

  lemma ArriveSequential(pol: Bits)
    ensures Sequential(pol, pol.Not())
  {
  }

  lemma ArriveReady(s: State, r: Id, pol: Bits)
    requires Inv(Arrive(s, r, pol), {r})
    ensures var s1 := Arrive(s, r, pol);
            && Placed(s1, {r}) && RqLogged(s1.log, r, s1.reqs[r].(done := s1.reqs[r].done.Or(pol.Not())))
            && s1.reqs[r].done.Or(pol.Not()).Or(s1.reqs[r].pol) == Bits(true, true, true)
  {
    assert RqLogged(Arrive(s, r, pol).log, r, Arrive(s, r, pol).reqs[r]);
  }

  lemma DataArrivedKeeps(s: State, r: Id, ok: bool)
    requires Inv(s, {}) && r in s.data
    ensures Inv(DataArrived(s, r, ok), {r})
  {
    hide Flushed, NoRepeat, Ordered;
    var e := StageDone(r, Data, ok);
    ListedLive(s, {}, r);
    assert RqPlaced(s, r) && RqLogged(s.log, r, s.reqs[r]);
    LogKeeps(s, {}, e);
    var s1, s' := s.(log := s.log + [e]), DataArrived(s, r, ok);
    forall x | x in s'.reqs ensures RqLogged(s'.log, x, s'.reqs[x]) && RqPlaced(s', x) {
      assert RqLogged(s1.log, x, s1.reqs[x]) && RqPlaced(s1, x);
    }
  }

  /** flush_data_end_io keeps everything. */
  lemma DataEndKeeps(s: State, r: Id, ok: bool, now: nat)
    requires Full(s) && r in s.data
    ensures r in s.reqs
    ensures Full(DataEnd(s, r, ok, now))
  {
    var s1 := DataArrived(s, r, ok);
    var e := StageDone(r, Data, ok);
    DataArrivedKeeps(s, r, ok);
    assert RqPlaced(s, r) && RqLogged(s.log, r, s.reqs[r]) && Told(s, r);
    var q, q1 := s.reqs[r], s1.reqs[r].(done := s1.reqs[r].done.Or(Bit(Data)));
    StoryNext(r, q.pol, q.done);
    HistExtend(s.log, e, r);
    assert ok ==> RqLogged(s1.log, r, q1) by {
      hide Flushed;
      RqLoggedExtend(s.log, e, r, q);
    }
    assert Ready(s1, r, Bit(Data), ok);
    assert AllTold(s1, {r}) by {
      hide Story, Over, Sequential;
      forall x | x != r ensures Told(s1, x) {
        assert Told(s, x);
        HistExtend(s.log, e, x);
      }
    }
    CompleteSeqTold(s1, {r}, r, Bit(Data), ok, now);
    CompleteSeqKeeps(s1, {r}, r, Bit(Data), ok, now);
    assert {r} - {r} == {};
  }

  /** A request of the flush that just completed: it waits in a flush stage, and on success that flush covers it. */
  ghost predicate Served(s: State, r: Id, ok: bool) {
    && r in s.reqs
    && (CurSeq(s.reqs[r].done).Pre? || CurSeq(s.reqs[r].done).Post?)
    && (ok ==> Flushed(s.log, s.reqs[r].Mark(), |s.log|))
  }

  ghost predicate AllServed(s: State, todo: seq<Id>, ok: bool) {
    forall r {:trigger Served(s, r, ok)} :: r in todo ==> Served(s, r, ok)
  }

  /** The loop of flush_end_io, with the requests of the running list taken off it beforehand. */
  ghost function Drain(s: State, todo: seq<Id>, ok: bool, now: nat): (s': State)
    requires |s.lists| == 2 && s.pend < 2 && NoRepeat(todo) && forall r :: r in todo ==> r in s.reqs
    decreases |todo|
  {
    if todo == [] then s
    else
      var r := todo[0];
      Drain(CompleteSeq(StageLogged(s, r, ok), r, Bit(CurSeq(s.reqs[r].done)), ok, now), todo[1..], ok, now)
  }

  /** The flush is out, and the list it serves names live requests. */
  ghost predicate InFlight(s: State) {
    && |s.lists| == 2 && s.pend < 2 && s.run < 2 && s.pend != s.run && s.flushes > 0
    && NoRepeat(s.lists[s.run]) && forall r :: r in s.lists[s.run] ==> r in s.reqs
  }

  /** flush_end_io. */
  ghost function FlushEnd(s: State, ok: bool, now: nat): State
    requires InFlight(s)
  {
    Drain(FlushArrived(s, ok), s.lists[s.run], ok, now)
  }

  lemma HandLive(s: State, hand: set<Id>)
    requires Placed(s, hand)
    ensures forall i, r :: 0 <= i < 2 && r in s.lists[i] ==> r in s.reqs
  {
    forall i, r | 0 <= i < 2 && r in s.lists[i] ensures r in s.reqs { assert r in Ids(s.lists[i]); }
  }

  lemma RunningList(s: State)
    requires Inv(s, {}) && s.pend != s.run
    ensures InFlight(s)
  {
    HandLive(s, {});
  }

  lemma FlushArrivedInv(s: State, ok: bool)
    requires Inv(s, {}) && s.pend != s.run
    ensures Inv(FlushArrived(s, ok), Ids(s.lists[s.run]))
  {
    hide Ordered, RqLogged;
    var e := FlushDone(s.flushes - 1, ok);
    var s1, s' := s.(log := s.log + [e]), FlushArrived(s, ok);
    LogKeeps(s, {}, e);
    assert Placed(s', Ids(s.lists[s.run])) by { assert Ids([]) == {}; }
    forall x | x in s'.reqs ensures RqLogged(s'.log, x, s'.reqs[x]) && RqPlaced(s', x) {
      assert RqLogged(s1.log, x, s1.reqs[x]) && RqPlaced(s1, x);
    }
  }

  lemma FlushArrivedServes(s: State, ok: bool, r: Id)
    requires Inv(s, {}) && s.pend != s.run && r in s.lists[s.run]
    ensures Served(FlushArrived(s, ok), r, ok)
  {
    hide RqLogged, Ordered, NoRepeat;
    var s' := FlushArrived(s, ok);
    HandLive(s, {});
    assert RqPlaced(s, r);
    if ok { assert At(s'.log, s.issuedAt, FlushIssued(s.flushes - 1)) && At(s'.log, |s.log|, FlushDone(s.flushes - 1, true)); }
  }

  lemma FlushArrivedKeeps(s: State, ok: bool)
    requires Full(s) && s.pend != s.run
    ensures Inv(FlushArrived(s, ok), Ids(s.lists[s.run]))
    ensures AllTold(FlushArrived(s, ok), {})
    ensures AllServed(FlushArrived(s, ok), s.lists[s.run], ok)
  {
    hide Inv, Served, Over, Story, Sequential, Hist;
    FlushArrivedInv(s, ok);
    RunningList(s);
    var e, s' := FlushDone(s.flushes - 1, ok), FlushArrived(s, ok);
    forall r | r in s.lists[s.run] ensures Served(s', r, ok) { FlushArrivedServes(s, ok, r); }
    forall x ensures Told(s', x) {
      assert Told(s, x);
      HistExtend(s.log, e, x);
    }
  }

  /** The completed flush lets the first request of the loop leave its flush stage. */
  lemma DrainEnter(s: State, hand: set<Id>, r: Id, ok: bool)
    requires Inv(s, hand) && r in hand && AllTold(s, {}) && Served(s, r, ok)
    ensures var s1, stage := StageLogged(s, r, ok), CurSeq(s.reqs[r].done);
            && Inv(s1, hand) && AllTold(s1, {r}) && Ready(s1, r, Bit(stage), ok)
            && (ok ==> RqLogged(s1.log, r, s.reqs[r].(done := s.reqs[r].done.Or(Bit(stage)))))
            && s.reqs[r].done.Or(Bit(stage)).Or(s.reqs[r].pol) == Bits(true, true, true)
  {
    assert r !in s.data && Told(s, r) && RqLogged(s.log, r, s.reqs[r]);
    var q := s.reqs[r];
    var e := StageDone(r, CurSeq(q.done), ok);
    LogKeeps(s, hand, e);
    StageEarned(s.log, r, q, ok);
    LogToldButOne(s, e, r);
    hide Inv, Flushed, AllTold, RqLogged;
    StoryNext(r, q.pol, q.done);
    HistExtend(s.log, e, r);
    assert Story(r, q.pol, q.done) + [] == Story(r, q.pol, q.done);
  }

  /** One round of the loop: the request has earned its next stage and moves on; the others are undisturbed. */
  lemma DrainStep(s: State, todo: seq<Id>, ok: bool, now: nat)
    requires todo != [] && NoRepeat(todo) && Inv(s, Ids(todo)) && AllTold(s, {}) && AllServed(s, todo, ok)
    ensures todo[0] in s.reqs
    ensures var s' := CompleteSeq(StageLogged(s, todo[0], ok), todo[0], Bit(CurSeq(s.reqs[todo[0]].done)), ok, now);
            Inv(s', Ids(todo[1..])) && AllTold(s', {}) && AllServed(s', todo[1..], ok) && Settled(s')
  {
    var r, hand := todo[0], Ids(todo);
    assert Served(s, r, ok);
    hide Told, AllTold, Settled, Ready, RqLogged, Flushed, FlushState, Ordered;
    var stage := CurSeq(s.reqs[r].done);
    var s1 := StageLogged(s, r, ok);
    DrainEnter(s, hand, r, ok);
    CompleteSeqTold(s1, hand, r, Bit(stage), ok, now);
    CompleteSeqKeeps(s1, hand, r, Bit(stage), ok, now);
    assert hand - {r} == Ids(todo[1..]) by { assert todo == [r] + todo[1..]; }
    hide Inv, Placed, CompleteSeq;
    forall x | x in todo[1..] ensures Served(CompleteSeq(s1, r, Bit(stage), ok, now), x, ok) {
      assert Served(s, x, ok);
      ServedStable(s, r, Bit(stage), ok, now, StageDone(r, stage, ok), x);
    }
  }

  lemma LogToldButOne(s: State, e: Event, r: Id)
    requires AllTold(s, {}) && About(e, r)
    ensures AllTold(s.(log := s.log + [e]), {r})
  {
    hide Story, Over, Sequential;
    forall x | x != r ensures Told(s.(log := s.log + [e]), x) {
      assert Told(s, x);
      HistExtend(s.log, e, x);
    }
  }

  lemma StageEarned(log: seq<Event>, r: Id, q: Rq, ok: bool)
    requires RqLogged(log, r, q) && Sequential(q.pol, q.done) && (CurSeq(q.done) == Pre || CurSeq(q.done) == Post)
    requires ok ==> Flushed(log, q.Mark(), |log|)
    ensures ok ==> RqLogged(log + [StageDone(r, CurSeq(q.done), ok)], r, q.(done := q.done.Or(Bit(CurSeq(q.done)))))
  {
    hide Flushed;
    var e := StageDone(r, CurSeq(q.done), ok);
    RqLoggedExtend(log, e, r, q);
    if ok { FlushedExtend(log, e, q.Mark(), |log|, |log| + 1); }
  }

  lemma ServedExtend(s: State, e: Event, x: Id, ok: bool)
    requires Served(s, x, ok)
    ensures Served(s.(log := s.log + [e]), x, ok)
  {
    hide Flushed;
    if ok { FlushedExtend(s.log, e, s.reqs[x].Mark(), |s.log|, |s.log| + 1); }
  }

  lemma ServedStable(s: State, r: Id, mask: Bits, ok: bool, now: nat, e: Event, x: Id)
    requires |s.lists| == 2 && s.pend < 2 && r in s.reqs && x != r && Served(s, x, ok)
    ensures Served(CompleteSeq(s.(log := s.log + [e]), r, mask, ok, now), x, ok)
  {
    hide Flushed;
    var s1 := s.(log := s.log + [e]);
    ServedExtend(s, e, x, ok);
    var s2 := Advance(s1, r, mask, ok, now);
    ServedExtend(s1, DataQueued(r), x, ok);
    ServedExtend(s1, Ended(r, ok), x, ok);
    assert Served(s2, x, ok);
    ServedExtend(s2, FlushIssued(s2.flushes), x, ok);
  }

  /** The whole completion loop, even when a new flush is issued in the middle of it. */
  lemma {:induction false} DrainKeeps(s: State, todo: seq<Id>, ok: bool, now: nat)
    requires NoRepeat(todo) && Inv(s, Ids(todo)) && AllTold(s, {}) && AllServed(s, todo, ok)
    requires todo == [] ==> Settled(s)
    ensures forall r :: r in todo ==> r in s.reqs
    ensures Full(Drain(s, todo, ok, now))
    decreases |todo|
  {
    assert forall r :: r in todo ==> r in s.reqs by { assert forall r :: r in todo ==> r in Ids(todo); }
    if todo == [] {
      assert Ids(todo) == {};
    } else {
      hide Inv, Told, AllTold, Settled, AllServed;
      DrainStep(s, todo, ok, now);
      DrainKeeps(CompleteSeq(StageLogged(s, todo[0], ok), todo[0], Bit(CurSeq(s.reqs[todo[0]].done)), ok, now), todo[1..], ok, now);
    }
  }

  lemma FlushEndKeeps(s: State, ok: bool, now: nat)
    requires Full(s) && s.pend != s.run
    ensures InFlight(s)
    ensures Full(FlushEnd(s, ok, now))
  {
    RunningList(s);
    FlushArrivedKeeps(s, ok);
    DrainKeeps(FlushArrived(s, ok), s.lists[s.run], ok, now);
  }

  // ---------------------------------------------------------------- every run

  datatype Step = Submit(r: Id, pol: Bits, now: nat) | FlushCompletes(ok: bool, now: nat) | DataCompletes(r: Id, ok: bool, now: nat)

  ghost predicate Next(s: State, st: Step, s': State) {
    match st
    case Submit(r, pol, now) => |s.lists| == 2 && s.pend < 2 && r !in s.reqs && Hist(s.log, r) == [] && s' == Insert(s, r, pol, now)
    case FlushCompletes(ok, now) => InFlight(s) && s' == FlushEnd(s, ok, now)
    case DataCompletes(r, ok, now) => |s.lists| == 2 && s.pend < 2 && r in s.data && r in s.reqs && s' == DataEnd(s, r, ok, now)
  }

  function Init(timeout: nat): State { State(map[], [[], []], {}, 0, 0, 0, timeout, 0, 0, [], []) }

  lemma InitFull(timeout: nat)
    ensures Full(Init(timeout))
  {
    assert forall r :: Told(Init(timeout), r);
  }

  ghost predicate IsRun(tr: seq<State>, steps: seq<Step>, timeout: nat) {
    && |tr| == |steps| + 1
    && tr[0] == Init(timeout)
    && forall k :: 0 <= k < |steps| ==> Next(tr[k], steps[k], tr[k + 1])
  }

  /** In every state of every run: flushes are ordered, no request is stalled, each request's history is its policy's. */
  lemma {:induction false} RunIsLawful(tr: seq<State>, steps: seq<Step>, timeout: nat, k: nat)
    requires IsRun(tr, steps, timeout) && k < |tr|
    ensures Full(tr[k])
  {
    if k == 0 {
      InitFull(timeout);
    } else {
      RunIsLawful(tr, steps, timeout, k - 1);
      var s := tr[k - 1];
      assert Next(s, steps[k - 1], tr[k - 1 + 1]);
      hide Full;
      match steps[k - 1]
      case Submit(r, pol, now) => InsertKeeps(s, r, pol, now);
      case FlushCompletes(ok, now) => FlushEndKeeps(s, ok, now);
      case DataCompletes(r, ok, now) => DataEndKeeps(s, r, ok, now);
    }
  }

  // ---------------------------------------------------------------- the pending timeout

  /** A flush may go out: no DATA is in flight, or the oldest request it serves has waited for the timeout. */
  predicate Allowed(k: Kicked, timeout: nat) { !k.busy || k.now >= k.joined + timeout }

  /** flush_pending_since is when the oldest pending request joined, and no flush went out before it was allowed. */
  ghost predicate Timely(s: State, timeout: nat)
    requires |s.lists| == 2 && s.pend < 2
  {
    && s.timeout == timeout && |s.kicks| == s.flushes
    && (s.lists[s.pend] != [] ==> s.since == JoinedAt(s.reqs, s.lists[s.pend][0]))
    && forall i :: 0 <= i < |s.kicks| ==> Allowed(s.kicks[i], timeout)
  }

  /** At time `now` no flush is overdue: without one outstanding, DATA is in flight and the oldest request has not waited long. */
  ghost predicate NoneOverdue(s: State, now: nat)
    requires |s.lists| == 2 && s.pend < 2
  {
    s.lists[s.pend] != [] && s.pend == s.run ==> s.data != {} && now < JoinedAt(s.reqs, s.lists[s.pend][0]) + s.timeout
  }

  lemma KickTimely(s: State, hand: set<Id>, timeout: nat, now: nat)
    requires Inv(s, hand) && Timely(s, timeout)
    ensures Timely(Kick(s, now), timeout) && NoneOverdue(Kick(s, now), now)
  {
    hide RqLogged, RqPlaced, Ordered, Ids;
  }

  lemma AdvanceTimely(s: State, hand: set<Id>, r: Id, mask: Bits, ok: bool, timeout: nat, now: nat)
    requires Inv(s, hand) && r in hand && Timely(s, timeout)
    ensures AdvanceShaped(s, Advance(s, r, mask, ok, now)) && Timely(Advance(s, r, mask, ok, now), timeout)
  {
    HeadNot(s, hand, r);
    hide RqLogged, RqPlaced, Ordered, Ids, NoRepeat;
  }

  ghost predicate AdvanceShaped(s: State, a: State) { |a.lists| == 2 && a.pend == s.pend && a.pend < 2 }

  lemma HeadNot(s: State, hand: set<Id>, r: Id)
    requires Placed(s, hand) && r in hand + s.data
    ensures s.lists[s.pend] != [] ==> s.lists[s.pend][0] != r
  {
    if s.lists[s.pend] != [] {
      assert s.lists[s.pend][0] in Ids(s.lists[s.pend]);
    }
  }

  lemma CompleteSeqTimely(s: State, hand: set<Id>, r: Id, mask: Bits, ok: bool, timeout: nat, now: nat)
    requires Inv(s, hand) && r in hand && Timely(s, timeout)
    requires ok ==> RqLogged(s.log, r, s.reqs[r].(done := s.reqs[r].done.Or(mask)))
    requires ok ==> s.reqs[r].done.Or(mask).Or(s.reqs[r].pol) == Bits(true, true, true)
    ensures var a := CompleteSeq(s, r, mask, ok, now);
            |a.lists| == 2 && a.pend < 2 && Timely(a, timeout) && NoneOverdue(a, now)
  {
    hide RqLogged, Settled, Advance, Kick, Ordered, Ids, NoRepeat;
    AdvanceKeeps(s, hand, r, mask, ok, now);
    AdvanceTimely(s, hand, r, mask, ok, timeout, now);
    KickKeeps(Advance(s, r, mask, ok, now), hand - {r}, now);
    KickTimely(Advance(s, r, mask, ok, now), hand - {r}, timeout, now);
  }

  lemma InsertTimely(s: State, r: Id, pol: Bits, timeout: nat, now: nat)
    requires Full(s) && r !in s.reqs && Timely(s, timeout)
    ensures var a := Insert(s, r, pol, now);
            |a.lists| == 2 && a.pend < 2 && Timely(a, timeout) && (pol.pre || pol.post ==> NoneOverdue(a, now))
  {
    if pol.pre || pol.post {
      var s1 := Arrive(s, r, pol);
      ArriveKeeps(s, r, pol);
      HeadNot(s1, {r}, r);
      assert s1.lists[s1.pend] != [] ==> JoinedAt(s1.reqs, s1.lists[s1.pend][0]) == JoinedAt(s.reqs, s.lists[s.pend][0]);
      CompleteSeqTimely(s1, {r}, r, pol.Not(), true, timeout, now);
    }
  }

  lemma DataEndTimely(s: State, r: Id, ok: bool, timeout: nat, now: nat)
    requires Full(s) && r in s.data && Timely(s, timeout)
    ensures r in s.reqs
    ensures var a := DataEnd(s, r, ok, now); |a.lists| == 2 && a.pend < 2 && Timely(a, timeout) && NoneOverdue(a, now)
  {
    var s1, e := DataArrived(s, r, ok), StageDone(r, Data, ok);
    HeadNot(s, {}, r);
    DataArrivedKeeps(s, r, ok);
    assert RqPlaced(s, r) && RqLogged(s.log, r, s.reqs[r]) && Told(s, r);
    var q, q1 := s.reqs[r], s1.reqs[r].(done := s1.reqs[r].done.Or(Bit(Data)));
    StoryNext(r, q.pol, q.done);
    assert ok ==> RqLogged(s1.log, r, q1) by {
      hide Flushed;
      RqLoggedExtend(s.log, e, r, q);
    }
    hide RqLogged, RqPlaced, Ordered, Told, Story;
    CompleteSeqTimely(s1, {r}, r, Bit(Data), ok, timeout, now);
  }

  lemma {:induction false} DrainTimely(s: State, todo: seq<Id>, ok: bool, timeout: nat, now: nat)
    requires NoRepeat(todo) && Inv(s, Ids(todo)) && AllTold(s, {}) && AllServed(s, todo, ok) && Timely(s, timeout)
    ensures forall r :: r in todo ==> r in s.reqs
    ensures var a := Drain(s, todo, ok, now);
            |a.lists| == 2 && a.pend < 2 && Timely(a, timeout) && (todo != [] ==> NoneOverdue(a, now))
    decreases |todo|
  {
    assert forall r :: r in todo ==> r in s.reqs by { assert forall r :: r in todo ==> r in Ids(todo); }
    if todo != [] {
      var r := todo[0];
      var s1, mask := StageLogged(s, r, ok), Bit(CurSeq(s.reqs[r].done));
      RoundTimely(s, todo, ok, timeout, now);
      var s2 := CompleteSeq(s1, r, mask, ok, now);
      hide Inv, Told, AllTold, Settled, AllServed, Timely, NoneOverdue;
      DrainStep(s, todo, ok, now);
      DrainTimely(s2, todo[1..], ok, timeout, now);
    }
  }

  lemma RoundTimely(s: State, todo: seq<Id>, ok: bool, timeout: nat, now: nat)
    requires NoRepeat(todo) && todo != [] && Inv(s, Ids(todo)) && AllTold(s, {}) && AllServed(s, todo, ok) && Timely(s, timeout)
    ensures todo[0] in s.reqs
    ensures var a := CompleteSeq(StageLogged(s, todo[0], ok), todo[0], Bit(CurSeq(s.reqs[todo[0]].done)), ok, now);
            |a.lists| == 2 && a.pend < 2 && Timely(a, timeout) && NoneOverdue(a, now)
  {
    var r, hand := todo[0], Ids(todo);
    assert r in hand && Served(s, r, ok);
    DrainEnter(s, hand, r, ok);
    hide Told, AllTold, Settled, RqLogged, Flushed, Ordered;
    CompleteSeqTimely(StageLogged(s, r, ok), hand, r, Bit(CurSeq(s.reqs[r].done)), ok, timeout, now);
  }

  lemma FlushEndTimely(s: State, ok: bool, timeout: nat, now: nat)
    requires Full(s) && s.pend != s.run && Timely(s, timeout)
    ensures InFlight(s)
    ensures var a := FlushEnd(s, ok, now); |a.lists| == 2 && a.pend < 2 && Timely(a, timeout) && NoneOverdue(a, now)
  {
    RunningList(s);
    FlushArrivedKeeps(s, ok);
    DrainTimely(FlushArrived(s, ok), s.lists[s.run], ok, timeout, now);
  }

  /** Steps that move a request through the sequencer; a request without flushes passes it by. */
  predicate Sequenced(st: Step) { st.Submit? ==> st.pol.pre || st.pol.post }

  lemma NextTimely(s: State, st: Step, s': State, timeout: nat)
    requires Full(s) && Next(s, st, s') && Timely(s, timeout)
    ensures |s'.lists| == 2 && s'.pend < 2 && Timely(s', timeout) && (Sequenced(st) ==> NoneOverdue(s', st.now))
  {
    hide Full, Timely, NoneOverdue, Insert, FlushEnd, DataEnd;
    match st
    case Submit(r, pol, now) => InsertTimely(s, r, pol, timeout, now);
    case FlushCompletes(ok, now) => FlushEndTimely(s, ok, timeout, now);
    case DataCompletes(r, ok, now) => DataEndTimely(s, r, ok, timeout, now);
  }

  /**
   The pending timeout, over every run: flush_pending_since is the time the oldest pending request
   joined; every flush that was issued was due, because no DATA was in flight or that request had
   waited for the timeout; and after every step of the sequencer no flush is overdue.
   */
  lemma {:induction false} RunTimely(tr: seq<State>, steps: seq<Step>, timeout: nat, k: nat)
    requires IsRun(tr, steps, timeout) && k < |tr|
    ensures |tr[k].lists| == 2 && tr[k].pend < 2 && Timely(tr[k], timeout)
    ensures k > 0 && Sequenced(steps[k - 1]) ==> NoneOverdue(tr[k], steps[k - 1].now)
  {
    hide Full, Next, NoneOverdue;
    if k > 0 {
      RunTimely(tr, steps, timeout, k - 1);
      RunIsLawful(tr, steps, timeout, k - 1);
      assert Next(tr[k - 1], steps[k - 1], tr[k - 1 + 1]);
      NextTimely(tr[k - 1], steps[k - 1], tr[k], timeout);
    }
  }

  /** Flushes issued and not yet completed. */
  function Outstanding(log: seq<Event>): int {
    if log == [] then 0
    else
      var n := |log| - 1;
      Outstanding(log[..n]) + (if log[n].FlushIssued? then 1 else if log[n].FlushDone? then -1 else 0)
  }

  lemma OutstandingExtend(log: seq<Event>, e: Event)
    ensures Outstanding(log + [e]) == Outstanding(log) + (if e.FlushIssued? then 1 else if e.FlushDone? then -1 else 0)
  {
    assert (log + [e])[..|log|] == log;
  }

  /** The single embedded flush request is out exactly while the two indices differ. */
  ghost predicate OneFlush(s: State) { s.pend < 2 && s.run < 2 && Outstanding(s.log) == if s.pend != s.run then 1 else 0 }

  lemma AdvanceOneFlush(s: State, r: Id, mask: Bits, ok: bool, now: nat)
    requires OneFlush(s) && r in s.reqs && |s.lists| == 2
    ensures OneFlush(Advance(s, r, mask, ok, now))
  {
    hide Outstanding;
    OutstandingExtend(s.log, DataQueued(r));
    OutstandingExtend(s.log, Ended(r, ok));
  }

  lemma CompleteSeqOneFlush(s: State, r: Id, mask: Bits, ok: bool, now: nat)
    requires OneFlush(s) && r in s.reqs && |s.lists| == 2
    ensures OneFlush(CompleteSeq(s, r, mask, ok, now))
  {
    hide Outstanding, Advance;
    AdvanceOneFlush(s, r, mask, ok, now);
    AdvanceShape(s, r, mask, ok, now);
    var a := Advance(s, r, mask, ok, now);
    OutstandingExtend(a.log, FlushIssued(a.flushes));
  }

  lemma AdvanceShape(s: State, r: Id, mask: Bits, ok: bool, now: nat)
    requires r in s.reqs && |s.lists| == 2 && s.pend < 2
    ensures var a := Advance(s, r, mask, ok, now); |a.lists| == 2 && a.pend == s.pend && a.run == s.run
  {
  }

  lemma {:induction false} DrainOneFlush(s: State, todo: seq<Id>, ok: bool, now: nat)
    requires OneFlush(s) && |s.lists| == 2 && NoRepeat(todo) && forall r :: r in todo ==> r in s.reqs
    ensures OneFlush(Drain(s, todo, ok, now))
    decreases |todo|
  {
    hide Outstanding, CompleteSeq;
    if todo != [] {
      var r := todo[0];
      var mask := Bit(CurSeq(s.reqs[r].done));
      OutstandingExtend(s.log, StageDone(r, CurSeq(s.reqs[r].done), ok));
      var l := StageLogged(s, r, ok);
      CompleteSeqOneFlush(l, r, mask, ok, now);
      CompleteShape(l, r, mask, ok, now);
      TailNoRepeat(todo);
      DrainOneFlush(CompleteSeq(l, r, mask, ok, now), todo[1..], ok, now);
    }
  }

  lemma CompleteShape(s: State, r: Id, mask: Bits, ok: bool, now: nat)
    requires r in s.reqs && |s.lists| == 2 && s.pend < 2
    ensures var a := CompleteSeq(s, r, mask, ok, now); |a.lists| == 2 && a.pend < 2 && forall x :: x in s.reqs && x != r ==> x in a.reqs
  {
  }

  lemma NextOneFlush(s: State, st: Step, s': State)
    requires OneFlush(s) && Next(s, st, s')
    ensures OneFlush(s')
  {
    hide Outstanding, CompleteSeq, Inv, Drain;
    match st
    case Submit(r, pol, now) =>
      var q := s.log + [Queued(r, pol)];
      OutstandingExtend(s.log, Queued(r, pol));
      OutstandingExtend(q, Ended(r, true));
      OutstandingExtend(q, Plain(r));
      if pol.pre || pol.post { CompleteSeqOneFlush(Arrive(s, r, pol), r, pol.Not(), true, now); }
    case FlushCompletes(ok, now) =>
      OutstandingExtend(s.log, FlushDone(s.flushes - 1, ok));
      DrainOneFlush(FlushArrived(s, ok), s.lists[s.run], ok, now);
    case DataCompletes(r, ok, now) =>
      OutstandingExtend(s.log, StageDone(r, Data, ok));
      CompleteSeqOneFlush(DataArrived(s, r, ok), r, Bit(Data), ok, now);
  }

  lemma {:induction false} RunOneFlush(tr: seq<State>, steps: seq<Step>, timeout: nat, k: nat)
    requires IsRun(tr, steps, timeout) && k < |tr|
    ensures OneFlush(tr[k])
  {
    if k > 0 {
      RunOneFlush(tr, steps, timeout, k - 1);
      assert Next(tr[k - 1], steps[k - 1], tr[k - 1 + 1]);
      NextOneFlush(tr[k - 1], steps[k - 1], tr[k]);
    }
  }

  /** What every state of every run promises, spelled out. */
  lemma RunPromises(tr: seq<State>, steps: seq<Step>, timeout: nat, k: nat, i: nat, r: Id)
    requires IsRun(tr, steps, timeout) && k < |tr|
    ensures var s := tr[k];
            && (At(s.log, i, DataQueued(r)) ==> DataLawful(s.log, r, i))
            && (At(s.log, i, Ended(r, true)) ==> EndLawful(s.log, r, i))
            && |s.lists| == 2 && s.pend < 2
            && (s.lists[s.pend] != [] ==> Outstanding(s.log) == 1 || s.data != {})
            && (r !in s.reqs ==> Over(Hist(s.log, r), r))
  {
    RunIsLawful(tr, steps, timeout, k);
    RunOneFlush(tr, steps, timeout, k);
    var s := tr[k];
    if i < |s.log| { assert Lawful(s.log, i); }
    assert Told(s, r);
    hide DataLawful, EndLawful, Hist, Over, Outstanding, Story;
  }

  /** Every time `r` was queued it was with the policy of a request with these flags on this device. */
  ghost predicate QueuedAs(log: seq<Event>, r: Id, pol: Bits) {
    forall a: nat, p {:trigger At(log, a, Queued(r, p))} :: At(log, a, Queued(r, p)) ==> p == pol
  }

  /**
   What REQ_FLUSH and REQ_FUA mean on a device with a volatile cache, in every run: the data of a
   FLUSH request is sent only after a flush issued after it was queued, and without FUA support a
   FUA request ends well only after a flush issued after its data was written.
   */
  lemma FlagsKept(tr: seq<State>, steps: seq<Step>, timeout: nat, k: nat, i: nat, r: Id, deviceFua: bool, flush: bool, fua: bool)
    requires IsRun(tr, steps, timeout) && k < |tr| && QueuedAs(tr[k].log, r, FlushPolicy(true, deviceFua, true, flush, fua))
    ensures At(tr[k].log, i, DataQueued(r)) && flush ==>
              exists a: nat, p {:trigger At(tr[k].log, a, Queued(r, p))} :: a < i && At(tr[k].log, a, Queued(r, p)) && Flushed(tr[k].log, a, i)
    ensures At(tr[k].log, i, Ended(r, true)) && fua && !deviceFua ==>
              exists a: nat, d: nat {:trigger Written(tr[k].log, r, a, d)} :: d < i && Written(tr[k].log, r, a, d) && Flushed(tr[k].log, d, i)
  {
    hide IsRun, Flushed;
    RunPromises(tr, steps, timeout, k, i, r);
    var log := tr[k].log;
    if At(log, i, DataQueued(r)) && flush {
      var a: nat, p :| a < i && At(log, a, Queued(r, p)) && Clean(log, p, a, i);
      assert Flushed(log, a, i);
    }
    if At(log, i, Ended(r, true)) && fua && !deviceFua {
      var a: nat, p :| a < i && At(log, a, Queued(r, p)) && Durable(log, r, p, a, i);
      var d: nat :| d < i && Written(log, r, a, d) && (p.post ==> Flushed(log, d, i));
    }
  }

  /** Without a cache nothing is flushed, and FUA support spares the flush behind the data. */
  lemma FlagsSpared(cached: bool, deviceFua: bool, hasData: bool, flush: bool, fua: bool)
    ensures var pol := FlushPolicy(cached, deviceFua, hasData, flush, fua);
            && (!cached || (!flush && (!fua || deviceFua)) <==> !pol.pre && !pol.post)
            && (pol.post ==> cached && fua && !deviceFua) && (pol.pre ==> cached && flush) && (pol.data <==> hasData)
  {
  }

  // ---------------------------------------------------------------- the code

  /** Between the two logs a flush was issued or DATA was sent: something was added to the dispatch queue. */
  ghost predicate Sends(log: seq<Event>, log': seq<Event>) {
    exists i :: |log| <= i < |log'| && (log'[i].FlushIssued? || log'[i].DataQueued?)
  }

  lemma SendsMore(a: seq<Event>, b: seq<Event>, c: seq<Event>)
    requires a <= b <= c
    ensures a <= c && (Sends(a, c) <==> Sends(a, b) || Sends(b, c))
  {
    if Sends(a, b) {
      var i :| |a| <= i < |b| && (b[i].FlushIssued? || b[i].DataQueued?);
      assert c[i] == b[i];
    }
  }

  lemma SendsOne(a: seq<Event>, e: Event)
    ensures a <= a + [e] && (Sends(a, a + [e]) <==> e.FlushIssued? || e.DataQueued?) && !Sends(a, a)
  {
    assert (a + [e])[|a|] == e;
  }

  lemma {:induction false} WithoutAbsent(l: seq<Id>, r: Id)
    requires r !in l
    ensures Without(l, r) == l
  {
    if l != [] { WithoutAbsent(l[1..], r); }
  }

  /** The state with `r` off whatever list it was on. */
  ghost function Unlinked(s: State, r: Id): State
    requires |s.lists| == 2
  {
    s.(lists := [Without(s.lists[0], r), Without(s.lists[1], r)], data := s.data - {r})
  }

  /** The stage a request enters once `mask` is completed. */
  function NextStage(done: Bits, mask: Bits, ok: bool): Stage { if ok then CurSeq(done.Or(mask)) else Done }

  /** A request without data carries only REQ_FLUSH: it never asks for two flushes in a row. */
  predicate Proper(pol: Bits) { pol.data || !(pol.pre && pol.post) }

  /** With that, completing a flush never sends a request back to a flush list. */
  lemma FlushLeaves(pol: Bits, done: Bits, ok: bool)
    requires Proper(pol) && Sequential(pol, done) && (CurSeq(done) == Pre || CurSeq(done) == Post)
    ensures NextStage(done, Bit(CurSeq(done)), ok) == Data || NextStage(done, Bit(CurSeq(done)), ok) == Done
  {
  }

  /** On every device, exactly the requests that do not ask for both FLUSH and FUA without data get such a policy. */
  lemma PolicyProper(hasData: bool, flush: bool, fua: bool)
    ensures (forall cached, deviceFua :: Proper(FlushPolicy(cached, deviceFua, hasData, flush, fua))) <==> hasData || !(flush && fua)
  {
    if !hasData && flush && fua { assert !Proper(FlushPolicy(true, false, hasData, flush, fua)); }
  }

  /** Completing any flush stage of a request with this policy leaves the flush lists. */
  ghost predicate LeavesLists(pol: Bits) {
    forall done, ok {:trigger NextStage(done, Bit(CurSeq(done)), ok)} ::
      Sequential(pol, done) && (CurSeq(done) == Pre || CurSeq(done) == Post) ==>
        NextStage(done, Bit(CurSeq(done)), ok) == Data || NextStage(done, Bit(CurSeq(done)), ok) == Done
  }

  /** And without it some completion does: the assumption is exactly what the completion loop needs. */
  lemma ProperExactly(pol: Bits)
    ensures Proper(pol) <==> LeavesLists(pol)
  {
    if Proper(pol) {
      forall done, ok | Sequential(pol, done) && (CurSeq(done) == Pre || CurSeq(done) == Post)
        ensures NextStage(done, Bit(CurSeq(done)), ok) == Data || NextStage(done, Bit(CurSeq(done)), ok) == Done
      {
        FlushLeaves(pol, done, ok);
      }
    } else {
      var done := Bits(false, true, false);
      assert Sequential(pol, done) && NextStage(done, Bit(CurSeq(done)), true) == Post;
    }
  }

  /** While list `R` is being completed, what is still on it does not influence the steps of the others. */
  lemma IgnoresRest(s: State, R: nat, r: Id, mask: Bits, ok: bool, now: nat)
    requires |s.lists| == 2 && s.pend < 2 && R < 2 && s.run == 1 - R && r in s.reqs
    requires NextStage(s.reqs[r].done, mask, ok) == Data || NextStage(s.reqs[r].done, mask, ok) == Done
    ensures var s', rest := CompleteSeq(s, r, mask, ok, now), s.lists[R];
            s'.lists == s.lists && s'.run == s.run
            && s'.(lists := s.lists[R := []]) == CompleteSeq(s.(lists := s.lists[R := []]), r, mask, ok, now)
  {
  }

  /** rq->flush.seq of the requests in the machinery. */
  ghost function Seqs(reqs: map<Id, Rq>): (m: map<Id, Bits>)
    ensures m.Keys == reqs.Keys
  {
    map r | r in reqs :: reqs[r].done
  }

  lemma SeqsUpdate(reqs: map<Id, Rq>, r: Id, q: Rq)
    ensures Seqs(reqs[r := q]) == Seqs(reqs)[r := q.done]
    ensures Seqs(reqs - {r}) == Seqs(reqs) - {r}
    ensures r in reqs ==> Seqs(reqs)[r] == reqs[r].done
  {
  }

  class RequestQueue {
    /** rq->flush.seq of every request in the machinery. */
    var fseq: map<Id, Bits>
    /** flush_queue[2], flush_data_in_flight, flush_pending_idx, flush_running_idx, flush_pending_since. */
    var lists: seq<seq<Id>>
    var data: set<Id>
    var pend: nat
    var run: nat
    var since: nat
    const timeout: nat
    /** The same state with its history. */
    ghost var st: State

    ghost predicate Stored()
      reads this
    {
      && |lists| == 2 && pend < 2 && run < 2
      && st.lists == lists && st.data == data && st.pend == pend && st.run == run && st.since == since && st.timeout == timeout
      && fseq == Seqs(st.reqs)
    }

    ghost predicate Valid()
      reads this
    {
      Stored() && Full(st) && AllProper(st)
    }

    constructor (timeout: nat)
      ensures Valid() && st == Init(timeout)
    {
      fseq, lists, data, pend, run, since := map[], [[], []], {}, 0, 0, 0;
      this.timeout := timeout;
      st := Init(timeout);
      InitFull(timeout);
    }

    /** blk_kick_flush. */
    method KickFlush(now: nat) returns (issued: bool)
      requires Stored()
      modifies this
      ensures Stored() && st == Kick(old(st), now) && fseq == old(fseq)
      ensures issued <==> pend != old(pend)
      ensures old(st.log) <= st.log && (issued <==> Sends(old(st.log), st.log))
    {
      SendsOne(st.log, FlushIssued(st.flushes));
      st := Kick(st, now);
      if pend != run || lists[pend] == [] { return false; }
      if data != {} && now < since + timeout { return false; }
      pend := 1 - pend;
      return true;
    }

    /** list_del of a request from whatever list it is on. */
    method Unlink(r: Id)
      requires Stored()
      modifies this
      ensures Stored() && st == Unlinked(old(st), r) && fseq == old(fseq) && pend == old(pend)
    {
      st := Unlinked(st, r);
      lists, data := [Without(lists[0], r), Without(lists[1], r)], data - {r};
    }

    /** The switch of blk_flush_complete_seq; the precondition on `mask` is its BUG_ON. */
    method NextStep(r: Id, mask: Bits, ok: bool, now: nat) returns (next: Stage)
      requires Stored() && r in fseq && fseq[r].Disjoint(mask)
      requires r in lists[pend] ==> NextStage(fseq[r], mask, ok) == Data || NextStage(fseq[r], mask, ok) == Done
      modifies this
      ensures Stored() && st == Advance(Unlinked(old(st), r), r, mask, ok, now)
      ensures next == NextStage(old(fseq)[r], mask, ok)
      ensures old(st.log) <= st.log && (next == Data <==> Sends(old(st.log), st.log))
    {
      hide Without, Seqs, Sends;
      SendsOne(st.log, DataQueued(r));
      SendsOne(st.log, Ended(r, ok));
      var done := fseq[r].Or(mask);
      SeqsUpdate(st.reqs, r, st.reqs[r].(done := done));
      SeqsUpdate(st.reqs, r, st.reqs[r].(done := done, joined := now));
      next := if ok then CurSeq(done) else Done;
      if r !in lists[pend] { WithoutAbsent(lists[pend], r); }
      var wasEmpty := lists[pend] == [];
      Unlink(r);
      st := Advance(st, r, mask, ok, now);
      match next {
        case Data =>
          fseq, data := fseq[r := done], data + {r};
        case Done =>
          fseq := fseq - {r};
        case _ =>
          if wasEmpty { since := now; }
          fseq, lists := fseq[r := done], lists[pend := lists[pend] + [r]];
      }
    }

    /** blk_flush_complete_seq. */
    method CompleteSeq(r: Id, mask: Bits, ok: bool, now: nat) returns (queued: bool)
      requires Stored() && r in fseq && fseq[r].Disjoint(mask)
      requires r in lists[pend] ==> NextStage(fseq[r], mask, ok) == Data || NextStage(fseq[r], mask, ok) == Done
      modifies this
      ensures Stored() && st == CompleteLinked(old(st), r, mask, ok, now)
      ensures old(st.log) <= st.log && (queued <==> Sends(old(st.log), st.log))
    {
      hide Advance, Unlinked, Kick, Sends;
      ghost var log0 := st.log;
      var next := NextStep(r, mask, ok, now);
      ghost var log1 := st.log;
      var issued := KickFlush(now);
      SendsMore(log0, log1, st.log);
      return issued || next == Data;
    }

    /** blk_insert_flush. */
    method InsertFlush(r: Id, pol: Bits, now: nat)
      requires Valid() && r !in st.reqs && Hist(st.log, r) == [] && Proper(pol)
      modifies this
      ensures Valid() && st == Insert(old(st), r, pol, now)
    {
      hide Full, CompleteLinked, AllProper, Seqs, Kick, Advance, Sends, Inv, Hist;
      InsertKeeps(st, r, pol, now);
      InsertFacts(st, r);
      InsertProper(st, r, pol, now);
      if pol == NoBits || (!pol.pre && !pol.post) {
        st := Insert(st, r, pol, now);
        return;
      }
      SeqsUpdate(st.reqs, r, Rq(pol, NoBits, |st.log|, 0, 0));
      fseq := fseq[r := NoBits];
      st := Arrive(st, r, pol);
      SeqsUpdate(st.reqs, r, st.reqs[r]);
      OffLists(st, r, pol.Not(), true, now);
      var _ := CompleteSeq(r, pol.Not(), true, now);
    }

    /** flush_data_end_io. */
    method DataEndIo(r: Id, ok: bool, now: nat) returns (queued: bool)
      requires Valid() && r in data
      modifies this
      ensures Valid() && r in old(st).reqs && st == DataEnd(old(st), r, ok, now)
      ensures queued <==> Sends(old(st.log), st.log)
    {
      hide Full, CompleteLinked, RqPlaced, Seqs, Kick, Advance, AllProper, Sends;
      ghost var log0 := st.log;
      SendsOne(log0, StageDone(r, Data, ok));
      DataEndFacts(st, r, ok, now);
      assert DataArrived(st.(data := st.data - {r}), r, ok) == DataArrived(st, r, ok);
      data := data - {r};
      SeqsUpdate(st.reqs, r, st.reqs[r].(dAt := |st.log|));
      st := DataArrived(st, r, ok);
      OffLists(st, r, Bit(Data), ok, now);
      ghost var log1 := st.log;
      queued := CompleteSeq(r, Bit(Data), ok, now);
      SendsMore(log0, log1, st.log);
    }

    /** One round of the loop of flush_end_io over the list it is completing. */
    method CompleteFirst(R: nat, ok: bool, now: nat) returns (queued: bool)
      requires Stored() && R < 2 && lists[R] != [] && Draining(st, R, ok)
      modifies this
      ensures Stored() && lists[R] == old(lists[R])[1..] && st == FirstDone(old(st), R, ok, now)
      ensures old(st.log) <= st.log && (queued <==> Sends(old(st.log), st.log))
    {
      hide Draining, Seqs, CompleteLinked, Kick, Advance, Sends;
      ghost var log0 := st.log;
      var r := lists[R][0];
      DrainRound(st, R, ok, now);
      ServedFirst(st, R, ok);
      SeqsUpdate(st.reqs, r, st.reqs[r]);
      var seqNow := CurSeq(fseq[r]);
      assert seqNow == Pre || seqNow == Post;  // BUG_ON
      st := StageLogged(st, r, ok);
      SendsOne(log0, StageDone(r, seqNow, ok));
      ghost var log1 := st.log;
      queued := CompleteSeq(r, Bit(seqNow), ok, now);
      SendsMore(log0, log1, st.log);
    }

    method CompleteRound(R: nat, ok: bool, now: nat, ghost goal: State) returns (queued: bool)
      requires Stored() && R < 2 && lists[R] != [] && Toward(st, R, ok, now, goal)
      modifies this
      ensures Stored() && lists[R] == old(lists[R])[1..] && Toward(st, R, ok, now, goal)
      ensures old(st.log) <= st.log && (queued <==> Sends(old(st.log), st.log))
    {
      hide Draining, Seqs, FirstDone, Sends;
      DrainingNext(st, R, ok, now);
      queued := CompleteFirst(R, ok, now);
    }

    /**
     flush_end_io.  Each round moves its request off the list, so the entry that
     list_for_each_entry_safe saved as next is the new head.
     */
    method FlushEndIo(ok: bool, now: nat) returns (queued: bool)
      requires Valid() && pend != run
      modifies this
      ensures Valid() && InFlight(old(st)) && st == FlushEnd(old(st), ok, now)
      ensures queued <==> Sends(old(st.log), st.log)
    {
      hide Full, Toward, Seqs, Inv, AllProper, Drain, Sends;
      ghost var log0 := st.log;
      queued := false;
      FlushEndFacts(st, ok, now);
      SendsOne(log0, FlushDone(st.flushes - 1, ok));
      var R := run;
      ghost var goal := FlushEnd(st, ok, now);
      st := st.(run := 1 - run, log := st.log + [FlushDone(st.flushes - 1, ok)]);
      run := 1 - run;
      while lists[R] != []
        invariant Stored() && R < 2 && Toward(st, R, ok, now, goal)
        invariant log0 <= st.log && (queued <==> Sends(log0, st.log))
        decreases |lists[R]|
      {
        ghost var log1 := st.log;
        var more := CompleteRound(R, ok, now, goal);
        SendsMore(log0, log1, st.log);
        queued := queued || more;
      }
      DrainedAll(st, R, ok, now, goal);
    }
  }

  /** The rounds still to come on list `R` lead to `goal`. */
  ghost predicate Toward(s: State, R: nat, ok: bool, now: nat, goal: State) {
    && Draining(s, R, ok) && NoRepeat(s.lists[R]) && (forall x :: x in s.lists[R] ==> x in s.reqs)
    && Drain(TakenOff(s, R), s.lists[R], ok, now) == goal
  }

  ghost function FirstDone(s: State, R: nat, ok: bool, now: nat): State
    requires Draining(s, R, ok) && s.lists[R] != []
  {
    ServedFirst(s, R, ok);
    var r := s.lists[R][0];
    CompleteLinked(StageLogged(s, r, ok), r, Bit(CurSeq(s.reqs[r].done)), ok, now)
  }

  lemma FlushEndFacts(s: State, ok: bool, now: nat)
    requires Full(s) && AllProper(s) && s.pend != s.run
    ensures InFlight(s) && Full(FlushEnd(s, ok, now))
    ensures Toward(s.(run := 1 - s.run, log := s.log + [FlushDone(s.flushes - 1, ok)]), s.run, ok, now, FlushEnd(s, ok, now))
  {
    FlushEndKeeps(s, ok, now);
    DrainingStart(s, ok);
    HandLive(s, {});
  }

  lemma DrainingStart(s: State, ok: bool)
    requires Full(s) && AllProper(s) && s.pend != s.run
    ensures var s1 := s.(run := 1 - s.run, log := s.log + [FlushDone(s.flushes - 1, ok)]);
            Draining(s1, s.run, ok) && TakenOff(s1, s.run) == FlushArrived(s, ok)
  {
    FlushArrivedKeeps(s, ok);
  }

  lemma ServedFirst(s: State, R: nat, ok: bool)
    requires Draining(s, R, ok) && s.lists[R] != []
    ensures s.lists[R][0] in s.reqs && (CurSeq(s.reqs[s.lists[R][0]].done) == Pre || CurSeq(s.reqs[s.lists[R][0]].done) == Post)
  {
    assert Served(TakenOff(s, R), s.lists[R][0], ok);
  }

  lemma DrainedAll(s: State, R: nat, ok: bool, now: nat, goal: State)
    requires Toward(s, R, ok, now, goal) && s.lists[R] == []
    ensures s == goal && AllProper(s)
  {
    assert s.lists[R := []] == s.lists;
  }

  lemma DrainingNext(s: State, R: nat, ok: bool, now: nat)
    requires Draining(s, R, ok) && s.lists[R] != []
    ensures forall x :: x in s.lists[R] ==> x in s.reqs
    ensures var s' := FirstDone(s, R, ok, now);
            Draining(s', R, ok) && s'.lists[R] == s.lists[R][1..] && (forall x :: x in s'.lists[R] ==> x in s'.reqs)
            && Drain(TakenOff(s', R), s'.lists[R], ok, now) == Drain(TakenOff(s, R), s.lists[R], ok, now)
  {
    DrainRound(s, R, ok, now);
    DrainStep(TakenOff(s, R), s.lists[R], ok, now);
    assert forall x :: x in s.lists[R] ==> x in Ids(s.lists[R]);
    var s' := FirstDone(s, R, ok, now);
    assert forall x :: x in s'.lists[R] ==> x in Ids(s'.lists[R]);
  }

  /** The loop state of flush_end_io as the specification sees it: the running list is taken off beforehand. */
  ghost function TakenOff(s: State, R: nat): State
    requires |s.lists| == 2 && R < 2
  {
    s.(lists := s.lists[R := []])
  }

  /** What holds at the head of that loop. */
  ghost predicate Draining(s: State, R: nat, ok: bool) {
    && |s.lists| == 2 && R < 2 && s.run == 1 - R && s.pend < 2
    && NoRepeat(s.lists[R]) && Inv(TakenOff(s, R), Ids(s.lists[R]))
    && AllTold(TakenOff(s, R), {}) && AllServed(TakenOff(s, R), s.lists[R], ok) && AllProper(s)
  }

  /** One round of the loop on the real lists is one round of the specification's. */
  lemma DrainRound(s: State, R: nat, ok: bool, now: nat)
    requires Draining(s, R, ok) && s.lists[R] != []
    ensures var r := s.lists[R][0];
            && r in s.reqs && r !in s.lists[1 - R] && r !in s.data
            && var mask := Bit(CurSeq(s.reqs[r].done));
            && (NextStage(s.reqs[r].done, mask, ok) == Data || NextStage(s.reqs[r].done, mask, ok) == Done)
            && var s' := CompleteLinked(StageLogged(s, r, ok), r, mask, ok, now);
            && s'.lists[R] == s.lists[R][1..] && s'.run == s.run && |s'.lists| == 2
            && TakenOff(s', R) == CompleteSeq(StageLogged(TakenOff(s, R), r, ok), r, mask, ok, now)
            && AllProper(s')
  {
    var r, todo := s.lists[R][0], s.lists[R];
    var a := TakenOff(s, R);
    assert r in Ids(todo) && Served(a, r, ok) && Told(a, r);
    OnNoList(a, Ids(todo), r);
    var q := s.reqs[r];
    assert Proper(q.pol) && Sequential(q.pol, q.done);
    assert r !in s.lists[1 - R] && r !in s.data;
    hide Inv, AllTold, AllServed, Served, Told, NoRepeat, Ids;
    FlushLeaves(q.pol, q.done, ok);
    RoundLinked(StageLogged(s, r, ok), R, Bit(CurSeq(q.done)), ok, now);
  }

  lemma RoundLinked(c: State, R: nat, mask: Bits, ok: bool, now: nat)
    requires |c.lists| == 2 && c.pend < 2 && R < 2 && c.run == 1 - R && c.lists[R] != [] && AllProper(c)
    requires var r := c.lists[R][0]; r in c.reqs && r !in c.lists[1 - R] && r !in c.data
    requires var n := NextStage(c.reqs[c.lists[R][0]].done, mask, ok); n == Data || n == Done
    ensures var r := c.lists[R][0];
            var s' := CompleteLinked(c, r, mask, ok, now);
            && s'.lists == c.lists[R := c.lists[R][1..]] && s'.run == c.run && AllProper(s')
            && TakenOff(s', R) == CompleteSeq(TakenOff(c, R), r, mask, ok, now)
  {
    var r := c.lists[R][0];
    WithoutAbsent(c.lists[1 - R], r);
    var u := c.(lists := c.lists[R := c.lists[R][1..]]);
    assert Unlinked(c, r) == u by { assert c.data - {r} == c.data; }
    IgnoresRest(u, R, r, mask, ok, now);
    CompletePol(u, r, mask, ok, now);
    assert u.lists[R := []] == c.lists[R := []];
  }

  lemma DataEndFacts(s: State, r: Id, ok: bool, now: nat)
    requires Full(s) && AllProper(s) && r in s.data
    ensures r in s.reqs && |s.lists| == 2 && s.pend < 2 && CurSeq(s.reqs[r].done) == Data && r !in s.lists[0] && r !in s.lists[1]
    ensures Full(DataEnd(s, r, ok, now)) && AllProper(DataEnd(s, r, ok, now))
  {
    DataEndKeeps(s, r, ok, now);
    assert RqPlaced(s, r);
    OnNoList(s, {}, r);
    CompletePol(DataArrived(s, r, ok), r, Bit(Data), ok, now);
  }

  ghost predicate AllProper(s: State) { forall r :: r in s.reqs ==> Proper(s.reqs[r].pol) }

  lemma InsertFacts(s: State, r: Id)
    requires Full(s) && r !in s.reqs
    ensures r !in s.lists[0] && r !in s.lists[1] && r !in s.data
  {
    OnNoList(s, {}, r);
  }

  lemma InsertProper(s: State, r: Id, pol: Bits, now: nat)
    requires |s.lists| == 2 && s.pend < 2 && AllProper(s) && Proper(pol)
    ensures AllProper(Insert(s, r, pol, now))
  {
    CompletePol(Arrive(s, r, pol), r, pol.Not(), true, now);
  }

  /** For a request that is on no list there is nothing to unlink. */
  lemma OffLists(s: State, r: Id, mask: Bits, ok: bool, now: nat)
    requires r in s.reqs && |s.lists| == 2 && s.pend < 2
    requires r !in s.lists[0] && r !in s.lists[1] && r !in s.data
    ensures CompleteLinked(s, r, mask, ok, now) == CompleteSeq(s, r, mask, ok, now)
  {
    WithoutAbsent(s.lists[0], r);
    WithoutAbsent(s.lists[1], r);
    assert [s.lists[0], s.lists[1]] == s.lists && s.data - {r} == s.data;
    assert Unlinked(s, r) == s;
  }

  ghost function CompleteLinked(s: State, r: Id, mask: Bits, ok: bool, now: nat): State
    requires r in s.reqs && |s.lists| == 2 && s.pend < 2
  {
    CompleteSeq(Unlinked(s, r), r, mask, ok, now)
  }

  lemma OnNoList(s: State, hand: set<Id>, r: Id)
    requires Placed(s, hand) && (r !in s.reqs || r in s.data || r in hand)
    ensures r !in s.lists[0] && r !in s.lists[1] && (r !in s.reqs || r in hand ==> r !in s.data)
  {
    assert r !in Ids(s.lists[0]) && r !in Ids(s.lists[1]);
  }

  /** No step invents a request or changes a policy. */
  lemma CompletePol(s: State, r: Id, mask: Bits, ok: bool, now: nat)
    requires r in s.reqs && |s.lists| == 2 && s.pend < 2
    ensures var s' := CompleteSeq(s, r, mask, ok, now);
            forall x :: x in s'.reqs ==> x in s.reqs && s'.reqs[x].pol == s.reqs[x].pol
  {
  }
}
