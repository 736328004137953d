/**
 Queued bios, the service tree and the dispatch loop of block throttling
 (blk-throttle.c).

 A Lane is one direction of a group.  Its `arrived` and `left` sequences are
 history: every bio submitted to the lane and every bio it has let through.
 */
module ThrottleQueue {
  import opened Arithmetic
  import opened Lists
  import opened Wrappers
  import opened ThrottleSlice

  const GRP_QUANTUM: nat := 8
  const QUANTUM: nat := 32
  const MAX_READS: nat := GRP_QUANTUM * 3 / 4
  const MAX_WRITES: nat := GRP_QUANTUM - MAX_READS

  type TgId = nat

  datatype Bio = Bio(id: nat, size: nat)

  /** `g.d` is the slice; the rest of `g` and `open` (a slice was ever started) account for what was sent. */
  datatype Lane = Lane(lim: Limits, open: bool, g: Ledger, list: seq<Bio>, nr: int, arrived: seq<Bio>, left: seq<Bio>)

  /** throtl_grp; `created` says that the creation reference is still held. */
  datatype Tg = Tg(disptime: nat, r: Lane, w: Lane, ref: int, created: bool, onTree: bool) {
    function Of(write: bool): Lane { if write then w else r }
    function With(write: bool, l: Lane): Tg { if write then this.(w := l) else this.(r := l) }
    function Queued(): nat { |r.list| + |w.list| }
  }

  // ---------------------------------------------------------------- one lane

  function Opened(c: Clock, l: Lane, now: nat): Ledger
    requires c.Valid()
  {
    if l.open then l.g
    else
      var s0 := Renewed(c, FreshDir, now).start;
      Ledger(FreshDir, 0, 0, s0, s0)
  }

  /** tg_may_dispatch for a bio of this lane, with the slice changes it makes. */
  function Asked(c: Clock, l: Lane, size: nat, now: nat): Lane
    requires c.Valid() && l.lim.Valid()
  {
    l.(open := true, g := Step(c, l.lim, Opened(c, l, now), Op(now, size, false)))
  }

  function Judge(c: Clock, l: Lane, size: nat, now: nat): ThrottleSlice.Verdict
    requires c.Valid() && l.lim.Valid()
  {
    MayDispatch(c, l.lim, Opened(c, l, now).d, size, now).v
  }

  /** An admitted bio is charged. */
  function Let(c: Clock, l: Lane, b: Bio, now: nat): Lane
    requires c.Valid() && l.lim.Valid()
  {
    l.(open := true, g := Step(c, l.lim, Opened(c, l, now), Op(now, b.size, true)), left := l.left + [b])
  }

  function Bytes(bs: seq<Bio>): nat { if bs == [] then 0 else Bytes(bs[..|bs| - 1]) + bs[|bs| - 1].size }

  lemma BytesMore(bs: seq<Bio>, b: Bio)
    ensures Bytes(bs + [b]) == Bytes(bs) + b.size
  {
    assert (bs + [b])[..|bs|] == bs;
  }

  /**
   An invariant of one direction at time `now`: the counter agrees with the list,
   bios leave in arrival order, and the ledger, whose account is Sound, records
   exactly what left.  A direction without rules never queues.
   */
  ghost predicate LaneOk(c: Clock, l: Lane, now: nat) {
    && l.lim.Valid()
    && l.nr == |l.list|
    && l.arrived == l.left + l.list
    && (l.lim.NoRule() ==> l.list == [])
    && (l.open && !l.lim.NoRule() ==> Sound(c, l.lim, l.g, now))
    && (!l.open ==> l.g.d == FreshDir)
    && (!l.lim.NoRule() ==> if l.open then l.g.bytes == Bytes(l.left) && l.g.ios == |l.left| else l.left == [])
  }

  lemma OpenedSound(c: Clock, l: Lane, now: nat, now': nat, op: Op)
    requires c.Valid() && LaneOk(c, l, now) && now <= now' && op.now == now' && !l.lim.NoRule()
    ensures Sound(c, l.lim, Step(c, l.lim, Opened(c, l, now'), op), now')
  {
    if l.open {
      StepSound(c, l.lim, l.g, now, op);
    } else {
      PlaySound(c, l.lim, [op]);
      assert Play(c, l.lim, [op]) == Step(c, l.lim, Opened(c, l, now'), op);
    }
  }

  lemma AskedOk(c: Clock, l: Lane, size: nat, now: nat, now': nat)
    requires c.Valid() && LaneOk(c, l, now) && now <= now'
    ensures LaneOk(c, Asked(c, l, size, now'), now')
  {
    if !l.lim.NoRule() { OpenedSound(c, l, now, now', Op(now', size, false)); }
  }

  /** Time passing changes nothing. */
  lemma LaneOkLater(c: Clock, l: Lane, now: nat, now': nat)
    requires LaneOk(c, l, now) && now <= now'
    ensures LaneOk(c, l, now')
  {
  }

  /** A refused head stays refused however often it is asked at the same time, and has to wait at least one jiffy. */
  lemma AskedAgain(c: Clock, l: Lane, size: nat, now: nat)
    requires c.Valid() && l.lim.Valid() && !Judge(c, l, size, now).ok
    ensures var l' := Asked(c, l, size, now);
            Judge(c, l', size, now) == Judge(c, l, size, now) && Judge(c, l', size, now).wait >= 1
  {
    RefusalStable(c, l.lim, Opened(c, l, now).d, size, now);
  }

  lemma LetOk(c: Clock, l: Lane, now: nat)
    requires c.Valid() && LaneOk(c, l, now) && l.list != [] && Judge(c, l, l.list[0].size, now).ok
    ensures LaneOk(c, Let(c, l, l.list[0], now).(list := l.list[1..], nr := l.nr - 1), now)
  {
    var b := l.list[0];
    assert l.list == [b] + l.list[1..];
    assert l.left + l.list == (l.left + [b]) + l.list[1..];
    BytesMore(l.left, b);
    if !l.lim.NoRule() { OpenedSound(c, l, now, now, Op(now, b.size, true)); }
  }

  /**
   In every valid state of a device, the bios one direction of a group has let
   through from its first slice start S0 to any later time obey both limits.
   */
  lemma DeviceRate(c: Clock, d: Device, g: TgId, write: bool, now: nat, t: nat)
    requires DeviceOk(c, d, now, {}) && g in d.groups && now <= t
    ensures c.Valid()
    ensures var l := d.groups[g].Of(write);
            l.open ==>
              && (l.lim.bps.Some? ==> l.g.s0 <= t && Bytes(l.left) <= Scale(l.lim.bps.value, t - l.g.s0 + c.slice, c.hz))
              && (l.lim.iops.Some? ==> l.g.s0 <= t && |l.left| <= Scale(l.lim.iops.value, t - l.g.s0 + c.slice, c.hz))
  {
    InDevice(c, d, g, now, {});
    var l := d.groups[g].Of(write);
    if l.open && !l.lim.NoRule() { SoundRate(c, l.lim, l.g, now, t); }
    hide Scale, Bytes, DeviceOk, Sound;
  }

  /** `l'` is the lane `l` after its `n` oldest bios were let through. */
  ghost predicate Served(c: Clock, l: Lane, l': Lane, n: nat, now: nat) {
    && LaneOk(c, l', now) && l'.lim == l.lim && l'.arrived == l.arrived && l.lim.Valid()
    && n <= |l.list| && l'.list == l.list[n..] && l'.left == l.left + l.list[..n]
  }

  lemma ServedNone(c: Clock, l: Lane, now: nat)
    requires LaneOk(c, l, now)
    ensures Served(c, l, l, 0, now)
  {
    assert l.list[0..] == l.list && l.left + l.list[..0] == l.left;
  }

  lemma ServedMore(c: Clock, l: Lane, l': Lane, n: nat, now: nat)
    requires c.Valid() && Served(c, l, l', n, now) && l'.list != [] && Judge(c, l', l'.list[0].size, now).ok
    ensures n < |l.list| && Served(c, l, Let(c, l', l'.list[0], now).(list := l'.list[1..], nr := l'.nr - 1), n + 1, now)
  {
    hide LaneOk, Judge, Step;
    LetOk(c, l', now);
    assert l.list[..n + 1] == l.list[..n] + [l'.list[0]];
    assert l'.left + [l'.list[0]] == l.left + l.list[..n + 1];
  }

  lemma ServedRefused(c: Clock, l: Lane, l': Lane, n: nat, now: nat)
    requires c.Valid() && Served(c, l, l', n, now) && l'.list != [] && !Judge(c, l', l'.list[0].size, now).ok
    ensures var a := Asked(c, l', l'.list[0].size, now);
            Served(c, l, a, n, now) && a.list == l'.list && !Judge(c, a, a.list[0].size, now).ok
  {
    hide LaneOk, Judge, Step;
    AskedOkHere(c, l', l'.list[0].size, now);
    AskedAgain(c, l', l'.list[0].size, now);
  }

  /**
   One of the two loops of throtl_dispatch_tg: let bios of a lane through, oldest
   first, until `max` are out, none is left, or the head is refused.  `total` is the
   device's count of this direction, which every bio let through takes down by one.
   */
  method DispatchLane(c: Clock, l: Lane, max: nat, total: int, now: nat) returns (l': Lane, n: nat, total': int)
    requires c.Valid() && LaneOk(c, l, now) && max > 0 && total >= |l.list|
    ensures Served(c, l, l', n, now) && n <= max && total' == total - n
    ensures n < max && l'.list != [] ==> !Judge(c, l', l'.list[0].size, now).ok
  {
    hide LaneOk, Judge, Asked, Let;
    l', n, total' := l, 0, total;
    ServedNone(c, l, now);
    while l'.list != []
      invariant Served(c, l, l', n, now) && n < max && total' == total - n
      decreases |l'.list|
    {
      var b := l'.list[0];
      if !Judge(c, l', b.size, now).ok {
        ServedRefused(c, l, l', n, now);
        l' := Asked(c, l', b.size, now);
        return;
      }
      ServedMore(c, l, l', n, now);
      assert total' > 0;
      total' := total' - 1;
      l' := Let(c, l', b, now).(list := l'.list[1..], nr := l'.nr - 1);
      n := n + 1;
      if n >= max { return; }
    }
  }

  lemma AskedOkHere(c: Clock, l: Lane, size: nat, now: nat)
    requires c.Valid() && LaneOk(c, l, now)
    ensures l.lim.Valid() && LaneOk(c, Asked(c, l, size, now), now)
  {
    AskedOk(c, l, size, now, now);
  }

  // ---------------------------------------------------------------- one group

  ghost predicate TgOk(c: Clock, t: Tg, now: nat) {
    && LaneOk(c, t.r, now) && LaneOk(c, t.w, now)
    && t.ref == (if t.created then 1 else 0) + t.Queued()
  }

  /** throtl_dispatch_tg: at most six reads, then at most two writes. */
  method DispatchTg(c: Clock, t: Tg, totR: int, totW: int, now: nat) returns (t': Tg, n: nat, k: nat, totR': int, totW': int)
    requires c.Valid() && TgOk(c, t, now) && totR >= |t.r.list| && totW >= |t.w.list|
    ensures TgOk(c, t', now) && n <= 6 && k <= 2 && totR' == totR - n && totW' == totW - k
    ensures n <= |t.r.list| && t'.r.list == t.r.list[n..] && t'.r.left == t.r.left + t.r.list[..n] && t'.r.arrived == t.r.arrived
    ensures k <= |t.w.list| && t'.w.list == t.w.list[k..] && t'.w.left == t.w.left + t.w.list[..k] && t'.w.arrived == t.w.arrived
    ensures t'.r.lim == t.r.lim && t'.w.lim == t.w.lim
    ensures t' == t.(r := t'.r, w := t'.w, ref := t.ref - n - k)
    ensures n < 6 && t'.r.list != [] ==> !Judge(c, t'.r, t'.r.list[0].size, now).ok
    ensures k < 2 && t'.w.list != [] ==> !Judge(c, t'.w, t'.w.list[0].size, now).ok
  {
    hide LaneOk, Judge;
    var r, w;
    r, n, totR' := DispatchLane(c, t.r, MAX_READS, totR, now);
    w, k, totW' := DispatchLane(c, t.w, MAX_WRITES, totW, now);
    t' := t.(r := r, w := w, ref := t.ref - n - k);
  }

  /** The wait of the head of a lane; None is the source's -1. */
  function HeadWait(c: Clock, l: Lane, now: nat): Option<nat>
    requires c.Valid() && l.lim.Valid()
  {
    if l.list == [] then None else Some(Judge(c, l, l.list[0].size, now).wait)
  }

  function HeadAsked(c: Clock, l: Lane, now: nat): Lane
    requires c.Valid() && l.lim.Valid()
  {
    if l.list == [] then l else Asked(c, l, l.list[0].size, now)
  }

  /** The dispatch time computed by tg_update_disptime, with the slice changes of its checks. */
  function UpdateDisptime(c: Clock, t: Tg, now: nat): Tg
    requires c.Valid() && t.r.lim.Valid() && t.w.lim.Valid() && t.Queued() > 0
  {
    var rw, ww := HeadWait(c, t.r, now), HeadWait(c, t.w, now);
    var wait := if ww == None then rw.value else if rw == None then ww.value else if rw.value < ww.value then rw.value else ww.value;
    t.(r := HeadAsked(c, t.r, now), w := HeadAsked(c, t.w, now), disptime := now + wait)
  }

  lemma UpdateDisptimeOk(c: Clock, t: Tg, now: nat)
    requires c.Valid() && TgOk(c, t, now) && t.Queued() > 0
    ensures var t' := UpdateDisptime(c, t, now);
            && TgOk(c, t', now) && t'.r.list == t.r.list && t'.w.list == t.w.list
            && t'.r.left == t.r.left && t'.w.left == t.w.left && t'.r.arrived == t.r.arrived && t'.w.arrived == t.w.arrived
            && t'.r.lim == t.r.lim && t'.w.lim == t.w.lim
            && t' == t.(r := t'.r, w := t'.w, disptime := t'.disptime)
  {
    if t.r.list != [] { AskedOkHere(c, t.r, t.r.list[0].size, now); }
    if t.w.list != [] { AskedOkHere(c, t.w, t.w.list[0].size, now); }
  }

  /** A group none of whose heads is admitted is due in the future. */
  lemma RefusedIsLater(c: Clock, t: Tg, now: nat)
    requires c.Valid() && t.r.lim.Valid() && t.w.lim.Valid() && t.Queued() > 0
    requires t.r.list != [] ==> !Judge(c, t.r, t.r.list[0].size, now).ok
    requires t.w.list != [] ==> !Judge(c, t.w, t.w.list[0].size, now).ok
    ensures UpdateDisptime(c, t, now).disptime > now
  {
    if t.r.list != [] { AskedAgain(c, t.r, t.r.list[0].size, now); }
    if t.w.list != [] { AskedAgain(c, t.w, t.w.list[0].size, now); }
  }

  /** The dispatch time is the earliest time at which the head of a lane wants to be asked again. */
  lemma DisptimeEarliest(c: Clock, t: Tg, now: nat)
    requires c.Valid() && t.r.lim.Valid() && t.w.lim.Valid() && t.Queued() > 0
    ensures var d := UpdateDisptime(c, t, now).disptime;
            && (forall w :: t.Of(w).list != [] ==> d <= now + Judge(c, t.Of(w), t.Of(w).list[0].size, now).wait)
            && exists w :: t.Of(w).list != [] && d == now + Judge(c, t.Of(w), t.Of(w).list[0].size, now).wait
  {
    var d := UpdateDisptime(c, t, now).disptime;
    assert t.Of(false) == t.r && t.Of(true) == t.w;
    assert (t.Of(false).list != [] && d == now + Judge(c, t.Of(false), t.Of(false).list[0].size, now).wait)
        || (t.Of(true).list != [] && d == now + Judge(c, t.Of(true), t.Of(true).list[0].size, now).wait);
  }

  lemma LaneAdmits(c: Clock, l: Lane, size: nat, now: nat)
    requires c.Valid() && l.lim.Valid() && l.lim.bps == None && !Judge(c, l, size, now).ok
    requires Renewed(c, Opened(c, l, now).d, now).ios + 1 <= UINT_MAX
    ensures Judge(c, Asked(c, l, size, now), size, now + Judge(c, l, size, now).wait).ok
  {
    assert l.lim.iops.Some? && l.lim == Limits(None, Some(l.lim.iops.value));
    IopsWaitSuffices(c, l.lim.iops.value, Opened(c, l, now).d, size, now);
  }

  /**
   With only an iops limit, a refused head whose wait sets the dispatch time is admitted
   at that time.  The ios sent in the slice are counted in 32 bits.
   */
  lemma DisptimeAdmits(c: Clock, t: Tg, w: bool, now: nat)
    requires c.Valid() && t.r.lim.Valid() && t.w.lim.Valid() && t.Of(w).list != []
    requires t.Of(w).lim.bps == None && !Judge(c, t.Of(w), t.Of(w).list[0].size, now).ok
    requires Renewed(c, Opened(c, t.Of(w), now).d, now).ios + 1 <= UINT_MAX
    requires UpdateDisptime(c, t, now).disptime == now + Judge(c, t.Of(w), t.Of(w).list[0].size, now).wait
    ensures var t' := UpdateDisptime(c, t, now);
            t'.Of(w).list == t.Of(w).list && t'.Of(w).lim == t.Of(w).lim && Judge(c, t'.Of(w), t.Of(w).list[0].size, t'.disptime).ok
  {
    hide Judge, Step, Opened, Renewed;
    LaneAdmits(c, t.Of(w), t.Of(w).list[0].size, now);
  }

  lemma LaneAdmitsBytes(c: Clock, l: Lane, size: nat, now: nat)
    requires c.Valid() && c.slice >= 2 && l.lim.Valid() && l.lim.iops == None && !Judge(c, l, size, now).ok
    requires l.lim.bps.Some? ==> l.lim.bps.value >= c.hz
    ensures var a, t1 := Asked(c, l, size, now), now + Judge(c, l, size, now).wait;
            Judge(c, a, size, t1).ok || Judge(c, Asked(c, a, size, t1), size, t1 + Judge(c, a, size, t1).wait).ok
  {
    if l.lim.NoRule() { NoRulePasses(c, l, size, now); }
    assert l.lim == Limits(Some(l.lim.bps.value), None);
    BpsWaitSuffices(c, l.lim.bps.value, Opened(c, l, now).d, size, now);
  }

  /**
   With only a byte limit of at least HZ and slices of at least two jiffies, a refused head whose
   wait sets the dispatch time is admitted at that time, or at the next one if its wait sets that too.
   */
  lemma DisptimeAdmitsBytes(c: Clock, t: Tg, w: bool, now: nat)
    requires c.Valid() && c.slice >= 2 && t.r.lim.Valid() && t.w.lim.Valid() && t.Of(w).list != []
    requires t.Of(w).lim.iops == None && (t.Of(w).lim.bps.Some? ==> t.Of(w).lim.bps.value >= c.hz)
    requires !Judge(c, t.Of(w), t.Of(w).list[0].size, now).ok
    requires UpdateDisptime(c, t, now).disptime == now + Judge(c, t.Of(w), t.Of(w).list[0].size, now).wait
    ensures var t1 := UpdateDisptime(c, t, now);
            var size := t.Of(w).list[0].size;
            && t1.r.lim.Valid() && t1.w.lim.Valid() && t1.Of(w).list == t.Of(w).list
            && (|| Judge(c, t1.Of(w), size, t1.disptime).ok
                || var t2 := UpdateDisptime(c, t1, t1.disptime);
                   t2.Of(w).lim == t.Of(w).lim &&
                   (t2.disptime == t1.disptime + Judge(c, t1.Of(w), size, t1.disptime).wait ==> Judge(c, t2.Of(w), size, t2.disptime).ok))
  {
    hide Judge, Step, Opened, Renewed;
    LaneAdmitsBytes(c, t.Of(w), t.Of(w).list[0].size, now);
  }

  // ---------------------------------------------------------------- the service tree

  type Groups = map<TgId, Tg>

  /** Sorted by dispatch time. */
  ghost predicate Sorted(gs: Groups, tree: seq<TgId>) {
    && (forall i :: 0 <= i < |tree| ==> tree[i] in gs)
    && (forall i, j :: 0 <= i < j < |tree| ==> gs[tree[i]].disptime <= gs[tree[j]].disptime)
  }

  /** tg_service_tree_add: behind every group that is due no later. */
  function TreeAdd(gs: Groups, tree: seq<TgId>, g: TgId): seq<TgId>
    requires g in gs && forall i :: 0 <= i < |tree| ==> tree[i] in gs
  {
    if tree == [] || gs[g].disptime < gs[tree[0]].disptime then [g] + tree
    else [tree[0]] + TreeAdd(gs, tree[1..], g)
  }

  lemma {:induction false} TreeAddMembers(gs: Groups, tree: seq<TgId>, g: TgId)
    requires g in gs && Sorted(gs, tree)
    ensures forall x :: x in TreeAdd(gs, tree, g) <==> x == g || x in tree
  {
    if !(tree == [] || gs[g].disptime < gs[tree[0]].disptime) {
      TreeAddMembers(gs, tree[1..], g);
      assert tree == [tree[0]] + tree[1..];
    }
  }

  /** A group goes behind all that are due no later than it and before all others, which keep their order. */
  lemma {:induction false} TreeAddPlace(gs: Groups, tree: seq<TgId>, g: TgId) returns (k: nat)
    requires g in gs && Sorted(gs, tree)
    ensures k <= |tree| && TreeAdd(gs, tree, g) == tree[..k] + [g] + tree[k..]
    ensures forall i :: 0 <= i < k ==> gs[tree[i]].disptime <= gs[g].disptime
    ensures forall i :: k <= i < |tree| ==> gs[g].disptime < gs[tree[i]].disptime
  {
    if tree == [] || gs[g].disptime < gs[tree[0]].disptime {
      k := 0;
    } else {
      var j := TreeAddPlace(gs, tree[1..], g);
      k := j + 1;
      assert tree[..k] == [tree[0]] + tree[1..][..j] && tree[k..] == tree[1..][j..];
      forall i | 0 <= i < k ensures gs[tree[i]].disptime <= gs[g].disptime {
        if i > 0 { assert tree[i] == tree[1..][i - 1]; }
      }
      forall i | k <= i < |tree| ensures gs[g].disptime < gs[tree[i]].disptime { assert tree[i] == tree[1..][i - 1]; }
    }
  }

  lemma {:induction false} TreeAddSorted(gs: Groups, tree: seq<TgId>, g: TgId)
    requires g in gs && g !in tree && Sorted(gs, tree) && NoRepeat(tree)
    ensures Sorted(gs, TreeAdd(gs, tree, g)) && NoRepeat(TreeAdd(gs, tree, g))
  {
    if !(tree == [] || gs[g].disptime < gs[tree[0]].disptime) {
      var rest := TreeAdd(gs, tree[1..], g);
      TreeAddSorted(gs, tree[1..], g);
      TreeAddMembers(gs, tree[1..], g);
      forall x | x in rest ensures x in gs && gs[tree[0]].disptime <= gs[x].disptime && x != tree[0] {
      }
    }
  }

  /** The service tree holds exactly the groups with queued bios, except those in hand, in order. */
  ghost predicate TreeOk(gs: Groups, tree: seq<TgId>, hand: set<TgId>) {
    && Sorted(gs, tree) && NoRepeat(tree)
    && (forall g :: g in tree <==> g in gs && g !in hand && gs[g].Queued() > 0)
    && (forall g :: g in gs ==> (gs[g].onTree <==> g in tree))
  }

  ghost function Due(gs: Groups, tree: seq<TgId>, now: nat): set<TgId>
    requires Sorted(gs, tree)
  {
    set g | g in tree && gs[g].disptime <= now
  }

  lemma {:induction false} TreeRemoveSorted(gs: Groups, tree: seq<TgId>, g: TgId)
    requires Sorted(gs, tree) && NoRepeat(tree)
    ensures Sorted(gs, Without(tree, g)) && NoRepeat(Without(tree, g))
    ensures forall x :: x in Without(tree, g) <==> x != g && x in tree
  {
    if tree != [] {
      assert tree == [tree[0]] + tree[1..];
      TreeRemoveSorted(gs, tree[1..], g);
      var rest := Without(tree[1..], g);
      forall x | x in rest ensures x in gs && gs[tree[0]].disptime <= gs[x].disptime && x != tree[0] {
        assert x in tree[1..];
      }
    }
  }

  /** Changing a group that is off the tree, or not its key, leaves the tree in order. */
  lemma SortedUpdate(gs: Groups, tree: seq<TgId>, g: TgId, t: Tg)
    requires Sorted(gs, tree) && (g in tree ==> t.disptime == gs[g].disptime)
    ensures Sorted(gs[g := t], tree)
  {
  }

  lemma TreeUpdate(gs: Groups, tree: seq<TgId>, hand: set<TgId>, g: TgId, t: Tg)
    requires TreeOk(gs, tree, hand) && g in gs && t.onTree == gs[g].onTree
    requires g in hand || (t.disptime == gs[g].disptime && (t.Queued() > 0 <==> gs[g].Queued() > 0))
    ensures TreeOk(gs[g := t], tree, hand)
  {
    SortedUpdate(gs, tree, g, t);
  }

  // ---------------------------------------------------------------- device totals

  /** Bios of one direction over all groups. */
  function Total(ids: seq<TgId>, gs: Groups, write: bool): nat
    requires forall i :: 0 <= i < |ids| ==> ids[i] in gs
  {
    if ids == [] then 0 else |gs[ids[0]].Of(write).list| + Total(ids[1..], gs, write)
  }

  lemma {:induction false} TotalOther(ids: seq<TgId>, gs: Groups, g: TgId, t: Tg, write: bool)
    requires (forall i :: 0 <= i < |ids| ==> ids[i] in gs) && g !in ids
    ensures Total(ids, gs[g := t], write) == Total(ids, gs, write)
  {
    if ids != [] { TotalOther(ids[1..], gs, g, t, write); }
  }

  lemma {:induction false} TotalUpdate(ids: seq<TgId>, gs: Groups, g: TgId, t: Tg, write: bool)
    requires (forall i :: 0 <= i < |ids| ==> ids[i] in gs) && NoRepeat(ids) && g in ids
    ensures Total(ids, gs[g := t], write) == Total(ids, gs, write) - |gs[g].Of(write).list| + |t.Of(write).list|
    ensures Total(ids, gs, write) >= |gs[g].Of(write).list|
  {
    if ids[0] == g {
      assert g !in ids[1..];
      TotalOther(ids[1..], gs, g, t, write);
    } else {
      TotalUpdate(ids[1..], gs, g, t, write);
    }
  }

  /** If anything is queued on the device, the service tree is not empty. */
  lemma {:induction false} QueuedMeansScheduled(ids: seq<TgId>, gs: Groups, tree: seq<TgId>, write: bool)
    requires (forall i :: 0 <= i < |ids| ==> ids[i] in gs) && TreeOk(gs, tree, {}) && Total(ids, gs, write) > 0
    ensures tree != []
  {
    if |gs[ids[0]].Of(write).list| > 0 {
      assert ids[0] in tree;
    } else {
      QueuedMeansScheduled(ids[1..], gs, tree, write);
    }
  }

  ghost predicate GroupsOk(c: Clock, gs: Groups, now: nat) {
    forall g {:trigger TgOk(c, gs[g], now)} :: g in gs ==> TgOk(c, gs[g], now)
  }

  // ---------------------------------------------------------------- the device

  /** All groups of the device (tg_list), its service tree, and nr_queued[READ], nr_queued[WRITE]. */
  datatype Device = Device(ids: seq<TgId>, groups: Groups, tree: seq<TgId>, nrReads: int, nrWrites: int)

  ghost predicate Counted(d: Device) {
    && NoRepeat(d.ids) && (forall g :: g in d.ids <==> g in d.groups)
    && d.nrReads == Total(d.ids, d.groups, false) && d.nrWrites == Total(d.ids, d.groups, true)
  }

  /** The device invariant at time `now`, with the groups of `hand` temporarily off the tree. */
  ghost predicate DeviceOk(c: Clock, d: Device, now: nat, hand: set<TgId>) {
    c.Valid() && Counted(d) && GroupsOk(c, d.groups, now) && TreeOk(d.groups, d.tree, hand)
  }

  /** throtl_dequeue_tg. */
  function Dequeued(d: Device, g: TgId): Device
    requires g in d.groups
  {
    d.(tree := Without(d.tree, g), groups := d.groups[g := d.groups[g].(onTree := false)])
  }

  /** __throtl_enqueue_tg for a group that is off the tree. */
  function Enqueued(d: Device, g: TgId): Device
    requires g in d.groups && forall i :: 0 <= i < |d.tree| ==> d.tree[i] in d.groups
  {
    var gs := d.groups[g := d.groups[g].(onTree := true)];
    d.(tree := TreeAdd(gs, d.tree, g), groups := gs)
  }

  /** A changed group. */
  function Stored(d: Device, g: TgId, t: Tg): Device
    requires g in d.groups
  {
    d.(groups := d.groups[g := t])
  }

  /** The device totals once `k` more reads and `m` more writes are queued, or that many fewer. */
  function Tallied(d: Device, k: int, m: int): Device { d.(nrReads := d.nrReads + k, nrWrites := d.nrWrites + m) }

  /** The device totals cover the bios of each group, so a count is positive while a bio is there to be let through. */
  lemma TotalsCover(d: Device, g: TgId)
    requires Counted(d) && g in d.groups
    ensures d.nrReads >= |d.groups[g].r.list| && d.nrWrites >= |d.groups[g].w.list|
  {
    TotalUpdate(d.ids, d.groups, g, d.groups[g], false);
    TotalUpdate(d.ids, d.groups, g, d.groups[g], true);
    hide Total;
  }

  /** The totals stay right exactly if they are moved by what the two lines of the group gained or lost. */
  lemma TalliedExactly(d: Device, g: TgId, t: Tg, k: int, m: int)
    requires Counted(d) && g in d.groups
    ensures Counted(Tallied(Stored(d, g, t), k, m)) <==>
              k == |t.r.list| - |d.groups[g].r.list| && m == |t.w.list| - |d.groups[g].w.list|
  {
    TotalUpdate(d.ids, d.groups, g, t, false);
    TotalUpdate(d.ids, d.groups, g, t, true);
    hide Total;
  }

  lemma StoredOk(c: Clock, d: Device, g: TgId, t: Tg, k: int, m: int, now: nat, hand: set<TgId>)
    requires DeviceOk(c, d, now, hand) && g in d.groups && TgOk(c, t, now) && t.onTree == d.groups[g].onTree
    requires g in hand || (t.disptime == d.groups[g].disptime && (t.Queued() > 0 <==> d.groups[g].Queued() > 0))
    requires k == |t.r.list| - |d.groups[g].r.list| && m == |t.w.list| - |d.groups[g].w.list|
    ensures DeviceOk(c, Tallied(Stored(d, g, t), k, m), now, hand)
  {
    TalliedExactly(d, g, t, k, m);
    GroupStored(c, d.groups, g, t, now);
    TreeUpdate(d.groups, d.tree, hand, g, t);
    hide TreeOk, GroupsOk, Counted, TgOk;
  }

  lemma DequeuedOk(c: Clock, d: Device, g: TgId, now: nat)
    requires DeviceOk(c, d, now, {}) && g in d.groups
    ensures DeviceOk(c, Dequeued(d, g), now, {g})
  {
    var t := d.groups[g].(onTree := false);
    SameTg(c, d.groups[g], t, now);
    TalliedExactly(d, g, t, 0, 0);
    GroupStored(c, d.groups, g, t, now);
    hide GroupsOk, Counted, TgOk, NoRepeat;
    TreeRemoveSorted(d.groups, d.tree, g);
    SortedUpdate(d.groups, Without(d.tree, g), g, t);
    assert Tallied(Stored(d, g, t), 0, 0) == Stored(d, g, t);
    CountedTree(Stored(d, g, t), Without(d.tree, g));
  }

  lemma DequeuedGone(c: Clock, d: Device, g: TgId, now: nat)
    requires DeviceOk(c, d, now, {}) && g in d.groups
    ensures g !in Dequeued(d, g).tree
  {
    TreeRemoveSorted(d.groups, d.tree, g);
  }

  lemma TotalsCoverHere(c: Clock, d: Device, g: TgId, now: nat, hand: set<TgId>)
    requires DeviceOk(c, d, now, hand) && g in d.groups
    ensures d.nrReads >= |d.groups[g].r.list| && d.nrWrites >= |d.groups[g].w.list|
  {
    TotalsCover(d, g);
  }

  lemma EnqueuedOk(c: Clock, d: Device, g: TgId, now: nat)
    requires DeviceOk(c, d, now, {g}) && g in d.groups && d.groups[g].Queued() > 0
    ensures DeviceOk(c, Enqueued(d, g), now, {})
  {
    var t := d.groups[g].(onTree := true);
    SameTg(c, d.groups[g], t, now);
    TalliedExactly(d, g, t, 0, 0);
    GroupStored(c, d.groups, g, t, now);
    hide GroupsOk, Counted, TgOk, NoRepeat;
    SortedUpdate(d.groups, d.tree, g, t);
    var gs := d.groups[g := t];
    TreeAddSorted(gs, d.tree, g);
    TreeAddMembers(gs, d.tree, g);
    assert Tallied(Stored(d, g, t), 0, 0) == Stored(d, g, t);
    CountedTree(Stored(d, g, t), TreeAdd(gs, d.tree, g));
  }

  lemma CountedTree(d: Device, tree: seq<TgId>)
    requires Counted(d)
    ensures Counted(d.(tree := tree))
  {
  }

  lemma InDevice(c: Clock, d: Device, g: TgId, now: nat, hand: set<TgId>)
    requires DeviceOk(c, d, now, hand) && g in d.groups
    ensures c.Valid() && Sorted(d.groups, d.tree) && TgOk(c, d.groups[g], now)
    ensures g in d.tree <==> g !in hand && d.groups[g].Queued() > 0
    ensures d.groups[g].onTree <==> g in d.tree
  {
    GroupStored(c, d.groups, g, d.groups[g], now);
  }

  lemma OnDevice(c: Clock, d: Device, g: TgId, now: nat, hand: set<TgId>)
    requires DeviceOk(c, d, now, hand) && g in d.tree
    ensures g in d.groups
  {
  }

  /** Between `l` and `l'` exactly the `n` oldest bios left, in order, and none arrived. */
  ghost predicate LaneReleased(l: Lane, l': Lane, n: nat) {
    n <= |l.list| && l'.list == l.list[n..] && l'.left == l.left + l.list[..n] && l'.arrived == l.arrived && l'.lim == l.lim
  }

  ghost predicate Released(t: Tg, t': Tg, k: nat, m: nat) {
    LaneReleased(t.r, t'.r, k) && LaneReleased(t.w, t'.w, m) && t'.created == t.created && t'.ref == t.ref - k - m
  }

  lemma TgLimits(c: Clock, t: Tg, now: nat)
    requires TgOk(c, t, now)
    ensures t.r.lim.Valid() && t.w.lim.Valid()
  {
  }

  lemma EmptyOffTree(c: Clock, d: Device, now: nat, g: TgId)
    requires DeviceOk(c, d, now, {g}) && g in d.groups && d.groups[g].Queued() == 0
    ensures DeviceOk(c, d, now, {})
  {
  }

  lemma SameTg(c: Clock, t: Tg, t': Tg, now: nat)
    requires t' == t.(onTree := t'.onTree)
    ensures TgOk(c, t, now) ==> TgOk(c, t', now)
    ensures t'.r.list == t.r.list && t'.w.list == t.w.list && t'.Queued() == t.Queued()
  {
  }

  lemma GroupStored(c: Clock, gs: Groups, g: TgId, t: Tg, now: nat)
    requires GroupsOk(c, gs, now)
    ensures g in gs && TgOk(c, gs[g], now) && TgOk(c, t, now) ==> GroupsOk(c, gs[g := t], now)
    ensures g in gs ==> TgOk(c, gs[g], now)
  {
    hide TgOk;
    if g in gs { assert TgOk(c, gs[g], now); }
    if g in gs && TgOk(c, t, now) {
      var gs' := gs[g := t];
      forall x | x in gs' ensures TgOk(c, gs'[x], now) {
        if x != g { assert TgOk(c, gs[x], now); }
      }
    }
  }

  /** The group part of one turn of throtl_select_dispatch. */
  method ServeTg(c: Clock, t: Tg, totR: int, totW: int, now: nat) returns (t': Tg, k: nat, m: nat, totR': int, totW': int)
    requires c.Valid() && TgOk(c, t, now) && t.Queued() > 0 && totR >= |t.r.list| && totW >= |t.w.list|
    ensures TgOk(c, t', now) && Released(t, t', k, m) && k + m <= GRP_QUANTUM && t'.onTree == t.onTree
    ensures totR' == totR - k && totW' == totW - m
    ensures k + m == 0 ==> t'.Queued() > 0 && t'.disptime > now
  {
    hide TgOk, Judge, UpdateDisptime;
    t', k, m, totR', totW' := DispatchTg(c, t, totR, totW, now);
    if t'.Queued() > 0 {
      TgLimits(c, t', now);
      UpdateDisptimeOk(c, t', now);
      if k + m == 0 { RefusedIsLater(c, t', now); }
      t' := UpdateDisptime(c, t', now);
    }
  }

  // ---------------------------------------------------------------- submission

  /** A bio that goes straight through, without a charge (no rule in this direction) or charged. */
  function Passed(c: Clock, l: Lane, b: Bio, now: nat, charge: bool): Lane
    requires c.Valid() && l.lim.Valid()
  {
    (if charge then Let(c, l, b, now) else l.(left := l.left + [b])).(arrived := l.arrived + [b])
  }

  function Joined(l: Lane, b: Bio): Lane {
    l.(list := l.list + [b], nr := l.nr + 1, arrived := l.arrived + [b])
  }

  lemma PassedOk(c: Clock, l: Lane, b: Bio, now: nat, charge: bool)
    requires c.Valid() && LaneOk(c, l, now) && l.list == []
    requires if charge then Judge(c, l, b.size, now).ok else l.lim.NoRule()
    ensures LaneOk(c, Passed(c, l, b, now, charge), now)
  {
    BytesMore(l.left, b);
    if charge && !l.lim.NoRule() { OpenedSound(c, l, now, now, Op(now, b.size, true)); }
  }

  lemma JoinedOk(c: Clock, l: Lane, b: Bio, now: nat)
    requires LaneOk(c, l, now) && !l.lim.NoRule()
    ensures LaneOk(c, Joined(l, b), now)
  {
    assert l.left + (l.list + [b]) == (l.left + l.list) + [b];
  }

  /** Without a rule nothing is refused. */
  lemma NoRulePasses(c: Clock, l: Lane, size: nat, now: nat)
    requires c.Valid() && l.lim.Valid() && l.lim.NoRule()
    ensures Judge(c, l, size, now).ok
  {
  }

  /** The group after a bio was queued in it. */
  function WithBio(c: Clock, t: Tg, write: bool, b: Bio, now: nat): Tg
    requires c.Valid() && t.Of(write).lim.Valid()
  {
    var l := t.Of(write);
    t.With(write, Joined(if l.list == [] then Asked(c, l, b.size, now) else l, b)).(ref := t.ref + 1)
  }

  lemma WithBioOk(c: Clock, t: Tg, write: bool, b: Bio, now: nat)
    requires c.Valid() && TgOk(c, t, now) && (t.Of(write).list == [] ==> !Judge(c, t.Of(write), b.size, now).ok)
    ensures var t' := WithBio(c, t, write, b, now);
            && TgOk(c, t', now) && t'.Queued() == t.Queued() + 1 && t'.onTree == t.onTree && t'.disptime == t.disptime
            && t'.Of(write).list == t.Of(write).list + [b] && t'.Of(!write) == t.Of(!write)
            && t'.Of(write).arrived == t.Of(write).arrived + [b] && t'.Of(write).left == t.Of(write).left
  {
    var l := t.Of(write);
    if l.list == [] {
      if l.lim.NoRule() { NoRulePasses(c, l, b.size, now); }
      AskedOkHere(c, l, b.size, now);
      JoinedOk(c, Asked(c, l, b.size, now), b, now);
    } else {
      JoinedOk(c, l, b, now);
    }
    hide LaneOk, Asked, Judge;
  }

  lemma PassedTgOk(c: Clock, t: Tg, write: bool, b: Bio, now: nat, charge: bool)
    requires c.Valid() && TgOk(c, t, now) && t.Of(write).list == []
    requires if charge then Judge(c, t.Of(write), b.size, now).ok else t.Of(write).lim.NoRule()
    ensures TgOk(c, t.With(write, Passed(c, t.Of(write), b, now, charge)), now)
  {
    PassedOk(c, t.Of(write), b, now, charge);
    hide LaneOk;
  }

  /** The lane after a bio was submitted: it goes to the end of the line, or straight through an empty line. */
  ghost predicate Received(l: Lane, l': Lane, b: Bio, throttled: bool) {
    && l'.arrived == l.arrived + [b]
    && (throttled ==> l'.list == l.list + [b] && l'.left == l.left)
    && (!throttled ==> l.list == [] && l'.list == [] && l'.left == l.left + [b])
  }

  /** Apart from the slices, which a limit check may renew or extend. */
  ghost predicate SameQueue(l: Lane, l': Lane) {
    l'.list == l.list && l'.left == l.left && l'.arrived == l.arrived && l'.lim == l.lim
  }

  lemma DeviceOkLater(c: Clock, d: Device, now: nat, now': nat)
    requires DeviceOk(c, d, now, {}) && now <= now'
    ensures DeviceOk(c, d, now', {})
  {
    forall g | g in d.groups ensures TgOk(c, d.groups[g], now') {
      assert TgOk(c, d.groups[g], now);
      LaneOkLater(c, d.groups[g].r, now, now');
      LaneOkLater(c, d.groups[g].w, now, now');
    }
    hide TgOk, TreeOk, Counted;
  }

  /** throtl_init_group, with the limits filled in. */
  function NewTg(r: Limits, w: Limits): Tg {
    var none := Ledger(FreshDir, 0, 0, 0, 0);
    Tg(0, Lane(r, false, none, [], 0, [], []), Lane(w, false, none, [], 0, [], []), 1, true, false)
  }

  lemma CreatedCounted(d: Device, g: TgId, t: Tg)
    requires Counted(d) && g !in d.groups && t.Queued() == 0
    ensures Counted(d.(ids := [g] + d.ids, groups := d.groups[g := t]))
  {
    assert g !in d.ids;
    TotalOther(d.ids, d.groups, g, t, false);
    TotalOther(d.ids, d.groups, g, t, true);
    assert ([g] + d.ids)[1..] == d.ids;
  }

  lemma CreatedOk(c: Clock, d: Device, g: TgId, t: Tg, now: nat)
    requires DeviceOk(c, d, now, {}) && g !in d.groups && TgOk(c, t, now) && t.Queued() == 0 && !t.onTree
    ensures DeviceOk(c, d.(ids := [g] + d.ids, groups := d.groups[g := t]), now, {})
  {
    CreatedCounted(d, g, t);
    hide TgOk, Counted;
    var gs := d.groups[g := t];
    forall x | x in gs ensures TgOk(c, gs[x], now) {
      if x != g { assert TgOk(c, d.groups[x], now); }
    }
    SortedUpdate(d.groups, d.tree, g, t);
  }

  /** A turn that lets nothing through takes its group out of those that are due. */
  lemma DueShrinks(d: Device, d': Device, g: TgId, now: nat)
    requires TreeOk(d.groups, d.tree, {}) && TreeOk(d'.groups, d'.tree, {}) && g in d.tree && d.groups[g].disptime <= now
    requires g in d'.groups && d'.groups == d.groups[g := d'.groups[g]] && d'.groups[g].disptime > now
    ensures Due(d'.groups, d'.tree, now) < Due(d.groups, d.tree, now)
  {
    assert g in Due(d.groups, d.tree, now) && g !in Due(d'.groups, d'.tree, now);
  }

  class ThrotlData {
    const c: Clock
    var ids: seq<TgId>
    var groups: Groups
    var tree: seq<TgId>
    var nrReads: int
    var nrWrites: int

    ghost function Dev(): Device
      reads this
    {
      Device(ids, groups, tree, nrReads, nrWrites)
    }

    ghost predicate Valid(now: nat)
      reads this
    {
      DeviceOk(c, Dev(), now, {})
    }

    constructor (c: Clock)
      requires c.Valid()
      ensures this.c == c && Dev() == Device([], map[], [], 0, 0) && forall now: nat :: Valid(now)
    {
      this.c := c;
      ids, groups, tree, nrReads, nrWrites := [], map[], [], 0, 0;
    }

    /** throtl_dequeue_tg: the rest of the device stays in order while the group is in hand. */
    method DequeueTg(g: TgId, ghost now: nat)
      requires Valid(now) && g in groups
      modifies this
      ensures DeviceOk(c, Dev(), now, {g}) && g !in tree && Dev() == Dequeued(old(Dev()), g)
    {
      DequeuedOk(c, Dev(), g, now);
      DequeuedGone(c, Dev(), g, now);
      hide DeviceOk;
      tree := Without(tree, g);
      groups := groups[g := groups[g].(onTree := false)];
    }

    /** throtl_enqueue_tg: a group in hand that has bios goes back to its place in the tree. */
    method EnqueueTg(g: TgId, ghost now: nat)
      requires DeviceOk(c, Dev(), now, {g}) && g in groups && groups[g].Queued() > 0
      modifies this
      ensures Valid(now) && g in tree && Dev() == Enqueued(old(Dev()), g)
    {
      EnqueuedOk(c, Dev(), g, now);
      InDevice(c, Dev(), g, now, {g});
      InDevice(c, Enqueued(Dev(), g), g, now, {});
      hide DeviceOk;
      groups := groups[g := groups[g].(onTree := true)];
      tree := TreeAdd(groups, tree, g);
    }

    /** One turn of the loop of throtl_select_dispatch, for the group `g` at its head. */
    method Service(g: TgId, now: nat) returns (k: nat, m: nat)
      requires Valid(now) && g in tree
      modifies this
      ensures Valid(now) && ids == old(ids) && g in old(groups) && g in groups
      ensures groups == old(groups)[g := groups[g]] && Released(old(groups)[g], groups[g], k, m)
      ensures k + m <= GRP_QUANTUM && nrReads == old(nrReads) - k && nrWrites == old(nrWrites) - m
      ensures k + m == 0 ==> groups[g].disptime > now
    {
      hide TgOk, DeviceOk;
      OnDevice(c, Dev(), g, now, {});
      InDevice(c, Dev(), g, now, {});
      DequeueTg(g, now);
      InDevice(c, Dev(), g, now, {g});
      ghost var d := Dev();
      var t;
      TotalsCoverHere(c, Dev(), g, now, {g});
      t, k, m, nrReads, nrWrites := ServeTg(c, groups[g], nrReads, nrWrites, now);
      StoredOk(c, d, g, t, 0 - k, 0 - m, now, {g});
      groups := groups[g := t];
      assert Dev() == Tallied(Stored(d, g, t), 0 - k, 0 - m);
      if t.Queued() > 0 {
        EnqueueTg(g, now);
      } else {
        EmptyOffTree(c, Dev(), now, g);
      }
    }

    /** throtl_select_dispatch. */
    method SelectDispatch(now: nat) returns (n: nat)
      requires Valid(now)
      modifies this
      ensures Valid(now) && ids == old(ids) && n < 40
      ensures nrReads + nrWrites + n == old(nrReads) + old(nrWrites)
      ensures n < 32 ==> forall g :: g in groups && groups[g].Queued() > 0 ==> groups[g].disptime > now
      ensures forall g :: g in groups <==> g in old(groups)
      ensures forall g :: g in groups ==> Drained(old(groups)[g], groups[g])
    {
      hide TgOk, Released, GroupsOk, Counted;
      n := 0;
      forall g | g in groups ensures Drained(groups[g], groups[g]) { DrainedNone(groups[g]); }
      while true
        invariant Valid(now) && ids == old(ids) && n < QUANTUM
        invariant nrReads + nrWrites + n == old(nrReads) + old(nrWrites)
        invariant forall g :: g in groups <==> g in old(groups)
        invariant forall g :: g in groups ==> Drained(old(groups)[g], groups[g])
        decreases QUANTUM - n, Due(groups, tree, now)
      {
        hide Drained;
        if tree == [] { break; }
        var g := tree[0];
        if now < groups[g].disptime { break; }
        ghost var d := Dev();
        var k, m := Service(g, now);
        DrainedMore(old(groups)[g], d.groups[g], groups[g], k, m);
        if k + m == 0 { DueShrinks(d, Dev(), g, now); }
        n := n + k + m;
        if n >= QUANTUM { break; }
      }
    }

    /** throtl_alloc_tg and throtl_init_add_tg_lists. */
    method CreateGroup(g: TgId, r: Limits, w: Limits, ghost now: nat)
      requires Valid(now) && g !in groups && r.Valid() && w.Valid()
      modifies this
      ensures Valid(now) && g in groups && groups == old(groups)[g := groups[g]] && tree == old(tree)
      ensures groups[g].r.lim == r && groups[g].w.lim == w && groups[g].Queued() == 0 && groups[g].ref == 1 && groups[g].created
    {
      CreatedOk(c, Dev(), g, NewTg(r, w), now);
      ids, groups := [g] + ids, groups[g := NewTg(r, w)];
    }

    /** throtl_destroy_tg: drop the creation reference; queued bios keep the group alive and scheduled. */
    method DestroyGroup(g: TgId, ghost now: nat)
      requires Valid(now) && g in groups && groups[g].created
      modifies this
      ensures Valid(now) && groups == old(groups)[g := old(groups)[g].(created := false, ref := old(groups)[g].ref - 1)]
      ensures tree == old(tree) && (groups[g].ref == 0 <==> g !in tree)
    {
      hide DeviceOk;
      InDevice(c, Dev(), g, now, {});
      var t := groups[g].(created := false, ref := groups[g].ref - 1);
      StoredOk(c, Dev(), g, t, 0, 0, now, {});
      ghost var d := Dev();
      groups := groups[g := t];
      assert Dev() == Tallied(Stored(d, g, t), 0, 0);
      InDevice(c, Dev(), g, now, {});
    }

    /** tg_update_disptime for a group on the tree. */
    method UpdateTg(g: TgId, now: nat)
      requires Valid(now) && g in tree
      modifies this
      ensures Valid(now) && ids == old(ids) && nrReads == old(nrReads) && nrWrites == old(nrWrites)
      ensures g in old(groups) && g in groups && groups == old(groups)[g := groups[g]]
      ensures SameQueue(old(groups)[g].r, groups[g].r) && SameQueue(old(groups)[g].w, groups[g].w)
      ensures c.Valid() && old(groups)[g].r.lim.Valid() && old(groups)[g].w.lim.Valid() && old(groups)[g].Queued() > 0
      ensures groups[g] == UpdateDisptime(c, old(groups)[g], now)
    {
      hide DeviceOk, TgOk, HeadWait, HeadAsked;
      OnDevice(c, Dev(), g, now, {});
      InDevice(c, Dev(), g, now, {});
      DequeueTg(g, now);
      InDevice(c, Dev(), g, now, {g});
      TgLimits(c, groups[g], now);
      UpdateDisptimeOk(c, groups[g], now);
      var t := UpdateDisptime(c, groups[g], now);
      ghost var d := Dev();
      StoredOk(c, d, g, t, 0, 0, now, {g});
      groups := groups[g := t];
      assert Dev() == Tallied(Stored(d, g, t), 0, 0);
      EnqueueTg(g, now);
    }

    /** throtl_add_bio_tg. */
    method AddBio(g: TgId, write: bool, b: Bio, now: nat)
      requires Valid(now) && g in groups && c.Valid() && groups[g].Of(write).lim.Valid()
      requires groups[g].Of(write).list == [] ==> !Judge(c, groups[g].Of(write), b.size, now).ok
      modifies this
      ensures Valid(now) && ids == old(ids) && g in groups && g in tree && groups == old(groups)[g := groups[g]]
      ensures groups[g] == WithBio(c, old(groups)[g], write, b, now).(onTree := true)
      ensures Received(old(groups)[g].Of(write), groups[g].Of(write), b, true) && groups[g].Of(!write) == old(groups)[g].Of(!write)
      ensures nrReads == old(nrReads) + (if write then 0 else 1) && nrWrites == old(nrWrites) + (if write then 1 else 0)
    {
      hide DeviceOk, TgOk, Judge, WithBio;
      InDevice(c, Dev(), g, now, {});
      WithBioOk(c, groups[g], write, b, now);
      var t := WithBio(c, groups[g], write, b, now);
      ghost var d := Dev();
      groups := groups[g := t];
      if write { nrWrites := nrWrites + 1; } else { nrReads := nrReads + 1; }
      assert Dev() == Tallied(Stored(d, g, t), if write then 0 else 1, if write then 1 else 0);
      if t.onTree {
        StoredOk(c, d, g, t, if write then 0 else 1, if write then 1 else 0, now, {});
      } else {
        OffTree(c, d, now, g);
        StoredOk(c, d, g, t, if write then 0 else 1, if write then 1 else 0, now, {g});
        EnqueueTg(g, now);
      }
      InDevice(c, Dev(), g, now, {});
    }

    /**
     blk_throtl_bio for a bio not yet throttled.  `found` says that the lookup
     without the lock already saw the group.
     */
    method SubmitBio(g: TgId, write: bool, b: Bio, found: bool, ghost before: nat, now: nat) returns (throttled: bool)
      requires Valid(before) && before <= now && g in groups && groups[g].created
      modifies this
      ensures Valid(now) && ids == old(ids) && g in groups && groups == old(groups)[g := groups[g]]
      ensures Received(old(groups)[g].Of(write), groups[g].Of(write), b, throttled)
      ensures SameQueue(old(groups)[g].Of(!write), groups[g].Of(!write))
      ensures nrReads == old(nrReads) + (if throttled && !write then 1 else 0)
      ensures nrWrites == old(nrWrites) + (if throttled && write then 1 else 0)
      ensures c.Valid() && old(groups)[g].Of(write).lim.Valid()
      ensures throttled <==> old(groups)[g].Of(write).list != [] || !Judge(c, old(groups)[g].Of(write), b.size, now).ok
    {
      hide DeviceOk, TgOk, Judge, Passed, WithBio;
      DeviceOkLater(c, Dev(), before, now);
      InDevice(c, Dev(), g, now, {});
      TgLimits(c, groups[g], now);
      var t := groups[g];
      var l := t.Of(write);
      LaneFacts(c, t, write, b, now);
      if found && l.lim.NoRule() {
        PassIn(c, Dev(), g, write, b, now, false);
        groups := groups[g := t.With(write, Passed(c, l, b, now, false))];
        return false;
      }
      if l.nr > 0 {
        AddBio(g, write, b, now);
        return true;
      }
      if Judge(c, l, b.size, now).ok {
        PassIn(c, Dev(), g, write, b, now, true);
        groups := groups[g := t.With(write, Passed(c, l, b, now, true))];
        return false;
      }
      AddBio(g, write, b, now);
      UpdateTg(g, now);
      return true;
    }
  }

  lemma OffTree(c: Clock, d: Device, now: nat, g: TgId)
    requires DeviceOk(c, d, now, {}) && g in d.groups && !d.groups[g].onTree
    ensures DeviceOk(c, d, now, {g})
  {
  }

  lemma LaneFacts(c: Clock, t: Tg, write: bool, b: Bio, now: nat)
    requires c.Valid() && TgOk(c, t, now)
    ensures var l := t.Of(write); l.lim.Valid() && l.nr == |l.list| && (l.lim.NoRule() ==> l.list == [] && Judge(c, l, b.size, now).ok)
  {
    var l := t.Of(write);
    if l.lim.NoRule() { NoRulePasses(c, l, b.size, now); }
  }

  lemma PassIn(c: Clock, d: Device, g: TgId, write: bool, b: Bio, now: nat, charge: bool)
    requires DeviceOk(c, d, now, {}) && g in d.groups && d.groups[g].Of(write).list == []
    requires c.Valid() && d.groups[g].Of(write).lim.Valid()
    requires if charge then Judge(c, d.groups[g].Of(write), b.size, now).ok else d.groups[g].Of(write).lim.NoRule()
    ensures var t := d.groups[g];
            var l' := Passed(c, t.Of(write), b, now, charge);
            && DeviceOk(c, Stored(d, g, t.With(write, l')), now, {})
            && Received(t.Of(write), l', b, false)
  {
    hide DeviceOk, TgOk;
    InDevice(c, d, g, now, {});
    var t := d.groups[g];
    PassedTgOk(c, t, write, b, now, charge);
    var t' := t.With(write, Passed(c, t.Of(write), b, now, charge));
    StoredOk(c, d, g, t', 0, 0, now, {});
    assert Tallied(Stored(d, g, t'), 0, 0) == Stored(d, g, t');
  }

  /** Some number of oldest bios left each lane. */
  ghost predicate Drained(t: Tg, t': Tg) { exists k: nat, m: nat :: Released(t, t', k, m) }

  lemma DrainedNone(t: Tg)
    ensures Drained(t, t)
  {
    assert t.r.list[0..] == t.r.list && t.w.list[0..] == t.w.list;
    assert t.r.left + t.r.list[..0] == t.r.left && t.w.left + t.w.list[..0] == t.w.left;
    assert Released(t, t, 0, 0);
  }

  lemma DrainedMore(t: Tg, t': Tg, t'': Tg, k: nat, m: nat)
    requires Drained(t, t') && Released(t', t'', k, m)
    ensures Drained(t, t'')
  {
    var k0: nat, m0: nat :| Released(t, t', k0, m0);
    LaneReleasedMore(t.r, t'.r, t''.r, k0, k);
    LaneReleasedMore(t.w, t'.w, t''.w, m0, m);
    assert Released(t, t'', k0 + k, m0 + m);
  }

  lemma LaneReleasedMore(l: Lane, l': Lane, l'': Lane, a: nat, b: nat)
    requires LaneReleased(l, l', a) && LaneReleased(l', l'', b)
    ensures LaneReleased(l, l'', a + b)
  {
    assert l.list[..a] + l.list[a..][..b] == l.list[..a + b];
  }
}
