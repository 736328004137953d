/**
 Time slices and limit checks of the block throttling policy (blk-throttle.c),
 for one direction of one group.

 Jiffies are a natural number that never goes backwards.  A limit of None is the
 source's -1: unlimited.  Products are unbounded, so the 64-bit wrap-around of
 an unlimited rate is read as "does not limit".
 */
module ThrottleSlice {
  import opened Arithmetic
  import opened Wrappers

  const UINT_MAX: nat := 0xFFFF_FFFF

  /** HZ and throtl_slice. */
  datatype Clock = Clock(hz: nat, slice: nat) {
    predicate Valid() { hz > 0 && slice > 0 }
  }

  datatype Limits = Limits(bps: Option<nat>, iops: Option<nat>) {
    predicate Valid() { (bps.Some? ==> bps.value > 0) && (iops.Some? ==> iops.value > 0) }
    predicate NoRule() { bps == None && iops == None }
  }

  /** slice_start, slice_end, bytes_disp and io_disp of one direction. */
  datatype Dir = Dir(start: nat, end: nat, bytes: nat, ios: nat)

  const FreshDir := Dir(0, 0, 0, 0)

  /** The number of steps that cover `x`, and roundup(x, step). */
  function Slots(x: nat, step: nat): nat
    requires step > 0
  {
    (x + step - 1) / step
  }

  function RoundUp(x: nat, step: nat): nat
    requires step > 0
  {
    Slots(x, step) * step
  }

  lemma RoundUpBounds(x: nat, step: nat)
    requires step > 0
    ensures x <= RoundUp(x, step) < x + step
  {
    assert x + step - 1 == (x + step - 1) / step * step + (x + step - 1) % step;
  }

  /** Past a multiple of the step, rounding up reaches at least the next multiple. */
  lemma RoundUpNext(x: nat, step: nat, q: nat)
    requires step > 0 && x > q * step
    ensures RoundUp(x, step) >= q * step + step
  {
    RoundUpBounds(x, step);
    MulCancel(q, Slots(x, step), step);
    MulMono(q + 1, Slots(x, step), step);
  }

  lemma RoundUpMultiple(step: nat)
    requires step > 0
    ensures RoundUp(step, step) == step
  {
    RoundUpBounds(step, step);
    RoundUpNext(step, step, 0);
  }

  // ---------------------------------------------------------------- the code, direction by direction

  predicate SliceUsed(d: Dir, now: nat) { !(d.start <= now <= d.end) }

  /** jiffy_elapsed_rnd: time since the slice started, rounded up to whole slices, at least one. */
  function ElapsedRnd(c: Clock, d: Dir, now: nat): (rnd: nat)
    requires c.Valid() && d.start <= now
    ensures now - d.start <= rnd <= now - d.start + c.slice
  {
    RoundUpBounds(if now == d.start then c.slice else now - d.start, c.slice);
    RoundUpMultiple(c.slice);
    RoundUp(if now == d.start then c.slice else now - d.start, c.slice)
  }

  datatype Verdict = Verdict(ok: bool, wait: nat)

  /** tg_with_in_iops_limit. */
  function WithinIops(c: Clock, iops: Option<nat>, d: Dir, now: nat): Verdict
    requires c.Valid() && d.start <= now && (iops.Some? ==> iops.value > 0)
  {
    if iops == None then Verdict(true, 0)
    else
      var elapsed := now - d.start;
      var tmp := Scale(iops.value, ElapsedRnd(c, d, now), c.hz);
      var allowed := if tmp > UINT_MAX then UINT_MAX else tmp;
      if d.ios + 1 <= allowed then Verdict(true, 0)
      else
        var wait := Scale(d.ios + 1, c.hz, iops.value) + 1;
        Verdict(false, if wait > elapsed then wait - elapsed else 1)
  }

  /** tg_with_in_bps_limit. */
  function WithinBps(c: Clock, bps: Option<nat>, d: Dir, size: nat, now: nat): Verdict
    requires c.Valid() && d.start <= now && (bps.Some? ==> bps.value > 0)
  {
    if bps == None then Verdict(true, 0)
    else
      var rnd := ElapsedRnd(c, d, now);
      var allowed := Scale(bps.value, rnd, c.hz);
      if d.bytes + size <= allowed then Verdict(true, 0)
      else
        var wait := Scale(d.bytes + size - allowed, c.hz, bps.value);
        Verdict(false, (if wait == 0 then 1 else wait) + (rnd - (now - d.start)))
  }

  /** The slice a check works in: a new one if the old is used up, otherwise the old one, long enough for one slice from now. */
  function Renewed(c: Clock, d: Dir, now: nat): (r: Dir)
    requires c.Valid()
  {
    if SliceUsed(d, now) then Dir(now, now + c.slice, 0, 0)
    else if d.end < now + c.slice then d.(end := RoundUp(now + c.slice, c.slice))
    else d
  }

  function Extended(c: Clock, d: Dir, until: nat): Dir
    requires c.Valid()
  {
    if d.end < until then d.(end := RoundUp(until, c.slice)) else d
  }

  datatype Check = Check(d: Dir, v: Verdict)

  /** tg_may_dispatch. */
  function MayDispatch(c: Clock, lim: Limits, d: Dir, size: nat, now: nat): Check
    requires c.Valid() && lim.Valid()
  {
    if lim.NoRule() then Check(d, Verdict(true, 0))
    else
      var r := Renewed(c, d, now);
      var b := WithinBps(c, lim.bps, r, size, now);
      var i := if b.ok then WithinIops(c, lim.iops, r, now) else Verdict(false, 0);
      if b.ok && i.ok then Check(r, Verdict(true, 0))
      else
        var wait := if b.wait > i.wait then b.wait else i.wait;
        Check(Extended(c, r, now + wait), Verdict(false, wait))
  }

  function Trimmed(disp: nat, trim: nat): nat { if disp >= trim then disp - trim else 0 }

  /** throtl_trim_slice.  An unlimited counter is trimmed to zero. */
  function TrimSlice(c: Clock, lim: Limits, d: Dir, now: nat): Dir
    requires c.Valid()
  {
    if SliceUsed(d, now) then d
    else
      var e := d.(end := RoundUp(now + c.slice, c.slice));
      var n := Quotient(now - d.start, c.slice);
      if n == 0 then e
      else
        var bytesTrim := if lim.bps.Some? then Scale(lim.bps.value, n * c.slice, c.hz) else d.bytes + 1;
        var ioTrim := if lim.iops.Some? then Scale(lim.iops.value, n * c.slice, c.hz) else d.ios + 1;
        if bytesTrim == 0 && ioTrim == 0 then e
        else e.(bytes := Trimmed(d.bytes, bytesTrim), ios := Trimmed(d.ios, ioTrim), start := d.start + n * c.slice)
  }

  /** throtl_charge_bio followed by throtl_trim_slice, as both callers do it. */
  function Sent(c: Clock, lim: Limits, d: Dir, size: nat, now: nat): Dir
    requires c.Valid()
  {
    TrimSlice(c, lim, d.(bytes := d.bytes + size, ios := d.ios + 1), now)
  }

  // ---------------------------------------------------------------- the rate bound

  /** What has been forgiven by trims and restarts is covered by the time up to the slice start. */
  ghost predicate Forgiven(hz: nat, rate: nat, total: nat, disp: nat, start: nat, s0: nat) {
    disp <= total && s0 <= start && (total - disp) * hz <= rate * (start - s0)
  }

  /** Everything sent is covered by the time up to one slice after the last dispatch. */
  ghost predicate Capped(hz: nat, slice: nat, rate: nat, total: nat, s0: nat, last: nat) {
    s0 <= last && total * hz <= rate * (last + slice - s0)
  }

  ghost predicate Metered(c: Clock, rate: nat, total: nat, disp: nat, d: Dir, s0: nat, last: nat) {
    Forgiven(c.hz, rate, total, disp, d.start, s0) && Capped(c.hz, c.slice, rate, total, s0, last)
  }

  /** A restarted slice may forget its counters: by now they have been paid for. */
  lemma RestartForgives(hz: nat, slice: nat, rate: nat, total: nat, s0: nat, last: nat, now: nat)
    requires Capped(hz, slice, rate, total, s0, last) && last + slice <= now
    ensures Forgiven(hz, rate, total, 0, now, s0)
  {
    MulMono(last + slice - s0, now - s0, rate);
  }

  /** Admission is the only place where the total grows, and it keeps the cap. */
  lemma AdmitCaps(c: Clock, rate: nat, total: nat, disp: nat, unit: nat, d: Dir, s0: nat, now: nat)
    requires c.Valid() && d.start <= now
    requires Forgiven(c.hz, rate, total, disp, d.start, s0)
    requires disp + unit <= Scale(rate, ElapsedRnd(c, d, now), c.hz)
    ensures Capped(c.hz, c.slice, rate, total + unit, s0, now)
  {
    var rnd := ElapsedRnd(c, d, now);
    FloorIff(disp + unit, rate * rnd, c.hz);
    MulMono(rnd, now - d.start + c.slice, rate);
    calc {
      (total + unit) * c.hz;
      (total - disp) * c.hz + (disp + unit) * c.hz;
    <=
      rate * (d.start - s0) + rate * (now - d.start + c.slice);
      rate * (now + c.slice - s0);
    }
  }

  /** Trimming forgives at most what the skipped time pays for, whatever the rounding. */
  lemma TrimForgives(hz: nat, rate: nat, total: nat, disp: nat, start: nat, s0: nat, skip: nat)
    requires hz > 0 && Forgiven(hz, rate, total, disp, start, s0)
    ensures Forgiven(hz, rate, total, Trimmed(disp, Scale(rate, skip, hz)), start + skip, s0)
  {
    var trim := Scale(rate, skip, hz);
    FloorIff(trim, rate * skip, hz);
    var cut := disp - Trimmed(disp, trim);
    MulMono(cut, trim, hz);
    assert (total - Trimmed(disp, trim)) * hz == (total - disp) * hz + cut * hz;
    assert rate * (start + skip - s0) == rate * (start - s0) + rate * skip;
  }

  /** One check of a bio at time `now`; `send` says whether an admitted bio is also charged (tg_update_disptime only asks). */
  datatype Op = Op(now: nat, size: nat, send: bool)

  /** A direction together with what it has sent in all since its first slice started at `s0`. */
  datatype Ledger = Ledger(d: Dir, bytes: nat, ios: nat, s0: nat, last: nat)

  function Step(c: Clock, lim: Limits, g: Ledger, op: Op): Ledger
    requires c.Valid() && lim.Valid()
  {
    var k := MayDispatch(c, lim, g.d, op.size, op.now);
    if k.v.ok && op.send then Ledger(Sent(c, lim, k.d, op.size, op.now), g.bytes + op.size, g.ios + 1, g.s0, op.now)
    else g.(d := k.d)
  }

  /** The ledger after all of `ops`; the first one opens the first slice. */
  function Play(c: Clock, lim: Limits, ops: seq<Op>): Ledger
    requires c.Valid() && lim.Valid() && ops != []
  {
    if |ops| == 1 then
      var s0 := Renewed(c, FreshDir, ops[0].now).start;
      Step(c, lim, Ledger(FreshDir, 0, 0, s0, s0), ops[0])
    else Step(c, lim, Play(c, lim, ops[..|ops| - 1]), ops[|ops| - 1])
  }

  ghost predicate Ordered(ops: seq<Op>) {
    forall i, j :: 0 <= i < j < |ops| ==> ops[i].now <= ops[j].now
  }

  /** The state of the accounts at time `now`. */
  ghost predicate Sound(c: Clock, lim: Limits, g: Ledger, now: nat) {
    && g.d.start <= now && g.s0 <= g.d.start && g.s0 <= g.last <= now && g.last + c.slice <= g.d.end
    && (lim.bps.Some? ==> Metered(c, lim.bps.value, g.bytes, g.d.bytes, g.d, g.s0, g.last))
    && (lim.iops.Some? ==> Metered(c, lim.iops.value, g.ios, g.d.ios, g.d, g.s0, g.last))
  }

  lemma RenewedSound(c: Clock, lim: Limits, g: Ledger, now: nat, now': nat)
    requires c.Valid() && Sound(c, lim, g, now) && now <= now'
    ensures Sound(c, lim, g.(d := Renewed(c, g.d, now')), now')
    ensures var r := Renewed(c, g.d, now'); r.start <= now' && now' + c.slice <= r.end
  {
    if SliceUsed(g.d, now') {
      if lim.bps.Some? { RestartForgives(c.hz, c.slice, lim.bps.value, g.bytes, g.s0, g.last, now'); }
      if lim.iops.Some? { RestartForgives(c.hz, c.slice, lim.iops.value, g.ios, g.s0, g.last, now'); }
    } else {
      RoundUpBounds(now' + c.slice, c.slice);
    }
  }

  /** Admitted and charged, but not yet trimmed. */
  lemma ChargedSound(c: Clock, lim: Limits, g: Ledger, size: nat, now: nat)
    requires c.Valid() && lim.Valid() && Sound(c, lim, g, now) && now + c.slice <= g.d.end
    requires WithinBps(c, lim.bps, g.d, size, now).ok && WithinIops(c, lim.iops, g.d, now).ok
    ensures Sound(c, lim, Ledger(g.d.(bytes := g.d.bytes + size, ios := g.d.ios + 1), g.bytes + size, g.ios + 1, g.s0, now), now)
  {
    if lim.bps.Some? { AdmitCaps(c, lim.bps.value, g.bytes, g.d.bytes, size, g.d, g.s0, now); }
    if lim.iops.Some? { AdmitCaps(c, lim.iops.value, g.ios, g.d.ios, 1, g.d, g.s0, now); }
  }

  lemma TrimSound(c: Clock, lim: Limits, g: Ledger, now: nat)
    requires c.Valid() && Sound(c, lim, g, now) && now <= g.d.end
    ensures Sound(c, lim, g.(d := TrimSlice(c, lim, g.d, now)), now)
  {
    RoundUpBounds(now + c.slice, c.slice);
    var n := Quotient(now - g.d.start, c.slice);
    FloorIff(n, now - g.d.start, c.slice);
    if lim.bps.Some? { TrimForgives(c.hz, lim.bps.value, g.bytes, g.d.bytes, g.d.start, g.s0, n * c.slice); }
    if lim.iops.Some? { TrimForgives(c.hz, lim.iops.value, g.ios, g.d.ios, g.d.start, g.s0, n * c.slice); }
  }

  lemma StepSound(c: Clock, lim: Limits, g: Ledger, now: nat, op: Op)
    requires c.Valid() && lim.Valid() && !lim.NoRule() && Sound(c, lim, g, now) && now <= op.now
    ensures Sound(c, lim, Step(c, lim, g, op), op.now)
  {
    RenewedSound(c, lim, g, now, op.now);
    var r := g.(d := Renewed(c, g.d, op.now));
    var k := MayDispatch(c, lim, g.d, op.size, op.now);
    if k.v.ok {
      if op.send {
        ChargedSound(c, lim, r, op.size, op.now);
        var charged := r.d.(bytes := r.d.bytes + op.size, ios := r.d.ios + 1);
        TrimSound(c, lim, Ledger(charged, g.bytes + op.size, g.ios + 1, g.s0, op.now), op.now);
      }
    } else {
      RoundUpBounds(op.now + k.v.wait, c.slice);
    }
  }

  lemma {:induction false} PlaySound(c: Clock, lim: Limits, ops: seq<Op>)
    requires c.Valid() && lim.Valid() && !lim.NoRule() && ops != [] && Ordered(ops)
    ensures Sound(c, lim, Play(c, lim, ops), ops[|ops| - 1].now)
  {
    var n := |ops| - 1;
    if n == 0 {
      var r := Renewed(c, FreshDir, ops[0].now);
      RoundUpBounds(ops[0].now + c.slice, c.slice);
      var g := Ledger(FreshDir, 0, 0, r.start, r.start);
      assert Sound(c, lim, g.(d := r), ops[0].now);
      assert Renewed(c, r, ops[0].now) == r;
      StepSound(c, lim, g.(d := r), ops[0].now, ops[0]);
    } else {
      PlaySound(c, lim, ops[..n]);
      StepSound(c, lim, Play(c, lim, ops[..n]), ops[n - 1].now, ops[n]);
    }
  }

  /**
   Over any run, across trims, extensions and restarts: what was sent between the
   first slice start and `t` never exceeds the limit for that time plus one slice.
   */
  lemma RateBound(c: Clock, lim: Limits, ops: seq<Op>, t: nat)
    requires c.Valid() && lim.Valid() && !lim.NoRule() && ops != [] && Ordered(ops) && ops[|ops| - 1].now <= t
    ensures var g := Play(c, lim, ops);
            && g.s0 <= t
            && (lim.bps.Some? ==> g.bytes <= Scale(lim.bps.value, t - g.s0 + c.slice, c.hz))
            && (lim.iops.Some? ==> g.ios <= Scale(lim.iops.value, t - g.s0 + c.slice, c.hz))
  {
    PlaySound(c, lim, ops);
    SoundRate(c, lim, Play(c, lim, ops), ops[|ops| - 1].now, t);
  }

  lemma SoundRate(c: Clock, lim: Limits, g: Ledger, now: nat, t: nat)
    requires c.Valid() && lim.Valid() && Sound(c, lim, g, now) && now <= t
    ensures g.s0 <= t
    ensures lim.bps.Some? ==> g.bytes <= Scale(lim.bps.value, t - g.s0 + c.slice, c.hz)
    ensures lim.iops.Some? ==> g.ios <= Scale(lim.iops.value, t - g.s0 + c.slice, c.hz)
  {
    hide Scale, Capped;
    if lim.bps.Some? { CappedBound(c, lim.bps.value, g.bytes, g.s0, g.last, t); }
    if lim.iops.Some? { CappedBound(c, lim.iops.value, g.ios, g.s0, g.last, t); }
  }

  lemma CappedBound(c: Clock, rate: nat, total: nat, s0: nat, last: nat, t: nat)
    requires c.Valid() && Capped(c.hz, c.slice, rate, total, s0, last) && last <= t
    ensures total <= Scale(rate, t - s0 + c.slice, c.hz)
  {
    MulMono(last + c.slice - s0, t - s0 + c.slice, rate);
    FloorIff(total, rate * (t - s0 + c.slice), c.hz);
  }

  // ---------------------------------------------------------------- the computed waits

  /** A refused bio always has to wait, and asking again at once changes nothing. */
  lemma RefusalStable(c: Clock, lim: Limits, d: Dir, size: nat, now: nat)
    requires c.Valid() && lim.Valid()
    requires !MayDispatch(c, lim, d, size, now).v.ok
    ensures var k := MayDispatch(c, lim, d, size, now);
            k.v.wait >= 1 && MayDispatch(c, lim, k.d, size, now) == k && k.d.start <= now && now + k.v.wait <= k.d.end
  {
    var r := Renewed(c, d, now);
    var k := MayDispatch(c, lim, d, size, now);
    RoundUpBounds(now + c.slice, c.slice);
    RoundUpBounds(now + k.v.wait, c.slice);
    assert k.d == r.(end := k.d.end) && Renewed(c, k.d, now) == k.d;
    assert WithinBps(c, lim.bps, k.d, size, now) == WithinBps(c, lim.bps, r, size, now);
    assert WithinIops(c, lim.iops, k.d, now) == WithinIops(c, lim.iops, r, now);
  }

  /** Two limits are two checks: the byte limit is asked first, and only a bio that passes it is held to the iops limit. */
  lemma TwoLimits(c: Clock, lim: Limits, d: Dir, size: nat, now: nat)
    requires c.Valid() && lim.Valid()
    ensures var v := MayDispatch(c, lim, d, size, now).v;
            var b, i := MayDispatch(c, Limits(lim.bps, None), d, size, now).v, MayDispatch(c, Limits(None, lim.iops), d, size, now).v;
            v == if b.ok then i else b
  {
    RoundUpBounds(now + c.slice, c.slice);
  }

  /** A direction that sent nothing for so long that its slice ran out starts afresh, as if it had never sent anything. */
  lemma IdleForgiven(c: Clock, lim: Limits, d: Dir, size: nat, now: nat)
    requires c.Valid() && lim.Valid() && !lim.NoRule() && d.start <= d.end < now
    ensures MayDispatch(c, lim, d, size, now) == MayDispatch(c, lim, FreshDir, size, now)
  {
  }

  /** The arithmetic of tg_with_in_iops_limit: after the computed wait, counted from the slice start, one more io fits. */
  lemma IopsWaitArithmetic(hz: nat, iops: nat, ios: nat, rnd: nat, rnd': nat)
    requires hz > 0 && iops > 0 && ios + 1 > Scale(iops, rnd, hz)
    requires rnd' >= Scale(ios + 1, hz, iops) + 1
    ensures Scale(ios + 1, hz, iops) + 1 > rnd
    ensures ios + 1 <= Scale(iops, rnd', hz)
  {
    var need := (ios + 1) * hz;
    var w := Quotient(need, iops);
    FloorIff(ios + 1, iops * rnd, hz);
    FloorIff(rnd, need, iops);
    FloorIff(w + 1, need, iops);
    MulMono(w + 1, rnd', iops);
    FloorIff(ios + 1, iops * rnd', hz);
  }

  /** With only an iops limit, the head bio is admitted the first time it is retried, and the wait of 1 is never a fallback. */
  lemma IopsWaitSuffices(c: Clock, iops: nat, d: Dir, size: nat, now: nat)
    requires c.Valid() && iops > 0 && Renewed(c, d, now).ios + 1 <= UINT_MAX
    requires !MayDispatch(c, Limits(None, Some(iops)), d, size, now).v.ok
    ensures var lim := Limits(None, Some(iops));
            var r, k := Renewed(c, d, now), MayDispatch(c, lim, d, size, now);
            && Scale(r.ios + 1, c.hz, iops) + 1 > now - r.start
            && MayDispatch(c, lim, k.d, size, now + k.v.wait).v.ok
  {
    var lim := Limits(None, Some(iops));
    var r, k := Renewed(c, d, now), MayDispatch(c, lim, d, size, now);
    RefusalStable(c, lim, d, size, now);
    var later := now + k.v.wait;
    var r2 := Renewed(c, k.d, later);
    assert r2.start == r.start && r2.ios == r.ios;
    var rnd, rnd2 := ElapsedRnd(c, r, now), ElapsedRnd(c, r2, later);
    var w0 := Scale(r.ios + 1, c.hz, iops) + 1;
    IopsWaitArithmetic(c.hz, iops, r.ios, rnd, if rnd2 >= w0 then rnd2 else w0);
    assert later - r.start == w0;
  }

  /** The arithmetic of tg_with_in_bps_limit: a rounded-down wait of `w` misses by less than one more jiffy. */
  lemma BpsShortfall(hz: nat, bps: nat, need: nat, rnd: nat, w: nat)
    requires hz > 0 && bps > 0 && need > Scale(bps, rnd, hz)
    requires Scale(need - Scale(bps, rnd, hz), hz, bps) <= w
    ensures need * hz < bps * (rnd + w + 1)
  {
    var have := Quotient(bps * rnd, hz);
    var extra := need - have;
    FloorIff(have, bps * rnd, hz);
    FloorIff(w + 1, extra * hz, bps);
    assert need * hz == have * hz + extra * hz;
    assert bps * (rnd + w + 1) == bps * rnd + (w + 1) * bps;
  }

  lemma BpsEnough(hz: nat, bps: nat, need: nat, least: nat, rnd: nat)
    requires hz > 0 && need * hz < bps * least && rnd >= least
    ensures need <= Scale(bps, rnd, hz)
  {
    MulMono(least, rnd, bps);
    FloorIff(need, bps * rnd, hz);
  }

  lemma BpsAlmost(hz: nat, bps: nat, need: nat, rnd: nat)
    requires hz > 0 && bps >= hz && need * hz < bps * (rnd + 1) && need > Scale(bps, rnd, hz)
    ensures Scale(need - Scale(bps, rnd, hz), hz, bps) <= 1
  {
    var have := Quotient(bps * rnd, hz);
    FloorIff(have + 1, bps * rnd, hz);
    assert (have + 1) * hz == have * hz + hz;
    assert bps * (rnd + 1) == bps * rnd + bps;
    assert (need - have) * hz == need * hz - have * hz;
    FloorIff(2, (need - have) * hz, bps);
  }

  /** A refusal by the byte limit, in numbers. */
  lemma BpsRefused(c: Clock, bps: nat, d: Dir, size: nat, now: nat)
    requires c.Valid() && bps > 0
    requires !MayDispatch(c, Limits(Some(bps), None), d, size, now).v.ok
    ensures var lim, r := Limits(Some(bps), None), Renewed(c, d, now);
            var k, rnd, need := MayDispatch(c, lim, d, size, now), ElapsedRnd(c, r, now), r.bytes + size;
            var later, w := now + k.v.wait, Scale(need - Scale(bps, rnd, c.hz), c.hz, bps);
            && need > Scale(bps, rnd, c.hz)
            && later - r.start == rnd + (if w == 0 then 1 else w)
            && Renewed(c, k.d, later).start == r.start && Renewed(c, k.d, later).bytes == r.bytes
  {
    RefusalStable(c, Limits(Some(bps), None), d, size, now);
  }

  lemma BpsAdmits(c: Clock, bps: nat, d: Dir, size: nat, now: nat)
    requires c.Valid() && bps > 0
    requires var r := Renewed(c, d, now); r.bytes + size <= Scale(bps, ElapsedRnd(c, r, now), c.hz)
    ensures MayDispatch(c, Limits(Some(bps), None), d, size, now).v.ok
  {
  }

  /** With only a byte limit of at least HZ and slices of at least two jiffies, the head bio is admitted by the second retry. */
  lemma BpsWaitSuffices(c: Clock, bps: nat, d: Dir, size: nat, now: nat)
    requires c.Valid() && c.slice >= 2 && bps >= c.hz
    requires !MayDispatch(c, Limits(Some(bps), None), d, size, now).v.ok
    ensures var lim := Limits(Some(bps), None);
            var k0 := MayDispatch(c, lim, d, size, now);
            var t1 := now + k0.v.wait;
            var k1 := MayDispatch(c, lim, k0.d, size, t1);
            k1.v.ok || MayDispatch(c, lim, k1.d, size, t1 + k1.v.wait).v.ok
  {
    hide Scale, MayDispatch;
    var lim := Limits(Some(bps), None);
    var k0 := MayDispatch(c, lim, d, size, now);
    var t1 := now + k0.v.wait;
    var k1 := MayDispatch(c, lim, k0.d, size, t1);
    if !k1.v.ok {
      BpsRefused(c, bps, d, size, now);
      BpsRefused(c, bps, k0.d, size, t1);
      var r0, r1 := Renewed(c, d, now), Renewed(c, k0.d, t1);
      var need, rnd0, rnd1 := r0.bytes + size, ElapsedRnd(c, r0, now), ElapsedRnd(c, r1, t1);
      var w0 := Scale(need - Scale(bps, rnd0, c.hz), c.hz, bps);
      w0 := if w0 == 0 then 1 else w0;
      BpsShortfall(c.hz, bps, need, rnd0, w0);
      if rnd1 > rnd0 + w0 { BpsEnough(c.hz, bps, need, rnd0 + w0 + 1, rnd1); }
      assert rnd1 == rnd0 + w0;
      BpsAlmost(c.hz, bps, need, rnd1);
      BpsShortfall(c.hz, bps, need, rnd1, 1);
      var t2 := t1 + k1.v.wait;
      var r2 := Renewed(c, k1.d, t2);
      var rnd2 := ElapsedRnd(c, r2, t2);
      assert t2 - r2.start == rnd1 + 1;
      RoundUpNext(rnd1 + 1, c.slice, Slots(rnd0 + w0, c.slice));
      BpsEnough(c.hz, bps, need, rnd1 + 2, rnd2);
      BpsAdmits(c, bps, k1.d, size, t2);
    }
  }
}
