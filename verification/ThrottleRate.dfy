/**
 The other side of the throttling account (blk-throttle.c): a limit takes no more than
 it says.  Bytes and ios are the same story, told for one limit at a time.
 */
module ThrottleRate {
  import opened Arithmetic
  import opened Wrappers
  import opened ThrottleSlice

  // ---------------------------------------------------------------- one limit

  /** What a limit counts. */
  datatype Kind = ByBytes | ByIos {
    function Limit(rate: nat): Limits { if ByBytes? then Limits(Some(rate), None) else Limits(None, Some(rate)) }
    function Used(d: Dir): nat { if ByBytes? then d.bytes else d.ios }
    function Charge(size: nat): nat { if ByBytes? then size else 1 }
    function Sum(g: Ledger): nat { if ByBytes? then g.bytes else g.ios }
  }

  /** Rounding down twice loses at most one. */
  lemma ScaleSplit(rate: nat, a: nat, b: nat, h: nat)
    requires h > 0
    ensures Scale(rate, a, h) + Scale(rate, b, h) <= Scale(rate, a + b, h) <= Scale(rate, a, h) + Scale(rate, b, h) + 1
  {
    var x, y, z := Scale(rate, a, h), Scale(rate, b, h), Scale(rate, a + b, h);
    assert rate * (a + b) == rate * a + rate * b;
    FloorIff(x, rate * a, h);
    FloorIff(y, rate * b, h);
    assert (x + y) * h == x * h + y * h;
    FloorIff(x + y, rate * (a + b), h);
    FloorIff(x + 1, rate * a, h);
    FloorIff(y + 1, rate * b, h);
    assert (x + y + 2) * h == (x + 1) * h + (y + 1) * h;
    FloorIff(x + y + 2, rate * (a + b), h);
  }

  lemma ScaleMono(rate: nat, a: nat, b: nat, h: nat)
    requires h > 0 && a <= b
    ensures Scale(rate, a, h) <= Scale(rate, b, h)
  {
    MulMono(a, b, rate);
    FloorIff(Scale(rate, a, h), rate * a, h);
    FloorIff(Scale(rate, a, h), rate * b, h);
  }

  /** The whole slices of an elapsed time, and what is left after them. */
  lemma WholeSlices(c: Clock, d: Dir, now: nat)
    requires c.Valid() && d.start <= now
    ensures var n := Quotient(now - d.start, c.slice);
            && n * c.slice <= now - d.start < n * c.slice + c.slice
            && ElapsedRnd(c, d, now) == (if now - d.start == n * c.slice && n > 0 then n * c.slice else n * c.slice + c.slice)
  {
    var e := now - d.start;
    var n := Quotient(e, c.slice);
    assert e == e / c.slice * c.slice + e % c.slice;
    if e == 0 {
      RoundUpMultiple(c.slice);
      assert n == 0;
    } else {
      RoundUpBounds(e, c.slice);
      SlotsOf(e, c.slice, n);
    }
  }

  lemma SlotsOf(e: nat, step: nat, n: nat)
    requires step > 0 && n * step <= e < n * step + step
    ensures RoundUp(e, step) == if e == n * step then n * step else n * step + step
  {
    RoundUpBounds(e, step);
    var k := Slots(e, step);
    if e == n * step {
      assert (n + 1) * step == n * step + step && (k + 1) * step == k * step + step;
      MulCancel(k, n + 1, step);
      MulCancel(n, k + 1, step);
    } else {
      assert (n + 2) * step == n * step + step + step && (n + 1) * step == n * step + step;
      MulCancel(n, k, step);
      MulCancel(k, n + 2, step);
    }
  }

  // ---------------------------------------------------------------- what a trim gives back

  /** The arithmetic of a trim: what is charged, less what the skipped time pays for. */
  lemma TrimRoom(rate: nat, hz: nat, used: nat, unit: nat, skip: nat, rnd: nat, rnd': nat)
    requires hz > 0 && used + unit + 1 <= Scale(rate, rnd, hz) && rnd <= skip + rnd' && unit <= Scale(rate, rnd', hz)
    ensures (if used >= Scale(rate, skip, hz) then used - Scale(rate, skip, hz) else 0) + unit <= Scale(rate, rnd', hz)
  {
    hide Scale;
    ScaleSplit(rate, skip, rnd', hz);
    ScaleMono(rate, rnd, skip + rnd', hz);
  }

  /**
   A trim costs nothing but a rounding: what would have fitted with one byte, or one io, to spare
   fits afterwards, unless it is more than a slice that starts afresh at the new start would take.
   */
  lemma TrimGivesBack(c: Clock, lim: Limits, d: Dir, size: nat, now: nat)
    requires c.Valid() && lim.Valid() && d.start <= now
    ensures var e := TrimSlice(c, lim, d, now);
            && e.start <= now
            && (WithinBps(c, lim.bps, d, size + 1, now).ok && WithinBps(c, lim.bps, e.(bytes := 0), size, now).ok ==>
                  WithinBps(c, lim.bps, e, size, now).ok)
            && (WithinIops(c, lim.iops, d.(ios := d.ios + 1), now).ok && WithinIops(c, lim.iops, e.(ios := 0), now).ok ==>
                  WithinIops(c, lim.iops, e, now).ok)
  {
    TrimTimes(c, lim, d, now);
    if lim.bps.Some? { BytesBack(c, lim, d, size, now); }
    if lim.iops.Some? { IosBack(c, lim, d, now); }
    hide TrimSlice, ElapsedRnd;
  }

  lemma TrimTimes(c: Clock, lim: Limits, d: Dir, now: nat)
    requires c.Valid() && d.start <= now
    ensures var e := TrimSlice(c, lim, d, now);
            d.start <= e.start <= now && ElapsedRnd(c, d, now) <= e.start - d.start + ElapsedRnd(c, e, now)
  {
    hide Scale, Quotient, ElapsedRnd;
    var e := TrimSlice(c, lim, d, now);
    WholeSlices(c, d, now);
    if e.start == d.start {
      SameElapsed(c, d, e, now);
    } else {
      OneSlice(c, e, now);
    }
  }

  lemma OneSlice(c: Clock, d: Dir, now: nat)
    requires c.Valid() && d.start <= now < d.start + c.slice
    ensures ElapsedRnd(c, d, now) == c.slice
  {
    SlotsOf(if now == d.start then c.slice else now - d.start, c.slice, if now == d.start then 1 else 0);
  }

  lemma SameElapsed(c: Clock, d: Dir, e: Dir, now: nat)
    requires c.Valid() && d.start == e.start <= now
    ensures ElapsedRnd(c, d, now) == ElapsedRnd(c, e, now)
  {
  }

  lemma BytesBack(c: Clock, lim: Limits, d: Dir, size: nat, now: nat)
    requires c.Valid() && lim.bps.Some? && lim.bps.value > 0 && d.start <= now && TrimSlice(c, lim, d, now).start <= now
    ensures var e := TrimSlice(c, lim, d, now);
            WithinBps(c, lim.bps, d, size + 1, now).ok && WithinBps(c, lim.bps, e.(bytes := 0), size, now).ok ==>
              WithinBps(c, lim.bps, e, size, now).ok
  {
    hide ElapsedRnd, Scale, Quotient;
    var e := TrimSlice(c, lim, d, now);
    TrimTimes(c, lim, d, now);
    SameElapsed(c, e.(bytes := 0), e, now);
    var rate, rnd, rnd' := lim.bps.value, ElapsedRnd(c, d, now), ElapsedRnd(c, e, now);
    if d.bytes + size + 1 <= Scale(rate, rnd, c.hz) && size <= Scale(rate, rnd', c.hz) {
      TrimRoom(rate, c.hz, d.bytes, size, e.start - d.start, rnd, rnd');
      if e.start == d.start { SameElapsed(c, d, e, now); }
    }
  }

  lemma IosBack(c: Clock, lim: Limits, d: Dir, now: nat)
    requires c.Valid() && lim.iops.Some? && lim.iops.value > 0 && d.start <= now && TrimSlice(c, lim, d, now).start <= now
    ensures var e := TrimSlice(c, lim, d, now);
            WithinIops(c, lim.iops, d.(ios := d.ios + 1), now).ok && WithinIops(c, lim.iops, e.(ios := 0), now).ok ==>
              WithinIops(c, lim.iops, e, now).ok
  {
    hide ElapsedRnd, Scale, Quotient;
    var e := TrimSlice(c, lim, d, now);
    TrimTimes(c, lim, d, now);
    SameElapsed(c, e.(ios := 0), e, now);
    SameElapsed(c, d.(ios := d.ios + 1), d, now);
    var rate, rnd, rnd' := lim.iops.value, ElapsedRnd(c, d, now), ElapsedRnd(c, e, now);
    if d.ios + 2 <= Scale(rate, rnd, c.hz) && 1 <= Scale(rate, rnd', c.hz) {
      TrimRoom(rate, c.hz, d.ios, 1, e.start - d.start, rnd, rnd');
      if e.start == d.start { SameElapsed(c, d, e, now); }
    }
  }

  // ---------------------------------------------------------------- a direction with a bio always waiting

  /** The ledger before the last check. */
  function Before(c: Clock, lim: Limits, ops: seq<Op>): Ledger
    requires c.Valid() && lim.Valid() && ops != []
  {
    if |ops| == 1 then
      var s0 := Renewed(c, FreshDir, ops[0].now).start;
      Ledger(FreshDir, 0, 0, s0, s0)
    else Play(c, lim, ops[..|ops| - 1])
  }

  /** The answer of the last check. */
  function Answer(c: Clock, lim: Limits, ops: seq<Op>): Verdict
    requires c.Valid() && lim.Valid() && ops != []
  {
    var op := ops[|ops| - 1];
    MayDispatch(c, lim, Before(c, lim, ops).d, op.size, op.now).v
  }

  /** A bio is always waiting: a refused one is asked again when it was told to, and behind an admitted one the next is asked at once. */
  ghost predicate Prompt(c: Clock, lim: Limits, ops: seq<Op>)
    requires c.Valid() && lim.Valid() && ops != []
  {
    var n := |ops| - 1;
    && ops[n].send
    && (n > 0 ==>
          && Prompt(c, lim, ops[..n])
          && var v := Answer(c, lim, ops[..n]);
             ops[n].now == ops[n - 1].now + v.wait && (!v.ok ==> ops[n].size == ops[n - 1].size))
  }

  /** What was let through covers the time up to the slice start, but for a rounding in every slice. */
  ghost predicate Earned(c: Clock, rate: nat, sum: nat, used: nat, start: nat, s0: nat) {
    used <= sum && s0 <= start && c.slice * (rate * (start - s0)) <= c.slice * (c.hz * (sum - used)) + (c.hz + rate) * (start - s0)
  }

  /** A refusal, in numbers: neither the time up to it nor the time up to the retry is much more than the bio needs. */
  lemma RefusedTimes(c: Clock, rate: nat, b: Kind, d: Dir, size: nat, now: nat)
    requires c.Valid() && rate > 0 && (b.ByIos? ==> Renewed(c, d, now).ios + 1 <= UINT_MAX)
    requires !MayDispatch(c, b.Limit(rate), d, size, now).v.ok
    ensures var k, r := MayDispatch(c, b.Limit(rate), d, size, now), Renewed(c, d, now);
            var need := b.Used(r) + b.Charge(size);
            && k.d.start == r.start <= now && b.Used(k.d) == b.Used(r) && now + k.v.wait <= k.d.end
            && rate * (now - r.start) <= c.hz * need && rate * (now + k.v.wait - r.start) <= c.hz * need + c.hz + rate
  {
    if b.ByBytes? { RefusedBytes(c, rate, d, size, now); } else { RefusedIos(c, rate, d, size, now); }
  }

  lemma RefusedBytes(c: Clock, rate: nat, d: Dir, size: nat, now: nat)
    requires c.Valid() && rate > 0 && !MayDispatch(c, Limits(Some(rate), None), d, size, now).v.ok
    ensures var k, r := MayDispatch(c, Limits(Some(rate), None), d, size, now), Renewed(c, d, now);
            var need := r.bytes + size;
            && k.d.start == r.start <= now && k.d.bytes == r.bytes && now + k.v.wait <= k.d.end
            && rate * (now - r.start) <= c.hz * need && rate * (now + k.v.wait - r.start) <= c.hz * need + c.hz + rate
  {
    RefusalStable(c, Limits(Some(rate), None), d, size, now);
    BpsRefused(c, rate, d, size, now);
    var r := Renewed(c, d, now);
    var rnd, need := ElapsedRnd(c, r, now), r.bytes + size;
    hide Scale, MayDispatch;
    RefusedArithmetic(c.hz, rate, need, rnd);
    MulMono(now - r.start, rnd, rate);
  }

  lemma RefusedArithmetic(hz: nat, rate: nat, need: nat, rnd: nat)
    requires hz > 0 && rate > 0 && need > Scale(rate, rnd, hz)
    ensures rate * rnd <= hz * need
    ensures var w := Scale(need - Scale(rate, rnd, hz), hz, rate); rate * (rnd + (if w == 0 then 1 else w)) <= hz * need + hz + rate
  {
    var have := Scale(rate, rnd, hz);
    var extra := need - have;
    var w := Scale(extra, hz, rate);
    FloorIff(have + 1, rate * rnd, hz);
    FloorIff(w, extra * hz, rate);
    MulMono(have + 1, need, hz);
    assert need * hz == have * hz + extra * hz;
    assert rate * (rnd + w) == rate * rnd + w * rate;
    assert rate * (rnd + 1) == rate * rnd + rate;
  }

  lemma RefusedIos(c: Clock, rate: nat, d: Dir, size: nat, now: nat)
    requires c.Valid() && rate > 0 && Renewed(c, d, now).ios + 1 <= UINT_MAX
    requires !MayDispatch(c, Limits(None, Some(rate)), d, size, now).v.ok
    ensures var k, r := MayDispatch(c, Limits(None, Some(rate)), d, size, now), Renewed(c, d, now);
            var need := r.ios + 1;
            && k.d.start == r.start <= now && k.d.ios == r.ios && now + k.v.wait <= k.d.end
            && rate * (now - r.start) <= c.hz * need && rate * (now + k.v.wait - r.start) <= c.hz * need + c.hz + rate
  {
    RefusalStable(c, Limits(None, Some(rate)), d, size, now);
    IopsWaitSuffices(c, rate, d, size, now);
    var k, r := MayDispatch(c, Limits(None, Some(rate)), d, size, now), Renewed(c, d, now);
    assert now + k.v.wait - r.start == Scale(r.ios + 1, c.hz, rate) + 1;
    hide Scale, MayDispatch;
    IosArithmetic(c.hz, rate, r.ios + 1, now - r.start);
  }

  lemma IosArithmetic(hz: nat, rate: nat, need: nat, elapsed: nat)
    requires hz > 0 && rate > 0 && elapsed <= Scale(need, hz, rate)
    ensures rate * elapsed <= hz * need && rate * (Scale(need, hz, rate) + 1) <= hz * need + hz + rate
  {
    var w := Scale(need, hz, rate);
    FloorIff(w, need * hz, rate);
    MulMono(elapsed, w, rate);
    assert (w + 1) * rate == w * rate + rate;
  }

  /** A trim after a prompt admission: the time it skips was earned, but for a rounding. */
  lemma TrimEarns(c: Clock, rate: nat, sum: nat, used: nat, unit: nat, start: nat, s0: nat, skip: nat)
    requires c.Valid() && Earned(c, rate, sum, used, start, s0) && skip >= c.slice
    requires rate * skip <= c.hz * (used + unit) + c.hz + rate
    ensures var trim := Scale(rate, skip, c.hz);
            Earned(c, rate, sum + unit, if used + unit >= trim then used + unit - trim else 0, start + skip, s0)
  {
    var trim := Scale(rate, skip, c.hz);
    var cut := if used + unit >= trim then trim else used + unit;
    FloorIff(trim + 1, rate * skip, c.hz);
    assert (trim + 1) * c.hz == trim * c.hz + c.hz;
    assert rate * skip <= c.hz * cut + (c.hz + rate);
    MulMono(rate * skip, c.hz * cut + (c.hz + rate), c.slice);
    MulMono(c.slice, skip, c.hz + rate);
    EarnedSum(c.slice, rate, c.hz, start - s0, skip, sum - used, cut);
  }

  lemma EarnedSum(slice: nat, rate: nat, hz: nat, a: nat, skip: nat, gone: nat, cut: nat)
    requires slice * (rate * a) <= slice * (hz * gone) + (hz + rate) * a
    requires rate * skip * slice <= (hz * cut + (hz + rate)) * slice && slice * (hz + rate) <= skip * (hz + rate)
    ensures slice * (rate * (a + skip)) <= slice * (hz * (gone + cut)) + (hz + rate) * (a + skip)
  {
    assert rate * (a + skip) == rate * a + rate * skip;
    assert slice * (rate * a + rate * skip) == slice * (rate * a) + rate * skip * slice;
    assert (hz * cut + (hz + rate)) * slice == slice * (hz * cut) + slice * (hz + rate);
    assert hz * (gone + cut) == hz * gone + hz * cut;
    assert slice * (hz * gone + hz * cut) == slice * (hz * gone) + slice * (hz * cut);
    assert (hz + rate) * (a + skip) == (hz + rate) * a + skip * (hz + rate);
  }

  /** A direction keeps up at time `now`, when a check of a bio of `size` bytes answered `v`. */
  ghost predicate Abreast(c: Clock, rate: nat, b: Kind, g: Ledger, now: nat, v: Verdict, size: nat)
    requires c.Valid()
  {
    var need := b.Used(g.d) + b.Charge(size);
    && Earned(c, rate, b.Sum(g), b.Used(g.d), g.d.start, g.s0)
    && g.d.start <= now && now + v.wait <= g.d.end
    && (v.ok ==> v.wait == 0 && now - g.d.start < c.slice)
    && (!v.ok ==> rate * (now - g.d.start) <= c.hz * need && rate * (now + v.wait - g.d.start) <= c.hz * need + c.hz + rate)
    && (b.ByIos? ==> g.d.ios <= Scale(rate, c.slice, c.hz) + 1)
  }

  /** With one limit, a charge and its trim, in numbers. */
  lemma SentIs(c: Clock, rate: nat, b: Kind, d: Dir, size: nat, now: nat)
    requires c.Valid() && d.start <= now <= d.end
    ensures var e, n := Sent(c, b.Limit(rate), d, size, now), Quotient(now - d.start, c.slice);
            var trim := Scale(rate, n * c.slice, c.hz);
            var used := b.Used(d) + b.Charge(size);
            && now <= e.end
            && (n == 0 ==> e.start == d.start && b.Used(e) == used)
            && (n > 0 ==> e.start == d.start + n * c.slice && b.Used(e) == if used >= trim then used - trim else 0)
  {
    RoundUpBounds(now + c.slice, c.slice);
    hide Scale, Quotient;
  }

  lemma SentEarns(c: Clock, rate: nat, b: Kind, d: Dir, size: nat, now: nat, sum: nat, s0: nat)
    requires c.Valid() && d.start <= now <= d.end && Earned(c, rate, sum, b.Used(d), d.start, s0)
    requires now - d.start < c.slice || rate * (now - d.start) <= c.hz * (b.Used(d) + b.Charge(size)) + c.hz + rate
    ensures var e := Sent(c, b.Limit(rate), d, size, now);
            && Earned(c, rate, sum + b.Charge(size), b.Used(e), e.start, s0)
            && e.start <= now < e.start + c.slice && now <= e.end
  {
    hide Scale, Sent, Quotient, Earned;
    SentIs(c, rate, b, d, size, now);
    WholeSlices(c, d, now);
    var n := Quotient(now - d.start, c.slice);
    if n > 0 {
      var skip := n * c.slice;
      MulMono(1, n, c.slice);
      MulMono(skip, now - d.start, rate);
      TrimEarns(c, rate, sum, b.Used(d), b.Charge(size), d.start, s0, skip);
    } else {
      ChargeEarns(c, rate, sum, b.Used(d), b.Charge(size), d.start, s0);
    }
  }

  lemma ChargeEarns(c: Clock, rate: nat, sum: nat, used: nat, unit: nat, start: nat, s0: nat)
    requires Earned(c, rate, sum, used, start, s0)
    ensures Earned(c, rate, sum + unit, used + unit, start, s0)
  {
  }

  /** The io count of a slice stays small. */
  lemma SentFew(c: Clock, rate: nat, d: Dir, size: nat, now: nat)
    requires c.Valid() && rate > 0 && d.start <= now <= d.end && WithinIops(c, Some(rate), d, now).ok
    ensures Sent(c, Limits(None, Some(rate)), d, size, now).ios <= Scale(rate, c.slice, c.hz) + 1
  {
    SentIs(c, rate, ByIos, d, size, now);
    WholeSlices(c, d, now);
    var n, rnd := Quotient(now - d.start, c.slice), ElapsedRnd(c, d, now);
    assert d.ios + 1 <= Scale(rate, rnd, c.hz);
    hide Sent, Scale, Quotient, WithinIops;
    ScaleSplit(rate, n * c.slice, c.slice, c.hz);
    ScaleMono(rate, rnd, n * c.slice + c.slice, c.hz);
    if n == 0 { assert n * c.slice == 0; }
  }

  lemma StepAbreast(c: Clock, rate: nat, b: Kind, g: Ledger, now: nat, v: Verdict, size: nat, op: Op)
    requires c.Valid() && rate > 0 && (b.ByIos? ==> Scale(rate, c.slice, c.hz) + 2 <= UINT_MAX)
    requires Abreast(c, rate, b, g, now, v, size) && op.send && op.now == now + v.wait && (!v.ok ==> op.size == size)
    ensures Abreast(c, rate, b, Step(c, b.Limit(rate), g, op), op.now, MayDispatch(c, b.Limit(rate), g.d, op.size, op.now).v, op.size)
  {
    var k, r := MayDispatch(c, b.Limit(rate), g.d, op.size, op.now), Renewed(c, g.d, op.now);
    RoundUpBounds(op.now + c.slice, c.slice);
    assert r == g.d.(end := r.end) && op.now <= r.end;
    hide Scale, Earned, Sent;
    if k.v.ok {
      SentEarns(c, rate, b, r, op.size, op.now, b.Sum(g), g.s0);
      if b.ByIos? { SentFew(c, rate, r, op.size, op.now); }
    } else {
      RefusedTimes(c, rate, b, g.d, op.size, op.now);
    }
  }

  lemma {:induction false} PlayAbreast(c: Clock, rate: nat, b: Kind, ops: seq<Op>)
    requires c.Valid() && rate > 0 && (b.ByIos? ==> Scale(rate, c.slice, c.hz) + 2 <= UINT_MAX)
    requires ops != [] && Prompt(c, b.Limit(rate), ops)
    ensures Abreast(c, rate, b, Play(c, b.Limit(rate), ops), ops[|ops| - 1].now, Answer(c, b.Limit(rate), ops), ops[|ops| - 1].size)
  {
    hide Abreast, Step, MayDispatch, Scale;
    var n := |ops| - 1;
    if n == 0 {
      FirstAbreast(c, rate, b, ops[0]);
    } else {
      PlayAbreast(c, rate, b, ops[..n]);
      var v := Answer(c, b.Limit(rate), ops[..n]);
      StepAbreast(c, rate, b, Play(c, b.Limit(rate), ops[..n]), ops[n - 1].now, v, ops[n - 1].size, ops[n]);
    }
  }

  lemma FirstAbreast(c: Clock, rate: nat, b: Kind, op: Op)
    requires c.Valid() && rate > 0 && (b.ByIos? ==> Scale(rate, c.slice, c.hz) + 2 <= UINT_MAX) && op.send
    ensures Abreast(c, rate, b, Play(c, b.Limit(rate), [op]), op.now, Answer(c, b.Limit(rate), [op]), op.size)
  {
    var lim, r := b.Limit(rate), Renewed(c, FreshDir, op.now);
    var g := Ledger(r, 0, 0, r.start, r.start);
    RoundUpBounds(op.now + c.slice, c.slice);
    assert Renewed(c, r, op.now) == r && op.now - r.start == 0;
    assert Earned(c, rate, 0, 0, r.start, r.start);
    StepAbreast(c, rate, b, g, op.now, Verdict(true, 0), op.size, op);
    hide Abreast, Scale;
    assert MayDispatch(c, lim, FreshDir, op.size, op.now) == MayDispatch(c, lim, r, op.size, op.now);
  }

  /**
   The rate is reached: with a bio always waiting, what was let through, together with the bio
   that waits, is no less than the rate allows for the time, but for a rounding of one byte or io
   and one jiffy in every slice, and one slice at the end.
   */
  lemma RateReached(c: Clock, rate: nat, b: Kind, ops: seq<Op>)
    requires c.Valid() && rate > 0 && (b.ByIos? ==> Scale(rate, c.slice, c.hz) + 2 <= UINT_MAX)
    requires ops != [] && Prompt(c, b.Limit(rate), ops)
    ensures var g, last := Play(c, b.Limit(rate), ops), ops[|ops| - 1];
            var waiting := if Answer(c, b.Limit(rate), ops).ok then 0 else b.Charge(last.size);
            && g.s0 <= last.now
            && c.slice * (rate * (last.now - g.s0))
                 <= c.slice * (c.hz * (b.Sum(g) + waiting)) + (c.hz + rate) * (last.now - g.s0) + c.slice * (rate * c.slice)
  {
    hide Play, Answer, Scale, Prompt;
    PlayAbreast(c, rate, b, ops);
    var g, last, v := Play(c, b.Limit(rate), ops), ops[|ops| - 1], Answer(c, b.Limit(rate), ops);
    var waiting := if v.ok then 0 else b.Charge(last.size);
    var e := last.now - g.d.start;
    if v.ok { MulMono(e, c.slice, rate); }
    assert rate * e <= c.hz * (b.Used(g.d) + waiting) + rate * c.slice by { if v.ok { assert c.hz * (b.Used(g.d) + waiting) >= 0; } else { assert rate * c.slice >= 0; } }
    AddUp(c.slice, rate, c.hz, g.d.start - g.s0, e, b.Sum(g) - b.Used(g.d), b.Used(g.d) + waiting);
  }

  lemma AddUp(slice: nat, rate: nat, hz: nat, a: nat, e: nat, gone: nat, left: nat)
    requires slice * (rate * a) <= slice * (hz * gone) + (hz + rate) * a && rate * e <= hz * left + rate * slice
    ensures slice * (rate * (a + e)) <= slice * (hz * (gone + left)) + (hz + rate) * (a + e) + slice * (rate * slice)
  {
    MulMono(rate * e, hz * left + rate * slice, slice);
    assert rate * (a + e) == rate * a + rate * e;
    assert slice * (rate * a + rate * e) == slice * (rate * a) + rate * e * slice;
    assert (hz * left + rate * slice) * slice == slice * (hz * left) + slice * (rate * slice);
    assert hz * (gone + left) == hz * gone + hz * left;
    assert slice * (hz * gone + hz * left) == slice * (hz * gone) + slice * (hz * left);
    assert (hz + rate) * (a + e) == (hz + rate) * a + (hz + rate) * e;
    assert (hz + rate) * e >= 0;
  }
}
