/**
 Physical segment counts of requests (blk-merge.c).

 `joins` is the queue's answer for two adjacent vectors: physically contiguous and
 not across a segment boundary.  Every bio carries data.
 */
module Segments {

  datatype Vec = Vec(page: nat, offset: nat, len: nat)

  datatype Queue = Queue(cluster: bool, bouncePfn: nat, maxSegSize: nat, maxSegs: nat, maxSectors: nat, joins: (Vec, Vec) -> bool) {
    predicate High(v: Vec) { v.page > bouncePfn }
  }

  /** bi_seg_front_size, bi_seg_back_size, bi_phys_segments and BIO_SEG_VALID beside the vectors. */
  datatype Bio = Bio(vecs: seq<Vec>, segValid: bool, phys: nat, front: nat, back: nat)

  function Max(a: nat, b: nat): nat { if a >= b then a else b }

  // ---------------------------------------------------------------- partitions

  function Size(p: seq<Vec>): nat { if p == [] then 0 else Size(p[..|p| - 1]) + p[|p| - 1].len }

  function Flat(ps: seq<seq<Vec>>): seq<Vec> { if ps == [] then [] else Flat(ps[..|ps| - 1]) + ps[|ps| - 1] }

  function First(ps: seq<seq<Vec>>): nat { if ps == [] then 0 else Size(ps[0]) }

  function Last(ps: seq<seq<Vec>>): nat { if ps == [] then 0 else Size(ps[|ps| - 1]) }

  /** One hardware segment: a single vector, or joinable vectors within the size limit. */
  ghost predicate IsSegment(q: Queue, p: seq<Vec>) {
    p != [] && (|p| > 1 ==> q.cluster && Size(p) <= q.maxSegSize && forall j :: 0 < j < |p| ==> q.joins(p[j - 1], p[j]))
  }

  /** `ps` cuts `vs` into hardware segments. */
  ghost predicate Cuts(q: Queue, ps: seq<seq<Vec>>, vs: seq<Vec>) {
    Flat(ps) == vs && forall i :: 0 <= i < |ps| ==> IsSegment(q, ps[i])
  }

  /** May `v` be added to the current segment `p`?  With `bounce`, a high page always stands alone. */
  predicate MayJoin(q: Queue, p: seq<Vec>, v: Vec, bounce: bool)
    requires p != []
  {
    && q.cluster && Size(p) + v.len <= q.maxSegSize && q.joins(p[|p| - 1], v)
    && (bounce ==> !q.High(p[|p| - 1]) && !q.High(v))
  }

  function Extended(q: Queue, ps: seq<seq<Vec>>, v: Vec, bounce: bool): seq<seq<Vec>> {
    var n := |ps| - 1;
    if n >= 0 && ps[n] != [] && MayJoin(q, ps[n], v, bounce) then ps[..n] + [ps[n] + [v]] else ps + [[v]]
  }

  /** The greedy cut, left to right. */
  function Pieces(q: Queue, vs: seq<Vec>, bounce: bool): seq<seq<Vec>> {
    if vs == [] then [] else Extended(q, Pieces(q, vs[..|vs| - 1], bounce), vs[|vs| - 1], bounce)
  }

  lemma SizeMore(p: seq<Vec>, v: Vec)
    ensures Size(p + [v]) == Size(p) + v.len
  {
    assert (p + [v])[..|p|] == p;
  }

  lemma FlatMore(ps: seq<seq<Vec>>, p: seq<Vec>)
    ensures Flat(ps + [p]) == Flat(ps) + p
  {
    assert (ps + [p])[..|ps|] == ps;
  }

  lemma {:induction false} SizeSplit(a: seq<Vec>, b: seq<Vec>)
    ensures Size(a + b) == Size(a) + Size(b)
  {
    if b == [] {
      assert a + b == a;
    } else {
      var c := b[..|b| - 1];
      SizeSplit(a, c);
      assert (a + b)[..|a + b| - 1] == a + c;
    }
  }

  lemma {:induction false} FlatSplit(a: seq<seq<Vec>>, b: seq<seq<Vec>>)
    ensures Flat(a + b) == Flat(a) + Flat(b)
  {
    if b == [] {
      assert a + b == a;
    } else {
      var c := b[..|b| - 1];
      FlatSplit(a, c);
      assert (a + b)[..|a + b| - 1] == a + c;
    }
  }

  lemma PiecesMore(q: Queue, vs: seq<Vec>, v: Vec, bounce: bool)
    ensures Pieces(q, vs + [v], bounce) == Extended(q, Pieces(q, vs, bounce), v, bounce)
  {
    assert (vs + [v])[..|vs|] == vs;
  }

  lemma ExtendedCuts(q: Queue, ps: seq<seq<Vec>>, vs: seq<Vec>, v: Vec, bounce: bool)
    requires Cuts(q, ps, vs)
    ensures Cuts(q, Extended(q, ps, v, bounce), vs + [v])
  {
    var n := |ps| - 1;
    if n >= 0 {
      assert IsSegment(q, ps[n]);
      assert ps == ps[..n] + [ps[n]];
      SizeMore(ps[n], v);
      FlatMore(ps[..n], ps[n] + [v]);
    }
    FlatMore(ps, [v]);
  }

  /** The greedy cut is a cut. */
  lemma {:induction false} PiecesCut(q: Queue, vs: seq<Vec>, bounce: bool)
    ensures Cuts(q, Pieces(q, vs, bounce), vs)
  {
    if vs != [] {
      var n := |vs| - 1;
      PiecesCut(q, vs[..n], bounce);
      ExtendedCuts(q, Pieces(q, vs[..n], bounce), vs[..n], vs[n], bounce);
      assert vs == vs[..n] + [vs[n]];
    }
  }

  /** A cut without its last vector. */
  function Shorter(ps: seq<seq<Vec>>): seq<seq<Vec>>
    requires ps != [] && ps[|ps| - 1] != []
  {
    var n := |ps| - 1;
    var p := ps[n];
    if |p| == 1 then ps[..n] else ps[..n] + [p[..|p| - 1]]
  }

  lemma ShorterCuts(q: Queue, ps: seq<seq<Vec>>, vs: seq<Vec>)
    requires Cuts(q, ps, vs) && vs != []
    ensures ps != [] && IsSegment(q, ps[|ps| - 1]) && Cuts(q, Shorter(ps), vs[..|vs| - 1])
    ensures var p := ps[|ps| - 1]; p[|p| - 1] == vs[|vs| - 1]
    ensures var p := ps[|ps| - 1]; |p| > 1 ==> vs[..|vs| - 1] != [] && vs[|vs| - 2] == p[|p| - 2]
  {
    var n := |ps| - 1;
    assert ps != [];
    var p := ps[n];
    assert IsSegment(q, p);
    assert vs == Flat(ps[..n]) + p;
    assert vs[..|vs| - 1] == Flat(ps[..n]) + p[..|p| - 1];
    if |p| > 1 { FlatMore(ps[..n], p[..|p| - 1]); }
  }

  /** In a cut, the last vector of the last piece is the last vector. */
  lemma LastOfCut(q: Queue, ps: seq<seq<Vec>>, vs: seq<Vec>)
    requires Cuts(q, ps, vs) && vs != []
    ensures ps != [] && var p := ps[|ps| - 1]; p != [] && p[|p| - 1] == vs[|vs| - 1]
  {
    ShorterCuts(q, ps, vs);
  }

  /**
   Greedy stays ahead: without the bounce rule it never needs more pieces than
   any other cut, and on a tie its last piece is no bigger.
   */
  lemma {:induction false} GreedyAhead(q: Queue, ps: seq<seq<Vec>>, vs: seq<Vec>)
    requires Cuts(q, ps, vs)
    ensures var g := Pieces(q, vs, false); |g| <= |ps| && (|g| == |ps| ==> Last(g) <= Last(ps))
    decreases |vs|
  {
    if vs != [] {
      var m := |vs| - 1;
      var us, v := vs[..m], vs[m];
      ShorterCuts(q, ps, vs);
      var ss := Shorter(ps);
      GreedyAhead(q, ss, us);
      PiecesCut(q, us, false);
      if us != [] { LastOfCut(q, Pieces(q, us, false), us); }
      GreedyStep(q, ps, us, v, Pieces(q, us, false));
      assert vs == us + [v];
      PiecesMore(q, us, v, false);
    }
  }

  /** One vector more: `ps` is any cut that ends in `v`, `g` the greedy one of what is before it. */
  lemma GreedyStep(q: Queue, ps: seq<seq<Vec>>, us: seq<Vec>, v: Vec, g: seq<seq<Vec>>)
    requires ps != [] && IsSegment(q, ps[|ps| - 1])
    requires var p := ps[|ps| - 1]; p[|p| - 1] == v && (|p| > 1 ==> us != [] && us[|us| - 1] == p[|p| - 2])
    requires |g| <= |Shorter(ps)| && (|g| == |Shorter(ps)| ==> Last(g) <= Last(Shorter(ps)))
    requires us != [] ==> g != [] && var e := g[|g| - 1]; e != [] && e[|e| - 1] == us[|us| - 1]
    ensures var h := Extended(q, g, v, false); |h| <= |ps| && (|h| == |ps| ==> Last(h) <= Last(ps))
  {
    hide Size;
    var p := ps[|ps| - 1];
    var x := p[..|p| - 1];
    assert p == x + [v];
    SizeMore(x, v);
    SizeOne(v);
    if |p| > 1 && |g| == |ps| {
      var e := g[|g| - 1];
      assert q.joins(p[|p| - 2], p[|p| - 1]);
      assert MayJoin(q, e, v, false);
      SizeMore(e, v);
    } else {
      GreedyLast(q, g, v);
    }
  }

  lemma SizeOne(v: Vec)
    ensures Size([v]) == v.len
  {
    SizeMore([], v);
    assert [] + [v] == [v];
  }

  lemma GreedyLast(q: Queue, g: seq<seq<Vec>>, v: Vec)
    ensures var h := Extended(q, g, v, false); |h| <= |g| + 1 && |h| >= |g| && (|h| == |g| + 1 ==> h[|g|] == [v])
  {
  }

  // ---------------------------------------------------------------- counting

  function Vecs(bios: seq<Bio>): seq<Vec> { if bios == [] then [] else Vecs(bios[..|bios| - 1]) + bios[|bios| - 1].vecs }

  lemma VecsMore(bios: seq<Bio>, b: Bio)
    ensures Vecs(bios + [b]) == Vecs(bios) + b.vecs
  {
    assert (bios + [b])[..|bios|] == bios;
  }

  lemma {:induction false} VecsSplit(a: seq<Bio>, b: seq<Bio>)
    ensures Vecs(a + b) == Vecs(a) + Vecs(b)
  {
    if b == [] {
      assert a + b == a;
    } else {
      var c := b[..|b| - 1];
      VecsSplit(a, c);
      assert (a + b)[..|a + b| - 1] == a + c;
    }
  }

  /** What counting a chain of bios leaves in their segment sizes: the sizes only ever grow. */
  function Sized(q: Queue, bios: seq<Bio>): seq<Bio>
    requires bios != []
  {
    var ps, n := Pieces(q, Vecs(bios), true), |bios| - 1;
    var fs := bios[0 := bios[0].(front := Max(bios[0].front, First(ps)))];
    fs[n := fs[n].(back := Max(fs[n].back, Last(ps)))]
  }

  /** The running variables of __blk_recalc_rq_segments. */
  datatype Run = Run(nr: nat, segSize: nat, prev: Vec, highPrev: bool, front: nat)

  /** What the loops keep after the vectors `done`; `front0` is the front size found on the first bio. */
  ghost predicate Counting(q: Queue, done: seq<Vec>, front0: nat, c: Run) {
    var ps := Pieces(q, done, true);
    && c.nr == |ps| && c.segSize == Last(ps)
    && (if c.nr == 0 then c.highPrev && done == [] else done != [] && c.prev == done[|done| - 1] && c.highPrev == q.High(c.prev))
    && c.front == (if c.nr >= 2 then Max(front0, First(ps)) else front0)
  }

  lemma CountingStep(q: Queue, done: seq<Vec>, v: Vec, front0: nat, c: Run)
    requires Counting(q, done, front0, c)
    ensures var join := !q.High(v) && !c.highPrev && q.cluster && c.segSize + v.len <= q.maxSegSize && q.joins(c.prev, v);
            Counting(q, done + [v], front0,
                     if join then c.(segSize := c.segSize + v.len, prev := v)
                     else Run(c.nr + 1, v.len, v, q.High(v), if c.nr == 1 then Max(c.front, c.segSize) else c.front))
  {
    PiecesMore(q, done, v, true);
    PiecesCut(q, done, true);
    var ps := Pieces(q, done, true);
    if c.nr > 0 {
      LastOfCut(q, ps, done);
      SizeMore(ps[c.nr - 1], v);
    }
    SizeMore([], v);
    assert [] + [v] == [v];
  }

  /** The loop over the vectors of one bio, after the vectors `done`. */
  method CountBio(q: Queue, ghost done: seq<Vec>, vs: seq<Vec>, ghost front0: nat, start: Run) returns (c: Run)
    requires Counting(q, done, front0, start)
    ensures Counting(q, done + vs, front0, c)
  {
    hide Counting;
    c := start;
    assert done + vs[..0] == done;
    var j := 0;
    while j < |vs|
      invariant 0 <= j <= |vs| && Counting(q, done + vs[..j], front0, c)
    {
      var v := vs[j];
      var high := q.High(v);
      CountingStep(q, done + vs[..j], v, front0, c);
      assert done + vs[..j] + [v] == done + vs[..j + 1];
      if !high && !c.highPrev && q.cluster && c.segSize + v.len <= q.maxSegSize && q.joins(c.prev, v) {
        c := c.(segSize := c.segSize + v.len, prev := v);
      } else {
        if c.nr == 1 && c.segSize > c.front { c := c.(front := c.segSize); }
        c := c.(nr := c.nr + 1, prev := v, segSize := v.len, highPrev := high);
      }
      j := j + 1;
    }
    assert vs[..|vs|] == vs;
  }

  /** __blk_recalc_rq_segments. */
  method RecalcSegments(q: Queue, bios: seq<Bio>) returns (bios': seq<Bio>, nr: nat)
    ensures nr == |Pieces(q, Vecs(bios), true)|
    ensures bios' == if bios == [] then [] else Sized(q, bios)
  {
    hide Pieces, Counting, First, Last;
    if bios == [] {
      PiecesNone(q);
      return [], 0;
    }
    var c := Run(0, 0, Vec(0, 0, 0), true, bios[0].front);
    CountingNone(q, c.prev, c.front);
    var i := 0;
    while i < |bios|
      invariant 0 <= i <= |bios| && Counting(q, Vecs(bios[..i]), bios[0].front, c)
    {
      c := CountBio(q, Vecs(bios[..i]), bios[i].vecs, bios[0].front, c);
      VecsMore(bios[..i], bios[i]);
      assert bios[..i] + [bios[i]] == bios[..i + 1];
      i := i + 1;
    }
    assert bios[..|bios|] == bios;
    CountingDone(q, Vecs(bios), bios[0].front, c);
    if c.nr == 1 && c.segSize > c.front { c := c.(front := c.segSize); }
    bios' := bios[0 := bios[0].(front := c.front)];
    var n := |bios| - 1;
    if c.segSize > bios'[n].back { bios' := bios'[n := bios'[n].(back := c.segSize)]; }
    nr := c.nr;
  }

  lemma PiecesNone(q: Queue)
    ensures Pieces(q, [], true) == []
  {
  }

  lemma CountingNone(q: Queue, prev: Vec, front: nat)
    ensures Counting(q, Vecs([]), front, Run(0, 0, prev, true, front))
  {
  }

  lemma CountingDone(q: Queue, done: seq<Vec>, front0: nat, c: Run)
    requires Counting(q, done, front0, c)
    ensures var ps := Pieces(q, done, true);
            c.nr == |ps| && c.segSize == Last(ps) && (if c.nr == 1 then Max(c.front, c.segSize) else c.front) == Max(front0, First(ps))
  {
  }

  /** blk_recount_segments. */
  function Recounted(q: Queue, b: Bio): Bio {
    Sized(q, [b])[0].(segValid := true, phys := |Pieces(q, Vecs([b]), true)|)
  }

  function Ready(q: Queue, b: Bio): Bio { if b.segValid then b else Recounted(q, b) }

  method RecountSegments(q: Queue, b: Bio) returns (b': Bio)
    ensures b' == Recounted(q, b)
  {
    var bs, nr := RecalcSegments(q, [b]);
    b' := bs[0].(segValid := true, phys := nr);
  }

  /** A cached count is right, and the cached sizes cover the outer segments. */
  ghost predicate BioOk(q: Queue, b: Bio) {
    && b.vecs != []
    && (b.segValid ==>
          var ps := Pieces(q, b.vecs, true);
          b.phys == |ps| && First(ps) <= b.front && Last(ps) <= b.back)
  }

  lemma ReadyOk(q: Queue, b: Bio)
    requires BioOk(q, b)
    ensures BioOk(q, Ready(q, b)) && Ready(q, b).segValid && Ready(q, b).vecs == b.vecs
  {
    VecsMore([], b);
    assert [] + [b] == [b] && Vecs([]) + b.vecs == b.vecs;
  }

  /** Counting a bio again, inside whatever request, never shrinks its sizes. */
  lemma ReadyGrows(q: Queue, b: Bio)
    ensures var r := Ready(q, b); r.vecs == b.vecs && r.front >= b.front && r.back >= b.back
  {
    hide Pieces;
  }

  // ---------------------------------------------------------------- requests

  datatype Rq = Rq(bios: seq<Bio>, nr: int, bytes: nat, nomerge: bool, special: bool)

  /** `ps` witnesses the count of `r`: a cut into that many segments, with outer segments no bigger than recorded. */
  ghost predicate Covers(q: Queue, r: Rq, ps: seq<seq<Vec>>) {
    && r.bios != [] && (forall i :: 0 <= i < |r.bios| ==> r.bios[i].vecs != [])
    && Cuts(q, ps, Vecs(r.bios)) && |ps| == r.nr
    && First(ps) <= r.bios[0].front && Last(ps) <= r.bios[|r.bios| - 1].back
  }

  /** The count never passes the queue's maximum, unless a bio came in over it, and then it stays alone. */
  ghost predicate Within(q: Queue, r: Rq) { r.nr <= q.maxSegs || |r.bios| == 1 }

  /** blk_rq_bio_prep. */
  function NewRq(q: Queue, b: Bio, special: bool): Rq {
    var b' := Ready(q, b);
    Rq([b'], b'.phys, Size(b.vecs), false, special)
  }

  datatype Tried = Tried(rq: Rq, bio: Bio, ok: bool)

  function Sectors(bytes: nat): nat { bytes / 512 }

  /** ll_back_merge_fn, then the append of bio_attempt_back_merge. */
  function BackMerged(q: Queue, r: Rq, b: Bio): Tried
    requires r.bios != []
  {
    if Sectors(r.bytes) + Sectors(Size(b.vecs)) > q.maxSectors then Tried(r.(nomerge := true), b, false)
    else
      var n, b' := |r.bios| - 1, Ready(q, b);
      var r' := r.(bios := r.bios[n := Ready(q, r.bios[n])]);
      if r.nr + b'.phys > q.maxSegs then Tried(r'.(nomerge := true), b', false)
      else Tried(r'.(bios := r'.bios + [b'], nr := r.nr + b'.phys, bytes := r.bytes + Size(b.vecs)), b', true)
  }

  /** ll_front_merge_fn, then the prepend of bio_attempt_front_merge. */
  function FrontMerged(q: Queue, r: Rq, b: Bio): Tried
    requires r.bios != []
  {
    if Sectors(r.bytes) + Sectors(Size(b.vecs)) > q.maxSectors then Tried(r.(nomerge := true), b, false)
    else
      var b' := Ready(q, b);
      var r' := r.(bios := r.bios[0 := Ready(q, r.bios[0])]);
      if r.nr + b'.phys > q.maxSegs then Tried(r'.(nomerge := true), b', false)
      else Tried(r'.(bios := [b'] + r'.bios, nr := r.nr + b'.phys, bytes := r.bytes + Size(b.vecs)), b', true)
  }

  /** blk_phys_contig_segment for bios that carry data. */
  predicate Contiguous(q: Queue, a: Bio, b: Bio)
    requires a.vecs != [] && b.vecs != []
  {
    q.cluster && a.back + b.front <= q.maxSegSize && q.joins(a.vecs[|a.vecs| - 1], b.vecs[0])
  }

  datatype Pair = Pair(rq: Rq, next: Rq, ok: bool)

  /** The size updates of ll_merge_requests_fn, kept even when the merge is refused afterwards. */
  function Stretched(q: Queue, r: Rq, x: Rq): (p: (Rq, Rq))
    requires r.bios != [] && x.bios != []
  {
    var size, n := r.bios[|r.bios| - 1].back + x.bios[0].front, |x.bios| - 1;
    (if r.nr == 1 then r.(bios := r.bios[0 := r.bios[0].(front := size)]) else r,
     if x.nr == 1 then x.(bios := x.bios[n := x.bios[n].(back := size)]) else x)
  }

  /** ll_merge_requests_fn, then the append of attempt_merge. */
  function Joined(q: Queue, r: Rq, x: Rq): Pair
    requires r.bios != [] && x.bios != [] && r.bios[|r.bios| - 1].vecs != [] && x.bios[0].vecs != []
  {
    if r.special || x.special || Sectors(r.bytes) + Sectors(x.bytes) > q.maxSectors then Pair(r, x, false)
    else
      var contig := Contiguous(q, r.bios[|r.bios| - 1], x.bios[0]);
      var p := if contig then Stretched(q, r, x) else (r, x);
      var total := r.nr + x.nr - (if contig then 1 else 0);
      if total > q.maxSegs then Pair(p.0, p.1, false)
      else Pair(p.0.(bios := p.0.bios + p.1.bios, nr := total, bytes := r.bytes + x.bytes), p.1, true)
  }

  // ---------------------------------------------------------------- the count stays a bound

  lemma NewCovers(q: Queue, b: Bio, special: bool)
    requires BioOk(q, b)
    ensures Covers(q, NewRq(q, b, special), Pieces(q, b.vecs, true)) && Within(q, NewRq(q, b, special))
  {
    ReadyOk(q, b);
    PiecesCut(q, b.vecs, true);
    VecsMore([], Ready(q, b));
    assert [] + [Ready(q, b)] == [Ready(q, b)] && Vecs([]) + b.vecs == b.vecs;
  }

  lemma CutsJoin(q: Queue, a: seq<seq<Vec>>, b: seq<seq<Vec>>, us: seq<Vec>, vs: seq<Vec>)
    requires Cuts(q, a, us) && Cuts(q, b, vs)
    ensures Cuts(q, a + b, us + vs)
  {
    FlatSplit(a, b);
  }

  lemma CutNonEmpty(q: Queue, ps: seq<seq<Vec>>, vs: seq<Vec>)
    requires Cuts(q, ps, vs) && vs != []
    ensures ps != []
  {
  }

  lemma VecsNonEmpty(bios: seq<Bio>)
    requires bios != [] && forall i :: 0 <= i < |bios| ==> bios[i].vecs != []
    ensures Vecs(bios) != []
    ensures Vecs(bios)[0] == bios[0].vecs[0]
    ensures var t := bios[|bios| - 1].vecs; Vecs(bios)[|Vecs(bios)| - 1] == t[|t| - 1]
  {
    if |bios| > 1 { VecsNonEmpty(bios[..|bios| - 1]); }
  }

  /** Replacing a bio by one with the same vectors. */
  lemma VecsSame(bios: seq<Bio>, i: nat, b: Bio)
    requires i < |bios| && b.vecs == bios[i].vecs
    ensures Vecs(bios[i := b]) == Vecs(bios)
  {
    var n := |bios| - 1;
    if i < n {
      VecsSame(bios[..n], i, b);
      assert bios[i := b][..n] == bios[..n][i := b];
    } else {
      assert bios[i := b][..n] == bios[..n];
    }
  }

  /** Outer sizes that only grow keep the witness. */
  lemma RegrownCovers(q: Queue, r: Rq, ps: seq<seq<Vec>>, i: nat, b: Bio)
    requires Covers(q, r, ps) && i < |r.bios| && b.vecs == r.bios[i].vecs
    requires i == 0 ==> First(ps) <= b.front
    requires i == |r.bios| - 1 ==> Last(ps) <= b.back
    ensures Covers(q, r.(bios := r.bios[i := b]), ps)
  {
    VecsSame(r.bios, i, b);
  }

  /** Two chains with their witnesses, end to end. */
  lemma ChainedCovers(q: Queue, r: Rq, ps: seq<seq<Vec>>, x: Rq, xs: seq<seq<Vec>>, y: Rq)
    requires Covers(q, r, ps) && Covers(q, x, xs) && y.bios == r.bios + x.bios && y.nr == r.nr + x.nr
    ensures Covers(q, y, ps + xs)
  {
    VecsSplit(r.bios, x.bios);
    CutsJoin(q, ps, xs, Vecs(r.bios), Vecs(x.bios));
    CoversNonEmpty(q, r, ps);
    CoversNonEmpty(q, x, xs);
  }

  lemma CoversNonEmpty(q: Queue, r: Rq, ps: seq<seq<Vec>>)
    requires Covers(q, r, ps)
    ensures ps != [] && r.nr >= 1
  {
    VecsNonEmpty(r.bios);
    CutNonEmpty(q, ps, Vecs(r.bios));
  }

  lemma BackKeeps(q: Queue, r: Rq, ps: seq<seq<Vec>>, b: Bio)
    requires Covers(q, r, ps) && Within(q, r) && BioOk(q, b)
    ensures var t := BackMerged(q, r, b);
            Covers(q, t.rq, if t.ok then ps + Pieces(q, b.vecs, true) else ps) && Within(q, t.rq)
  {
    hide Vecs, Pieces, Ready, Size, Sectors, Cuts;
    var n := |r.bios| - 1;
    ReadyGrows(q, r.bios[n]);
    RegrownCovers(q, r, ps, n, Ready(q, r.bios[n]));
    NewCovers(q, b, false);
    var t, x := BackMerged(q, r, b), NewRq(q, b, false);
    if t.ok { ChainedCovers(q, r.(bios := r.bios[n := Ready(q, r.bios[n])]), ps, x, Pieces(q, b.vecs, true), t.rq); }
  }

  lemma FrontKeeps(q: Queue, r: Rq, ps: seq<seq<Vec>>, b: Bio)
    requires Covers(q, r, ps) && Within(q, r) && BioOk(q, b)
    ensures var t := FrontMerged(q, r, b);
            Covers(q, t.rq, if t.ok then Pieces(q, b.vecs, true) + ps else ps) && Within(q, t.rq)
  {
    hide Vecs, Pieces, Ready, Size, Sectors, Cuts;
    ReadyGrows(q, r.bios[0]);
    RegrownCovers(q, r, ps, 0, Ready(q, r.bios[0]));
    NewCovers(q, b, false);
    var t, x := FrontMerged(q, r, b), NewRq(q, b, false);
    if t.ok { ChainedCovers(q, x, Pieces(q, b.vecs, true), r.(bios := r.bios[0 := Ready(q, r.bios[0])]), ps, t.rq); }
  }

  /** The cut of two requests whose facing segments become one. */
  function Fused(a: seq<seq<Vec>>, b: seq<seq<Vec>>): seq<seq<Vec>>
    requires a != [] && b != []
  {
    a[..|a| - 1] + [a[|a| - 1] + b[0]] + b[1..]
  }

  lemma SegmentsFuse(q: Queue, x: seq<Vec>, y: seq<Vec>)
    requires IsSegment(q, x) && IsSegment(q, y) && q.cluster && Size(x) + Size(y) <= q.maxSegSize
    requires q.joins(x[|x| - 1], y[0])
    ensures IsSegment(q, x + y)
  {
    SizeSplit(x, y);
    var z := x + y;
    forall j | 0 < j < |z| ensures q.joins(z[j - 1], z[j]) {
      if j < |x| { assert q.joins(x[j - 1], x[j]); }
      else if j > |x| { assert q.joins(y[j - |x| - 1], y[j - |x|]); }
    }
  }

  lemma FlatHead(ps: seq<seq<Vec>>)
    requires ps != []
    ensures Flat(ps) == ps[0] + Flat(ps[1..])
  {
    FlatSplit([ps[0]], ps[1..]);
    assert [ps[0]] + ps[1..] == ps;
    FlatMore([], ps[0]);
    assert [] + [ps[0]] == [ps[0]] && Flat([]) + ps[0] == ps[0];
  }

  lemma FlatLast(ps: seq<seq<Vec>>)
    requires ps != []
    ensures Flat(ps) == Flat(ps[..|ps| - 1]) + ps[|ps| - 1]
  {
  }

  lemma FusedFlat(a: seq<seq<Vec>>, b: seq<seq<Vec>>)
    requires a != [] && b != []
    ensures Flat(Fused(a, b)) == Flat(a) + Flat(b)
  {
    hide Flat;
    var n := |a| - 1;
    var x, y, c := Flat(a[..n]), a[n] + b[0], Flat(b[1..]);
    FlatSplit(a[..n] + [y], b[1..]);
    FlatMore(a[..n], y);
    FlatHead(b);
    FlatLast(a);
    assert (x + (a[n] + b[0])) + c == (x + a[n]) + (b[0] + c);
  }

  lemma FusedCuts(q: Queue, a: seq<seq<Vec>>, b: seq<seq<Vec>>, us: seq<Vec>, vs: seq<Vec>)
    requires Cuts(q, a, us) && Cuts(q, b, vs) && a != [] && b != []
    requires IsSegment(q, a[|a| - 1] + b[0])
    ensures Cuts(q, Fused(a, b), us + vs)
  {
    FusedFlat(a, b);
    var f, n := Fused(a, b), |a| - 1;
    forall i | 0 <= i < |f| ensures IsSegment(q, f[i]) {
      if i < n {
        assert IsSegment(q, a[i]);
      } else if i > n {
        assert f[i] == b[i - n];
      }
    }
  }

  /** The first vector of a cut, seen from its first piece. */
  lemma FirstOfCut(q: Queue, ps: seq<seq<Vec>>, vs: seq<Vec>)
    requires Cuts(q, ps, vs) && vs != []
    ensures ps != [] && ps[0] != [] && ps[0][0] == vs[0]
  {
    assert ps != [] && IsSegment(q, ps[0]);
    FlatHead(ps);
  }

  /** The witness after a request merge. */
  ghost function JoinedCut(q: Queue, r: Rq, ps: seq<seq<Vec>>, x: Rq, xs: seq<seq<Vec>>): seq<seq<Vec>>
    requires r.bios != [] && x.bios != [] && r.bios[|r.bios| - 1].vecs != [] && x.bios[0].vecs != [] && ps != [] && xs != []
  {
    if Contiguous(q, r.bios[|r.bios| - 1], x.bios[0]) then Fused(ps, xs) else ps + xs
  }

  /** Facing segments that the sizes and vectors say are contiguous do form one segment. */
  lemma FacingFuse(q: Queue, r: Rq, ps: seq<seq<Vec>>, x: Rq, xs: seq<seq<Vec>>)
    requires Covers(q, r, ps) && Covers(q, x, xs) && Contiguous(q, r.bios[|r.bios| - 1], x.bios[0])
    ensures ps != [] && xs != [] && IsSegment(q, ps[|ps| - 1] + xs[0])
  {
    VecsNonEmpty(r.bios);
    VecsNonEmpty(x.bios);
    LastOfCut(q, ps, Vecs(r.bios));
    FirstOfCut(q, xs, Vecs(x.bios));
    SegmentsFuse(q, ps[|ps| - 1], xs[0]);
  }

  /** With outer sizes recorded exactly, two requests are contiguous if and only if their facing segments form one. */
  lemma FacingExactly(q: Queue, r: Rq, ps: seq<seq<Vec>>, x: Rq, xs: seq<seq<Vec>>)
    requires Covers(q, r, ps) && Covers(q, x, xs)
    requires r.bios[|r.bios| - 1].back == Last(ps) && x.bios[0].front == First(xs)
    ensures ps != [] && xs != []
    ensures Contiguous(q, r.bios[|r.bios| - 1], x.bios[0]) <==> IsSegment(q, ps[|ps| - 1] + xs[0])
  {
    CoversNonEmpty(q, r, ps);
    CoversNonEmpty(q, x, xs);
    VecsNonEmpty(r.bios);
    VecsNonEmpty(x.bios);
    LastOfCut(q, ps, Vecs(r.bios));
    FirstOfCut(q, xs, Vecs(x.bios));
    var a, b := ps[|ps| - 1], xs[0];
    if Contiguous(q, r.bios[|r.bios| - 1], x.bios[0]) {
      FacingFuse(q, r, ps, x, xs);
    }
    if IsSegment(q, a + b) {
      SizeSplit(a, b);
      SeamJoins(q, a, b);
    }
  }

  lemma SeamJoins(q: Queue, a: seq<Vec>, b: seq<Vec>)
    requires IsSegment(q, a + b) && a != [] && b != []
    ensures q.joins(a[|a| - 1], b[0])
  {
    assert q.joins((a + b)[|a| - 1], (a + b)[|a|]);
  }

  /** The size updates keep both witnesses, merge or no merge. */
  lemma StretchedCovers(q: Queue, r: Rq, ps: seq<seq<Vec>>, x: Rq, xs: seq<seq<Vec>>)
    requires Covers(q, r, ps) && Covers(q, x, xs)
    ensures var p := Stretched(q, r, x); Covers(q, p.0, ps) && Covers(q, p.1, xs)
  {
    hide Cuts, Vecs, Size;
    CoversNonEmpty(q, r, ps);
    CoversNonEmpty(q, x, xs);
    var size, n := r.bios[|r.bios| - 1].back + x.bios[0].front, |x.bios| - 1;
    if r.nr == 1 { RegrownCovers(q, r, ps, 0, r.bios[0].(front := size)); }
    if x.nr == 1 { RegrownCovers(q, x, xs, n, x.bios[n].(back := size)); }
  }

  /** The outer sizes recorded after a contiguous merge cover the fused outer segments. */
  lemma FusedCovers(q: Queue, r: Rq, ps: seq<seq<Vec>>, x: Rq, xs: seq<seq<Vec>>, y: Rq)
    requires Covers(q, r, ps) && Covers(q, x, xs) && Contiguous(q, r.bios[|r.bios| - 1], x.bios[0])
    requires var p := Stretched(q, r, x); y.bios == p.0.bios + p.1.bios && y.nr == r.nr + x.nr - 1
    ensures ps != [] && xs != [] && Covers(q, y, Fused(ps, xs))
  {
    FacingFuse(q, r, ps, x, xs);
    StretchedCovers(q, r, ps, x, xs);
    var p := Stretched(q, r, x);
    VecsSplit(p.0.bios, p.1.bios);
    FusedCuts(q, ps, xs, Vecs(p.0.bios), Vecs(p.1.bios));
    SizeSplit(ps[|ps| - 1], xs[0]);
  }

  lemma JoinKeeps(q: Queue, r: Rq, ps: seq<seq<Vec>>, x: Rq, xs: seq<seq<Vec>>)
    requires Covers(q, r, ps) && Covers(q, x, xs) && Within(q, r) && Within(q, x)
    ensures ps != [] && xs != []
    ensures var t := Joined(q, r, x);
            && Covers(q, t.rq, if t.ok then JoinedCut(q, r, ps, x, xs) else ps) && Covers(q, t.next, xs)
            && Within(q, t.rq) && Within(q, t.next)
  {
    hide Cuts, Vecs, Size, Sectors;
    CoversNonEmpty(q, r, ps);
    CoversNonEmpty(q, x, xs);
    StretchedCovers(q, r, ps, x, xs);
    var t := Joined(q, r, x);
    if t.ok {
      if Contiguous(q, r.bios[|r.bios| - 1], x.bios[0]) {
        FusedCovers(q, r, ps, x, xs, t.rq);
      } else {
        ChainedCovers(q, r, ps, x, xs, t.rq);
      }
    }
  }

  // ---------------------------------------------------------------- sizes and refusals

  /** __data_len is the size of the data. */
  ghost predicate Tallied(r: Rq) { r.bytes == Size(Vecs(r.bios)) }

  ghost predicate WholeSectors(bios: seq<Bio>) { forall i :: 0 <= i < |bios| ==> Size(bios[i].vecs) % 512 == 0 }

  /** A request that was merged stays within max_sectors, but for the parts of a sector that two bios may carry over. */
  ghost predicate Capped(q: Queue, r: Rq) {
    |r.bios| == 1 || r.bytes <= 512 * q.maxSectors + if WholeSectors(r.bios) then 0 else 1022
  }

  lemma {:induction false} WholeSize(bios: seq<Bio>)
    requires WholeSectors(bios)
    ensures Size(Vecs(bios)) % 512 == 0
  {
    if bios != [] {
      var n := |bios| - 1;
      WholeSize(bios[..n]);
      SizeSplit(Vecs(bios[..n]), bios[n].vecs);
    }
  }

  lemma CappedSum(q: Queue, r: Rq, x: seq<Bio>, more: nat, bios: seq<Bio>)
    requires Sectors(r.bytes) + Sectors(more) <= q.maxSectors && Tallied(r) && more == Size(Vecs(x))
    requires WholeSectors(bios) ==> WholeSectors(r.bios) && WholeSectors(x)
    ensures r.bytes + more <= 512 * q.maxSectors + if WholeSectors(bios) then 0 else 1022
  {
    hide Vecs, Size;
    if WholeSectors(bios) {
      WholeSize(r.bios);
      WholeSize(x);
    }
  }

  /** A new request is its bio and nothing else, and may be merged. */
  lemma NewTallied(q: Queue, b: Bio, special: bool)
    requires BioOk(q, b)
    ensures var r := NewRq(q, b, special);
            && Tallied(r) && Capped(q, r) && Vecs(r.bios) == b.vecs && |r.bios| == 1
            && r.nr == |Pieces(q, b.vecs, true)| && !r.nomerge && r.special == special
  {
    hide Pieces;
    ReadyOk(q, b);
    OneVecs(Ready(q, b));
  }

  /** The first count of a bio records the sizes of its outer segments exactly. */
  lemma FirstCount(q: Queue, b: Bio)
    requires b.front == 0 && b.back == 0
    ensures var ps, r := Pieces(q, b.vecs, true), Recounted(q, b);
            r.vecs == b.vecs && r.segValid && r.phys == |ps| && r.front == First(ps) && r.back == Last(ps)
  {
    hide Pieces;
    OneVecs(b);
  }

  /** Counting a bio again inside a request does not change the data. */
  lemma ReadySame(q: Queue, bios: seq<Bio>, i: nat)
    requires i < |bios|
    ensures var bs := bios[i := Ready(q, bios[i])];
            Vecs(bs) == Vecs(bios) && (WholeSectors(bs) <==> WholeSectors(bios)) && |bs| == |bios|
  {
    hide Pieces, Vecs;
    ReadyGrows(q, bios[i]);
    VecsSame(bios, i, Ready(q, bios[i]));
    var bs := bios[i := Ready(q, bios[i])];
    assert forall k :: 0 <= k < |bios| ==> bs[k].vecs == bios[k].vecs;
  }

  /** What a back merge does to the data, and exactly when it is refused. */
  lemma BackExactly(q: Queue, r: Rq, b: Bio)
    requires r.bios != [] && BioOk(q, b) && Tallied(r) && Capped(q, r)
    ensures var t := BackMerged(q, r, b);
            && (t.ok <==> Sectors(Size(Vecs(r.bios))) + Sectors(Size(b.vecs)) <= q.maxSectors && r.nr + |Pieces(q, b.vecs, true)| <= q.maxSegs)
            && Tallied(t.rq) && Capped(q, t.rq) && t.bio.vecs == b.vecs && t.rq.special == r.special
            && (t.ok ==> Vecs(t.rq.bios) == Vecs(r.bios) + b.vecs && t.rq.nomerge == r.nomerge)
            && (!t.ok ==> Vecs(t.rq.bios) == Vecs(r.bios) && |t.rq.bios| == |r.bios| && t.rq.nr == r.nr && t.rq.nomerge)
  {
    hide Pieces, Sectors, Vecs, Size, WholeSectors;
    var n, b' := |r.bios| - 1, Ready(q, b);
    ReadyOk(q, b);
    ReadySame(q, r.bios, n);
    var bs := r.bios[n := Ready(q, r.bios[n])];
    VecsMore(bs, b');
    SizeSplit(Vecs(r.bios), b.vecs);
    var t := BackMerged(q, r, b);
    if t.ok {
      WholeParts(bs, [b']);
      OneVecs(b');
      CappedSum(q, r, [b'], Size(b.vecs), bs + [b']);
    }
  }

  lemma WholeParts(a: seq<Bio>, b: seq<Bio>)
    ensures WholeSectors(a + b) <==> WholeSectors(a) && WholeSectors(b)
  {
    if WholeSectors(a + b) {
      forall i | 0 <= i < |a| ensures Size(a[i].vecs) % 512 == 0 { assert (a + b)[i] == a[i]; }
      forall i | 0 <= i < |b| ensures Size(b[i].vecs) % 512 == 0 { assert (a + b)[|a| + i] == b[i]; }
    }
  }

  /** What a front merge does to the data, and exactly when it is refused. */
  lemma FrontExactly(q: Queue, r: Rq, b: Bio)
    requires r.bios != [] && BioOk(q, b) && Tallied(r) && Capped(q, r)
    ensures var t := FrontMerged(q, r, b);
            && (t.ok <==> Sectors(Size(Vecs(r.bios))) + Sectors(Size(b.vecs)) <= q.maxSectors && r.nr + |Pieces(q, b.vecs, true)| <= q.maxSegs)
            && Tallied(t.rq) && Capped(q, t.rq) && t.bio.vecs == b.vecs && t.rq.special == r.special
            && (t.ok ==> Vecs(t.rq.bios) == b.vecs + Vecs(r.bios) && t.rq.nomerge == r.nomerge)
            && (!t.ok ==> Vecs(t.rq.bios) == Vecs(r.bios) && |t.rq.bios| == |r.bios| && t.rq.nr == r.nr && t.rq.nomerge)
  {
    hide Pieces, Sectors, Vecs, Size, WholeSectors;
    var b' := Ready(q, b);
    ReadyOk(q, b);
    ReadySame(q, r.bios, 0);
    var bs := r.bios[0 := Ready(q, r.bios[0])];
    VecsSplit([b'], bs);
    OneVecs(b');
    SizeSplit(b.vecs, Vecs(r.bios));
    var t := FrontMerged(q, r, b);
    if t.ok {
      WholeParts([b'], bs);
      CappedSum(q, r, [b'], Size(b.vecs), [b'] + bs);
    }
  }

  lemma OneVecs(b: Bio)
    ensures Vecs([b]) == b.vecs
  {
    VecsMore([], b);
    assert [] + [b] == [b] && Vecs([]) + b.vecs == b.vecs;
  }

  lemma StretchedSame(q: Queue, r: Rq, x: Rq)
    requires r.bios != [] && x.bios != []
    ensures var p := Stretched(q, r, x);
            && Vecs(p.0.bios) == Vecs(r.bios) && Vecs(p.1.bios) == Vecs(x.bios) && |p.0.bios| == |r.bios| && |p.1.bios| == |x.bios|
            && (WholeSectors(p.0.bios) <==> WholeSectors(r.bios)) && (WholeSectors(p.1.bios) <==> WholeSectors(x.bios))
            && p.0 == r.(bios := p.0.bios) && p.1 == x.(bios := p.1.bios)
  {
    hide Vecs, Size;
    var p, n := Stretched(q, r, x), |x.bios| - 1;
    if r.nr == 1 { VecsSame(r.bios, 0, p.0.bios[0]); }
    if x.nr == 1 { VecsSame(x.bios, n, p.1.bios[n]); }
    assert forall k :: 0 <= k < |r.bios| ==> p.0.bios[k].vecs == r.bios[k].vecs;
    assert forall k :: 0 <= k < |x.bios| ==> p.1.bios[k].vecs == x.bios[k].vecs;
  }

  /** What a merge of two requests does to the data, and exactly when it is refused. */
  lemma JoinExactly(q: Queue, r: Rq, x: Rq)
    requires r.bios != [] && x.bios != [] && r.bios[|r.bios| - 1].vecs != [] && x.bios[0].vecs != []
    requires Tallied(r) && Tallied(x) && Capped(q, r) && Capped(q, x)
    ensures var t := Joined(q, r, x);
            && (t.ok <==>
                  && !r.special && !x.special && Sectors(Size(Vecs(r.bios))) + Sectors(Size(Vecs(x.bios))) <= q.maxSectors
                  && r.nr + x.nr - (if Contiguous(q, r.bios[|r.bios| - 1], x.bios[0]) then 1 else 0) <= q.maxSegs)
            && Tallied(t.rq) && Tallied(t.next) && Capped(q, t.rq) && Capped(q, t.next)
            && Vecs(t.rq.bios) == (if t.ok then Vecs(r.bios) + Vecs(x.bios) else Vecs(r.bios)) && Vecs(t.next.bios) == Vecs(x.bios)
            && t.rq.nomerge == r.nomerge && t.next.nomerge == x.nomerge && (!t.ok ==> t.rq.nr == r.nr) && t.next.nr == x.nr
  {
    hide Sectors, Vecs, Size, WholeSectors, Contiguous, Stretched;
    StretchedSame(q, r, x);
    var contig := Contiguous(q, r.bios[|r.bios| - 1], x.bios[0]);
    var p := if contig then Stretched(q, r, x) else (r, x);
    VecsSplit(p.0.bios, p.1.bios);
    SizeSplit(Vecs(r.bios), Vecs(x.bios));
    if Joined(q, r, x).ok {
      WholeParts(p.0.bios, p.1.bios);
      CappedSum(q, r, p.1.bios, x.bytes, p.0.bios + p.1.bios);
    }
  }

  // ---------------------------------------------------------------- the scatterlist

  datatype Sg = Sg(page: nat, offset: nat, length: nat)

  function Entry(p: seq<Vec>): Sg
    requires p != []
  {
    Sg(p[0].page, p[0].offset, Size(p))
  }

  /** The entries map the pieces one to one. */
  ghost predicate Maps(sgs: seq<Sg>, ps: seq<seq<Vec>>) {
    |sgs| == |ps| && forall i :: 0 <= i < |ps| ==> ps[i] != [] && sgs[i] == Entry(ps[i])
  }

  lemma MapsExtend(q: Queue, sgs: seq<Sg>, ps: seq<seq<Vec>>, done: seq<Vec>, v: Vec)
    requires Maps(sgs, ps) && (done == [] <==> ps == [])
    requires ps != [] ==> var p := ps[|ps| - 1]; p != [] && p[|p| - 1] == done[|done| - 1]
    ensures Maps(Mapped(q, sgs, done, v), Extended(q, ps, v, false))
  {
    SizeMore([], v);
    assert [] + [v] == [v];
    if ps != [] { SizeMore(ps[|ps| - 1], v); }
  }

  lemma MapsStep(q: Queue, sgs: seq<Sg>, done: seq<Vec>, v: Vec)
    requires Maps(sgs, Pieces(q, done, false))
    ensures done != [] ==> sgs != []
    ensures Maps(Mapped(q, sgs, done, v), Pieces(q, done + [v], false))
  {
    hide Maps, Mapped, Extended;
    PiecesMore(q, done, v, false);
    PiecesCut(q, done, false);
    if done != [] { LastOfCut(q, Pieces(q, done, false), done); }
    MapsExtend(q, sgs, Pieces(q, done, false), done, v);
    MapsSame(sgs, Pieces(q, done, false));
  }

  lemma MapsSame(sgs: seq<Sg>, ps: seq<seq<Vec>>)
    requires Maps(sgs, ps)
    ensures |sgs| == |ps|
  {
  }

  /** One turn of the loop of blk_rq_map_sg. */
  function Mapped(q: Queue, sgs: seq<Sg>, done: seq<Vec>, v: Vec): seq<Sg> {
    var n := |sgs| - 1;
    if done != [] && q.cluster && sgs != [] && sgs[n].length + v.len <= q.maxSegSize && q.joins(done[|done| - 1], v)
    then sgs[n := sgs[n].(length := sgs[n].length + v.len)] else sgs + [Sg(v.page, v.offset, v.len)]
  }

  /** The mapping loop of blk_rq_map_sg, before padding and drain. */
  method MapSg(q: Queue, vs: seq<Vec>) returns (sgs: seq<Sg>)
    ensures Maps(sgs, Pieces(q, vs, false))
  {
    hide Pieces, Maps;
    sgs := [];
    MapsNone(q);
    var i := 0;
    while i < |vs|
      invariant 0 <= i <= |vs| && Maps(sgs, Pieces(q, vs[..i], false))
    {
      var v := vs[i];
      MapsStep(q, sgs, vs[..i], v);
      assert vs[..i] + [v] == vs[..i + 1];
      if i > 0 && q.cluster && sgs[|sgs| - 1].length + v.len <= q.maxSegSize && q.joins(vs[i - 1], v) {
        var n := |sgs| - 1;
        sgs := sgs[n := sgs[n].(length := sgs[n].length + v.len)];
      } else {
        sgs := sgs + [Sg(v.page, v.offset, v.len)];
      }
      i := i + 1;
    }
    assert vs[..|vs|] == vs;
  }

  lemma MapsNone(q: Queue)
    ensures Maps([], Pieces(q, [], false))
  {
  }

  /** The mapping never needs more entries than the count promises. */
  lemma MappingFits(q: Queue, r: Rq, ps: seq<seq<Vec>>)
    requires Covers(q, r, ps)
    ensures |Pieces(q, Vecs(r.bios), false)| <= r.nr
  {
    GreedyAhead(q, ps, Vecs(r.bios));
  }

  // ---------------------------------------------------------------- every history

  /** How a request came to be: from a bio, then by merges, successful or refused. */
  datatype History =
    | Start(bio: Bio, special: bool)
    | Back(h: History, bio: Bio)
    | Front(h: History, bio: Bio)
    | Merge(h: History, next: History)
    | RefusedBy(prev: History, h: History)

  ghost predicate Fresh(q: Queue, h: History) {
    match h
    case Start(b, _) => BioOk(q, b)
    case Back(g, b) => BioOk(q, b) && Fresh(q, g)
    case Front(g, b) => BioOk(q, b) && Fresh(q, g)
    case Merge(g, n) => Fresh(q, g) && Fresh(q, n)
    case RefusedBy(p, g) => Fresh(q, p) && Fresh(q, g)
  }

  /** The request at the end of a history; Merge keeps the first request, RefusedBy follows the second one of a refused merge. */
  ghost function Built(q: Queue, h: History): (w: (Rq, seq<seq<Vec>>))
    requires Fresh(q, h)
    ensures Covers(q, w.0, w.1) && Within(q, w.0)
  {
    match h
    case Start(b, special) =>
      NewCovers(q, b, special);
      (NewRq(q, b, special), Pieces(q, b.vecs, true))
    case Back(g, b) =>
      var w := Built(q, g);
      BackKeeps(q, w.0, w.1, b);
      var t := BackMerged(q, w.0, b);
      (t.rq, if t.ok then w.1 + Pieces(q, b.vecs, true) else w.1)
    case Front(g, b) =>
      var w := Built(q, g);
      FrontKeeps(q, w.0, w.1, b);
      var t := FrontMerged(q, w.0, b);
      (t.rq, if t.ok then Pieces(q, b.vecs, true) + w.1 else w.1)
    case Merge(g, n) =>
      var w, x := Built(q, g), Built(q, n);
      JoinKeeps(q, w.0, w.1, x.0, x.1);
      var t := Joined(q, w.0, x.0);
      (t.rq, if t.ok then JoinedCut(q, w.0, w.1, x.0, x.1) else w.1)
    case RefusedBy(p, g) =>
      var w, x := Built(q, p), Built(q, g);
      JoinKeeps(q, w.0, w.1, x.0, x.1);
      var t := Joined(q, w.0, x.0);
      (if t.ok then x.0 else t.next, x.1)
  }

  /**
   For every history of back, front and request merges: the scatterlist has at
   most nr_phys_segments entries, and that count is within the queue's maximum
   unless the request is still the single bio it started from.
   */
  lemma HistoryFits(q: Queue, h: History)
    requires Fresh(q, h)
    ensures var r := Built(q, h).0;
            |Pieces(q, Vecs(r.bios), false)| <= r.nr && (r.nr <= q.maxSegs || |r.bios| == 1)
  {
    var w := Built(q, h);
    MappingFits(q, w.0, w.1);
  }

  /** For every history the size is that of the data, and a merged request is within max_sectors. */
  lemma {:induction false} HistoryTallied(q: Queue, h: History)
    requires Fresh(q, h)
    ensures Tallied(Built(q, h).0) && Capped(q, Built(q, h).0)
    decreases h
  {
    hide Covers, Within, Tallied, Capped, BackMerged, FrontMerged, Joined, NewRq, Pieces;
    match h
    case Start(b, special) => NewTallied(q, b, special);
    case Back(g, b) =>
      HistoryTallied(q, g);
      CoversParts(q, Built(q, g).0, Built(q, g).1);
      BackExactly(q, Built(q, g).0, b);
    case Front(g, b) =>
      HistoryTallied(q, g);
      CoversParts(q, Built(q, g).0, Built(q, g).1);
      FrontExactly(q, Built(q, g).0, b);
    case Merge(g, n) =>
      HistoryTallied(q, g);
      HistoryTallied(q, n);
      CoversParts(q, Built(q, g).0, Built(q, g).1);
      CoversParts(q, Built(q, n).0, Built(q, n).1);
      JoinExactly(q, Built(q, g).0, Built(q, n).0);
    case RefusedBy(p, g) =>
      HistoryTallied(q, p);
      HistoryTallied(q, g);
      CoversParts(q, Built(q, p).0, Built(q, p).1);
      CoversParts(q, Built(q, g).0, Built(q, g).1);
      JoinExactly(q, Built(q, p).0, Built(q, g).0);
  }

  // ---------------------------------------------------------------- the request object

  class Request {
    const q: Queue
    var bios: seq<Bio>
    var nr: int
    var bytes: nat
    var nomerge: bool
    var special: bool
    /** The witness for the count. */
    ghost var cut: seq<seq<Vec>>

    ghost function View(): Rq
      reads this
    {
      Rq(bios, nr, bytes, nomerge, special)
    }

    ghost predicate Valid()
      reads this
    {
      Covers(q, View(), cut) && Within(q, View()) && Tallied(View()) && Capped(q, View())
    }

    constructor (q: Queue, b: Bio, special: bool)
      requires BioOk(q, b)
      ensures Valid() && this.q == q && View() == NewRq(q, b, special)
    {
      var b' := b;
      if !b.segValid { b' := RecountSegments(q, b); }
      NewCovers(q, b, special);
      NewTallied(q, b, special);
      this.q, this.special, nomerge := q, special, false;
      bios, nr, bytes, cut := [b'], b'.phys, Size(b.vecs), Pieces(q, b.vecs, true);
    }

    method TryBack(b: Bio) returns (b': Bio, ok: bool)
      requires bios != []
      modifies this
      ensures View() == BackMerged(q, old(View()), b).rq && cut == old(cut)
      ensures b' == BackMerged(q, old(View()), b).bio && ok == BackMerged(q, old(View()), b).ok
    {
      hide Size, Ready, Sectors;
      b', ok := b, false;
      if Sectors(bytes) + Sectors(Size(b.vecs)) > q.maxSectors { nomerge := true; return; }
      var n := |bios| - 1;
      var tail := ReadySegments(q, bios[n]);
      b' := ReadySegments(q, b);
      bios := bios[n := tail];
      if nr + b'.phys > q.maxSegs { nomerge := true; return; }
      nr, bios, bytes, ok := nr + b'.phys, bios + [b'], bytes + Size(b.vecs), true;
    }

    /** bio_attempt_back_merge. */
    method BackMerge(b: Bio) returns (b': Bio, ok: bool)
      requires Valid() && BioOk(q, b)
      modifies this
      ensures Valid() && var t := BackMerged(q, old(View()), b); View() == t.rq && b' == t.bio && ok == t.ok
    {
      hide Covers, Pieces, Within, BackMerged, BioOk, Tallied, Capped;
      BackKeeps(q, View(), cut, b);
      CoversParts(q, View(), cut);
      BackExactly(q, View(), b);
      b', ok := TryBack(b);
      if ok { cut := cut + Pieces(q, b.vecs, true); }
    }

    method TryFront(b: Bio) returns (b': Bio, ok: bool)
      requires bios != []
      modifies this
      ensures View() == FrontMerged(q, old(View()), b).rq && cut == old(cut)
      ensures b' == FrontMerged(q, old(View()), b).bio && ok == FrontMerged(q, old(View()), b).ok
    {
      hide Size, Ready, Sectors;
      b', ok := b, false;
      if Sectors(bytes) + Sectors(Size(b.vecs)) > q.maxSectors { nomerge := true; return; }
      b' := ReadySegments(q, b);
      var head := ReadySegments(q, bios[0]);
      bios := bios[0 := head];
      if nr + b'.phys > q.maxSegs { nomerge := true; return; }
      nr, bios, bytes, ok := nr + b'.phys, [b'] + bios, bytes + Size(b.vecs), true;
    }

    /** bio_attempt_front_merge. */
    method FrontMerge(b: Bio) returns (b': Bio, ok: bool)
      requires Valid() && BioOk(q, b)
      modifies this
      ensures Valid() && var t := FrontMerged(q, old(View()), b); View() == t.rq && b' == t.bio && ok == t.ok
    {
      hide Covers, Pieces, Within, FrontMerged, BioOk, Tallied, Capped;
      FrontKeeps(q, View(), cut, b);
      CoversParts(q, View(), cut);
      FrontExactly(q, View(), b);
      b', ok := TryFront(b);
      if ok { cut := Pieces(q, b.vecs, true) + cut; }
    }

    /** The size updates of ll_merge_requests_fn for contiguous requests. */
    method Stretch(x: Request)
      requires x != this && bios != [] && x.bios != []
      modifies this, x
      ensures View() == Stretched(q, old(View()), old(x.View())).0 && cut == old(cut)
      ensures x.View() == Stretched(q, old(View()), old(x.View())).1 && x.cut == old(x.cut)
    {
      var size, n := bios[|bios| - 1].back + x.bios[0].front, |x.bios| - 1;
      if nr == 1 { bios := bios[0 := bios[0].(front := size)]; }
      if x.nr == 1 { x.bios := x.bios[n := x.bios[n].(back := size)]; }
    }

    method TryMerge(x: Request) returns (ok: bool)
      requires x != this && x.q == q && bios != [] && x.bios != [] && bios[|bios| - 1].vecs != [] && x.bios[0].vecs != []
      modifies this, x
      ensures View() == Joined(q, old(View()), old(x.View())).rq && cut == old(cut)
      ensures x.View() == Joined(q, old(View()), old(x.View())).next && x.cut == old(x.cut)
      ensures ok == Joined(q, old(View()), old(x.View())).ok
    {
      hide Stretched, Contiguous, Sectors;
      ok := false;
      if special || x.special { return; }
      if Sectors(bytes) + Sectors(x.bytes) > q.maxSectors { return; }
      var total, sum := nr + x.nr, bytes + x.bytes;
      if Contiguous(q, bios[|bios| - 1], x.bios[0]) {
        Stretch(x);
        total := total - 1;
      }
      if total > q.maxSegs { return; }
      nr, bios, bytes, ok := total, bios + x.bios, sum, true;
    }

    /** ll_merge_requests_fn, then the append of attempt_merge. */
    method MergeNext(x: Request) returns (ok: bool)
      requires Valid() && x.Valid() && x != this && x.q == q
      modifies this, x
      ensures Valid() && x.Valid()
      ensures old(bios) != [] && old(x.bios) != [] && old(bios)[|old(bios)| - 1].vecs != [] && old(x.bios)[0].vecs != []
      ensures var t := Joined(q, old(View()), old(x.View())); View() == t.rq && x.View() == t.next && ok == t.ok
    {
      hide Covers, Within, Joined, JoinedCut, Tallied, Capped;
      JoinKeeps(q, View(), cut, x.View(), x.cut);
      CoversParts(q, View(), cut);
      CoversParts(q, x.View(), x.cut);
      JoinExactly(q, View(), x.View());
      ghost var both := JoinedCut(q, View(), cut, x.View(), x.cut);
      ok := TryMerge(x);
      if ok { cut := both; }
    }

    /** blk_rq_map_sg: what is mapped is exactly the data of the request, in at most `nr` entries. */
    method Map() returns (sgs: seq<Sg>)
      requires Valid()
      ensures |sgs| <= nr && Maps(sgs, Pieces(q, Vecs(bios), false)) && Cuts(q, Pieces(q, Vecs(bios), false), Vecs(bios))
    {
      MappingFits(q, View(), cut);
      PiecesCut(q, Vecs(bios), false);
      sgs := MapSg(q, Vecs(bios));
    }
  }

  method ReadySegments(q: Queue, b: Bio) returns (b': Bio)
    ensures b' == Ready(q, b)
  {
    b' := b;
    if !b.segValid { b' := RecountSegments(q, b); }
  }

  lemma CoversParts(q: Queue, r: Rq, ps: seq<seq<Vec>>)
    requires Covers(q, r, ps)
    ensures r.bios != [] && r.bios[0].vecs != [] && r.bios[|r.bios| - 1].vecs != [] && ps != [] && r.nr >= 1
  {
    CoversNonEmpty(q, r, ps);
  }
}
