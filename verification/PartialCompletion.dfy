/**
 Partial completion of requests (blk-core.c: req_bio_endio and blk_update_request).

 `vecs` are the vectors of a bio from bi_idx on, so advancing bi_idx drops vectors.
 */
module PartialCompletion {

  datatype Vec = Vec(page: nat, offset: nat, len: nat)

  datatype Bio = Bio(id: nat, vecs: seq<Vec>, size: nat, sector: nat, uptodate: bool)

  /** A bio handed back to its owner, and whether without error. */
  datatype Ended = Ended(id: nat, ok: bool)

  datatype Byte = Byte(page: nat, offset: nat)

  // ---------------------------------------------------------------- content

  function Length(vs: seq<Vec>): nat { if vs == [] then 0 else vs[0].len + Length(vs[1..]) }

  function VecBytes(v: Vec): seq<Byte> { seq(v.len, (k: nat) => Byte(v.page, v.offset + k)) }

  function Bytes(vs: seq<Vec>): (s: seq<Byte>)
    ensures |s| == Length(vs)
  {
    if vs == [] then [] else VecBytes(vs[0]) + Bytes(vs[1..])
  }

  function Total(bios: seq<Bio>): nat { if bios == [] then 0 else bios[0].size + Total(bios[1..]) }

  /** The bytes still to be transferred, in order. */
  function Stream(bios: seq<Bio>): seq<Byte> { if bios == [] then [] else Bytes(bios[0].vecs) + Stream(bios[1..]) }

  /** The size of a bio is that of its vectors, none of which is empty. */
  ghost predicate BioOk(b: Bio) { b.size == Length(b.vecs) && forall i :: 0 <= i < |b.vecs| ==> b.vecs[i].len > 0 }

  ghost predicate BiosOk(bios: seq<Bio>) { forall i :: 0 <= i < |bios| ==> BioOk(bios[i]) }

  ghost predicate AllData(bios: seq<Bio>) { forall i :: 0 <= i < |bios| ==> bios[i].size > 0 }

  lemma {:induction false} StreamLength(bios: seq<Bio>)
    requires BiosOk(bios)
    ensures |Stream(bios)| == Total(bios)
  {
    if bios != [] { StreamLength(bios[1..]); }
  }

  // ---------------------------------------------------------------- one bio

  /** The vectors left after `n` bytes. */
  function Skipped(vs: seq<Vec>, n: nat): seq<Vec>
    requires n <= Length(vs)
  {
    if vs == [] then []
    else if n >= vs[0].len then Skipped(vs[1..], n - vs[0].len)
    else [vs[0].(offset := vs[0].offset + n, len := vs[0].len - n)] + vs[1..]
  }

  lemma VecBytesDrop(v: Vec, n: nat)
    requires n <= v.len
    ensures VecBytes(v)[n..] == VecBytes(v.(offset := v.offset + n, len := v.len - n))
  {
  }

  lemma {:induction false} SkippedBytes(vs: seq<Vec>, n: nat)
    requires n <= Length(vs) && forall i :: 0 <= i < |vs| ==> vs[i].len > 0
    ensures Bytes(Skipped(vs, n)) == Bytes(vs)[n..] && Length(Skipped(vs, n)) == Length(vs) - n
    ensures forall i :: 0 <= i < |Skipped(vs, n)| ==> Skipped(vs, n)[i].len > 0
  {
    if vs != [] {
      if n >= vs[0].len {
        hide VecBytes;
        SkippedBytes(vs[1..], n - vs[0].len);
        assert Bytes(vs)[n..] == Bytes(vs[1..])[n - vs[0].len..];
      } else {
        SkippedInFirst(vs, n);
      }
    }
  }

  lemma SkippedInFirst(vs: seq<Vec>, n: nat)
    requires vs != [] && n < vs[0].len
    ensures Bytes(Skipped(vs, n)) == Bytes(vs)[n..] && Length(Skipped(vs, n)) == Length(vs) - n
  {
    hide VecBytes;
    VecBytesDrop(vs[0], n);
    assert Skipped(vs, n)[1..] == vs[1..];
    assert Bytes(vs)[n..] == VecBytes(vs[0])[n..] + Bytes(vs[1..]);
  }

  lemma {:induction false} SkippedTwice(vs: seq<Vec>, a: nat, b: nat)
    requires a + b <= Length(vs) && forall i :: 0 <= i < |vs| ==> vs[i].len > 0
    ensures b <= Length(Skipped(vs, a)) && Skipped(Skipped(vs, a), b) == Skipped(vs, a + b)
  {
    SkippedBytes(vs, a);
    if vs != [] {
      var v := vs[0];
      if a >= v.len {
        SkippedTwice(vs[1..], a - v.len, b);
      } else {
        var w := v.(offset := v.offset + a, len := v.len - a);
        assert Skipped(vs, a) == [w] + vs[1..] && ([w] + vs[1..])[1..] == vs[1..];
      }
    }
  }

  /** A bio of which `n` bytes, but not all, are done. */
  function Advanced(b: Bio, n: nat, error: bool): Bio
    requires n <= Length(b.vecs) && n <= b.size
  {
    if n == 0 then b
    else b.(vecs := Skipped(b.vecs, n), size := b.size - n, sector := b.sector + n / 512, uptodate := b.uptodate && !error)
  }

  // ---------------------------------------------------------------- the whole request

  datatype Result = Result(bios: seq<Bio>, ended: seq<Ended>, total: nat)

  /** What blk_update_request leaves, which bios it ends, and how many bytes it completes. */
  function Completed(bios: seq<Bio>, n: nat, error: bool): Result
    requires BiosOk(bios)
  {
    if bios == [] then Result([], [], 0)
    else
      var b := bios[0];
      if n >= b.size then
        var e := [Ended(b.id, b.uptodate && !error)];
        if |bios| > 1 && n == b.size then Result(bios[1..], e, b.size)
        else
          var r := Completed(bios[1..], n - b.size, error);
          Result(r.bios, e + r.ended, b.size + r.total)
      else Result([Advanced(b, n, error)] + bios[1..], [], n)
  }

  function Min(a: nat, b: nat): nat { if a <= b then a else b }

  lemma AdvancedOk(b: Bio, n: nat, error: bool)
    requires BioOk(b) && n <= b.size
    ensures BioOk(Advanced(b, n, error)) && Bytes(Advanced(b, n, error).vecs) == Bytes(b.vecs)[n..]
    ensures Advanced(b, n, error).size == b.size - n
  {
    SkippedBytes(b.vecs, n);
  }

  /** `r` is what is left of `bios` without its first min(n, total) bytes. */
  ghost predicate Drops(bios: seq<Bio>, n: nat, r: Result) {
    && BiosOk(r.bios) && r.total == Min(n, Total(bios)) && Total(r.bios) == Total(bios) - r.total
    && |Stream(bios)| == Total(bios) && Stream(r.bios) == Stream(bios)[r.total..]
  }

  /** Exactly the first min(n, total) bytes are dropped. */
  lemma {:induction false} CompletedDrops(bios: seq<Bio>, n: nat, error: bool)
    requires BiosOk(bios)
    ensures Drops(bios, n, Completed(bios, n, error))
  {
    hide Drops, Completed;
    if bios == [] {
      DropsNone(n, error);
    } else {
      CompletedCases(bios, n, error);
      if n < bios[0].size {
        DropsPart(bios, n, error);
      } else {
        var e := [Ended(bios[0].id, bios[0].uptodate && !error)];
        if |bios| > 1 && n == bios[0].size {
          DropsStop(bios[1..]);
          DropsMore(bios, n, e, Result(bios[1..], [], 0));
        } else {
          CompletedDrops(bios[1..], n - bios[0].size, error);
          DropsMore(bios, n, e, Completed(bios[1..], n - bios[0].size, error));
        }
      }
    }
  }

  lemma DropsNone(n: nat, error: bool)
    ensures Drops([], n, Completed([], n, error))
  {
  }

  lemma DropsStop(bios: seq<Bio>)
    requires BiosOk(bios)
    ensures Drops(bios, 0, Result(bios, [], 0))
  {
    StreamLength(bios);
  }

  lemma DropsPart(bios: seq<Bio>, n: nat, error: bool)
    requires BiosOk(bios) && bios != [] && n < bios[0].size
    ensures Drops(bios, n, Result([Advanced(bios[0], n, error)] + bios[1..], [], n))
  {
    hide Advanced, Bytes;
    AdvancedOk(bios[0], n, error);
    StreamLength(bios);
    var a, rest := Advanced(bios[0], n, error), bios[1..];
    assert ([a] + rest)[1..] == rest;
    BytesLength(bios[0].vecs);
    assert Stream(bios)[n..] == Bytes(bios[0].vecs)[n..] + Stream(rest);
  }

  lemma BytesLength(vs: seq<Vec>)
    ensures |Bytes(vs)| == Length(vs)
  {
  }

  lemma DropsMore(bios: seq<Bio>, n: nat, e: seq<Ended>, r: Result)
    requires BiosOk(bios) && bios != [] && n >= bios[0].size && Drops(bios[1..], n - bios[0].size, r)
    ensures Drops(bios, n, Result(r.bios, e + r.ended, bios[0].size + r.total))
  {
    hide Bytes;
    StreamLength(bios);
    BytesLength(bios[0].vecs);
    assert Stream(bios)[bios[0].size + r.total..] == Stream(bios[1..])[r.total..];
  }

  function SizeOf(bios: seq<Bio>, k: nat): nat
    requires k <= |bios|
  {
    Total(bios[..k])
  }

  lemma SizeOfRest(bios: seq<Bio>, k: nat)
    requires 0 < k <= |bios|
    ensures SizeOf(bios, k) == bios[0].size + SizeOf(bios[1..], k - 1)
  {
    assert bios[..k][1..] == bios[1..][..k - 1];
  }

  /** `k` bios fit into the first `n` bytes, and no more. */
  ghost predicate Fit(bios: seq<Bio>, n: nat, k: nat) {
    k <= |bios| && SizeOf(bios, k) <= n && (k < |bios| ==> n < SizeOf(bios, k + 1))
  }

  function EndsOf(bios: seq<Bio>, error: bool): seq<Ended> {
    if bios == [] then [] else [Ended(bios[0].id, bios[0].uptodate && !error)] + EndsOf(bios[1..], error)
  }

  /**
   The bios that end are the first ones, in order: with data in every bio, exactly
   those whose last byte is among the first `n`.  The rest stay, and only the first
   of them changes.
   */
  lemma {:induction false} CompletedEnds(bios: seq<Bio>, n: nat, error: bool)
    requires BiosOk(bios) && AllData(bios)
    ensures EndsFirst(bios, n, error, Completed(bios, n, error))
  {
    hide EndsFirst, Completed;
    if bios == [] {
      EndsNone(n, error);
    } else {
      var b, rest := bios[0], bios[1..];
      CompletedCases(bios, n, error);
      if n >= b.size {
        if |bios| > 1 && n == b.size { StopHere(rest, error); }
        CompletedEnds(rest, n - b.size, error);
        EndsMore(bios, n, error, Completed(rest, n - b.size, error));
      } else {
        EndsPart(bios, n, error);
      }
    }
  }

  ghost predicate EndsFirst(bios: seq<Bio>, n: nat, error: bool, r: Result) {
    var k := |r.ended|;
    && Fit(bios, n, k) && r.ended == EndsOf(bios[..k], error)
    && r.bios == if k == |bios| then [] else [Advanced0(bios[k], n - SizeOf(bios, k), error)] + bios[k + 1..]
  }

  lemma EndsNone(n: nat, error: bool)
    ensures EndsFirst([], n, error, Completed([], n, error))
  {
  }

  lemma EndsPart(bios: seq<Bio>, n: nat, error: bool)
    requires BiosOk(bios) && bios != [] && n < bios[0].size
    ensures EndsFirst(bios, n, error, Result([Advanced(bios[0], n, error)] + bios[1..], [], n))
  {
    SizeOfFirst(bios);
    assert bios[..0] == [];
  }

  lemma SizeOfFirst(bios: seq<Bio>)
    requires bios != []
    ensures SizeOf(bios, 0) == 0 && SizeOf(bios, 1) == bios[0].size
  {
    SizeOfRest(bios, 1);
  }

  lemma EndsMore(bios: seq<Bio>, n: nat, error: bool, r: Result)
    requires bios != [] && n >= bios[0].size && EndsFirst(bios[1..], n - bios[0].size, error, r)
    ensures EndsFirst(bios, n, error, Result(r.bios, [Ended(bios[0].id, bios[0].uptodate && !error)] + r.ended, bios[0].size + r.total))
  {
    hide SizeOf, Advanced0;
    var k := |r.ended|;
    SizeOfRest(bios, k + 1);
    if k + 1 < |bios| {
      SizeOfRest(bios, k + 2);
      assert bios[k + 1] == bios[1..][k] && bios[k + 2..] == bios[1..][k + 1..];
    }
    FrontTail(bios, k);
  }

  lemma FrontTail(bios: seq<Bio>, k: nat)
    requires k < |bios|
    ensures bios[..k + 1][0] == bios[0] && bios[..k + 1][1..] == bios[1..][..k]
  {
  }

  /** Advanced, made total. */
  function Advanced0(b: Bio, n: nat, error: bool): Bio { if n <= Length(b.vecs) && n <= b.size then Advanced(b, n, error) else b }

  /** With data in every bio, completing nothing changes nothing. */
  lemma StopHere(bios: seq<Bio>, error: bool)
    requires BiosOk(bios) && AllData(bios)
    ensures Completed(bios, 0, error) == Result(bios, [], 0)
  {
    if bios != [] {
      assert [bios[0]] + bios[1..] == bios;
    }
  }

  // ---------------------------------------------------------------- two completions in a row

  /** A bio without its sector, which is rounded down at each step. */
  function Bare(b: Bio): Bio { b.(sector := 0) }

  ghost predicate SameBios(x: seq<Bio>, y: seq<Bio>) {
    |x| == |y| && forall i :: 0 <= i < |x| ==> Bare(x[i]) == Bare(y[i])
  }

  lemma AdvancedTwice(b: Bio, m: nat, n: nat, error: bool)
    requires BioOk(b) && m + n <= b.size
    ensures BioOk(Advanced(b, m, error)) && Bare(Advanced(Advanced(b, m, error), n, error)) == Bare(Advanced(b, m + n, error))
  {
    AdvancedOk(b, m, error);
    SkippedTwice(b.vecs, m, n);
  }

  /** Ending a bio of which a part was completed before. */
  lemma AdvancedEnds(b: Bio, m: nat, error: bool)
    requires BioOk(b) && m <= b.size
    ensures var a := Advanced(b, m, error); BioOk(a) && a.id == b.id && (a.uptodate && !error <==> b.uptodate && !error)
  {
    AdvancedOk(b, m, error);
  }

  /** After completing `m` bytes the next bio to work on carries data, or there is none. */
  ghost predicate DataNext(bios: seq<Bio>, m: nat, error: bool)
    requires BiosOk(bios)
  {
    var r := Completed(bios, m, error).bios;
    r == [] || r[0].size > 0
  }

  ghost predicate Composes(bios: seq<Bio>, m: nat, n: nat, error: bool)
    requires BiosOk(bios) && BiosOk(Completed(bios, m, error).bios)
  {
    var r := Completed(bios, m, error);
    var r2, both := Completed(r.bios, n, error), Completed(bios, m + n, error);
    SameBios(r2.bios, both.bios) && r.ended + r2.ended == both.ended && r.total + r2.total == both.total
  }

  /** Completing `m` and then `n > 0` bytes ends the same bios and leaves the same content as completing both at once. */
  lemma {:induction false} ComposesWithMore(bios: seq<Bio>, m: nat, n: nat, error: bool)
    requires BiosOk(bios) && n > 0
    ensures BiosOk(Completed(bios, m, error).bios) && Composes(bios, m, n, error)
  {
    hide Composes, Completed;
    CompletedOk(bios, m, error);
    if bios == [] {
      ComposesNone(m, n, error);
    } else if m >= bios[0].size {
      if |bios| > 1 && m == bios[0].size {
        ComposesAtEnd(bios, n, error);
      } else {
        ComposesWithMore(bios[1..], m - bios[0].size, n, error);
        ComposesPrefix(bios, m, n, error);
      }
    } else {
      ComposesInside(bios, m, n, error);
    }
  }

  lemma CompletedOk(bios: seq<Bio>, n: nat, error: bool)
    requires BiosOk(bios)
    ensures BiosOk(Completed(bios, n, error).bios)
  {
    CompletedDrops(bios, n, error);
  }

  lemma ComposesNone(m: nat, n: nat, error: bool)
    ensures Composes([], m, n, error)
  {
  }

  lemma ComposesAtEnd(bios: seq<Bio>, n: nat, error: bool)
    requires BiosOk(bios) && |bios| > 1 && n > 0
    ensures BiosOk(Completed(bios, bios[0].size, error).bios) && Composes(bios, bios[0].size, n, error)
  {
    hide Completed, SameBios;
    CompletedCases(bios, bios[0].size, error);
    CompletedCases(bios, bios[0].size + n, error);
    SameSelf(Completed(bios[1..], n, error).bios);
  }

  lemma ComposesPrefix(bios: seq<Bio>, m: nat, n: nat, error: bool)
    requires BiosOk(bios) && n > 0 && bios != [] && m >= bios[0].size && !(|bios| > 1 && m == bios[0].size)
    requires BiosOk(Completed(bios[1..], m - bios[0].size, error).bios) && Composes(bios[1..], m - bios[0].size, n, error)
    ensures BiosOk(Completed(bios, m, error).bios) && Composes(bios, m, n, error)
  {
    var e := [Ended(bios[0].id, bios[0].uptodate && !error)];
    var r := Completed(bios[1..], m - bios[0].size, error);
    var r2 := Completed(r.bios, n, error);
    assert (e + r.ended) + r2.ended == e + (r.ended + r2.ended);
  }

  lemma ComposesInside(bios: seq<Bio>, m: nat, n: nat, error: bool)
    requires BiosOk(bios) && bios != [] && m < bios[0].size
    ensures BiosOk(Completed(bios, m, error).bios) && Composes(bios, m, n, error)
  {
    hide Composes, Completed, Advanced, Skipped;
    AdvancedOk(bios[0], m, error);
    var left := [Advanced(bios[0], m, error)] + bios[1..];
    assert left[1..] == bios[1..];
    CompletedOk(bios, m, error);
    CompletedCases(bios, m, error);
    if n < bios[0].size - m { ComposesStay(bios, m, n, error, left); } else { ComposesPass(bios, m, n, error, left); }
  }

  lemma ComposesStay(bios: seq<Bio>, m: nat, n: nat, error: bool, left: seq<Bio>)
    requires BiosOk(bios) && bios != [] && m + n < bios[0].size && BiosOk(left) && Completed(bios, m, error) == Result(left, [], m)
    requires left == [Advanced(bios[0], m, error)] + bios[1..] && left[1..] == bios[1..] && left[0].size == bios[0].size - m
    ensures Composes(bios, m, n, error)
  {
    hide Completed, Advanced, Skipped, SameBios, Bare;
    CompletedCases(bios, m + n, error);
    CompletedCases(left, n, error);
    AdvancedTwice(bios[0], m, n, error);
    SameHead(Advanced(left[0], n, error), Advanced(bios[0], m + n, error), bios[1..]);
  }

  lemma ComposesPass(bios: seq<Bio>, m: nat, n: nat, error: bool, left: seq<Bio>)
    requires BiosOk(bios) && bios != [] && m < bios[0].size <= m + n && BiosOk(left) && Completed(bios, m, error) == Result(left, [], m)
    requires left == [Advanced(bios[0], m, error)] + bios[1..] && left[1..] == bios[1..] && left[0].size == bios[0].size - m
    ensures Composes(bios, m, n, error)
  {
    hide Completed, Advanced, SameBios;
    CompletedCases(bios, m + n, error);
    CompletedCases(left, n, error);
    AdvancedEnds(bios[0], m, error);
    SameSelf(Completed(left, n, error).bios);
  }

  lemma SameHead(x: Bio, y: Bio, rest: seq<Bio>)
    requires Bare(x) == Bare(y)
    ensures SameBios([x] + rest, [y] + rest)
  {
  }

  lemma SameSelf(x: seq<Bio>)
    ensures SameBios(x, x)
  {
  }

  /** The two cases of a completion. */
  lemma CompletedCases(bios: seq<Bio>, n: nat, error: bool)
    requires BiosOk(bios) && bios != []
    ensures n < bios[0].size ==> Completed(bios, n, error) == Result([Advanced(bios[0], n, error)] + bios[1..], [], n)
    ensures n >= bios[0].size ==>
              var e := [Ended(bios[0].id, bios[0].uptodate && !error)];
              var r := if |bios| > 1 && n == bios[0].size then Result(bios[1..], [], 0) else Completed(bios[1..], n - bios[0].size, error);
              Completed(bios, n, error) == Result(r.bios, e + r.ended, bios[0].size + r.total)
  {
  }

  /**
   What ends at byte `m`: if the first bios up to some `k` of them, and no fewer, make up exactly
   `m` bytes, and more bios follow, then the next one carries data.
   */
  ghost predicate DataAt(bios: seq<Bio>, m: nat) {
    forall k: nat {:trigger SizeOf(bios, k)} ::
      1 <= k < |bios| && SizeOf(bios, k) == m && (k == 1 || SizeOf(bios, k - 1) < m) ==> bios[k].size > 0
  }

  /** Completing `m` bytes leaves no bio: there are fewer bytes, or exactly that many and none left to end. */
  ghost predicate Finishes(bios: seq<Bio>, m: nat) {
    m > Total(bios) || (m == Total(bios) && forall k: nat {:trigger SizeOf(bios, k)} :: 1 <= k < |bios| ==> SizeOf(bios, k) < m)
  }

  lemma DataAtFirst(bios: seq<Bio>, m: nat)
    requires bios != [] && m <= bios[0].size
    ensures DataAt(bios, m) <==> (|bios| > 1 && m == bios[0].size ==> bios[1].size > 0)
    ensures Finishes(bios, m) <==> |bios| == 1 && m == bios[0].size
  {
    forall k: nat | 1 <= k < |bios| ensures SizeOf(bios, k) >= bios[0].size { SizeOfRest(bios, k); }
    SizeOfFirst(bios);
    if |bios| == 1 { assert bios[1..] == []; }
    if |bios| > 1 { assert SizeOf(bios, 1) == bios[0].size; }
  }

  lemma DataAtRest(bios: seq<Bio>, m: nat)
    requires bios != [] && m > bios[0].size
    ensures DataAt(bios, m) <==> DataAt(bios[1..], m - bios[0].size)
  {
    var rest := bios[1..];
    hide SizeOf;
    SizeOfFirst(bios);
    forall k: nat | 1 <= k < |bios| ensures SizeOf(bios, k) == bios[0].size + SizeOf(rest, k - 1) { SizeOfRest(bios, k); }
    if DataAt(bios, m) {
      forall k: nat | 1 <= k < |rest| && SizeOf(rest, k) == m - bios[0].size && (k == 1 || SizeOf(rest, k - 1) < m - bios[0].size)
        ensures rest[k].size > 0
      {
        assert SizeOf(bios, k + 1) == m && SizeOf(bios, k) < m;
      }
    }
    if DataAt(rest, m - bios[0].size) {
      forall k: nat | 1 <= k < |bios| && SizeOf(bios, k) == m && (k == 1 || SizeOf(bios, k - 1) < m) ensures bios[k].size > 0 {
        assert SizeOf(rest, k - 1) == m - bios[0].size;
      }
    }
  }

  lemma FinishesRest(bios: seq<Bio>, m: nat)
    requires bios != [] && m > bios[0].size
    ensures Finishes(bios, m) <==> Finishes(bios[1..], m - bios[0].size)
  {
    var rest := bios[1..];
    hide SizeOf;
    SizeOfFirst(bios);
    forall k: nat | 1 <= k < |bios| ensures SizeOf(bios, k) == bios[0].size + SizeOf(rest, k - 1) { SizeOfRest(bios, k); }
    if Finishes(bios, m) && m == Total(bios) {
      forall k: nat | 1 <= k < |rest| ensures SizeOf(rest, k) < m - bios[0].size { assert SizeOf(bios, k + 1) < m; }
    }
  }

  /** Where a completion leaves off, told from the bios alone. */
  lemma {:induction false} LeavesOff(bios: seq<Bio>, m: nat, error: bool)
    requires BiosOk(bios)
    ensures DataNext(bios, m, error) <==> DataAt(bios, m)
    ensures Completed(bios, m, error).bios == [] <==> Finishes(bios, m)
  {
    hide DataAt, Finishes, Completed;
    if bios == [] {
      LeavesNone(m, error);
    } else {
      CompletedCases(bios, m, error);
      if m <= bios[0].size {
        DataAtFirst(bios, m);
        LeavesFirst(bios, m, error);
      } else {
        DataAtRest(bios, m);
        FinishesRest(bios, m);
        LeavesOff(bios[1..], m - bios[0].size, error);
      }
    }
  }

  lemma LeavesNone(m: nat, error: bool)
    ensures DataNext([], m, error) && DataAt([], m) && Completed([], m, error).bios == [] && Finishes([], m)
  {
  }

  lemma LeavesFirst(bios: seq<Bio>, m: nat, error: bool)
    requires BiosOk(bios) && bios != [] && m <= bios[0].size
    ensures DataNext(bios, m, error) <==> (|bios| > 1 && m == bios[0].size ==> bios[1].size > 0)
    ensures Completed(bios, m, error).bios == [] <==> |bios| == 1 && m == bios[0].size
  {
    hide Completed, Advanced;
    CompletedCases(bios, m, error);
    if m < bios[0].size {
      AdvancedOk(bios[0], m, error);
      assert Completed(bios, m, error).bios[0].size > 0;
    } else if |bios| == 1 {
      assert bios[1..] == [];
      LeavesNone(0, error);
    } else {
      assert Completed(bios, m, error).bios == bios[1..];
    }
  }

  /** With data in every bio, completions always compose. */
  lemma ComposesWithData(bios: seq<Bio>, m: nat, n: nat, error: bool)
    requires BiosOk(bios) && AllData(bios)
    ensures BiosOk(Completed(bios, m, error).bios) && Composes(bios, m, n, error)
  {
    hide Composes, Completed;
    ComposesExactly(bios, m, n, error);
  }

  /** Two completions compose exactly if the second one completes something or does not start at a bio without data. */
  lemma ComposesExactly(bios: seq<Bio>, m: nat, n: nat, error: bool)
    requires BiosOk(bios)
    ensures BiosOk(Completed(bios, m, error).bios)
    ensures Composes(bios, m, n, error) <==> n > 0 || DataAt(bios, m)
  {
    LeavesOff(bios, m, error);
    hide DataAt, Finishes;
    CompletedDrops(bios, m, error);
    var r := Completed(bios, m, error);
    if n > 0 {
      ComposesWithMore(bios, m, n, error);
    } else if DataNext(bios, m, error) {
      if r.bios != [] { assert [r.bios[0]] + r.bios[1..] == r.bios; }
      assert r.ended + [] == r.ended;
    } else {
      assert |Completed(r.bios, 0, error).ended| >= 1;
    }
  }

  /** A bio without data behind the last completed byte is ended by a completion of nothing. */
  lemma EmptyBioBreaksComposition()
    ensures var bios := [Bio(1, [Vec(0, 0, 512)], 512, 0, true), Bio(2, [], 0, 1, true)];
            BiosOk(bios) && BiosOk(Completed(bios, 512, false).bios) && !Composes(bios, 512, 0, false)
  {
    var bios := [Bio(1, [Vec(0, 0, 512)], 512, 0, true), Bio(2, [], 0, 1, true)];
    assert [Vec(0, 0, 512)][1..] == [];
    assert BiosOk(bios);
    assert bios[1..] == [bios[1]];
    ComposesExactly(bios, 512, 0, false);
  }

  /** The request's own sector after an update: it advances by whole sectors, and not at all if nothing is left. */
  function SectorAfter(sector: nat, bios: seq<Bio>, n: nat, error: bool): nat
    requires BiosOk(bios)
  {
    var r := Completed(bios, n, error);
    if r.bios == [] then sector else sector + r.total / 512
  }

  /** While something is left, the sector advances by the whole sectors of the bytes dropped, and so does that of a bio cut short. */
  lemma SectorTracks(sector: nat, bios: seq<Bio>, n: nat, error: bool)
    requires BiosOk(bios)
    ensures var r := Completed(bios, n, error);
            var dropped := |Stream(bios)| - |Stream(r.bios)|;
            && (r.bios != [] ==> 512 * (SectorAfter(sector, bios, n, error) - sector) <= dropped < 512 * (SectorAfter(sector, bios, n, error) - sector) + 512)
            && (r.bios == [] ==> SectorAfter(sector, bios, n, error) == sector)
  {
    hide Completed, Stream, Total;
    Totals(bios, n, error);
    StreamLength(bios);
    CompletedOk(bios, n, error);
    StreamLength(Completed(bios, n, error).bios);
  }

  lemma AdvancedTracks(b: Bio, n: nat, error: bool)
    requires BioOk(b) && n < b.size
    ensures var a := Advanced(b, n, error);
            && a.size == b.size - n && 512 * (a.sector - b.sector) <= b.size - a.size < 512 * (a.sector - b.sector) + 512
            && a.id == b.id && (a.uptodate <==> b.uptodate && !(error && n > 0))
  {
    AdvancedOk(b, n, error);
  }

  /**
   The request's sector is the same after two updates as after one exactly if the first update
   finishes the request or the second adds nothing; or the second one finishes it and the first
   made up no sector; or neither does and the two remainders make up no sector.
   */
  lemma SectorsExactly(bios: seq<Bio>, m: nat, n: nat, error: bool, sector: nat)
    requires BiosOk(bios)
    ensures BiosOk(Completed(bios, m, error).bios)
    ensures SectorAfter(SectorAfter(sector, bios, m, error), Completed(bios, m, error).bios, n, error)
              == SectorAfter(sector, bios, m + n, error) <==>
            || Finishes(bios, m) || n == 0
            || if Finishes(bios, m + n) then Min(m, Total(bios)) < 512 else m % 512 + n % 512 < 512
  {
    hide Completed, Drops, Composes, DataAt, DataNext, Finishes, Total, SizeOf;
    CompletedOk(bios, m, error);
    var r, both := Completed(bios, m, error), Completed(bios, m + n, error);
    var r2 := Completed(r.bios, n, error);
    Totals(bios, m, error);
    Totals(bios, m + n, error);
    Totals(r.bios, n, error);
    LeavesOff(bios, m, error);
    LeavesOff(bios, m + n, error);
    if n > 0 {
      ComposesWithMore(bios, m, n, error);
      SameEnd(bios, m, n, error);
      Remainders(m, n);
      FinishesBound(bios, m);
      FinishesBound(bios, m + n);
      if Finishes(bios, m) { FinishesMore(bios, m, n); }
    }
  }

  lemma Totals(bios: seq<Bio>, n: nat, error: bool)
    requires BiosOk(bios)
    ensures var r := Completed(bios, n, error); r.total == Min(n, Total(bios)) && Total(r.bios) == Total(bios) - r.total
    ensures bios == [] ==> Completed(bios, n, error).bios == []
  {
    CompletedDrops(bios, n, error);
  }

  lemma FinishesMore(bios: seq<Bio>, m: nat, n: nat)
    requires Finishes(bios, m) && n > 0
    ensures Finishes(bios, m + n)
  {
  }

  lemma FinishesBound(bios: seq<Bio>, m: nat)
    ensures Finishes(bios, m) ==> m >= Total(bios)
    ensures !Finishes(bios, m) ==> m <= Total(bios)
  {
  }

  lemma SameEnd(bios: seq<Bio>, m: nat, n: nat, error: bool)
    requires BiosOk(bios) && BiosOk(Completed(bios, m, error).bios) && Composes(bios, m, n, error)
    ensures Completed(Completed(bios, m, error).bios, n, error).bios == [] <==> Completed(bios, m + n, error).bios == []
  {
  }

  lemma Remainders(m: nat, n: nat)
    ensures m / 512 + n / 512 == (m + n) / 512 <==> m % 512 + n % 512 < 512
  {
    assert m == 512 * (m / 512) + m % 512 && n == 512 * (n / 512) + n % 512;
    assert m + n == 512 * (m / 512 + n / 512) + (m % 512 + n % 512);
  }

  // ---------------------------------------------------------------- the request object

  /** What the loop has still to do is what completing `n` bytes of what is left would do. */
  ghost predicate Pending(goal: Result, bios: seq<Bio>, n: nat, error: bool, ended: seq<Ended>, total: nat)
    requires BiosOk(bios)
  {
    var r := Completed(bios, n, error);
    goal == Result(r.bios, ended + r.ended, total + r.total)
  }

  lemma PendingEnds(goal: Result, bios: seq<Bio>, n: nat, error: bool, ended: seq<Ended>, total: nat)
    requires BiosOk(bios) && bios != [] && n >= bios[0].size && Pending(goal, bios, n, error, ended, total)
    ensures var e := ended + [Ended(bios[0].id, bios[0].uptodate && !error)];
            var t := total + bios[0].size;
            if |bios| > 1 && n == bios[0].size then goal == Result(bios[1..], e, t)
            else Pending(goal, bios[1..], n - bios[0].size, error, e, t)
  {
    var e := [Ended(bios[0].id, bios[0].uptodate && !error)];
    if !(|bios| > 1 && n == bios[0].size) {
      var more := Completed(bios[1..], n - bios[0].size, error).ended;
      assert ended + (e + more) == (ended + e) + more;
    }
  }

  lemma {:induction false} LengthSplit(vs: seq<Vec>, k: nat)
    requires k <= |vs|
    ensures Length(vs[..k]) + Length(vs[k..]) == Length(vs)
  {
    if k > 0 {
      LengthSplit(vs[1..], k - 1);
      assert vs[..k][1..] == vs[1..][..k - 1] && vs[1..][k - 1..] == vs[k..];
    } else {
      assert vs[0..] == vs;
    }
  }

  lemma LengthMore(vs: seq<Vec>, k: nat)
    requires k < |vs|
    ensures Length(vs[..k + 1]) == Length(vs[..k]) + vs[k].len && vs[k].len <= Length(vs)
  {
    LengthSplit(vs[..k + 1], k);
    LengthSplit(vs, k + 1);
    assert vs[..k + 1][..k] == vs[..k] && vs[..k + 1][k..] == [vs[k]] && [vs[k]][1..] == [];
  }

  /** Skipping whole vectors and then a part of the next. */
  lemma {:induction false} SkippedAt(vs: seq<Vec>, k: nat, n: nat)
    requires k < |vs| && n < vs[k].len
    ensures Length(vs[..k]) + n <= Length(vs)
    ensures Skipped(vs, Length(vs[..k]) + n) == [vs[k].(offset := vs[k].offset + n, len := vs[k].len - n)] + vs[k + 1..]
  {
    LengthSplit(vs, k);
    LengthMore(vs, k);
    LengthSplit(vs, k + 1);
    if k > 0 {
      SkippedAt(vs[1..], k - 1, n);
      assert vs[..k][1..] == vs[1..][..k - 1];
    }
  }

  class Request {
    /** REQ_FLUSH_SEQ: the bios of a flush sequence are not handed back here. */
    const flushSeq: bool
    /** A file system or discard request, whose sector is defined. */
    const hasSector: bool
    var bios: seq<Bio>
    var dataLen: int
    var sector: nat
    /** The bios handed back so far. */
    var log: seq<Ended>

    ghost predicate Valid()
      reads this
    {
      BiosOk(bios) && dataLen == Total(bios)
    }

    constructor (bios: seq<Bio>, sector: nat, flushSeq: bool, hasSector: bool)
      requires BiosOk(bios)
      ensures Valid() && this.bios == bios && this.sector == sector && log == []
      ensures this.flushSeq == flushSeq && this.hasSector == hasSector
    {
      this.bios, this.sector, this.flushSeq, this.hasSector := bios, sector, flushSeq, hasSector;
      dataLen, log := Total(bios), [];
    }

    /**
     The loop of blk_update_request.  It stops `bioBytes` into the first bio left:
     `nextIdx` whole vectors and `left` bytes of the next one.  It never runs past
     the vectors of a bio.
     */
    method EndBios(n: nat, error: bool) returns (nextIdx: nat, bioBytes: nat, left: nat, total: nat)
      requires BiosOk(bios)
      modifies `bios, `log
      ensures BiosOk(bios)
      ensures var r := Completed(old(bios), n, error);
              && log == old(log) + (if flushSeq then [] else r.ended) && total == r.total
              && (bios == [] <==> r.bios == [])
              && (bios != [] && bioBytes == 0 ==> r.bios == bios)
              && (bios != [] && bioBytes > 0 ==>
                    StopsAt(bios[0], nextIdx, left, bioBytes) && r.bios == [Advanced(bios[0], bioBytes, error)] + bios[1..])
    {
      hide Going, Completed, Advanced, BiosOk;
      total, nextIdx, bioBytes, left := 0, 0, 0, n;
      ghost var goal, ended: seq<Ended> := Completed(bios, n, error), [];
      GoingStart(bios, n, error);
      while bios != []
        invariant BiosOk(bios) && bioBytes <= total && Going(goal, bios, nextIdx, bioBytes, left, error, ended, total - bioBytes)
        invariant log == old(log) + if flushSeq then [] else ended
        decreases |bios|, if bios == [] then 0 else |bios[0].vecs| - nextIdx
      {
        var b := bios[0];
        if left >= b.size {
          GoingEnds(goal, bios, nextIdx, bioBytes, left, error, ended, total - bioBytes);
          var e := Ended(b.id, b.uptodate && !error);
          ended := ended + [e];
          if !flushSeq { log := log + [e]; }
          bios, total, left, nextIdx, bioBytes := bios[1..], total + b.size, left - b.size, 0, 0;
          if bios != [] && left == 0 { return; }
        } else {
          GoingSteps(goal, bios, nextIdx, bioBytes, left, error, ended, total - bioBytes);
          var bytes := b.vecs[nextIdx].len;
          if bytes > left {
            bioBytes, total := bioBytes + left, total + left;
            return;
          }
          nextIdx, bioBytes, total, left := nextIdx + 1, bioBytes + bytes, total + bytes, left - bytes;
          if left == 0 { return; }
        }
      }
      GoingDone(goal, nextIdx, bioBytes, left, error, ended, total - bioBytes);
    }

    /** The update of the bio the loop stopped in. */
    method TrimFirst(nextIdx: nat, bioBytes: nat, left: nat, error: bool)
      requires bios != [] && BioOk(bios[0]) && StopsAt(bios[0], nextIdx, left, bioBytes) && bioBytes > 0
      modifies `bios
      ensures bios == [Advanced(old(bios)[0], bioBytes, error)] + old(bios)[1..]
    {
      var b := bios[0];
      StopsAdvanced(b, nextIdx, left, bioBytes, error);
      var v := b.vecs[nextIdx];
      b := b.(size := b.size - bioBytes, sector := b.sector + bioBytes / 512, uptodate := b.uptodate && !error);
      b := b.(vecs := b.vecs[nextIdx..]);
      b := b.(vecs := b.vecs[0 := v.(offset := v.offset + left, len := v.len - left)]);
      bios := [b] + bios[1..];
    }

    /** blk_update_request; `more` says that the request is not done, `botched` that its count went wrong. */
    method Update(n: nat, error: bool) returns (more: bool, botched: bool)
      requires Valid()
      modifies this
      ensures Valid() && !botched
      ensures var r := Completed(old(bios), n, error);
              && bios == r.bios && log == old(log) + (if flushSeq then [] else r.ended) && more == (r.bios != [])
              && sector == if hasSector then SectorAfter(old(sector), old(bios), n, error) else old(sector)
    {
      more, botched := false, false;
      hide Completed, Advanced, Bytes, Stream;
      UpdateFacts(bios, n, error);
      if bios == [] { return; }
      var nextIdx, bioBytes, left, total := EndBios(n, error);
      if bios == [] {
        dataLen := 0;
        return;
      }
      more := true;
      if bioBytes > 0 { TrimFirst(nextIdx, bioBytes, left, error); }
      dataLen := dataLen - total;
      if hasSector { sector := sector + total / 512; }
      FirstFits(bios);
      var first := if bios[0].vecs == [] then bios[0].size else bios[0].vecs[0].len;
      if dataLen < first { botched := true; }
    }
  }

  /** `bioBytes` lies `left` bytes into vector `k` of `b`. */
  ghost predicate StopsAt(b: Bio, k: nat, left: nat, bioBytes: nat) {
    && k < |b.vecs| && left < b.vecs[k].len && bioBytes == Length(b.vecs[..k]) + left
    && bioBytes < b.size && bioBytes <= Length(b.vecs)
  }

  /** What the loop keeps: `base` bytes and the bios `ended` are done, and `nextIdx` whole vectors of the first bio left. */
  ghost predicate Going(goal: Result, bios: seq<Bio>, nextIdx: nat, bioBytes: nat, left: nat, error: bool, ended: seq<Ended>, base: nat) {
    && BiosOk(bios) && Pending(goal, bios, bioBytes + left, error, ended, base)
    && (nextIdx == 0 ==> bioBytes == 0)
    && (nextIdx > 0 ==> bios != [] && bioBytes + left < bios[0].size)
    && (bios != [] ==> nextIdx <= |bios[0].vecs| && bioBytes == Length(bios[0].vecs[..nextIdx]))
  }

  lemma GoingStart(bios: seq<Bio>, n: nat, error: bool)
    requires BiosOk(bios)
    ensures Going(Completed(bios, n, error), bios, 0, 0, n, error, [], 0)
  {
    PendingStart(bios, n, error);
  }

  lemma GoingEnds(goal: Result, bios: seq<Bio>, nextIdx: nat, bioBytes: nat, left: nat, error: bool, ended: seq<Ended>, base: nat)
    requires Going(goal, bios, nextIdx, bioBytes, left, error, ended, base) && bios != [] && left >= bios[0].size
    ensures nextIdx == 0 && bioBytes == 0 && BiosOk(bios[1..])
    ensures var e := ended + [Ended(bios[0].id, bios[0].uptodate && !error)];
            if |bios| > 1 && left == bios[0].size then goal == Result(bios[1..], e, base + bios[0].size)
            else Going(goal, bios[1..], 0, 0, left - bios[0].size, error, e, base + bios[0].size)
  {
    PendingEnds(goal, bios, left, error, ended, base);
  }

  lemma GoingSteps(goal: Result, bios: seq<Bio>, nextIdx: nat, bioBytes: nat, left: nat, error: bool, ended: seq<Ended>, base: nat)
    requires Going(goal, bios, nextIdx, bioBytes, left, error, ended, base) && bios != [] && left < bios[0].size
    ensures nextIdx < |bios[0].vecs|
    ensures var bytes := bios[0].vecs[nextIdx].len;
            if bytes > left then Stops(goal, bios, nextIdx, bioBytes + left, left, error, ended, base)
            else bytes > 0
                 && if left == bytes then Stops(goal, bios, nextIdx + 1, bioBytes + bytes, 0, error, ended, base)
                    else Going(goal, bios, nextIdx + 1, bioBytes + bytes, left - bytes, error, ended, base)
  {
    hide Pending, Advanced;
    assert BioOk(bios[0]);
    InsideBio(bios[0], nextIdx, left, bioBytes);
    PendingStops(goal, bios, bioBytes + left, error, ended, base);
    LengthMore(bios[0].vecs, nextIdx);
    if bios[0].vecs[nextIdx].len == left { InsideBio(bios[0], nextIdx + 1, 0, bioBytes + left); }
  }

  /** Where the loop stops within a bio. */
  ghost predicate Stops(goal: Result, bios: seq<Bio>, nextIdx: nat, bioBytes: nat, left: nat, error: bool, ended: seq<Ended>, base: nat) {
    && bios != [] && StopsAt(bios[0], nextIdx, left, bioBytes)
    && goal == Result([Advanced(bios[0], bioBytes, error)] + bios[1..], ended, base + bioBytes)
    && (bioBytes == 0 ==> goal.bios == bios)
  }

  lemma GoingDone(goal: Result, nextIdx: nat, bioBytes: nat, left: nat, error: bool, ended: seq<Ended>, base: nat)
    requires Going(goal, [], nextIdx, bioBytes, left, error, ended, base)
    ensures goal == Result([], ended, base) && bioBytes == 0
  {
    PendingNone(goal, bioBytes + left, error, ended, base);
  }

  lemma PendingStart(bios: seq<Bio>, n: nat, error: bool)
    requires BiosOk(bios)
    ensures Pending(Completed(bios, n, error), bios, n, error, [], 0)
  {
    assert [] + Completed(bios, n, error).ended == Completed(bios, n, error).ended;
  }

  lemma PendingStops(goal: Result, bios: seq<Bio>, n: nat, error: bool, ended: seq<Ended>, total: nat)
    requires BiosOk(bios) && bios != [] && n < bios[0].size && Pending(goal, bios, n, error, ended, total)
    ensures goal == Result([Advanced(bios[0], n, error)] + bios[1..], ended, total + n)
    ensures n == 0 ==> goal.bios == bios
  {
    assert ended + [] == ended;
    if n == 0 { assert [bios[0]] + bios[1..] == bios; }
  }

  lemma PendingNone(goal: Result, n: nat, error: bool, ended: seq<Ended>, total: nat)
    requires Pending(goal, [], n, error, ended, total)
    ensures goal == Result([], ended, total)
  {
    assert ended + [] == ended;
  }

  /** Fewer bytes than the bio has are not beyond its vectors. */
  lemma InsideBio(b: Bio, k: nat, left: nat, bioBytes: nat)
    requires BioOk(b) && k <= |b.vecs| && bioBytes == Length(b.vecs[..k]) && bioBytes + left < b.size
    ensures k < |b.vecs| && (left < b.vecs[k].len ==> StopsAt(b, k, left, bioBytes + left))
  {
    LengthSplit(b.vecs, k);
  }

  lemma StopsAdvanced(b: Bio, k: nat, left: nat, bioBytes: nat, error: bool)
    requires BioOk(b) && StopsAt(b, k, left, bioBytes) && bioBytes > 0
    ensures var v := b.vecs[k];
            Advanced(b, bioBytes, error) == b.(size := b.size - bioBytes, sector := b.sector + bioBytes / 512,
                                               uptodate := b.uptodate && !error,
                                               vecs := b.vecs[k..][0 := v.(offset := v.offset + left, len := v.len - left)])
  {
    SkippedAt(b.vecs, k, left);
    var v := b.vecs[k];
    assert b.vecs[k..][0 := v.(offset := v.offset + left, len := v.len - left)]
        == [v.(offset := v.offset + left, len := v.len - left)] + b.vecs[k + 1..];
  }

  lemma UpdateFacts(bios: seq<Bio>, n: nat, error: bool)
    requires BiosOk(bios)
    ensures var r := Completed(bios, n, error);
            && BiosOk(r.bios) && Total(r.bios) == Total(bios) - r.total && (bios == [] ==> r == Result([], [], 0))
  {
    CompletedDrops(bios, n, error);
  }

  /** The first vector is never longer than what is left of the request. */
  lemma FirstFits(bios: seq<Bio>)
    requires BiosOk(bios) && bios != []
    ensures (if bios[0].vecs == [] then bios[0].size else bios[0].vecs[0].len) <= Total(bios)
  {
    assert BioOk(bios[0]);
  }
}
