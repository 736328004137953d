/**
 Idle injection in schedule() (sched_bfs.c): one counter, shared by all CPUs, of
 passes through schedule().  A pass counts itself, and then either leaves early or
 reaches the choice between the idle task and a queued one.
 */
module IdleInjection {

  const INIT_PASSES: nat := 2000
  const STANDARD_PASSES: nat := 15

  /** idle_cycles_offset and is_init. */
  datatype Counter = Counter(passes: nat, init: bool) {
    function Threshold(): nat { if init then INIT_PASSES else STANDARD_PASSES }
  }

  const Boot := Counter(0, true)

  /** What a pass meets: an early exit, or the choice with or without queued tasks. */
  datatype Pass = Early | Choice(queued: bool)

  datatype Outcome = Left | Ran | Idled(forced: bool)

  function Count(c: Counter): Counter { c.(passes := c.passes + 1) }

  /** The test at the choice point, on the counted counter. */
  predicate ChoosesIdle(c: Counter, queued: bool) { !queued || c.passes == c.Threshold() }

  function Tick(c: Counter, p: Pass): (r: (Counter, Outcome)) {
    var n := Count(c);
    match p
    case Early => (n, Left)
    case Choice(queued) => if ChoosesIdle(n, queued) then (Counter(0, false), Idled(queued)) else (n, Ran)
  }

  /** The counter after all of `ps`, from boot. */
  function After(ps: seq<Pass>): Counter {
    if ps == [] then Boot else Tick(After(ps[..|ps| - 1]), ps[|ps| - 1]).0
  }

  function At(ps: seq<Pass>, k: nat): Outcome
    requires k < |ps|
  {
    Tick(After(ps[..k]), ps[k]).1
  }

  /** The number of passes up to and including the last idle choice; zero if there was none. */
  function LastReset(ps: seq<Pass>): (n: nat)
    ensures n <= |ps|
  {
    if ps == [] then 0
    else if At(ps, |ps| - 1).Idled? then |ps|
    else LastReset(ps[..|ps| - 1])
  }

  lemma AtPrefix(ps: seq<Pass>, n: nat, k: nat)
    requires k < n <= |ps|
    ensures At(ps[..n], k) == At(ps, k)
  {
    assert ps[..n][..k] == ps[..k];
  }

  lemma AfterMore(ps: seq<Pass>, k: nat)
    requires k < |ps|
    ensures After(ps[..k + 1]) == Tick(After(ps[..k]), ps[k]).0
  {
    assert ps[..k + 1][..k] == ps[..k];
  }

  /** The last idle choice really is one, and none comes after it. */
  lemma {:induction false} LastResetIsLast(ps: seq<Pass>)
    ensures var n := LastReset(ps);
            (n > 0 ==> At(ps, n - 1).Idled?) && forall k :: n <= k < |ps| ==> !At(ps, k).Idled?
  {
    if ps != [] {
      var m := |ps| - 1;
      LastResetIsLast(ps[..m]);
      var n := LastReset(ps[..m]);
      if n > 0 { AtPrefix(ps, m, n - 1); }
      forall k | n <= k < m ensures !At(ps, k).Idled? { AtPrefix(ps, m, k); }
    }
  }

  /** The counter counts the passes since the last idle choice, and is_init says whether there was one. */
  lemma {:induction false} AfterCounts(ps: seq<Pass>)
    ensures After(ps) == Counter(|ps| - LastReset(ps), LastReset(ps) == 0)
  {
    if ps != [] {
      AfterCounts(ps[..|ps| - 1]);
    }
  }

  /**
   An idle is forced with work queued exactly when the passes since the last idle
   choice reach the threshold and that very pass gets to the choice.
   */
  lemma ForcedExactly(ps: seq<Pass>, k: nat)
    requires k < |ps|
    ensures var n := LastReset(ps[..k]);
            At(ps, k) == Idled(true) <==>
            ps[k] == Choice(true) && k + 1 - n == if n == 0 then 2000 else 15
  {
    AfterCounts(ps[..k]);
  }

  /** Forced idles are at least fifteen passes apart. */
  lemma ForcedApart(ps: seq<Pass>, i: nat, j: nat)
    requires i < j < |ps| && At(ps, i).Idled? && At(ps, j) == Idled(true)
    ensures j - i >= 15
  {
    ForcedExactly(ps, j);
    LastResetIsLast(ps[..j]);
    AtPrefix(ps, j, i);
  }

  /** With no early exit and never an empty queue: the pass 2000, then every fifteenth, and no other. */
  lemma {:induction false} EveryFifteenth(ps: seq<Pass>, k: nat)
    requires k < |ps| && forall i :: 0 <= i <= k ==> ps[i] == Choice(true)
    ensures At(ps, k) == Idled(true) <==> k + 1 >= 2000 && (k + 1 - 2000) % 15 == 0
    ensures At(ps, k) == Idled(true) || At(ps, k) == Ran
  {
    SteadyCounter(ps, k);
  }

  lemma {:induction false} SteadyCounter(ps: seq<Pass>, k: nat)
    requires k <= |ps| && forall i :: 0 <= i < k ==> ps[i] == Choice(true)
    ensures After(ps[..k]) == if k < INIT_PASSES then Counter(k, true) else Counter((k - INIT_PASSES) % STANDARD_PASSES, false)
  {
    if k > 0 {
      SteadyCounter(ps, k - 1);
      AfterMore(ps, k - 1);
    }
  }

  /**
   The test is an equality: once the threshold is passed (its pass left early), no
   idle is forced again until the queue is empty at some choice.
   */
  lemma {:induction false} MissedStaysMissed(ps: seq<Pass>, m: nat, k: nat)
    requires m <= k < |ps| && After(ps[..m]).passes >= After(ps[..m]).Threshold()
    requires forall i :: m <= i <= k ==> ps[i] != Choice(false)
    ensures !At(ps, k).Idled? && After(ps[..k + 1]).passes >= After(ps[..k + 1]).Threshold()
  {
    if k > m { MissedStaysMissed(ps, m, k - 1); }
    AfterMore(ps, k);
  }

  /**
   From an idle choice on, with work always queued: fifteen passes later an idle is forced
   iff that pass is no early exit, and otherwise never.
   */
  lemma {:induction false} NextForcedIff(ps: seq<Pass>, i: nat, k: nat)
    requires i + 15 <= k < |ps| && At(ps, i).Idled? && forall j :: i < j <= k ==> ps[j] != Choice(false)
    ensures var due := i + 15;
            && (At(ps, due) == Idled(true) <==> ps[due] != Early)
            && (ps[due] == Early ==> !At(ps, k).Idled?)
  {
    var due := i + STANDARD_PASSES;
    ClimbsFrom(ps, i, due);
    AfterMore(ps, due);
    if ps[due] == Early {
      if k > due { MissedStaysMissed(ps, due + 1, k); }
    }
  }

  lemma {:induction false} ClimbsFrom(ps: seq<Pass>, i: nat, k: nat)
    requires i < k < |ps| && k <= i + STANDARD_PASSES && At(ps, i).Idled? && forall j :: i < j <= k ==> ps[j] != Choice(false)
    ensures After(ps[..k]) == Counter(k - i - 1, false)
  {
    AfterMore(ps, k - 1);
    if k > i + 1 { ClimbsFrom(ps, i, k - 1); }
  }
}
