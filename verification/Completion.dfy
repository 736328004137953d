/**
 The completion protocol of sched_bfs.c: complete, complete_all, the wait loop and
 try_wait_for_completion, each between taking and releasing x->wait.lock.
 */
module Completion {
  import opened Wrappers

  const ALL_TOKENS: nat := 0xFFFF_FFFF / 2

  /**
   A waiter on the list has released the lock.  Drowsy: its state is set but it is
   still on a CPU or a runqueue.  Asleep: it has been descheduled.  Awake: its state
   is TASK_RUNNING and it is on its way back to the lock.
   */
  datatype Mode = Drowsy | Asleep | Awake

  datatype Waiter = Waiter(id: nat, mode: Mode)

  datatype Result = Success | TimedOut | Interrupted

  /** `posted` and `taken` record the tokens added by completers and the successes reported. */
  datatype State = State(done: nat, waiters: seq<Waiter>, posted: nat, taken: nat)

  function Up(w: Waiter): Waiter { w.(mode := Awake) }

  /** __wake_up_common for one exclusive waiter: only a task that really slept counts as woken and ends the scan. */
  function WakeOne(ws: seq<Waiter>): (r: seq<Waiter>)
    ensures |r| == |ws|
  {
    if ws == [] then []
    else if ws[0].mode == Asleep then [Up(ws[0])] + ws[1..]
    else [Up(ws[0])] + WakeOne(ws[1..])
  }

  function WakeAll(ws: seq<Waiter>): (r: seq<Waiter>)
    ensures |r| == |ws|
  {
    if ws == [] then [] else [Up(ws[0])] + WakeAll(ws[1..])
  }

  function Awakes(ws: seq<Waiter>): nat { if ws == [] then 0 else (if ws[0].mode == Awake then 1 else 0) + Awakes(ws[1..]) }

  ghost predicate AllAwake(ws: seq<Waiter>) { forall i :: 0 <= i < |ws| ==> ws[i].mode == Awake }

  /** Every token is accounted for, and unless all waiters are awake, there are as many awake as tokens. */
  ghost predicate Inv(s: State) {
    s.done + s.taken == s.posted && (AllAwake(s.waiters) || Awakes(s.waiters) >= s.done)
  }

  // ---------------------------------------------------------------- the steps

  function Complete(s: State): State { s.(done := s.done + 1, posted := s.posted + 1, waiters := WakeOne(s.waiters)) }

  function CompleteAll(s: State): State {
    s.(done := s.done + ALL_TOKENS, posted := s.posted + ALL_TOKENS, waiters := WakeAll(s.waiters))
  }

  function Take(s: State): State
    requires s.done > 0
  {
    s.(done := s.done - 1, taken := s.taken + 1)
  }

  datatype Waited = Waited(s: State, result: Option<Result>)

  /** The start of a wait; `signal` is signal_pending_state. */
  function Begin(s: State, id: nat, signal: bool): Waited {
    if s.done > 0 then Waited(Take(s), Some(Success))
    else if signal then Waited(s, Some(Interrupted))
    else Waited(s.(waiters := s.waiters + [Waiter(id, Drowsy)]), None)
  }

  function Dropped(ws: seq<Waiter>, i: nat): seq<Waiter>
    requires i < |ws|
  {
    ws[..i] + ws[i + 1..]
  }

  /** Waiter `i` is back with the lock; `left` says that its timeout has not run out. */
  function Resume(s: State, i: nat, left: bool, signal: bool): Waited
    requires i < |s.waiters|
  {
    var gone := s.(waiters := Dropped(s.waiters, i));
    if s.done > 0 then Waited(Take(gone), Some(Success))
    else if !left then Waited(gone, Some(TimedOut))
    else if signal then Waited(gone, Some(Interrupted))
    else Waited(s.(waiters := s.waiters[i := s.waiters[i].(mode := Drowsy)]), None)
  }

  function TryWait(s: State): (State, bool) { if s.done == 0 then (s, false) else (Take(s), true) }

  // ---------------------------------------------------------------- counting

  lemma {:induction false} AwakesSplit(a: seq<Waiter>, b: seq<Waiter>)
    ensures Awakes(a + b) == Awakes(a) + Awakes(b)
  {
    if a == [] {
      assert a + b == b;
    } else {
      AwakesSplit(a[1..], b);
      assert (a + b)[1..] == a[1..] + b;
    }
  }

  lemma AwakesAt(ws: seq<Waiter>, i: nat)
    requires i < |ws|
    ensures Awakes(ws) == Awakes(Dropped(ws, i)) + if ws[i].mode == Awake then 1 else 0
    ensures forall w: Waiter :: Awakes(ws[i := w]) == Awakes(Dropped(ws, i)) + if w.mode == Awake then 1 else 0
  {
    AwakesSplit(ws[..i], ws[i + 1..]);
    assert ws == ws[..i] + ([ws[i]] + ws[i + 1..]);
    AwakesSplit(ws[..i], [ws[i]] + ws[i + 1..]);
    forall w: Waiter ensures Awakes(ws[i := w]) == Awakes(Dropped(ws, i)) + if w.mode == Awake then 1 else 0 {
      assert ws[i := w] == ws[..i] + ([w] + ws[i + 1..]);
      AwakesSplit(ws[..i], [w] + ws[i + 1..]);
      assert ([w] + ws[i + 1..])[1..] == ws[i + 1..];
    }
  }

  /** One exclusive wakeup wakes a sleeper, or leaves nobody but awake waiters. */
  lemma {:induction false} WakeOneCounts(ws: seq<Waiter>)
    ensures var r := WakeOne(ws); AllAwake(r) || Awakes(r) > Awakes(ws)
    ensures Awakes(WakeOne(ws)) >= Awakes(ws) && (AllAwake(ws) ==> AllAwake(WakeOne(ws)))
  {
    if ws != [] && ws[0].mode != Asleep { WakeOneCounts(ws[1..]); }
  }

  /** The first sleeper is the one woken: all before it become awake, all after it stay as they are. */
  lemma {:induction false} WakeOneInOrder(ws: seq<Waiter>, k: nat)
    requires k < |ws| && ws[k].mode == Asleep && forall i :: 0 <= i < k ==> ws[i].mode != Asleep
    ensures var r := WakeOne(ws); r[k + 1..] == ws[k + 1..] && forall i :: 0 <= i <= k ==> r[i] == Up(ws[i])
  {
    if k > 0 {
      WakeOneInOrder(ws[1..], k - 1);
      var r, t := WakeOne(ws), WakeOne(ws[1..]);
      assert r[k + 1..] == t[k..];
      forall i | 0 <= i <= k ensures r[i] == Up(ws[i]) {
        if i > 0 { assert r[i] == t[i - 1]; }
      }
    }
  }

  lemma {:induction false} WakeAllIs(ws: seq<Waiter>)
    ensures forall i :: 0 <= i < |ws| ==> WakeAll(ws)[i] == Up(ws[i])
  {
    if ws != [] {
      WakeAllIs(ws[1..]);
      forall i | 0 <= i < |ws| ensures WakeAll(ws)[i] == Up(ws[i]) {
        if i > 0 { assert WakeAll(ws)[i] == WakeAll(ws[1..])[i - 1]; }
      }
    }
  }

  // ---------------------------------------------------------------- every run

  /** Settle and Rouse are what the scheduler, timers and signals do to a waiter that is off the lock. */
  datatype Op =
    | DoComplete
    | DoCompleteAll
    | DoBegin(id: nat, signal: bool)
    | DoResume(i: nat, left: bool, signal: bool)
    | DoTry
    | DoSettle(i: nat)
    | DoRouse(i: nat)

  predicate Enabled(s: State, op: Op) {
    match op
    case DoResume(i, _, _) => i < |s.waiters| && s.waiters[i].mode == Awake
    case DoSettle(i) => i < |s.waiters| && s.waiters[i].mode == Drowsy
    case DoRouse(i) => i < |s.waiters|
    case _ => true
  }

  function Next(s: State, op: Op): State
    requires Enabled(s, op)
  {
    match op
    case DoComplete => Complete(s)
    case DoCompleteAll => CompleteAll(s)
    case DoBegin(id, signal) => Begin(s, id, signal).s
    case DoResume(i, left, signal) => Resume(s, i, left, signal).s
    case DoTry => TryWait(s).0
    case DoSettle(i) => s.(waiters := s.waiters[i := s.waiters[i].(mode := Asleep)])
    case DoRouse(i) => s.(waiters := s.waiters[i := Up(s.waiters[i])])
  }

  /** Does the operation report success? */
  predicate Succeeds(s: State, op: Op)
    requires Enabled(s, op)
  {
    match op
    case DoBegin(id, signal) => Begin(s, id, signal).result == Some(Success)
    case DoResume(i, left, signal) => Resume(s, i, left, signal).result == Some(Success)
    case DoTry => TryWait(s).1
    case _ => false
  }

  lemma NextKeeps(s: State, op: Op)
    requires Inv(s) && Enabled(s, op)
    ensures Inv(Next(s, op))
    ensures Next(s, op).taken == s.taken + if Succeeds(s, op) then 1 else 0
  {
    hide Awakes, WakeOne, WakeAll;
    match op
    case DoComplete => WakeOneCounts(s.waiters);
    case DoCompleteAll => WakeAllIs(s.waiters);
    case DoBegin(id, signal) => AwakesSplit(s.waiters, [Waiter(id, Drowsy)]);
    case DoResume(i, left, signal) => AwakesAt(s.waiters, i);
    case DoTry =>
    case DoSettle(i) => AwakesAt(s.waiters, i);
    case DoRouse(i) => AwakesAt(s.waiters, i);
  }

  /** The states of a run, from an empty completion. */
  ghost predicate IsRun(ss: seq<State>, ops: seq<Op>) {
    && |ss| == |ops| + 1 && ss[0] == State(0, [], 0, 0)
    && forall i :: 0 <= i < |ops| ==> Enabled(ss[i], ops[i]) && ss[i + 1] == Next(ss[i], ops[i])
  }

  function Successes(ss: seq<State>, ops: seq<Op>, n: nat): nat
    requires n <= |ops| < |ss| && forall i :: 0 <= i < n ==> Enabled(ss[i], ops[i])
  {
    if n == 0 then 0 else Successes(ss, ops, n - 1) + if Succeeds(ss[n - 1], ops[n - 1]) then 1 else 0
  }

  /**
   In every run: no token is lost or handed out twice (what is left is what was posted
   less the successes reported), and no wakeup is lost.
   */
  lemma {:induction false} RunKeeps(ss: seq<State>, ops: seq<Op>, n: nat)
    requires IsRun(ss, ops) && n <= |ops|
    ensures Inv(ss[n]) && ss[n].taken == Successes(ss, ops, n) && ss[n].done == ss[n].posted - Successes(ss, ops, n)
  {
    if n > 0 {
      RunKeeps(ss, ops, n - 1);
      NextKeeps(ss[n - 1], ops[n - 1]);
    }
  }

  lemma {:induction false} SomeAwake(ws: seq<Waiter>)
    requires Awakes(ws) > 0
    ensures exists j :: 0 <= j < |ws| && ws[j].mode == Awake
  {
    if ws[0].mode != Awake {
      SomeAwake(ws[1..]);
      var j :| 0 <= j < |ws[1..]| && ws[1..][j].mode == Awake;
      assert ws[j + 1].mode == Awake;
    }
  }

  /**
   No lost wakeup, in every state of every run: while some waiter sleeps, each token has a waiter
   awake that will come for it, and with a token there some waiter is awake.
   */
  lemma NoLostWakeup(ss: seq<State>, ops: seq<Op>, n: nat, i: nat)
    requires IsRun(ss, ops) && n <= |ops| && i < |ss[n].waiters| && ss[n].waiters[i].mode == Asleep
    ensures Awakes(ss[n].waiters) >= ss[n].done
    ensures ss[n].done > 0 ==> exists j :: 0 <= j < |ss[n].waiters| && ss[n].waiters[j].mode == Awake
  {
    RunKeeps(ss, ops, n);
    if ss[n].done > 0 { SomeAwake(ss[n].waiters); }
  }

  /**
   What a wait reports and when: success exactly with a token there, a timeout before a signal, and
   otherwise it goes on, behind the others if it is new, and is not awake until somebody wakes it.
   */
  lemma WaitResults(s: State, i: nat, left: bool, signal: bool, id: nat)
    requires i < |s.waiters|
    ensures var r := Resume(s, i, left, signal).result;
            && (r == Some(Success) <==> s.done > 0) && (r == Some(TimedOut) <==> s.done == 0 && !left)
            && (r == Some(Interrupted) <==> s.done == 0 && left && signal)
            && (r == None <==> |Resume(s, i, left, signal).s.waiters| == |s.waiters|)
            && (r == None ==> Resume(s, i, left, signal).s.waiters == s.waiters[i := Waiter(s.waiters[i].id, Drowsy)])
    ensures var r := Begin(s, id, signal).result;
            && (r == Some(Success) <==> s.done > 0) && (r == Some(Interrupted) <==> s.done == 0 && signal) && r != Some(TimedOut)
            && (r == None <==> |Begin(s, id, signal).s.waiters| > |s.waiters|)
            && (r == None ==> Begin(s, id, signal).s.waiters == s.waiters + [Waiter(id, Drowsy)])
  {
  }

  /** `at[i]` is the step at which waiter `i` began to wait; the waiters stand in that order. */
  ghost predicate InOrder(s: State, ops: seq<Op>, n: nat, at: seq<nat>)
    requires n <= |ops|
  {
    && |at| == |s.waiters|
    && (forall i :: 0 <= i < |at| ==> at[i] < n && ops[at[i]].DoBegin? && ops[at[i]].id == s.waiters[i].id)
    && (forall i, j :: 0 <= i < j < |at| ==> at[i] < at[j])
  }

  lemma {:induction false} WakeOneIds(ws: seq<Waiter>)
    ensures forall i :: 0 <= i < |ws| ==> WakeOne(ws)[i].id == ws[i].id
  {
    if ws != [] && ws[0].mode != Asleep {
      WakeOneIds(ws[1..]);
      forall i | 0 <= i < |ws| ensures WakeOne(ws)[i].id == ws[i].id {
        if i > 0 { assert WakeOne(ws)[i] == WakeOne(ws[1..])[i - 1]; }
      }
    }
  }

  lemma NextInOrder(s: State, ops: seq<Op>, n: nat, at: seq<nat>) returns (at': seq<nat>)
    requires n < |ops| && InOrder(s, ops, n, at) && Enabled(s, ops[n])
    ensures InOrder(Next(s, ops[n]), ops, n + 1, at')
  {
    var op, s' := ops[n], Next(s, ops[n]);
    WakeOneIds(s.waiters);
    WakeAllIs(s.waiters);
    hide WakeOne, WakeAll;
    at' := at;
    if op.DoBegin? && |s'.waiters| > |s.waiters| {
      at' := at + [n];
    } else if op.DoResume? && |s'.waiters| < |s.waiters| {
      at' := at[..op.i] + at[op.i + 1..];
    }
  }

  /** In every state of every run the waiters stand in the order in which they began to wait. */
  lemma {:induction false} RunInOrder(ss: seq<State>, ops: seq<Op>, n: nat) returns (at: seq<nat>)
    requires IsRun(ss, ops) && n <= |ops|
    ensures InOrder(ss[n], ops, n, at)
  {
    if n == 0 {
      at := [];
    } else {
      at := RunInOrder(ss, ops, n - 1);
      at := NextInOrder(ss[n - 1], ops, n - 1, at);
    }
  }

  /**
   After complete_all everybody gets through: in the steps that follow it, up to half of UINT_MAX
   of them, no waiter is left asleep by it, and every wait that starts, resumes or tries succeeds.
   */
  lemma {:induction false} EverybodySucceeds(ss: seq<State>, ops: seq<Op>, m: nat, n: nat)
    requires IsRun(ss, ops) && m < n <= |ops| && ops[m] == DoCompleteAll && n - m <= 0x7FFF_FFFF
    ensures AllAwake(ss[m + 1].waiters) && ss[n].done >= 0x7FFF_FFFF - (n - m - 1)
    ensures n < |ops| && (ops[n].DoBegin? || ops[n].DoResume? || ops[n].DoTry?) ==> Succeeds(ss[n], ops[n])
    decreases n
  {
    assert ss[m + 1] == Next(ss[m], ops[m]);
    WakeAllIs(ss[m].waiters);
    if n > m + 1 {
      EverybodySucceeds(ss, ops, m, n - 1);
      assert ss[n] == Next(ss[n - 1], ops[n - 1]);
    }
    hide WakeOne, WakeAll;
  }

  // ---------------------------------------------------------------- the completion object

  class Object {
    var done: nat
    var waiters: seq<Waiter>
    ghost var posted: nat
    ghost var taken: nat

    ghost function View(): State
      reads this
    {
      State(done, waiters, posted, taken)
    }

    ghost predicate Valid()
      reads this
    {
      Inv(View())
    }

    constructor ()
      ensures Valid() && View() == State(0, [], 0, 0)
    {
      done, waiters, posted, taken := 0, [], 0, 0;
    }

    /** The scan of __wake_up_common; `exclusive` is its countdown, zero to wake everybody. */
    method WakeUpCommon(exclusive: int)
      requires exclusive == 0 || exclusive == 1
      modifies `waiters
      ensures waiters == Woken(old(waiters), exclusive == 1)
    {
      hide Woken;
      var i, left := 0, exclusive;
      ghost var was, one := waiters, exclusive == 1;
      ghost var before: seq<Waiter> := [];
      assert was[0..] == was && before + Woken(was, one) == Woken(was, one);
      while i < |waiters|
        invariant 0 <= i <= |was| == |waiters| && (if one then left == 1 else left <= 0)
        invariant |before| == i && waiters == before + was[i..] && before + Woken(was[i..], one) == Woken(was, one)
      {
        ScanStep(was, before, i, one);
        var slept := waiters[i].mode == Asleep;
        waiters := waiters[i := Up(waiters[i])];
        before := before + [Up(was[i])];
        i := i + 1;
        if slept {
          left := left - 1;
          if left == 0 { return; }
        }
      }
      WokenNone(one);
      assert was[i..] == [];
    }

    /** complete. */
    method CompleteOne()
      requires Valid()
      modifies this
      ensures Valid() && View() == Complete(old(View()))
    {
      NextKeeps(View(), DoComplete);
      done, posted := done + 1, posted + 1;
      WakeUpCommon(1);
    }

    /** complete_all. */
    method CompleteEveryone()
      requires Valid()
      modifies this
      ensures Valid() && View() == CompleteAll(old(View()))
    {
      NextKeeps(View(), DoCompleteAll);
      done, posted := done + ALL_TOKENS, posted + ALL_TOKENS;
      WakeUpCommon(0);
    }

    /** do_wait_for_common up to the first time it gives up the lock. */
    method BeginWait(id: nat, signal: bool) returns (r: Option<Result>)
      requires Valid()
      modifies this
      ensures Valid() && View() == Begin(old(View()), id, signal).s && r == Begin(old(View()), id, signal).result
    {
      NextKeeps(View(), DoBegin(id, signal));
      if done == 0 {
        if signal { return Some(Interrupted); }
        waiters := waiters + [Waiter(id, Drowsy)];
        return None;
      }
      done, taken := done - 1, taken + 1;
      return Some(Success);
    }

    /** One turn of its loop, from taking the lock again. */
    method ResumeWait(i: nat, left: bool, signal: bool) returns (r: Option<Result>)
      requires Valid() && i < |waiters| && waiters[i].mode == Awake
      modifies this
      ensures Valid() && View() == Resume(old(View()), i, left, signal).s && r == Resume(old(View()), i, left, signal).result
    {
      NextKeeps(View(), DoResume(i, left, signal));
      if done == 0 && left && !signal {
        waiters := waiters[i := waiters[i].(mode := Drowsy)];
        return None;
      }
      waiters := Dropped(waiters, i);
      if done == 0 { return Some(if left then Interrupted else TimedOut); }
      done, taken := done - 1, taken + 1;
      return Some(Success);
    }

    /** try_wait_for_completion. */
    method TryWaitFor() returns (ok: bool)
      requires Valid()
      modifies this
      ensures Valid() && View() == TryWait(old(View())).0 && ok == TryWait(old(View())).1
    {
      NextKeeps(View(), DoTry);
      ok := done > 0;
      if ok { done, taken := done - 1, taken + 1; }
    }
  }

  function Woken(ws: seq<Waiter>, one: bool): seq<Waiter> { if one then WakeOne(ws) else WakeAll(ws) }

  lemma WokenStep(ws: seq<Waiter>, one: bool)
    requires ws != []
    ensures Woken(ws, one) == [Up(ws[0])] + if one && ws[0].mode == Asleep then ws[1..] else Woken(ws[1..], one)
  {
  }

  lemma ScanStep(was: seq<Waiter>, before: seq<Waiter>, i: nat, one: bool)
    requires |before| == i < |was| && before + Woken(was[i..], one) == Woken(was, one)
    ensures var b := before + [Up(was[i])];
            && b + (if one && was[i].mode == Asleep then was[i + 1..] else Woken(was[i + 1..], one)) == Woken(was, one)
            && (before + was[i..])[i] == was[i] && (before + was[i..])[i := Up(was[i])] == b + was[i + 1..]
  {
    hide Woken;
    var ws := was[i..];
    WokenStep(ws, one);
    assert ws[1..] == was[i + 1..] && ws[0] == was[i];
    var rest := if one && ws[0].mode == Asleep then ws[1..] else Woken(ws[1..], one);
    assert before + ([Up(was[i])] + rest) == (before + [Up(was[i])]) + rest;
  }

  lemma WokenNone(one: bool)
    ensures Woken([], one) == []
  {
  }
}
