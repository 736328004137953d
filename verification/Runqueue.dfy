/**
 The global runqueue of the BFS scheduler (sched_bfs.c): priority lists with a
 bitmap, counters and the idle map, under one lock.

 Clocks and time slices are not modelled: a deadline is a value handed in.
 */
module Runqueue {
  import opened Wrappers
  import opened Lists
  import opened IdleInjection

  const MAX_RT_PRIO: nat := 101
  const ISO_PRIO: nat := 101
  const NORMAL_PRIO: nat := 102
  const IDLE_PRIO: nat := 103
  const PRIO_LIMIT: nat := 104

  type Pid = nat
  type Cpu = nat

  /** Real-time priorities are checked before they are stored. */
  type RtPriority = n: nat | n < MAX_RT_PRIO

  datatype Policy = Normal | Fifo | RoundRobin | Batch | Iso | IdlePrio

  /** `state` is the set of state bits; none is TASK_RUNNING. */
  datatype Task = Task(prio: nat, normalPrio: nat, policy: Policy, rtPriority: RtPriority, staticPrio: int, allowed: set<Cpu>,
                       cpu: Cpu, onCpu: bool, sticky: bool, deadline: nat, state: set<nat>)

  /** idleprio_suitable of one task, and isoprio_suitable. */
  datatype Env = Env(idleOk: bool, isoOk: bool)

  predicate RtPrio(prio: nat) { prio < MAX_RT_PRIO }

  function NormalPrio(t: Task): nat {
    if t.policy == Fifo || t.policy == RoundRobin then MAX_RT_PRIO - 1 - t.rtPriority
    else if t.policy == IdlePrio then IDLE_PRIO
    else if t.policy == Iso then ISO_PRIO
    else NORMAL_PRIO
  }

  /** effective_prio, stored in a task. */
  function Effective(t: Task): Task {
    var n := t.(normalPrio := NormalPrio(t));
    if RtPrio(t.prio) then n else n.(prio := n.normalPrio)
  }

  /** The priority a task is queued at (enqueue_task). */
  function Levelled(t: Task, e: Env): Task {
    if RtPrio(t.prio) then t
    else if (t.policy == IdlePrio && e.idleOk) || (t.policy == Iso && e.isoOk) then t.(prio := t.normalPrio)
    else t.(prio := NORMAL_PRIO)
  }

  // ---------------------------------------------------------------- the priority lists

  datatype Queues = Queues(lists: seq<seq<Pid>>, bits: seq<bool>)

  function Add(q: Queues, p: Pid, i: nat): Queues
    requires i < |q.lists| && i < |q.bits|
  {
    Queues(q.lists[i := q.lists[i] + [p]], q.bits[i := true])
  }

  /** dequeue_task. */
  function Remove(q: Queues, p: Pid, i: nat): Queues
    requires i < |q.lists| && i < |q.bits|
  {
    var l := Without(q.lists[i], p);
    Queues(q.lists[i := l], if l == [] then q.bits[i := false] else q.bits)
  }

  predicate Queued(q: Queues, p: Pid) { exists i :: 0 <= i < |q.lists| && p in q.lists[i] }

  /** A waiting task of the list `i`. */
  ghost predicate Waiting(ts: map<Pid, Task>, p: Pid, i: nat) {
    p in ts && ts[p].prio == i && !ts[p].onCpu && ts[p].normalPrio == NormalPrio(ts[p])
  }

  ghost predicate ListOk(ts: map<Pid, Task>, l: seq<Pid>, bit: bool, i: nat) {
    (bit <==> l != []) && NoRepeat(l) && forall p {:trigger Waiting(ts, p, i)} {:trigger p in l} :: p in l ==> Waiting(ts, p, i)
  }

  /** Each bit says whether its list is non-empty; each queued task is once in the list of its own prio and not running. */
  ghost predicate QueuesOk(ts: map<Pid, Task>, q: Queues) {
    && |q.lists| == |q.bits| == PRIO_LIMIT
    && forall i: nat {:trigger q.lists[i]} :: i < PRIO_LIMIT ==> ListOk(ts, q.lists[i], q.bits[i], i)
  }

  function Length(ls: seq<seq<Pid>>): nat { if ls == [] then 0 else Length(ls[..|ls| - 1]) + |ls[|ls| - 1]| }

  lemma {:induction false} LengthUpdate(ls: seq<seq<Pid>>, i: nat, l: seq<Pid>)
    requires i < |ls|
    ensures Length(ls[i := l]) == Length(ls) - |ls[i]| + |l| && Length(ls) >= |ls[i]|
  {
    var n := |ls| - 1;
    if i < n {
      assert ls[i := l][..n] == ls[..n][i := l];
      LengthUpdate(ls[..n], i, l);
    } else {
      assert ls[i := l][..n] == ls[..n];
    }
  }

  /** Where a task is queued, if it is. */
  lemma QueuedAt(ts: map<Pid, Task>, q: Queues, p: Pid)
    requires QueuesOk(ts, q)
    ensures Queued(q, p) <==> p in ts && ts[p].prio < PRIO_LIMIT && p in q.lists[ts[p].prio]
    ensures Queued(q, p) ==> Waiting(ts, p, ts[p].prio)
  {
    if Queued(q, p) {
      var i: nat :| i < |q.lists| && p in q.lists[i];
      assert ListOk(ts, q.lists[i], q.bits[i], i);
      assert Waiting(ts, p, i);
    }
  }

  /** A task outside the lists may change freely; a queued one may change what the lists do not depend on. */
  lemma TouchOk(ts: map<Pid, Task>, q: Queues, p: Pid, t: Task)
    requires QueuesOk(ts, q)
    requires Queued(q, p) ==> p in ts && Waiting(ts[p := t], p, ts[p].prio)
    ensures QueuesOk(ts[p := t], q)
  {
    var us := ts[p := t];
    QueuedAt(ts, q, p);
    forall i: nat | i < PRIO_LIMIT ensures ListOk(us, q.lists[i], q.bits[i], i) {
      ListTouched(ts, q, p, t, i);
    }
  }

  lemma ListTouched(ts: map<Pid, Task>, q: Queues, p: Pid, t: Task, i: nat)
    requires QueuesOk(ts, q) && i < PRIO_LIMIT
    requires Queued(q, p) ==> p in ts && Waiting(ts[p := t], p, ts[p].prio)
    ensures ListOk(ts[p := t], q.lists[i], q.bits[i], i)
  {
    var l := q.lists[i];
    assert ListOk(ts, l, q.bits[i], i);
    forall x | x in l ensures Waiting(ts[p := t], x, i) {
      assert Waiting(ts, x, i);
      if x == p { assert Queued(q, p); }
    }
  }

  lemma AddOk(ts: map<Pid, Task>, q: Queues, p: Pid, t: Task)
    requires QueuesOk(ts, q) && !Queued(q, p)
    requires t.prio < PRIO_LIMIT && !t.onCpu && t.normalPrio == NormalPrio(t)
    ensures QueuesOk(ts[p := t], Add(q, p, t.prio)) && Length(Add(q, p, t.prio).lists) == Length(q.lists) + 1
    ensures Queued(Add(q, p, t.prio), p)
  {
    TouchOk(ts, q, p, t);
    var r, us, i := Add(q, p, t.prio), ts[p := t], t.prio;
    LengthUpdate(q.lists, i, q.lists[i] + [p]);
    assert ListOk(us, q.lists[i], q.bits[i], i) && p !in q.lists[i];
    AddListOk(us, q.lists[i], q.bits[i], i, p);
    forall j: nat | j < PRIO_LIMIT ensures ListOk(us, r.lists[j], r.bits[j], j) {
      if j != i { assert r.lists[j] == q.lists[j]; }
    }
    assert p in r.lists[i];
  }

  lemma AddListOk(ts: map<Pid, Task>, l: seq<Pid>, bit: bool, i: nat, p: Pid)
    requires ListOk(ts, l, bit, i) && p !in l && Waiting(ts, p, i)
    ensures ListOk(ts, l + [p], true, i)
  {
    hide Waiting;
    forall x | x in l + [p] ensures Waiting(ts, x, i) {
      if x != p { assert x in l; }
    }
  }

  lemma Levels(ts: map<Pid, Task>, q: Queues)
    requires QueuesOk(ts, q)
    ensures |q.lists| == |q.bits| == PRIO_LIMIT
  {
  }

  /** enqueue_task puts a task in order exactly if it is not running. */
  lemma AddExactly(ts: map<Pid, Task>, q: Queues, p: Pid, e: Env)
    requires QueuesOk(ts, q) && p in ts && !Queued(q, p) && ts[p].normalPrio == NormalPrio(ts[p])
    ensures Levelled(ts[p], e).prio < PRIO_LIMIT == |q.lists| == |q.bits|
    ensures var t := Levelled(ts[p], e);
            && (QueuesOk(ts[p := t], Add(q, p, t.prio)) <==> !ts[p].onCpu)
            && Queued(Add(q, p, t.prio), p) && Length(Add(q, p, t.prio).lists) == Length(q.lists) + 1
  {
    var t := Levelled(ts[p], e);
    LevelBound(ts[p], e);
    var r := Add(q, p, t.prio);
    LengthUpdate(q.lists, t.prio, q.lists[t.prio] + [p]);
    assert p in r.lists[t.prio];
    if t.onCpu {
      if QueuesOk(ts[p := t], r) { QueuedAt(ts[p := t], r, p); }
    } else {
      AddOk(ts, q, p, t);
    }
  }

  lemma RemoveOk(ts: map<Pid, Task>, q: Queues, p: Pid, t: Task)
    requires QueuesOk(ts, q) && Queued(q, p)
    ensures p in ts && ts[p].prio < PRIO_LIMIT
    ensures var r := Remove(q, p, ts[p].prio);
            QueuesOk(ts[p := t], r) && !Queued(r, p) && Length(r.lists) == Length(q.lists) - 1
  {
    QueuedAt(ts, q, p);
    var i := ts[p].prio;
    assert ListOk(ts, q.lists[i], q.bits[i], i);
    WithoutOk(q.lists[i], p);
    var r := Remove(q, p, i);
    LengthUpdate(q.lists, i, r.lists[i]);
    RemoveListOk(ts, q.lists[i], q.bits[i], i, p);
    forall j: nat | j < PRIO_LIMIT ensures ListOk(ts, r.lists[j], r.bits[j], j) {
      if j != i { assert r.lists[j] == q.lists[j]; }
    }
    QueuedAt(ts, r, p);
    TouchOk(ts, r, p, t);
  }

  lemma RemoveListOk(ts: map<Pid, Task>, l: seq<Pid>, bit: bool, i: nat, p: Pid)
    requires ListOk(ts, l, bit, i) && p in l
    ensures var m := Without(l, p); ListOk(ts, m, if m == [] then false else bit, i)
  {
    hide Waiting;
    WithoutOk(l, p);
    var m := Without(l, p);
    forall x | x in m ensures Waiting(ts, x, i) { assert x in l; }
  }

  // ---------------------------------------------------------------- the CPUs

  datatype State = State(tasks: map<Pid, Task>, q: Queues, qnr: int, nrRunning: int, idleMap: set<Cpu>, idleCpus: bool,
                         curr: seq<Option<Pid>>, idle: seq<Pid>, stuck: seq<Option<Pid>>, inj: Counter)

  /** CPU `c` runs a task of its own; None only inside schedule(), between leaving one task and running the next. */
  ghost predicate CpuOk(ts: map<Pid, Task>, curr: Option<Pid>, idle: Pid, c: Cpu) {
    && idle in ts && ts[idle].cpu == c && ts[idle].prio == PRIO_LIMIT && ts[idle].state == {}
    && (curr.Some? ==> curr.value in ts && ts[curr.value].cpu == c
                       && (curr.value != idle ==> ts[curr.value].normalPrio == NormalPrio(ts[curr.value])))
  }

  /** on_cpu says that a task is the current one of the CPU it was last put on. */
  ghost predicate OnCpuOk(t: Task, p: Pid, curr: seq<Option<Pid>>) {
    t.onCpu <==> t.cpu < |curr| && curr[t.cpu] == Some(p)
  }

  ghost predicate RunOk(ts: map<Pid, Task>, curr: seq<Option<Pid>>, idle: seq<Pid>) {
    && |idle| == |curr|
    && (forall c: nat {:trigger CpuOk(ts, curr[c], idle[c], c)} :: c < |curr| ==> CpuOk(ts, curr[c], idle[c], c))
    && (forall p {:trigger OnCpuOk(ts[p], p, curr)} :: p in ts ==> OnCpuOk(ts[p], p, curr))
  }

  /** CPUs running something other than their idle task. */
  function Busy(curr: seq<Option<Pid>>, idle: seq<Pid>): nat
    requires |idle| == |curr|
  {
    if curr == [] then 0
    else
      var n := |curr| - 1;
      Busy(curr[..n], idle[..n]) + if curr[n].Some? && curr[n].value != idle[n] then 1 else 0
  }

  lemma {:induction false} BusyUpdate(curr: seq<Option<Pid>>, idle: seq<Pid>, c: Cpu, x: Option<Pid>)
    requires |idle| == |curr| && c < |curr|
    ensures Busy(curr[c := x], idle) == Busy(curr, idle) - (if curr[c].Some? && curr[c].value != idle[c] then 1 else 0)
                                        + (if x.Some? && x.value != idle[c] then 1 else 0)
  {
    var n := |curr| - 1;
    if c < n {
      assert curr[c := x][..n] == curr[..n][c := x];
      BusyUpdate(curr[..n], idle[..n], c, x);
    } else {
      assert curr[c := x][..n] == curr[..n];
    }
  }

  /** The idle map holds only CPUs that run their idle task, and idle_cpus says whether it holds any. */
  ghost predicate MapOk(s: State) {
    && (s.idleCpus <==> s.idleMap != {})
    && forall c :: c in s.idleMap ==> c < |s.curr| && c < |s.idle| && (s.curr[c].Some? ==> s.curr[c] == Some(s.idle[c]))
  }

  ghost predicate CountsOk(s: State) {
    |s.idle| == |s.curr| && s.qnr == Length(s.q.lists) && s.nrRunning == s.qnr + Busy(s.curr, s.idle)
  }

  ghost predicate StuckOk(ts: map<Pid, Task>, stuck: seq<Option<Pid>>) {
    forall c :: 0 <= c < |stuck| && stuck[c].Some? ==> stuck[c].value in ts
  }

  /** The invariant, also while some CPU is between two tasks. */
  ghost predicate Switching(s: State) {
    && QueuesOk(s.tasks, s.q) && RunOk(s.tasks, s.curr, s.idle) && CountsOk(s) && MapOk(s)
    && StuckOk(s.tasks, s.stuck) && |s.stuck| == |s.curr|
  }

  ghost predicate Inv(s: State) {
    Switching(s) && forall c :: 0 <= c < |s.curr| ==> s.curr[c].Some?
  }

  ghost predicate IsIdle(idle: seq<Pid>, p: Pid) { exists c :: 0 <= c < |idle| && idle[c] == p }

  /** A task that is not on a CPU is nobody's current task. */
  lemma NotCurrent(ts: map<Pid, Task>, curr: seq<Option<Pid>>, idle: seq<Pid>, p: Pid)
    requires RunOk(ts, curr, idle) && (p in ts ==> !ts[p].onCpu)
    ensures forall c :: 0 <= c < |curr| ==> curr[c] != Some(p)
  {
    if p in ts { assert OnCpuOk(ts[p], p, curr); }
    forall c: nat | c < |curr| ensures curr[c] != Some(p) {
      assert CpuOk(ts, curr[c], idle[c], c);
    }
  }

  /** A change of one task, new or old, that keeps what the CPUs depend on. */
  lemma RunTouch(ts: map<Pid, Task>, curr: seq<Option<Pid>>, idle: seq<Pid>, p: Pid, t: Task)
    requires RunOk(ts, curr, idle) && !IsIdle(idle, p)
    requires p in ts ==> t.onCpu == ts[p].onCpu && (t.onCpu ==> t.cpu == ts[p].cpu && t.normalPrio == NormalPrio(t))
    requires p !in ts ==> !t.onCpu
    ensures RunOk(ts[p := t], curr, idle)
  {
    var us := ts[p := t];
    if p in ts { assert OnCpuOk(ts[p], p, curr); }
    if p !in ts || !ts[p].onCpu { NotCurrent(ts, curr, idle, p); }
    forall c: nat | c < |curr| ensures CpuOk(us, curr[c], idle[c], c) {
      assert CpuOk(ts, curr[c], idle[c], c);
    }
    forall x | x in us ensures OnCpuOk(us[x], x, curr) {
      if x != p { assert OnCpuOk(ts[x], x, curr); }
    }
  }

  /** Touching a task keeps the whole invariant. */
  lemma Touched(s: State, p: Pid, t: Task)
    requires Switching(s) && !IsIdle(s.idle, p)
    requires p in s.tasks ==> t.onCpu == s.tasks[p].onCpu && (t.onCpu ==> t.cpu == s.tasks[p].cpu && t.normalPrio == NormalPrio(t))
    requires p !in s.tasks ==> !t.onCpu
    requires Queued(s.q, p) ==> p in s.tasks && Waiting(s.tasks[p := t], p, s.tasks[p].prio)
    ensures Switching(s.(tasks := s.tasks[p := t]))
  {
    TouchOk(s.tasks, s.q, p, t);
    RunTouch(s.tasks, s.curr, s.idle, p, t);
    hide QueuesOk, RunOk, Busy, Length, Queued;
  }

  /** The sleeping or fresh task `p`, changed to `t`, joins the queues (activate_task's counters with it). */
  function Joins(s: State, p: Pid, t: Task): State
    requires t.prio < |s.q.lists| && t.prio < |s.q.bits|
  {
    s.(tasks := s.tasks[p := t], q := Add(s.q, p, t.prio), qnr := s.qnr + 1)
  }

  // ---------------------------------------------------------------- waking

  /** activate_task. */
  function Activate(s: State, p: Pid, e: Env): State
    requires p in s.tasks && |s.q.lists| == |s.q.bits| == PRIO_LIMIT
  {
    var t := Levelled(Effective(s.tasks[p]), e);
    LevelBound(Effective(s.tasks[p]), e);
    Joins(s, p, t).(nrRunning := s.nrRunning + 1)
  }

  /** Every task is queued at a real level. */
  lemma LevelBound(t: Task, e: Env)
    requires t.normalPrio == NormalPrio(t)
    ensures Levelled(t, e).prio < PRIO_LIMIT && Levelled(t, e).normalPrio == NormalPrio(Levelled(t, e))
  {
  }

  /**
   Where a task is queued when it is activated: one with a real-time priority, by a boost, at that
   one; one with a real-time policy at the level of its rt_priority; ISO and idle tasks at their
   own level if they qualify, and all others at the normal one.
   */
  lemma LevelIs(t: Task, e: Env)
    ensures var i := Levelled(Effective(t), e).prio;
            && (t.prio < 101 ==> i == t.prio)
            && (t.prio >= 101 && (t.policy == Fifo || t.policy == RoundRobin) ==> i == 100 - t.rtPriority)
            && (t.prio >= 101 && t.policy == Iso && e.isoOk ==> i == 101)
            && (t.prio >= 101 && t.policy == IdlePrio && e.idleOk ==> i == 103)
            && (t.prio >= 101 && (t.policy == Normal || t.policy == Batch || (t.policy == Iso && !e.isoOk) || (t.policy == IdlePrio && !e.idleOk)) ==> i == 102)
    ensures t.prio >= 101 && !(t.policy == Fifo || t.policy == RoundRobin) && t.normalPrio == NormalPrio(t) ==>
              Levelled(t, e).prio == Levelled(Effective(t), e).prio
  {
  }

  /** Of two real-time tasks that are not boosted, the one with the higher real-time priority is queued before the other's level. */
  lemma HigherRtFirst(t: Task, u: Task, e: Env, f: Env)
    requires (t.policy == Fifo || t.policy == RoundRobin) && (u.policy == Fifo || u.policy == RoundRobin)
    requires t.prio == NormalPrio(t) && u.prio == NormalPrio(u) && t.rtPriority > u.rtPriority
    ensures Levelled(Effective(t), e).prio < Levelled(Effective(u), f).prio < 101
  {
  }

  /** `x` stands before `y` in one list. */
  ghost predicate Before(q: Queues, x: Pid, y: Pid) {
    exists i: nat, j: nat, k: nat :: i < |q.lists| && j < k < |q.lists[i]| && q.lists[i][j] == x && q.lists[i][k] == y
  }

  /** Queueing order: a task joins behind all others of its list, and those keep their order. */
  lemma AddLast(q: Queues, p: Pid, i: nat, x: Pid, y: Pid)
    requires i < |q.lists| && i < |q.bits|
    ensures x in q.lists[i] ==> Before(Add(q, p, i), x, p)
    ensures Before(q, x, y) ==> Before(Add(q, p, i), x, y)
  {
    var r := Add(q, p, i);
    if x in q.lists[i] {
      var j: nat :| j < |q.lists[i]| && q.lists[i][j] == x;
      assert r.lists[i][j] == x && r.lists[i][|q.lists[i]|] == p;
    }
    if Before(q, x, y) {
      var a: nat, j: nat, k: nat :| a < |q.lists| && j < k < |q.lists[a]| && q.lists[a][j] == x && q.lists[a][k] == y;
      assert r.lists[a][j] == x && r.lists[a][k] == y;
    }
  }

  /** Taking a task out leaves the others in their order. */
  lemma RemoveInOrder(ts: map<Pid, Task>, q: Queues, p: Pid, i: nat, x: Pid, y: Pid)
    requires QueuesOk(ts, q) && i < PRIO_LIMIT && x != p && y != p && Before(q, x, y)
    ensures Before(Remove(q, p, i), x, y)
  {
    var r := Remove(q, p, i);
    var a: nat, j: nat, k: nat :| a < |q.lists| && j < k < |q.lists[a]| && q.lists[a][j] == x && q.lists[a][k] == y;
    if a == i {
      assert ListOk(ts, q.lists[i], q.bits[i], i);
      WithoutInOrder(q.lists[i], p, j, k);
      var b: nat, d: nat :| b < d < |r.lists[i]| && r.lists[i][b] == x && r.lists[i][d] == y;
      assert Before(r, x, y);
    } else {
      assert r.lists[a] == q.lists[a];
    }
  }

  lemma {:induction false} WithoutInOrder(l: seq<Pid>, p: Pid, j: nat, k: nat)
    requires NoRepeat(l) && j < k < |l| && l[j] != p && l[k] != p
    ensures exists a: nat, b: nat :: a < b < |Without(l, p)| && Without(l, p)[a] == l[j] && Without(l, p)[b] == l[k]
  {
    var m := Without(l, p);
    if l[0] == p {
      assert m[j - 1] == l[j] && m[k - 1] == l[k];
    } else if j == 0 {
      TailNoRepeat(l);
      assert l[1..][k - 1] == l[k] && l[k] in l[1..];
      WithoutOk(l[1..], p);
      assert l[k] in Without(l[1..], p);
      var b: nat :| b < |Without(l[1..], p)| && Without(l[1..], p)[b] == l[k];
      assert m[0] == l[0] && m[b + 1] == l[k];
    } else {
      TailNoRepeat(l);
      WithoutInOrder(l[1..], p, j - 1, k - 1);
      var a: nat, b: nat :| a < b < |Without(l[1..], p)| && Without(l[1..], p)[a] == l[1..][j - 1] && Without(l[1..], p)[b] == l[1..][k - 1];
      assert m[a + 1] == l[j] && m[b + 1] == l[k];
    }
  }

  lemma ActivateKeeps(s: State, p: Pid, e: Env)
    requires Switching(s) && p in s.tasks && !Queued(s.q, p) && !s.tasks[p].onCpu && !IsIdle(s.idle, p)
    ensures Switching(Activate(s, p, e)) && Activate(s, p, e).curr == s.curr && Activate(s, p, e).idle == s.idle
    ensures Queued(Activate(s, p, e).q, p) && |s.q.lists| == |s.q.bits| == PRIO_LIMIT
  {
    var t := Levelled(Effective(s.tasks[p]), e);
    LevelBound(Effective(s.tasks[p]), e);
    AddOk(s.tasks, s.q, p, t);
    RunTouch(s.tasks, s.curr, s.idle, p, t);
    hide QueuesOk, RunOk, Busy, Length, Queued;
  }

  /** activate_task keeps the runqueue consistent exactly if its task is not running. */
  lemma ActivateExactly(s: State, p: Pid, e: Env)
    requires Switching(s) && p in s.tasks && !Queued(s.q, p) && !IsIdle(s.idle, p)
    ensures |s.q.lists| == |s.q.bits| == PRIO_LIMIT && QueuesOk(s.tasks[p := Effective(s.tasks[p])], s.q)
    ensures Switching(Activate(s, p, e)) <==> !s.tasks[p].onCpu
    ensures Queued(Activate(s, p, e).q, p)
  {
    TouchOk(s.tasks, s.q, p, Effective(s.tasks[p]));
    hide QueuesOk, RunOk, Busy, Length;
    ActivateQueues(s, p, e);
    if s.tasks[p].onCpu {
      if Switching(Activate(s, p, e)) { QueuedRests(Activate(s, p, e), p); }
    } else {
      ActivateKeeps(s, p, e);
    }
  }

  lemma ActivateQueues(s: State, p: Pid, e: Env)
    requires QueuesOk(s.tasks, s.q) && p in s.tasks
    ensures |s.q.lists| == |s.q.bits| == PRIO_LIMIT && Queued(Activate(s, p, e).q, p)
    ensures p in Activate(s, p, e).tasks && Activate(s, p, e).tasks[p].onCpu == s.tasks[p].onCpu
  {
    var t := Levelled(Effective(s.tasks[p]), e);
    LevelBound(Effective(s.tasks[p]), e);
    assert p in Activate(s, p, e).q.lists[t.prio];
  }

  /** ttwu_post_activation, with the sticky flag that try_preempt clears when it is called. */
  function Woken(t: Task, preempt: bool): Task {
    if preempt then t.(state := {}, sticky := false) else t.(state := {})
  }

  lemma WokenKeeps(s: State, p: Pid, preempt: bool)
    requires Switching(s) && p in s.tasks && !IsIdle(s.idle, p)
    ensures Switching(s.(tasks := s.tasks[p := Woken(s.tasks[p], preempt)]))
  {
    QueuedAt(s.tasks, s.q, p);
    OnCpuFacts(s, p);
    Touched(s, p, Woken(s.tasks[p], preempt));
  }

  lemma OnCpuFacts(s: State, p: Pid)
    requires Switching(s) && p in s.tasks && !IsIdle(s.idle, p)
    ensures s.tasks[p].onCpu ==> s.tasks[p].normalPrio == NormalPrio(s.tasks[p])
  {
    assert OnCpuOk(s.tasks[p], p, s.curr);
    var c := s.tasks[p].cpu;
    if s.tasks[p].onCpu { assert CpuOk(s.tasks, s.curr[c], s.idle[c], c); }
  }

  /** Idle tasks are always in state TASK_RUNNING, so no wakeup touches them. */
  lemma IdleRuns(s: State, p: Pid)
    requires Switching(s) && IsIdle(s.idle, p)
    ensures p in s.tasks && s.tasks[p].state == {} && !Queued(s.q, p)
  {
    var c: nat :| c < |s.idle| && s.idle[c] == p;
    assert CpuOk(s.tasks, s.curr[c], s.idle[c], c);
    QueuedAt(s.tasks, s.q, p);
  }

  /** try_to_wake_up. */
  function Wake(s: State, p: Pid, mask: set<nat>, sync: bool, e: Env): (r: (State, bool))
    requires p in s.tasks && |s.q.lists| == |s.q.bits| == PRIO_LIMIT
  {
    if s.tasks[p].state * mask == {} then (s, false)
    else
      var ok := !Queued(s.q, p) && !s.tasks[p].onCpu;
      var a := if ok then Activate(s, p, e) else s;
      var preempt := ok && (!sync || (a.idleCpus && a.tasks[p].allowed * a.idleMap != {}));
      (a.(tasks := a.tasks[p := Woken(a.tasks[p], preempt)]), ok)
  }

  /** A wakeup keeps the invariant; it queues its task exactly if that slept in a matching state. */
  lemma WakeKeeps(s: State, p: Pid, mask: set<nat>, sync: bool, e: Env)
    requires Switching(s) && p in s.tasks
    ensures var w := Wake(s, p, mask, sync, e);
            && Switching(w.0) && w.0.curr == s.curr && w.0.idle == s.idle
            && (w.1 <==> s.tasks[p].state * mask != {} && !Queued(s.q, p) && !s.tasks[p].onCpu)
            && w.0.tasks == s.tasks[p := w.0.tasks[p]]
            && w.0.tasks[p].state == (if s.tasks[p].state * mask != {} then {} else s.tasks[p].state)
            && (w.0.tasks[p].sticky <==> s.tasks[p].sticky && !(w.1 && (!sync || (s.idleCpus && s.tasks[p].allowed * s.idleMap != {}))))
            && (Queued(w.0.q, p) <==> w.1 || Queued(s.q, p)) && w.0.qnr == s.qnr + (if w.1 then 1 else 0)
  {
    hide Switching, Queued;
    if IsIdle(s.idle, p) {
      IdleRuns(s, p);
    } else if s.tasks[p].state * mask != {} {
      if !Queued(s.q, p) && !s.tasks[p].onCpu {
        ActivateKeeps(s, p, e);
        WokenKeeps(Activate(s, p, e), p, true);
        WokenKeeps(Activate(s, p, e), p, false);
      } else {
        WokenKeeps(s, p, false);
      }
    }
  }

  const TASK_NORMAL: set<nat> := {1, 2}

  /** try_to_wake_up_local, which tests only whether its task is queued. */
  function WakeLocal(s: State, p: Pid, e: Env): State
    requires p in s.tasks && |s.q.lists| == |s.q.bits| == PRIO_LIMIT
  {
    if s.tasks[p].state * TASK_NORMAL == {} then s
    else if Queued(s.q, p) then s.(tasks := s.tasks[p := Woken(s.tasks[p], false)])
    else
      var a := Activate(s, p, e);
      a.(tasks := a.tasks[p := Woken(a.tasks[p], true)])
  }

  /** A local wakeup keeps the invariant exactly if its task is not running, or not in a state that would be woken. */
  lemma WakeLocalExact(s: State, p: Pid, e: Env)
    requires Switching(s) && p in s.tasks
    ensures Switching(WakeLocal(s, p, e)) <==> !s.tasks[p].onCpu || s.tasks[p].state * TASK_NORMAL == {}
    ensures WakeLocal(s, p, e).curr == s.curr && WakeLocal(s, p, e).idle == s.idle
  {
    hide Switching, Queued;
    if IsIdle(s.idle, p) {
      IdleRuns(s, p);
    } else if s.tasks[p].state * TASK_NORMAL != {} {
      QueuedRests(s, p);
      if Queued(s.q, p) {
        WokenKeeps(s, p, false);
      } else if !s.tasks[p].onCpu {
        ActivateKeeps(s, p, e);
        WokenKeeps(Activate(s, p, e), p, true);
      } else {
        QueuedWhileRunning(s, p, e);
      }
    }
  }

  lemma QueuedRests(s: State, p: Pid)
    requires Switching(s)
    ensures Queued(s.q, p) ==> p in s.tasks && !s.tasks[p].onCpu
  {
    QueuedAt(s.tasks, s.q, p);
  }

  lemma QueuedWhileRunning(s: State, p: Pid, e: Env)
    requires Switching(s) && p in s.tasks && s.tasks[p].onCpu && !Queued(s.q, p) && s.tasks[p].state * TASK_NORMAL != {}
    ensures !Switching(WakeLocal(s, p, e))
  {
    var w := WakeLocal(s, p, e);
    var i := w.tasks[p].prio;
    assert p in w.q.lists[i];
    if Switching(w) { QueuedRests(w, p); }
  }

  /** wake_up_new_task: a forked task joins on its parent's CPU. */
  function WakeNew(s: State, p: Pid, cpu: Cpu, preempt: bool, e: Env): State
    requires p in s.tasks && |s.q.lists| == |s.q.bits| == PRIO_LIMIT
  {
    var b := s.(tasks := s.tasks[p := s.tasks[p].(state := {}, cpu := cpu)]);
    var a := Activate(b, p, e);
    a.(tasks := a.tasks[p := Woken(a.tasks[p], preempt)])
  }

  lemma WakeNewKeeps(s: State, p: Pid, cpu: Cpu, preempt: bool, e: Env)
    requires Switching(s) && p in s.tasks && !Queued(s.q, p) && !s.tasks[p].onCpu && !IsIdle(s.idle, p)
    ensures Switching(WakeNew(s, p, cpu, preempt, e)) && Queued(WakeNew(s, p, cpu, preempt, e).q, p)
    ensures var t := WakeNew(s, p, cpu, preempt, e).tasks[p]; t.cpu == cpu && t.state == {} && (t.sticky <==> s.tasks[p].sticky && !preempt)
    ensures WakeNew(s, p, cpu, preempt, e).curr == s.curr && WakeNew(s, p, cpu, preempt, e).idle == s.idle
  {
    hide Switching, Queued;
    var t := s.tasks[p].(state := {}, cpu := cpu);
    Touched(s, p, t);
    var b := s.(tasks := s.tasks[p := t]);
    ActivateKeeps(b, p, e);
    WokenKeeps(Activate(b, p, e), p, preempt);
  }

  // ---------------------------------------------------------------- priority changes

  /** Change a task under the lock: a queued one is taken out first and queued again at its new level. */
  function Change(s: State, p: Pid, t: Task, preempt: bool, e: Env): State
    requires QueuesOk(s.tasks, s.q) && p in s.tasks && (Queued(s.q, p) ==> t.normalPrio == NormalPrio(t))
  {
    QueuedAt(s.tasks, s.q, p);
    if Queued(s.q, p) then
      LevelBound(t, e);
      var u := Levelled(t, e);
      s.(tasks := s.tasks[p := if preempt then u.(sticky := false) else u], q := Add(Remove(s.q, p, s.tasks[p].prio), p, u.prio))
    else s.(tasks := s.tasks[p := t])
  }

  lemma RequeuedOk(ts: map<Pid, Task>, q: Queues, p: Pid, v: Task)
    requires QueuesOk(ts, q) && Queued(q, p) && v.prio < PRIO_LIMIT && !v.onCpu && v.normalPrio == NormalPrio(v)
    ensures p in ts && ts[p].prio < PRIO_LIMIT
    ensures var r := Add(Remove(q, p, ts[p].prio), p, v.prio); QueuesOk(ts[p := v], r) && Length(r.lists) == Length(q.lists) && Queued(r, p)
  {
    RemoveOk(ts, q, p, v);
    AddOk(ts[p := v], Remove(q, p, ts[p].prio), p, v);
    assert ts[p := v][p := v] == ts[p := v];
  }

  lemma ChangeKeeps(s: State, p: Pid, t: Task, preempt: bool, e: Env)
    requires Switching(s) && p in s.tasks && !IsIdle(s.idle, p) && t.onCpu == s.tasks[p].onCpu && t.cpu == s.tasks[p].cpu
    requires Queued(s.q, p) || t.onCpu ==> t.normalPrio == NormalPrio(t)
    ensures var r := Change(s, p, t, preempt, e);
            && Switching(r) && r == s.(tasks := r.tasks, q := r.q) && r.tasks == s.tasks[p := r.tasks[p]]
            && (Queued(r.q, p) <==> Queued(s.q, p)) && (!Queued(s.q, p) ==> r.tasks[p] == t)
            && (Queued(s.q, p) ==> r.tasks[p] == Levelled(t, e).(sticky := t.sticky && !preempt))
  {
    hide QueuesOk, RunOk, Busy, Length, Queued, NormalPrio, Add, Remove;
    QueuedRests(s, p);
    if Queued(s.q, p) {
      LevelBound(t, e);
      var u := Levelled(t, e);
      var v := if preempt then u.(sticky := false) else u;
      SameNormal(u, v);
      RequeuedOk(s.tasks, s.q, p, v);
      RunTouch(s.tasks, s.curr, s.idle, p, v);
    } else {
      Touched(s, p, t);
    }
  }

  lemma SameNormal(t: Task, u: Task)
    requires u.policy == t.policy && u.rtPriority == t.rtPriority
    ensures NormalPrio(u) == NormalPrio(t)
  {
  }

  /** rt_mutex_setprio. */
  function SetPrio(s: State, p: Pid, prio: nat, e: Env): State
    requires QueuesOk(s.tasks, s.q) && p in s.tasks
  {
    QueuedAt(s.tasks, s.q, p);
    Change(s, p, s.tasks[p].(prio := prio), true, e)
  }

  /** set_user_nice; `deadline` is the adjusted one. */
  function SetNice(s: State, p: Pid, nice: int, deadline: nat, e: Env): State
    requires QueuesOk(s.tasks, s.q) && p in s.tasks
  {
    var t := s.tasks[p];
    var level := MAX_RT_PRIO + nice + 20;
    if t.staticPrio == level || nice < -20 || nice > 19 then s
    else if t.policy == Fifo || t.policy == RoundRobin then s.(tasks := s.tasks[p := t.(staticPrio := level)])
    else Change(s, p, Effective(t.(deadline := deadline, staticPrio := level)), level < t.staticPrio, e)
  }

  /** The locked part of __sched_setscheduler; `boost` is the priority of the top waiter on a mutex of `p`. */
  function SetScheduler(s: State, p: Pid, policy: Policy, rt: RtPriority, boost: Option<nat>, e: Env): State
    requires QueuesOk(s.tasks, s.q) && p in s.tasks
  {
    var t := s.tasks[p];
    if policy == t.policy && (!(policy == Fifo || policy == RoundRobin) || rt == t.rtPriority) then s
    else
      var n := t.(policy := policy, rtPriority := rt);
      var m := n.(normalPrio := NormalPrio(n));
      Change(s, p, m.(prio := if boost.Some? && boost.value < m.normalPrio then boost.value else m.normalPrio), true, e)
  }

  lemma StateQueues(s: State)
    requires Switching(s)
    ensures QueuesOk(s.tasks, s.q)
  {
  }

  lemma SetPrioKeeps(s: State, p: Pid, prio: nat, e: Env)
    requires Switching(s) && p in s.tasks && !IsIdle(s.idle, p)
    ensures var r := SetPrio(s, p, prio, e);
            && Switching(r) && r == s.(tasks := r.tasks, q := r.q) && r.tasks == s.tasks[p := r.tasks[p]]
            && (Queued(r.q, p) <==> Queued(s.q, p)) && (RtPrio(prio) || !Queued(s.q, p) ==> r.tasks[p].prio == prio)
  {
    hide RunOk, Busy, Length;
    QueuedAt(s.tasks, s.q, p);
    OnCpuFacts(s, p);
    ChangeKeeps(s, p, s.tasks[p].(prio := prio), true, e);
  }

  lemma SetNiceKeeps(s: State, p: Pid, nice: int, deadline: nat, e: Env)
    requires Switching(s) && p in s.tasks && !IsIdle(s.idle, p)
    ensures var r := SetNice(s, p, nice, deadline, e);
            && Switching(r) && r == s.(tasks := r.tasks, q := r.q) && r.tasks == s.tasks[p := r.tasks[p]]
            && (Queued(r.q, p) <==> Queued(s.q, p)) && (-20 <= nice <= 19 ==> r.tasks[p].staticPrio == 121 + nice)
            && (r == s || (-20 <= nice <= 19 && s.tasks[p].staticPrio != 121 + nice))
            && (r.tasks[p].deadline ==
                  if r == s || s.tasks[p].policy == Fifo || s.tasks[p].policy == RoundRobin then s.tasks[p].deadline else deadline)
            && (r.tasks[p].sticky <==>
                  && s.tasks[p].sticky
                  && (r == s || s.tasks[p].policy == Fifo || s.tasks[p].policy == RoundRobin || !Queued(s.q, p) || 121 + nice > s.tasks[p].staticPrio))
  {
    hide Switching, Change, Queued;
    StateQueues(s);
    var t, level := s.tasks[p], MAX_RT_PRIO + nice + 20;
    QueuedAt(s.tasks, s.q, p);
    OnCpuFacts(s, p);
    if t.policy == Fifo || t.policy == RoundRobin {
      Touched(s, p, t.(staticPrio := level));
    } else {
      ChangeKeeps(s, p, Effective(t.(deadline := deadline, staticPrio := level)), level < t.staticPrio, e);
    }
  }

  lemma SetSchedulerKeeps(s: State, p: Pid, policy: Policy, rt: RtPriority, boost: Option<nat>, e: Env)
    requires Switching(s) && p in s.tasks && !IsIdle(s.idle, p)
    ensures var r := SetScheduler(s, p, policy, rt, boost, e);
            && Switching(r) && r == s.(tasks := r.tasks, q := r.q) && r.tasks == s.tasks[p := r.tasks[p]]
            && (Queued(r.q, p) <==> Queued(s.q, p)) && r.tasks[p].policy == policy
            && (policy == Fifo || policy == RoundRobin ==> r.tasks[p].rtPriority == rt)
  {
    hide Switching, Change, Queued, NormalPrio, QueuesOk;
    StateQueues(s);
    var n := s.tasks[p].(policy := policy, rtPriority := rt);
    var m := n.(normalPrio := NormalPrio(n));
    var u := m.(prio := if boost.Some? && boost.value < m.normalPrio then boost.value else m.normalPrio);
    SameNormal(n, u);
    ChangeKeeps(s, p, u, true, e);
  }

  /** The priority a policy change gives: that of the policy, or that of the top waiter if it is more urgent. */
  lemma SetSchedulerSets(s: State, p: Pid, policy: Policy, rt: RtPriority, boost: Option<nat>, e: Env)
    requires Switching(s) && p in s.tasks && !IsIdle(s.idle, p)
    requires policy != s.tasks[p].policy || ((policy == Fifo || policy == RoundRobin) && rt != s.tasks[p].rtPriority)
    ensures QueuesOk(s.tasks, s.q) && p in SetScheduler(s, p, policy, rt, boost, e).tasks
    ensures var t := SetScheduler(s, p, policy, rt, boost, e).tasks[p];
            var top := if boost.Some? && boost.value < NormalPrio(t) then boost.value else NormalPrio(t);
            && t.normalPrio == NormalPrio(t) && (top < 101 || !Queued(s.q, p) ==> t.prio == top)
            && (t.sticky <==> s.tasks[p].sticky && !Queued(s.q, p))
  {
    hide Switching, Change, Queued, NormalPrio, QueuesOk;
    StateQueues(s);
    var n := s.tasks[p].(policy := policy, rtPriority := rt);
    var m := n.(normalPrio := NormalPrio(n));
    var u := m.(prio := if boost.Some? && boost.value < m.normalPrio then boost.value else m.normalPrio);
    SameNormal(n, u);
    ChangeKeeps(s, p, u, true, e);
    var c := Change(s, p, u, true, e).tasks[p];
    SameNormal(u, c);
  }

  // ---------------------------------------------------------------- choosing the next task

  /** Who asks: the CPU, whether it is frequency scaled, and longest_deadline_diff. */
  datatype Chooser = Chooser(cpu: Cpu, scaling: bool, bias: nat)

  predicate Foreign(t: Task, ch: Chooser) { t.cpu != ch.cpu && t.sticky }

  /** May a task of list `i` run here? */
  predicate Eligible(t: Task, ch: Chooser, i: nat) {
    ch.cpu in t.allowed && (RtPrio(i) || !Foreign(t, ch) || !ch.scaling)
  }

  function Due(t: Task, ch: Chooser): nat { if Foreign(t, ch) then t.deadline + ch.bias else t.deadline }

  /**
   Who may run where, and how urgently.  A task last run here, or not marked sticky elsewhere, runs
   here if its mask allows it, by its own deadline.  One marked sticky elsewhere is put off by the
   bias, and is not moved at all to a CPU that is frequency scaled, unless it is real-time.
   */
  lemma EligibleCases(t: Task, ch: Chooser, i: nat)
    ensures ch.cpu !in t.allowed ==> !Eligible(t, ch, i)
    ensures ch.cpu in t.allowed && (t.cpu == ch.cpu || !t.sticky) ==> Eligible(t, ch, i) && Due(t, ch) == t.deadline
    ensures ch.cpu in t.allowed && t.cpu != ch.cpu && t.sticky ==>
              (Eligible(t, ch, i) <==> i < 101 || !ch.scaling) && Due(t, ch) == t.deadline + ch.bias
  {
  }

  predicate Known(ts: map<Pid, Task>, l: seq<Pid>) { forall k :: 0 <= k < |l| ==> l[k] in ts }

  /** The best of the first `n` entries of list `i`. */
  function BestIn(ts: map<Pid, Task>, l: seq<Pid>, n: nat, ch: Chooser, i: nat): (b: Option<nat>)
    requires Known(ts, l) && n <= |l|
    ensures b.Some? ==> b.value < n
  {
    if n == 0 then None
    else
      var b := BestIn(ts, l, n - 1, ch, i);
      var t := ts[l[n - 1]];
      if !Eligible(t, ch, i) then b
      else if b == None || (!RtPrio(i) && Due(t, ch) < Due(ts[l[b.value]], ch)) then Some(n - 1)
      else b
  }

  function Pick(ts: map<Pid, Task>, q: Queues, ch: Chooser, i: nat): Option<Pid>
    requires |q.lists| == |q.bits| && (forall j {:trigger q.lists[j]} :: 0 <= j < |q.lists| ==> Known(ts, q.lists[j]))
    decreases |q.lists| - i
  {
    if i >= |q.lists| then None
    else
      var l := q.lists[i];
      var b := if q.bits[i] then BestIn(ts, l, |l|, ch, i) else None;
      if b.Some? then Some(l[b.value]) else Pick(ts, q, ch, i + 1)
  }

  /**
   The specification.  `k` is the entry of list `i` to run: eligible, and before every
   other eligible entry, in queueing order if real-time, and else in order of the
   biased deadline with ties in queueing order.
   */
  ghost predicate Leads(ts: map<Pid, Task>, l: seq<Pid>, i: nat, k: nat, ch: Chooser)
    requires Known(ts, l)
  {
    && k < |l| && Eligible(ts[l[k]], ch, i)
    && forall j {:trigger l[j]} :: 0 <= j < |l| && Eligible(ts[l[j]], ch, i) ==>
         if RtPrio(i) then k <= j
         else Due(ts[l[k]], ch) < Due(ts[l[j]], ch) || (Due(ts[l[k]], ch) == Due(ts[l[j]], ch) && k <= j)
  }

  ghost predicate NoneEligible(ts: map<Pid, Task>, l: seq<Pid>, i: nat, ch: Chooser)
    requires Known(ts, l)
  {
    forall j :: 0 <= j < |l| ==> !Eligible(ts[l[j]], ch, i)
  }

  ghost predicate AllKnown(ts: map<Pid, Task>, q: Queues) {
    forall j {:trigger q.lists[j]} :: 0 <= j < |q.lists| ==> Known(ts, q.lists[j])
  }

  /** `r` leads the first list with an eligible task; None says that no queued task is eligible. */
  ghost predicate IsChoice(ts: map<Pid, Task>, q: Queues, ch: Chooser, r: Option<Pid>)
    requires AllKnown(ts, q)
  {
    match r
    case None => forall i: nat {:trigger q.lists[i]} :: i < |q.lists| ==> NoneEligible(ts, q.lists[i], i, ch)
    case Some(p) =>
      exists i: nat, k: nat {:trigger Leads(ts, q.lists[i], i, k, ch)} ::
        && i < |q.lists| && Leads(ts, q.lists[i], i, k, ch) && q.lists[i][k] == p
        && forall j: nat {:trigger q.lists[j]} :: j < i ==> NoneEligible(ts, q.lists[j], j, ch)
  }

  lemma {:induction false} BestLeads(ts: map<Pid, Task>, l: seq<Pid>, n: nat, ch: Chooser, i: nat)
    requires Known(ts, l) && n <= |l|
    ensures var b := BestIn(ts, l, n, ch, i);
            if b == None then NoneEligible(ts, l[..n], i, ch) else Leads(ts, l[..n], i, b.value, ch)
  {
    if n > 0 { BestLeads(ts, l, n - 1, ch, i); }
  }

  lemma QueuesKnown(ts: map<Pid, Task>, q: Queues)
    requires QueuesOk(ts, q)
    ensures AllKnown(ts, q)
  {
    forall j: nat | j < |q.lists| ensures Known(ts, q.lists[j]) {
      var l := q.lists[j];
      assert ListOk(ts, l, q.bits[j], j);
      forall k | 0 <= k < |l| ensures l[k] in ts {
        assert l[k] in l;
        assert Waiting(ts, l[k], j);
      }
    }
  }

  lemma {:induction false} PickFrom(ts: map<Pid, Task>, q: Queues, ch: Chooser, i: nat)
    requires QueuesOk(ts, q) && AllKnown(ts, q) && i <= PRIO_LIMIT
    requires forall j: nat {:trigger q.lists[j]} :: j < i ==> NoneEligible(ts, q.lists[j], j, ch)
    ensures IsChoice(ts, q, ch, Pick(ts, q, ch, i))
    decreases PRIO_LIMIT - i
  {
    if i < PRIO_LIMIT {
      var l := q.lists[i];
      assert ListOk(ts, l, q.bits[i], i);
      BestLeads(ts, l, |l|, ch, i);
      assert l[..|l|] == l;
      var b := BestIn(ts, l, |l|, ch, i);
      if q.bits[i] && b.Some? {
        assert Leads(ts, q.lists[i], i, b.value, ch);
      } else {
        PickFrom(ts, q, ch, i + 1);
      }
    }
  }

  /** earliest_deadline_task computes the specified choice. */
  lemma PickIsChoice(ts: map<Pid, Task>, q: Queues, ch: Chooser)
    requires QueuesOk(ts, q)
    ensures AllKnown(ts, q) && IsChoice(ts, q, ch, Pick(ts, q, ch, 0))
  {
    QueuesKnown(ts, q);
    PickFrom(ts, q, ch, 0);
  }

  /** The specification leaves no freedom. */
  lemma ChoiceUnique(ts: map<Pid, Task>, q: Queues, ch: Chooser, r: Option<Pid>, r': Option<Pid>)
    requires AllKnown(ts, q) && IsChoice(ts, q, ch, r) && IsChoice(ts, q, ch, r')
    ensures r == r'
  {
    if r.Some? && r'.Some? {
      var i: nat, k: nat :| i < |q.lists| && Leads(ts, q.lists[i], i, k, ch) && q.lists[i][k] == r.value
                            && forall j: nat {:trigger q.lists[j]} :: j < i ==> NoneEligible(ts, q.lists[j], j, ch);
      var i': nat, k': nat :| i' < |q.lists| && Leads(ts, q.lists[i'], i', k', ch) && q.lists[i'][k'] == r'.value
                              && forall j: nat {:trigger q.lists[j]} :: j < i' ==> NoneEligible(ts, q.lists[j], j, ch);
      assert i == i' && k == k';
    }
  }

  lemma PickQueued(ts: map<Pid, Task>, q: Queues, ch: Chooser)
    requires QueuesOk(ts, q)
    ensures AllKnown(ts, q)
    ensures var r := Pick(ts, q, ch, 0);
            r.Some? ==> Queued(q, r.value) && r.value in ts && ts[r.value].prio < PRIO_LIMIT && r.value in q.lists[ts[r.value].prio]
  {
    PickIsChoice(ts, q, ch);
    var r := Pick(ts, q, ch, 0);
    if r.Some? {
      var i: nat, k: nat :| i < |q.lists| && Leads(ts, q.lists[i], i, k, ch) && q.lists[i][k] == r.value;
      assert r.value in q.lists[i];
      QueuedAt(ts, q, r.value);
    }
  }

  // ---------------------------------------------------------------- schedule()

  /** What a pass through schedule() finds besides the state. */
  datatype Call = Call(ch: Chooser, preemptActive: bool, signal: bool, wakeup: Option<Pid>, flush: bool, deadline: nat,
                       e: Env, wakeEnv: Env)

  function Current(s: State, cpu: Cpu): Pid
    requires cpu < |s.curr| && s.curr[cpu].Some?
  {
    s.curr[cpu].value
  }

  /** Up to the decision whether the current task goes to sleep; a sleeping worker may wake another one. */
  function Prepared(s: State, x: Call): (r: (State, bool))
    requires x.ch.cpu < |s.curr| && s.curr[x.ch.cpu].Some? && Current(s, x.ch.cpu) in s.tasks
    requires |s.q.lists| == |s.q.bits| == PRIO_LIMIT && (x.wakeup.Some? ==> x.wakeup.value in s.tasks)
  {
    var prev := Current(s, x.ch.cpu);
    var s0 := s.(inj := Count(s.inj));
    var t := s.tasks[prev];
    if t.state == {} || x.preemptActive then (s0, false)
    else if x.signal then (s0.(tasks := s.tasks[prev := t.(state := {})]), false)
    else if x.wakeup == None then (s0, true)
    else if x.wakeup.value == prev then (s0, false)
    else (WakeLocal(s0, x.wakeup.value, x.wakeEnv), true)
  }

  /** swap_sticky. */
  function SwapSticky(s: State, cpu: Cpu, p: Pid): State
    requires p in s.tasks && cpu < |s.stuck| && (s.stuck[cpu].Some? ==> s.stuck[cpu].value in s.tasks)
  {
    var t := s.tasks[p];
    if s.stuck[cpu] == Some(p) then s.(tasks := s.tasks[p := t.(sticky := true)])
    else
      var ts := if s.stuck[cpu] == None then s.tasks
                else s.tasks[s.stuck[cpu].value := s.tasks[s.stuck[cpu].value].(sticky := false)];
      if RtPrio(t.prio) then s.(tasks := ts, stuck := s.stuck[cpu := None])
      else s.(tasks := ts[p := t.(sticky := true)], stuck := s.stuck[cpu := Some(p)])
  }

  /**
   return_task, or for the idle task nothing: the CPU is between two tasks.
   on_cpu is cleared here and set again in Arrive; the source does both at the switch.
   */
  function Leave(s: State, cpu: Cpu, deactivate: bool, e: Env): State
    requires LeavesFrom(s, cpu)
  {
    var p := Current(s, cpu);
    var t := s.tasks[p].(onCpu := false);
    var away := s.(curr := s.curr[cpu := None]);
    if p == s.idle[cpu] then away.(tasks := s.tasks[p := t])
    else if deactivate then away.(tasks := s.tasks[p := t.(sticky := false)], nrRunning := s.nrRunning - 1)
    else
      LevelBound(t, e);
      Joins(away, p, Levelled(t, e))
  }

  /** The current task of a CPU can be returned. */
  ghost predicate LeavesFrom(s: State, cpu: Cpu) {
    && cpu < |s.curr| && s.curr[cpu].Some? && cpu < |s.idle| && Current(s, cpu) in s.tasks && |s.q.lists| == |s.q.bits| == PRIO_LIMIT
    && var t := s.tasks[Current(s, cpu)]; Current(s, cpu) != s.idle[cpu] ==> t.normalPrio == NormalPrio(t)
  }

  /** The idle task takes the CPU. */
  function GoIdle(s: State, cpu: Cpu): State
    requires cpu < |s.curr| && cpu < |s.idle| && s.idle[cpu] in s.tasks
  {
    var p := s.idle[cpu];
    s.(tasks := s.tasks[p := s.tasks[p].(onCpu := true)], curr := s.curr[cpu := Some(p)], idleMap := s.idleMap + {cpu}, idleCpus := true)
  }

  /** take_task, then the switch to it. */
  function RunTask(s: State, cpu: Cpu, p: Pid): State
    requires cpu < |s.curr| && p in s.tasks && s.tasks[p].prio < |s.q.lists| == |s.q.bits|
  {
    var map' := s.idleMap - {cpu};
    s.(tasks := s.tasks[p := s.tasks[p].(cpu := cpu, sticky := false, onCpu := true)], q := Remove(s.q, p, s.tasks[p].prio),
       qnr := s.qnr - 1, curr := s.curr[cpu := Some(p)], idleMap := map', idleCpus := if map' == {} then false else s.idleCpus)
  }

  /** unstick_task, when a real-time task displaces `prev`. */
  function Unstick(s: State, cpu: Cpu, prev: Pid): State
    requires prev in s.tasks && cpu < |s.stuck|
  {
    s.(tasks := s.tasks[prev := s.tasks[prev].(sticky := false)], stuck := s.stuck[cpu := None])
  }

  /**
   A worker to be woken is, like every worker of the pool that a sleeping one belongs to, last put
   on the CPU that runs schedule(); or at least it does not run, or is in no state to be woken.
   */
  ghost predicate CallOk(s: State, x: Call) {
    && x.ch.cpu < |s.curr|
    && (x.wakeup.Some? && s.curr[x.ch.cpu] != x.wakeup ==>
          && x.wakeup.value in s.tasks
          && var t := s.tasks[x.wakeup.value]; t.cpu == x.ch.cpu || !t.onCpu || t.state * TASK_NORMAL == {})
  }

  /** No task of a CPU runs besides its current one. */
  lemma OthersRest(s: State, cpu: Cpu, p: Pid)
    requires Switching(s) && cpu < |s.curr| && p in s.tasks && s.tasks[p].cpu == cpu && s.curr[cpu] != Some(p)
    ensures !s.tasks[p].onCpu
  {
    assert OnCpuOk(s.tasks[p], p, s.curr);
  }

  /** The shape of a state, for use where the invariant itself is not looked into. */
  lemma Shape(s: State, cpu: Cpu)
    requires Switching(s) && cpu < |s.curr|
    ensures |s.q.lists| == |s.q.bits| == PRIO_LIMIT && |s.idle| == |s.curr| == |s.stuck|
    ensures s.idle[cpu] in s.tasks && IsIdle(s.idle, s.idle[cpu])
    ensures s.stuck[cpu].Some? ==> s.stuck[cpu].value in s.tasks
    ensures s.curr[cpu].Some? ==>
              var p := s.curr[cpu].value;
              && p in s.tasks && s.tasks[p].onCpu && s.tasks[p].cpu == cpu && !Queued(s.q, p)
              && (p != s.idle[cpu] ==> s.tasks[p].normalPrio == NormalPrio(s.tasks[p]) && !IsIdle(s.idle, p))
              && (p == s.idle[cpu] ==> s.tasks[p].state == {})
  {
    assert CpuOk(s.tasks, s.curr[cpu], s.idle[cpu], cpu);
    if s.curr[cpu].Some? {
      var p := s.curr[cpu].value;
      assert OnCpuOk(s.tasks[p], p, s.curr);
      QueuedAt(s.tasks, s.q, p);
      if p != s.idle[cpu] { OwnIdle(s, cpu, p); }
    }
  }

  /** No CPU runs the idle task of another. */
  lemma OwnIdle(s: State, cpu: Cpu, p: Pid)
    requires Switching(s) && cpu < |s.curr| && p in s.tasks && s.tasks[p].cpu == cpu && p != s.idle[cpu]
    ensures !IsIdle(s.idle, p)
  {
    forall c: nat | c < |s.idle| ensures s.idle[c] != p {
      assert CpuOk(s.tasks, s.curr[c], s.idle[c], c);
    }
  }

  lemma CountedKeeps(s: State)
    ensures Switching(s.(inj := Count(s.inj))) <==> Switching(s)
  {
  }

  lemma PreparedKeeps(s: State, x: Call)
    requires Inv(s) && CallOk(s, x)
    ensures |s.q.lists| == |s.q.bits| == PRIO_LIMIT && Current(s, x.ch.cpu) in s.tasks && (x.wakeup.Some? ==> x.wakeup.value in s.tasks)
    ensures var r := Prepared(s, x);
            && Switching(r.0) && r.0.curr == s.curr && r.0.idle == s.idle && r.0.inj == Count(s.inj)
            && (Current(s, x.ch.cpu) == s.idle[x.ch.cpu] ==> !r.1)
  {
    hide Switching, Queued;
    var cpu := x.ch.cpu;
    Shape(s, cpu);
    var prev := Current(s, cpu);
    var s0 := s.(inj := Count(s.inj));
    CountedKeeps(s);
    if s.tasks[prev].state != {} {
      Touched(s0, prev, s.tasks[prev].(state := {}));
      if x.wakeup.Some? && x.wakeup.value != prev {
        if s.tasks[x.wakeup.value].cpu == cpu { OthersRest(s, cpu, x.wakeup.value); }
        WakeLocalExact(s0, x.wakeup.value, x.wakeEnv);
        WakeLocalInj(s0, x.wakeup.value, x.wakeEnv);
      }
    }
  }

  lemma WakeLocalInj(s: State, p: Pid, e: Env)
    requires p in s.tasks && |s.q.lists| == |s.q.bits| == PRIO_LIMIT
    ensures WakeLocal(s, p, e).inj == s.inj && WakeLocal(s, p, e).stuck == s.stuck
  {
  }

  /** Flags and deadlines of a task matter to nothing in the invariant. */
  lemma FlagKeeps(s: State, p: Pid, sticky: bool, deadline: nat)
    requires Switching(s) && p in s.tasks
    ensures Switching(s.(tasks := s.tasks[p := s.tasks[p].(sticky := sticky, deadline := deadline)]))
  {
    var t := s.tasks[p].(sticky := sticky, deadline := deadline);
    QueuedAt(s.tasks, s.q, p);
    TouchOk(s.tasks, s.q, p, t);
    var us := s.tasks[p := t];
    forall c: nat | c < |s.curr| ensures CpuOk(us, s.curr[c], s.idle[c], c) {
      assert CpuOk(s.tasks, s.curr[c], s.idle[c], c);
    }
    forall x | x in us ensures OnCpuOk(us[x], x, s.curr) {
      assert OnCpuOk(s.tasks[x], x, s.curr);
    }
    hide QueuesOk, CpuOk, OnCpuOk, Busy, Length;
  }

  lemma StuckKeeps(s: State, cpu: Cpu, x: Option<Pid>)
    requires Switching(s) && cpu < |s.stuck| && (x.Some? ==> x.value in s.tasks)
    ensures Switching(s.(stuck := s.stuck[cpu := x]))
  {
    hide QueuesOk, RunOk, Busy, Length;
  }

  lemma SwapStickyKeeps(s: State, cpu: Cpu, p: Pid)
    requires Switching(s) && p in s.tasks && cpu < |s.curr|
    ensures cpu < |s.stuck| && (s.stuck[cpu].Some? ==> s.stuck[cpu].value in s.tasks)
    ensures var r := SwapSticky(s, cpu, p);
            && Switching(r) && r.q == s.q && r.curr == s.curr && r.idle == s.idle && r.inj == s.inj && r.qnr == s.qnr
  {
    hide Switching;
    Shape(s, cpu);
    var old' := s.stuck[cpu];
    if old' == Some(p) {
      FlagKeeps(s, p, true, s.tasks[p].deadline);
    } else {
      var s1 := if old' == None then s else s.(tasks := s.tasks[old'.value := s.tasks[old'.value].(sticky := false)]);
      if old'.Some? { FlagKeeps(s, old'.value, false, s.tasks[old'.value].deadline); }
      StuckKeeps(s1, cpu, None);
      FlagKeeps(s1, p, true, s1.tasks[p].deadline);
      StuckKeeps(s1.(tasks := s1.tasks[p := s1.tasks[p].(sticky := true)]), cpu, Some(p));
    }
  }

  lemma RunVacate(ts: map<Pid, Task>, curr: seq<Option<Pid>>, idle: seq<Pid>, cpu: Cpu, t: Task)
    requires RunOk(ts, curr, idle) && cpu < |curr| && curr[cpu].Some?
    requires curr[cpu].value in ts && !t.onCpu && t.cpu == ts[curr[cpu].value].cpu
    requires t.prio == ts[curr[cpu].value].prio || curr[cpu].value != idle[cpu]
    requires t.state == ts[curr[cpu].value].state
    ensures RunOk(ts[curr[cpu].value := t], curr[cpu := None], idle)
  {
    var p := curr[cpu].value;
    var us, curr' := ts[p := t], curr[cpu := None];
    assert CpuOk(ts, curr[cpu], idle[cpu], cpu);
    forall c: nat | c < |curr| ensures CpuOk(us, curr'[c], idle[c], c) {
      assert CpuOk(ts, curr[c], idle[c], c);
    }
    forall x | x in us ensures OnCpuOk(us[x], x, curr') {
      if x != p { assert OnCpuOk(ts[x], x, curr); }
    }
  }

  lemma RunArrive(ts: map<Pid, Task>, curr: seq<Option<Pid>>, idle: seq<Pid>, cpu: Cpu, p: Pid, t: Task)
    requires RunOk(ts, curr, idle) && cpu < |curr| && curr[cpu] == None && p in ts && !ts[p].onCpu && t.onCpu && t.cpu == cpu
    requires if p == idle[cpu] then t.prio == ts[p].prio && t.state == ts[p].state
             else t.normalPrio == NormalPrio(t) && !IsIdle(idle, p)
    ensures RunOk(ts[p := t], curr[cpu := Some(p)], idle)
  {
    NotCurrent(ts, curr, idle, p);
    var us, curr' := ts[p := t], curr[cpu := Some(p)];
    assert CpuOk(ts, curr[cpu], idle[cpu], cpu);
    forall c: nat | c < |curr| ensures CpuOk(us, curr'[c], idle[c], c) {
      assert CpuOk(ts, curr[c], idle[c], c);
    }
    forall x | x in us ensures OnCpuOk(us[x], x, curr') {
      if x != p { assert OnCpuOk(ts[x], x, curr); }
    }
  }

  lemma LeaveKeeps(s: State, cpu: Cpu, deactivate: bool, e: Env)
    requires Switching(s) && cpu < |s.curr| && s.curr[cpu].Some? && (s.curr[cpu] == Some(s.idle[cpu]) ==> !deactivate)
    ensures |s.q.lists| == |s.q.bits| == PRIO_LIMIT && Current(s, cpu) in s.tasks
    ensures var t := s.tasks[Current(s, cpu)]; Current(s, cpu) != s.idle[cpu] ==> t.normalPrio == NormalPrio(t)
    ensures var r := Leave(s, cpu, deactivate, e);
            && Switching(r) && r.curr == s.curr[cpu := None] && r.idle == s.idle && r.inj == s.inj && r.stuck == s.stuck
            && r.qnr == s.qnr + (if Current(s, cpu) == s.idle[cpu] || deactivate then 0 else 1)
  {
    hide QueuesOk, RunOk, Busy, Length, Queued, NormalPrio;
    Shape(s, cpu);
    var p := Current(s, cpu);
    var t := s.tasks[p].(onCpu := false);
    SameNormal(s.tasks[p], t);
    BusyUpdate(s.curr, s.idle, cpu, None);
    if p == s.idle[cpu] {
      TouchOk(s.tasks, s.q, p, t);
      RunVacate(s.tasks, s.curr, s.idle, cpu, t);
    } else if deactivate {
      TouchOk(s.tasks, s.q, p, t.(sticky := false));
      RunVacate(s.tasks, s.curr, s.idle, cpu, t.(sticky := false));
    } else {
      LevelBound(t, e);
      AddOk(s.tasks, s.q, p, Levelled(t, e));
      RunVacate(s.tasks, s.curr, s.idle, cpu, Levelled(t, e));
    }
  }

  lemma GoIdleKeeps(s: State, cpu: Cpu)
    requires Switching(s) && cpu < |s.curr| && s.curr[cpu] == None
    ensures s.idle[cpu] in s.tasks && Switching(GoIdle(s, cpu))
  {
    hide QueuesOk, RunOk, Busy, Length, Queued;
    Shape(s, cpu);
    var p := s.idle[cpu];
    var t := s.tasks[p].(onCpu := true);
    IdleRuns(s, p);
    IdleOff(s, cpu);
    TouchOk(s.tasks, s.q, p, t);
    RunArrive(s.tasks, s.curr, s.idle, cpu, p, t);
    BusyUpdate(s.curr, s.idle, cpu, Some(p));
  }

  lemma IdleOff(s: State, cpu: Cpu)
    requires Switching(s) && cpu < |s.curr| && s.curr[cpu] == None
    ensures s.idle[cpu] in s.tasks && s.tasks[s.idle[cpu]].cpu == cpu && !s.tasks[s.idle[cpu]].onCpu
  {
    assert CpuOk(s.tasks, s.curr[cpu], s.idle[cpu], cpu);
    assert OnCpuOk(s.tasks[s.idle[cpu]], s.idle[cpu], s.curr);
  }

  lemma RunTaskKeeps(s: State, cpu: Cpu, p: Pid)
    requires Switching(s) && cpu < |s.curr| && s.curr[cpu] == None && Queued(s.q, p)
    ensures p in s.tasks && s.tasks[p].prio < |s.q.lists| == |s.q.bits|
    ensures Switching(RunTask(s, cpu, p))
  {
    hide QueuesOk, RunOk, Busy, Length, Queued, NormalPrio, Remove;
    Shape(s, cpu);
    QueuedAt(s.tasks, s.q, p);
    var t := s.tasks[p].(cpu := cpu, sticky := false, onCpu := true);
    SameNormal(s.tasks[p], t);
    if IsIdle(s.idle, p) { IdleRuns(s, p); }
    RemoveOk(s.tasks, s.q, p, t);
    RunArrive(s.tasks, s.curr, s.idle, cpu, p, t);
    BusyUpdate(s.curr, s.idle, cpu, Some(p));
  }

  /** The choice between idle and the earliest deadline, and the switch. */
  function Choose(s: State, ch: Chooser, prev: Pid): State
    requires Switching(s) && ch.cpu < |s.curr| && s.curr[ch.cpu] == None && prev in s.tasks
  {
    GoIdleKeeps(s, ch.cpu);
    if ChoosesIdle(s.inj, s.qnr != 0) then GoIdle(s, ch.cpu).(inj := Counter(0, false))
    else
      PickQueued(s.tasks, s.q, ch);
      match Pick(s.tasks, s.q, ch, 0)
      case None => GoIdle(s, ch.cpu)
      case Some(p) =>
        RunTaskKeeps(s, ch.cpu, p);
        var r := RunTask(s, ch.cpu, p);
        if p != prev && RtPrio(r.tasks[p].prio) then Unstick(r, ch.cpu, prev) else r
  }

  lemma ChooseKeeps(s: State, ch: Chooser, prev: Pid)
    requires Switching(s) && ch.cpu < |s.curr| && s.curr[ch.cpu] == None && prev in s.tasks
    ensures var r := Choose(s, ch, prev);
            && Switching(r) && r.idle == s.idle && |r.curr| == |s.curr| && r.curr[ch.cpu].Some?
            && r.curr == s.curr[ch.cpu := r.curr[ch.cpu]]
            && (ChoosesIdle(s.inj, s.qnr != 0) ==> r.curr[ch.cpu] == Some(s.idle[ch.cpu]))
            && r.inj == if ChoosesIdle(s.inj, s.qnr != 0) then Counter(0, false) else s.inj
  {
    hide Switching, Queued, Pick;
    Shape(s, ch.cpu);
    GoIdleKeeps(s, ch.cpu);
    InjKeeps(GoIdle(s, ch.cpu), Counter(0, false));
    if !ChoosesIdle(s.inj, s.qnr != 0) {
      PickHere(s, ch);
      var c := Pick(s.tasks, s.q, ch, 0);
      if c.Some? {
        var p := c.value;
        RunTaskKeeps(s, ch.cpu, p);
        var r := RunTask(s, ch.cpu, p);
        FlagKeeps(r, prev, false, r.tasks[prev].deadline);
        StuckKeeps(r.(tasks := r.tasks[prev := r.tasks[prev].(sticky := false)]), ch.cpu, None);
      }
    }
  }

  lemma InjKeeps(s: State, c: Counter)
    requires Switching(s)
    ensures Switching(s.(inj := c))
  {
    hide QueuesOk, RunOk;
  }

  lemma PickHere(s: State, ch: Chooser)
    requires Switching(s)
    ensures |s.q.lists| == |s.q.bits| && AllKnown(s.tasks, s.q)
    ensures var r := Pick(s.tasks, s.q, ch, 0); r.Some? ==> Queued(s.q, r.value) && r.value in s.tasks
  {
    PickQueued(s.tasks, s.q, ch);
  }

  /** What the pass did, as the injection counter sees it. */
  datatype Done = Done(s: State, pass: Pass)

  /** One pass through schedule(), from taking the lock to releasing it. */
  function Schedule(s: State, x: Call): Done
    requires Inv(s) && CallOk(s, x)
  {
    var cpu := x.ch.cpu;
    PreparedKeeps(s, x);
    Shape(s, cpu);
    var prev, r := Current(s, cpu), Prepared(s, x);
    Shape(r.0, cpu);
    if r.1 && x.flush then Done(r.0, Early)
    else if prev == s.idle[cpu] then Switched(r.0, x, false)
    else
      var t := r.0.tasks[prev];
      FlagKeeps(r.0, prev, t.sticky, x.deadline);
      var s2 := r.0.(tasks := r.0.tasks[prev := t.(deadline := x.deadline)]);
      assert t.(deadline := x.deadline) == t.(sticky := t.sticky, deadline := x.deadline);
      if cpu !in t.allowed || r.1 then Switched(s2, x, r.1)
      else if s2.qnr == 0 then Done(s2, Early)
      else
        SwapStickyKeeps(s2, cpu, prev);
        Switched(SwapSticky(s2, cpu, prev), x, false)
  }

  /** The second half of a pass that does not leave early. */
  function Switched(s: State, x: Call, deactivate: bool): Done
    requires Switching(s) && x.ch.cpu < |s.curr| && s.curr[x.ch.cpu].Some? && (s.curr[x.ch.cpu] == Some(s.idle[x.ch.cpu]) ==> !deactivate)
  {
    LeaveKeeps(s, x.ch.cpu, deactivate, x.e);
    var l := Leave(s, x.ch.cpu, deactivate, x.e);
    Done(Choose(l, x.ch, Current(s, x.ch.cpu)), Choice(l.qnr != 0))
  }

  lemma SwitchedKeeps(s: State, x: Call, deactivate: bool)
    requires Switching(s) && x.ch.cpu < |s.curr| && s.curr[x.ch.cpu].Some? && (s.curr[x.ch.cpu] == Some(s.idle[x.ch.cpu]) ==> !deactivate)
    ensures var d := Switched(s, x, deactivate);
            && Switching(d.s) && d.s.idle == s.idle && |d.s.curr| == |s.curr| && d.s.curr[x.ch.cpu].Some?
            && d.s.curr == s.curr[x.ch.cpu := d.s.curr[x.ch.cpu]] && d.pass.Choice?
            && (ChoosesIdle(s.inj, d.pass.queued) ==> d.s.curr[x.ch.cpu] == Some(s.idle[x.ch.cpu]))
            && d.s.inj == if ChoosesIdle(s.inj, d.pass.queued) then Counter(0, false) else s.inj
  {
    hide Switching, Choose, Leave;
    LeaveKeeps(s, x.ch.cpu, deactivate, x.e);
    ChooseHere(s, x, deactivate);
    var l := Leave(s, x.ch.cpu, deactivate, x.e);
    ChooseKeeps(l, x.ch, Current(s, x.ch.cpu));
  }

  lemma ChooseHere(s: State, x: Call, deactivate: bool)
    requires Switching(s) && x.ch.cpu < |s.curr| && s.curr[x.ch.cpu].Some? && (s.curr[x.ch.cpu] == Some(s.idle[x.ch.cpu]) ==> !deactivate)
    ensures |s.q.lists| == |s.q.bits| == PRIO_LIMIT && x.ch.cpu < |s.idle| && Current(s, x.ch.cpu) in s.tasks
    ensures var t := s.tasks[Current(s, x.ch.cpu)]; Current(s, x.ch.cpu) != s.idle[x.ch.cpu] ==> t.normalPrio == NormalPrio(t)
    ensures Current(s, x.ch.cpu) in Leave(s, x.ch.cpu, deactivate, x.e).tasks
  {
    LeaveKeeps(s, x.ch.cpu, deactivate, x.e);
  }

  /** Every pass through schedule() keeps the runqueue consistent, and counts as the injection counter says. */
  lemma ScheduleKeeps(s: State, x: Call)
    requires Inv(s) && CallOk(s, x)
    ensures var d := Schedule(s, x);
            && Inv(d.s) && d.s.idle == s.idle && |d.s.curr| == |s.curr|
            && d.s.inj == Tick(s.inj, d.pass).0
            && (Tick(s.inj, d.pass).1.Idled? ==> d.s.curr[x.ch.cpu] == Some(s.idle[x.ch.cpu]))
  {
    hide Switching, Switched, SwapSticky;
    var cpu := x.ch.cpu;
    PreparedKeeps(s, x);
    Shape(s, cpu);
    var prev, r := Current(s, cpu), Prepared(s, x);
    Shape(r.0, cpu);
    if r.1 && x.flush {
    } else if prev == s.idle[cpu] {
      SwitchedKeeps(r.0, x, false);
    } else {
      var t := r.0.tasks[prev];
      FlagKeeps(r.0, prev, t.sticky, x.deadline);
      var s2 := r.0.(tasks := r.0.tasks[prev := t.(deadline := x.deadline)]);
      assert t.(deadline := x.deadline) == t.(sticky := t.sticky, deadline := x.deadline);
      if cpu !in t.allowed || r.1 {
        SwitchedKeeps(s2, x, r.1);
      } else if s2.qnr != 0 {
        SwapStickyKeeps(s2, cpu, prev);
        SwitchedKeeps(SwapSticky(s2, cpu, prev), x, false);
      }
    }
  }

  // ---------------------------------------------------------------- going to sleep

  lemma RemoveOthers(ts: map<Pid, Task>, q: Queues, p: Pid, i: nat, y: Pid)
    requires QueuesOk(ts, q) && i < PRIO_LIMIT && y != p
    ensures Queued(Remove(q, p, i), y) <==> Queued(q, y)
  {
    var r := Remove(q, p, i);
    assert ListOk(ts, q.lists[i], q.bits[i], i);
    WithoutOk(q.lists[i], p);
    if Queued(q, y) {
      var j: nat :| j < |q.lists| && y in q.lists[j];
      assert y in r.lists[j];
    }
    if Queued(r, y) {
      var j: nat :| j < |r.lists| && y in r.lists[j];
      assert y in q.lists[j];
    }
  }

  lemma AddOthers(q: Queues, p: Pid, i: nat, y: Pid)
    requires i < |q.lists| && i < |q.bits| && y != p
    ensures Queued(Add(q, p, i), y) <==> Queued(q, y)
  {
    var r := Add(q, p, i);
    if Queued(q, y) {
      var j: nat :| j < |q.lists| && y in q.lists[j];
      assert y in r.lists[j];
    }
    if Queued(r, y) {
      var j: nat :| j < |r.lists| && y in r.lists[j];
      assert y in q.lists[j];
    }
  }

  /** `p` neither waits nor runs. */
  ghost predicate Gone(s: State, p: Pid) { !Queued(s.q, p) && forall c :: 0 <= c < |s.curr| ==> s.curr[c] != Some(p) }

  /** The current task asks to sleep and nothing keeps it awake. */
  ghost predicate Sleeps(s: State, x: Call)
    requires x.ch.cpu < |s.curr| && s.curr[x.ch.cpu].Some? && Current(s, x.ch.cpu) in s.tasks
  {
    var prev := Current(s, x.ch.cpu);
    s.tasks[prev].state != {} && !x.preemptActive && !x.signal && x.wakeup != Some(prev)
  }

  /** A sleeping worker is to wake another one, which sleeps. */
  ghost predicate Rouses(s: State, x: Call) {
    && x.wakeup.Some? && x.wakeup.value in s.tasks
    && s.tasks[x.wakeup.value].state * TASK_NORMAL != {} && !Queued(s.q, x.wakeup.value)
  }

  lemma WakeLocalOthers(s: State, p: Pid, e: Env, y: Pid)
    requires p in s.tasks && |s.q.lists| == |s.q.bits| == PRIO_LIMIT && y != p && y in s.tasks
    ensures var w := WakeLocal(s, p, e);
            && (Queued(w.q, y) <==> Queued(s.q, y)) && y in w.tasks && w.tasks[y] == s.tasks[y]
            && w.nrRunning == s.nrRunning + if s.tasks[p].state * TASK_NORMAL != {} && !Queued(s.q, p) then 1 else 0
  {
    hide Queued, Add;
    if s.tasks[p].state * TASK_NORMAL != {} && !Queued(s.q, p) {
      LevelBound(Effective(s.tasks[p]), e);
      AddOthers(s.q, p, Levelled(Effective(s.tasks[p]), e).prio, y);
    }
  }

  lemma PreparedSleeps(s: State, x: Call)
    requires Inv(s) && CallOk(s, x)
    ensures |s.q.lists| == |s.q.bits| == PRIO_LIMIT && Current(s, x.ch.cpu) in s.tasks && (x.wakeup.Some? ==> x.wakeup.value in s.tasks)
    ensures var r := Prepared(s, x);
            && (r.1 <==> Sleeps(s, x)) && !Queued(r.0.q, Current(s, x.ch.cpu))
            && r.0.nrRunning == s.nrRunning + if Sleeps(s, x) && Rouses(s, x) then 1 else 0
  {
    hide Switching, Queued, WakeLocal;
    PreparedKeeps(s, x);
    Shape(s, x.ch.cpu);
    var prev := Current(s, x.ch.cpu);
    if Sleeps(s, x) && x.wakeup.Some? { WakeLocalOthers(s.(inj := Count(s.inj)), x.wakeup.value, x.wakeEnv, prev); }
  }

  lemma LeaveSleeps(s: State, cpu: Cpu, deactivate: bool, e: Env)
    requires Switching(s) && cpu < |s.curr| == |s.idle| && s.curr[cpu].Some? && Current(s, cpu) != s.idle[cpu] && LeavesFrom(s, cpu)
    ensures var l := Leave(s, cpu, deactivate, e);
            && (Queued(l.q, Current(s, cpu)) <==> !deactivate) && l.nrRunning == s.nrRunning - (if deactivate then 1 else 0)
            && |l.curr| == |s.curr| && forall c :: 0 <= c < |l.curr| ==> l.curr[c] != Some(Current(s, cpu))
  {
    Shape(s, cpu);
    var p := Current(s, cpu);
    forall c: nat | c < |s.curr| ensures c != cpu ==> s.curr[c] != Some(p) {
      assert CpuOk(s.tasks, s.curr[c], s.idle[c], c) && CpuOk(s.tasks, s.curr[cpu], s.idle[cpu], cpu);
    }
    if !deactivate {
      var t := Levelled(s.tasks[p].(onCpu := false), e);
      LevelBound(s.tasks[p].(onCpu := false), e);
      assert p in Leave(s, cpu, deactivate, e).q.lists[t.prio];
    }
  }

  /** The choice of the next task takes a queued one off the queues, and no other. */
  lemma ChooseSpares(s: State, ch: Chooser, prev: Pid)
    requires Switching(s) && ch.cpu < |s.curr| && s.curr[ch.cpu] == None && prev in s.tasks
    requires forall c :: 0 <= c < |s.curr| ==> s.curr[c] != Some(prev)
    requires ch.cpu < |s.idle| && prev != s.idle[ch.cpu]
    ensures var r := Choose(s, ch, prev); (Gone(r, prev) <==> !Queued(s.q, prev)) && r.nrRunning == s.nrRunning
  {
    hide Switching, Queued, Pick, Remove;
    ChooseKeeps(s, ch, prev);
    if !ChoosesIdle(s.inj, s.qnr != 0) {
      PickHere(s, ch);
      var c := Pick(s.tasks, s.q, ch, 0);
      if c.Some? {
        RunTaskKeeps(s, ch.cpu, c.value);
        var r := RunTask(s, ch.cpu, c.value);
        assert r.curr[ch.cpu] == Some(c.value);
        if c.value != prev {
          QueuesHere(s);
          Levels(s.tasks, s.q);
          RemoveOthers(s.tasks, s.q, c.value, s.tasks[c.value].prio, prev);
        }
      }
    }
  }

  lemma SwitchedSleeps(s: State, x: Call, deactivate: bool)
    requires Switching(s) && x.ch.cpu < |s.curr| == |s.idle| && s.curr[x.ch.cpu].Some? && Current(s, x.ch.cpu) != s.idle[x.ch.cpu]
    ensures var d := Switched(s, x, deactivate);
            (Gone(d.s, Current(s, x.ch.cpu)) <==> deactivate) && d.s.nrRunning == s.nrRunning - if deactivate then 1 else 0
  {
    hide Switching, Queued, Choose, Leave, Gone;
    var cpu := x.ch.cpu;
    LeaveKeeps(s, cpu, deactivate, x.e);
    ChooseHere(s, x, deactivate);
    LeaveSleeps(s, cpu, deactivate, x.e);
    ChooseSpares(Leave(s, cpu, deactivate, x.e), x.ch, Current(s, cpu));
  }

  /**
   A pass takes its current task off the runqueue if and only if that task asks to sleep, nothing
   keeps it awake and the pass does not leave to flush a plug; the count of running tasks then
   falls by one, and rises by one for a worker that is woken in its place.
   */
  lemma ScheduleSleeps(s: State, x: Call)
    requires Inv(s) && CallOk(s, x) && |s.idle| == |s.curr| && s.curr[x.ch.cpu] != Some(s.idle[x.ch.cpu])
    ensures Current(s, x.ch.cpu) in s.tasks
    ensures var d := Schedule(s, x);
            && (Gone(d.s, Current(s, x.ch.cpu)) <==> Sleeps(s, x) && !x.flush)
            && d.s.nrRunning == s.nrRunning - (if Sleeps(s, x) && !x.flush then 1 else 0) + (if Sleeps(s, x) && Rouses(s, x) then 1 else 0)
  {
    hide Switching, Switched, SwapSticky, Queued, Prepared, Sleeps, Rouses;
    var cpu := x.ch.cpu;
    PreparedKeeps(s, x);
    PreparedSleeps(s, x);
    Shape(s, cpu);
    var prev, r := Current(s, cpu), Prepared(s, x);
    Shape(r.0, cpu);
    if !(r.1 && x.flush) {
      var t := r.0.tasks[prev];
      FlagKeeps(r.0, prev, t.sticky, x.deadline);
      var s2 := r.0.(tasks := r.0.tasks[prev := t.(deadline := x.deadline)]);
      assert t.(deadline := x.deadline) == t.(sticky := t.sticky, deadline := x.deadline);
      if cpu !in t.allowed || r.1 {
        SwitchedSleeps(s2, x, r.1);
      } else if s2.qnr != 0 {
        SwapStickyKeeps(s2, cpu, prev);
        SwapStickyCounts(s2, cpu, prev);
        SwitchedSleeps(SwapSticky(s2, cpu, prev), x, false);
      } else {
        assert s2.curr[cpu] == Some(prev);
      }
    }
  }

  lemma SwapStickyCounts(s: State, cpu: Cpu, p: Pid)
    requires p in s.tasks && cpu < |s.stuck| && (s.stuck[cpu].Some? ==> s.stuck[cpu].value in s.tasks)
    ensures SwapSticky(s, cpu, p).nrRunning == s.nrRunning
  {
  }

  // ---------------------------------------------------------------- what else a pass does

  /** What the choice of the next task does to `prev`, to the task that is chosen, to the idle map and to the sticky marks. */
  lemma ChooseFlags(s: State, ch: Chooser, prev: Pid)
    requires Switching(s) && ch.cpu < |s.curr| == |s.idle| && s.curr[ch.cpu] == None && prev in s.tasks && prev != s.idle[ch.cpu]
    ensures var r, idle := Choose(s, ch, prev), s.idle[ch.cpu];
            && |r.curr| == |s.curr| && r.curr[ch.cpu].Some? && prev in r.tasks
            && var next := r.curr[ch.cpu].value;
               && next in r.tasks
               && r.tasks[prev].deadline == s.tasks[prev].deadline && r.tasks[prev].state == s.tasks[prev].state
               && (ch.cpu in r.idleMap <==> next == idle) && r.idleMap - {ch.cpu} == s.idleMap - {ch.cpu}
               && (next != idle ==> Queued(s.q, next) && !r.tasks[next].sticky)
               && (next == idle ==> idle in s.tasks && r.tasks[idle].sticky == s.tasks[idle].sticky)
               && (r.tasks[prev].sticky <==> s.tasks[prev].sticky && next != prev && !(next != idle && RtPrio(r.tasks[next].prio)))
               && r.stuck == (if next != prev && next != idle && RtPrio(r.tasks[next].prio) then s.stuck[ch.cpu := None] else s.stuck)
               && forall y :: y in s.tasks && y != next ==> y in r.tasks && (y != prev ==> r.tasks[y] == s.tasks[y])
  {
    hide Switching, Queued, Pick, Remove;
    Shape(s, ch.cpu);
    GoIdleKeeps(s, ch.cpu);
    if !ChoosesIdle(s.inj, s.qnr != 0) {
      PickHere(s, ch);
      var c := Pick(s.tasks, s.q, ch, 0);
      if c.Some? {
        RunTaskKeeps(s, ch.cpu, c.value);
        IdleRuns(s, s.idle[ch.cpu]);
      }
    }
  }

  lemma LeaveFlags(s: State, cpu: Cpu, deactivate: bool, e: Env)
    requires Switching(s) && cpu < |s.curr| == |s.idle| && s.curr[cpu].Some? && Current(s, cpu) != s.idle[cpu] && LeavesFrom(s, cpu)
    ensures var l, p := Leave(s, cpu, deactivate, e), Current(s, cpu);
            && p in l.tasks && l.tasks[p].deadline == s.tasks[p].deadline && l.tasks[p].state == s.tasks[p].state
            && (l.tasks[p].sticky <==> s.tasks[p].sticky && !deactivate) && l.stuck == s.stuck && l.idleMap == s.idleMap
            && l.tasks == s.tasks[p := l.tasks[p]]
  {
  }

  /** What a pass that reaches the choice does to its current task, the next one, the idle map and the sticky marks. */
  ghost predicate Passed(s: State, r: State, cpu: Cpu, sleeps: bool)
    requires cpu < |s.curr| == |r.curr| == |s.idle| && s.curr[cpu].Some? && r.curr[cpu].Some? && cpu < |s.stuck|
    requires Current(s, cpu) in s.tasks && Current(s, cpu) in r.tasks && Current(r, cpu) in r.tasks
  {
    var prev, next, idle := Current(s, cpu), Current(r, cpu), s.idle[cpu];
    && r.tasks[prev].deadline == s.tasks[prev].deadline && r.tasks[prev].state == s.tasks[prev].state
    && (cpu in r.idleMap <==> next == idle) && r.idleMap - {cpu} == s.idleMap - {cpu}
    && (next != idle ==> !r.tasks[next].sticky)
    && (next == idle ==> idle in s.tasks && r.tasks[idle].sticky == s.tasks[idle].sticky)
    && (r.tasks[prev].sticky <==> s.tasks[prev].sticky && !sleeps && next != prev && !(next != idle && RtPrio(r.tasks[next].prio)))
    && r.stuck == (if next != prev && next != idle && RtPrio(r.tasks[next].prio) then s.stuck[cpu := None] else s.stuck)
    && forall y :: y in s.tasks && y != next ==> y in r.tasks && (y != prev ==> r.tasks[y] == s.tasks[y])
  }

  lemma SwitchedFlags(s: State, x: Call, deactivate: bool)
    requires Switching(s) && x.ch.cpu < |s.curr| == |s.idle| == |s.stuck| && s.curr[x.ch.cpu].Some? && Current(s, x.ch.cpu) != s.idle[x.ch.cpu]
    ensures Current(s, x.ch.cpu) in s.tasks
    ensures var d := Switched(s, x, deactivate);
            && d.pass.Choice? && |d.s.curr| == |s.curr| && d.s.curr[x.ch.cpu].Some?
            && Current(s, x.ch.cpu) in d.s.tasks && Current(d.s, x.ch.cpu) in d.s.tasks && Passed(s, d.s, x.ch.cpu, deactivate)
  {
    hide Switching, Choose, Leave, Queued;
    var cpu := x.ch.cpu;
    LeaveKeeps(s, cpu, deactivate, x.e);
    ChooseHere(s, x, deactivate);
    LeaveFlags(s, cpu, deactivate, x.e);
    ChooseFlags(Leave(s, cpu, deactivate, x.e), x.ch, Current(s, cpu));
  }

  /** The current task when the choice is due: a signal has made it runnable again, and its deadline is renewed. */
  function Renewed(t: Task, x: Call): Task {
    t.(state := if t.state != {} && !x.preemptActive && x.signal then {} else t.state, deadline := x.deadline)
  }

  /** A pass leaves early exactly to flush a plug or, staying awake, because nothing else is queued and the task may stay. */
  lemma ScheduleExits(s: State, x: Call)
    requires Inv(s) && CallOk(s, x) && |s.idle| == |s.curr| && s.curr[x.ch.cpu] != Some(s.idle[x.ch.cpu])
    ensures Current(s, x.ch.cpu) in s.tasks
    ensures var d, prev := Schedule(s, x), Current(s, x.ch.cpu);
            && (d.pass == Early <==>
                  if Sleeps(s, x) then x.flush else x.ch.cpu in s.tasks[prev].allowed && s.qnr == 0)
            && (d.pass == Early && !Sleeps(s, x) ==> prev in d.s.tasks && d.s.tasks[prev] == Renewed(s.tasks[prev], x))
            && (d.pass == Early ==> d.s.curr == s.curr && d.s.idleMap == s.idleMap && d.s.stuck == s.stuck)
  {
    hide Switching, Switched, SwapSticky, Queued, Sleeps, WakeLocal;
    var cpu := x.ch.cpu;
    PreparedKeeps(s, x);
    PreparedSleeps(s, x);
    PreparedTasks(s, x);
    Shape(s, cpu);
    var prev, r := Current(s, cpu), Prepared(s, x);
    Shape(r.0, cpu);
    if !(r.1 && x.flush) {
      var t := r.0.tasks[prev];
      FlagKeeps(r.0, prev, t.sticky, x.deadline);
      var s2 := r.0.(tasks := r.0.tasks[prev := t.(deadline := x.deadline)]);
      assert t.(deadline := x.deadline) == t.(sticky := t.sticky, deadline := x.deadline);
      if cpu !in t.allowed || r.1 {
        SwitchedFlags(s2, x, r.1);
      } else if s2.qnr != 0 {
        SwapStickyKeeps(s2, cpu, prev);
        Shape(SwapSticky(s2, cpu, prev), cpu);
        SwitchedFlags(SwapSticky(s2, cpu, prev), x, false);
      }
    }
  }

  /** swap_sticky: the task is marked and recorded unless it is real-time; the one recorded before loses its mark. */
  lemma SwapStickyIs(s: State, cpu: Cpu, p: Pid)
    requires p in s.tasks && cpu < |s.stuck| && (s.stuck[cpu].Some? ==> s.stuck[cpu].value in s.tasks)
    ensures var r, mark := SwapSticky(s, cpu, p), s.stuck[cpu] == Some(p) || !RtPrio(s.tasks[p].prio);
            && p in r.tasks && r.tasks[p] == s.tasks[p].(sticky := mark || s.tasks[p].sticky)
            && r.stuck == s.stuck[cpu := if mark then Some(p) else None]
            && (s.stuck[cpu].Some? && s.stuck[cpu].value != p ==> s.stuck[cpu].value in r.tasks && !r.tasks[s.stuck[cpu].value].sticky)
            && r.idleMap == s.idleMap
  {
    if s.stuck[cpu] == Some(p) { assert s.stuck[cpu := Some(p)] == s.stuck; }
  }

  /**
   What a pass that reaches the choice leaves behind: the deadline of its task is renewed, a signal
   has made it runnable again; the idle map says whether the CPU idles and is otherwise unchanged;
   the next task carries no sticky mark, and neither does one that went to sleep.  A task that was
   put back while it might have stayed is recorded and marked, unless it is real-time or displaced
   by a real-time task, and the one recorded before it loses its mark.
   */
  ghost predicate LeftBehind(s: State, x: Call, sleeps: bool, r: State)
    requires x.ch.cpu < |s.curr| == |s.idle| == |s.stuck| && s.curr[x.ch.cpu].Some? && Current(s, x.ch.cpu) in s.tasks
  {
    var cpu, prev := x.ch.cpu, Current(s, x.ch.cpu);
    && |r.curr| == |s.curr| == |r.stuck| && r.curr[cpu].Some? && prev in r.tasks && Current(r, cpu) in r.tasks
    && var next, idle, last := Current(r, cpu), s.idle[cpu], s.stuck[cpu];
       var displaced := next != prev && next != idle && RtPrio(r.tasks[next].prio);
       var mark := last == Some(prev) || !RtPrio(s.tasks[prev].prio);
       && r.tasks[prev].deadline == x.deadline && r.tasks[prev].state == Renewed(s.tasks[prev], x).state
       && (cpu in r.idleMap <==> next == idle) && r.idleMap - {cpu} == s.idleMap - {cpu}
       && (next != idle ==> !r.tasks[next].sticky) && (sleeps || displaced ==> !r.tasks[prev].sticky)
       && (displaced ==> r.stuck[cpu] == None)
       && (!sleeps && cpu in s.tasks[prev].allowed ==>
             && (last.Some? && last.value != prev ==> last.value in r.tasks && !r.tasks[last.value].sticky)
             && (!displaced ==> r.stuck[cpu] == (if mark then Some(prev) else None))
             && (!displaced && next != prev ==> (r.tasks[prev].sticky <==> mark || s.tasks[prev].sticky)))
  }

  /** `u` is `s` with its current task made ready for the choice. */
  ghost predicate MadeReady(s: State, x: Call, u: State)
    requires x.ch.cpu < |s.curr| == |s.idle| == |s.stuck| && s.curr[x.ch.cpu].Some? && Current(s, x.ch.cpu) in s.tasks
  {
    && u.curr == s.curr && u.idle == s.idle && u.stuck == s.stuck && u.idleMap == s.idleMap && Switching(u)
    && Current(s, x.ch.cpu) in u.tasks && u.tasks[Current(s, x.ch.cpu)] == Renewed(s.tasks[Current(s, x.ch.cpu)], x)
  }

  lemma LeavesAway(s: State, x: Call, sleeps: bool, u: State)
    requires x.ch.cpu < |s.curr| == |s.idle| == |s.stuck| && s.curr[x.ch.cpu].Some? && Current(s, x.ch.cpu) in s.tasks
    requires MadeReady(s, x, u) && Current(s, x.ch.cpu) != s.idle[x.ch.cpu] && (sleeps || x.ch.cpu !in s.tasks[Current(s, x.ch.cpu)].allowed)
    ensures LeftBehind(s, x, sleeps, Switched(u, x, sleeps).s)
  {
    hide Switching, Switched, Queued;
    SwitchedFlags(u, x, sleeps);
    SwitchedKeeps(u, x, sleeps);
    Shape(Switched(u, x, sleeps).s, x.ch.cpu);
  }

  lemma LeavesBack(s: State, x: Call, u: State)
    requires x.ch.cpu < |s.curr| == |s.idle| == |s.stuck| && s.curr[x.ch.cpu].Some? && Current(s, x.ch.cpu) in s.tasks
    requires MadeReady(s, x, u) && Current(s, x.ch.cpu) != s.idle[x.ch.cpu] && x.ch.cpu in s.tasks[Current(s, x.ch.cpu)].allowed
    ensures (u.stuck[x.ch.cpu].Some? ==> u.stuck[x.ch.cpu].value in u.tasks) && Switching(SwapSticky(u, x.ch.cpu, Current(s, x.ch.cpu)))
    ensures SwapSticky(u, x.ch.cpu, Current(s, x.ch.cpu)).curr == s.curr && SwapSticky(u, x.ch.cpu, Current(s, x.ch.cpu)).idle == s.idle
    ensures LeftBehind(s, x, false, Switched(SwapSticky(u, x.ch.cpu, Current(s, x.ch.cpu)), x, false).s)
  {
    hide Switching, Switched, SwapSticky, Queued;
    var cpu, prev := x.ch.cpu, Current(s, x.ch.cpu);
    SwapStickyKeeps(u, cpu, prev);
    SwapStickyIs(u, cpu, prev);
    var v := SwapSticky(u, cpu, prev);
    Shape(v, cpu);
    SwitchedFlags(v, x, false);
    SwitchedKeeps(v, x, false);
    Shape(Switched(v, x, false).s, cpu);
  }

  lemma SchedulePasses(s: State, x: Call)
    requires Inv(s) && CallOk(s, x) && |s.idle| == |s.curr| == |s.stuck| && s.curr[x.ch.cpu] != Some(s.idle[x.ch.cpu])
    requires Schedule(s, x).pass.Choice?
    ensures Current(s, x.ch.cpu) in s.tasks
    ensures LeftBehind(s, x, Sleeps(s, x), Schedule(s, x).s)
  {
    hide Switching, Switched, SwapSticky, Queued, Sleeps, WakeLocal, Prepared, Renewed, LeftBehind;
    var cpu := x.ch.cpu;
    PreparedKeeps(s, x);
    PreparedSleeps(s, x);
    PreparedTasks(s, x);
    Shape(s, cpu);
    var prev, r := Current(s, cpu), Prepared(s, x);
    Shape(r.0, cpu);
    SameStanding(s.tasks[prev], x);
    if !(r.1 && x.flush) {
      var t := r.0.tasks[prev];
      FlagKeeps(r.0, prev, t.sticky, x.deadline);
      var s2 := r.0.(tasks := r.0.tasks[prev := t.(deadline := x.deadline)]);
      assert t.(deadline := x.deadline) == t.(sticky := t.sticky, deadline := x.deadline);
      assert MadeReady(s, x, s2);
      if cpu !in t.allowed || r.1 {
        LeavesAway(s, x, r.1, s2);
      } else if s2.qnr != 0 {
        LeavesBack(s, x, s2);
      }
    }
  }

  lemma SameStanding(t: Task, x: Call)
    ensures var u := Renewed(t, x); u.prio == t.prio && u.sticky == t.sticky && u.allowed == t.allowed && u.deadline == x.deadline
  {
  }

  lemma PreparedTasks(s: State, x: Call)
    requires Inv(s) && CallOk(s, x)
    ensures |s.q.lists| == |s.q.bits| == PRIO_LIMIT && Current(s, x.ch.cpu) in s.tasks && (x.wakeup.Some? ==> x.wakeup.value in s.tasks)
    ensures var r, prev := Prepared(s, x), Current(s, x.ch.cpu);
            && prev in r.0.tasks && r.0.tasks[prev].(deadline := x.deadline) == Renewed(s.tasks[prev], x)
            && r.0.stuck == s.stuck && r.0.idleMap == s.idleMap && (!Sleeps(s, x) ==> r.0.qnr == s.qnr)
            && forall y :: y in s.tasks && (!Sleeps(s, x) || x.wakeup != Some(y)) && y != prev ==> y in r.0.tasks && r.0.tasks[y] == s.tasks[y]
  {
    hide Switching, Queued;
    PreparedKeeps(s, x);
    Shape(s, x.ch.cpu);
  }

  /** No queued task may run on the CPU that asks. */
  ghost predicate NothingFits(s: State, ch: Chooser) {
    AllKnown(s.tasks, s.q) && forall i: nat {:trigger s.q.lists[i]} :: i < |s.q.lists| ==> NoneEligible(s.tasks, s.q.lists[i], i, ch)
  }

  /** With work queued and no idle forced, the idle task is chosen only if no queued task may run here. */
  lemma ChooseIdles(s: State, ch: Chooser, prev: Pid)
    requires Switching(s) && ch.cpu < |s.curr| && s.curr[ch.cpu] == None && prev in s.tasks && !ChoosesIdle(s.inj, s.qnr != 0)
    ensures ch.cpu < |s.idle| && Choose(s, ch, prev).curr[ch.cpu] == Some(s.idle[ch.cpu]) ==> NothingFits(Choose(s, ch, prev), ch)
  {
    hide Switching, Queued, Pick, NothingFits, Remove;
    Shape(s, ch.cpu);
    PickHere(s, ch);
    var c := Pick(s.tasks, s.q, ch, 0);
    if c == None {
      GoIdleKeeps(s, ch.cpu);
      IdleFits(s, ch);
    } else {
      RunTaskKeeps(s, ch.cpu, c.value);
      IdleRuns(s, s.idle[ch.cpu]);
    }
  }

  lemma IdleFits(s: State, ch: Chooser)
    requires Switching(s) && ch.cpu < |s.curr| && ch.cpu < |s.idle| && s.idle[ch.cpu] in s.tasks
    requires AllKnown(s.tasks, s.q) && |s.q.lists| == |s.q.bits| && Pick(s.tasks, s.q, ch, 0) == None
    ensures NothingFits(GoIdle(s, ch.cpu), ch)
  {
    PickIsChoice(s.tasks, s.q, ch);
    hide Switching, Pick;
    var r := GoIdle(s, ch.cpu);
    forall i: nat | i < |r.q.lists| ensures Known(r.tasks, r.q.lists[i]) && NoneEligible(r.tasks, r.q.lists[i], i, ch) {
      assert NoneEligible(s.tasks, s.q.lists[i], i, ch);
    }
  }

  lemma SwitchedIdles(s: State, x: Call, deactivate: bool)
    requires Switching(s) && x.ch.cpu < |s.curr| && s.curr[x.ch.cpu].Some? && (s.curr[x.ch.cpu] == Some(s.idle[x.ch.cpu]) ==> !deactivate)
    ensures var d := Switched(s, x, deactivate);
            d.pass == Choice(true) && !ChoosesIdle(s.inj, true) && x.ch.cpu < |s.idle| && d.s.curr[x.ch.cpu] == Some(s.idle[x.ch.cpu]) ==>
              NothingFits(d.s, x.ch)
  {
    hide Switching, Choose, Leave, NothingFits;
    LeaveKeeps(s, x.ch.cpu, deactivate, x.e);
    ChooseHere(s, x, deactivate);
    var l := Leave(s, x.ch.cpu, deactivate, x.e);
    if !ChoosesIdle(l.inj, l.qnr != 0) { ChooseIdles(l, x.ch, Current(s, x.ch.cpu)); }
  }

  /** A pass that reaches the choice with work queued idles if the count forces it, and else only if nothing fits. */
  lemma ScheduleIdles(s: State, x: Call)
    requires Inv(s) && CallOk(s, x)
    ensures var d := Schedule(s, x);
            && d.s.idle == s.idle && |d.s.curr| == |s.curr| == |s.idle|
            && (d.pass == Choice(true) && Tick(s.inj, d.pass).1 == Idled(true) ==> d.s.curr[x.ch.cpu] == Some(s.idle[x.ch.cpu]))
            && (d.pass == Choice(true) && Tick(s.inj, d.pass).1 != Idled(true) && d.s.curr[x.ch.cpu] == Some(s.idle[x.ch.cpu]) ==>
                  NothingFits(d.s, x.ch))
  {
    hide Switching, Switched, SwapSticky, NothingFits;
    ScheduleKeeps(s, x);
    var cpu := x.ch.cpu;
    PreparedKeeps(s, x);
    Shape(s, cpu);
    var prev, r := Current(s, cpu), Prepared(s, x);
    Shape(r.0, cpu);
    if r.1 && x.flush {
    } else if prev == s.idle[cpu] {
      SwitchedIdles(r.0, x, false);
    } else {
      var t := r.0.tasks[prev];
      FlagKeeps(r.0, prev, t.sticky, x.deadline);
      var s2 := r.0.(tasks := r.0.tasks[prev := t.(deadline := x.deadline)]);
      assert t.(deadline := x.deadline) == t.(sticky := t.sticky, deadline := x.deadline);
      if cpu !in t.allowed || r.1 {
        SwitchedIdles(s2, x, r.1);
      } else if s2.qnr != 0 {
        SwapStickyKeeps(s2, cpu, prev);
        SwitchedIdles(SwapSticky(s2, cpu, prev), x, false);
      }
    }
  }

  // ---------------------------------------------------------------- the shortcut

  lemma {:induction false} AllEmpty(ls: seq<seq<Pid>>, i: nat)
    requires Length(ls) == 0 && i < |ls|
    ensures ls[i] == []
  {
    if i < |ls| - 1 { AllEmpty(ls[..|ls| - 1], i); }
  }

  /** A single eligible task is the choice. */
  lemma PickSingle(ts: map<Pid, Task>, q: Queues, ch: Chooser, p: Pid)
    requires QueuesOk(ts, q) && Queued(q, p) && p in ts && Eligible(ts[p], ch, ts[p].prio)
    requires forall i: nat {:trigger q.lists[i]} :: i < |q.lists| ==> forall y :: y in q.lists[i] ==> y == p
    ensures AllKnown(ts, q) && Pick(ts, q, ch, 0) == Some(p)
  {
    PickIsChoice(ts, q, ch);
    QueuedAt(ts, q, p);
    var i := ts[p].prio;
    var k: nat :| k < |q.lists[i]| && q.lists[i][k] == p;
    assert !NoneEligible(ts, q.lists[i], i, ch);
    var r := Pick(ts, q, ch, 0);
    if r.Some? {
      var a: nat, b: nat :| a < |q.lists| && Leads(ts, q.lists[a], a, b, ch) && q.lists[a][b] == r.value;
      assert q.lists[a][b] in q.lists[a];
    }
  }

  lemma AddThenRemove(q: Queues, p: Pid, i: nat)
    requires i < |q.lists| == |q.bits| && q.lists[i] == [] && !q.bits[i]
    ensures Remove(Add(q, p, i), p, i) == q
  {
    assert Without([p], p) == [];
    assert q.lists[i] + [p] == [p];
  }

  /** The state without the fields the shortcut does not restore: task flags and levels, and sticky marks. */
  ghost predicate SameRunqueue(s: State, r: State) {
    && r.q == s.q && r.qnr == s.qnr && r.nrRunning == s.nrRunning && r.curr == s.curr && r.idle == s.idle
    && r.idleMap == s.idleMap && r.idleCpus == s.idleCpus && r.inj == s.inj && r.tasks.Keys == s.tasks.Keys
  }

  /**
   With nothing else queued, an awake task that may stay on its CPU, and no idle due:
   queueing it and choosing again would run the same task and leave the same queues,
   counters and idle map as the shortcut, which does nothing.
   */
  lemma ShortcutAgrees(s: State, x: Call)
    requires Inv(s) && x.ch.cpu < |s.curr| && s.qnr == 0 && !ChoosesIdle(s.inj, true)
    requires var p := Current(s, x.ch.cpu); p != s.idle[x.ch.cpu] && p in s.tasks && x.ch.cpu in s.tasks[p].allowed
    ensures x.ch.cpu < |s.stuck| && (s.stuck[x.ch.cpu].Some? ==> s.stuck[x.ch.cpu].value in s.tasks)
    ensures var w := SwapSticky(s, x.ch.cpu, Current(s, x.ch.cpu));
            Switching(w) && w.curr == s.curr && w.idle == s.idle && SameRunqueue(s, Switched(w, x, false).s)
  {
    var cpu := x.ch.cpu;
    Shape(s, cpu);
    var p := Current(s, cpu);
    SwapStickyKeeps(s, cpu, p);
    SwapStickyTask(s, cpu, p);
    var w := SwapSticky(s, cpu, p);
    RequeueAgrees(w, x);
  }

  lemma SwapStickyTask(s: State, cpu: Cpu, p: Pid)
    requires p in s.tasks && cpu < |s.stuck| && (s.stuck[cpu].Some? ==> s.stuck[cpu].value in s.tasks)
    ensures var r := SwapSticky(s, cpu, p);
            r.tasks.Keys == s.tasks.Keys && r.tasks[p] == s.tasks[p].(sticky := r.tasks[p].sticky)
            && r == s.(tasks := r.tasks, stuck := r.stuck)
  {
  }

  /** The queues with one task added are rid of it again by running it. */
  lemma RequeueAgrees(s: State, x: Call)
    requires Switching(s) && x.ch.cpu < |s.curr| && s.curr[x.ch.cpu].Some? && s.qnr == 0 && !ChoosesIdle(s.inj, true)
    requires var p := Current(s, x.ch.cpu); p != s.idle[x.ch.cpu] && p in s.tasks && x.ch.cpu in s.tasks[p].allowed
    ensures SameRunqueue(s, Switched(s, x, false).s)
  {
    var cpu := x.ch.cpu;
    Shape(s, cpu);
    var p := Current(s, cpu);
    LeaveKeeps(s, cpu, false, x.e);
    var t := s.tasks[p].(onCpu := false);
    LevelBound(t, x.e);
    var u := Levelled(t, x.e);
    var l := Leave(s, cpu, false, x.e);
    EmptyQueues(s);
    AddThenRemove(s.q, p, u.prio);
    OnlyTask(s.q, p, u.prio);
    assert p in l.q.lists[u.prio];
    PickSingle(l.tasks, l.q, x.ch, p);
    hide Switching, QueuesOk, Pick, Levelled, Queued, Remove, Add, AllKnown;
  }

  lemma EmptyQueues(s: State)
    requires Switching(s) && s.qnr == 0
    ensures |s.q.lists| == |s.q.bits| == PRIO_LIMIT
    ensures forall i: nat {:trigger s.q.lists[i]} :: i < PRIO_LIMIT ==> s.q.lists[i] == [] && !s.q.bits[i]
  {
    forall i: nat | i < PRIO_LIMIT ensures s.q.lists[i] == [] && !s.q.bits[i] {
      AllEmpty(s.q.lists, i);
      assert ListOk(s.tasks, s.q.lists[i], s.q.bits[i], i);
    }
  }

  lemma OnlyTask(q: Queues, p: Pid, i: nat)
    requires i < |q.lists| == |q.bits| && forall j: nat {:trigger q.lists[j]} :: j < |q.lists| ==> q.lists[j] == []
    ensures var r := Add(q, p, i); forall j: nat {:trigger r.lists[j]} :: j < |r.lists| ==> forall y :: y in r.lists[j] ==> y == p
  {
    var r := Add(q, p, i);
    forall j: nat | j < |r.lists| ensures forall y :: y in r.lists[j] ==> y == p {
      if j != i { assert r.lists[j] == q.lists[j]; }
    }
  }

  // ---------------------------------------------------------------- every run

  /** The locked regions of the scheduler, and what a running task does to its own state. */
  datatype Op =
    | DoSchedule(x: Call)
    | DoWake(p: Pid, mask: set<nat>, sync: bool, e: Env)
    | DoFork(p: Pid, t: Task)
    | DoWakeNew(p: Pid, cpu: Cpu, preempt: bool, e: Env)
    | DoSetPrio(p: Pid, prio: nat, e: Env)
    | DoSetNice(p: Pid, nice: int, deadline: nat, e: Env)
    | DoSetScheduler(p: Pid, policy: Policy, rt: RtPriority, boost: Option<nat>, e: Env)
    | DoAllow(p: Pid, mask: set<Cpu>)
    | DoSetState(p: Pid, bits: set<nat>)

  ghost predicate Enabled(s: State, op: Op)
    requires Inv(s)
  {
    match op
    case DoSchedule(x) => CallOk(s, x)
    case DoWake(p, _, _, _) => p in s.tasks
    case DoFork(p, t) => p !in s.tasks && !t.onCpu
    case DoWakeNew(p, _, _, _) => p in s.tasks && !Queued(s.q, p) && !s.tasks[p].onCpu && !IsIdle(s.idle, p)
    case DoSetState(p, _) => p in s.tasks && s.tasks[p].onCpu && !IsIdle(s.idle, p)
    case _ => op.p in s.tasks && !IsIdle(s.idle, op.p)
  }

  ghost function Next(s: State, op: Op): State
    requires Inv(s) && Enabled(s, op)
  {
    match op
    case DoSchedule(x) => Schedule(s, x).s
    case DoWake(p, mask, sync, e) => Wake(s, p, mask, sync, e).0
    case DoFork(p, t) => s.(tasks := s.tasks[p := t])
    case DoWakeNew(p, cpu, preempt, e) => WakeNew(s, p, cpu, preempt, e)
    case DoSetPrio(p, prio, e) => SetPrio(s, p, prio, e)
    case DoSetNice(p, nice, deadline, e) => SetNice(s, p, nice, deadline, e)
    case DoSetScheduler(p, policy, rt, boost, e) => SetScheduler(s, p, policy, rt, boost, e)
    case DoAllow(p, mask) => s.(tasks := s.tasks[p := s.tasks[p].(allowed := mask)])
    case DoSetState(p, bits) => s.(tasks := s.tasks[p := s.tasks[p].(state := bits)])
  }

  /** The passes through schedule() that an operation makes. */
  ghost function Passes(s: State, op: Op): seq<Pass>
    requires Inv(s) && Enabled(s, op)
  {
    if op.DoSchedule? then [Schedule(s, op.x).pass] else []
  }

  lemma ForkKeeps(s: State, p: Pid, t: Task)
    requires Switching(s) && p !in s.tasks && !t.onCpu
    ensures Switching(s.(tasks := s.tasks[p := t]))
  {
    hide QueuesOk, RunOk, Busy, Length, Queued;
    QueuedAt(s.tasks, s.q, p);
    FreshNotIdle(s, p);
    Touched(s, p, t);
  }

  lemma FreshNotIdle(s: State, p: Pid)
    requires Switching(s) && p !in s.tasks
    ensures !IsIdle(s.idle, p)
  {
    if IsIdle(s.idle, p) { IdleRuns(s, p); }
  }

  /** Every step keeps the runqueue consistent; only schedule() moves the injection counter. */
  lemma NextKeeps(s: State, op: Op)
    requires Inv(s) && Enabled(s, op)
    ensures Inv(Next(s, op)) && |Next(s, op).curr| == |s.curr|
    ensures Next(s, op).inj == if op.DoSchedule? then Tick(s.inj, Schedule(s, op.x).pass).0 else s.inj
  {
    hide Switching, Queued, Schedule, SetNice, SetPrio, SetScheduler, Wake, WakeNew, IsIdle;
    if !op.DoSchedule? { InjUntouched(s, op); }
    match op
    case DoSchedule(x) => ScheduleKeeps(s, x);
    case DoWake(p, mask, sync, e) => WakeKeeps(s, p, mask, sync, e);
    case DoFork(p, t) => ForkKeeps(s, p, t);
    case DoWakeNew(p, cpu, preempt, e) => WakeNewKeeps(s, p, cpu, preempt, e);
    case DoSetPrio(p, prio, e) => SetPrioKeeps(s, p, prio, e);
    case DoSetNice(p, nice, deadline, e) => SetNiceKeeps(s, p, nice, deadline, e);
    case DoSetScheduler(p, policy, rt, boost, e) => SetSchedulerKeeps(s, p, policy, rt, boost, e);
    case DoAllow(p, mask) => OtherKeeps(s, p, mask, s.tasks[p].state);
    case DoSetState(p, bits) => OtherKeeps(s, p, s.tasks[p].allowed, bits);
  }

  lemma InjUntouched(s: State, op: Op)
    requires Inv(s) && Enabled(s, op) && !op.DoSchedule?
    ensures Next(s, op).inj == s.inj
  {
  }

  lemma OtherKeeps(s: State, p: Pid, mask: set<Cpu>, bits: set<nat>)
    requires Switching(s) && p in s.tasks && !IsIdle(s.idle, p)
    ensures Switching(s.(tasks := s.tasks[p := s.tasks[p].(allowed := mask, state := bits)]))
  {
    QueuedAt(s.tasks, s.q, p);
    OnCpuFacts(s, p);
    Touched(s, p, s.tasks[p].(allowed := mask, state := bits));
  }

  /** The state after a run; None if some operation of it is not possible where it stands. */
  ghost function Run(s: State, ops: seq<Op>): (r: Option<State>)
    requires Inv(s)
    ensures r.Some? ==> Inv(r.value)
  {
    if ops == [] then Some(s)
    else
      var r := Run(s, ops[..|ops| - 1]);
      if r.Some? && Enabled(r.value, ops[|ops| - 1]) then
        NextKeeps(r.value, ops[|ops| - 1]);
        Some(Next(r.value, ops[|ops| - 1]))
      else None
  }

  ghost function RunPasses(s: State, ops: seq<Op>): seq<Pass>
    requires Inv(s) && Run(s, ops).Some?
  {
    if ops == [] then [] else RunPasses(s, ops[..|ops| - 1]) + Passes(Run(s, ops[..|ops| - 1]).value, ops[|ops| - 1])
  }

  /** Pid `c` is the idle task of CPU `c`, and it runs. */
  function BootTask(c: Cpu): Task { Task(PRIO_LIMIT, NORMAL_PRIO, Normal, 0, MAX_RT_PRIO + 20, {c}, c, true, false, 0, {}) }

  function BootState(n: nat): State {
    State(map c: nat | c < n :: BootTask(c), Queues(seq(PRIO_LIMIT, _ => []), seq(PRIO_LIMIT, _ => false)), 0, 0, {}, false,
          seq(n, (i: nat) => Some(i)), seq(n, (i: nat) => i), seq(n, _ => None), Boot)
  }

  lemma {:induction false} NoLength(ls: seq<seq<Pid>>)
    requires forall i :: 0 <= i < |ls| ==> ls[i] == []
    ensures Length(ls) == 0
  {
    if ls != [] { NoLength(ls[..|ls| - 1]); }
  }

  lemma {:induction false} NoneBusy(curr: seq<Option<Pid>>, idle: seq<Pid>)
    requires |idle| == |curr| && forall c :: 0 <= c < |curr| ==> curr[c] == Some(idle[c])
    ensures Busy(curr, idle) == 0
  {
    if curr != [] { NoneBusy(curr[..|curr| - 1], idle[..|idle| - 1]); }
  }

  lemma BootOk(n: nat)
    ensures Inv(BootState(n)) && BootState(n).inj == Boot
  {
    var s := BootState(n);
    NoLength(s.q.lists);
    NoneBusy(s.curr, s.idle);
  }

  /**
   From boot on, every run keeps the runqueue consistent, and the injection counter
   is a function of the passes made so far.
   */
  lemma {:induction false} RunKeeps(n: nat, ops: seq<Op>)
    requires Inv(BootState(n)) && Run(BootState(n), ops).Some?
    ensures Inv(Run(BootState(n), ops).value)
    ensures Run(BootState(n), ops).value.inj == After(RunPasses(BootState(n), ops))
  {
    hide Inv, Next, Schedule, BootState, Enabled;
    BootOk(n);
    if ops != [] {
      var m := |ops| - 1;
      RunKeeps(n, ops[..m]);
      var s, op := Run(BootState(n), ops[..m]).value, ops[m];
      NextKeeps(s, op);
      var ps := RunPasses(BootState(n), ops);
      if op.DoSchedule? {
        assert ps[..|ps| - 1] == RunPasses(BootState(n), ops[..m]);
      } else {
        assert ps == RunPasses(BootState(n), ops[..m]);
      }
    }
  }

  /**
   Idle injection over runs from boot.  When the last step is a pass through schedule() that
   reaches the choice with work queued, its CPU goes idle although some queued task could run
   there only if the passes since the last idle choice have reached the threshold, and then it does.
   */
  lemma InjectedExactly(n: nat, ops: seq<Op>, x: Call)
    requires Inv(BootState(n)) && Run(BootState(n), ops + [DoSchedule(x)]).Some?
    ensures Run(BootState(n), ops).Some? && Enabled(Run(BootState(n), ops).value, DoSchedule(x))
    ensures var s, ps := Run(BootState(n), ops).value, RunPasses(BootState(n), ops);
            var s' := Run(BootState(n), ops + [DoSchedule(x)]).value;
            var since := |ps| + 1 - LastReset(ps);
            && x.ch.cpu < |s'.curr| == |s'.idle| && CallOk(s, x)
            && (Schedule(s, x).pass == Choice(true) ==>
                  if since == (if LastReset(ps) == 0 then 2000 else 15)
                  then s'.curr[x.ch.cpu] == Some(s'.idle[x.ch.cpu])
                  else s'.curr[x.ch.cpu] == Some(s'.idle[x.ch.cpu]) ==> NothingFits(s', x.ch))
  {
    hide Inv, Schedule, BootState, NothingFits, CallOk;
    var all := ops + [DoSchedule(x)];
    assert all[..|all| - 1] == ops && all[|all| - 1] == DoSchedule(x);
    RunKeeps(n, ops);
    var s := Run(BootState(n), ops).value;
    AfterCounts(RunPasses(BootState(n), ops));
    ScheduleIdles(s, x);
    CallShape(s, x);
  }

  lemma CallShape(s: State, x: Call)
    requires CallOk(s, x)
    ensures x.ch.cpu < |s.curr|
  {
  }

  /** What the invariant means. */
  lemma InvMeans(s: State, i: nat, j: nat, p: Pid, c: Cpu, d: Cpu)
    requires Inv(s) && i < PRIO_LIMIT && j < PRIO_LIMIT && c < |s.curr| && d < |s.curr|
    ensures |s.q.lists| == |s.q.bits| == PRIO_LIMIT && (s.q.bits[i] <==> s.q.lists[i] != [])
    ensures p in s.q.lists[i] ==> p in s.tasks && s.tasks[p].prio == i
    ensures p in s.q.lists[i] && p in s.q.lists[j] ==> i == j
    ensures p in s.q.lists[i] ==> s.curr[c] != Some(p)
    ensures c != d ==> s.curr[c] != s.curr[d]
    ensures s.qnr == Length(s.q.lists) && |s.idle| == |s.curr| && s.nrRunning == s.qnr + Busy(s.curr, s.idle)
    ensures c in s.idleMap ==> s.curr[c] == Some(s.idle[c])
    ensures s.idleCpus <==> s.idleMap != {}
  {
    assert ListOk(s.tasks, s.q.lists[i], s.q.bits[i], i);
    assert ListOk(s.tasks, s.q.lists[j], s.q.bits[j], j);
    if p in s.q.lists[i] {
      assert Waiting(s.tasks, p, i);
      NotCurrent(s.tasks, s.curr, s.idle, p);
      if p in s.q.lists[j] { assert Waiting(s.tasks, p, j); }
    }
    assert CpuOk(s.tasks, s.curr[c], s.idle[c], c);
    assert CpuOk(s.tasks, s.curr[d], s.idle[d], d);
  }

  // ---------------------------------------------------------------- the global runqueue object

  class GlobalRq {
    var tasks: map<Pid, Task>
    var lists: seq<seq<Pid>>
    var bits: seq<bool>
    var qnr: int
    var nrRunning: int
    var idleMap: set<Cpu>
    var idleCpus: bool
    var curr: seq<Option<Pid>>
    var idle: seq<Pid>
    var stuck: seq<Option<Pid>>
    var inj: Counter

    ghost function View(): State
      reads this
    {
      State(tasks, Queues(lists, bits), qnr, nrRunning, idleMap, idleCpus, curr, idle, stuck, inj)
    }

    ghost predicate Valid()
      reads this
    {
      Inv(View())
    }

    /** All CPUs run their idle task and nothing is queued. */
    constructor (n: nat)
      ensures Valid() && View() == BootState(n)
    {
      BootOk(n);
      var s := BootState(n);
      tasks, lists, bits, qnr, nrRunning := s.tasks, s.q.lists, s.q.bits, s.qnr, s.nrRunning;
      idleMap, idleCpus, curr, idle, stuck, inj := s.idleMap, s.idleCpus, s.curr, s.idle, s.stuck, s.inj;
    }

    /** dequeue_task. */
    method DequeueTask(p: Pid)
      requires QueuesOk(tasks, View().q) && Queued(View().q, p)
      modifies `lists, `bits
      ensures QueuesOk(tasks, View().q) && !Queued(View().q, p) && Length(lists) == old(Length(lists)) - 1
      ensures p in tasks && tasks[p].prio < |old(lists)| == |old(bits)|
      ensures View() == old(View()).(q := Remove(old(View()).q, p, tasks[p].prio))
    {
      RemoveOk(tasks, View().q, p, tasks[p]);
      assert tasks[p := tasks[p]] == tasks;
      hide QueuesOk, Queued, Length;
      Levels(tasks, View().q);
      var i := tasks[p].prio;
      lists := lists[i := Without(lists[i], p)];
      if lists[i] == [] { bits := bits[i := false]; }
    }

    /** enqueue_task. */
    method EnqueueTask(p: Pid, e: Env)
      requires QueuesOk(tasks, View().q) && p in tasks && !Queued(View().q, p) && tasks[p].normalPrio == NormalPrio(tasks[p])
      modifies `tasks, `lists, `bits
      ensures Queued(View().q, p) && Length(lists) == old(Length(lists)) + 1
      ensures QueuesOk(tasks, View().q) <==> !old(tasks)[p].onCpu
      ensures Levelled(old(tasks)[p], e).prio < PRIO_LIMIT == |old(lists)| == |old(bits)|
      ensures var t := Levelled(old(tasks)[p], e);
              View() == old(View()).(tasks := old(tasks)[p := t], q := Add(old(View()).q, p, t.prio))
    {
      hide QueuesOk, Queued, Length;
      Levels(tasks, View().q);
      AddExactly(tasks, View().q, p, e);
      if !RtPrio(tasks[p].prio) {
        if (tasks[p].policy == IdlePrio && e.idleOk) || (tasks[p].policy == Iso && e.isoOk) {
          tasks := tasks[p := tasks[p].(prio := tasks[p].normalPrio)];
        } else {
          tasks := tasks[p := tasks[p].(prio := NORMAL_PRIO)];
        }
      }
      assert tasks == old(tasks)[p := Levelled(old(tasks)[p], e)];
      var i := tasks[p].prio;
      bits := bits[i := true];
      lists := lists[i := lists[i] + [p]];
    }

    /** activate_task. */
    method ActivateTask(p: Pid, e: Env)
      requires Switching(View()) && p in tasks && !Queued(View().q, p) && !IsIdle(idle, p)
      modifies this
      ensures Switching(View()) <==> !old(tasks)[p].onCpu
      ensures |old(lists)| == |old(bits)| == PRIO_LIMIT && View() == Activate(old(View()), p, e) && p in tasks && Queued(View().q, p)
    {
      hide Switching, Queued, QueuesOk, Length;
      ActivateExactly(View(), p, e);
      tasks := tasks[p := Effective(tasks[p])];
      EnqueueTask(p, e);
      assert tasks == old(tasks)[p := Levelled(Effective(old(tasks)[p]), e)];
      nrRunning := nrRunning + 1;
      qnr := qnr + 1;
    }

    /** try_to_wake_up. */
    method TryToWakeUp(p: Pid, mask: set<nat>, sync: bool, e: Env) returns (ok: bool)
      requires Valid() && p in tasks
      modifies this
      ensures Valid() && |old(lists)| == |old(bits)| == PRIO_LIMIT
      ensures View() == Wake(old(View()), p, mask, sync, e).0 && ok == Wake(old(View()), p, mask, sync, e).1
    {
      hide Switching, Activate, Woken, Queued, IsIdle;
      WakeHere(View(), p, mask, sync, e);
      ok := false;
      if tasks[p].state * mask == {} { return; }
      var preempt := false;
      if !Queued(Queues(lists, bits), p) && !tasks[p].onCpu {
        ActivateTask(p, e);
        preempt := !sync || (idleCpus && tasks[p].allowed * idleMap != {});
        ok := true;
      }
      tasks := tasks[p := Woken(tasks[p], preempt)];
    }

    /** The way all priority changes go: off the queue, change, and back on it. */
    method ChangeTask(p: Pid, t: Task, preempt: bool, e: Env)
      requires Switching(View()) && p in tasks && !IsIdle(idle, p) && t.onCpu == tasks[p].onCpu && t.cpu == tasks[p].cpu
      requires Queued(View().q, p) || t.onCpu ==> t.normalPrio == NormalPrio(t)
      modifies this
      ensures Switching(View()) && (Queued(View().q, p) <==> old(Queued(View().q, p)))
      ensures QueuesOk(old(tasks), old(View()).q) && View() == Change(old(View()), p, t, preempt, e)
    {
      hide Switching, QueuesOk, Queued, Levelled, NormalPrio, Add, Length, IsIdle;
      ghost var s := View();
      ChangeKeeps(s, p, t, preempt, e);
      ChangeShape(s, p, t);
      var queued := Queued(Queues(lists, bits), p);
      if queued { DequeueTask(p); }
      UnqueuedOk(tasks, View().q, p, t);
      tasks := tasks[p := t];
      if queued {
        EnqueueTask(p, e);
        if preempt { tasks := tasks[p := tasks[p].(sticky := false)]; }
        assert tasks == s.tasks[p := tasks[p]];
      }
    }

    /** rt_mutex_setprio. */
    method RtMutexSetprio(p: Pid, prio: nat, e: Env)
      requires Valid() && p in tasks && !IsIdle(idle, p)
      modifies this
      ensures Valid() && QueuesOk(old(tasks), old(View()).q) && View() == SetPrio(old(View()), p, prio, e)
    {
      hide Switching, QueuesOk, Queued, Change, IsIdle, NormalPrio;
      SetPrioHere(View(), p, prio, e);
      SameNormal(tasks[p], tasks[p].(prio := prio));
      ChangeTask(p, tasks[p].(prio := prio), true, e);
    }

    /** set_user_nice. */
    method SetUserNice(p: Pid, nice: int, deadline: nat, e: Env)
      requires Valid() && p in tasks && !IsIdle(idle, p)
      modifies this
      ensures Valid() && QueuesOk(old(tasks), old(View()).q) && View() == SetNice(old(View()), p, nice, deadline, e)
    {
      hide Switching, QueuesOk, Queued, Change, IsIdle;
      SetNiceHere(View(), p, nice, deadline, e);
      var level := MAX_RT_PRIO + nice + 20;
      var t := tasks[p];
      if t.staticPrio == level || nice < -20 || nice > 19 { return; }
      if t.policy == Fifo || t.policy == RoundRobin {
        tasks := tasks[p := t.(staticPrio := level)];
        return;
      }
      ChangeTask(p, Effective(t.(deadline := deadline, staticPrio := level)), level < t.staticPrio, e);
    }

    /** The locked part of __sched_setscheduler, with __setscheduler. */
    method SetSchedulerLocked(p: Pid, policy: Policy, rt: RtPriority, boost: Option<nat>, e: Env)
      requires Valid() && p in tasks && !IsIdle(idle, p)
      modifies this
      ensures Valid() && QueuesOk(old(tasks), old(View()).q) && View() == SetScheduler(old(View()), p, policy, rt, boost, e)
    {
      hide Switching, QueuesOk, Queued, Change, IsIdle;
      SetSchedulerHere(View(), p, policy, rt, boost, e);
      var t := tasks[p];
      if policy == t.policy && (!(policy == Fifo || policy == RoundRobin) || rt == t.rtPriority) { return; }
      t := t.(policy := policy, rtPriority := rt);
      t := t.(normalPrio := NormalPrio(t));
      t := t.(prio := if boost.Some? && boost.value < t.normalPrio then boost.value else t.normalPrio);
      ChangeTask(p, t, true, e);
    }

    /** wake_up_new_task. */
    method WakeUpNewTask(p: Pid, cpu: Cpu, preempt: bool, e: Env)
      requires Valid() && p in tasks && !Queued(View().q, p) && !tasks[p].onCpu && !IsIdle(idle, p)
      modifies this
      ensures Valid() && |old(lists)| == |old(bits)| == PRIO_LIMIT && View() == WakeNew(old(View()), p, cpu, preempt, e)
    {
      hide Switching, Queued, Activate, IsIdle;
      WakeNewHere(View(), p, cpu, preempt, e);
      tasks := tasks[p := tasks[p].(state := {}, cpu := cpu)];
      ActivateTask(p, e);
      tasks := tasks[p := Woken(tasks[p], preempt)];
    }

    /** try_to_wake_up_local. */
    method TryToWakeUpLocal(p: Pid, e: Env)
      requires Switching(View()) && p in tasks
      modifies this
      ensures Switching(View()) <==> !old(tasks)[p].onCpu || old(tasks)[p].state * TASK_NORMAL == {}
      ensures |old(lists)| == |old(bits)| == PRIO_LIMIT && View() == WakeLocal(old(View()), p, e)
    {
      hide Switching, Activate, Queued, IsIdle;
      WakeLocalExact(View(), p, e);
      WakeLocalHere(View(), p);
      if tasks[p].state * TASK_NORMAL == {} { return; }
      var woken := false;
      if !Queued(Queues(lists, bits), p) {
        ActivateTask(p, e);
        woken := true;
      }
      tasks := tasks[p := Woken(tasks[p], woken)];
    }

    /** The first part of schedule(): count the pass and settle whether the current task goes to sleep. */
    method Prepare(x: Call) returns (deactivate: bool)
      requires Switching(View()) && x.ch.cpu < |curr| && curr[x.ch.cpu].Some? && curr[x.ch.cpu].value in tasks
      requires |lists| == |bits| == PRIO_LIMIT && (x.wakeup.Some? ==> x.wakeup.value in tasks)
      modifies this
      ensures View() == Prepared(old(View()), x).0 && deactivate == Prepared(old(View()), x).1
    {
      hide WakeLocal, Switching;
      CountedKeeps(View());
      var prev := curr[x.ch.cpu].value;
      inj := Count(inj);
      deactivate := false;
      if tasks[prev].state != {} && !x.preemptActive {
        if x.signal {
          tasks := tasks[prev := tasks[prev].(state := {})];
        } else {
          deactivate := true;
          if x.wakeup.Some? {
            if x.wakeup.value == prev { deactivate := false; } else { TryToWakeUpLocal(x.wakeup.value, x.wakeEnv); }
          }
        }
      }
    }

    /** swap_sticky. */
    method StickTask(cpu: Cpu, p: Pid)
      requires Switching(View()) && p in tasks && cpu < |curr|
      modifies this
      ensures Switching(View()) && cpu < |old(stuck)| && (old(stuck)[cpu].Some? ==> old(stuck)[cpu].value in old(tasks))
      ensures curr == old(curr) && idle == old(idle) && lists == old(lists) && View() == SwapSticky(old(View()), cpu, p)
    {
      hide Switching;
      SwapStickyKeeps(View(), cpu, p);
      if stuck[cpu].Some? {
        var q := stuck[cpu].value;
        if q == p {
          tasks := tasks[p := tasks[p].(sticky := true)];
          return;
        }
        if tasks[q].sticky { tasks := tasks[q := tasks[q].(sticky := false)]; }
        assert tasks == old(tasks)[q := old(tasks)[q].(sticky := false)];
      }
      if RtPrio(tasks[p].prio) {
        stuck := stuck[cpu := None];
      } else {
        tasks := tasks[p := tasks[p].(sticky := true)];
        stuck := stuck[cpu := Some(p)];
      }
    }

    /** return_task. */
    method ReturnTask(cpu: Cpu, deactivate: bool, e: Env)
      requires Switching(View()) && cpu < |curr| && curr[cpu].Some? && |idle| == |curr| && (curr[cpu] == Some(idle[cpu]) ==> !deactivate)
      modifies this
      ensures Switching(View()) && curr == old(curr)[cpu := None] && LeavesFrom(old(View()), cpu) && View() == Leave(old(View()), cpu, deactivate, e)
    {
      hide Switching, Levelled, NormalPrio, Add, Queued, QueuesOk, Length, IsIdle;
      LeaveKeeps(View(), cpu, deactivate, e);
      Shape(View(), cpu);
      var p := curr[cpu].value;
      UnqueuedHere(View(), p, tasks[p].(onCpu := false));
      SameNormal(tasks[p], tasks[p].(onCpu := false));
      curr := curr[cpu := None];
      tasks := tasks[p := tasks[p].(onCpu := false)];
      if p != idle[cpu] {
        if deactivate {
          nrRunning := nrRunning - 1;
          tasks := tasks[p := tasks[p].(sticky := false)];
        } else {
          qnr := qnr + 1;
          EnqueueTask(p, e);
        }
        assert tasks == old(tasks)[p := tasks[p]];
      }
    }

    /** The switch to the idle task. */
    method SwitchToIdle(cpu: Cpu)
      requires cpu < |curr| && cpu < |idle| && idle[cpu] in tasks
      modifies this
      ensures View() == GoIdle(old(View()), cpu)
    {
      idleMap, idleCpus := idleMap + {cpu}, true;
      tasks := tasks[idle[cpu] := tasks[idle[cpu]].(onCpu := true)];
      curr := curr[cpu := Some(idle[cpu])];
    }

    /** take_task and the switch to it. */
    method SwitchToTask(cpu: Cpu, p: Pid)
      requires Switching(View()) && cpu < |curr| && curr[cpu] == None && Queued(View().q, p)
      modifies this
      ensures Switching(View()) && p in old(tasks) && old(tasks)[p].prio < |old(lists)| == |old(bits)|
      ensures View() == RunTask(old(View()), cpu, p)
    {
      hide Switching, QueuesOk, Queued, Length, Remove;
      RunTaskKeeps(View(), cpu, p);
      QueuesHere(View());
      DequeueTask(p);
      tasks := tasks[p := tasks[p].(cpu := cpu, sticky := false)];
      qnr := qnr - 1;
      idleMap := idleMap - {cpu};
      if idleMap == {} { idleCpus := false; }
      tasks := tasks[p := tasks[p].(onCpu := true)];
      assert tasks == old(tasks)[p := old(tasks)[p].(cpu := cpu, sticky := false, onCpu := true)];
      curr := curr[cpu := Some(p)];
    }

    /** The choice in schedule() and the switch. */
    method ChooseNext(ch: Chooser, prev: Pid)
      requires Switching(View()) && ch.cpu < |curr| && curr[ch.cpu] == None && prev in tasks
      modifies this
      ensures View() == Choose(old(View()), ch, prev)
    {
      hide Switching, Pick, Remove, Queued, QueuesOk, GoIdle, AllKnown;
      ghost var s := View();
      var cpu := ch.cpu;
      Shape(s, cpu);
      PickHere(s, ch);
      if qnr == 0 || inj.passes == inj.Threshold() {
        SwitchToIdle(cpu);
        inj := Counter(0, false);
      } else {
        var r := Earliest(ch);
        if r == None {
          SwitchToIdle(cpu);
        } else {
          RunTaskKeeps(s, cpu, r.value);
          SwitchToTask(cpu, r.value);
          if r.value != prev && RtPrio(tasks[r.value].prio) {
            tasks := tasks[prev := tasks[prev].(sticky := false)];
            stuck := stuck[cpu := None];
          }
        }
      }
    }

    /** One pass of schedule(), between taking and releasing the lock. */
    method SchedulePass(x: Call) returns (pass: Pass)
      requires Valid() && CallOk(View(), x)
      modifies this
      ensures Valid() && View() == Schedule(old(View()), x).s && pass == Schedule(old(View()), x).pass
    {
      hide Switching, Prepared, SwapSticky, Switched, NormalPrio, Queued, QueuesOk, IsIdle;
      ghost var s := View();
      ScheduleKeeps(s, x);
      PreparedKeeps(s, x);
      var cpu := x.ch.cpu;
      Shape(s, cpu);
      var prev := curr[cpu].value;
      var deactivate := Prepare(x);
      Shape(View(), cpu);
      if deactivate && x.flush { return Early; }
      if prev != idle[cpu] {
        StoreDeadline(prev, x.deadline);
        if cpu in tasks[prev].allowed && !deactivate {
          if qnr == 0 { return Early; }
          StickTask(cpu, prev);
        }
      }
      pass := Depart(x, deactivate, prev);
    }

    method StoreDeadline(p: Pid, deadline: nat)
      requires Switching(View()) && p in tasks
      modifies `tasks
      ensures Switching(View()) && tasks == old(tasks)[p := old(tasks)[p].(deadline := deadline)]
    {
      hide Switching;
      FlagKeeps(View(), p, tasks[p].sticky, deadline);
      assert tasks[p].(deadline := deadline) == tasks[p].(sticky := tasks[p].sticky, deadline := deadline);
      tasks := tasks[p := tasks[p].(deadline := deadline)];
    }

    /** The second half of a pass that does not leave early. */
    method Depart(x: Call, deactivate: bool, prev: Pid) returns (pass: Pass)
      requires Switching(View()) && x.ch.cpu < |curr| && curr[x.ch.cpu] == Some(prev)
      requires |idle| == |curr| && (prev == idle[x.ch.cpu] ==> !deactivate)
      modifies this
      ensures View() == Switched(old(View()), x, deactivate).s && pass == Switched(old(View()), x, deactivate).pass
    {
      hide Switching, Leave, Choose, NormalPrio, LeavesFrom;
      ChooseHere(View(), x, deactivate);
      LeaveKeeps(View(), x.ch.cpu, deactivate, x.e);
      ReturnTask(x.ch.cpu, deactivate, x.e);
      pass := Choice(qnr != 0);
      ChooseNext(x.ch, prev);
    }

    method Earliest(ch: Chooser) returns (r: Option<Pid>)
      requires Switching(View())
      ensures AllKnown(tasks, Queues(lists, bits)) && |lists| == |bits| && r == Pick(tasks, Queues(lists, bits), ch, 0)
    {
      r := EarliestDeadlineTask(ch);
    }

    /** earliest_deadline_task, up to taking one: find_next_bit, then a scan of the list found. */
    method EarliestDeadlineTask(ch: Chooser) returns (r: Option<Pid>)
      requires QueuesOk(tasks, Queues(lists, bits))
      ensures AllKnown(tasks, Queues(lists, bits)) && r == Pick(tasks, Queues(lists, bits), ch, 0)
      ensures IsChoice(tasks, Queues(lists, bits), ch, r)
    {
      ghost var q := Queues(lists, bits);
      PickIsChoice(tasks, q, ch);
      hide QueuesOk, IsChoice, Eligible, BestIn;
      var i := 0;
      while i < |lists|
        invariant 0 <= i <= |lists| && Pick(tasks, q, ch, 0) == Pick(tasks, q, ch, i)
      {
        if bits[i] {
          var b := ScanList(lists[i], ch, i);
          if b.Some? { return Some(lists[i][b.value]); }
        }
        i := i + 1;
      }
      return None;
    }

    /** The scan of one list. */
    method ScanList(l: seq<Pid>, ch: Chooser, i: nat) returns (b: Option<nat>)
      requires Known(tasks, l)
      ensures b == BestIn(tasks, l, |l|, ch, i)
    {
      b := None;
      var n, best := 0, 0;
      while n < |l|
        invariant 0 <= n <= |l| && b == BestIn(tasks, l, n, ch, i)
        invariant b.Some? ==> best == Due(tasks[l[b.value]], ch)
      {
        var t := tasks[l[n]];
        if ch.cpu in t.allowed {
          if RtPrio(i) {
            if b == None { b, best := Some(n), Due(t, ch); }
          } else if !(Foreign(t, ch) && ch.scaling) {
            var due := if Foreign(t, ch) then t.deadline + ch.bias else t.deadline;
            if b == None || due < best { b, best := Some(n), due; }
          }
        }
        n := n + 1;
      }
    }
  }

  lemma WakeHere(s: State, p: Pid, mask: set<nat>, sync: bool, e: Env)
    requires Inv(s) && p in s.tasks
    ensures |s.q.lists| == |s.q.bits| == PRIO_LIMIT && Inv(Wake(s, p, mask, sync, e).0)
    ensures s.tasks[p].state * mask != {} ==> !IsIdle(s.idle, p)
  {
    WakeKeeps(s, p, mask, sync, e);
    if IsIdle(s.idle, p) { IdleRuns(s, p); }
  }

  lemma ChangeShape(s: State, p: Pid, t: Task)
    requires Switching(s) && p in s.tasks && t.onCpu == s.tasks[p].onCpu
    ensures QueuesOk(s.tasks, s.q) && |s.q.lists| == |s.q.bits| == PRIO_LIMIT
    ensures Queued(s.q, p) ==> s.tasks[p].prio < PRIO_LIMIT && !t.onCpu
  {
    QueuedAt(s.tasks, s.q, p);
  }

  lemma QueuesHere(s: State)
    requires Switching(s)
    ensures QueuesOk(s.tasks, s.q)
  {
  }

  lemma UnqueuedHere(s: State, p: Pid, t: Task)
    requires Switching(s) && !Queued(s.q, p)
    ensures QueuesOk(s.tasks[p := t], s.q)
  {
    UnqueuedOk(s.tasks, s.q, p, t);
  }

  lemma UnqueuedOk(ts: map<Pid, Task>, q: Queues, p: Pid, t: Task)
    requires QueuesOk(ts, q)
    ensures !Queued(q, p) ==> QueuesOk(ts[p := t], q)
  {
    if !Queued(q, p) { TouchOk(ts, q, p, t); }
  }

  lemma WakeLocalHere(s: State, p: Pid)
    requires Switching(s) && p in s.tasks
    ensures |s.q.lists| == |s.q.bits| == PRIO_LIMIT && (s.tasks[p].state != {} ==> !IsIdle(s.idle, p))
  {
    if IsIdle(s.idle, p) { IdleRuns(s, p); }
  }

  lemma SetNiceHere(s: State, p: Pid, nice: int, deadline: nat, e: Env)
    requires Inv(s) && p in s.tasks && !IsIdle(s.idle, p)
    ensures QueuesOk(s.tasks, s.q) && Inv(SetNice(s, p, nice, deadline, e))
  {
    SetNiceKeeps(s, p, nice, deadline, e);
  }

  lemma SetSchedulerHere(s: State, p: Pid, policy: Policy, rt: RtPriority, boost: Option<nat>, e: Env)
    requires Inv(s) && p in s.tasks && !IsIdle(s.idle, p)
    ensures QueuesOk(s.tasks, s.q) && Inv(SetScheduler(s, p, policy, rt, boost, e))
  {
    SetSchedulerKeeps(s, p, policy, rt, boost, e);
  }

  lemma WakeNewHere(s: State, p: Pid, cpu: Cpu, preempt: bool, e: Env)
    requires Inv(s) && p in s.tasks && !Queued(s.q, p) && !s.tasks[p].onCpu && !IsIdle(s.idle, p)
    ensures |s.q.lists| == |s.q.bits| == PRIO_LIMIT && Inv(WakeNew(s, p, cpu, preempt, e))
    ensures Switching(s.(tasks := s.tasks[p := s.tasks[p].(state := {}, cpu := cpu)]))
  {
    WakeNewKeeps(s, p, cpu, preempt, e);
    Touched(s, p, s.tasks[p].(state := {}, cpu := cpu));
  }

  lemma SetPrioHere(s: State, p: Pid, prio: nat, e: Env)
    requires Inv(s) && p in s.tasks && !IsIdle(s.idle, p)
    ensures |s.q.lists| == |s.q.bits| == PRIO_LIMIT && QueuesOk(s.tasks, s.q) && Inv(SetPrio(s, p, prio, e))
    ensures Queued(s.q, p) || s.tasks[p].onCpu ==> s.tasks[p].normalPrio == NormalPrio(s.tasks[p])
  {
    SetPrioKeeps(s, p, prio, e);
    QueuedAt(s.tasks, s.q, p);
    OnCpuFacts(s, p);
  }
}
