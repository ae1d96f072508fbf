// The scheduler (kernel_sched.c) as an interleaved multicore state machine.
//
// Each section that runs with sched_spinlock held is one atomic step of one core;
// what happens between two such sections (moving CURTHREAD, saving and loading a
// context, updating active_threads) is a step of its own, so every other core may
// act in between.  `State` is the scheduler's memory at one moment, `Apply` is what a
// step does to it, and class `Kernel` performs the steps in place.

module Scheduler {
  import opened Lists

  // One incarnation of a TCB: a freed TCB's number is not given out again.
  type Tid = nat
  type Core = nat

  datatype ThreadState = INIT | READY | RUNNING | STOPPED | EXITED
  datatype Phase = CTX_CLEAN | CTX_DIRTY
  datatype ThreadType = IDLE_THREAD(home: Core) | NORMAL_THREAD

  const NO_TIMEOUT: nat := 0xFFFF_FFFF_FFFF_FFFF

  /**
   * struct thread_control_block.  `saved` says whether the stored cpu context is the one to
   * resume from.  `holder` is a history variable: the core that runs the thread, is switching
   * away from it, or has picked it.
   */
  datatype Tcb = Tcb(ttype: ThreadType, state: ThreadState, phase: Phase, wakeup: nat,
                     prev: Tid, next: Tid, saved: bool, holder: Option<Core>)

  // Where a core stands between two scheduler sections.
  datatype Pc =
    | Exec                  // its current thread runs
    | Ceding                // sleep_releasing has marked the thread; yield not yet entered
    | Switching(to: Tid)    // yield has chosen `to`; CURTHREAD not yet moved
    | Saving(from: Tid)     // CURTHREAD moved; the context of `from` not yet saved
    | Loading(from: Tid)    // saved; the context of CURTHREAD not yet loaded
    | Gaining               // on CURTHREAD's stack, about to call gain
    | Releasing(dead: Tid)  // in gain, lock held: the TCB is freed, active_threads not yet decremented
    | Spawning(born: Tid)   // in spawn_thread: the TCB is made, active_threads not yet incremented
    | Left                  // the idle loop has ended

  datatype CoreState = CoreState(current: Tid, pc: Pc)

  /** `counted` is a history variable: the threads active_threads stands for. */
  datatype State = State(tcb: map<Tid, Tcb>, sched: seq<Tid>, timeouts: seq<Tid>,
                         cores: map<Core, CoreState>, idle: map<Core, Tid>,
                         active: int, counted: set<Tid>, nextTid: Tid)

  // -------------------------------------------------------------- the steps

  function SetTcb(s: State, t: Tid, x: Tcb): State {
    s.(tcb := s.tcb[t := x])
  }

  function SetPc(s: State, c: Core, pc: Pc): State
    requires c in s.cores
  {
    s.(cores := s.cores[c := s.cores[c].(pc := pc)])
  }

  /** sched_make_ready. */
  function MakeReady(s: State, t: Tid): State
    requires t in s.tcb
  {
    var x := s.tcb[t].(state := READY, wakeup := NO_TIMEOUT);
    var timeouts := if s.tcb[t].wakeup != NO_TIMEOUT then Without(s.timeouts, t) else s.timeouts;
    var sched := if x.phase == CTX_CLEAN then s.sched + [t] else s.sched;
    SetTcb(s, t, x).(timeouts := timeouts, sched := sched)
  }

  /** Where sched_register_timeout stops: before the first entry with a later deadline. */
  function InsertPos(tcb: map<Tid, Tcb>, q: seq<Tid>, deadline: nat): (p: nat)
    requires forall t | t in q :: t in tcb
    ensures p <= |q|
    ensures forall i | 0 <= i < p :: tcb[q[i]].wakeup <= deadline
    ensures p < |q| ==> deadline < tcb[q[p]].wakeup
  {
    if q == [] || deadline < tcb[q[0]].wakeup then 0 else 1 + InsertPos(tcb, q[1..], deadline)
  }

  /** Queued threads have TCBs, and those on the timeout list have a deadline and are on it once. */
  ghost predicate QueuesInTable(s: State) {
    && (forall t | t in s.sched :: t in s.tcb)
    && (forall t | t in s.timeouts :: t in s.tcb && s.tcb[t].wakeup != NO_TIMEOUT)
    && Distinct(s.timeouts)
  }

  /** The section of sleep_releasing. */
  function Sleep(s: State, c: Core, state: ThreadState, timeout: nat, now: nat): State
    requires c in s.cores && s.cores[c].current in s.tcb && (forall t | t in s.timeouts :: t in s.tcb)
  {
    var t := s.cores[c].current;
    var s1 := SetPc(s, c, Ceding);
    if state != EXITED && timeout != NO_TIMEOUT then
      var p := InsertPos(s.tcb, s.timeouts, now + timeout);
      SetTcb(s1, t, s.tcb[t].(state := state, wakeup := now + timeout))
        .(timeouts := s.timeouts[..p] + [t] + s.timeouts[p..])
    else
      SetTcb(s1, t, s.tcb[t].(state := state))
  }

  /** The start of yield's section: a running thread becomes ready. */
  function Cede(s: State, c: Core): State
    requires c in s.cores && s.cores[c].current in s.tcb
  {
    var t := s.cores[c].current;
    var x := s.tcb[t];
    SetPc(SetTcb(s, t, if x.state == RUNNING then x.(state := READY) else x), c, Ceding)
  }

  /** The loop of sched_queue_select: wake every thread whose deadline has come. */
  ghost function Expire(s: State, now: nat): State
    requires QueuesInTable(s)
    decreases |s.timeouts|
  {
    if s.timeouts == [] || s.tcb[s.timeouts[0]].wakeup > now then s
    else ExpireOne(s); Expire(MakeReady(s, s.timeouts[0]), now)
  }

  lemma ExpireOne(s: State)
    requires QueuesInTable(s) && s.timeouts != []
    ensures var s' := MakeReady(s, s.timeouts[0]); s'.timeouts == s.timeouts[1..] && QueuesInTable(s')
  {
    var s' := MakeReady(s, s.timeouts[0]);
    assert s'.timeouts == s.timeouts[1..];
    forall t | t in s'.timeouts ensures t in s'.tcb && s'.tcb[t].wakeup != NO_TIMEOUT {
      var i :| 0 <= i < |s'.timeouts| && s'.timeouts[i] == t;
      assert s.timeouts[i + 1] == t && s.timeouts[0] != t;
    }
  }

  function Chosen(s: State, c: Core, ready: bool): Tid
    requires c in s.cores && c in s.idle
  {
    if s.sched != [] then s.sched[0] else if ready then s.cores[c].current else s.idle[c]
  }

  /** The end of yield's section: pick the next thread and link the two. */
  function Choose(s: State, c: Core, ready: bool): State
    requires c in s.cores && s.cores[c].current in s.tcb && c in s.idle
    requires Chosen(s, c, ready) in s.tcb
  {
    var cur, nxt := s.cores[c].current, Chosen(s, c, ready);
    var s1 := SetTcb(s, cur, s.tcb[cur].(next := nxt));
    var s2 := SetTcb(s1, nxt, s1.tcb[nxt].(prev := cur, holder := Some(c)));
    SetPc(s2, c, if nxt == cur then Gaining else Switching(nxt)).(sched := if s.sched == [] then [] else s.sched[1..])
  }

  /** gain's section. */
  function Gain(s: State, c: Core): State
    requires c in s.cores && s.cores[c].current in s.tcb && s.tcb[s.cores[c].current].prev in s.tcb
  {
    var cur := s.cores[c].current;
    var p := s.tcb[cur].prev;
    var s1 := SetPc(SetTcb(s, cur, s.tcb[cur].(state := RUNNING, phase := CTX_DIRTY)), c, Exec);
    if cur == p then s1
    else
      var s2 := SetTcb(s1, p, s.tcb[p].(phase := CTX_CLEAN, holder := None));
      if s.tcb[p].state == READY then
        if s.tcb[p].ttype.NORMAL_THREAD? then s2.(sched := s.sched + [p]) else s2
      else if s.tcb[p].state == EXITED then
        SetPc(s2.(tcb := s2.tcb - {p}), c, Releasing(p))
      else s2
  }

  /** spawn_thread up to the TCB, then the increment of active_threads. */
  function Spawn(s: State, c: Core): State
    requires c in s.cores
  {
    var t := s.nextTid;
    SetPc(SetTcb(s, t, Tcb(NORMAL_THREAD, INIT, CTX_CLEAN, NO_TIMEOUT, 0, 0, true, None)), c, Spawning(t)).(nextTid := t + 1)
  }

  function Count(s: State, c: Core): State
    requires c in s.cores && s.cores[c].pc.Spawning?
  {
    SetPc(s, c, Exec).(active := s.active + 1, counted := s.counted + {s.cores[c].pc.born})
  }

  /** release_TCB's decrement of active_threads, the last thing gain does under the lock. */
  function Uncount(s: State, c: Core): State
    requires c in s.cores && s.cores[c].pc.Releasing?
  {
    SetPc(s, c, Exec).(active := s.active - 1, counted := s.counted - {s.cores[c].pc.dead})
  }

  /** CURTHREAD = next. */
  function Move(s: State, c: Core): State
    requires c in s.cores && s.cores[c].pc.Switching?
  {
    s.(cores := s.cores[c := CoreState(s.cores[c].pc.to, Saving(s.cores[c].current))])
  }

  /** The two halves of cpu_swap_context. */
  function Save(s: State, c: Core): State
    requires c in s.cores && s.cores[c].pc.Saving? && s.cores[c].pc.from in s.tcb
  {
    var f := s.cores[c].pc.from;
    SetPc(SetTcb(s, f, s.tcb[f].(saved := true)), c, Loading(f))
  }

  function Load(s: State, c: Core): State
    requires c in s.cores && s.cores[c].current in s.tcb
  {
    var t := s.cores[c].current;
    SetPc(SetTcb(s, t, s.tcb[t].(saved := false)), c, Gaining)
  }

  // ---------------------------------------------------------- the invariant

  ghost predicate Sorted(tcb: map<Tid, Tcb>, q: seq<Tid>)
    requires forall t | t in q :: t in tcb
  {
    forall i, j | 0 <= i < j < |q| :: tcb[q[i]].wakeup <= tcb[q[j]].wakeup
  }

  /** The two scheduler lists: no thread twice, and the timeout list ordered by deadline. */
  ghost predicate Queues(s: State) {
    && QueuesInTable(s)
    && Distinct(s.sched) && Sorted(s.tcb, s.timeouts)
  }

  /** The other thread a core has in hand while it switches; its current one otherwise. */
  function Other(s: State, c: Core): Tid
    requires c in s.cores
  {
    var k := s.cores[c];
    match k.pc
    case Switching(to) => to
    case Saving(from) => from
    case Loading(from) => from
    case Gaining => if k.current in s.tcb then s.tcb[k.current].prev else k.current
    case _ => k.current
  }

  /** What the state of one thread may be. */
  ghost predicate ThreadOk(s: State, t: Tid)
    requires t in s.tcb
  {
    var x := s.tcb[t];
    && t < s.nextTid
    && (x.wakeup != NO_TIMEOUT <==> t in s.timeouts)
    && (t in s.timeouts ==> x.ttype.NORMAL_THREAD? && x.state == STOPPED)
    && (t in s.sched ==> x.ttype.NORMAL_THREAD? && x.state == READY && x.phase == CTX_CLEAN && x.holder.None?)
    && (x.ttype.IDLE_THREAD? ==>
          && x.ttype.home in s.idle && s.idle[x.ttype.home] == t
          && (x.state == READY || x.state == RUNNING)
          && (x.holder.Some? ==> x.holder.value == x.ttype.home))
    && (x.ttype.NORMAL_THREAD? && x.state != INIT ==> t in s.counted)
    && (x.holder.None? ==>
          && x.phase == CTX_CLEAN && x.saved
          && (x.state == INIT || x.state == READY || x.state == STOPPED)
          && (x.ttype.NORMAL_THREAD? && x.state == READY ==> t in s.sched))
    && (x.holder.Some? ==>
          && x.state != INIT && x.holder.value in s.cores
          && (t == s.cores[x.holder.value].current || t == Other(s, x.holder.value)))
  }

  /** A thread that runs on a core, between gain and the next sleep or yield. */
  predicate Running(x: Tcb) {
    x.state == RUNNING && x.phase == CTX_DIRTY && !x.saved
  }

  /** A thread on its way out: it may be woken, or its timer may fire, before it has left. */
  predicate Outgoing(x: Tcb) {
    (x.state == READY || x.state == STOPPED || x.state == EXITED) && x.phase == CTX_DIRTY
  }

  /** A thread in transit: picked by yield, not yet through gain, and in no list. */
  predicate Incoming(x: Tcb, from: Tid) {
    x.state == READY && x.phase == CTX_CLEAN && x.prev == from
  }

  /** What holds at each point of a core's way through the scheduler. */
  ghost predicate CoreOk(s: State, c: Core)
    requires c in s.cores
  {
    var k := s.cores[c];
    && k.current in s.tcb && Other(s, c) in s.tcb && c in s.idle && s.idle[c] in s.tcb
    && s.tcb[s.idle[c]].ttype == IDLE_THREAD(c)
    && var x, y := s.tcb[k.current], s.tcb[Other(s, c)];
    && x.holder == Some(c) && y.holder == Some(c)
    && match k.pc
       case Exec => Running(x)
       case Ceding => Outgoing(x) && !x.saved
       case Switching(to) => to != k.current && Outgoing(x) && !x.saved && Incoming(y, k.current) && y.saved
       case Saving(from) => from != k.current && Outgoing(y) && !y.saved && Incoming(x, from) && x.saved
       case Loading(from) => from != k.current && Outgoing(y) && y.saved && Incoming(x, from) && x.saved
       case Gaining => !x.saved && if x.prev == k.current then x.state == READY && x.phase == CTX_DIRTY
                                   else x.state == READY && x.phase == CTX_CLEAN && Outgoing(y) && y.saved
       case Releasing(t) => Running(x) && t !in s.tcb && t in s.counted
       case Spawning(t) =>
         && Running(x) && x.ttype.NORMAL_THREAD? && t in s.tcb && t !in s.counted
         && s.tcb[t].ttype.NORMAL_THREAD? && s.tcb[t].state == INIT
       case Left => Running(x) && x.ttype.IDLE_THREAD?
  }

  ghost predicate Normal(s: State, t: Tid) {
    t in s.tcb && s.tcb[t].ttype.NORMAL_THREAD?
  }

  ghost predicate BeingReleased(s: State, t: Tid) {
    exists c :: c in s.cores && s.cores[c].pc == Releasing(t)
  }

  ghost predicate BeingSpawned(s: State, t: Tid) {
    exists c :: c in s.cores && s.cores[c].pc == Spawning(t)
  }

  /** No two cores spawn or release the same thread. */
  ghost predicate Apart(s: State) {
    forall c, d | c in s.cores && d in s.cores && c != d && (s.cores[c].pc.Spawning? || s.cores[c].pc.Releasing?) ::
      s.cores[c].pc != s.cores[d].pc
  }

  /** active_threads counts the normal threads, up to the spawns and releases in progress. */
  ghost predicate Counts(s: State) {
    && s.active == |s.counted|
    && (forall t | t in s.counted :: t < s.nextTid)
    && (forall t | t in s.counted :: Normal(s, t) || BeingReleased(s, t))
    && (forall t | t in s.tcb && Normal(s, t) && t !in s.counted :: BeingSpawned(s, t))
    && Apart(s)
  }

  ghost predicate Inv(s: State) {
    && Queues(s)
    && (forall t | t in s.tcb :: ThreadOk(s, t))
    && (forall c | c in s.cores :: CoreOk(s, c))
    && Counts(s)
  }

  // ------------------------------------------------- steps and whole runs

  datatype Action =
    | ASpawn(c: Core) | ACount(c: Core) | AWakeup(c: Core, t: Tid)
    | ASleep(c: Core, state: ThreadState, timeout: nat, now: nat) | AYield(c: Core, now: nat)
    | AMove(c: Core) | ASave(c: Core) | ALoad(c: Core)
    | AGain(c: Core) | AUncount(c: Core) | ALeave(c: Core)

  /** sched_spinlock is held across steps only while gain releases a TCB. */
  ghost predicate LockFree(s: State) {
    forall c | c in s.cores :: !s.cores[c].pc.Releasing?
  }

  ghost predicate Enabled(s: State, a: Action) {
    && a.c in s.cores
    && var k := s.cores[a.c];
    match a
    case ASpawn(_) => k.pc.Exec? && k.current in s.tcb && s.tcb[k.current].ttype.NORMAL_THREAD?
    case ACount(_) => k.pc.Spawning?
    case AWakeup(_, t) => k.pc.Exec? && LockFree(s) && t in s.tcb && t in s.counted
    case ASleep(_, state, timeout, now) =>
      && k.pc.Exec? && LockFree(s) && k.current in s.tcb && s.tcb[k.current].ttype.NORMAL_THREAD?
      && (state == STOPPED || state == EXITED) && (timeout != NO_TIMEOUT ==> now + timeout < NO_TIMEOUT)
    case AYield(_, now) => (k.pc.Exec? || k.pc.Ceding?) && LockFree(s)
    case AMove(_) => k.pc.Switching?
    case ASave(_) => k.pc.Saving?
    case ALoad(_) => k.pc.Loading?
    case AGain(_) => k.pc.Gaining? && LockFree(s)
    case AUncount(_) => k.pc.Releasing?
    case ALeave(_) => k.pc.Exec? && k.current in s.tcb && s.tcb[k.current].ttype.IDLE_THREAD? && s.active <= 0
  }

  // ------------------------------------ each kind of step keeps the invariant

  lemma {:induction false} WithoutSorted(tcb: map<Tid, Tcb>, q: seq<Tid>, t: Tid)
    requires (forall u | u in q :: u in tcb) && Distinct(q) && Sorted(tcb, q)
    ensures forall u | u in Without(q, t) :: u in q
    ensures Sorted(tcb, Without(q, t))
  {
    if q != [] && q[0] != t {
      TailWithoutHead(q);
      assert forall i | 0 <= i < |q[1..]| :: q[1..][i] == q[i + 1];
      WithoutSorted(tcb, q[1..], t);
      var r := Without(q[1..], t);
      forall i | 0 <= i < |r| ensures tcb[q[0]].wakeup <= tcb[r[i]].wakeup {
        assert r[i] in r;
        var j :| 0 <= j < |q[1..]| && q[1..][j] == r[i];
        assert q[j + 1] == r[i];
      }
    }
  }

  /** Waking a stopped or new thread, also while a core still has it in hand. */
  lemma MakeReadyKeeps(s: State, t: Tid)
    requires Inv(s) && t in s.tcb && t in s.counted
    requires s.tcb[t].state == STOPPED || s.tcb[t].state == INIT
    ensures Inv(MakeReady(s, t))
  {
    hide Queues, ThreadOk, CoreOk, Counts;
    MakeReadyQueues(s, t);
    MakeReadyThreads(s, t);
    MakeReadyCores(s, t);
    MakeReadyCounts(s, t);
  }

  lemma MakeReadyThreads(s: State, t: Tid)
    requires Inv(s) && t in s.tcb && t in s.counted
    requires s.tcb[t].state == STOPPED || s.tcb[t].state == INIT
    ensures var s' := MakeReady(s, t); forall u | u in s'.tcb :: ThreadOk(s', u)
  {
    hide CoreOk, Counts;
    var s' := MakeReady(s, t);
    assert ThreadOk(s, t);
    HolderOk(s, t);
    WithoutRemoves(s.timeouts, t);
    forall u | u in s'.tcb ensures ThreadOk(s', u) {
      assert ThreadOk(s, u);
      hide Inv;
      MakeReadyThread(s, t, u);
    }
  }

  lemma MakeReadyThread(s: State, t: Tid, u: Tid)
    requires t in s.tcb && u in s.tcb && t in s.counted && ThreadOk(s, u) && ThreadOk(s, t)
    requires s.tcb[t].state == STOPPED || s.tcb[t].state == INIT
    requires s.tcb[t].holder.Some? ==> s.tcb[t].phase == CTX_DIRTY
    requires forall x :: x in Without(s.timeouts, t) <==> x in s.timeouts && x != t
    ensures ThreadOk(MakeReady(s, t), u)
  {
  }

  lemma MakeReadyCores(s: State, t: Tid)
    requires Inv(s) && t in s.tcb && t in s.counted
    requires s.tcb[t].state == STOPPED || s.tcb[t].state == INIT
    ensures var s' := MakeReady(s, t); forall c | c in s'.cores :: CoreOk(s', c)
  {
    hide Queues, Counts, CoreOk;
    var s' := MakeReady(s, t);
    NotQueued(s, t);
    forall c | c in s'.cores ensures CoreOk(s', c) {
      WokenCore(s, t, c, s');
    }
  }

  /** Waking a thread a core is about to leave changes nothing for that core but the thread's state. */
  lemma WokenCore(s: State, t: Tid, c: Core, s': State)
    requires c in s.cores && CoreOk(s, c) && t in s.tcb && t in s.counted && s' == MakeReady(s, t)
    requires s.tcb[t].ttype.NORMAL_THREAD? && (s.tcb[t].state == STOPPED || s.tcb[t].state == INIT)
    ensures CoreOk(s', c)
  {
    if t != s.cores[c].current && t != Other(s, c) {
      CoreFrame(s, s', c);
    }
  }

  /** A core's situation depends only on the threads it has in hand. */
  lemma CoreFrame(s: State, s': State, c: Core)
    requires c in s.cores && CoreOk(s, c)
    requires c in s'.cores && s'.cores[c] == s.cores[c] && s'.idle == s.idle
    requires s.cores[c].current in s'.tcb && s'.tcb[s.cores[c].current] == s.tcb[s.cores[c].current]
    requires Other(s, c) in s'.tcb && s'.tcb[Other(s, c)] == s.tcb[Other(s, c)]
    requires s.idle[c] in s'.tcb && s'.tcb[s.idle[c]].ttype == s.tcb[s.idle[c]].ttype
    requires s.cores[c].pc.Releasing? ==> s.cores[c].pc.dead !in s'.tcb && s.cores[c].pc.dead in s'.counted
    requires s.cores[c].pc.Spawning? ==> var t := s.cores[c].pc.born; t !in s'.counted && t in s'.tcb && s'.tcb[t] == s.tcb[t]
    ensures CoreOk(s', c)
  {
  }

  lemma MakeReadyCounts(s: State, t: Tid)
    requires Inv(s) && t in s.tcb && t in s.counted
    ensures Counts(MakeReady(s, t))
  {
    hide Queues, CoreOk, ThreadOk;
  }

  /** A thread that is stopped or new is not on the ready queue, and is on the timeout list iff it has a deadline. */
  lemma NotQueued(s: State, t: Tid)
    requires Inv(s) && t in s.tcb && (s.tcb[t].state == STOPPED || s.tcb[t].state == INIT)
    ensures t !in s.sched && (s.tcb[t].wakeup != NO_TIMEOUT <==> t in s.timeouts)
    ensures s.tcb[t].ttype.NORMAL_THREAD?
  {
    assert ThreadOk(s, t);
  }

  lemma MakeReadyQueues(s: State, t: Tid)
    requires Inv(s) && t in s.tcb
    requires s.tcb[t].state == STOPPED || s.tcb[t].state == INIT
    ensures Queues(MakeReady(s, t))
  {
    hide CoreOk, Counts, ThreadOk;
    NotQueued(s, t);
    var s' := MakeReady(s, t);
    WithoutRemoves(s.timeouts, t);
    WithoutSorted(s.tcb, s.timeouts, t);
    SortedFrame(s.tcb, s'.tcb, s'.timeouts, t);
    if s.tcb[t].phase == CTX_CLEAN {
      DistinctConcat(s.sched, [t]);
    }
  }

  /** Changing the TCB of a thread that is not in the list leaves the list sorted. */
  lemma SortedFrame(tcb: map<Tid, Tcb>, tcb': map<Tid, Tcb>, q: seq<Tid>, t: Tid)
    requires (forall u | u in q :: u in tcb) && Sorted(tcb, q) && t !in q
    requires forall u | u in tcb && u != t :: u in tcb' && tcb'[u] == tcb[u]
    ensures (forall u | u in q :: u in tcb') && Sorted(tcb', q)
  {
    assert forall i | 0 <= i < |q| :: q[i] in q;
  }

  /** A thread some core has in hand is that core's current or other thread, in the shape CoreOk says. */
  lemma HolderOk(s: State, t: Tid)
    requires Inv(s) && t in s.tcb
    ensures s.tcb[t].holder.Some? && s.tcb[t].state == STOPPED ==> s.tcb[t].phase == CTX_DIRTY
    ensures s.tcb[t].state == INIT ==> s.tcb[t].holder.None?
  {
    assert ThreadOk(s, t);
    if s.tcb[t].holder.Some? {
      assert CoreOk(s, s.tcb[t].holder.value);
    }
  }

  /** A step of core `c0` that touches only the threads in `changed`, none of them in another core's hands. */
  ghost predicate Frame(s: State, s': State, changed: set<Tid>, c0: Core) {
    && c0 in s.cores && s'.idle == s.idle && s.nextTid <= s'.nextTid
    && (forall c :: c in s'.cores <==> c in s.cores)
    && (forall c | c in s.cores && c != c0 :: s'.cores[c] == s.cores[c])
    && (forall u | u !in changed :: u in s'.tcb <==> u in s.tcb)
    && (forall u | u !in changed && u in s.tcb :: s'.tcb[u] == s.tcb[u] && s.tcb[u].holder != Some(c0))
    && (forall u | u !in changed :: (u in s'.sched <==> u in s.sched) && (u in s'.timeouts <==> u in s.timeouts) && (u in s'.counted <==> u in s.counted))
    && (forall u | u in changed && u in s.tcb :: s.tcb[u].holder == None || s.tcb[u].holder == Some(c0))
    && (forall u | u in changed && u in s.tcb && s.tcb[u].ttype.IDLE_THREAD? :: u in s'.tcb && s'.tcb[u].ttype == s.tcb[u].ttype)
    && (forall c | c in s.cores && c != c0 && s.cores[c].pc.Releasing? :: s.cores[c].pc.dead !in changed)
    && (forall c | c in s.cores && c != c0 && s.cores[c].pc.Spawning? :: s.cores[c].pc.born !in changed)
  }

  lemma FrameCores(s: State, s': State, changed: set<Tid>, c0: Core, c: Core)
    requires Inv(s) && Frame(s, s', changed, c0) && c in s.cores && c != c0
    ensures CoreOk(s', c) && Other(s', c) == Other(s, c)
  {
    hide Queues, ThreadOk, Counts;
    assert CoreOk(s, c);
    CoreFrame(s, s', c);
  }

  lemma FrameThreads(s: State, s': State, changed: set<Tid>, c0: Core, u: Tid)
    requires Inv(s) && Frame(s, s', changed, c0) && u in s.tcb && u !in changed
    ensures ThreadOk(s', u)
  {
    assert ThreadOk(s, u);
    if s.tcb[u].holder.Some? {
      FrameCores(s, s', changed, c0, s.tcb[u].holder.value);
    }
  }

  /** With the frame settled, a step's invariant is that of the threads and the core it touched. */
  lemma FrameInv(s: State, s': State, changed: set<Tid>, c0: Core)
    requires Inv(s) && Frame(s, s', changed, c0)
    requires Queues(s') && Counts(s') && CoreOk(s', c0)
    requires forall u | u in changed && u in s'.tcb :: ThreadOk(s', u)
    ensures Inv(s')
  {
    hide Queues, Counts, ThreadOk, CoreOk;
    forall u | u in s'.tcb && u !in changed ensures ThreadOk(s', u) {
      assert u in s.tcb by { assert Frame(s, s', changed, c0); }
      FrameThreads(s, s', changed, c0, u);
    }
    forall c | c in s'.cores && c != c0 ensures CoreOk(s', c) {
      FrameCores(s, s', changed, c0, c);
    }
  }

  /** The lists stay as they are while the listed threads keep their deadlines. */
  lemma QueuesFrame(s: State, s': State)
    requires Queues(s) && s'.sched == s.sched && s'.timeouts == s.timeouts
    requires forall u | u in s.tcb && (u in s.sched || u in s.timeouts) :: u in s'.tcb && s'.tcb[u].wakeup == s.tcb[u].wakeup
    ensures Queues(s')
  {
    assert forall i | 0 <= i < |s.timeouts| :: s.timeouts[i] in s.timeouts;
  }

  /** A step that neither makes, frees nor counts a thread. */
  lemma CountsFrame(s: State, s': State, c0: Core)
    requires Counts(s) && c0 in s.cores && s'.active == s.active && s'.counted == s.counted && s'.nextTid == s.nextTid
    requires forall c :: c in s'.cores <==> c in s.cores
    requires forall c | c in s.cores && c != c0 :: s'.cores[c] == s.cores[c]
    requires forall u :: u in s'.tcb <==> u in s.tcb
    requires forall u | u in s.tcb :: s'.tcb[u].ttype == s.tcb[u].ttype
    requires !s.cores[c0].pc.Releasing? && !s.cores[c0].pc.Spawning?
    requires !s'.cores[c0].pc.Releasing? && !s'.cores[c0].pc.Spawning?
    ensures Counts(s')
  {
    CountedWitness(s, s', c0);
    BornWitness(s, s', c0);
    ApartKept(s, s', c0);
    hide Apart, BeingReleased, BeingSpawned;
  }

  lemma ApartKept(s: State, s': State, c0: Core)
    requires Apart(s) && c0 in s.cores
    requires forall c :: c in s'.cores <==> c in s.cores
    requires forall c | c in s.cores && c != c0 :: s'.cores[c] == s.cores[c]
    requires s'.cores[c0].pc.Spawning? || s'.cores[c0].pc.Releasing? ==> forall d | d in s.cores && d != c0 :: s.cores[d].pc != s'.cores[c0].pc
    ensures Apart(s')
  {
  }

  /** A thread in some core's hands is in no list unless it is asleep with a deadline. */
  lemma HeldNotQueued(s: State, t: Tid)
    requires Inv(s) && t in s.tcb && s.tcb[t].holder.Some?
    ensures t !in s.sched && (t in s.timeouts ==> s.tcb[t].state == STOPPED)
  {
    assert ThreadOk(s, t);
  }

  /** The threads a core has in hand are its current one and the other one. */
  lemma HeldBy(s: State, c: Core)
    requires Inv(s) && c in s.cores
    ensures s.cores[c].current in s.tcb && s.tcb[s.cores[c].current].holder == Some(c)
    ensures Other(s, c) in s.tcb && s.tcb[Other(s, c)].holder == Some(c)
    ensures forall u | u in s.tcb && s.tcb[u].holder == Some(c) :: u == s.cores[c].current || u == Other(s, c)
    ensures forall d | d in s.cores :: BirthOk(s, d) && DeathOk(s, d)
  {
    assert CoreOk(s, c);
    forall u | u in s.tcb && s.tcb[u].holder == Some(c) ensures u == s.cores[c].current || u == Other(s, c) {
      assert ThreadOk(s, u);
    }
    forall d | d in s.cores ensures BirthOk(s, d) && DeathOk(s, d) {
      assert CoreOk(s, d);
      if s.cores[d].pc.Spawning? {
        assert ThreadOk(s, s.cores[d].pc.born);
      }
    }
  }

  /** A thread being spawned is new and in nobody's hands. */
  ghost predicate BirthOk(s: State, d: Core)
    requires d in s.cores
  {
    s.cores[d].pc.Spawning? ==>
      var t := s.cores[d].pc.born; t in s.tcb && s.tcb[t].holder == None && s.tcb[t].state == INIT
  }

  /** A thread being released has no TCB any more. */
  ghost predicate DeathOk(s: State, d: Core)
    requires d in s.cores
  {
    s.cores[d].pc.Releasing? ==> s.cores[d].pc.dead !in s.tcb && s.cores[d].pc.dead < s.nextTid
  }

  /** The next thread number is unused. */
  lemma NextIsFresh(s: State)
    requires Inv(s)
    ensures s.nextTid !in s.tcb && s.nextTid !in s.counted && s.nextTid !in s.sched && s.nextTid !in s.timeouts
    ensures forall u | u in s.tcb :: u < s.nextTid
  {
    hide CoreOk;
    forall u | u in s.tcb ensures u < s.nextTid {
      assert ThreadOk(s, u);
    }
  }

  lemma InHand(s: State, c: Core)
    requires Inv(s) && c in s.cores
    ensures CoreOk(s, c) && s.cores[c].current in s.tcb && ThreadOk(s, s.cores[c].current)
    ensures Other(s, c) in s.tcb && ThreadOk(s, Other(s, c))
    ensures s.tcb[s.cores[c].current].ttype.IDLE_THREAD? ==> s.tcb[s.cores[c].current].ttype.home == c
    ensures s.tcb[Other(s, c)].ttype.IDLE_THREAD? ==> s.tcb[Other(s, c)].ttype.home == c
  {
    assert CoreOk(s, c);
    assert ThreadOk(s, s.cores[c].current) && ThreadOk(s, Other(s, c));
  }

  // ---- yield, first half: the running thread becomes ready

  lemma CedeFrame(s: State, c: Core)
    requires Inv(s) && c in s.cores && (s.cores[c].pc.Exec? || s.cores[c].pc.Ceding?)
    ensures s.cores[c].current in s.tcb && Frame(s, Cede(s, c), {s.cores[c].current}, c)
  {
    hide Queues, Counts, CoreOk, ThreadOk, Inv;
    HeldBy(s, c);
  }

  lemma CedeLocal(s: State, c: Core)
    requires c in s.cores && (s.cores[c].pc.Exec? || s.cores[c].pc.Ceding?)
    requires CoreOk(s, c) && ThreadOk(s, s.cores[c].current)
    ensures var s' := Cede(s, c); ThreadOk(s', s.cores[c].current) && CoreOk(s', c)
  {
  }

  lemma CedeKeeps(s: State, c: Core)
    requires Inv(s) && c in s.cores && (s.cores[c].pc.Exec? || s.cores[c].pc.Ceding?)
    ensures s.cores[c].current in s.tcb && Inv(Cede(s, c))
  {
    hide Queues, Counts, Frame, CoreOk, ThreadOk;
    CedeFrame(s, c);
    InHand(s, c);
    CedeLocal(s, c);
    var s' := Cede(s, c);
    HeldBy(s, c);
    HeldNotQueued(s, s.cores[c].current);
    QueuesFrame(s, s');
    CountsFrame(s, s', c);
    FrameInv(s, s', {s.cores[c].current}, c);
  }

  // ---- yield, the timer loop

  /** An expired timer belongs to a stopped thread. */
  lemma TimedIsStopped(s: State, t: Tid)
    requires Inv(s) && t in s.timeouts
    ensures t in s.tcb && s.tcb[t].state == STOPPED && t in s.counted
  {
    assert ThreadOk(s, t);
  }

  lemma {:induction false} ExpireKeeps(s: State, now: nat)
    requires Inv(s)
    ensures Inv(Expire(s, now))
    ensures Expire(s, now).cores == s.cores && Expire(s, now).idle == s.idle
    ensures Expire(s, now).counted == s.counted && Expire(s, now).active == s.active && Expire(s, now).nextTid == s.nextTid
    ensures Expire(s, now).tcb.Keys == s.tcb.Keys
    decreases |s.timeouts|
  {
    hide Counts, ThreadOk, CoreOk;
    if s.timeouts != [] && s.tcb[s.timeouts[0]].wakeup <= now {
      var t := s.timeouts[0];
      TimedIsStopped(s, t);
      ExpireOne(s);
      MakeReadyKeeps(s, t);
      assert MakeReady(s, t).tcb.Keys == s.tcb.Keys;
      ExpireKeeps(MakeReady(s, t), now);
    }
  }

  // ---- yield, second half: choosing

  /** What yield picks: a queued thread, itself if it can go on, or this core's idle thread, free to be picked. */
  lemma ChosenOk(s: State, c: Core, ready: bool)
    requires Inv(s) && c in s.cores && s.cores[c].pc.Ceding?
    requires ready ==> s.cores[c].current in s.tcb && s.tcb[s.cores[c].current].state == READY
    requires !ready ==> s.cores[c].current in s.tcb && s.tcb[s.cores[c].current].ttype.NORMAL_THREAD?
    ensures s.cores[c].current in s.tcb && c in s.idle && Chosen(s, c, ready) in s.tcb
    ensures var n, x := Chosen(s, c, ready), s.tcb[Chosen(s, c, ready)];
            if n == s.cores[c].current then x.state == READY && x.holder == Some(c)
            else x.state == READY && x.phase == CTX_CLEAN && x.saved && x.holder == None
    ensures ThreadOk(s, Chosen(s, c, ready))
    ensures s.tcb[Chosen(s, c, ready)].ttype.IDLE_THREAD? ==> s.tcb[Chosen(s, c, ready)].ttype.home == c
  {
    hide Counts;
    assert CoreOk(s, c);
    var n := Chosen(s, c, ready);
    if s.sched != [] {
      assert n in s.sched;
    }
    assert ThreadOk(s, n);
    if n != s.cores[c].current && s.tcb[n].holder.Some? {
      HeldBy(s, c);
      assert false;
    }
  }

  ghost predicate Choosing(s: State, c: Core, ready: bool) {
    && Inv(s) && c in s.cores && s.cores[c].pc.Ceding?
    && s.cores[c].current in s.tcb
    && (if ready then s.tcb[s.cores[c].current].state == READY else s.tcb[s.cores[c].current].ttype.NORMAL_THREAD?)
  }

  lemma ChosenInTable(s: State, c: Core, ready: bool)
    requires Choosing(s, c, ready)
    ensures c in s.idle && Chosen(s, c, ready) in s.tcb
  {
    hide Counts, CoreOk, ThreadOk, Queues;
    ChosenOk(s, c, ready);
  }

  lemma ChooseFrame(s: State, c: Core, ready: bool)
    requires Choosing(s, c, ready)
    ensures c in s.idle && Chosen(s, c, ready) in s.tcb
    ensures Frame(s, Choose(s, c, ready), {s.cores[c].current, Chosen(s, c, ready)}, c)
  {
    hide Counts, CoreOk, ThreadOk, Inv, Queues;
    ChosenOk(s, c, ready);
    HeldBy(s, c);
    PopQueue(s);
  }

  lemma ChooseCore(s: State, c: Core, ready: bool)
    requires c in s.cores && CoreOk(s, c) && s.cores[c].pc.Ceding? && Chosen(s, c, ready) in s.tcb
    requires var n, x := Chosen(s, c, ready), s.tcb[Chosen(s, c, ready)];
             if n == s.cores[c].current then x.state == READY && x.holder == Some(c)
             else x.state == READY && x.phase == CTX_CLEAN && x.saved && x.holder == None
    ensures CoreOk(Choose(s, c, ready), c)
  {
  }

  lemma ChooseThread(s: State, c: Core, ready: bool, t: Tid)
    requires c in s.cores && s.cores[c].current in s.tcb && c in s.idle && Chosen(s, c, ready) in s.tcb && t in s.tcb
    requires ThreadOk(s, t) && CoreOk(Choose(s, c, ready), c) && Distinct(s.sched)
    requires t == s.cores[c].current || t == Chosen(s, c, ready)
    requires s.tcb[t].ttype.IDLE_THREAD? ==> s.tcb[t].ttype.home == c
    ensures ThreadOk(Choose(s, c, ready), t)
  {
    if s.sched != [] {
      TailWithoutHead(s.sched);
    }
  }

  /** Popping the head of SCHED removes that thread and no other. */
  lemma PopQueue(s: State)
    requires Inv(s)
    ensures Distinct(s.sched)
    ensures s.sched != [] ==> Distinct(s.sched[1..]) && s.sched[0] !in s.sched[1..]
    ensures s.sched != [] ==> forall u :: u in s.sched <==> u == s.sched[0] || u in s.sched[1..]
  {
    if s.sched != [] {
      TailWithoutHead(s.sched);
    }
  }

  lemma ChooseQueues(s: State, c: Core, ready: bool)
    requires Choosing(s, c, ready)
    ensures c in s.idle && Chosen(s, c, ready) in s.tcb
    ensures Queues(Choose(s, c, ready))
  {
    hide Counts, CoreOk, ThreadOk;
    ChosenOk(s, c, ready);
    var s' := Choose(s, c, ready);
    if s.sched != [] {
      TailWithoutHead(s.sched);
    }
    QueuesFrame(s, s'.(sched := s.sched));
  }

  lemma ChooseKeeps(s: State, c: Core, ready: bool)
    requires Choosing(s, c, ready)
    ensures c in s.idle && Chosen(s, c, ready) in s.tcb
    ensures Inv(Choose(s, c, ready))
  {
    hide Queues, Counts, CoreOk, ThreadOk, Frame;
    ChosenOk(s, c, ready);
    ChooseFrame(s, c, ready);
    InHand(s, c);
    PopQueue(s);
    ChooseCore(s, c, ready);
    ChooseThread(s, c, ready, s.cores[c].current);
    ChooseThread(s, c, ready, Chosen(s, c, ready));
    ChooseQueues(s, c, ready);
    var s' := Choose(s, c, ready);
    CountsFrame(s, s', c);
    FrameInv(s, s', {s.cores[c].current, Chosen(s, c, ready)}, c);
  }

  // ---- sleep_releasing

  lemma InsertElements(q: seq<Tid>, p: nat, t: Tid)
    requires p <= |q|
    ensures var r := q[..p] + [t] + q[p..];
            && |r| == |q| + 1 && r[p] == t
            && (forall i {:trigger r[i]} | 0 <= i < p :: r[i] == q[i])
            && (forall i {:trigger r[i]} | p < i < |r| :: r[i] == q[i - 1])
            && (forall u :: u in r <==> u == t || u in q)
  {
    var r := q[..p] + [t] + q[p..];
    assert q == q[..p] + q[p..];
  }

  lemma InsertShape(q: seq<Tid>, p: nat, t: Tid)
    requires p <= |q| && t !in q && Distinct(q)
    ensures var r := q[..p] + [t] + q[p..];
            Distinct(r) && (forall u :: u in r <==> u == t || u in q)
  {
    InsertElements(q, p, t);
    var r := q[..p] + [t] + q[p..];
    InsertedOnce(q, r, p, t);
  }

  lemma InsertedOnce(q: seq<Tid>, r: seq<Tid>, p: nat, t: Tid)
    requires p <= |q| && t !in q && Distinct(q) && |r| == |q| + 1 && r[p] == t
    requires forall i {:trigger r[i]} | 0 <= i < p :: r[i] == q[i]
    requires forall i {:trigger r[i]} | p < i < |r| :: r[i] == q[i - 1]
    ensures Distinct(r)
  {
    forall i, j | 0 <= i < j < |r| ensures r[i] != r[j] {
      var a, b := if i < p then i else i - 1, if j < p then j else j - 1;
      assert i != p ==> r[i] == q[a];
      assert j != p ==> r[j] == q[b];
    }
  }

  /** Inserting at InsertPos keeps the list sorted; an equal deadline goes behind those already there. */
  lemma InsertSorted(tcb: map<Tid, Tcb>, tcb': map<Tid, Tcb>, q: seq<Tid>, t: Tid, deadline: nat)
    requires (forall u | u in q :: u in tcb) && Sorted(tcb, q) && t !in q
    requires t in tcb' && tcb'[t].wakeup == deadline && forall u | u in q :: u in tcb' && tcb'[u].wakeup == tcb[u].wakeup
    ensures var p := InsertPos(tcb, q, deadline);
            var r := q[..p] + [t] + q[p..];
            (forall u | u in r :: u in tcb') && Sorted(tcb', r)
    ensures var p := InsertPos(tcb, q, deadline);
            && (forall u | u in q[..p] :: tcb[u].wakeup <= deadline) && (forall u | u in q[p..] :: deadline < tcb[u].wakeup)
  {
    LaterBehind(tcb, q, deadline);
    hide Sorted;
    var p := InsertPos(tcb, q, deadline);
    InsertElements(q, p, t);
    InsertedInOrder(tcb, tcb', q, q[..p] + [t] + q[p..], p, t, deadline);
  }

  lemma LaterBehind(tcb: map<Tid, Tcb>, q: seq<Tid>, deadline: nat)
    requires (forall u | u in q :: u in tcb) && Sorted(tcb, q)
    ensures var p := InsertPos(tcb, q, deadline);
            && (forall u | u in q[..p] :: tcb[u].wakeup <= deadline) && (forall u | u in q[p..] :: deadline < tcb[u].wakeup)
  {
    var p := InsertPos(tcb, q, deadline);
    forall i | p <= i < |q| ensures deadline < tcb[q[i]].wakeup {
      assert i > p ==> tcb[q[p]].wakeup <= tcb[q[i]].wakeup;
    }
  }

  lemma InsertedInOrder(tcb: map<Tid, Tcb>, tcb': map<Tid, Tcb>, q: seq<Tid>, r: seq<Tid>, p: nat, t: Tid, deadline: nat)
    requires (forall u | u in q :: u in tcb) && Sorted(tcb, q) && (forall u | u in r :: u in tcb')
    requires t in tcb' && tcb'[t].wakeup == deadline && forall u | u in q :: u in tcb' && tcb'[u].wakeup == tcb[u].wakeup
    requires p <= |q| && |r| == |q| + 1 && r[p] == t
    requires forall i {:trigger r[i]} | 0 <= i < p :: r[i] == q[i]
    requires forall i {:trigger r[i]} | p < i < |r| :: r[i] == q[i - 1]
    requires (forall i | 0 <= i < p :: tcb[q[i]].wakeup <= deadline) && (p < |q| ==> deadline < tcb[q[p]].wakeup)
    ensures Sorted(tcb', r)
  {
    forall i | p <= i < |q| ensures deadline < tcb[q[i]].wakeup {
      assert i > p ==> tcb[q[p]].wakeup <= tcb[q[i]].wakeup;
    }
    forall i, j | 0 <= i < j < |r| ensures tcb'[r[i]].wakeup <= tcb'[r[j]].wakeup {
      if i != p && j != p {
        var a, b := if i < p then i else i - 1, if j < p then j else j - 1;
        assert r[i] == q[a] && r[j] == q[b];
        assert tcb[q[a]].wakeup <= tcb[q[b]].wakeup;
        assert q[a] in q && q[b] in q;
      } else if i == p {
        assert r[j] == q[j - 1] && q[j - 1] in q;
      } else {
        assert r[i] == q[i] && q[i] in q;
      }
    }
  }

  ghost predicate CanSleep(s: State, c: Core, state: ThreadState, timeout: nat, now: nat) {
    && Inv(s) && c in s.cores && s.cores[c].pc.Exec?
    && s.cores[c].current in s.tcb && s.tcb[s.cores[c].current].ttype.NORMAL_THREAD?
    && (state == STOPPED || state == EXITED) && (timeout != NO_TIMEOUT ==> now + timeout < NO_TIMEOUT)
  }

  lemma SleepLists(s: State, c: Core, state: ThreadState, timeout: nat, now: nat)
    requires CanSleep(s, c, state, timeout, now)
    ensures var t := s.cores[c].current;
            var s' := Sleep(s, c, state, timeout, now);
            && Queues(s') && t !in s.sched && t !in s.timeouts && s'.sched == s.sched
            && (forall u :: u in s'.timeouts <==> u in s.timeouts || (u == t && state != EXITED && timeout != NO_TIMEOUT))
  {
    hide Counts, CoreOk;
    TimersInTable(s);
    SleeperUnlisted(s, c);
    hide ThreadOk, Inv;
    var t := s.cores[c].current;
    var s' := Sleep(s, c, state, timeout, now);
    if state != EXITED && timeout != NO_TIMEOUT {
      TimedSleepQueues(s, s', t, now + timeout);
    } else {
      QueuesFrame(s, s');
    }
  }

  lemma SleeperUnlisted(s: State, c: Core)
    requires Inv(s) && c in s.cores && s.cores[c].pc.Exec?
    ensures s.cores[c].current !in s.sched && s.cores[c].current !in s.timeouts && Queues(s)
  {
    InHand(s, c);
    HeldNotQueued(s, s.cores[c].current);
  }

  lemma TimedSleepQueues(s: State, s': State, t: Tid, deadline: nat)
    requires Queues(s) && t in s.tcb && t !in s.sched && t !in s.timeouts && deadline != NO_TIMEOUT
    requires s'.tcb.Keys == s.tcb.Keys && s'.tcb[t].wakeup == deadline && forall u | u in s.tcb && u != t :: s'.tcb[u] == s.tcb[u]
    requires var p := InsertPos(s.tcb, s.timeouts, deadline);
             s'.sched == s.sched && s'.timeouts == s.timeouts[..p] + [t] + s.timeouts[p..]
    ensures Queues(s') && forall u :: u in s'.timeouts <==> u in s.timeouts || u == t
  {
    hide Sorted, InsertPos;
    InsertShape(s.timeouts, InsertPos(s.tcb, s.timeouts, deadline), t);
    InsertSorted(s.tcb, s'.tcb, s.timeouts, t, deadline);
    hide Distinct;
  }

  lemma SleepFrame(s: State, c: Core, state: ThreadState, timeout: nat, now: nat)
    requires CanSleep(s, c, state, timeout, now)
    ensures Frame(s, Sleep(s, c, state, timeout, now), {s.cores[c].current}, c)
  {
    hide Queues, Counts, ThreadOk, CoreOk, Inv;
    SleepLists(s, c, state, timeout, now);
    HeldBy(s, c);
  }

  lemma SleepLocal(s: State, s': State, c: Core)
    requires c in s.cores && s.cores[c].pc.Exec? && CoreOk(s, c) && ThreadOk(s, s.cores[c].current)
    requires s'.cores == s.cores[c := CoreState(s.cores[c].current, Ceding)]
    requires s'.idle == s.idle && s'.counted == s.counted && s'.nextTid == s.nextTid && s'.sched == s.sched
    requires s.cores[c].current in s'.tcb && s.idle[c] in s'.tcb && s'.tcb[s.idle[c]].ttype == s.tcb[s.idle[c]].ttype
    requires var t, x := s.cores[c].current, s'.tcb[s.cores[c].current];
             && x.ttype.NORMAL_THREAD? && (x.state == STOPPED || x.state == EXITED)
             && x == s.tcb[t].(state := x.state, wakeup := x.wakeup)
             && (x.wakeup != NO_TIMEOUT <==> t in s'.timeouts) && (t in s'.timeouts ==> x.state == STOPPED)
             && t !in s.sched
    ensures CoreOk(s', c) && ThreadOk(s', s.cores[c].current)
  {
  }

  lemma SleepKeeps(s: State, c: Core, state: ThreadState, timeout: nat, now: nat)
    requires CanSleep(s, c, state, timeout, now)
    ensures Inv(Sleep(s, c, state, timeout, now))
  {
    hide Queues, Counts, Frame, CoreOk, ThreadOk;
    var t := s.cores[c].current;
    TimersInTable(s);
    var s' := Sleep(s, c, state, timeout, now);
    SleepLists(s, c, state, timeout, now);
    SleepFrame(s, c, state, timeout, now);
    InHand(s, c);
    IdleOf(s, c);
    SleeperHasNoDeadline(s, c);
    SleepLocal(s, s', c);
    CountsFrame(s, s', c);
    FrameInv(s, s', {t}, c);
  }

  lemma TimersSorted(s: State)
    requires Inv(s)
    ensures QueuesInTable(s) && Sorted(s.tcb, s.timeouts)
  {
    hide Counts, CoreOk, ThreadOk;
  }

  lemma TimersInTable(s: State)
    requires Inv(s)
    ensures QueuesInTable(s)
  {
  }

  lemma IdleOf(s: State, c: Core)
    requires Inv(s) && c in s.cores
    ensures c in s.idle && s.idle[c] in s.tcb && s.tcb[s.idle[c]].ttype == IDLE_THREAD(c)
  {
    assert CoreOk(s, c);
  }

  lemma SleeperHasNoDeadline(s: State, c: Core)
    requires Inv(s) && c in s.cores && s.cores[c].pc.Exec?
    ensures s.cores[c].current in s.tcb && s.tcb[s.cores[c].current].wakeup == NO_TIMEOUT
  {
    InHand(s, c);
  }

  // ---- gain

  ghost predicate CanGain(s: State, c: Core) {
    Inv(s) && c in s.cores && s.cores[c].pc.Gaining? && LockFree(s)
  }

  /** What gain finds: none of its asserts and default branches can be reached. */
  lemma GainOk(s: State, c: Core)
    requires CanGain(s, c)
    ensures var t := s.cores[c].current;
            && t in s.tcb && s.tcb[t].prev in s.tcb && s.tcb[t].prev == Other(s, c)
            && var p := s.tcb[s.tcb[t].prev];
            && (s.tcb[t].prev != t ==> p.state == READY || p.state == EXITED || p.state == STOPPED)
            && (p.state == EXITED ==> p.ttype.NORMAL_THREAD? && s.tcb[t].prev in s.counted && s.tcb[t].prev !in s.timeouts)
            && s.tcb[t].prev !in s.sched && t !in s.sched && t !in s.timeouts
            && p.holder == Some(c) && s.tcb[t].holder == Some(c) && s.tcb[t].state == READY
  {
    hide Counts;
    InHand(s, c);
    HeldNotQueued(s, s.cores[c].current);
    HeldNotQueued(s, Other(s, c));
  }

  lemma GainFrame(s: State, c: Core)
    requires CanGain(s, c)
    ensures s.cores[c].current in s.tcb && s.tcb[s.cores[c].current].prev in s.tcb
    ensures Frame(s, Gain(s, c), {s.cores[c].current, s.tcb[s.cores[c].current].prev}, c)
  {
    hide Queues, Counts, ThreadOk, CoreOk, Inv;
    GainOk(s, c);
    HeldBy(s, c);
  }

  lemma GainQueues(s: State, c: Core)
    requires CanGain(s, c)
    ensures s.cores[c].current in s.tcb && s.tcb[s.cores[c].current].prev in s.tcb
    ensures Queues(Gain(s, c))
  {
    hide Counts, ThreadOk, CoreOk;
    GainOk(s, c);
    var p := s.tcb[s.cores[c].current].prev;
    assert Queues(s);
    hide Inv, CanGain;
    DistinctConcat(s.sched, [p]);
    GainQueuesAt(s, Gain(s, c), p);
  }

  lemma GainQueuesAt(s: State, s': State, p: Tid)
    requires Queues(s) && p in s.tcb && p !in s.sched && Distinct(s.sched + [p]) && (p in s'.tcb || p !in s.timeouts)
    requires forall t | t in s.tcb && (t != p || p in s'.tcb) :: t in s'.tcb && s'.tcb[t].wakeup == s.tcb[t].wakeup
    requires (s'.sched == s.sched + [p] && p in s'.tcb) || s'.sched == s.sched
    requires s'.timeouts == s.timeouts
    ensures Queues(s')
  {
    assert forall i | 0 <= i < |s.timeouts| :: s.timeouts[i] in s.timeouts;
  }

  /** The thread and the core after gain's section. */
  lemma GainCore(s: State, c: Core)
    requires c in s.cores && s.cores[c].pc.Gaining? && CoreOk(s, c) && ThreadOk(s, Other(s, c))
    requires s.tcb[Other(s, c)].ttype.IDLE_THREAD? ==> s.tcb[Other(s, c)].state != EXITED
    ensures CoreOk(Gain(s, c), c)
  {
  }

  lemma GainThread(s: State, c: Core)
    requires c in s.cores && s.cores[c].pc.Gaining? && CoreOk(s, c) && ThreadOk(s, s.cores[c].current)
    requires CoreOk(Gain(s, c), c) && s.cores[c].current !in s.timeouts && s.cores[c].current !in s.sched
    ensures ThreadOk(Gain(s, c), s.cores[c].current)
  {
  }

  lemma GainPrev(s: State, c: Core)
    requires c in s.cores && s.cores[c].pc.Gaining? && CoreOk(s, c) && ThreadOk(s, Other(s, c))
    requires Other(s, c) != s.cores[c].current && Other(s, c) in Gain(s, c).tcb && Other(s, c) !in s.sched
    ensures ThreadOk(Gain(s, c), Other(s, c))
  {
  }

  lemma GainCounts(s: State, c: Core)
    requires CanGain(s, c)
    ensures s.cores[c].current in s.tcb && s.tcb[s.cores[c].current].prev in s.tcb
    ensures Counts(Gain(s, c))
  {
    hide Queues, ThreadOk, CoreOk, BeingReleased, BeingSpawned, Apart;
    GainOk(s, c);
    HeldBy(s, c);
    var t := s.cores[c].current;
    var p, s' := s.tcb[t].prev, Gain(s, c);
    assert Counts(s);
    if t != p && s.tcb[p].state == EXITED {
      assert forall d | d in s.cores :: BirthOk(s, d) && DeathOk(s, d);
      hide Inv;
      ReleaseCounts(s, s', c, p);
    } else {
      hide Inv;
      CountsFrame(s, s', c);
    }
  }

  /** A core that takes a counted thread out of the table is releasing it. */
  lemma ReleaseCounts(s: State, s': State, c: Core, p: Tid)
    requires Counts(s) && c in s.cores && !s.cores[c].pc.Spawning? && !s.cores[c].pc.Releasing? && p in s.tcb && p in s.counted
    requires s'.active == s.active && s'.counted == s.counted && s'.nextTid == s.nextTid
    requires forall d :: d in s'.cores <==> d in s.cores
    requires forall d | d in s.cores && d != c :: s'.cores[d] == s.cores[d]
    requires s'.cores[c].pc == Releasing(p)
    requires forall u :: u in s'.tcb <==> u in s.tcb && u != p
    requires forall u | u in s'.tcb :: s'.tcb[u].ttype == s.tcb[u].ttype
    requires forall d | d in s.cores :: DeathOk(s, d)
    ensures Counts(s')
  {
    BornWitness(s, s', c);
    ApartKept(s, s', c);
    assert BeingReleased(s', p);
    forall t | t in s.counted && t != p ensures Normal(s', t) || BeingReleased(s', t) {
      if !Normal(s, t) {
        var d :| d in s.cores && s.cores[d].pc == Releasing(t);
        assert s'.cores[d].pc == Releasing(t);
      }
    }
    hide Apart, BeingSpawned, BeingReleased;
  }

  lemma GainKeeps(s: State, c: Core)
    requires CanGain(s, c)
    ensures s.cores[c].current in s.tcb && s.tcb[s.cores[c].current].prev in s.tcb
    ensures Inv(Gain(s, c))
  {
    hide Queues, Counts, ThreadOk, CoreOk, Frame;
    GainFrame(s, c);
    GainQueues(s, c);
    InHand(s, c);
    GainOk(s, c);
    GainCore(s, c);
    GainThread(s, c);
    if Other(s, c) != s.cores[c].current && Other(s, c) in Gain(s, c).tcb {
      GainPrev(s, c);
    }
    GainCounts(s, c);
    FrameInv(s, Gain(s, c), {s.cores[c].current, s.tcb[s.cores[c].current].prev}, c);
  }

  // ---- the steps outside the lock

  lemma SpawnKeeps(s: State, c: Core)
    requires Inv(s) && c in s.cores && s.cores[c].pc.Exec?
    requires s.cores[c].current in s.tcb && s.tcb[s.cores[c].current].ttype.NORMAL_THREAD?
    ensures Inv(Spawn(s, c))
  {
    hide Queues, Counts, Frame, CoreOk, ThreadOk;
    var t, s' := s.cores[c].current, Spawn(s, c);
    NextIsFresh(s);
    InHand(s, c);
    IdleOf(s, c);
    HeldNotQueued(s, t);
    SpawnLocal(s, c);
    TimersInTable(s);
    QueuesFrame(s, s');
    SpawnCounts(s, c);
    SpawnFrame(s, c);
    FrameInv(s, s', {t, s.nextTid}, c);
  }

  lemma SpawnFrame(s: State, c: Core)
    requires Inv(s) && c in s.cores && s.cores[c].pc.Exec?
    ensures Frame(s, Spawn(s, c), {s.cores[c].current, s.nextTid}, c)
  {
    hide Queues, Counts, ThreadOk, CoreOk, Inv;
    HeldBy(s, c);
    NextIsFresh(s);
  }

  lemma SpawnLocal(s: State, c: Core)
    requires c in s.cores && s.cores[c].pc.Exec? && CoreOk(s, c) && ThreadOk(s, s.cores[c].current)
    requires s.tcb[s.cores[c].current].ttype.NORMAL_THREAD?
    requires s.nextTid !in s.tcb && s.nextTid !in s.counted && s.nextTid !in s.sched && s.nextTid !in s.timeouts
    ensures CoreOk(Spawn(s, c), c) && ThreadOk(Spawn(s, c), s.cores[c].current) && ThreadOk(Spawn(s, c), s.nextTid)
  {
  }

  lemma SpawnCounts(s: State, c: Core)
    requires Inv(s) && c in s.cores && s.cores[c].pc.Exec?
    ensures Counts(Spawn(s, c))
  {
    hide Queues, ThreadOk, CoreOk, Counts;
    HeldBy(s, c);
    NextIsFresh(s);
    assert forall d | d in s.cores :: BirthOk(s, d);
    hide Inv;
    BirthCounts(s, Spawn(s, c), c, s.nextTid);
  }

  /** A core that puts a new thread in the table is spawning it. */
  lemma BirthCounts(s: State, s': State, c: Core, t: Tid)
    requires Counts(s) && c in s.cores && s.cores[c].pc.Exec? && t !in s.tcb && t !in s.counted
    requires s'.active == s.active && s'.counted == s.counted && s'.nextTid == s.nextTid + 1 && t == s.nextTid
    requires forall d :: d in s'.cores <==> d in s.cores
    requires forall d | d in s.cores && d != c :: s'.cores[d] == s.cores[d]
    requires s'.cores[c].pc == Spawning(t)
    requires forall u :: u in s'.tcb <==> u in s.tcb || u == t
    requires forall u | u in s.tcb :: s'.tcb[u].ttype == s.tcb[u].ttype
    requires forall d | d in s.cores :: BirthOk(s, d)
    ensures Counts(s')
  {
    assert BeingSpawned(s', t);
    CountedWitness(s, s', c);
    BornWitness(s, s', c);
    ApartKept(s, s', c);
    hide Apart, BeingSpawned, BeingReleased;
  }

  /** Counted threads stay accounted for while no core finishes a release. */
  lemma CountedWitness(s: State, s': State, c: Core)
    requires Counts(s) && c in s.cores
    requires forall d :: d in s'.cores <==> d in s.cores
    requires forall d | d in s.cores && d != c :: s'.cores[d] == s.cores[d]
    requires forall u | u in s.tcb :: u in s'.tcb && s'.tcb[u].ttype == s.tcb[u].ttype
    ensures forall t | t in s.counted && s.cores[c].pc != Releasing(t) ::
              Normal(s', t) || BeingReleased(s', t)
  {
    forall t | t in s.counted && s.cores[c].pc != Releasing(t)
      ensures Normal(s', t) || BeingReleased(s', t)
    {
      if !(t in s.tcb && s.tcb[t].ttype.NORMAL_THREAD?) {
        var d :| d in s.cores && s.cores[d].pc == Releasing(t);
        assert s'.cores[d].pc == Releasing(t);
      }
    }
  }

  /** Uncounted threads stay being spawned by a core other than `c`, or are the one `c` starts on. */
  lemma BornWitness(s: State, s': State, c: Core)
    requires Counts(s) && c in s.cores && c in s'.cores
    requires forall d :: d in s'.cores <==> d in s.cores
    requires forall d | d in s.cores && d != c :: s'.cores[d] == s.cores[d]
    requires forall u | u in s'.tcb && s'.tcb[u].ttype.NORMAL_THREAD? && u !in s'.counted ::
               || s'.cores[c].pc == Spawning(u)
               || (u in s.tcb && s.tcb[u].ttype.NORMAL_THREAD? && u !in s.counted && s.cores[c].pc != Spawning(u))
    ensures forall t | t in s'.tcb && Normal(s', t) && t !in s'.counted ::
              BeingSpawned(s', t)
  {
    forall t | t in s'.tcb && Normal(s', t) && t !in s'.counted
      ensures BeingSpawned(s', t)
    {
      if s'.cores[c].pc != Spawning(t) {
        var d :| d in s.cores && s.cores[d].pc == Spawning(t);
        assert s'.cores[d].pc == Spawning(t);
      }
    }
  }

  lemma CountKeeps(s: State, c: Core)
    requires Inv(s) && c in s.cores && s.cores[c].pc.Spawning?
    ensures Inv(Count(s, c))
  {
    hide Queues, Counts, Frame, CoreOk, ThreadOk;
    var t, b, s' := s.cores[c].current, s.cores[c].pc.born, Count(s, c);
    InHand(s, c);
    HeldBy(s, c);
    BornOk(s, c);
    CountLocal(s, c);
    QueuesFrame(s, s');
    CountCounts(s, c);
    CountFrame(s, c);
    FrameInv(s, s', {t, b}, c);
  }

  lemma BornOk(s: State, c: Core)
    requires Inv(s) && c in s.cores && s.cores[c].pc.Spawning?
    ensures s.cores[c].pc.born in s.tcb && ThreadOk(s, s.cores[c].pc.born) && s.cores[c].pc.born !in s.counted
    ensures forall d | d in s.cores && d != c && s.cores[d].pc.Spawning? :: s.cores[d].pc.born != s.cores[c].pc.born
  {
    assert CoreOk(s, c);
    assert forall d | d in s.cores && d != c :: s.cores[c].pc != s.cores[d].pc;
  }

  lemma CountLocal(s: State, c: Core)
    requires c in s.cores && s.cores[c].pc.Spawning? && CoreOk(s, c) && ThreadOk(s, s.cores[c].current)
    requires s.cores[c].pc.born in s.tcb && ThreadOk(s, s.cores[c].pc.born)
    ensures var s' := Count(s, c);
            CoreOk(s', c) && ThreadOk(s', s.cores[c].current) && ThreadOk(s', s.cores[c].pc.born)
  {
  }

  lemma CountFrame(s: State, c: Core)
    requires Inv(s) && c in s.cores && s.cores[c].pc.Spawning?
    ensures Frame(s, Count(s, c), {s.cores[c].current, s.cores[c].pc.born}, c)
  {
    hide Queues, Counts, ThreadOk, CoreOk, Inv;
    HeldBy(s, c);
    BornOk(s, c);
    assert BirthOk(s, c);
  }

  lemma CountCounts(s: State, c: Core)
    requires Inv(s) && c in s.cores && s.cores[c].pc.Spawning?
    ensures Counts(Count(s, c))
  {
    hide Queues, ThreadOk, Counts;
    assert CoreOk(s, c);
    NextIsFresh(s);
    BornOk(s, c);
    var b := s.cores[c].pc.born;
    assert Normal(s, b) && b < s.nextTid;
    hide CoreOk, Inv;
    EntryCounts(s, Count(s, c), c, b);
  }

  /** A core that counts the thread it has spawned is done with it. */
  lemma EntryCounts(s: State, s': State, c: Core, b: Tid)
    requires Counts(s) && c in s.cores && s.cores[c].pc == Spawning(b) && s'.tcb == s.tcb && s'.nextTid == s.nextTid
    requires Normal(s, b) && b < s.nextTid && b !in s.counted && s'.counted == s.counted + {b} && s'.active == s.active + 1
    requires forall d :: d in s'.cores <==> d in s.cores
    requires forall d | d in s.cores && d != c :: s'.cores[d] == s.cores[d]
    requires s'.cores[c].pc.Exec?
    ensures Counts(s')
  {
    CountedWitness(s, s', c);
    BornWitness(s, s', c);
    ApartKept(s, s', c);
    hide Apart, BeingSpawned, BeingReleased;
    assert |s'.counted| == |s.counted| + 1;
  }

  lemma UncountKeeps(s: State, c: Core)
    requires Inv(s) && c in s.cores && s.cores[c].pc.Releasing?
    ensures Inv(Uncount(s, c))
  {
    hide Queues, Counts, Frame, CoreOk, ThreadOk;
    var t, b, s' := s.cores[c].current, s.cores[c].pc.dead, Uncount(s, c);
    InHand(s, c);
    HeldBy(s, c);
    assert DeathOk(s, c);
    UncountLocal(s, c);
    QueuesFrame(s, s');
    UncountCounts(s, c);
    UncountFrame(s, c);
    FrameInv(s, s', {t, b}, c);
  }

  lemma UncountLocal(s: State, c: Core)
    requires c in s.cores && s.cores[c].pc.Releasing? && CoreOk(s, c) && ThreadOk(s, s.cores[c].current)
    ensures var s' := Uncount(s, c); CoreOk(s', c) && ThreadOk(s', s.cores[c].current)
  {
  }

  lemma UncountFrame(s: State, c: Core)
    requires Inv(s) && c in s.cores && s.cores[c].pc.Releasing?
    ensures Frame(s, Uncount(s, c), {s.cores[c].current, s.cores[c].pc.dead}, c)
  {
    hide Queues, ThreadOk, CoreOk;
    HeldBy(s, c);
    assert DeathOk(s, c);
    assert forall d | d in s.cores && d != c :: BirthOk(s, d) && s.cores[c].pc != s.cores[d].pc;
    hide Inv, Counts;
  }

  lemma UncountCounts(s: State, c: Core)
    requires Inv(s) && c in s.cores && s.cores[c].pc.Releasing?
    ensures Counts(Uncount(s, c))
  {
    hide Queues, ThreadOk, Counts;
    assert CoreOk(s, c);
    var b := s.cores[c].pc.dead;
    assert b in s.counted && b !in s.tcb;
    hide CoreOk, Inv;
    ExitCounts(s, Uncount(s, c), c, b);
  }

  /** A core that uncounts the thread it has released is done with it. */
  lemma ExitCounts(s: State, s': State, c: Core, b: Tid)
    requires Counts(s) && c in s.cores && s.cores[c].pc == Releasing(b) && s'.tcb == s.tcb && s'.nextTid == s.nextTid
    requires b !in s.tcb && b in s.counted && s'.counted == s.counted - {b} && s'.active == s.active - 1
    requires forall d :: d in s'.cores <==> d in s.cores
    requires forall d | d in s.cores && d != c :: s'.cores[d] == s.cores[d]
    requires s'.cores[c].pc.Exec?
    ensures Counts(s')
  {
    CountedWitness(s, s', c);
    BornWitness(s, s', c);
    ApartKept(s, s', c);
    hide Apart, BeingSpawned, BeingReleased;
    assert |s'.counted| == |s.counted| - 1;
  }

  /** Moving CURTHREAD, saving and loading touch only the two threads in hand. */
  lemma SwapKeeps(s: State, s': State, c: Core)
    requires Inv(s) && c in s.cores
    requires (s.cores[c].pc.Switching? && s' == Move(s, c))
          || (s.cores[c].pc.Saving? && s.cores[c].pc.from in s.tcb && s' == Save(s, c))
          || (s.cores[c].pc.Loading? && s.cores[c].current in s.tcb && s' == Load(s, c))
    ensures Inv(s')
  {
    hide Queues, Counts, Frame, CoreOk, ThreadOk;
    var t, u := s.cores[c].current, Other(s, c);
    InHand(s, c);
    SwapLocal(s, s', c);
    QueuesFrame(s, s');
    CountsFrame(s, s', c);
    SwapFrame(s, s', c);
    FrameInv(s, s', {t, u}, c);
  }

  lemma SwapLocal(s: State, s': State, c: Core)
    requires c in s.cores && CoreOk(s, c) && ThreadOk(s, s.cores[c].current) && ThreadOk(s, Other(s, c))
    requires (s.cores[c].pc.Switching? && s' == Move(s, c))
          || (s.cores[c].pc.Saving? && s.cores[c].pc.from in s.tcb && s' == Save(s, c))
          || (s.cores[c].pc.Loading? && s.cores[c].current in s.tcb && s' == Load(s, c))
    ensures CoreOk(s', c) && ThreadOk(s', s.cores[c].current) && ThreadOk(s', Other(s, c))
  {
  }

  lemma SwapFrame(s: State, s': State, c: Core)
    requires Inv(s) && c in s.cores
    requires (s.cores[c].pc.Switching? && s' == Move(s, c))
          || (s.cores[c].pc.Saving? && s.cores[c].pc.from in s.tcb && s' == Save(s, c))
          || (s.cores[c].pc.Loading? && s.cores[c].current in s.tcb && s' == Load(s, c))
    ensures Frame(s, s', {s.cores[c].current, Other(s, c)}, c)
  {
    hide Queues, Counts, ThreadOk, CoreOk, Inv;
    HeldBy(s, c);
  }

  lemma LeaveKeeps(s: State, c: Core)
    requires Inv(s) && c in s.cores && s.cores[c].pc.Exec?
    requires s.cores[c].current in s.tcb && s.tcb[s.cores[c].current].ttype.IDLE_THREAD?
    ensures Inv(SetPc(s, c, Left))
  {
    hide Queues, Counts, Frame, CoreOk, ThreadOk;
    var t, s' := s.cores[c].current, SetPc(s, c, Left);
    InHand(s, c);
    LeaveLocal(s, c);
    QueuesFrame(s, s');
    CountsFrame(s, s', c);
    LeaveFrame(s, c);
    FrameInv(s, s', {t}, c);
  }

  lemma LeaveLocal(s: State, c: Core)
    requires c in s.cores && s.cores[c].pc.Exec? && CoreOk(s, c) && ThreadOk(s, s.cores[c].current)
    requires s.tcb[s.cores[c].current].ttype.IDLE_THREAD?
    ensures var s' := SetPc(s, c, Left); CoreOk(s', c) && ThreadOk(s', s.cores[c].current)
  {
  }

  lemma LeaveFrame(s: State, c: Core)
    requires Inv(s) && c in s.cores && s.cores[c].pc.Exec?
    ensures Frame(s, SetPc(s, c, Left), {s.cores[c].current}, c)
  {
    hide Queues, Counts, ThreadOk, CoreOk, Inv;
    HeldBy(s, c);
  }

  // ------------------------------------------------------------ whole runs

  /** yield's section: cede, expire timers, choose. */
  ghost function Yield(s: State, c: Core, now: nat): State
    requires Inv(s) && c in s.cores && (s.cores[c].pc.Exec? || s.cores[c].pc.Ceding?)
  {
    CedeKeeps(s, c);
    var s1 := Cede(s, c);
    ExpireKeeps(s1, now);
    ExpireLeavesReady(s, c, now);
    var ready := s1.tcb[s.cores[c].current].state == READY;
    var s2 := Expire(s1, now);
    ChooseKeeps(s2, c, ready);
    Choose(s2, c, ready)
  }

  /** Expiring timers wakes stopped threads only, so a thread that could go on still can. */
  lemma {:induction false} ExpireKeepsReady(s: State, now: nat, t: Tid)
    requires Inv(s) && t in s.tcb
    ensures t in Expire(s, now).tcb && Expire(s, now).tcb[t].ttype == s.tcb[t].ttype
    ensures s.tcb[t].state == READY ==> Expire(s, now).tcb[t].state == READY
    decreases |s.timeouts|
  {
    hide Counts, ThreadOk, CoreOk;
    if s.timeouts != [] && s.tcb[s.timeouts[0]].wakeup <= now {
      TimedIsStopped(s, s.timeouts[0]);
      ExpireOne(s);
      MakeReadyKeeps(s, s.timeouts[0]);
      ExpireKeepsReady(MakeReady(s, s.timeouts[0]), now, t);
    }
  }

  lemma ExpireLeavesReady(s: State, c: Core, now: nat)
    requires Inv(s) && c in s.cores && (s.cores[c].pc.Exec? || s.cores[c].pc.Ceding?)
    ensures s.cores[c].current in s.tcb && Inv(Cede(s, c))
    ensures var s1 := Cede(s, c);
            Choosing(Expire(s1, now), c, s1.tcb[s.cores[c].current].state == READY)
  {
    CedeKeeps(s, c);
    var s1 := Cede(s, c);
    ExpireKeeps(s1, now);
    ExpireKeepsReady(s1, now, s.cores[c].current);
    InHand(s1, c);
  }

  /** yield's section in terms of its parts. */
  lemma YieldIs(s: State, c: Core, now: nat)
    requires Inv(s) && c in s.cores && (s.cores[c].pc.Exec? || s.cores[c].pc.Ceding?)
    ensures s.cores[c].current in s.tcb && s.tcb[s.cores[c].current].state != INIT && QueuesInTable(Cede(s, c)) && Inv(Cede(s, c))
    ensures var s1 := Cede(s, c); var s2 := Expire(s1, now); var cur := s.cores[c].current;
            && c in s1.cores && s1.cores[c].current == cur && c in s1.idle && cur in s1.tcb
            && var ready := s1.tcb[cur].state == READY;
               && c in s2.cores && s2.cores[c].current == cur && cur in s2.tcb && c in s2.idle && Chosen(s2, c, ready) in s2.tcb
               && Yield(s, c, now) == Choose(s2, c, ready)
  {
    hide Inv, Choose;
    InHand(s, c);
    NoBadState(s, c, s.cores[c].current);
    ExpireLeavesReady(s, c, now);
    TimersInTable(Cede(s, c));
    IdleOf(Cede(s, c), c);
    ExpireKeeps(Cede(s, c), now);
    ChosenInTable(Expire(Cede(s, c), now), c, Cede(s, c).tcb[s.cores[c].current].state == READY);
  }

  lemma YieldKeeps(s: State, c: Core, now: nat)
    requires Inv(s) && c in s.cores && (s.cores[c].pc.Exec? || s.cores[c].pc.Ceding?)
    ensures Inv(Yield(s, c, now))
  {
    hide Counts, CoreOk, ThreadOk;
    ExpireLeavesReady(s, c, now);
    var s1 := Cede(s, c);
    ChooseKeeps(Expire(s1, now), c, s1.tcb[s.cores[c].current].state == READY);
  }

  ghost function Apply(s: State, a: Action): State
    requires Inv(s) && Enabled(s, a)
  {
    hide Inv, LockFree;
    match a
    case ASpawn(c) => Spawn(s, c)
    case ACount(c) => Count(s, c)
    case AWakeup(c, t) => if s.tcb[t].state == STOPPED || s.tcb[t].state == INIT then MakeReady(s, t) else s
    case ASleep(c, state, timeout, now) => TimersInTable(s); Sleep(s, c, state, timeout, now)
    case AYield(c, now) => Yield(s, c, now)
    case AMove(c) => Move(s, c)
    case ASave(c) => InHand(s, c); Save(s, c)
    case ALoad(c) => InHand(s, c); Load(s, c)
    case AGain(c) => GainOk(s, c); Gain(s, c)
    case AUncount(c) => Uncount(s, c)
    case ALeave(c) => SetPc(s, c, Left)
  }

  /** Every step any core can take keeps the invariant. */
  lemma StepKeepsInv(s: State, a: Action)
    requires Inv(s) && Enabled(s, a)
    ensures Inv(Apply(s, a))
  {
    hide Queues, Counts, CoreOk, ThreadOk;
    match a
    case ASpawn(c) => SpawnKeeps(s, c);
    case ACount(c) => CountKeeps(s, c);
    case AWakeup(c, t) =>
      if s.tcb[t].state == STOPPED || s.tcb[t].state == INIT {
        MakeReadyKeeps(s, t);
      }
    case ASleep(c, state, timeout, now) => SleepKeeps(s, c, state, timeout, now);
    case AYield(c, now) => YieldKeeps(s, c, now);
    case AMove(c) => SwapKeeps(s, Move(s, c), c);
    case ASave(c) =>
      InHand(s, c);
      SwapKeeps(s, Save(s, c), c);
    case ALoad(c) =>
      InHand(s, c);
      SwapKeeps(s, Load(s, c), c);
    case AGain(c) => GainKeeps(s, c);
    case AUncount(c) => UncountKeeps(s, c);
    case ALeave(c) => LeaveKeeps(s, c);
  }

  /** Boot: every core runs its idle thread, and the init process's thread is the only other one, queued. */
  ghost predicate Initial(s: State, init: Tid) {
    && (forall c :: c in s.cores <==> c in s.idle)
    && (forall c | c in s.idle ::
          && s.cores[c] == CoreState(s.idle[c], Exec) && s.idle[c] in s.tcb && s.idle[c] != init
          && var x := s.tcb[s.idle[c]];
          && x.ttype == IDLE_THREAD(c) && Running(x) && x.wakeup == NO_TIMEOUT && x.holder == Some(c))
    && init in s.tcb && s.sched == [init] && s.timeouts == [] && s.counted == {init} && s.active == 1
    && (var x := s.tcb[init];
        x.ttype == NORMAL_THREAD && x.state == READY && x.phase == CTX_CLEAN && x.wakeup == NO_TIMEOUT && x.saved && x.holder == None)
    && (forall t | t in s.tcb :: t < s.nextTid && (t == init || (s.tcb[t].ttype.IDLE_THREAD? && s.tcb[t].ttype.home in s.idle && s.idle[s.tcb[t].ttype.home] == t)))
  }

  function IdleTid(c: Core): Tid { c }

  /** The state the scheduler starts in on `n` cores: idle threads 0 .. n-1, and the init thread n. */
  function BootState(n: nat): State {
    State((map t | 0 <= t < n :: Tcb(IDLE_THREAD(t), RUNNING, CTX_DIRTY, NO_TIMEOUT, t, t, false, Some(t)))
            [n := Tcb(NORMAL_THREAD, READY, CTX_CLEAN, NO_TIMEOUT, n, n, true, None)],
          [n], [], map c | 0 <= c < n :: CoreState(c, Exec), map c | 0 <= c < n :: IdleTid(c), 1, {n}, n + 1)
  }

  lemma BootIsInitial(n: nat)
    ensures Initial(BootState(n), n)
  {
  }

  lemma InitialThread(s: State, init: Tid, t: Tid)
    requires Initial(s, init) && t in s.tcb
    ensures ThreadOk(s, t)
  {
  }

  lemma InitialCore(s: State, init: Tid, c: Core)
    requires Initial(s, init) && c in s.cores
    ensures CoreOk(s, c)
  {
  }

  lemma InitialInv(s: State, init: Tid)
    requires Initial(s, init)
    ensures Inv(s)
  {
    assert Queues(s);
    hide ThreadOk, CoreOk, Queues;
    forall t | t in s.tcb ensures ThreadOk(s, t) {
      InitialThread(s, init, t);
    }
    forall c | c in s.cores ensures CoreOk(s, c) {
      InitialCore(s, init, c);
    }
  }

  /** One step of one core; nothing is said about steps from states that cannot be reached. */
  ghost predicate Step(s: State, a: Action, s': State) {
    Enabled(s, a) && (Inv(s) ==> s' == Apply(s, a))
  }

  /** A run: any interleaving of enabled steps of any cores. */
  ghost predicate IsRun(run: seq<State>, acts: seq<Action>) {
    && |run| == |acts| + 1
    && (forall i | 0 <= i < |acts| :: Step(run[i], acts[i], run[i + 1]))
  }

  lemma {:induction false} RunKeepsInv(run: seq<State>, acts: seq<Action>, init: Tid, k: nat)
    requires IsRun(run, acts) && Initial(run[0], init) && k < |run|
    ensures Inv(run[k])
  {
    if k == 0 {
      InitialInv(run[0], init);
    } else {
      RunKeepsInv(run, acts, init, k - 1);
      assert Step(run[k - 1], acts[k - 1], run[k]);
      StepKeepsInv(run[k - 1], acts[k - 1]);
    }
  }

  ghost predicate Reachable(s: State) {
    exists run, acts, init :: IsRun(run, acts) && Initial(run[0], init) && s == run[|acts|]
  }

  lemma ReachableInv(s: State)
    requires Reachable(s)
    ensures Inv(s)
  {
    hide Inv;
    var run, acts, init :| IsRun(run, acts) && Initial(run[0], init) && s == run[|acts|];
    RunKeepsInv(run, acts, init, |acts|);
  }

  // ------------------------------------------- what the invariant amounts to

  /** The thread a core has picked and not yet put through gain. */
  function Picked(s: State, c: Core): Option<Tid>
    requires c in s.cores
  {
    var k := s.cores[c];
    match k.pc
    case Switching(to) => Some(to)
    case Saving(_) => Some(k.current)
    case Loading(_) => Some(k.current)
    case Gaining => if k.current in s.tcb && s.tcb[k.current].prev != k.current then Some(k.current) else None
    case _ => None
  }

  ghost predicate InTransit(s: State, t: Tid) {
    exists c :: c in s.cores && Picked(s, c) == Some(t)
  }

  /** The queue invariant, thread by thread. */
  lemma QueueInvariant(s: State, t: Tid)
    requires Reachable(s) && t in s.tcb
    ensures s.tcb[t].ttype.IDLE_THREAD? ==> t !in s.sched && t !in s.timeouts
    ensures s.tcb[t].ttype.NORMAL_THREAD? && s.tcb[t].state == READY && s.tcb[t].phase == CTX_CLEAN ==>
              (t in s.sched <==> !InTransit(s, t))
    ensures InTransit(s, t) ==> s.tcb[t].state == READY && s.tcb[t].phase == CTX_CLEAN && t !in s.sched && t !in s.timeouts
    ensures t in s.timeouts <==> s.tcb[t].wakeup != NO_TIMEOUT
    ensures t in s.timeouts ==> s.tcb[t].state == STOPPED
    ensures t in s.sched ==> s.tcb[t].state == READY && s.tcb[t].phase == CTX_CLEAN && t !in s.timeouts
    ensures Distinct(s.sched) && Distinct(s.timeouts)
  {
    ReachableInv(s);
    hide Counts, CoreOk;
    TransitIffHeldClean(s, t);
    assert ThreadOk(s, t);
  }

  lemma TransitIffHeldClean(s: State, t: Tid)
    requires Inv(s) && t in s.tcb
    ensures InTransit(s, t) <==> s.tcb[t].holder.Some? && s.tcb[t].phase == CTX_CLEAN
    ensures InTransit(s, t) ==> s.tcb[t].state == READY
  {
    hide Counts, Queues, ThreadOk, CoreOk;
    if InTransit(s, t) {
      var c :| c in s.cores && Picked(s, c) == Some(t);
      InHand(s, c);
      PickedClean(s, c);
    }
    if s.tcb[t].holder.Some? {
      HolderKnown(s, t);
      var c := s.tcb[t].holder.value;
      HeldBy(s, c);
      InHand(s, c);
      PickedClean(s, c);
    }
  }

  lemma HolderKnown(s: State, t: Tid)
    requires Inv(s) && t in s.tcb && s.tcb[t].holder.Some?
    ensures s.tcb[t].holder.value in s.cores
  {
    assert ThreadOk(s, t);
  }

  /** Of the threads a core has in hand, the picked one is the one with a clean context. */
  lemma PickedClean(s: State, c: Core)
    requires c in s.cores && CoreOk(s, c)
    ensures forall t | t in s.tcb && (t == s.cores[c].current || t == Other(s, c)) ::
              Picked(s, c) == Some(t) <==> s.tcb[t].phase == CTX_CLEAN
    ensures Picked(s, c).Some? ==> var t := Picked(s, c).value;
              t in s.tcb && s.tcb[t].holder == Some(c) && s.tcb[t].state == READY && s.tcb[t].phase == CTX_CLEAN
  {
  }

  /** No thread is current on two cores, and none is in the hands of two. */
  lemma OneCorePerThread(s: State, c: Core, d: Core)
    requires Inv(s) && c in s.cores && d in s.cores && c != d
    ensures s.cores[c].current != s.cores[d].current
    ensures s.cores[c].current != Other(s, d) && Other(s, c) != Other(s, d)
  {
    assert CoreOk(s, c) && CoreOk(s, d);
  }

  /**
   * A core about to load a context finds it saved: the core that last ran the thread has finished
   * with it, even when the thread was woken, or its timer fired, before that core had left it.
   */
  lemma LoadsSavedContext(s: State, c: Core)
    requires Inv(s) && c in s.cores && s.cores[c].pc.Loading?
    ensures s.cores[c].current in s.tcb && s.tcb[s.cores[c].current].saved
    ensures s.tcb[s.cores[c].current].state == READY
    ensures forall d | d in s.cores && d != c :: s.cores[c].current != s.cores[d].current && s.cores[c].current != Other(s, d)
  {
    assert CoreOk(s, c);
    forall d | d in s.cores && d != c
      ensures s.cores[c].current != s.cores[d].current && s.cores[c].current != Other(s, d)
    {
      OneCorePerThread(s, c, d);
      OneCorePerThread(s, d, c);
    }
  }

  /** yield's default branch and the asserts of sched_make_ready are never reached. */
  lemma NoBadState(s: State, c: Core, t: Tid)
    requires Inv(s) && c in s.cores && t in s.tcb
    ensures s.cores[c].pc.Exec? || s.cores[c].pc.Ceding? ==>
              s.cores[c].current in s.tcb && s.tcb[s.cores[c].current].state != INIT
    ensures t in s.timeouts ==> s.tcb[t].state == STOPPED
    ensures (s.tcb[t].state == STOPPED || s.tcb[t].state == INIT) && s.tcb[t].wakeup != NO_TIMEOUT ==>
              s.tcb[t].state == STOPPED && t in s.timeouts
  {
    assert ThreadOk(s, t);
    assert CoreOk(s, c);
  }

  /**
   * Context safety in every reachable state: a context about to be loaded has been saved by the core
   * that last ran it, and no thread is current on two cores or in the hands of two.
   */
  lemma ContextSafety(s: State, c: Core)
    requires Reachable(s) && c in s.cores
    ensures s.cores[c].pc.Loading? ==> s.cores[c].current in s.tcb && s.tcb[s.cores[c].current].saved
    ensures forall d | d in s.cores && d != c ::
              s.cores[c].current != s.cores[d].current && s.cores[c].current != Other(s, d) && Other(s, c) != Other(s, d)
  {
    hide Inv;
    ReachableInv(s);
    forall d | d in s.cores && d != c
      ensures s.cores[c].current != s.cores[d].current && s.cores[c].current != Other(s, d) && Other(s, c) != Other(s, d)
    {
      OneCorePerThread(s, c, d);
    }
    if s.cores[c].pc.Loading? { LoadsSavedContext(s, c); }
  }

  /** In every reachable state the asserts and default branches of sched_make_ready, yield and gain are out of reach. */
  lemma AssertsHold(s: State, c: Core, t: Tid)
    requires Reachable(s) && LockFree(s) && c in s.cores && t in s.tcb
    ensures (s.tcb[t].state == STOPPED || s.tcb[t].state == INIT) && s.tcb[t].wakeup != NO_TIMEOUT ==> s.tcb[t].state == STOPPED && t in s.timeouts
    ensures t in s.timeouts ==> s.tcb[t].state == STOPPED
    ensures s.cores[c].pc.Exec? || s.cores[c].pc.Ceding? ==>
              s.cores[c].current in s.tcb && s.tcb[s.cores[c].current].state != INIT
    ensures s.cores[c].pc.Gaining? ==>
              && s.cores[c].current in s.tcb && s.tcb[s.cores[c].current].prev in s.tcb
              && var p := s.tcb[s.cores[c].current].prev;
                 p == s.cores[c].current || s.tcb[p].state == READY || s.tcb[p].state == EXITED || s.tcb[p].state == STOPPED
  {
    hide Inv, LockFree;
    ReachableInv(s);
    NoBadState(s, c, t);
    if s.cores[c].pc.Gaining? { GainOk(s, c); }
  }

  /** The threads of a list whose context is clean, in order. */
  ghost function CleanOnes(tcb: map<Tid, Tcb>, q: seq<Tid>): seq<Tid>
    requires forall t | t in q :: t in tcb
  {
    if q == [] then []
    else (if tcb[q[0]].phase == CTX_CLEAN then [q[0]] else []) + CleanOnes(tcb, q[1..])
  }

  /** How many entries at the head of the timeout list are due. */
  ghost function Due(tcb: map<Tid, Tcb>, q: seq<Tid>, now: nat): (k: nat)
    requires forall t | t in q :: t in tcb
    ensures k <= |q|
  {
    if q == [] || tcb[q[0]].wakeup > now then 0 else 1 + Due(tcb, q[1..], now)
  }

  /** What the timer loop has done once the first `k` listed threads are woken. */
  ghost predicate Expired(s: State, s': State, k: nat)
    requires QueuesInTable(s) && k <= |s.timeouts|
  {
    && s'.timeouts == s.timeouts[k..]
    && s'.sched == s.sched + CleanOnes(s.tcb, s.timeouts[..k])
    && (forall t | t in s.tcb :: t in s'.tcb && s'.tcb[t] ==
          if t in s.timeouts[..k] then s.tcb[t].(state := READY, wakeup := NO_TIMEOUT) else s.tcb[t])
  }

  /**
   * The timer loop, all at once: exactly the threads whose deadline has come leave the timeout list
   * and become ready; those whose context is clean join the ready queue, in deadline order; nothing
   * else changes.
   */
  lemma {:induction false} ExpireMeaning(s: State, now: nat)
    requires QueuesInTable(s) && Inv(s)
    ensures Expired(s, Expire(s, now), Due(s.tcb, s.timeouts, now))
    decreases |s.timeouts|
  {
    hide Inv, Expired, CleanOnes;
    TimersInTable(s);
    if s.timeouts != [] && s.tcb[s.timeouts[0]].wakeup <= now {
      var h, s1 := s.timeouts[0], MakeReady(s, s.timeouts[0]);
      TimedIsStopped(s, h);
      ExpireOne(s);
      MakeReadyKeeps(s, h);
      TailWithoutHead(s.timeouts);
      ExpireMeaning(s1, now);
      DueFrame(s.tcb, s1.tcb, s.timeouts[1..], now);
      ExpiredCons(s, Expire(s1, now), Due(s.tcb, s.timeouts[1..], now));
    } else {
      NoneExpired(s);
    }
  }

  lemma NoneExpired(s: State)
    requires QueuesInTable(s)
    ensures Expired(s, s, 0)
  {
    assert s.sched + [] == s.sched;
  }

  lemma ExpiredCons(s: State, s': State, k: nat)
    requires QueuesInTable(s) && s.timeouts != [] && k <= |s.timeouts| - 1
    requires var s1 := MakeReady(s, s.timeouts[0]);
             QueuesInTable(s1) && s1.timeouts == s.timeouts[1..] && Expired(s1, s', k)
    ensures Expired(s, s', k + 1)
  {
    var h, q := s.timeouts[0], s.timeouts[1..];
    var s1, d := MakeReady(s, h), s.timeouts[..k + 1];
    TailWithoutHead(s.timeouts);
    HeadAndPrefix(s.timeouts, k);
    CleanFrame(s.tcb, s1.tcb, q[..k]);
    CleanCons(s.tcb, h, q[..k], s.sched);
  }

  lemma HeadAndPrefix(q: seq<Tid>, k: nat)
    requires q != [] && k <= |q| - 1
    ensures q[..k + 1] == [q[0]] + q[1..][..k] && q[1..][k..] == q[k + 1..]
    ensures forall t | t in q[1..][..k] :: t in q[1..]
    ensures forall t :: t in q[..k + 1] <==> t == q[0] || t in q[1..][..k]
  {
    assert q[..k + 1] == [q[0]] + q[1..][..k];
  }

  lemma CleanCons(tcb: map<Tid, Tcb>, h: Tid, q: seq<Tid>, sched: seq<Tid>)
    requires h in tcb && forall t | t in q :: t in tcb
    ensures (if tcb[h].phase == CTX_CLEAN then sched + [h] else sched) + CleanOnes(tcb, q) == sched + CleanOnes(tcb, [h] + q)
  {
    var first := if tcb[h].phase == CTX_CLEAN then [h] else [];
    assert ([h] + q)[1..] == q;
    assert (sched + first) + CleanOnes(tcb, q) == sched + (first + CleanOnes(tcb, q));
  }

  lemma {:induction false} DueFrame(tcb: map<Tid, Tcb>, tcb': map<Tid, Tcb>, q: seq<Tid>, now: nat)
    requires forall t | t in q :: t in tcb && t in tcb' && tcb'[t] == tcb[t]
    ensures Due(tcb', q, now) == Due(tcb, q, now)
  {
    if q != [] {
      DueFrame(tcb, tcb', q[1..], now);
    }
  }

  lemma {:induction false} CleanFrame(tcb: map<Tid, Tcb>, tcb': map<Tid, Tcb>, q: seq<Tid>)
    requires forall t | t in q :: t in tcb && t in tcb' && tcb'[t] == tcb[t]
    ensures CleanOnes(tcb', q) == CleanOnes(tcb, q)
  {
    if q != [] {
      CleanFrame(tcb, tcb', q[1..]);
    }
  }

  /** In a sorted list the due entries are exactly those with a deadline that has come. */
  lemma {:induction false} DueExact(tcb: map<Tid, Tcb>, q: seq<Tid>, now: nat)
    requires (forall t | t in q :: t in tcb) && Sorted(tcb, q)
    ensures var k := Due(tcb, q, now);
            && (forall t | t in q[..k] :: tcb[t].wakeup <= now)
            && (forall t | t in q[k..] :: tcb[t].wakeup > now)
  {
    if q != [] {
      var k := Due(tcb, q, now);
      TailSorted(tcb, q);
      if tcb[q[0]].wakeup <= now {
        hide Sorted;
        DueExact(tcb, q[1..], now);
        assert q[..k] == [q[0]] + q[1..][..k - 1];
        assert q[k..] == q[1..][k - 1..];
      } else {
        forall t | t in q ensures tcb[t].wakeup > now {
          assert t == q[0] || t in q[1..];
        }
        assert q[k..] == q;
      }
    }
  }

  /** The tail of a sorted list is sorted, and nothing in it is due before the head. */
  lemma TailSorted(tcb: map<Tid, Tcb>, q: seq<Tid>)
    requires (forall t | t in q :: t in tcb) && Sorted(tcb, q) && q != []
    ensures (forall t | t in q[1..] :: t in tcb) && Sorted(tcb, q[1..])
    ensures forall t | t in q[1..] :: tcb[q[0]].wakeup <= tcb[t].wakeup
    ensures forall t | t in q :: t == q[0] || t in q[1..]
  {
    assert q == [q[0]] + q[1..];
    forall t | t in q[1..] ensures tcb[q[0]].wakeup <= tcb[t].wakeup {
      var i :| 0 <= i < |q[1..]| && q[1..][i] == t;
      assert q[i + 1] == t;
    }
  }

  /** After a yield that read the clock at `now`, no listed thread is due, and only due ones were woken. */
  lemma TimersExact(run: seq<State>, acts: seq<Action>, init: Tid, k: nat)
    requires IsRun(run, acts) && Initial(run[0], init) && k < |acts| && acts[k].AYield?
    ensures var s, s', now := run[k], run[k + 1], acts[k].now;
            && (forall t | t in s'.timeouts :: t in s.tcb && t in s.timeouts && s.tcb[t].wakeup > now)
            && (forall t | t in s.timeouts && t !in s'.timeouts :: t in s.tcb && s.tcb[t].wakeup <= now)
  {
    hide Inv, Expire, Yield, Initial, LockFree;
    RunKeepsInv(run, acts, init, k);
    assert Step(run[k], acts[k], run[k + 1]);
    YieldTimers(run[k], acts[k].c, acts[k].now);
    ExpireExact(Cede(run[k], acts[k].c), acts[k].now);
  }

  lemma YieldTimers(s: State, c: Core, now: nat)
    requires Inv(s) && c in s.cores && (s.cores[c].pc.Exec? || s.cores[c].pc.Ceding?)
    ensures s.cores[c].current in s.tcb && Inv(Cede(s, c)) && Cede(s, c).timeouts == s.timeouts
    ensures forall t | t in s.timeouts :: t in s.tcb && t in Cede(s, c).tcb && Cede(s, c).tcb[t].wakeup == s.tcb[t].wakeup
    ensures Yield(s, c, now).timeouts == Expire(Cede(s, c), now).timeouts
  {
    hide Inv, Expire;
    TimersInTable(s);
    ExpireLeavesReady(s, c, now);
  }

  lemma ExpireExact(s: State, now: nat)
    requires Inv(s)
    ensures var q := Expire(s, now).timeouts;
            && (forall t | t in q :: t in s.timeouts && t in s.tcb && s.tcb[t].wakeup > now)
            && (forall t | t in s.timeouts && t !in q :: t in s.tcb && s.tcb[t].wakeup <= now)
  {
    hide Inv, Expire, Sorted;
    TimersSorted(s);
    ExpireMeaning(s, now);
    DueExact(s.tcb, s.timeouts, now);
    var k := Due(s.tcb, s.timeouts, now);
    assert s.timeouts == s.timeouts[..k] + s.timeouts[k..];
  }

  /** The threads one timer loop puts on the ready queue go there in deadline order. */
  lemma {:induction false} WokenInOrder(tcb: map<Tid, Tcb>, q: seq<Tid>)
    requires (forall t | t in q :: t in tcb) && Sorted(tcb, q)
    ensures (forall t | t in CleanOnes(tcb, q) :: t in q) && Sorted(tcb, CleanOnes(tcb, q))
  {
    if q != [] {
      assert forall i | 0 <= i < |q[1..]| :: q[1..][i] == q[i + 1];
      WokenInOrder(tcb, q[1..]);
      var r := CleanOnes(tcb, q[1..]);
      assert forall i | 0 <= i < |r| :: r[i] in q[1..];
      forall t | t in q[1..] ensures tcb[q[0]].wakeup <= tcb[t].wakeup {
        var i :| 0 <= i < |q[1..]| && q[1..][i] == t;
        assert q[i + 1] == t;
      }
    }
  }

  /**
   * What one selection of a run wakes: the first m listed threads, all due; those with a clean context
   * join SCHED behind those already there, in the order of their deadlines and, when these are equal,
   * in the order of the list; then the head is taken.
   */
  lemma WokenJoinInOrder(run: seq<State>, acts: seq<Action>, init: Tid, k: nat) returns (m: nat)
    requires IsRun(run, acts) && Initial(run[0], init) && k < |acts| && acts[k].AYield?
    ensures var s, s' := run[k], run[k + 1];
            && QueuesInTable(s) && m <= |s.timeouts| && s'.timeouts == s.timeouts[m..]
            && (forall t | t in s.timeouts[..m] :: t in s.tcb && s.tcb[t].wakeup <= acts[k].now)
            && var woken := CleanOnes(s.tcb, s.timeouts[..m]);
               var q := s.sched + woken;
               && (forall t | t in woken :: t in s.tcb) && Sorted(s.tcb, woken)
               && s'.sched == if q == [] then [] else q[1..]
  {
    hide Inv, Yield, Initial, LockFree, Sorted;
    RunKeepsInv(run, acts, init, k);
    assert Step(run[k], acts[k], run[k + 1]);
    m := SelectionWakes(run[k], acts[k].c, acts[k].now);
  }

  lemma SelectionWakes(s: State, c: Core, now: nat) returns (m: nat)
    requires Inv(s) && c in s.cores && (s.cores[c].pc.Exec? || s.cores[c].pc.Ceding?)
    ensures var s' := Yield(s, c, now);
            && QueuesInTable(s) && m <= |s.timeouts| && s'.timeouts == s.timeouts[m..]
            && (forall t | t in s.timeouts[..m] :: t in s.tcb && s.tcb[t].wakeup <= now)
            && var woken := CleanOnes(s.tcb, s.timeouts[..m]);
               var q := s.sched + woken;
               && (forall t | t in woken :: t in s.tcb) && Sorted(s.tcb, woken)
               && s'.sched == if q == [] then [] else q[1..]
  {
    hide Inv, Expire, Sorted;
    YieldIs(s, c, now);
    TimersSorted(s);
    CedeLeavesTimers(s, c);
    var s1 := Cede(s, c);
    ExpireMeaning(s1, now);
    m := Due(s1.tcb, s1.timeouts, now);
    DueFrame(s.tcb, s1.tcb, s.timeouts, now);
    DueExact(s.tcb, s.timeouts, now);
    CleanFrame(s.tcb, s1.tcb, s.timeouts[..m]);
    PrefixSorted(s.tcb, s.timeouts, m);
    WokenInOrder(s.tcb, s.timeouts[..m]);
  }

  lemma CedeLeavesTimers(s: State, c: Core)
    requires Inv(s) && c in s.cores && s.cores[c].current in s.tcb
    ensures Cede(s, c).timeouts == s.timeouts && Cede(s, c).sched == s.sched
    ensures forall t | t in s.timeouts :: t in s.tcb && t in Cede(s, c).tcb && Cede(s, c).tcb[t] == s.tcb[t]
  {
    hide Inv;
    TimersInTable(s);
    if s.cores[c].current in s.timeouts {
      TimedIsStopped(s, s.cores[c].current);
    }
  }

  lemma PrefixSorted(tcb: map<Tid, Tcb>, q: seq<Tid>, m: nat)
    requires (forall t | t in q :: t in tcb) && Sorted(tcb, q) && m <= |q|
    ensures (forall t | t in q[..m] :: t in tcb) && Sorted(tcb, q[..m])
  {
  }

  /** A thread that goes to sleep with a timeout is listed behind all with an equal or earlier deadline, and before all others. */
  lemma ListedBehindEarlier(run: seq<State>, acts: seq<Action>, init: Tid, k: nat, u: Tid)
    requires IsRun(run, acts) && Initial(run[0], init) && k < |acts| && acts[k].ASleep?
    requires acts[k].state == STOPPED && acts[k].timeout != NO_TIMEOUT && u in run[k].timeouts
    ensures var s, s', a := run[k], run[k + 1], acts[k];
            && a.c in s.cores && u in s.tcb
            && var t := s.cores[a.c].current;
               if s.tcb[u].wakeup <= a.now + a.timeout then Before(s'.timeouts, u, t) else Before(s'.timeouts, t, u)
  {
    hide Inv, Initial, LockFree, Sorted, Before, Sleep;
    RunKeepsInv(run, acts, init, k);
    assert Step(run[k], acts[k], run[k + 1]);
    SleeperListed(run[k], acts[k].c, acts[k].timeout, acts[k].now, u);
  }

  lemma SleeperListed(s: State, c: Core, timeout: nat, now: nat, u: Tid)
    requires Inv(s) && c in s.cores && s.cores[c].current in s.tcb && timeout != NO_TIMEOUT && u in s.timeouts
    ensures QueuesInTable(s) && u in s.tcb
    ensures var t, q := s.cores[c].current, Sleep(s, c, STOPPED, timeout, now).timeouts;
            if s.tcb[u].wakeup <= now + timeout then Before(q, u, t) else Before(q, t, u)
  {
    hide Inv, Sorted, Before, InsertPos;
    TimersSorted(s);
    LaterBehind(s.tcb, s.timeouts, now + timeout);
    InsertedBetween(s.timeouts, InsertPos(s.tcb, s.timeouts, now + timeout), s.cores[c].current, u);
  }

  lemma InsertedBetween(q: seq<Tid>, p: nat, t: Tid, u: Tid)
    requires p <= |q| && u in q
    ensures u in q[..p] || u in q[p..]
    ensures u in q[..p] ==> Before(q[..p] + [t] + q[p..], u, t)
    ensures u in q[p..] ==> Before(q[..p] + [t] + q[p..], t, u)
  {
    var r := q[..p] + [t] + q[p..];
    assert q == q[..p] + q[p..];
    if u in q[..p] {
      var i :| 0 <= i < |q[..p]| && q[..p][i] == u;
      BeforeAt(r, i, p);
    }
    if u in q[p..] {
      var i :| 0 <= i < |q[p..]| && q[p..][i] == u;
      BeforeAt(r, p, p + 1 + i);
    }
  }

  /** No step exchanges two listed threads. */
  lemma TimersKeepTheirOrder(s: State, a: Action, t: Tid, u: Tid)
    requires Inv(s) && Enabled(s, a) && Before(s.timeouts, t, u) && t in Apply(s, a).timeouts && u in Apply(s, a).timeouts
    ensures Before(Apply(s, a).timeouts, t, u)
  {
    hide Inv, LockFree, Before, Yield, MakeReady, Sleep;
    TimersInTable(s);
    match a
    case AWakeup(c, x) => if s.tcb[x].state == STOPPED || s.tcb[x].state == INIT { WakingKeepsOrder(s, x, t, u); }
    case ASleep(c, state, timeout, now) => SleepingKeepsOrder(s, c, state, timeout, now, t, u);
    case AYield(c, now) => YieldingKeepsOrder(s, c, now, t, u);
    case AGain(c) => GainOk(s, c);
    case ASave(c) => InHand(s, c);
    case ALoad(c) => InHand(s, c);
    case _ =>
  }

  lemma WakingKeepsOrder(s: State, x: Tid, t: Tid, u: Tid)
    requires QueuesInTable(s) && x in s.tcb && Before(s.timeouts, t, u) && t in MakeReady(s, x).timeouts && u in MakeReady(s, x).timeouts
    ensures Before(MakeReady(s, x).timeouts, t, u)
  {
    hide Before, Distinct, Without;
    WithoutRemoves(s.timeouts, x);
    if s.tcb[x].wakeup != NO_TIMEOUT {
      BeforeWithout(s.timeouts, x, t, u);
    }
  }

  lemma SleepingKeepsOrder(s: State, c: Core, state: ThreadState, timeout: nat, now: nat, t: Tid, u: Tid)
    requires QueuesInTable(s) && c in s.cores && s.cores[c].current in s.tcb && Before(s.timeouts, t, u)
    ensures Before(Sleep(s, c, state, timeout, now).timeouts, t, u)
  {
    hide Before, Distinct, InsertPos;
    BeforeInsert(s.timeouts, InsertPos(s.tcb, s.timeouts, now + timeout), s.cores[c].current, t, u);
  }

  lemma YieldingKeepsOrder(s: State, c: Core, now: nat, t: Tid, u: Tid)
    requires Inv(s) && c in s.cores && (s.cores[c].pc.Exec? || s.cores[c].pc.Ceding?)
    requires Before(s.timeouts, t, u) && t in Yield(s, c, now).timeouts
    ensures Before(Yield(s, c, now).timeouts, t, u)
  {
    hide Inv, Before, Yield, CleanOnes, Sorted;
    var m := SelectionWakes(s, c, now);
    BeforeSuffix(s.timeouts, m, t, u);
  }

  /** So threads with equal deadlines stay in the order in which they were registered, for as long as they are listed. */
  lemma {:induction false} FirstComeFirstListed(run: seq<State>, acts: seq<Action>, init: Tid, i: nat, j: nat, t: Tid, u: Tid)
    requires IsRun(run, acts) && Initial(run[0], init) && i <= j < |run| && Before(run[i].timeouts, t, u)
    requires forall k | i <= k <= j :: t in run[k].timeouts && u in run[k].timeouts
    ensures Before(run[j].timeouts, t, u)
  {
    hide Inv, Initial, Enabled, Apply, Before;
    if i < j {
      FirstComeFirstListed(run, acts, init, i, j - 1, t, u);
      RunKeepsInv(run, acts, init, j - 1);
      assert Step(run[j - 1], acts[j - 1], run[j - 1 + 1]);
      TimersKeepTheirOrder(run[j - 1], acts[j - 1], t, u);
    }
  }

  // ------------------------------------------- bounded waiting and shutdown

  /** One step moves a queued thread forward only by a selection; then it is one place nearer, or picked. */
  lemma QueueProgress(s: State, a: Action, k: nat)
    requires Inv(s) && Enabled(s, a) && k < |s.sched|
    ensures var s', t := Apply(s, a), s.sched[k];
            if !a.AYield? then k < |s'.sched| && s'.sched[k] == t
            else if k == 0 then Picked(s', a.c) == Some(t)
            else k - 1 < |s'.sched| && s'.sched[k - 1] == t
  {
    hide Counts, ThreadOk, CoreOk, Queues;
    match a
    case AYield(c, now) => YieldPops(s, c, now);
    case AGain(c) => GainOk(s, c);
    case ASave(c) => InHand(s, c);
    case ALoad(c) => InHand(s, c);
    case _ =>
  }

  lemma YieldPops(s: State, c: Core, now: nat)
    requires Inv(s) && c in s.cores && (s.cores[c].pc.Exec? || s.cores[c].pc.Ceding?) && s.sched != []
    ensures var s' := Yield(s, c, now);
            Picked(s', c) == Some(s.sched[0]) && s.sched[1..] <= s'.sched
  {
    hide Counts, ThreadOk, CoreOk, Queues, Inv;
    assert s.sched[0] in s.sched;
    NotHeldWhenQueued(s, s.sched[0]);
    HeldBy(s, c);
    var s2, ready := BeforeChoice(s, c, now);
    ChoosePops(s2, c, ready, s.sched);
  }

  /** The state yield chooses in: timers expired, so the ready queue may only have grown at its end. */
  lemma BeforeChoice(s: State, c: Core, now: nat) returns (s2: State, ready: bool)
    requires Inv(s) && c in s.cores && (s.cores[c].pc.Exec? || s.cores[c].pc.Ceding?)
    ensures s.sched <= s2.sched && c in s2.cores && s2.cores[c].current == s.cores[c].current && s2.cores[c].current in s2.tcb
    ensures c in s2.idle && Chosen(s2, c, ready) in s2.tcb && Yield(s, c, now) == Choose(s2, c, ready)
  {
    hide Counts, ThreadOk, CoreOk, Queues;
    CedeKeeps(s, c);
    var s1 := Cede(s, c);
    ExpireLeavesReady(s, c, now);
    TimersInTable(s1);
    ExpireMeaning(s1, now);
    ready := s1.tcb[s.cores[c].current].state == READY;
    TimersInTable(s1);
    ExpireKeeps(s1, now);
    s2 := Expire(s1, now);
    ChosenInTable(s2, c, ready);
  }

  lemma ChoosePops(s: State, c: Core, ready: bool, q: seq<Tid>)
    requires c in s.cores && s.cores[c].current in s.tcb && c in s.idle && Chosen(s, c, ready) in s.tcb
    requires q != [] && q <= s.sched && q[0] != s.cores[c].current
    ensures Picked(Choose(s, c, ready), c) == Some(q[0]) && q[1..] <= Choose(s, c, ready).sched
  {
  }

  lemma NotHeldWhenQueued(s: State, t: Tid)
    requires Inv(s) && t in s.sched
    ensures t in s.tcb && s.tcb[t].holder == None
  {
    assert ThreadOk(s, t);
  }

  ghost function Selections(acts: seq<Action>): nat {
    if acts == [] then 0 else Selections(acts[..|acts| - 1]) + if acts[|acts| - 1].AYield? then 1 else 0
  }

  /**
   * Bounded waiting: along any run, after j <= k selections a thread that was at position k is at
   * position k - j, whatever the cores did; so exactly the (k+1)-th selection picks it.
   */
  lemma {:induction false} BoundedWaiting(run: seq<State>, acts: seq<Action>, k: nat)
    requires IsRun(run, acts) && Inv(run[0]) && k < |run[0].sched|
    requires Selections(acts) <= k
    ensures Inv(run[|acts|])
    ensures var s, p := run[|acts|], k - Selections(acts); p < |s.sched| && s.sched[p] == run[0].sched[k]
    decreases |acts|
  {
    hide Inv, Apply, Enabled;
    if acts != [] {
      var n := |acts| - 1;
      PrefixRun(run, acts);
      BoundedWaiting(run[..n + 1], acts[..n], k);
      assert Step(run[n], acts[n], run[n + 1]);
      StepKeepsInv(run[n], acts[n]);
      QueueProgress(run[n], acts[n], k - Selections(acts[..n]));
    }
  }

  lemma PrefixRun(run: seq<State>, acts: seq<Action>)
    requires IsRun(run, acts) && acts != []
    ensures IsRun(run[..|acts|], acts[..|acts| - 1])
  {
    forall i | 0 <= i < |acts| - 1 ensures Step(run[..|acts|][i], acts[..|acts| - 1][i], run[..|acts|][i + 1]) {
      assert Step(run[i], acts[i], run[i + 1]);
    }
  }

  lemma DispatchedByNextSelection(run: seq<State>, acts: seq<Action>, k: nat, a: Action)
    requires IsRun(run, acts) && Inv(run[0]) && k < |run[0].sched| && Selections(acts) == k
    requires a.AYield? && Enabled(run[|acts|], a)
    ensures Inv(run[|acts|]) && Picked(Apply(run[|acts|], a), a.c) == Some(run[0].sched[k])
  {
    hide Inv, Apply, Enabled;
    BoundedWaiting(run, acts, k);
    QueueProgress(run[|acts|], a, 0);
  }

  /** A TCB is freed only when its thread has exited, is in no list and in no core's hands any more. */
  lemma FreedOnlyWhenExited(run: seq<State>, acts: seq<Action>, init: Tid, k: nat, t: Tid)
    requires IsRun(run, acts) && Initial(run[0], init) && k < |acts| && t in run[k].tcb && t !in run[k + 1].tcb
    ensures var s, a := run[k], acts[k];
            && a.AGain? && s.tcb[t].state == EXITED && s.tcb[t].ttype.NORMAL_THREAD?
            && t !in s.sched && t !in s.timeouts && t !in run[k + 1].sched
            && (forall c | c in s.cores && c != a.c :: t != s.cores[c].current && t != Other(s, c))
  {
    hide Inv, Initial;
    RunKeepsInv(run, acts, init, k);
    assert Step(run[k], acts[k], run[k + 1]);
    FreedByGain(run[k], acts[k], t);
  }

  lemma FreedByGain(s: State, a: Action, t: Tid)
    requires Inv(s) && Enabled(s, a) && t in s.tcb && t !in Apply(s, a).tcb
    ensures a.AGain? && s.tcb[t].state == EXITED && s.tcb[t].ttype.NORMAL_THREAD?
    ensures t !in s.sched && t !in s.timeouts && t !in Apply(s, a).sched
    ensures forall c | c in s.cores && c != a.c :: t != s.cores[c].current && t != Other(s, c)
  {
    hide Counts, ThreadOk, CoreOk, Queues;
    if a.AGain? {
      GainOk(s, a.c);
      forall c | c in s.cores && c != a.c ensures t != s.cores[c].current && t != Other(s, c) {
        HeldBy(s, c);
      }
    } else if a.AYield? {
      ExpireLeavesReady(s, a.c, a.now);
      ExpireKeeps(Cede(s, a.c), a.now);
    } else if a.ASave? || a.ALoad? {
      InHand(s, a.c);
    }
  }

  /** active_threads is the number of normal threads, but for spawns and releases under way. */
  lemma ActiveCounts(s: State)
    requires Reachable(s)
    requires forall c | c in s.cores :: !s.cores[c].pc.Spawning? && !s.cores[c].pc.Releasing?
    ensures s.active == |set t | t in s.tcb && s.tcb[t].ttype.NORMAL_THREAD?|
  {
    ReachableInv(s);
    hide Queues, ThreadOk, CoreOk;
    assert s.counted == set t | t in s.tcb && s.tcb[t].ttype.NORMAL_THREAD?;
  }

  /** Clean shutdown: when an idle loop may leave, no normal thread is left and both lists are empty. */
  lemma CleanShutdown(s: State, c: Core)
    requires Inv(s) && Enabled(s, ALeave(c))
    ensures s.sched == [] && s.timeouts == []
    ensures forall t | t in s.tcb :: s.tcb[t].ttype.IDLE_THREAD?
  {
    hide Inv, LockFree;
    ListedAreNormal(s);
    NobodyCounted(s);
  }

  lemma NobodyCounted(s: State)
    requires Inv(s) && s.active <= 0
    ensures forall t | t in s.tcb :: s.tcb[t].ttype.IDLE_THREAD?
  {
    assert s.counted == {};
    forall t | t in s.tcb ensures s.tcb[t].ttype.IDLE_THREAD? {
      if Normal(s, t) {
        assert BeingSpawned(s, t);
        var d :| d in s.cores && s.cores[d].pc == Spawning(t);
        SpawnerCounted(s, d);
      }
    }
  }

  lemma ListedAreNormal(s: State)
    requires Inv(s)
    ensures forall t | t in s.sched || t in s.timeouts :: t in s.tcb && s.tcb[t].ttype.NORMAL_THREAD?
    ensures s.sched == [] || s.sched[0] in s.sched
    ensures s.timeouts == [] || s.timeouts[0] in s.timeouts
  {
    forall t | t in s.sched || t in s.timeouts ensures t in s.tcb && s.tcb[t].ttype.NORMAL_THREAD? {
      assert ThreadOk(s, t);
    }
  }

  lemma SpawnerCounted(s: State, d: Core)
    requires Inv(s) && d in s.cores && s.cores[d].pc.Spawning?
    ensures s.cores[d].current in s.counted
  {
    assert CoreOk(s, d);
    assert ThreadOk(s, s.cores[d].current);
  }

  /** In every run an idle loop leaves the scheduler only when both lists are empty and all normal threads are gone. */
  lemma ShutdownIsClean(run: seq<State>, acts: seq<Action>, init: Tid, k: nat)
    requires IsRun(run, acts) && Initial(run[0], init) && k < |acts| && acts[k].ALeave?
    ensures run[k].sched == [] && run[k].timeouts == [] && forall t | t in run[k].tcb :: run[k].tcb[t].ttype.IDLE_THREAD?
  {
    hide Inv, Initial, Enabled;
    RunKeepsInv(run, acts, init, k);
    assert Step(run[k], acts[k], run[k + 1]);
    CleanShutdown(run[k], acts[k].c);
  }
}
