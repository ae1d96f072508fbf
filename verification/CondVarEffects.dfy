// What a call of cv_wait, Cond_Signal or Cond_Broadcast has done when it returns, told from the call, in
// any run and whatever the other threads do meanwhile.

module CondVarEffects {
  import opened Lists
  import opened CondVars
  import opened KernelSem

  /** State k of a run from the start, and the step taken in it. */
  ghost predicate At(run: seq<State>, acts: seq<Action>, k: nat) {
    IsRun(run, acts) && Initial(run[0]) && k < |acts|
  }

  lemma AtInv(run: seq<State>, acts: seq<Action>, k: nat)
    requires At(run, acts, k)
    ensures Inv(run[k]) && Enabled(run[k], acts[k]) && run[k + 1] == Apply(run[k], acts[k])
  {
    hide Inv, Initial, Enabled, Apply;
    RunKeepsInv(run, acts, k);
    assert Enabled(run[k], acts[k]);
  }

  /** A call of thread t lasts from its step i to its step j, after which t is out of it. */
  ghost predicate CallLasts(run: seq<State>, acts: seq<Action>, i: nat, j: nat, t: Tid) {
    && At(run, acts, i) && At(run, acts, j) && i < j
    && (forall k | i < k <= j :: t in run[k].thr && run[k].thr[t].pc != Client)
    && t in run[j + 1].thr && run[j + 1].thr[t].pc == Client
  }

  // ------------------------------------------------------------- signalling

  /** t is in Cond_Signal or Cond_Broadcast on cv, before it has waitset_lock. */
  predicate Knocks(s: State, t: Tid, cv: Cv, all: bool) {
    t in s.thr && s.thr[t].pc.InSignal? && s.thr[t].pc.scv == cv && s.thr[t].pc.all == all && s.thr[t].pc.sig.Knocking?
  }

  /** And while it has the lock, which it got when the ring was q. */
  predicate Signals(s: State, t: Tid, cv: Cv, all: bool, q: seq<Tid>) {
    && t in s.thr && s.thr[t].pc.InSignal? && s.thr[t].pc.scv == cv && s.thr[t].pc.all == all && s.thr[t].pc.first == q
    && !s.thr[t].pc.sig.Knocking?
  }

  lemma PcStays(s: State, a: Action, t: Tid)
    requires Inv(s) && Enabled(s, a) && t in s.thr && a.t != t
    ensures t in Apply(s, a).thr && Apply(s, a).thr[t].pc == s.thr[t].pc
  {
    hide Inv, Apply, Enabled;
    StepMovesOne(s, a);
    assert Untouched(s, Apply(s, a), t);
  }

  lemma KnockingStep(s: State, a: Action, t: Tid, cv: Cv, all: bool)
    requires Inv(s) && Enabled(s, a) && Knocks(s, t, cv, all)
    ensures if a == DoSignal(t) then cv in s.ring && Signals(Apply(s, a), t, cv, all, s.ring[cv]) else Knocks(Apply(s, a), t, cv, all)
  {
    if a.t != t {
      hide Inv, Apply, Enabled;
      PcStays(s, a, t);
    } else {
      if s.thr[t].stopped { NotStopped(s, t); }
      hide Inv;
    }
  }

  lemma NotStopped(s: State, t: Tid)
    requires Inv(s) && t in s.thr && s.thr[t].stopped
    ensures s.thr[t].pc.InWait?
  {
    assert WaiterOk(s, t);
  }

  lemma SignallingStep(s: State, a: Action, t: Tid, cv: Cv, all: bool, q: seq<Tid>)
    requires Inv(s) && Enabled(s, a) && Signals(s, t, cv, all, q)
    ensures t in Apply(s, a).thr && (Signals(Apply(s, a), t, cv, all, q) || Apply(s, a).thr[t].pc == Client)
    ensures Apply(s, a).thr[t].pc == Client ==> a == DoSignal(t) && s.thr[t].pc.sig.Closing?
  {
    if a.t != t {
      hide Inv, Apply, Enabled;
      PcStays(s, a, t);
    } else {
      if s.thr[t].stopped { NotStopped(s, t); }
      hide Inv, SignalStep;
      OwnSignallingStep(s, t, cv, all, q);
    }
  }

  lemma OwnSignallingStep(s: State, t: Tid, cv: Cv, all: bool, q: seq<Tid>)
    requires CanSignalStep(s, t) && Signals(s, t, cv, all, q)
    ensures t in SignalStep(s, t).thr && (Signals(SignalStep(s, t), t, cv, all, q) || SignalStep(s, t).thr[t].pc == Client)
    ensures SignalStep(s, t).thr[t].pc == Client ==> s.thr[t].pc.sig.Closing?
  {
    match s.thr[t].pc.sig
    case Looking =>
    case Waking(_) =>
    case Marking(_) =>
    case Closing(_) =>
  }

  lemma {:induction false} KnocksUntilLocked(run: seq<State>, acts: seq<Action>, i: nat, l: nat, t: Tid, cv: Cv, all: bool)
    requires IsRun(run, acts) && Initial(run[0]) && i <= l < |run| && Knocks(run[i], t, cv, all)
    requires forall k | i <= k < l :: acts[k] != DoSignal(t)
    ensures Knocks(run[l], t, cv, all)
  {
    hide Inv, Initial, Enabled, Apply, Knocks;
    if i < l {
      KnocksUntilLocked(run, acts, i, l - 1, t, cv, all);
      AtInv(run, acts, l - 1);
      KnockingStep(run[l - 1], acts[l - 1], t, cv, all);
    }
  }

  lemma {:induction false} SignalsUntilReturn(run: seq<State>, acts: seq<Action>, l: nat, j: nat, t: Tid, cv: Cv, all: bool, q: seq<Tid>)
    requires IsRun(run, acts) && Initial(run[0]) && l <= j < |run| && Signals(run[l], t, cv, all, q)
    requires forall k | l < k <= j :: t in run[k].thr && run[k].thr[t].pc != Client
    ensures Signals(run[j], t, cv, all, q)
  {
    hide Inv, Initial, Enabled, Apply, Signals;
    if l < j {
      SignalsUntilReturn(run, acts, l, j - 1, t, cv, all, q);
      AtInv(run, acts, j - 1);
      SignallingStep(run[j - 1], acts[j - 1], t, cv, all, q);
    }
  }

  /** Step l is the one with which a call of Cond_Signal or Cond_Broadcast that t began with step i gets waitset_lock. */
  predicate GetsLock(acts: seq<Action>, i: nat, l: nat, t: Tid) {
    i < l < |acts| && acts[l] == DoSignal(t) && forall k | i < k < l :: acts[k] != DoSignal(t)
  }

  /** A thread taken off its ring, awake, and not yet back from cv_wait. */
  predicate AwakeOffRing(s: State, cv: Cv, w: Tid) {
    w in s.thr && s.thr[w].pc.InWait? && s.thr[w].pc.wcv == cv && !s.thr[w].stopped && s.thr[w].removed
    && cv in s.ring && w !in s.ring[cv]
  }

  lemma CallReaches(run: seq<State>, acts: seq<Action>, i: nat, l: nat, j: nat, t: Tid, cv: Cv, all: bool)
    requires CallLasts(run, acts, i, j, t) && acts[i] == CallSignal(t, cv, all) && GetsLock(acts, i, l, t)
    ensures l < j && j + 1 < |run| && cv in run[l].ring && Signals(run[j], t, cv, all, run[l].ring[cv]) && acts[j] == DoSignal(t)
    ensures run[j].thr[t].pc.sig.Closing? && Inv(run[j]) && run[j + 1] == Apply(run[j], acts[j]) && Enabled(run[j], acts[j])
  {
    hide Inv, Initial;
    AtInv(run, acts, i);
    assert Knocks(run[i + 1], t, cv, all);
    hide Apply, Enabled;
    if l > j {
      KnocksUntilLocked(run, acts, i + 1, j + 1, t, cv, all);
      assert false;
    }
    KnocksUntilLocked(run, acts, i + 1, l, t, cv, all);
    AtInv(run, acts, l);
    KnockingStep(run[l], acts[l], t, cv, all);
    if l < j {
      SignalsUntilReturn(run, acts, l + 1, j, t, cv, all, run[l].ring[cv]);
      AtInv(run, acts, j);
      SignallingStep(run[j], acts[j], t, cv, all, run[l].ring[cv]);
    }
  }

  /** The last step of a signaller only gives the lock up. */
  lemma ClosingStep(s: State, t: Tid)
    requires Enabled(s, DoSignal(t)) && s.thr[t].pc.sig.Closing?
    ensures var s' := Apply(s, DoSignal(t));
            && s'.ring == s.ring && (forall u | u in s.thr && u != t :: u in s'.thr && s'.thr[u] == s.thr[u])
  {
  }

  /**
   * Cond_Broadcast, from the call at step i to the return at step j: nobody is left on the ring, and all
   * who were on it when the lock was taken, at step l, are awake and off it.
   */
  lemma BroadcastDoes(run: seq<State>, acts: seq<Action>, i: nat, l: nat, j: nat, t: Tid, cv: Cv)
    requires CallLasts(run, acts, i, j, t) && acts[i] == CallSignal(t, cv, true) && GetsLock(acts, i, l, t)
    ensures l < j && cv in run[l].ring && cv in run[j + 1].ring && run[j + 1].ring[cv] == []
    ensures forall w | w in run[l].ring[cv] :: AwakeOffRing(run[j + 1], cv, w)
  {
    hide Inv, Initial, Apply, Enabled;
    CallReaches(run, acts, i, l, j, t, cv, true);
    ClosingStep(run[j], t);
    BroadcastClosing(run[j], t);
    var q := run[l].ring[cv];
    forall w | w in q ensures AwakeOffRing(run[j + 1], cv, w) {
      BroadcastReachesEveryone(run[j], t, w);
    }
  }

  lemma BroadcastClosing(s: State, t: Tid)
    requires Inv(s) && t in s.thr && s.thr[t].pc.InSignal? && s.thr[t].pc.sig.Closing? && s.thr[t].pc.all
    ensures s.thr[t].pc.scv in s.ring && s.ring[s.thr[t].pc.scv] == []
  {
    assert SignallerOk(s, t);
  }

  /**
   * Cond_Signal, likewise. Either it woke nobody: the ring is empty, and all who were on it when the lock
   * was taken are awake, none through a signal. Or it woke and signalled one, w: the ring was then pre,
   * w and what it is now; those of pre are awake, none through a signal, and those still on the ring are
   * not signalled.
   */
  lemma SignalDoes(run: seq<State>, acts: seq<Action>, i: nat, l: nat, j: nat, t: Tid, cv: Cv) returns (pre: seq<Tid>, woke: Option<Tid>)
    requires CallLasts(run, acts, i, j, t) && acts[i] == CallSignal(t, cv, false) && GetsLock(acts, i, l, t)
    ensures l < j && cv in run[l].ring && cv in run[j + 1].ring
    ensures run[l].ring[cv] == pre + (if woke.Some? then [woke.value] else []) + run[j + 1].ring[cv]
    ensures woke == None ==> run[j + 1].ring[cv] == []
    ensures forall w | w in pre :: AwakeOffRing(run[j + 1], cv, w) && run[j + 1].thr[w].cause != BySignal
    ensures woke.Some? ==> var w := woke.value;
              AwakeOffRing(run[j + 1], cv, w) && run[j + 1].thr[w].signalled && run[j + 1].thr[w].cause == BySignal
    ensures var s' := run[j + 1]; forall w | w in s'.ring[cv] :: w in s'.thr && !s'.thr[w].signalled
  {
    hide Inv, Initial, Apply, Enabled;
    CallReaches(run, acts, i, l, j, t, cv, false);
    ClosingStep(run[j], t);
    SignalsInOrder(run[j], t);
    pre, woke := SignalOutcome(run[j], run[j + 1], t);
  }

  lemma SignalOutcome(s: State, s': State, t: Tid) returns (pre: seq<Tid>, woke: Option<Tid>)
    requires Inv(s) && t in s.thr && s.thr[t].pc.InSignal? && s.thr[t].pc.sig.Closing? && SignalledInOrder(s, t)
    requires s'.ring == s.ring && (forall u | u in s.thr && u != t :: u in s'.thr && s'.thr[u] == s.thr[u])
    ensures var cv := s.thr[t].pc.scv;
            && cv in s.ring && s.thr[t].pc.first == pre + (if woke.Some? then [woke.value] else []) + s.ring[cv]
            && (woke == None ==> s.ring[cv] == [])
            && (forall w | w in pre :: AwakeOffRing(s', cv, w) && s'.thr[w].cause != BySignal)
            && (woke.Some? ==> AwakeOffRing(s', cv, woke.value) && s'.thr[woke.value].signalled && s'.thr[woke.value].cause == BySignal)
            && (forall w | w in s.ring[cv] :: w in s'.thr && !s'.thr[w].signalled)
  {
    hide PlaceOk, WaiterOk, SignallerOk, CvOk;
    var pc := s.thr[t].pc;
    var q, r := pc.first, s.ring[pc.scv];
    OffRing(s, pc.scv);
    woke := pc.sig.woke;
    pre := if woke.Some? then q[..|q| - |r| - 1] else q;
    if woke.Some? {
      assert q == q[..|q| - |r| - 1] + [q[|q| - |r| - 1]] + q[|q| - |r|..];
    } else {
      assert q + [] + [] == q;
    }
    forall w | w in r ensures w in s'.thr && !s'.thr[w].signalled && w != t {
      RingSleeping(s, pc.scv, w);
    }
    forall w | w in pre ensures Skipped(s, pc.scv, false, w) {
      var k :| 0 <= k < |pre| && pre[k] == w;
      assert q[k] == w;
    }
  }

  lemma RingSleeping(s: State, cv: Cv, w: Tid)
    requires Inv(s) && cv in s.ring && w in s.ring[cv]
    ensures w in s.thr && s.thr[w].pc.InWait?
  {
    RingOnce(s, w, cv);
  }

  /** A waiter that has been removed is not on the ring. */
  lemma OffRing(s: State, cv: Cv)
    requires Inv(s) && cv in s.ring
    ensures forall w | w in s.thr && s.thr[w].removed :: w !in s.ring[cv]
  {
    assert CvOk(s, cv);
  }

  // --------------------------------------------------------------- waiting

  predicate Has(s: State, m: Mx, t: Tid) {
    m in s.mutex && s.mutex[m] == Some(t)
  }

  /** t is in cv_wait(m, cv), and has the mutex until it is on the ring, not after. */
  predicate Waits(s: State, t: Tid, m: Mx, cv: Cv) {
    t in s.thr && s.thr[t].pc.InWait? && s.thr[t].pc.m == m && s.thr[t].pc.wcv == cv && (Has(s, m, t) <==> BeforeUnlock(s.thr[t].pc.wait))
  }

  lemma MutexStays(s: State, a: Action, t: Tid, m: Mx)
    requires Inv(s) && Enabled(s, a) && a.t != t
    ensures Has(Apply(s, a), m, t) <==> Has(s, m, t)
  {
    hide Inv, Apply, Enabled;
    StepMovesOne(s, a);
  }

  lemma WaitingStep(s: State, a: Action, t: Tid, m: Mx, cv: Cv)
    requires Inv(s) && Enabled(s, a) && Waits(s, t, m, cv)
    ensures || Waits(Apply(s, a), t, m, cv)
            || (a == DoWait(t) && s.thr[t].pc.wait == Relocking && t in Apply(s, a).thr && Apply(s, a).thr[t].pc == Client)
  {
    hide Inv;
    if a.t != t {
      PcStays(s, a, t);
      MutexStays(s, a, t, m);
    } else if a.DoWait? {
      OwnWaitingStep(s, t, m, cv);
    }
  }

  lemma OwnWaitingStep(s: State, t: Tid, m: Mx, cv: Cv)
    requires CanWaitStep(s, t) && Waits(s, t, m, cv)
    ensures Waits(WaitStep(s, t), t, m, cv) || s.thr[t].pc.wait == Relocking
    ensures s.thr[t].pc.wait == Relocking ==> t in WaitStep(s, t).thr && WaitStep(s, t).thr[t].pc == Client
  {
    match s.thr[t].pc.wait
    case Entering =>
    case Pushing =>
    case Unlocking =>
    case Stopping =>
    case Asleep =>
    case Tidying =>
    case Leaving =>
    case Relocking =>
  }

  lemma WaitStarts(s: State, t: Tid, m: Mx, cv: Cv)
    requires Enabled(s, CallWait(t, m, cv))
    ensures var s' := Apply(s, CallWait(t, m, cv)); Waits(s', t, m, cv) && s'.thr[t].cause == NotWoken
  {
  }

  /** From the call on, t waits until the step with which it returns. */
  lemma {:induction false} WaitsUntilReturn(run: seq<State>, acts: seq<Action>, i: nat, k: nat, j: nat, t: Tid, m: Mx, cv: Cv)
    requires CallLasts(run, acts, i, j, t) && acts[i] == CallWait(t, m, cv) && i < k <= j
    ensures Waits(run[k], t, m, cv)
  {
    hide Inv, Initial, Apply, Enabled, Waits;
    if k == i + 1 {
      AtInv(run, acts, i);
      WaitStarts(run[i], t, m, cv);
    } else {
      WaitsUntilReturn(run, acts, i, k - 1, j, t, m, cv);
      AtInv(run, acts, k - 1);
      WaitingStep(run[k - 1], acts[k - 1], t, m, cv);
    }
  }

  /** Whatever made t READY: a signaller of its condition variable that had it in hand, or something else. */
  ghost predicate WokenAt(s: State, a: Action, t: Tid, cv: Cv, signalled: bool) {
    && t in s.thr && SleepsOn(s.thr[t], cv) && s.thr[t].stopped && cv in s.wlock
    && if signalled then a.DoSignal? && s.wlock[cv] == Some(a.t) && SignallerAt(s, cv, Waking(t)) else a == OtherWakeup(t)
  }

  /** No step but the one that wakes t writes t's cause. */
  lemma CauseStep(s: State, a: Action, t: Tid, m: Mx, cv: Cv)
    requires Inv(s) && Enabled(s, a) && Waits(s, t, m, cv)
    ensures t in Apply(s, a).thr
    ensures var c, c' := s.thr[t].cause, Apply(s, a).thr[t].cause;
            || c' == c
            || (c == NotWoken && c' == ByOther && WokenAt(s, a, t, cv, false))
            || (c == NotWoken && c' == BySignal && WokenAt(s, a, t, cv, true))
  {
    hide SignallerOk, CvOk, PlaceOk, WaitStep, SignalStep, Inv;
    if s.thr[t].stopped { NotYetWoken(s, t); }
    if a.DoWait? {
      WaitCause(s, a.t, t);
    } else if a.DoSignal? {
      TargetOk(s, a.t);
      SignalCause(s, a.t, t);
    }
  }

  lemma NotYetWoken(s: State, t: Tid)
    requires Inv(s) && t in s.thr && s.thr[t].stopped
    ensures s.thr[t].pc.InWait? && s.thr[t].pc.wait == Asleep && s.thr[t].cause == NotWoken && s.thr[t].pc.wcv in s.wlock
  {
    hide SignallerOk, CvOk;
    assert WaiterOk(s, t) && PlaceOk(s, t);
  }

  lemma WaitCause(s: State, u: Tid, t: Tid)
    requires CanWaitStep(s, u) && t in s.thr
    ensures t in WaitStep(s, u).thr && WaitStep(s, u).thr[t].cause == s.thr[t].cause
  {
  }

  lemma SignalCause(s: State, u: Tid, t: Tid)
    requires CanSignalStep(s, u) && t in s.thr && Target(s, u) in s.thr
    ensures t in SignalStep(s, u).thr
    ensures || SignalStep(s, u).thr[t].cause == s.thr[t].cause
            || (s.thr[u].pc.sig == Waking(t) && Target(s, u) == t != u && s.thr[t].stopped && SignalStep(s, u).thr[t].cause == BySignal)
  {
  }

  /** The step that made t READY, once there is one. */
  lemma {:induction false} WokenBefore(run: seq<State>, acts: seq<Action>, i: nat, k: nat, j: nat, t: Tid, m: Mx, cv: Cv) returns (w: nat)
    requires CallLasts(run, acts, i, j, t) && acts[i] == CallWait(t, m, cv) && i < k <= j && run[k].thr[t].cause != NotWoken
    ensures i < w < k && WokenAt(run[w], acts[w], t, cv, run[k].thr[t].cause == BySignal)
    ensures forall v | w < v <= k :: run[v].thr[t].cause == run[k].thr[t].cause
  {
    hide Inv, Initial, Apply, Enabled, Waits, WokenAt;
    if k == i + 1 {
      AtInv(run, acts, i);
      WaitStarts(run[i], t, m, cv);
      assert false;
    } else {
      WaitsUntilReturn(run, acts, i, k - 1, j, t, m, cv);
      AtInv(run, acts, k - 1);
      CauseStep(run[k - 1], acts[k - 1], t, m, cv);
      if run[k - 1].thr[t].cause == run[k].thr[t].cause {
        w := WokenBefore(run, acts, i, k - 1, j, t, m, cv);
      } else {
        w := k - 1;
      }
    }
  }

  /** On no ring. */
  predicate OnNoRing(s: State, t: Tid) {
    forall cv | cv in s.ring :: t !in s.ring[cv]
  }

  /**
   * cv_wait(m, cv), from the call at step i to the return at step j. In between t has the mutex just until
   * it is on the ring. At step w, with t STOPPED, something made it READY: a signaller of cv that had it in
   * hand, and then cv_wait says 1, or something else, and then it says 0. It returns with the mutex and on
   * no ring.
   */
  lemma WaitDoes(run: seq<State>, acts: seq<Action>, i: nat, j: nat, t: Tid, m: Mx, cv: Cv) returns (w: nat)
    requires CallLasts(run, acts, i, j, t) && acts[i] == CallWait(t, m, cv)
    ensures forall k | i < k <= j :: Waits(run[k], t, m, cv)
    ensures i < w < j && j + 1 < |run| && WokenAt(run[w], acts[w], t, cv, run[j + 1].thr[t].result)
    ensures acts[j] == DoWait(t) && Has(run[j + 1], m, t) && OnNoRing(run[j + 1], t)
  {
    hide Inv, Initial, WokenAt;
    forall k | i < k <= j ensures Waits(run[k], t, m, cv) {
      hide Waits;
      WaitsUntilReturn(run, acts, i, k, j, t, m, cv);
    }
    WaitsUntilReturn(run, acts, i, j, j, t, m, cv);
    AtInv(run, acts, j);
    hide Apply, Enabled;
    WaitingStep(run[j], acts[j], t, m, cv);
    assert Enabled(run[j], acts[j]) ==> CanWaitStep(run[j], t) by { assert acts[j] == DoWait(t); ApplyWait(run[j], t); }
    WaitsReturnRightly(run, acts, j, t);
    CauseAtReturn(run[j], t);
    w := WokenBefore(run, acts, i, j, j, t, m, cv);
  }

  lemma ApplyWait(s: State, t: Tid)
    ensures Enabled(s, DoWait(t)) <==> CanWaitStep(s, t)
  {
  }

  lemma CauseAtReturn(s: State, t: Tid)
    requires Inv(s) && t in s.thr && s.thr[t].pc.InWait? && s.thr[t].pc.wait == Relocking
    ensures s.thr[t].cause != NotWoken
  {
    assert WaiterOk(s, t);
  }

  // ------------------------------------------------------- arrival on a ring

  /** How a step changes a ring: its mutex's holder joins at the end, or someone is taken off. */
  ghost predicate RingMoves(s: State, s': State, a: Action, cv: Cv) {
    && cv in s.ring && cv in s'.ring
    && var q, q' := s.ring[cv], s'.ring[cv];
    || q' == q
    || (a.DoWait? && q' == q + [a.t] && a.t !in q && a.t in s.thr && s.thr[a.t].pc.InWait? && Has(s, s.thr[a.t].pc.m, a.t))
    || (a.DoWait? && a.t in q && q' == Without(q, a.t))
    || (a.DoSignal? && q != [] && q' == q[1..])
  }

  lemma RingStep(s: State, a: Action, cv: Cv)
    requires Inv(s) && Enabled(s, a) && cv in s.ring
    ensures RingMoves(s, Apply(s, a), a, cv) && Distinct(s.ring[cv])
  {
    hide WaiterOk, SignallerOk, WaitStep, SignalStep;
    assert CvOk(s, cv);
    if a.DoWait? {
      assert PlaceOk(s, a.t);
      hide Inv;
      WaitRing(s, a.t, cv);
    } else if a.DoSignal? {
      hide Inv;
      SignalRing(s, a.t, cv);
    }
  }

  lemma WaitRing(s: State, t: Tid, cv: Cv)
    requires CanWaitStep(s, t) && PlaceOk(s, t) && cv in s.ring && CvOk(s, cv)
    ensures RingMoves(s, WaitStep(s, t), DoWait(t), cv)
  {
  }

  lemma SignalRing(s: State, t: Tid, cv: Cv)
    requires CanSignalStep(s, t) && cv in s.ring
    ensures RingMoves(s, SignalStep(s, t), DoSignal(t), cv)
  {
  }

  /** Waiters stay on a ring in the order in which they came. */
  lemma OrderStep(s: State, a: Action, cv: Cv, u: Tid, v: Tid)
    requires Inv(s) && Enabled(s, a) && cv in s.ring && Lists.Before(s.ring[cv], u, v)
    ensures cv in Apply(s, a).ring && (u in Apply(s, a).ring[cv] && v in Apply(s, a).ring[cv] ==> Lists.Before(Apply(s, a).ring[cv], u, v))
  {
    hide Inv, Enabled, Apply;
    RingStep(s, a, cv);
    var q, q' := s.ring[cv], Apply(s, a).ring[cv];
    if u in q' && v in q' && q' != q {
      if q' == q + [a.t] {
        BeforeInsert(q, |q|, a.t, u, v);
        assert q[..|q|] + [a.t] + q[|q|..] == q + [a.t];
      } else if a.DoWait? {
        WithoutRemoves(q, a.t);
        BeforeWithout(q, a.t, u, v);
      } else {
        BeforeSuffix(q, 1, u, v);
      }
    }
  }

  /** Of two waiters that stay on a ring, the one in front stays in front. */
  lemma {:induction false} FirstComeFirstOnRing(run: seq<State>, acts: seq<Action>, i: nat, j: nat, cv: Cv, u: Tid, v: Tid)
    requires IsRun(run, acts) && Initial(run[0]) && i <= j < |run| && cv in run[i].ring && Lists.Before(run[i].ring[cv], u, v)
    requires forall k | i < k <= j :: cv in run[k].ring && u in run[k].ring[cv] && v in run[k].ring[cv]
    ensures cv in run[j].ring && Lists.Before(run[j].ring[cv], u, v)
  {
    hide Inv, Initial, Enabled, Apply, Lists.Before;
    if i < j {
      FirstComeFirstOnRing(run, acts, i, j - 1, cv, u, v);
      AtInv(run, acts, j - 1);
      OrderStep(run[j - 1], acts[j - 1], cv, u, v);
    }
  }

  // ---------------------------------------------------- how long a call takes

  function WaitStage(at: WaitAt): nat {
    match at
    case Entering => 0
    case Pushing => 1
    case Unlocking => 2
    case Stopping => 3
    case Asleep => 4
    case Tidying => 5
    case Leaving => 6
    case Relocking => 7
  }

  /** How many steps of its own t has made in cv_wait. */
  function StepsMade(s: State, t: Tid): nat {
    if t !in s.thr then 0
    else match s.thr[t].pc
      case InWait(_, _, at) => WaitStage(at)
      case _ => 8
  }

  function CountWait(acts: seq<Action>, i: nat, k: nat, t: Tid): nat
    requires i <= k <= |acts|
  {
    if k == i then 0 else CountWait(acts, i, k - 1, t) + if acts[k - 1] == DoWait(t) then 1 else 0
  }

  lemma OwnWaitAdvances(s: State, t: Tid)
    requires CanWaitStep(s, t)
    ensures StepsMade(WaitStep(s, t), t) == StepsMade(s, t) + 1
  {
    match s.thr[t].pc.wait
    case Entering =>
    case Pushing =>
    case Unlocking =>
    case Stopping =>
    case Asleep =>
    case Tidying =>
    case Leaving =>
    case Relocking =>
  }

  lemma WaitAdvances(s: State, a: Action, t: Tid)
    requires Inv(s) && Enabled(s, a) && t in s.thr && s.thr[t].pc.InWait?
    ensures t in Apply(s, a).thr
    ensures StepsMade(Apply(s, a), t) == StepsMade(s, t) + if a == DoWait(t) then 1 else 0
  {
    hide Inv, WaitStep;
    if a.t != t {
      PcStays(s, a, t);
    } else if a.DoWait? {
      OwnWaitAdvances(s, t);
    }
  }

  lemma WaitStartsAtZero(s: State, t: Tid, m: Mx, cv: Cv)
    requires Enabled(s, CallWait(t, m, cv))
    ensures StepsMade(Apply(s, CallWait(t, m, cv)), t) == 0
  {
  }

  lemma {:induction false} StepsAreCounted(run: seq<State>, acts: seq<Action>, i: nat, k: nat, t: Tid, m: Mx, cv: Cv)
    requires At(run, acts, i) && acts[i] == CallWait(t, m, cv) && i < k < |run|
    requires forall l | i < l < k :: t in run[l].thr && run[l].thr[t].pc.InWait?
    ensures StepsMade(run[k], t) == CountWait(acts, i + 1, k, t)
  {
    hide Inv, Initial, Apply, Enabled, StepsMade;
    AtInv(run, acts, k - 1);
    if k == i + 1 {
      WaitStartsAtZero(run[i], t, m, cv);
    } else {
      StepsAreCounted(run, acts, i, k - 1, t, m, cv);
      WaitAdvances(run[k - 1], acts[k - 1], t);
    }
  }

  /** cv_wait returns with the eighth step its thread makes in it, so none of them is made twice or left out. */
  lemma WaitTakesEightSteps(run: seq<State>, acts: seq<Action>, i: nat, j: nat, t: Tid, m: Mx, cv: Cv)
    requires CallLasts(run, acts, i, j, t) && acts[i] == CallWait(t, m, cv)
    ensures CountWait(acts, i + 1, j + 1, t) == 8
  {
    hide Inv, Initial, Apply, Enabled;
    forall l | i < l < j + 1 ensures t in run[l].thr && run[l].thr[t].pc.InWait? {
      WaitsUntilReturn(run, acts, i, l, j, t, m, cv);
    }
    StepsAreCounted(run, acts, i, j + 1, t, m, cv);
  }

  /** At most how many steps a signaller still has to make. */
  function StepsLeft(s: State, t: Tid, cv: Cv): nat {
    if t !in s.thr || !s.thr[t].pc.InSignal? || cv !in s.ring then 0
    else
      var n := |s.ring[cv]|;
      match s.thr[t].pc.sig
      case Knocking => 3 * n + 3
      case Looking => 3 * n + 2
      case Waking(_) => 3 * n + 4
      case Marking(_) => 3 * n + 3
      case Closing(_) => 1
  }

  lemma OwnSignalLeaves(s: State, t: Tid, cv: Cv)
    requires CanSignalStep(s, t) && s.thr[t].pc.scv == cv
    ensures StepsLeft(SignalStep(s, t), t, cv) < StepsLeft(s, t, cv)
  {
    match s.thr[t].pc.sig
    case Knocking =>
    case Looking =>
    case Waking(_) =>
    case Marking(_) =>
    case Closing(_) =>
  }

  /** The ring does not change while t has its lock, but by t. */
  lemma RingStays(s: State, a: Action, t: Tid, cv: Cv, all: bool, q: seq<Tid>)
    requires Inv(s) && Enabled(s, a) && Signals(s, t, cv, all, q) && a.t != t
    ensures cv in s.ring && cv in Apply(s, a).ring && Apply(s, a).ring[cv] == s.ring[cv]
  {
    hide Inv, Apply, Enabled;
    HoldsLock(s, t);
    var w := StepFrame(s, a);
  }

  lemma HoldsLock(s: State, t: Tid)
    requires Inv(s) && t in s.thr && s.thr[t].pc.InSignal? && !s.thr[t].pc.sig.Knocking?
    ensures var cv := s.thr[t].pc.scv; cv in s.ring && cv in s.wlock && s.wlock[cv] == Some(t)
  {
    hide WaiterOk, SignallerOk;
    assert PlaceOk(s, t);
  }

  lemma StepFrame(s: State, a: Action) returns (w: Tid)
    requires Inv(s) && Enabled(s, a)
    ensures Frame(s, Apply(s, a), a.t, w)
  {
    hide Inv, Frame, WaitStep, SignalStep;
    w := if a.DoSignal? then Target(s, a.t) else a.t;
    match a
    case DoWait(t) => WaitFrame(s, t);
    case DoSignal(t) =>
      TargetOk(s, t);
      SignalFrame(s, t);
    case _ => ClientFrame(s, a);
  }

  lemma SignalAdvances(s: State, a: Action, t: Tid, cv: Cv, all: bool, q: seq<Tid>)
    requires Inv(s) && Enabled(s, a) && Signals(s, t, cv, all, q)
    ensures StepsLeft(Apply(s, a), t, cv) + (if a == DoSignal(t) then 1 else 0) <= StepsLeft(s, t, cv)
  {
    hide Inv, SignalStep;
    if a.t != t {
      PcStays(s, a, t);
      RingStays(s, a, t, cv, all, q);
    } else {
      if s.thr[t].stopped { NotStopped(s, t); }
      OwnSignalLeaves(s, t, cv);
    }
  }

  function CountSignal(acts: seq<Action>, i: nat, k: nat, t: Tid): nat
    requires i <= k <= |acts|
  {
    if k == i then 0 else CountSignal(acts, i, k - 1, t) + if acts[k - 1] == DoSignal(t) then 1 else 0
  }

  lemma {:induction false} StepsLeftBound(run: seq<State>, acts: seq<Action>, l: nat, k: nat, t: Tid, cv: Cv, all: bool, q: seq<Tid>)
    requires IsRun(run, acts) && Initial(run[0]) && l <= k < |run| && Signals(run[l], t, cv, all, q)
    requires forall n | l < n < k :: t in run[n].thr && run[n].thr[t].pc != Client
    ensures StepsLeft(run[k], t, cv) + CountSignal(acts, l, k, t) <= StepsLeft(run[l], t, cv)
  {
    hide Inv, Initial, Enabled, Apply, Signals, StepsLeft;
    if l < k {
      StepsLeftBound(run, acts, l, k - 1, t, cv, all, q);
      SignalsUntilReturn(run, acts, l, k - 1, t, cv, all, q);
      AtInv(run, acts, k - 1);
      SignalAdvances(run[k - 1], acts[k - 1], t, cv, all, q);
    }
  }

  /**
   * A signaller is soon done with the lock it got at step l: it makes at most three steps for each waiter
   * on the ring then, and two more, whatever the other threads do meanwhile.
   */
  lemma SignallersFinish(run: seq<State>, acts: seq<Action>, l: nat, k: nat, t: Tid, cv: Cv, all: bool)
    requires At(run, acts, l) && acts[l] == DoSignal(t) && Knocks(run[l], t, cv, all) && l < k < |run|
    requires forall n | l < n < k :: t in run[n].thr && run[n].thr[t].pc != Client
    ensures cv in run[l].ring && CountSignal(acts, l + 1, k, t) <= 3 * |run[l].ring[cv]| + 2
  {
    hide Inv, Initial, Enabled, Apply, Knocks, Signals, StepsLeft;
    AtInv(run, acts, l);
    KnockingStep(run[l], acts[l], t, cv, all);
    StepsLeftBound(run, acts, l + 1, k, t, cv, all, run[l].ring[cv]);
    StepsLeftAtLock(run[l], t, cv, all);
  }

  lemma StepsLeftAtLock(s: State, t: Tid, cv: Cv, all: bool)
    requires Enabled(s, DoSignal(t)) && Knocks(s, t, cv, all)
    ensures cv in s.ring && StepsLeft(Apply(s, DoSignal(t)), t, cv) <= 3 * |s.ring[cv]| + 2
  {
  }

  // -------------------------------------------------------------- progress

  /** A thread in cv_wait can go on unless it is STOPPED or finds one of the two locks taken. */
  lemma WaiterMoves(s: State, t: Tid)
    requires Reachable(s) && t in s.thr && s.thr[t].pc.InWait?
    ensures var x := s.thr[t];
            && x.pc.wcv in s.wlock && x.pc.m in s.mutex
            && (Enabled(s, DoWait(t)) <==>
                && (x.pc.wait == Entering || x.pc.wait == Asleep ==> s.wlock[x.pc.wcv] == None)
                && (x.pc.wait == Relocking ==> s.mutex[x.pc.m] == None)
                && !x.stopped)
  {
    hide SignallerOk, CvOk;
    ReachableInv(s);
    assert PlaceOk(s, t) && WaiterOk(s, t);
  }

  /** One in Cond_Signal or Cond_Broadcast can go on unless it finds waitset_lock taken. */
  lemma SignallerMoves(s: State, t: Tid)
    requires Reachable(s) && t in s.thr && s.thr[t].pc.InSignal?
    ensures var pc := s.thr[t].pc;
            pc.scv in s.wlock && (Enabled(s, DoSignal(t)) <==> (pc.sig.Knocking? ==> s.wlock[pc.scv] == None))
  {
    hide WaiterOk;
    ReachableInv(s);
    assert PlaceOk(s, t) && SignallerOk(s, t);
    var pc := s.thr[t].pc;
    if pc.sig.Looking? && s.ring[pc.scv] != [] {
      RingSleeps(s, t, s.ring[pc.scv][0]);
    }
  }

  /** A thread in none of these calls may make any, and lock a free mutex; and a STOPPED one can be woken from elsewhere. */
  lemma ClientsMove(s: State, t: Tid, m: Mx, cv: Cv, all: bool)
    requires Reachable(s) && t in s.thr && m in s.mutex && cv in s.ring
    ensures s.thr[t].pc == Client ==>
              && Enabled(s, CallSignal(t, cv, all))
              && (Enabled(s, Lock(t, m)) <==> s.mutex[m] == None)
              && (Has(s, m, t) <==> Enabled(s, CallWait(t, m, cv)))
              && (Has(s, m, t) <==> Enabled(s, Unlock(t, m)))
              && (Has(s, m, t) <==> Enabled(s, ExitReleasing(t, m)))
    ensures s.thr[t].stopped <==> Enabled(s, OtherWakeup(t))
    ensures s.thr[t].stopped ==> var r := Apply(s, OtherWakeup(t)); t in r.thr && !r.thr[t].stopped && r.thr[t].cause == ByOther
  {
    ReachableInv(s);
    LockHolder(s, cv);
  }

  /** Nobody waits for a waitset_lock in vain: who has one can take its next step at once. */
  lemma LockHolderMoves(s: State, cv: Cv)
    requires Reachable(s) && cv in s.ring && cv in s.wlock && s.wlock[cv].Some?
    ensures var t := s.wlock[cv].value; Enabled(s, DoWait(t)) || Enabled(s, DoSignal(t))
  {
    hide Inv, Enabled, Reachable;
    var t := s.wlock[cv].value;
    assert Inv(s) by { ReachableInv(s); }
    LockHolder(s, cv);
    if s.thr[t].pc.InWait? {
      if s.thr[t].stopped { NotYetWoken(s, t); }
      WaiterMoves(s, t);
    } else {
      SignallerMoves(s, t);
    }
  }

  /** A mutex changes hands only so, and a step of another thread never gives it to t or takes it from t. */
  lemma MutexMoves(s: State, a: Action, m: Mx)
    requires Inv(s) && Enabled(s, a) && m in s.mutex
    ensures var s' := Apply(s, a);
            && m in s'.mutex
            && (if a == Lock(a.t, m) then s.mutex[m] == None && s'.mutex[m] == Some(a.t)
                else if a == Unlock(a.t, m) || a == ExitReleasing(a.t, m) then s.mutex[m] == Some(a.t) && s'.mutex[m] == None
                else if !a.DoWait? then s'.mutex[m] == s.mutex[m]
                else s'.mutex[m] != s.mutex[m] ==> a.t in s.thr && s.thr[a.t].pc.InWait? && s.thr[a.t].pc.m == m)
  {
    hide WaiterOk, SignallerOk, CvOk, PlaceOk, SignalStep, WaitStep, Inv;
    if a.DoSignal? {
      SignalMutex(s, a.t);
    } else if a.DoWait? {
      WaitMutex(s, a.t, m);
    }
  }

  lemma SignalMutex(s: State, t: Tid)
    requires CanSignalStep(s, t)
    ensures SignalStep(s, t).mutex == s.mutex
  {
  }

  lemma WaitMutex(s: State, t: Tid, m: Mx)
    requires CanWaitStep(s, t) && m in s.mutex
    ensures m in WaitStep(s, t).mutex && (m != s.thr[t].pc.m ==> WaitStep(s, t).mutex[m] == s.mutex[m])
  {
  }
}
