// Condition variables (kernel_cc.c): cv_wait, cv_signal, Cond_Signal and Cond_Broadcast over
// any number of threads, mutexes and condition variables, in steps finer than the functions.
//
// A thread's waiter structure lives on its stack, so a thread has at most one, and a ring of
// waiters is a sequence of thread numbers whose first element is cv->waitset.

module CondVars {
  import opened Lists

  type Tid = nat
  type Cv = nat
  type Mx = nat

  // What made a sleeping thread READY; a history variable of the current wait.
  datatype Cause = NotWoken | BySignal | ByOther

  // Where a thread stands inside cv_wait.
  datatype WaitAt =
    | Entering     // waiter made, about to lock waitset_lock
    | Pushing      // has waitset_lock; about to join the ring
    | Unlocking    // in the ring; about to unlock the mutex
    | Stopping     // about to sleep, releasing waitset_lock
    | Asleep       // after sleep_releasing; runs on once it is not STOPPED
    | Tidying      // has waitset_lock again
    | Leaving      // surely off the ring; about to unlock waitset_lock
    | Relocking    // about to lock the mutex and return

  // Where a thread stands inside Cond_Signal or Cond_Broadcast.
  datatype SignalAt =
    | Knocking                     // about to lock waitset_lock
    | Looking                      // at the head of cv_signal's loop
    | Waking(w: Tid)               // w is off the ring; about to call wakeup
    | Marking(w: Tid)              // wakeup said 1; about to set w's signalled
    | Closing(woke: Option<Tid>)   // about to unlock waitset_lock

  /** `first` is a history variable: the ring when the signaller got the lock. */
  datatype Pc =
    | Client
    | InWait(m: Mx, wcv: Cv, wait: WaitAt)
    | InSignal(scv: Cv, all: bool, first: seq<Tid>, sig: SignalAt)
    | Exited

  /** A thread, with the fields of its waiter; `result` is what its last cv_wait returned. */
  datatype Thread = Thread(pc: Pc, stopped: bool, removed: bool, signalled: bool, cause: Cause, result: bool)

  datatype State = State(thr: map<Tid, Thread>, ring: map<Cv, seq<Tid>>,
                         wlock: map<Cv, Option<Tid>>, mutex: map<Mx, Option<Tid>>)

  // -------------------------------------------------------------- the steps

  function SetThread(s: State, t: Tid, x: Thread): State {
    s.(thr := s.thr[t := x])
  }

  function SetWait(s: State, t: Tid, at: WaitAt): State
    requires t in s.thr && s.thr[t].pc.InWait?
  {
    SetThread(s, t, s.thr[t].(pc := s.thr[t].pc.(wait := at)))
  }

  function SetSignal(s: State, t: Tid, at: SignalAt): State
    requires t in s.thr && s.thr[t].pc.InSignal?
  {
    SetThread(s, t, s.thr[t].(pc := s.thr[t].pc.(sig := at)))
  }

  /** The next step inside cv_wait is possible now. */
  predicate CanWaitStep(s: State, t: Tid) {
    && t in s.thr && s.thr[t].pc.InWait?
    && var x := s.thr[t];
    && x.pc.wcv in s.ring && x.pc.wcv in s.wlock && x.pc.m in s.mutex
    && (x.pc.wait == Entering ==> s.wlock[x.pc.wcv] == None)
    && (x.pc.wait == Asleep ==> !x.stopped && s.wlock[x.pc.wcv] == None)
    && (x.pc.wait == Relocking ==> s.mutex[x.pc.m] == None)
  }

  function WaitStep(s: State, t: Tid): State
    requires CanWaitStep(s, t)
  {
    var x := s.thr[t];
    var m, cv := x.pc.m, x.pc.wcv;
    match x.pc.wait
    case Entering => SetWait(s, t, Pushing).(wlock := s.wlock[cv := Some(t)])
    case Pushing => SetWait(s, t, Unlocking).(ring := s.ring[cv := s.ring[cv] + [t]])
    case Unlocking => SetWait(s, t, Stopping).(mutex := s.mutex[m := None])
    case Stopping => SetThread(s, t, x.(pc := x.pc.(wait := Asleep), stopped := true)).(wlock := s.wlock[cv := None])
    case Asleep => SetWait(s, t, Tidying).(wlock := s.wlock[cv := Some(t)])
    case Tidying => SetWait(s, t, Leaving).(ring := if x.removed then s.ring else s.ring[cv := Without(s.ring[cv], t)])
    case Leaving => SetWait(s, t, Relocking).(wlock := s.wlock[cv := None])
    case Relocking => SetThread(s, t, x.(pc := Client, result := x.signalled)).(mutex := s.mutex[m := Some(t)])
  }

  /** The next step inside Cond_Signal or Cond_Broadcast is possible now. */
  predicate CanSignalStep(s: State, t: Tid) {
    && t in s.thr && s.thr[t].pc.InSignal?
    && var pc := s.thr[t].pc;
    && pc.scv in s.ring && pc.scv in s.wlock
    && (pc.sig.Knocking? ==> s.wlock[pc.scv] == None)
    && (pc.sig.Looking? && s.ring[pc.scv] != [] ==> s.ring[pc.scv][0] in s.thr && s.ring[pc.scv][0] != t)
    && (pc.sig.Waking? || pc.sig.Marking? ==> pc.sig.w in s.thr && pc.sig.w != t)
  }

  function SignalStep(s: State, t: Tid): State
    requires CanSignalStep(s, t)
  {
    var pc := s.thr[t].pc;
    var cv := pc.scv;
    match pc.sig
    case Knocking =>
      SetThread(s, t, s.thr[t].(pc := pc.(sig := Looking, first := s.ring[cv]))).(wlock := s.wlock[cv := Some(t)])
    case Looking =>
      if s.ring[cv] == [] then SetSignal(s, t, Closing(None))
      else
        var w := s.ring[cv][0];
        SetThread(SetSignal(s, t, Waking(w)), w, s.thr[w].(removed := true)).(ring := s.ring[cv := s.ring[cv][1..]])
    case Waking(w) =>
      if s.thr[w].stopped
      then SetThread(SetSignal(s, t, Marking(w)), w, s.thr[w].(stopped := false, cause := BySignal))
      else SetSignal(s, t, Looking)
    case Marking(w) =>
      SetThread(SetSignal(s, t, if pc.all then Looking else Closing(Some(w))), w, s.thr[w].(signalled := true))
    case Closing(woke) => SetThread(s, t, s.thr[t].(pc := Client)).(wlock := s.wlock[cv := None])
  }

  /** Calls, plain locking, and wakeups by a timer or another kernel routine, besides those steps. */
  datatype Action =
    | DoWait(t: Tid)
    | DoSignal(t: Tid)
    | CallWait(t: Tid, m: Mx, cv: Cv)
    | CallSignal(t: Tid, cv: Cv, all: bool)
    | Lock(t: Tid, m: Mx)
    | Unlock(t: Tid, m: Mx)
    | OtherWakeup(t: Tid)
    | ExitReleasing(t: Tid, m: Mx)

  predicate Enabled(s: State, a: Action) {
    match a
    case DoWait(t) => CanWaitStep(s, t)
    case DoSignal(t) => CanSignalStep(s, t)
    case CallWait(t, m, cv) => t in s.thr && s.thr[t].pc.Client? && m in s.mutex && s.mutex[m] == Some(t) && cv in s.ring && cv in s.wlock
    case CallSignal(t, cv, _) => t in s.thr && s.thr[t].pc.Client? && cv in s.ring && cv in s.wlock
    case Lock(t, m) => t in s.thr && s.thr[t].pc.Client? && m in s.mutex && s.mutex[m] == None
    case Unlock(t, m) => t in s.thr && s.thr[t].pc.Client? && m in s.mutex && s.mutex[m] == Some(t)
    case OtherWakeup(t) => t in s.thr && s.thr[t].stopped
    case ExitReleasing(t, m) => t in s.thr && s.thr[t].pc.Client? && m in s.mutex && s.mutex[m] == Some(t)
  }

  function Apply(s: State, a: Action): State
    requires Enabled(s, a)
  {
    match a
    case DoWait(t) => WaitStep(s, t)
    case DoSignal(t) => SignalStep(s, t)
    case CallWait(t, m, cv) => SetThread(s, t, Thread(InWait(m, cv, Entering), false, false, false, NotWoken, s.thr[t].result))
    case CallSignal(t, cv, all) => SetThread(s, t, s.thr[t].(pc := InSignal(cv, all, [], Knocking)))
    case Lock(t, m) => s.(mutex := s.mutex[m := Some(t)])
    case Unlock(t, m) => s.(mutex := s.mutex[m := None])
    case OtherWakeup(t) => SetThread(s, t, s.thr[t].(stopped := false, cause := ByOther))
    case ExitReleasing(t, m) => SetThread(s, t, s.thr[t].(pc := Exited)).(mutex := s.mutex[m := None])
  }

  // ---------------------------------------------------------- the invariant

  /** The waitset_lock a thread holds at this point. */
  function HeldSet(pc: Pc): Option<Cv> {
    match pc
    case InWait(_, cv, at) =>
      if at == Pushing || at == Unlocking || at == Stopping || at == Tidying || at == Leaving then Some(cv) else None
    case InSignal(cv, _, _, at) => if at.Knocking? then None else Some(cv)
    case _ => None
  }

  /** The mutex cv_wait still holds for its caller. */
  function HeldMutex(pc: Pc): Option<Mx> {
    match pc
    case InWait(m, _, at) => if at == Entering || at == Pushing || at == Unlocking then Some(m) else None
    case _ => None
  }

  /** The condition variable whose ring the thread's waiter is in, unless it was removed. */
  function RingOf(pc: Pc): Option<Cv> {
    match pc
    case InWait(_, cv, at) => if at == Unlocking || at == Stopping || at == Asleep || at == Tidying then Some(cv) else None
    case _ => None
  }

  /** Off its processor inside cv_wait on `cv`. */
  predicate SleepsOn(x: Thread, cv: Cv) {
    x.pc.InWait? && x.pc.wcv == cv && x.pc.wait == Asleep
  }

  /** The holder of waitset_lock of `cv` stands at `at`. */
  predicate SignallerAt(s: State, cv: Cv, at: SignalAt) {
    && cv in s.wlock && s.wlock[cv].Some? && s.wlock[cv].value in s.thr
    && var pc := s.thr[s.wlock[cv].value].pc; pc.InSignal? && pc.sig == at
  }

  /** A waiter's flags, point by point. */
  ghost predicate WaiterOk(s: State, t: Tid)
    requires t in s.thr
  {
    var x := s.thr[t];
    && (x.stopped ==> x.pc.InWait? && x.pc.wait == Asleep && x.cause == NotWoken)
    && (x.signalled ==> x.removed)
    && (x.pc.InWait? ==>
          match x.pc.wait
          case Asleep =>
            && (!x.stopped ==> x.cause != NotWoken)
            && (x.stopped && x.removed ==> SignallerAt(s, x.pc.wcv, Waking(t)))
            && (x.signalled ==> x.cause == BySignal)
            && (x.cause == BySignal ==> x.removed && (x.signalled || SignallerAt(s, x.pc.wcv, Marking(t))))
          case Tidying => x.cause != NotWoken && (x.signalled <==> x.cause == BySignal)
          case Leaving => x.cause != NotWoken && (x.signalled <==> x.cause == BySignal)
          case Relocking => x.cause != NotWoken && (x.signalled <==> x.cause == BySignal)
          case _ => !x.removed && x.cause == NotWoken)
  }

  /** A waiter a signaller has taken off the ring and found awake, or has woken. */
  predicate Done(s: State, cv: Cv, t: Tid) {
    t in s.thr && SleepsOn(s.thr[t], cv) && !s.thr[t].stopped && s.thr[t].removed
  }

  /** One that a signaller has passed over: awake, and not through a signal, unless it is broadcasting. */
  predicate Skipped(s: State, cv: Cv, all: bool, t: Tid) {
    Done(s, cv, t) && (all || s.thr[t].cause != BySignal)
  }

  /** A signaller has gone through `first` up to `ahead`. */
  ghost predicate Passed(s: State, cv: Cv, all: bool, first: seq<Tid>, ahead: seq<Tid>) {
    && |ahead| <= |first| && first[|first| - |ahead|..] == ahead
    && (forall i | 0 <= i < |first| - |ahead| :: Skipped(s, cv, all, first[i]))
  }

  /** The waiter a signaller has in hand. */
  predicate InHand(s: State, cv: Cv, w: Tid) {
    w in s.thr && SleepsOn(s.thr[w], cv) && s.thr[w].removed && !s.thr[w].signalled
  }

  ghost predicate SignallerOk(s: State, t: Tid)
    requires t in s.thr
  {
    s.thr[t].pc.InSignal? ==>
      var cv, all, first := s.thr[t].pc.scv, s.thr[t].pc.all, s.thr[t].pc.first;
      && cv in s.ring
      && match s.thr[t].pc.sig
         case Knocking => true
         case Looking => Passed(s, cv, all, first, s.ring[cv])
         case Waking(w) => Passed(s, cv, all, first, [w] + s.ring[cv]) && InHand(s, cv, w) && s.thr[w].cause != BySignal
         case Marking(w) => Passed(s, cv, all, first, [w] + s.ring[cv]) && InHand(s, cv, w) && s.thr[w].cause == BySignal && !s.thr[w].stopped
         case Closing(None) => Passed(s, cv, all, first, []) && s.ring[cv] == []
         case Closing(Some(w)) =>
           && !all && Passed(s, cv, all, first, [w] + s.ring[cv])
           && Done(s, cv, w) && s.thr[w].signalled && s.thr[w].cause == BySignal
  }

  ghost predicate PlaceOk(s: State, t: Tid)
    requires t in s.thr
  {
    var x := s.thr[t];
    && (HeldSet(x.pc).Some? ==> var cv := HeldSet(x.pc).value; cv in s.wlock && s.wlock[cv] == Some(t))
    && (HeldMutex(x.pc).Some? ==> var m := HeldMutex(x.pc).value; m in s.mutex && s.mutex[m] == Some(t))
    && (x.pc.InWait? ==> x.pc.wcv in s.ring && x.pc.wcv in s.wlock && x.pc.m in s.mutex)
    && (x.pc.InSignal? ==> x.pc.scv in s.ring && x.pc.scv in s.wlock)
    && (RingOf(x.pc).Some? && !x.removed ==> RingOf(x.pc).value in s.ring && t in s.ring[RingOf(x.pc).value])
  }

  ghost predicate CvOk(s: State, cv: Cv)
    requires cv in s.ring
  {
    && cv in s.wlock && Distinct(s.ring[cv])
    && (forall t | t in s.ring[cv] :: t in s.thr && RingOf(s.thr[t].pc) == Some(cv) && !s.thr[t].removed)
    && (s.wlock[cv].Some? ==> s.wlock[cv].value in s.thr && HeldSet(s.thr[s.wlock[cv].value].pc) == Some(cv))
  }

  ghost predicate Inv(s: State) {
    && (forall t | t in s.thr :: PlaceOk(s, t) && WaiterOk(s, t) && SignallerOk(s, t))
    && (forall cv | cv in s.ring :: CvOk(s, cv))
  }

  // ------------------------------------------------------ every step keeps it

  /**
   * A step of thread `t` that touches no thread but `t` and `w`: locks change hands only to or from
   * `t`, and a ring changes only while `t` holds its waitset_lock.
   */
  ghost predicate Frame(s: State, s': State, t: Tid, w: Tid) {
    && t in s.thr && w in s.thr
    && (forall u :: u in s'.thr <==> u in s.thr)
    && (forall u | u in s.thr && u != t && u != w :: s'.thr[u] == s.thr[u])
    && (forall c :: c in s'.ring <==> c in s.ring)
    && (forall c :: c in s'.wlock <==> c in s.wlock)
    && (forall m :: m in s'.mutex <==> m in s.mutex)
    && (forall c | c in s.wlock && s'.wlock[c] != s.wlock[c] ::
          (s.wlock[c] == None || s.wlock[c] == Some(t)) && (s'.wlock[c] == None || s'.wlock[c] == Some(t)))
    && (forall m | m in s.mutex && s'.mutex[m] != s.mutex[m] :: s.mutex[m] == None || s.mutex[m] == Some(t))
    && (forall c | c in s.ring && s'.ring[c] != s.ring[c] :: c in s.wlock && s.wlock[c] == Some(t))
    && (forall c, u | c in s.ring && u != t && u != w && u in s.ring[c] :: u in s'.ring[c])
    && (s.thr[t].pc.InSignal? && s.thr[t].pc.sig.Waking? ==> w == s.thr[t].pc.sig.w)
    && (s.thr[t].pc.InSignal? && s.thr[t].pc.sig.Marking? ==> w == s.thr[t].pc.sig.w)
    && (w != t ==> s.thr[w].pc.InWait? && s.thr[w].pc.wait == Asleep && s.thr[w].pc.wcv in s.wlock && s.wlock[s.thr[w].pc.wcv] == Some(t))
    && (s.thr[t].pc.InWait? && s.thr[t].pc.wait == Asleep && s.thr[t].pc.wcv in s.wlock && s.wlock[s.thr[t].pc.wcv].Some? ==>
          s.thr[t].stopped && s'.thr[t] == s.thr[t].(stopped := false, cause := ByOther))
  }

  lemma OtherPlace(s: State, s': State, t: Tid, w: Tid, u: Tid)
    requires Inv(s) && Frame(s, s', t, w) && u in s.thr && u != t && u != w
    ensures PlaceOk(s', u)
  {
    hide WaiterOk, SignallerOk, CvOk;
    assert PlaceOk(s, u);
  }

  lemma OtherWaiter(s: State, s': State, t: Tid, w: Tid, u: Tid)
    requires Frame(s, s', t, w) && u in s.thr && u != t && u != w && WaiterOk(s, u)
    requires s.thr[u].pc.InWait? ==> var cv := s.thr[u].pc.wcv;
               cv in s.wlock && (s.wlock[cv].Some? ==> s.wlock[cv].value in s.thr && HeldSet(s.thr[s.wlock[cv].value].pc) == Some(cv))
    ensures WaiterOk(s', u)
  {
    if s.thr[u].pc.InWait? {
      var cv := s.thr[u].pc.wcv;
      if SignallerAt(s, cv, Waking(u)) || SignallerAt(s, cv, Marking(u)) {
        assert s.wlock[cv].value != t && s.wlock[cv].value != w;
        assert s'.wlock[cv] == s.wlock[cv];
      }
    }
  }

  /** Who holds a waitset_lock stands where it is held. */
  lemma LockHolder(s: State, cv: Cv)
    requires Inv(s) && cv in s.ring
    ensures cv in s.wlock
    ensures s.wlock[cv].Some? ==> s.wlock[cv].value in s.thr && HeldSet(s.thr[s.wlock[cv].value].pc) == Some(cv)
  {
    assert CvOk(s, cv);
  }

  /** While `u` holds waitset_lock, a sleeper of that ring changes at most by a wakeup that is not a signal. */
  lemma SleeperKept(s: State, s': State, t: Tid, w: Tid, u: Tid, v: Tid, cv: Cv)
    requires Frame(s, s', t, w) && u != t && u != w && cv in s.wlock && s.wlock[cv] == Some(u)
    requires v in s.thr && SleepsOn(s.thr[v], cv)
    ensures v in s'.thr && (s'.thr[v] == s.thr[v] ||
              (s.thr[v].stopped && s'.thr[v] == s.thr[v].(stopped := false, cause := ByOther)))
  {
  }

  lemma PassedKept(s: State, s': State, t: Tid, w: Tid, u: Tid, cv: Cv, all: bool, first: seq<Tid>, ahead: seq<Tid>)
    requires Frame(s, s', t, w) && u != t && u != w && cv in s.wlock && s.wlock[cv] == Some(u)
    requires Passed(s, cv, all, first, ahead)
    ensures Passed(s', cv, all, first, ahead)
  {
    forall i | 0 <= i < |first| - |ahead| ensures Skipped(s', cv, all, first[i]) {
      assert Skipped(s, cv, all, first[i]);
      SleeperKept(s, s', t, w, u, first[i], cv);
    }
  }

  lemma HolderKept(s: State, s': State, t: Tid, w: Tid, u: Tid, cv: Cv)
    requires Frame(s, s', t, w) && u in s.thr && u != t && u != w
    requires cv in s.wlock && cv in s.ring && s.wlock[cv] == Some(u)
    ensures u in s'.thr && cv in s'.ring && s'.ring[cv] == s.ring[cv]
  {
  }

  lemma OtherSignaller(s: State, s': State, t: Tid, w: Tid, u: Tid)
    requires Inv(s) && Frame(s, s', t, w) && u in s.thr && u != t && u != w
    requires u in s'.thr && s'.thr[u] == s.thr[u] && (forall c :: c in s'.ring <==> c in s.ring)
    ensures SignallerOk(s', u)
  {
    hide WaiterOk, CvOk, Frame, Passed;
    assert SignallerOk(s, u) && PlaceOk(s, u);
    hide Inv;
    var pc := s.thr[u].pc;
    if pc.InSignal? && !pc.sig.Knocking? {
      HolderKept(s, s', t, w, u, pc.scv);
      match pc.sig {
        case Looking => PassedKept(s, s', t, w, u, pc.scv, pc.all, pc.first, s.ring[pc.scv]);
        case Closing(None) => PassedKept(s, s', t, w, u, pc.scv, pc.all, pc.first, []);
        case Waking(v) =>
          PassedKept(s, s', t, w, u, pc.scv, pc.all, pc.first, [v] + s.ring[pc.scv]);
          SleeperKept(s, s', t, w, u, v, pc.scv);
        case Marking(v) =>
          PassedKept(s, s', t, w, u, pc.scv, pc.all, pc.first, [v] + s.ring[pc.scv]);
          SleeperKept(s, s', t, w, u, v, pc.scv);
        case Closing(Some(v)) =>
          PassedKept(s, s', t, w, u, pc.scv, pc.all, pc.first, [v] + s.ring[pc.scv]);
          SleeperKept(s, s', t, w, u, v, pc.scv);
      }
    }
  }

  lemma OtherThread(s: State, s': State, t: Tid, w: Tid, u: Tid)
    requires Inv(s) && Frame(s, s', t, w) && u in s.thr && u != t && u != w
    ensures u in s'.thr && PlaceOk(s', u) && WaiterOk(s', u) && SignallerOk(s', u)
  {
    hide CvOk, WaiterOk, SignallerOk;
    OtherPlace(s, s', t, w, u);
    assert PlaceOk(s, u);
    if s.thr[u].pc.InWait? {
      LockHolder(s, s.thr[u].pc.wcv);
    }
    OtherWaiter(s, s', t, w, u);
    OtherSignaller(s, s', t, w, u);
  }

  /** With the frame settled, a step's invariant is that of the threads and rings it touched. */
  lemma FrameInv(s: State, s': State, t: Tid, w: Tid)
    requires Inv(s) && Frame(s, s', t, w)
    requires t in s'.thr && PlaceOk(s', t) && WaiterOk(s', t) && SignallerOk(s', t)
    requires w in s'.thr && PlaceOk(s', w) && WaiterOk(s', w) && SignallerOk(s', w)
    requires forall cv | cv in s.ring :: cv in s'.ring && CvOk(s', cv)
    ensures Inv(s')
  {
    hide PlaceOk, WaiterOk, SignallerOk, CvOk;
    forall u | u in s'.thr ensures PlaceOk(s', u) && WaiterOk(s', u) && SignallerOk(s', u) {
      if u != t && u != w {
        assert u in s.thr by { assert Frame(s, s', t, w); }
        OtherThread(s, s', t, w, u);
      }
    }
    assert forall cv | cv in s'.ring :: cv in s.ring;
  }

  /** A ring a step does not touch, while its lock is not handed over from someone else. */
  lemma CvKept(s: State, s': State, t: Tid, w: Tid, cv: Cv)
    requires Inv(s) && Frame(s, s', t, w) && cv in s.ring && s'.ring[cv] == s.ring[cv]
    requires forall u | (u == t || u == w) && u in s.ring[cv] ::
               u in s'.thr && RingOf(s'.thr[u].pc) == Some(cv) && !s'.thr[u].removed
    requires cv in s'.wlock && (s'.wlock[cv] == Some(t) ==> t in s'.thr && HeldSet(s'.thr[t].pc) == Some(cv))
    requires w != t ==> s'.wlock[cv] != Some(w)
    ensures CvOk(s', cv)
  {
    hide PlaceOk, WaiterOk, SignallerOk;
    assert CvOk(s, cv);
  }

  // ---- steps inside cv_wait

  lemma WaitFrame(s: State, t: Tid)
    requires Inv(s) && CanWaitStep(s, t)
    ensures Frame(s, WaitStep(s, t), t, t)
  {
    hide WaiterOk, SignallerOk;
    assert PlaceOk(s, t);
    assert CvOk(s, s.thr[t].pc.wcv);
    hide Inv, CvOk, Frame, WaitStep;
    var q := s.ring[s.thr[t].pc.wcv];
    WithoutRemoves(q, t);
    hide Distinct, Without;
    if s.thr[t].pc.wait == Pushing || s.thr[t].pc.wait == Tidying {
      WaitFrameRing(s, t);
    } else {
      WaitFrameLocks(s, t);
    }
  }

  lemma WaitFrameRing(s: State, t: Tid)
    requires CanWaitStep(s, t) && PlaceOk(s, t) && (s.thr[t].pc.wait == Pushing || s.thr[t].pc.wait == Tidying)
    requires forall u | u != t :: u in Without(s.ring[s.thr[t].pc.wcv], t) <==> u in s.ring[s.thr[t].pc.wcv]
    ensures Frame(s, WaitStep(s, t), t, t)
  {
    hide Without;
  }

  lemma WaitFrameLocks(s: State, t: Tid)
    requires CanWaitStep(s, t) && PlaceOk(s, t) && s.thr[t].pc.wait != Pushing && s.thr[t].pc.wait != Tidying
    ensures Frame(s, WaitStep(s, t), t, t)
  {
  }

  lemma WaitSelfPlace(s: State, t: Tid)
    requires CanWaitStep(s, t) && PlaceOk(s, t)
    ensures var s' := WaitStep(s, t); t in s'.thr && PlaceOk(s', t) && SignallerOk(s', t)
  {
    assert t in WaitStep(s, t).thr && !WaitStep(s, t).thr[t].pc.InSignal?;
    hide SignallerOk;
    WaitPlace(s, t);
  }

  lemma WaitPlace(s: State, t: Tid)
    requires CanWaitStep(s, t) && PlaceOk(s, t)
    ensures t in WaitStep(s, t).thr && PlaceOk(WaitStep(s, t), t)
  {
    match s.thr[t].pc.wait
    case Entering =>
    case Pushing =>
    case Unlocking =>
    case Stopping =>
    case Asleep =>
    case Tidying =>
    case Leaving =>
    case Relocking =>
  }

  lemma WaitSelf(s: State, t: Tid)
    requires CanWaitStep(s, t) && PlaceOk(s, t) && WaiterOk(s, t)
    requires s.wlock[s.thr[t].pc.wcv] != Some(t) || HeldSet(s.thr[t].pc).Some?
    ensures var s' := WaitStep(s, t); t in s'.thr && PlaceOk(s', t) && WaiterOk(s', t) && SignallerOk(s', t)
  {
    WaitSelfPlace(s, t);
    hide SignallerOk, PlaceOk, WaiterOk, WaitStep;
    WaitSelfFlags(s, t);
  }

  lemma WaitSelfFlags(s: State, t: Tid)
    requires CanWaitStep(s, t) && WaiterOk(s, t)
    requires s.wlock[s.thr[t].pc.wcv] != Some(t) || HeldSet(s.thr[t].pc).Some?
    ensures t in WaitStep(s, t).thr && WaiterOk(WaitStep(s, t), t)
  {
    match s.thr[t].pc.wait
    case Entering =>
    case Pushing =>
    case Unlocking =>
    case Stopping =>
    case Asleep =>
    case Tidying =>
    case Leaving =>
    case Relocking =>
  }

  lemma WaitCv(s: State, t: Tid, cv: Cv)
    requires Inv(s) && CanWaitStep(s, t) && cv in s.ring && Frame(s, WaitStep(s, t), t, t)
    ensures cv in WaitStep(s, t).ring && CvOk(WaitStep(s, t), cv)
  {
    hide SignallerOk, Frame;
    assert PlaceOk(s, t) && WaiterOk(s, t);
    assert CvOk(s, cv);
    if cv == s.thr[t].pc.wcv {
      WaitCvOwn(s, t);
    } else {
      hide CvOk, WaiterOk;
      if t in s.ring[cv] {
        RingOnce(s, t, cv);
      }
      CvKept(s, WaitStep(s, t), t, t, cv);
    }
  }

  /** A waiter is in no other ring than that of its own condition variable. */
  lemma RingOnce(s: State, t: Tid, cv: Cv)
    requires Inv(s) && cv in s.ring && t in s.ring[cv]
    ensures t in s.thr && RingOf(s.thr[t].pc) == Some(cv) && !s.thr[t].removed
  {
    assert CvOk(s, cv);
  }

  lemma WaitCvOwn(s: State, t: Tid)
    requires CanWaitStep(s, t) && PlaceOk(s, t) && WaiterOk(s, t) && CvOk(s, s.thr[t].pc.wcv)
    ensures CvOk(WaitStep(s, t), s.thr[t].pc.wcv)
  {
    var cv, s' := s.thr[t].pc.wcv, WaitStep(s, t);
    WithoutRemoves(s.ring[cv], t);
    match s.thr[t].pc.wait
    case Pushing =>
      assert t !in s.ring[cv];
      assert Distinct(s.ring[cv] + [t]);
    case Tidying =>
    case _ =>
  }

  lemma WaitKeeps(s: State, t: Tid)
    requires Inv(s) && CanWaitStep(s, t)
    ensures Inv(WaitStep(s, t))
  {
    hide CvOk, Frame, PlaceOk, WaiterOk, SignallerOk, WaitStep;
    WaitFrame(s, t);
    LockHolder(s, s.thr[t].pc.wcv);
    WaitSelf(s, t);
    forall cv | cv in s.ring ensures cv in WaitStep(s, t).ring && CvOk(WaitStep(s, t), cv) {
      WaitCv(s, t, cv);
    }
    FrameInv(s, WaitStep(s, t), t, t);
  }

  // ---- steps inside Cond_Signal and Cond_Broadcast

  /** The waiter a signaller's next step works on. */
  function Target(s: State, t: Tid): Tid
    requires CanSignalStep(s, t)
  {
    var pc := s.thr[t].pc;
    match pc.sig
    case Looking => if s.ring[pc.scv] != [] then s.ring[pc.scv][0] else t
    case Waking(w) => w
    case Marking(w) => w
    case _ => t
  }

  /** Everyone in the ring is asleep, or awake and not yet through, while a signaller holds the lock. */
  lemma RingSleeps(s: State, t: Tid, w: Tid)
    requires Inv(s) && t in s.thr && s.thr[t].pc.InSignal? && !s.thr[t].pc.sig.Knocking? && s.thr[t].pc.scv in s.ring
    requires w in s.ring[s.thr[t].pc.scv]
    ensures w in s.thr && SleepsOn(s.thr[w], s.thr[t].pc.scv) && !s.thr[w].removed && WaiterOk(s, w) && PlaceOk(s, w)
  {
    hide SignallerOk;
    RingOnce(s, w, s.thr[t].pc.scv);
    assert PlaceOk(s, t) && PlaceOk(s, w);
  }

  lemma TargetOk(s: State, t: Tid)
    requires Inv(s) && CanSignalStep(s, t)
    ensures Target(s, t) in s.thr && WaiterOk(s, Target(s, t)) && PlaceOk(s, Target(s, t))
    ensures var w := Target(s, t); w != t ==> SleepsOn(s.thr[w], s.thr[t].pc.scv) && s.wlock[s.thr[t].pc.scv] == Some(t)
    ensures s.thr[t].pc.sig.Looking? && Target(s, t) != t ==> !s.thr[Target(s, t)].removed
  {
    hide CvOk;
    assert PlaceOk(s, t) && SignallerOk(s, t) && WaiterOk(s, t);
    if s.thr[t].pc.sig.Looking? && s.ring[s.thr[t].pc.scv] != [] {
      RingSleeps(s, t, s.ring[s.thr[t].pc.scv][0]);
    }
    assert PlaceOk(s, Target(s, t)) && WaiterOk(s, Target(s, t));
  }

  lemma SignalFrame(s: State, t: Tid)
    requires Inv(s) && CanSignalStep(s, t)
    ensures Frame(s, SignalStep(s, t), t, Target(s, t))
  {
    hide WaiterOk, SignallerOk, CvOk;
    TargetOk(s, t);
    assert PlaceOk(s, t);
    PopRing(s, t);
    hide Inv, PlaceOk;
  }

  lemma PopRing(s: State, t: Tid)
    requires Inv(s) && CanSignalStep(s, t)
    ensures var q := s.ring[s.thr[t].pc.scv];
            q != [] ==> Distinct(q[1..]) && q[0] !in q[1..] && (forall u :: u in q <==> u == q[0] || u in q[1..])
  {
    assert CvOk(s, s.thr[t].pc.scv);
    if s.ring[s.thr[t].pc.scv] != [] {
      TailWithoutHead(s.ring[s.thr[t].pc.scv]);
    }
  }

  lemma SignalSelf(s: State, t: Tid)
    requires CanSignalStep(s, t) && PlaceOk(s, t) && WaiterOk(s, t)
    ensures var s' := SignalStep(s, t); t in s'.thr && PlaceOk(s', t) && WaiterOk(s', t)
  {
    SignalSelfPlace(s, t);
    SignalSelfFlags(s, t);
    hide PlaceOk, WaiterOk;
  }

  lemma SignalSelfPlace(s: State, t: Tid)
    requires CanSignalStep(s, t) && PlaceOk(s, t)
    ensures var s' := SignalStep(s, t); t in s'.thr && PlaceOk(s', t)
  {
    match s.thr[t].pc.sig
    case Knocking =>
    case Looking =>
    case Waking(w) =>
    case Marking(w) =>
    case Closing(w) =>
  }

  lemma SignalSelfFlags(s: State, t: Tid)
    requires CanSignalStep(s, t) && WaiterOk(s, t)
    ensures var s' := SignalStep(s, t); t in s'.thr && WaiterOk(s', t)
  {
  }

  lemma SignalTarget(s: State, t: Tid)
    requires CanSignalStep(s, t) && Target(s, t) != t
    requires var w := Target(s, t); w in s.thr && WaiterOk(s, w) && PlaceOk(s, w) && SleepsOn(s.thr[w], s.thr[t].pc.scv)
    requires s.wlock[s.thr[t].pc.scv] == Some(t) && SignallerOk(s, t)
    requires s.thr[t].pc.sig.Looking? ==> !s.thr[Target(s, t)].removed
    ensures var s', w := SignalStep(s, t), Target(s, t);
            w in s'.thr && PlaceOk(s', w) && WaiterOk(s', w) && SignallerOk(s', w)
  {
    hide Passed;
  }

  lemma PassedOn(s: State, s': State, cv: Cv, all: bool, first: seq<Tid>, ahead: seq<Tid>)
    requires Passed(s, cv, all, first, ahead)
    requires forall v | Skipped(s, cv, all, v) :: Skipped(s', cv, all, v)
    ensures Passed(s', cv, all, first, ahead)
  {
  }

  /** Once the waiter in hand is known to be awake, it counts as passed. */
  lemma PassedOneMore(s: State, cv: Cv, all: bool, first: seq<Tid>, w: Tid, ahead: seq<Tid>)
    requires Passed(s, cv, all, first, [w] + ahead) && Skipped(s, cv, all, w)
    ensures Passed(s, cv, all, first, ahead)
  {
    HandAhead(first, w, ahead);
  }

  lemma HandAhead(first: seq<Tid>, w: Tid, ahead: seq<Tid>)
    requires |ahead| < |first| && first[|first| - |ahead| - 1..] == [w] + ahead
    ensures first[|first| - |ahead| - 1] == w && first[|first| - |ahead|..] == ahead
  {
    var n := |first| - |ahead|;
    assert first[n..] == first[n - 1..][1..] == ahead;
    assert first[n - 1] == first[n - 1..][0] == w;
  }

  lemma SignalProgress(s: State, t: Tid)
    requires CanSignalStep(s, t) && SignallerOk(s, t)
    requires s.thr[t].pc.sig.Looking? && Target(s, t) != t ==>
               var w := Target(s, t); SleepsOn(s.thr[w], s.thr[t].pc.scv) && WaiterOk(s, w) && !s.thr[w].removed
    ensures var s' := SignalStep(s, t); t in s'.thr && SignallerOk(s', t)
  {
    var pc := s.thr[t].pc;
    match pc.sig
    case Knocking => AllAhead(SignalStep(s, t), pc.scv, pc.all, s.ring[pc.scv]);
    case Looking => LookingProgress(s, t);
    case Waking(w) => WakingProgress(s, t);
    case Marking(w) => MarkingProgress(s, t);
    case Closing(_) =>
  }

  lemma LookingProgress(s: State, t: Tid)
    requires CanSignalStep(s, t) && SignallerOk(s, t) && s.thr[t].pc.sig.Looking?
    requires Target(s, t) != t ==>
               var w := Target(s, t); SleepsOn(s.thr[w], s.thr[t].pc.scv) && WaiterOk(s, w) && !s.thr[w].removed
    ensures var s' := SignalStep(s, t); t in s'.thr && SignallerOk(s', t)
  {
    hide Passed, WaiterOk;
    var pc := s.thr[t].pc;
    var q := s.ring[pc.scv];
    PassedOn(s, SignalStep(s, t), pc.scv, pc.all, pc.first, q);
    if q != [] {
      assert q == [q[0]] + q[1..];
      Unsignalled(s, q[0]);
    }
  }

  lemma WakingProgress(s: State, t: Tid)
    requires CanSignalStep(s, t) && SignallerOk(s, t) && s.thr[t].pc.sig.Waking?
    ensures var s' := SignalStep(s, t); t in s'.thr && SignallerOk(s', t)
  {
    hide Passed;
    var s', pc := SignalStep(s, t), s.thr[t].pc;
    PassedOn(s, s', pc.scv, pc.all, pc.first, [pc.sig.w] + s.ring[pc.scv]);
    if !s.thr[pc.sig.w].stopped {
      PassedOneMore(s', pc.scv, pc.all, pc.first, pc.sig.w, s.ring[pc.scv]);
    }
  }

  lemma MarkingProgress(s: State, t: Tid)
    requires CanSignalStep(s, t) && SignallerOk(s, t) && s.thr[t].pc.sig.Marking?
    ensures var s' := SignalStep(s, t); t in s'.thr && SignallerOk(s', t)
  {
    hide Passed;
    var s', pc := SignalStep(s, t), s.thr[t].pc;
    PassedOn(s, s', pc.scv, pc.all, pc.first, [pc.sig.w] + s.ring[pc.scv]);
    if pc.all {
      PassedOneMore(s', pc.scv, pc.all, pc.first, pc.sig.w, s.ring[pc.scv]);
    }
  }

  lemma AllAhead(s: State, cv: Cv, all: bool, q: seq<Tid>)
    ensures Passed(s, cv, all, q, q)
  {
  }

  lemma Unsignalled(s: State, w: Tid)
    requires w in s.thr && WaiterOk(s, w) && !s.thr[w].removed
    ensures !s.thr[w].signalled && (s.thr[w].pc.InWait? && s.thr[w].pc.wait == Asleep ==> s.thr[w].cause != BySignal)
  {
  }

  lemma SignalCv(s: State, t: Tid, cv: Cv)
    requires Inv(s) && CanSignalStep(s, t) && cv in s.ring && Frame(s, SignalStep(s, t), t, Target(s, t))
    ensures cv in SignalStep(s, t).ring && CvOk(SignalStep(s, t), cv)
  {
    hide SignallerOk, Frame, WaiterOk, CvOk;
    TargetOk(s, t);
    if cv == s.thr[t].pc.scv {
      PopRing(s, t);
      assert CvOk(s, cv) && PlaceOk(s, t);
      hide Inv;
      SignalCvOwn(s, t);
    } else {
      if t in s.ring[cv] {
        RingOnce(s, t, cv);
      }
      if Target(s, t) in s.ring[cv] {
        RingOnce(s, Target(s, t), cv);
      }
      LockHolder(s, cv);
      CvKept(s, SignalStep(s, t), t, Target(s, t), cv);
    }
  }

  lemma SignalCvOwn(s: State, t: Tid)
    requires CanSignalStep(s, t) && PlaceOk(s, t) && CvOk(s, s.thr[t].pc.scv)
    requires var w := Target(s, t); w in s.thr && (w != t ==> SleepsOn(s.thr[w], s.thr[t].pc.scv))
    requires var q := s.ring[s.thr[t].pc.scv];
             q != [] ==> Distinct(q[1..]) && q[0] !in q[1..] && (forall u :: u in q <==> u == q[0] || u in q[1..])
    ensures CvOk(SignalStep(s, t), s.thr[t].pc.scv)
  {
    hide CvOk, SignalStep;
    var cv, w, s' := s.thr[t].pc.scv, Target(s, t), SignalStep(s, t);
    TNotInRing(s, t);
    if s.thr[t].pc.sig.Looking? && s.ring[cv] != [] {
      SignalPops(s, t);
      CvPopped(s, s', t, w, cv);
    } else {
      SignalStays(s, t);
      CvSame(s, s', t, w, cv);
    }
  }

  /** The step that takes the head off the ring. */
  lemma SignalPops(s: State, t: Tid)
    requires CanSignalStep(s, t) && PlaceOk(s, t) && s.thr[t].pc.sig.Looking? && s.ring[s.thr[t].pc.scv] != []
    ensures var s', w, cv := SignalStep(s, t), Target(s, t), s.thr[t].pc.scv;
            && w == s.ring[cv][0] && s'.ring == s.ring[cv := s.ring[cv][1..]] && s'.wlock == s.wlock && s.wlock[cv] == Some(t)
            && t in s'.thr && HeldSet(s'.thr[t].pc) == Some(cv)
            && (forall u | u in s.thr && u != t && u != w :: u in s'.thr && s'.thr[u] == s.thr[u])
  {
  }

  /** The steps that leave the ring as it is. */
  lemma SignalStays(s: State, t: Tid)
    requires CanSignalStep(s, t) && PlaceOk(s, t) && Target(s, t) in s.thr
    requires !(s.thr[t].pc.sig.Looking? && s.ring[s.thr[t].pc.scv] != [])
    ensures var s', w, cv := SignalStep(s, t), Target(s, t), s.thr[t].pc.scv;
            && s'.ring == s.ring && cv in s'.wlock
            && (s'.wlock[cv] == None || (s'.wlock[cv] == Some(t) && t in s'.thr && HeldSet(s'.thr[t].pc) == Some(cv)))
            && (forall u | u in s.thr && u != t && u != w :: u in s'.thr && s'.thr[u] == s.thr[u])
            && (w != t ==> w in s'.thr && s'.thr[w].pc == s.thr[w].pc && s'.thr[w].removed == s.thr[w].removed)
  {
    SignalStaysThreads(s, t);
    SignalStaysLock(s, t);
    hide SignalStep, PlaceOk, Target, HeldSet;
  }

  lemma SignalStaysThreads(s: State, t: Tid)
    requires CanSignalStep(s, t) && Target(s, t) in s.thr
    requires !(s.thr[t].pc.sig.Looking? && s.ring[s.thr[t].pc.scv] != [])
    ensures var s', w := SignalStep(s, t), Target(s, t);
            && (forall u | u in s.thr && u != t && u != w :: u in s'.thr && s'.thr[u] == s.thr[u])
            && (w != t ==> w in s'.thr && s'.thr[w].pc == s.thr[w].pc && s'.thr[w].removed == s.thr[w].removed)
  {
  }

  lemma SignalStaysLock(s: State, t: Tid)
    requires CanSignalStep(s, t) && PlaceOk(s, t)
    requires !(s.thr[t].pc.sig.Looking? && s.ring[s.thr[t].pc.scv] != [])
    ensures var s', cv := SignalStep(s, t), s.thr[t].pc.scv;
            && s'.ring == s.ring && cv in s'.wlock
            && (s'.wlock[cv] == None || (s'.wlock[cv] == Some(t) && t in s'.thr && HeldSet(s'.thr[t].pc) == Some(cv)))
  {
  }

  lemma TNotInRing(s: State, t: Tid)
    requires t in s.thr && s.thr[t].pc.InSignal? && s.thr[t].pc.scv in s.ring && CvOk(s, s.thr[t].pc.scv)
    ensures t !in s.ring[s.thr[t].pc.scv]
  {
  }

  /** The head of the ring is taken off it by the holder of its lock. */
  lemma CvPopped(s: State, s': State, t: Tid, w: Tid, cv: Cv)
    requires cv in s.ring && CvOk(s, cv) && s.ring[cv] != [] && s.ring[cv][0] == w != t && t in s.thr && w in s.thr
    requires s'.ring == s.ring[cv := s.ring[cv][1..]] && s'.wlock == s.wlock && s.wlock[cv] == Some(t)
    requires Distinct(s.ring[cv][1..]) && w !in s.ring[cv][1..] && t in s'.thr && HeldSet(s'.thr[t].pc) == Some(cv) && t !in s.ring[cv]
    requires forall u | u in s.thr && u != t && u != w :: u in s'.thr && s'.thr[u] == s.thr[u]
    ensures CvOk(s', cv)
  {
    assert forall u | u in s.ring[cv][1..] :: u in s.ring[cv];
  }

  /** The ring stays, and its lock stays or is taken or given up by t. */
  lemma CvSame(s: State, s': State, t: Tid, w: Tid, cv: Cv)
    requires cv in s.ring && CvOk(s, cv) && s'.ring == s.ring && t in s.thr && w in s.thr && t !in s.ring[cv] && cv in s'.wlock
    requires forall u | u in s.thr && u != t && u != w :: u in s'.thr && s'.thr[u] == s.thr[u]
    requires w != t ==> w in s'.thr && s'.thr[w].pc == s.thr[w].pc && s'.thr[w].removed == s.thr[w].removed
    requires s'.wlock[cv] == None || (s'.wlock[cv] == Some(t) && t in s'.thr && HeldSet(s'.thr[t].pc) == Some(cv))
    ensures CvOk(s', cv)
  {
  }

  lemma SignalKeeps(s: State, t: Tid)
    requires Inv(s) && CanSignalStep(s, t)
    ensures Inv(SignalStep(s, t))
  {
    hide CvOk, Frame, PlaceOk, WaiterOk, SignallerOk, SignalStep;
    SignalFrame(s, t);
    TargetOk(s, t);
    SignalSelf(s, t);
    SignalProgress(s, t);
    if Target(s, t) != t {
      SignalTarget(s, t);
    }
    forall cv | cv in s.ring ensures cv in SignalStep(s, t).ring && CvOk(SignalStep(s, t), cv) {
      SignalCv(s, t, cv);
    }
    FrameInv(s, SignalStep(s, t), t, Target(s, t));
  }

  // ---- calls, locking and other wakeups

  lemma ClientKeeps(s: State, a: Action)
    requires Inv(s) && Enabled(s, a) && !a.DoWait? && !a.DoSignal?
    ensures Inv(Apply(s, a))
  {
    hide CvOk, Frame, PlaceOk, WaiterOk, SignallerOk;
    ClientFrame(s, a);
    assert PlaceOk(s, a.t) && WaiterOk(s, a.t) && SignallerOk(s, a.t);
    ClientSelf(s, a);
    forall cv | cv in s.ring ensures cv in Apply(s, a).ring && CvOk(Apply(s, a), cv) {
      ClientCv(s, a, cv);
    }
    FrameInv(s, Apply(s, a), a.t, a.t);
  }

  lemma ClientFrame(s: State, a: Action)
    requires Inv(s) && Enabled(s, a) && !a.DoWait? && !a.DoSignal?
    ensures Frame(s, Apply(s, a), a.t, a.t)
  {
    hide CvOk, SignallerOk;
    assert WaiterOk(s, a.t);
    hide Inv, PlaceOk, WaiterOk;
  }

  lemma ClientSelf(s: State, a: Action)
    requires Enabled(s, a) && !a.DoWait? && !a.DoSignal?
    requires a.t in s.thr && PlaceOk(s, a.t) && WaiterOk(s, a.t) && SignallerOk(s, a.t)
    ensures var s' := Apply(s, a); a.t in s'.thr && PlaceOk(s', a.t) && WaiterOk(s', a.t) && SignallerOk(s', a.t)
  {
    hide Passed;
  }

  lemma ClientCv(s: State, a: Action, cv: Cv)
    requires Inv(s) && Enabled(s, a) && !a.DoWait? && !a.DoSignal? && cv in s.ring
    ensures cv in Apply(s, a).ring && CvOk(Apply(s, a), cv)
  {
    hide SignallerOk;
    assert CvOk(s, cv) && WaiterOk(s, a.t);
    hide Inv, PlaceOk;
  }

  /** Every step of every thread keeps the invariant. */
  lemma StepKeepsInv(s: State, a: Action)
    requires Inv(s) && Enabled(s, a)
    ensures Inv(Apply(s, a))
  {
    hide Inv;
    match a
    case DoWait(t) => WaitKeeps(s, t);
    case DoSignal(t) => SignalKeeps(s, t);
    case _ => ClientKeeps(s, a);
  }

  /** At boot nobody waits, signals or holds anything. */
  ghost predicate Initial(s: State) {
    && (forall t | t in s.thr :: s.thr[t].pc == Client && !s.thr[t].stopped && !s.thr[t].removed && !s.thr[t].signalled)
    && (forall cv | cv in s.ring :: cv in s.wlock && s.ring[cv] == [] && s.wlock[cv] == None)
    && (forall cv | cv in s.wlock :: cv in s.ring)
    && (forall m | m in s.mutex :: s.mutex[m] == None)
  }

  ghost predicate IsRun(run: seq<State>, acts: seq<Action>) {
    && |run| == |acts| + 1
    && (forall i | 0 <= i < |acts| :: Enabled(run[i], acts[i]) && run[i + 1] == Apply(run[i], acts[i]))
  }

  lemma {:induction false} RunKeepsInv(run: seq<State>, acts: seq<Action>, k: nat)
    requires IsRun(run, acts) && Initial(run[0]) && k < |run|
    ensures Inv(run[k])
  {
    if k > 0 {
      RunKeepsInv(run, acts, k - 1);
      StepKeepsInv(run[k - 1], acts[k - 1]);
    }
  }

  ghost predicate Reachable(s: State) {
    exists run, acts :: IsRun(run, acts) && Initial(run[0]) && s == run[|acts|]
  }

  lemma ReachableInv(s: State)
    requires Reachable(s)
    ensures Inv(s)
  {
    var run, acts :| IsRun(run, acts) && Initial(run[0]) && s == run[|acts|];
    RunKeepsInv(run, acts, |acts|);
  }

  // ------------------------------------------- what the invariant amounts to

  /**
   * No lost wakeup: whoever holds waitset_lock to signal finds every thread that has released its
   * mutex in cv_wait, and was neither woken nor taken by this signaller, in the ring and STOPPED.
   */
  lemma NoLostWakeup(s: State, t: Tid, w: Tid)
    requires Reachable(s) && t in s.thr && w in s.thr
    requires s.thr[t].pc.InSignal? && !s.thr[t].pc.sig.Knocking?
    requires s.thr[w].pc.InWait? && s.thr[w].pc.wcv == s.thr[t].pc.scv && !s.thr[w].pc.wait.Entering?
    ensures s.thr[t].pc.scv in s.ring && (s.thr[w].pc.wait == Asleep || s.thr[w].pc.wait == Relocking)
    ensures s.thr[w].pc.wait == Asleep && s.thr[w].stopped ==> w in s.ring[s.thr[t].pc.scv] || s.thr[t].pc.sig == Waking(w)
    ensures s.thr[w].pc.wait == Asleep && !s.thr[w].removed ==> w in s.ring[s.thr[t].pc.scv]
    ensures s.thr[w].pc.wait == Relocking ==> s.thr[w].cause != NotWoken
  {
    ReachableInv(s);
    assert PlaceOk(s, t) && PlaceOk(s, w) && WaiterOk(s, w);
    LockHolder(s, s.thr[t].pc.scv);
  }

  /** A thread just ahead of the sleep in cv_wait still has waitset_lock, so no signaller is in the ring. */
  lemma SleepIsAtomicWithTheRing(s: State, t: Tid, u: Tid)
    requires Reachable(s) && t in s.thr && u in s.thr && t != u
    requires s.thr[t].pc.InWait? && (s.thr[t].pc.wait == Unlocking || s.thr[t].pc.wait == Stopping)
    ensures var cv := s.thr[t].pc.wcv; cv in s.ring && cv in s.wlock && t in s.ring[cv] && s.wlock[cv] == Some(t)
    ensures s.thr[u].pc.InSignal? && s.thr[u].pc.scv == s.thr[t].pc.wcv ==> s.thr[u].pc.sig.Knocking?
  {
    ReachableInv(s);
    hide SignallerOk;
    assert PlaceOk(s, t) && PlaceOk(s, u) && WaiterOk(s, t);
  }

  /** cv_wait returns holding the mutex, off every ring, and says 1 iff a signal made the thread READY. */
  lemma WaitReturns(s: State, t: Tid)
    requires Inv(s) && CanWaitStep(s, t) && s.thr[t].pc.wait == Relocking
    ensures var s' := WaitStep(s, t);
            && s'.thr[t].pc == Client && s'.mutex[s.thr[t].pc.m] == Some(t)
            && (s'.thr[t].result <==> s.thr[t].cause == BySignal)
            && (forall cv | cv in s'.ring :: t !in s'.ring[cv])
  {
    assert WaiterOk(s, t);
    hide PlaceOk, WaiterOk, SignallerOk;
    forall cv | cv in s.ring ensures t !in s.ring[cv] {
      if t in s.ring[cv] {
        RingOnce(s, t, cv);
      }
    }
  }

  /** So it does in every run. */
  lemma WaitsReturnRightly(run: seq<State>, acts: seq<Action>, k: nat, t: Tid)
    requires IsRun(run, acts) && Initial(run[0]) && k < |acts|
    requires acts[k] == DoWait(t) && t in run[k].thr && run[k].thr[t].pc.InWait? && run[k].thr[t].pc.wait == Relocking
    ensures var s, s' := run[k], run[k + 1]; var m := s.thr[t].pc.m;
            && t in s'.thr && s'.thr[t].pc == Client && m in s'.mutex && s'.mutex[m] == Some(t)
            && (s'.thr[t].result <==> s.thr[t].cause == BySignal)
            && (forall cv | cv in s'.ring :: t !in s'.ring[cv])
  {
    hide Inv;
    RunKeepsInv(run, acts, k);
    assert Enabled(run[k], acts[k]) && run[k + 1] == Apply(run[k], acts[k]);
    WaitReturns(run[k], t);
  }

  /** No ring holds a waiter whose cv_wait has returned, and none holds a waiter twice. */
  lemma RingsHoldLiveWaiters(s: State, cv: Cv, t: Tid)
    requires Reachable(s) && cv in s.ring && t in s.ring[cv]
    ensures t in s.thr && s.thr[t].pc.InWait? && s.thr[t].pc.wcv == cv && !s.thr[t].removed && Distinct(s.ring[cv])
  {
    ReachableInv(s);
    assert CvOk(s, cv);
  }

  /** A signaller writes only to waiters whose cv_wait cannot have returned: they must get its lock first. */
  lemma SignallerWritesLiveWaiter(s: State, t: Tid)
    requires Inv(s) && CanSignalStep(s, t) && Target(s, t) != t
    ensures var w := Target(s, t); w in s.thr && SleepsOn(s.thr[w], s.thr[t].pc.scv) && s.wlock[s.thr[t].pc.scv] == Some(t)
  {
    TargetOk(s, t);
  }

  /** The assert in cv_wait: a waiter still in the ring has not been signalled. */
  lemma TidyAssertHolds(s: State, t: Tid)
    requires Inv(s) && t in s.thr && s.thr[t].pc.InWait? && s.thr[t].pc.wait == Tidying
    ensures !s.thr[t].removed ==> !s.thr[t].signalled && t in s.ring[s.thr[t].pc.wcv]
  {
    assert WaiterOk(s, t) && PlaceOk(s, t);
  }

  /**
   * What a Cond_Signal about to return has done. Either it woke nobody: the ring is empty, and all who
   * were in it when the lock was taken are awake through something else. Or it woke and signalled w:
   * those in front of w are awake through something else, those behind w are the ring, unsignalled.
   */
  ghost predicate SignalledInOrder(s: State, t: Tid)
    requires t in s.thr && s.thr[t].pc.InSignal? && s.thr[t].pc.sig.Closing?
  {
    var pc := s.thr[t].pc;
    && pc.scv in s.ring
    && match pc.sig.woke
       case None => s.ring[pc.scv] == [] && (forall i | 0 <= i < |pc.first| :: Skipped(s, pc.scv, false, pc.first[i]))
       case Some(w) =>
         var n := |pc.first| - |s.ring[pc.scv]|;
         && 0 < n && pc.first[n - 1] == w && pc.first[n..] == s.ring[pc.scv]
         && Done(s, pc.scv, w) && s.thr[w].signalled && s.thr[w].cause == BySignal
         && (forall i | 0 <= i < n - 1 :: Skipped(s, pc.scv, false, pc.first[i]))
         && (forall v | v in s.ring[pc.scv] :: v in s.thr && !s.thr[v].signalled && s.thr[v].cause != BySignal)
  }

  lemma SignalsInOrder(s: State, t: Tid)
    requires Inv(s) && t in s.thr && s.thr[t].pc.InSignal? && s.thr[t].pc.sig.Closing? && !s.thr[t].pc.all
    ensures SignalledInOrder(s, t)
  {
    hide CvOk;
    var pc := s.thr[t].pc;
    assert SignallerOk(s, t);
    forall v | v in s.ring[pc.scv] ensures v in s.thr && !s.thr[v].signalled && s.thr[v].cause != BySignal {
      RingSleeps(s, t, v);
      Unsignalled(s, v);
    }
    hide Inv, WaiterOk;
    if pc.sig.woke.Some? {
      HandAhead(pc.first, pc.sig.woke.value, s.ring[pc.scv]);
    }
  }

  /** Cond_Signal is FIFO. */
  lemma SignalIsFifo(s: State, t: Tid)
    requires Reachable(s) && t in s.thr && s.thr[t].pc.InSignal? && s.thr[t].pc.sig.Closing? && !s.thr[t].pc.all
    ensures SignalledInOrder(s, t)
  {
    ReachableInv(s);
    SignalsInOrder(s, t);
  }

  /** Cond_Broadcast leaves the ring empty and everyone who was in it awake. */
  lemma BroadcastEmptiesTheRing(s: State, t: Tid)
    requires Reachable(s) && t in s.thr && s.thr[t].pc.InSignal? && s.thr[t].pc.sig.Closing? && s.thr[t].pc.all
    ensures var pc := s.thr[t].pc;
            && pc.scv in s.ring && s.ring[pc.scv] == []
            && (forall i | 0 <= i < |pc.first| :: Done(s, pc.scv, pc.first[i]))
  {
    ReachableInv(s);
    assert SignallerOk(s, t);
  }

  /** A waiter asleep on a ring, with nothing to wake up for yet. */
  predicate SleepsUnsignalled(s: State, cv: Cv, p: Tid) {
    p in s.thr && SleepsOn(s.thr[p], cv) && s.thr[p].stopped && !s.thr[p].removed && cv in s.ring && p in s.ring[cv]
  }

  /** It stays so until a signaller of that condition variable, or a wakeup from elsewhere, gets at it. */
  lemma AsleepUntilSignalled(s: State, a: Action, cv: Cv, p: Tid)
    requires Inv(s) && Enabled(s, a) && SleepsUnsignalled(s, cv, p)
    ensures || SleepsUnsignalled(Apply(s, a), cv, p)
            || a == OtherWakeup(p)
            || (a.DoSignal? && s.thr[a.t].pc.scv == cv)
  {
    hide WaiterOk, SignallerOk, CvOk, WaitStep, SignalStep, Inv;
    StepKeepsInv(s, a);
    PlaceOnRing(Apply(s, a), p);
    match a
    case DoWait(t) => WaitFrame(s, t);
    case DoSignal(t) =>
      TargetOk(s, t);
      SignalFrame(s, t);
    case _ => ClientFrame(s, a);
  }

  lemma PlaceOnRing(s: State, p: Tid)
    requires Inv(s)
    ensures forall cv | p in s.thr && SleepsOn(s.thr[p], cv) && !s.thr[p].removed :: cv in s.ring && p in s.ring[cv]
  {
    if p in s.thr { assert PlaceOk(s, p); }
  }

  /** A Cond_Broadcast about to return has woken, or found awake, all who were on the ring when it got the lock. */
  lemma BroadcastReachesEveryone(s: State, t: Tid, p: Tid)
    requires Inv(s) && t in s.thr && s.thr[t].pc.InSignal? && s.thr[t].pc.sig.Closing? && s.thr[t].pc.all && p in s.thr[t].pc.first
    ensures Done(s, s.thr[t].pc.scv, p) && !SleepsUnsignalled(s, s.thr[t].pc.scv, p)
  {
    assert SignallerOk(s, t);
    var i :| 0 <= i < |s.thr[t].pc.first| && s.thr[t].pc.first[i] == p;
    assert Skipped(s, s.thr[t].pc.scv, true, p);
  }
}
