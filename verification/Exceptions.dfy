// The exception library (util.c and the TRY_WITH, ON_ERROR and FINALLY macros of util.h).
//
// A handler is known by what it does when it is called: it returns, or it raises. Frames a handler
// itself pushes are popped before it returns or its raise arrives, so they do not show.

module Exceptions {

  /** Does the handler raise when its argument is 0, and when it is not? */
  datatype Handler = Handler(id: nat, onNormal: bool, onError: bool)

  predicate Raises(h: Handler, errcode: int) {
    if errcode == 0 then h.onNormal else h.onError
  }

  /** Handler `id` was called with `errcode`. */
  datatype Ran = Ran(id: nat, errcode: int)

  /** Both lists start with the handler registered last. */
  datatype Frame = Frame(catchers: seq<Handler>, finalizers: seq<Handler>)

  function Size(f: Frame): nat {
    |f.catchers| + |f.finalizers|
  }

  // ---------------------------------------------- what the code does to a frame

  datatype Activation = Jumped(frame: Frame, log: seq<Ran>) | Finished(captured: bool, log: seq<Ran>)

  /** One activation of exception_unwind up to popping the frame, or to the longjmp out of a handler. */
  function Activate(f: Frame, errcode: int, captured: bool): (r: Activation)
    ensures r.Jumped? ==> Size(r.frame) < Size(f)
    decreases Size(f)
  {
    if f.catchers != [] then
      var f' := f.(catchers := f.catchers[1..]);
      var ran := Ran(f.catchers[0].id, errcode);
      if Raises(f.catchers[0], errcode) then Jumped(f', [ran])
      else
        var r := Activate(f', errcode, true);
        r.(log := [ran] + r.log)
    else if f.finalizers != [] then
      var f' := f.(finalizers := f.finalizers[1..]);
      var ran := Ran(f.finalizers[0].id, errcode);
      if Raises(f.finalizers[0], errcode) then Jumped(f', [ran])
      else
        var r := Activate(f', errcode, captured);
        r.(log := [ran] + r.log)
    else Finished(captured, [])
  }

  datatype Unwound = Unwound(propagates: bool, log: seq<Ran>)

  /** What becomes of an activation: the frame is popped, or setjmp returns 1 and another begins with captured = 0. */
  function Complete(a: Activation, errcode: int): Unwound
    decreases if a.Jumped? then Size(a.frame) else 0, if a.Jumped? then 2 else 0
  {
    match a
    case Finished(captured, log) => Unwound(errcode != 0 && !captured, log)
    case Jumped(f, log) =>
      var r := Unwind(f, 1);
      r.(log := log + r.log)
  }

  /** A frame from its first activation to the one that pops it. */
  function Unwind(f: Frame, errcode: int): Unwound
    decreases Size(f), 1
  {
    Complete(Activate(f, errcode, false), errcode)
  }

  // ----------------------------------------------------- what it was meant to do

  /** Every catcher, with errcode 1. */
  function CatcherRuns(hs: seq<Handler>): (r: seq<Ran>)
    ensures |r| == |hs| && forall i | 0 <= i < |hs| :: r[i] == Ran(hs[i].id, 1)
  {
    seq(|hs|, i requires 0 <= i < |hs| => Ran(hs[i].id, 1))
  }

  /** Every finalizer; from the first that raises on, the others are told of an error. */
  function FinalizerRuns(hs: seq<Handler>, errcode: int): (r: seq<Ran>)
    ensures |r| == |hs| && forall i | 0 <= i < |hs| :: r[i].id == hs[i].id
  {
    if hs == [] then []
    else [Ran(hs[0].id, errcode)] + FinalizerRuns(hs[1..], if Raises(hs[0], errcode) then 1 else errcode)
  }

  ghost predicate SomeRaises(hs: seq<Handler>, errcode: int) {
    exists i :: 0 <= i < |hs| && Raises(hs[i], errcode)
  }

  ghost predicate Escapes(f: Frame, errcode: int) {
    || SomeRaises(f.finalizers, errcode)
    || (errcode != 0 && (f.catchers == [] || Raises(f.catchers[|f.catchers| - 1], 1)))
  }

  // ------------------------------------------------------------------ the proof

  lemma SomeRaisesTail(hs: seq<Handler>, errcode: int)
    requires hs != []
    ensures SomeRaises(hs, errcode) <==> Raises(hs[0], errcode) || SomeRaises(hs[1..], errcode)
  {
    if SomeRaises(hs[1..], errcode) {
      var i :| 0 <= i < |hs[1..]| && Raises(hs[1..][i], errcode);
      assert Raises(hs[i + 1], errcode);
    }
    if SomeRaises(hs, errcode) && !Raises(hs[0], errcode) {
      var i :| 0 <= i < |hs| && Raises(hs[i], errcode);
      assert Raises(hs[1..][i - 1], errcode);
    }
  }

  lemma CompletePrepend(a: Activation, ran: Ran, errcode: int)
    ensures Complete(a.(log := [ran] + a.log), errcode) == Complete(a, errcode).(log := [ran] + Complete(a, errcode).log)
  {
    if a.Jumped? {
      var l := Unwind(a.frame, 1).log;
      assert ([ran] + a.log) + l == [ran] + (a.log + l);
    }
  }

  /** An activation that has run all catchers, or found none. */
  lemma {:induction false} FinalizersUnwind(f: Frame, errcode: int, captured: bool)
    requires f.catchers == []
    ensures var r := Complete(Activate(f, errcode, captured), errcode);
            && r.log == FinalizerRuns(f.finalizers, errcode)
            && (r.propagates <==> SomeRaises(f.finalizers, errcode) || (errcode != 0 && !captured))
    decreases Size(f)
  {
    hide SomeRaises;
    if f.finalizers == [] {
      assert !SomeRaises(f.finalizers, errcode) by { NoneRaises(errcode); }
    } else {
      var f' := f.(finalizers := f.finalizers[1..]);
      SomeRaisesTail(f.finalizers, errcode);
      if Raises(f.finalizers[0], errcode) {
        FinalizersUnwind(f', 1, false);
      } else {
        FinalizersUnwind(f', errcode, captured);
        CompletePrepend(Activate(f', errcode, captured), Ran(f.finalizers[0].id, errcode), errcode);
      }
    }
  }

  lemma NoneRaises(errcode: int)
    ensures !SomeRaises([], errcode)
  {
  }

  /** An activation on an error; `captured` tells whether it has already run a catcher. */
  lemma {:induction false} CatchersUnwind(f: Frame, captured: bool)
    ensures var r := Complete(Activate(f, 1, captured), 1);
            && r.log == CatcherRuns(f.catchers) + FinalizerRuns(f.finalizers, 1)
            && (r.propagates <==>
                 SomeRaises(f.finalizers, 1) || if f.catchers == [] then !captured else Raises(f.catchers[|f.catchers| - 1], 1))
    decreases Size(f)
  {
    hide SomeRaises;
    if f.catchers == [] {
      FinalizersUnwind(f, 1, captured);
    } else {
      var f' := f.(catchers := f.catchers[1..]);
      var ran := Ran(f.catchers[0].id, 1);
      assert CatcherRuns(f.catchers) + FinalizerRuns(f.finalizers, 1) == [ran] + (CatcherRuns(f'.catchers) + FinalizerRuns(f.finalizers, 1));
      if Raises(f.catchers[0], 1) {
        CatchersUnwind(f', false);
      } else {
        CatchersUnwind(f', true);
        CompletePrepend(Activate(f', 1, true), ran, 1);
      }
    }
  }

  /**
   * On an error every catcher and then every finalizer runs exactly once, last registered first,
   * whatever longjmps they cause; the error goes on to the next frame if and only if some finalizer
   * raised, or there was no catcher, or the last catcher run raised.
   */
  lemma UnwindOnError(f: Frame)
    ensures Unwind(f, 1).log == CatcherRuns(f.catchers) + FinalizerRuns(f.finalizers, 1)
    ensures Unwind(f, 1).propagates <==> Escapes(f, 1)
  {
    hide SomeRaises;
    CatchersUnwind(f, false);
  }

  /** Having a catcher is not enough to stop an error: this frame's only catcher runs, raises, and the error goes on. */
  lemma CatcherThatRaisesCapturesNothing()
    ensures var f := Frame([Handler(0, true, true)], []); Unwind(f, 1) == Unwound(true, [Ran(0, 1)])
  {
    var f := Frame([Handler(0, true, true)], []);
    UnwindOnError(f);
    assert Raises(f.catchers[0], 1);
  }

  /** At the end of a TRY block catchers are dropped, finalizers run once, and an error goes on if and only if one of them raised. */
  lemma UnwindOnExit(f: Frame)
    ensures var r := Unwind(f.(catchers := []), 0);
            r.log == FinalizerRuns(f.finalizers, 0) && (r.propagates <==> Escapes(f, 0))
  {
    hide SomeRaises;
    FinalizersUnwind(f.(catchers := []), 0, false);
  }

  /** On an error, finalizers are told 1. */
  lemma {:induction false} FinalizersToldOfErrors(hs: seq<Handler>, i: nat)
    requires i < |hs|
    ensures FinalizerRuns(hs, 1)[i] == Ran(hs[i].id, 1)
  {
    if i > 0 { FinalizersToldOfErrors(hs[1..], i - 1); }
  }

  /** At the end of a TRY block they are told 0, until one has raised. */
  lemma {:induction false} FinalizersToldOfExit(hs: seq<Handler>, i: nat)
    requires i < |hs|
    ensures FinalizerRuns(hs, 0)[i].errcode == if SomeRaises(hs[..i], 0) then 1 else 0
  {
    if i > 0 {
      SomeRaisesTail(hs[..i], 0);
      assert hs[..i][1..] == hs[1..][..i - 1];
      if Raises(hs[0], 0) {
        FinalizersToldOfErrors(hs[1..], i - 1);
      } else {
        FinalizersToldOfExit(hs[1..], i - 1);
      }
    }
  }

  // ------------------------------------------------------------ whole stacks

  /** Where a raise ends: the frames left, after the TRY block of the last one popped. */
  datatype Landing = Landing(stack: seq<Frame>, log: seq<Ran>)

  /** raise_exception: nothing on an empty stack, and otherwise a jump to the top frame. */
  function Raise(stack: seq<Frame>): Landing {
    if stack == [] then Landing([], []) else
      var u := Unwind(stack[0], 1);
      if u.propagates then
        var r := Raise(stack[1..]);
        r.(log := u.log + r.log)
      else Landing(stack[1..], u.log)
  }

  /** Leaving the TRY block of the top frame at its end. */
  function ExitTry(stack: seq<Frame>): Landing
    requires stack != []
  {
    var u := Unwind(stack[0].(catchers := []), 0);
    if u.propagates then
      var r := Raise(stack[1..]);
      r.(log := u.log + r.log)
    else Landing(stack[1..], u.log)
  }

  function ErrorRuns(stack: seq<Frame>): seq<Ran> {
    if stack == [] then [] else CatcherRuns(stack[0].catchers) + FinalizerRuns(stack[0].finalizers, 1) + ErrorRuns(stack[1..])
  }

  /** A raise goes through exactly the frames from which errors escape, stops after the first that captures it, and an empty stack swallows it. */
  lemma {:induction false} RaiseStopsAtTheFirstCapture(stack: seq<Frame>) returns (k: nat)
    ensures k <= |stack| && Raise(stack).stack == stack[k..] && Raise(stack).log == ErrorRuns(stack[..k])
    ensures forall i | 0 <= i < k - 1 :: Escapes(stack[i], 1)
    ensures stack != [] ==> k > 0
    ensures k == 0 || k == |stack| || !Escapes(stack[k - 1], 1)
    ensures forall i | 0 <= i < |stack| && !Escapes(stack[i], 1) :: k <= i + 1
  {
    hide Escapes, Unwind;
    k := 0;
    if stack != [] {
      UnwindOnError(stack[0]);
      if Escapes(stack[0], 1) {
        var m := RaiseStopsAtTheFirstCapture(stack[1..]);
        k := m + 1;
        assert stack[..k][1..] == stack[1..][..m];
        assert stack[k..] == stack[1..][m..];
        forall i | 0 <= i < k - 1 ensures Escapes(stack[i], 1) {
          if i > 0 { assert stack[i] == stack[1..][i - 1]; }
        }
        forall i | 0 <= i < |stack| && !Escapes(stack[i], 1) ensures k <= i + 1 {
          assert i > 0 && stack[i] == stack[1..][i - 1];
        }
      } else {
        k := 1;
        assert stack[..1] == [stack[0]];
        assert ErrorRuns(stack[..1][1..]) == [];
      }
    }
  }

  // --------------------------------------------------------------- registration

  datatype Registration = OnError(h: Handler) | Finally(h: Handler)

  /** ON_ERROR and FINALLY put a handler in front of its list. */
  function Register(f: Frame, r: Registration): Frame {
    match r
    case OnError(h) => f.(catchers := [h] + f.catchers)
    case Finally(h) => f.(finalizers := [h] + f.finalizers)
  }

  /** The frame of a TRY block that has met these ON_ERROR and FINALLY blocks. */
  function FrameOf(rs: seq<Registration>): Frame {
    if rs == [] then Frame([], []) else Register(FrameOf(rs[..|rs| - 1]), rs[|rs| - 1])
  }

  function Ids(rs: seq<Registration>, catchers: bool): seq<nat> {
    if rs == [] then []
    else if rs[|rs| - 1].OnError? == catchers then [rs[|rs| - 1].h.id] + Ids(rs[..|rs| - 1], catchers)
    else Ids(rs[..|rs| - 1], catchers)
  }

  function RanIds(log: seq<Ran>): (r: seq<nat>)
    ensures |r| == |log| && forall i | 0 <= i < |log| :: r[i] == log[i].id
  {
    seq(|log|, i requires 0 <= i < |log| => log[i].id)
  }

  function HandlerIds(hs: seq<Handler>): (r: seq<nat>)
    ensures |r| == |hs| && forall i | 0 <= i < |hs| :: r[i] == hs[i].id
  {
    seq(|hs|, i requires 0 <= i < |hs| => hs[i].id)
  }

  lemma {:induction false} FrameOfIds(rs: seq<Registration>)
    ensures HandlerIds(FrameOf(rs).catchers) == Ids(rs, true)
    ensures HandlerIds(FrameOf(rs).finalizers) == Ids(rs, false)
  {
    if rs != [] {
      var f := FrameOf(rs[..|rs| - 1]);
      FrameOfIds(rs[..|rs| - 1]);
      var h := rs[|rs| - 1].h;
      assert HandlerIds([h] + f.catchers) == [h.id] + HandlerIds(f.catchers);
      assert HandlerIds([h] + f.finalizers) == [h.id] + HandlerIds(f.finalizers);
    }
  }

  /** The handlers of a TRY block run in the reverse of the order in which its body registered them. */
  lemma HandlersRunLastInFirstOut(rs: seq<Registration>)
    ensures RanIds(Unwind(FrameOf(rs), 1).log) == Ids(rs, true) + Ids(rs, false)
    ensures RanIds(Unwind(FrameOf(rs).(catchers := []), 0).log) == Ids(rs, false)
  {
    hide Unwind, FrameOf, Ids, CatcherRuns, FinalizerRuns, HandlerIds;
    var f := FrameOf(rs);
    FrameOfIds(rs);
    UnwindOnError(f);
    UnwindOnExit(f);
    RunIds(f, 1);
    RunIds(f, 0);
    RanIdsConcat(CatcherRuns(f.catchers), FinalizerRuns(f.finalizers, 1));
  }

  lemma RunIds(f: Frame, errcode: int)
    ensures RanIds(CatcherRuns(f.catchers)) == HandlerIds(f.catchers)
    ensures RanIds(FinalizerRuns(f.finalizers, errcode)) == HandlerIds(f.finalizers)
  {
  }

  lemma RanIdsConcat(a: seq<Ran>, b: seq<Ran>)
    ensures RanIds(a + b) == RanIds(a) + RanIds(b)
  {
  }

  // ------------------------------------------------------------------- in place

  function TotalSize(stack: seq<Frame>): nat {
    if stack == [] then 0 else Size(stack[0]) + 1 + TotalSize(stack[1..])
  }

  lemma UnwindIs(f: Frame, errcode: int)
    ensures var a := Activate(f, errcode, false);
            && (a.Jumped? ==> Unwind(f, errcode) == Unwind(a.frame, 1).(log := a.log + Unwind(a.frame, 1).log))
            && (a.Finished? ==> Unwind(f, errcode) == Unwound(errcode != 0 && !a.captured, a.log))
  {
  }

  /** A longjmp out of a handler leaves what remains of the raise. */
  lemma RaiseAfterAJump(f: Frame, rest: seq<Frame>)
    ensures var a := Activate(f, 1, false);
            && (a.Jumped? ==> Raise([f] + rest) == Landing(Raise([a.frame] + rest).stack, a.log + Raise([a.frame] + rest).log))
            && (a.Finished? ==> Raise([f] + rest) == if a.captured then Landing(rest, a.log) else Landing(Raise(rest).stack, a.log + Raise(rest).log))
  {
    hide Activate;
    var a := Activate(f, 1, false);
    assert ([f] + rest)[1..] == rest;
    UnwindIs(f, 1);
    if a.Jumped? {
      assert ([a.frame] + rest)[1..] == rest;
      var u := Unwind(a.frame, 1);
      assert a.log + u.log + Raise(rest).log == a.log + (u.log + Raise(rest).log);
    }
  }

  /** What exception_unwind and the longjmp it ends with, if any, do to the stack and the calls made so far. */
  ghost predicate UnwoundOnce(was: seq<Frame>, errcode: int, stack: seq<Frame>, calls: seq<Ran>, jump: bool)
    requires was != []
  {
    var a := Activate(was[0], errcode, false);
    && calls == a.log
    && (a.Jumped? ==> stack == [a.frame] + was[1..] && jump)
    && (a.Finished? ==> stack == was[1..] && (jump <==> errcode != 0 && !a.captured && stack != []))
  }

  /** The calls of a raise are those of one activation and those of what it jumps to. */
  lemma UnwoundOnceOfRaise(was: seq<Frame>, stack: seq<Frame>, calls: seq<Ran>, jump: bool)
    requires was != [] && UnwoundOnce(was, 1, stack, calls, jump)
    ensures Raise(was) == if jump then Landing(Raise(stack).stack, calls + Raise(stack).log) else Landing(stack, calls)
    ensures jump ==> stack != [] && TotalSize(stack) < TotalSize(was)
  {
    hide Unwind;
    RaiseAfterAJump(was[0], was[1..]);
    assert was == [was[0]] + was[1..];
    var a := Activate(was[0], 1, false);
    if a.Jumped? { assert ([a.frame] + was[1..])[1..] == was[1..]; }
  }

  /** And likewise when a TRY block is left at its end. */
  lemma UnwoundOnceOfExit(f: Frame, rest: seq<Frame>, stack: seq<Frame>, calls: seq<Ran>, jump: bool)
    requires UnwoundOnce([f.(catchers := [])] + rest, 0, stack, calls, jump)
    ensures ExitTry([f] + rest) == if jump then Landing(Raise(stack).stack, calls + Raise(stack).log) else Landing(stack, calls)
  {
    var g := f.(catchers := []);
    assert ([g] + rest)[1..] == rest && ([f] + rest)[1..] == rest;
    var a := Activate(g, 0, false);
    UnwindIs(g, 0);
    if a.Jumped? {
      var u := Unwind(a.frame, 1);
      assert ([a.frame] + rest)[1..] == rest;
      assert a.log + u.log + Raise(rest).log == a.log + (u.log + Raise(rest).log);
    }
  }

  class Context {
    var stack: seq<Frame>
    ghost var log: seq<Ran>

    constructor ()
      ensures stack == [] && log == []
    {
      stack, log := [], [];
    }

    /** __exc_push_frame. */
    method EnterTry()
      modifies this
      ensures stack == [FrameOf([])] + old(stack) && log == old(log)
    {
      stack := [Frame([], [])] + stack;
    }

    /** ON_ERROR and FINALLY in the body of the top TRY block. */
    method RegisterHandler(r: Registration)
      requires stack != []
      modifies this
      ensures stack == [Register(old(stack)[0], r)] + old(stack)[1..] && log == old(log)
    {
      var f := stack[0];
      match r {
        case OnError(h) => stack := [f.(catchers := [h] + f.catchers)] + stack[1..];
        case Finally(h) => stack := [f.(finalizers := [h] + f.finalizers)] + stack[1..];
      }
    }

    /** exception_unwind; `jump` tells that it ends in a longjmp, which goes to the frame on top of the stack. */
    method ExceptionUnwind(errcode: int) returns (jump: bool)
      requires stack != []
      modifies this
      ensures old(log) <= log
      ensures UnwoundOnce(old(stack), errcode, stack, log[|old(log)|..], jump)
    {
      var frame := stack[0];
      var captured := false;
      ghost var start, rest, calls: seq<Ran> := Activate(frame, errcode, false), stack[1..], [];
      var raised;
      while frame.catchers != []
        invariant stack == [frame] + rest && log == old(log) + calls
        invariant start == Onward(calls, Activate(frame, errcode, captured))
        decreases |frame.catchers|
      {
        captured := true;
        var c := frame.catchers[0];
        frame := frame.(catchers := frame.catchers[1..]);
        OnwardMore(calls, Ran(c.id, errcode), Activate(frame, errcode, captured));
        raised := Call(frame, c, errcode);
        calls := calls + [Ran(c.id, errcode)];
        if raised { return true; }
      }
      while frame.finalizers != []
        invariant frame.catchers == [] && stack == [frame] + rest && log == old(log) + calls
        invariant start == Onward(calls, Activate(frame, errcode, captured))
        decreases |frame.finalizers|
      {
        var fin := frame.finalizers[0];
        frame := frame.(finalizers := frame.finalizers[1..]);
        OnwardMore(calls, Ran(fin.id, errcode), Activate(frame, errcode, captured));
        raised := Call(frame, fin, errcode);
        calls := calls + [Ran(fin.id, errcode)];
        if raised { return true; }
      }
      stack := stack[1..];
      jump := errcode != 0 && !captured && stack != [];
    }

    /** A handler's call, when the frame no longer lists it. */
    method Call(frame: Frame, h: Handler, errcode: int) returns (raised: bool)
      requires stack != []
      modifies this
      ensures stack == [frame] + old(stack)[1..] && log == old(log) + [Ran(h.id, errcode)]
      ensures raised == Raises(h, errcode)
    {
      stack := [frame] + stack[1..];
      log := log + [Ran(h.id, errcode)];
      raised := Raises(h, errcode);
    }

    /** A longjmp and all those that follow from it: each lands at the setjmp of the top frame, which calls exception_unwind(context, 1). */
    method Land()
      requires stack != []
      modifies this
      ensures stack == Raise(old(stack)).stack && log == old(log) + Raise(old(stack)).log
    {
      hide Raise, TotalSize, UnwoundOnce;
      ghost var goal := Landing(Raise(stack).stack, log + Raise(stack).log);
      var jump := true;
      while jump
        invariant jump ==> stack != []
        invariant goal == if jump then Landing(Raise(stack).stack, log + Raise(stack).log) else Landing(stack, log)
        decreases if jump then TotalSize(stack) + 1 else 0
      {
        ghost var was, said := stack, log;
        jump := ExceptionUnwind(1);
        ghost var calls := log[|said|..];
        assert log == said + calls;
        UnwoundOnceOfRaise(was, stack, calls, jump);
        assert jump ==> said + (calls + Raise(stack).log) == log + Raise(stack).log;
      }
    }

    /** raise_exception. */
    method RaiseException()
      modifies this
      ensures stack == Raise(old(stack)).stack && log == old(log) + Raise(old(stack)).log
    {
      if stack != [] {
        Land();
      } else {
        assert log == log + Raise(stack).log;
      }
    }

    /** __exc_exit_try, and what follows from it. */
    method LeaveTry()
      requires stack != []
      modifies this
      ensures stack == ExitTry(old(stack)).stack && log == old(log) + ExitTry(old(stack)).log
    {
      ghost var f, rest, said := stack[0], stack[1..], log;
      assert stack == [f] + rest;
      stack := [stack[0].(catchers := [])] + stack[1..];
      var jump := ExceptionUnwind(0);
      ghost var calls := log[|said|..];
      assert log == said + calls;
      UnwoundOnceOfExit(f, rest, stack, calls, jump);
      if jump {
        assert said + (calls + Raise(stack).log) == log + Raise(stack).log;
        Land();
      }
    }
  }

  function Onward(before: seq<Ran>, a: Activation): Activation {
    a.(log := before + a.log)
  }

  lemma OnwardMore(before: seq<Ran>, ran: Ran, a: Activation)
    ensures Onward(before, a.(log := [ran] + a.log)) == Onward(before + [ran], a)
  {
    assert before + ([ran] + a.log) == before + [ran] + a.log;
  }
}
