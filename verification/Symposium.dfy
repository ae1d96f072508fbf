// The dining philosophers monitor (symposium.c).
//
// A philosopher's pass through the monitor, from locking S->mx to unlocking it or to Cond_Wait,
// is one step; philosopher i is the only thread that waits on hungry[i].

module Symposium {

  datatype Phil = NOTHERE | THINKING | HUNGRY | EATING

  // A sleeper in Cond_Wait, or one that has been woken and will look at its state again.
  datatype Sleep = Asleep | Signalled | Spurious

  // Where philosopher i stands in SymposiumTable_philosopher; `bite` is the loop variable j.
  datatype Pc =
    | Arriving
    | Thinks(bite: nat)
    | Waits(bite: nat, sleep: Sleep)
    | Eats(bite: nat)
    | Done

  /** `eaten` is a history variable: how often each philosopher has finished eating. */
  datatype State = State(N: nat, bites: nat, state: seq<Phil>, pc: seq<Pc>, eaten: seq<nat>)

  function LEFT(i: nat, N: nat): (r: nat)
    requires i < N
    ensures r < N
  {
    (i + 1) % N
  }

  function RIGHT(i: nat, N: nat): (r: nat)
    requires i < N
    ensures r < N
  {
    (i + N - 1) % N
  }

  lemma OneLap(x: nat, N: nat)
    requires x < N
    ensures x % N == x && (x + N) % N == x
  {
    var q := (x + N) / N;
    assert x + N == q * N + (x + N) % N;
    Multiples(q, N);
  }

  lemma Multiples(q: int, N: nat)
    ensures q <= 0 ==> q * N <= 0
    ensures q >= 2 ==> q * N >= 2 * N
  {
    if q >= 2 {
      assert (q - 2) * N >= 0;
    }
  }

  /** The table is round: going left and then right comes back, and only the seat 0 or N-1 wraps. */
  lemma Neighbours(i: nat, N: nat)
    requires i < N
    ensures LEFT(i, N) == if i + 1 < N then i + 1 else 0
    ensures RIGHT(i, N) == if i > 0 then i - 1 else N - 1
  {
    OneLap(0, N);
    OneLap(N - 1, N);
    if i + 1 < N { OneLap(i + 1, N); }
    if i > 0 {
      OneLap(i - 1, N);
      assert i + N - 1 == i - 1 + N;
    }
  }

  lemma LeftRightInverse(i: nat, N: nat)
    requires i < N
    ensures RIGHT(LEFT(i, N), N) == i && LEFT(RIGHT(i, N), N) == i
    ensures LEFT(i, N) == i <==> N == 1
    ensures RIGHT(i, N) == i <==> N == 1
  {
    Neighbours(i, N);
    Neighbours(LEFT(i, N), N);
    Neighbours(RIGHT(i, N), N);
  }

  // -------------------------------------------------------------- the steps

  predicate Sized(s: State) {
    |s.state| == s.N && |s.pc| == s.N && |s.eaten| == s.N
  }

  predicate MayEat(s: State, i: nat)
    requires Sized(s) && i < s.N
  {
    s.state[i] == HUNGRY && s.state[LEFT(i, s.N)] != EATING && s.state[RIGHT(i, s.N)] != EATING
  }

  /** trytoeat, with the effect of its Cond_Signal on a sleeper. */
  function TryToEat(s: State, i: nat): (r: State)
    requires Sized(s) && i < s.N
    ensures Sized(r)
  {
    if MayEat(s, i) then
      s.(state := s.state[i := EATING],
         pc := if s.pc[i].Waits? && s.pc[i].sleep == Asleep then s.pc[i := Waits(s.pc[i].bite, Signalled)] else s.pc)
    else s
  }

  datatype Action =
    | Arrive(i: nat)
    | GetHungry(i: nat)
    | LookAgain(i: nat)     // back from Cond_Wait: the loop test
    | StopEating(i: nat)
    | Leave(i: nat)
    | SpuriousWakeup(i: nat)

  predicate Enabled(s: State, a: Action) {
    && Sized(s) && a.i < s.N
    && var pc := s.pc[a.i];
    match a
    case Arrive(_) => pc.Arriving?
    case GetHungry(_) => pc.Thinks? && pc.bite < s.bites
    case LookAgain(_) => pc.Waits? && pc.sleep != Asleep
    case StopEating(_) => pc.Eats?
    case Leave(_) => pc.Thinks? && pc.bite >= s.bites
    case SpuriousWakeup(_) => pc.Waits? && pc.sleep == Asleep
  }

  function SetPhil(s: State, i: nat, p: Phil, pc: Pc): State
    requires Sized(s) && i < s.N
  {
    s.(state := s.state[i := p], pc := s.pc[i := pc])
  }

  /** The loop test: sleep while HUNGRY, else go and eat. */
  function WaitOrEat(s: State, i: nat, bite: nat): State
    requires Sized(s) && i < s.N
  {
    s.(pc := s.pc[i := if s.state[i] == HUNGRY then Waits(bite, Asleep) else Eats(bite)])
  }

  function Apply(s: State, a: Action): (r: State)
    requires Enabled(s, a)
    ensures Sized(r) && r.N == s.N && r.bites == s.bites
  {
    var i := a.i;
    match a
    case Arrive(_) => SetPhil(s, i, THINKING, Thinks(0))
    case GetHungry(_) => WaitOrEat(TryToEat(SetPhil(s, i, HUNGRY, s.pc[i]), i), i, s.pc[i].bite)
    case LookAgain(_) => WaitOrEat(s, i, s.pc[i].bite)
    case StopEating(_) =>
      TryToEat(TryToEat(ForksDown(s, i), LEFT(i, s.N)), RIGHT(i, s.N))
    case Leave(_) => SetPhil(s, i, NOTHERE, Done)
    case SpuriousWakeup(_) => s.(pc := s.pc[i := Waits(s.pc[i].bite, Spurious)])
  }

  // ---------------------------------------------------------- the invariant

  /** Where a philosopher stands, what the table says of it, and how much it has eaten. */
  predicate PhilOk(s: State, i: nat)
    requires Sized(s) && i < s.N
  {
    var p := s.state[i];
    match s.pc[i]
    case Arriving => p == NOTHERE && s.eaten[i] == 0
    case Thinks(j) => p == THINKING && j <= s.bites && s.eaten[i] == j
    case Waits(j, Asleep) => p == HUNGRY && j < s.bites && s.eaten[i] == j
    case Waits(j, Signalled) => p == EATING && j < s.bites && s.eaten[i] == j
    case Waits(j, Spurious) => (p == HUNGRY || p == EATING) && j < s.bites && s.eaten[i] == j
    case Eats(j) => p == EATING && j < s.bites && s.eaten[i] == j
    case Done => p == NOTHERE && s.eaten[i] == s.bites
  }

  /** Distinct neighbours never eat at the same time. */
  ghost predicate Exclusive(s: State)
    requires Sized(s)
  {
    forall i | 0 <= i < s.N && LEFT(i, s.N) != i :: !(s.state[i] == EATING && s.state[LEFT(i, s.N)] == EATING)
  }

  predicate EatingNeighbour(s: State, i: nat)
    requires Sized(s) && i < s.N
  {
    s.state[LEFT(i, s.N)] == EATING || s.state[RIGHT(i, s.N)] == EATING
  }

  /** Whoever is hungry has a reason. */
  ghost predicate HungryOnlyNextToEating(s: State)
    requires Sized(s)
  {
    forall i | 0 <= i < s.N && s.state[i] == HUNGRY :: EatingNeighbour(s, i)
  }

  ghost predicate Inv(s: State) {
    && Sized(s)
    && (forall i | 0 <= i < s.N :: PhilOk(s, i))
    && Exclusive(s)
    && HungryOnlyNextToEating(s)
  }

  lemma TryToEatFrame(s: State, i: nat)
    requires Sized(s) && i < s.N
    ensures var r := TryToEat(s, i);
            && r.N == s.N && r.bites == s.bites && r.eaten == s.eaten
            && (forall k | 0 <= k < s.N && k != i :: r.state[k] == s.state[k] && r.pc[k] == s.pc[k])
            && (r.state[i] == s.state[i] || (s.state[i] == HUNGRY && r.state[i] == EATING))
  {
    hide LEFT, RIGHT;
  }

  lemma TryToEatExclusive(s: State, i: nat)
    requires Sized(s) && i < s.N && Exclusive(s)
    ensures Exclusive(TryToEat(s, i))
  {
    hide LEFT, RIGHT;
    var r := TryToEat(s, i);
    forall j | 0 <= j < s.N && LEFT(j, s.N) != j ensures !(r.state[j] == EATING && r.state[LEFT(j, s.N)] == EATING) {
      LeftRightInverse(j, s.N);
      assert !(s.state[j] == EATING && s.state[LEFT(j, s.N)] == EATING);
    }
  }

  lemma TryToEatPhil(s: State, i: nat, k: nat)
    requires Sized(s) && i < s.N && k < s.N && PhilOk(s, k)
    ensures PhilOk(TryToEat(s, i), k)
  {
    hide LEFT, RIGHT;
  }

  /** trytoeat leaves i hungry only next to somebody eating. */
  lemma TryToEatReason(s: State, i: nat)
    requires Sized(s) && i < s.N && TryToEat(s, i).state[i] == HUNGRY
    ensures EatingNeighbour(TryToEat(s, i), i)
  {
    hide LEFT, RIGHT;
  }

  /** More philosophers eating makes nobody's reason go away. */
  lemma ReasonKept(s: State, r: State, k: nat)
    requires Sized(s) && Sized(r) && r.N == s.N && k < s.N && EatingNeighbour(s, k)
    requires forall j | 0 <= j < s.N && s.state[j] == EATING :: r.state[j] == EATING
    ensures EatingNeighbour(r, k)
  {
    hide LEFT, RIGHT;
  }

  /** SymposiumTable_init, and every philosopher about to arrive. */
  function InitState(N: nat, bites: nat): State {
    State(N, bites, seq(N, i => NOTHERE), seq(N, i => Arriving), seq(N, i => 0))
  }

  lemma InitialInv(N: nat, bites: nat)
    ensures Inv(InitState(N, bites))
  {
    hide LEFT, RIGHT;
  }

  /** Putting the forks down, before the two trytoeat calls. */
  function ForksDown(s: State, i: nat): State
    requires Sized(s) && i < s.N && s.pc[i].Eats?
  {
    SetPhil(s, i, THINKING, Thinks(s.pc[i].bite + 1)).(eaten := s.eaten[i := s.eaten[i] + 1])
  }

  lemma StopEatingLocal(s: State, i: nat)
    requires Inv(s) && Enabled(s, StopEating(i))
    ensures var s' := Apply(s, StopEating(i)); Exclusive(s') && forall k | 0 <= k < s.N :: PhilOk(s', k)
  {
    hide LEFT, RIGHT, TryToEat, HungryOnlyNextToEating;
    var s1 := ForksDown(s, i);
    var s2 := TryToEat(s1, LEFT(i, s.N));
    assert PhilOk(s, i);
    assert Exclusive(s1);
    TryToEatExclusive(s1, LEFT(i, s.N));
    TryToEatFrame(s1, LEFT(i, s.N));
    TryToEatExclusive(s2, RIGHT(i, s.N));
    TryToEatFrame(s2, RIGHT(i, s.N));
    forall k | 0 <= k < s.N ensures PhilOk(Apply(s, StopEating(i)), k) {
      assert PhilOk(s, k);
      TryToEatPhil(s1, LEFT(i, s.N), k);
      TryToEatPhil(s2, RIGHT(i, s.N), k);
    }
  }

  lemma StopEatingReasons(s: State, i: nat)
    requires Inv(s) && Enabled(s, StopEating(i))
    ensures HungryOnlyNextToEating(Apply(s, StopEating(i)))
  {
    hide LEFT, RIGHT, TryToEat, Exclusive, PhilOk;
    var l, r := LEFT(i, s.N), RIGHT(i, s.N);
    var s1 := ForksDown(s, i);
    TryToEatFrame(s1, l);
    var s2 := TryToEat(s1, l);
    TryToEatFrame(s2, r);
    var s3 := TryToEat(s2, r);
    forall k | 0 <= k < s.N && s3.state[k] == HUNGRY ensures EatingNeighbour(s3, k) {
      if k == r {
        TryToEatReason(s2, r);
      } else if k == l {
        TryToEatReason(s1, l);
        ReasonKept(s2, s3, k);
      } else {
        LeftRightInverse(k, s.N);
        assert EatingNeighbour(s, k);
      }
    }
  }

  lemma StopEatingKeeps(s: State, i: nat)
    requires Inv(s) && Enabled(s, StopEating(i))
    ensures Inv(Apply(s, StopEating(i)))
  {
    hide Exclusive, HungryOnlyNextToEating, PhilOk, Apply;
    StopEatingLocal(s, i);
    StopEatingReasons(s, i);
  }

  /**
   * Who stops eating serves the left neighbour first: it eats now if it is hungry and its other
   * neighbour does not eat; then the right one, if it is hungry and its other neighbour does not eat
   * by now. Nobody else changes.
   */
  lemma StopEatingServes(s: State, i: nat)
    requires Inv(s) && Enabled(s, StopEating(i))
    ensures var r, left, right := Apply(s, StopEating(i)), LEFT(i, s.N), RIGHT(i, s.N);
            && r.state[i] == THINKING && r.pc[i] == Thinks(s.pc[i].bite + 1) && r.eaten == s.eaten[i := s.eaten[i] + 1]
            && (left != i ==>
                 (r.state[left] == EATING <==> s.state[left] == HUNGRY && (LEFT(left, s.N) == i || s.state[LEFT(left, s.N)] != EATING)))
            && (right != left ==>
                 (r.state[right] == EATING <==> s.state[right] == HUNGRY && r.state[RIGHT(right, s.N)] != EATING))
            && (forall k | 0 <= k < s.N && k != i && k != left && k != right :: r.state[k] == s.state[k] && r.pc[k] == s.pc[k])
  {
    hide LEFT, RIGHT, HungryOnlyNextToEating;
    var l, t := LEFT(i, s.N), RIGHT(i, s.N);
    LeftRightInverse(i, s.N);
    LeftRightInverse(l, s.N);
    LeftRightInverse(t, s.N);
    assert PhilOk(s, i) && PhilOk(s, l);
    assert l != i ==> s.state[l] != EATING;
    assert t != i ==> s.state[t] != EATING;
    var s1 := ForksDown(s, i);
    TryToEatFrame(s1, l);
    TryToEatFrame(TryToEat(s1, l), t);
  }

  /** What the other steps do: who gets hungry eats at once unless a neighbour does; who is awake looks whether it may eat. */
  lemma OwnStepDoes(s: State, a: Action)
    requires Inv(s) && Enabled(s, a) && !a.StopEating?
    ensures var i, r := a.i, Apply(s, a); var pc := s.pc[i];
            && (a.Arrive? ==> r.state[i] == THINKING && r.pc[i] == Thinks(0))
            && (a.GetHungry? ==>
                 if EatingNeighbour(s, i) then r.state[i] == HUNGRY && r.pc[i] == Waits(pc.bite, Asleep)
                 else r.state[i] == EATING && r.pc[i] == Eats(pc.bite))
            && (a.LookAgain? ==>
                 r.state == s.state && r.pc[i] == if s.state[i] == EATING then Eats(pc.bite) else Waits(pc.bite, Asleep))
            && (a.Leave? ==> r.state[i] == NOTHERE && r.pc[i] == Done)
            && (a.SpuriousWakeup? ==> r.state == s.state && r.pc[i] == Waits(pc.bite, Spurious))
            && r.eaten == s.eaten && (forall k | 0 <= k < s.N && k != i :: r.state[k] == s.state[k] && r.pc[k] == s.pc[k])
  {
    hide LEFT, RIGHT, Exclusive, HungryOnlyNextToEating;
    assert PhilOk(s, a.i);
    LeftRightInverse(a.i, s.N);
  }

  /** Everyone who has not left, and does not sleep in Cond_Wait, has a step to make. */
  lemma OnlySleepersStand(s: State, i: nat)
    requires Inv(s) && i < s.N
    ensures s.pc[i] != Done && !(s.pc[i].Waits? && s.pc[i].sleep == Asleep) <==>
              (exists a :: Enabled(s, a) && a.i == i && !a.SpuriousWakeup?)
    ensures s.pc[i].Waits? && s.pc[i].sleep == Asleep ==> Enabled(s, SpuriousWakeup(i))
  {
    hide LEFT, RIGHT, Exclusive, HungryOnlyNextToEating;
    assert PhilOk(s, i);
    var a := match s.pc[i]
      case Arriving => Arrive(i)
      case Thinks(j) => if j < s.bites then GetHungry(i) else Action.Leave(i)
      case Waits(_, _) => LookAgain(i)
      case _ => StopEating(i);
    assert s.pc[i] != Done && !(s.pc[i].Waits? && s.pc[i].sleep == Asleep) ==> Enabled(s, a);
  }

  lemma GetHungryKeeps(s: State, i: nat)
    requires Inv(s) && Enabled(s, GetHungry(i))
    ensures Inv(Apply(s, GetHungry(i)))
  {
    hide LEFT, RIGHT, TryToEat;
    var s1 := SetPhil(s, i, HUNGRY, s.pc[i]);
    TryToEatFrame(s1, i);
    var s2 := TryToEat(s1, i);
    var s' := WaitOrEat(s2, i, s.pc[i].bite);
    assert PhilOk(s, i);
    assert Exclusive(s') by {
      assert Exclusive(s1);
      TryToEatExclusive(s1, i);
      assert s'.state == s2.state;
    }
    assert s2.pc[i] == s1.pc[i] by { TryToEatKeepsPc(s1, i); }
    forall k | 0 <= k < s.N ensures PhilOk(s', k) {
      assert PhilOk(s, k);
    }
    forall k | 0 <= k < s.N && s'.state[k] == HUNGRY ensures EatingNeighbour(s', k) {
      if k == i {
        TryToEatReason(s1, i);
        ReasonKept(s2, s', k);
      } else {
        ReasonKept(s, s', k);
      }
    }
  }

  lemma TryToEatKeepsPc(s: State, i: nat)
    requires Sized(s) && i < s.N && !s.pc[i].Waits?
    ensures TryToEat(s, i).pc == s.pc
  {
  }

  /** Arriving, leaving, looking again and waking change nobody's appetite. */
  lemma OtherStepsKeep(s: State, a: Action)
    requires Inv(s) && Enabled(s, a) && !a.GetHungry? && !a.StopEating?
    ensures Inv(Apply(s, a))
  {
    hide LEFT, RIGHT, TryToEat;
    var s' := Apply(s, a);
    assert PhilOk(s, a.i);
    forall k | 0 <= k < s.N ensures PhilOk(s', k) {
      assert PhilOk(s, k);
    }
    assert forall k | 0 <= k < s.N :: s'.state[k] == EATING <==> s.state[k] == EATING;
    assert forall k | 0 <= k < s.N :: s'.state[k] == HUNGRY <==> s.state[k] == HUNGRY;
    forall k | 0 <= k < s.N && s'.state[k] == HUNGRY ensures EatingNeighbour(s', k) {
      ReasonKept(s, s', k);
    }
  }

  lemma StepKeepsInv(s: State, a: Action)
    requires Inv(s) && Enabled(s, a)
    ensures Inv(Apply(s, a))
  {
    hide Inv, Apply;
    match a
    case GetHungry(i) => GetHungryKeeps(s, i);
    case StopEating(i) => StopEatingKeeps(s, i);
    case _ => OtherStepsKeep(s, a);
  }

  // --------------------------------------------------------------- the runs

  ghost predicate IsRun(run: seq<State>, acts: seq<Action>) {
    |run| == |acts| + 1 && forall k | 0 <= k < |acts| :: Enabled(run[k], acts[k]) && run[k + 1] == Apply(run[k], acts[k])
  }

  lemma {:induction false} RunKeepsInv(run: seq<State>, acts: seq<Action>, N: nat, bites: nat, k: nat)
    requires IsRun(run, acts) && run[0] == InitState(N, bites) && k < |run|
    ensures Inv(run[k]) && run[k].N == N && run[k].bites == bites
  {
    hide Inv, Apply, Enabled, InitState;
    if k == 0 {
      InitialInv(N, bites);
      assert run[0].N == N && run[0].bites == bites by { InitialSize(N, bites); }
    } else {
      RunKeepsInv(run, acts, N, bites, k - 1);
      assert Enabled(run[k - 1], acts[k - 1]) && run[k - 1 + 1] == Apply(run[k - 1], acts[k - 1]);
      StepKeepsInv(run[k - 1], acts[k - 1]);
    }
  }

  lemma InitialSize(N: nat, bites: nat)
    ensures InitState(N, bites).N == N && InitState(N, bites).bites == bites
  {
  }

  /** In every reachable state: neighbours exclude each other, hunger has a reason, and nobody sleeps on while eating. */
  lemma TableIsSafe(run: seq<State>, acts: seq<Action>, N: nat, bites: nat, k: nat, i: nat)
    requires IsRun(run, acts) && run[0] == InitState(N, bites) && k < |run| && i < N
    ensures var s := run[k];
            && |s.state| == N && |s.pc| == N
            && (s.state[i] == EATING && N > 1 ==> s.state[LEFT(i, N)] != EATING && s.state[RIGHT(i, N)] != EATING)
            && (s.state[i] == HUNGRY ==> s.state[LEFT(i, N)] == EATING || s.state[RIGHT(i, N)] == EATING)
            && (s.pc[i].Waits? && s.pc[i].sleep == Asleep ==> s.state[i] == HUNGRY)
            && (s.pc[i].Eats? ==> s.state[i] == EATING)
  {
    hide LEFT, RIGHT;
    RunKeepsInv(run, acts, N, bites, k);
    var s := run[k];
    LeftRightInverse(i, N);
    assert PhilOk(s, i);
    assert s.state[i] == HUNGRY ==> EatingNeighbour(s, i);
    assert LEFT(i, N) != i ==> !(s.state[i] == EATING && s.state[LEFT(i, N)] == EATING);
    var r := RIGHT(i, N);
    assert LEFT(r, N) != r ==> !(s.state[r] == EATING && s.state[LEFT(r, N)] == EATING);
  }

  // ------------------------------------------------------------ termination

  /** How many steps philosopher i can still take if nothing wakes it spuriously. */
  function Rank(pc: Pc, bites: nat): int {
    match pc
    case Arriving => 4 * bites + 2
    case Thinks(j) => 4 * (bites - j) + 1
    case Waits(j, Asleep) => 4 * (bites - j)
    case Waits(j, Signalled) => 4 * (bites - j) - 1
    case Waits(j, Spurious) => 4 * (bites - j) + 1
    case Eats(j) => 4 * (bites - j) - 2
    case Done => 0
  }

  function Total(pc: seq<Pc>, bites: nat): int {
    if pc == [] then 0 else Rank(pc[0], bites) + Total(pc[1..], bites)
  }

  lemma {:induction false} TotalUpdate(pc: seq<Pc>, bites: nat, i: nat, p: Pc)
    requires i < |pc|
    ensures Total(pc[i := p], bites) == Total(pc, bites) - Rank(pc[i], bites) + Rank(p, bites)
  {
    hide Rank;
    if i > 0 {
      assert pc[i := p][1..] == pc[1..][i - 1 := p];
      TotalUpdate(pc[1..], bites, i - 1, p);
    } else {
      assert pc[i := p][1..] == pc[1..];
    }
  }

  lemma {:induction false} TotalNonNegative(pc: seq<Pc>, bites: nat)
    requires forall k | 0 <= k < |pc| :: Rank(pc[k], bites) >= 0
    ensures Total(pc, bites) >= 0
  {
    hide Rank;
    if pc != [] {
      assert Rank(pc[0], bites) >= 0;
      forall k | 0 <= k < |pc[1..]| ensures Rank(pc[1..][k], bites) >= 0 { assert pc[1..][k] == pc[k + 1]; }
      TotalNonNegative(pc[1..], bites);
    }
  }

  lemma {:induction false} TotalConstant(pc: seq<Pc>, bites: nat)
    requires forall k | 0 <= k < |pc| :: pc[k].Arriving?
    ensures Total(pc, bites) == |pc| * (4 * bites + 2)
  {
    if pc != [] {
      TotalConstant(pc[1..], bites);
      calc {
        Total(pc, bites);
        4 * bites + 2 + (|pc| - 1) * (4 * bites + 2);
        |pc| * (4 * bites + 2);
      }
    }
  }

  lemma TryToEatTotal(s: State, i: nat)
    requires Sized(s) && i < s.N
    ensures Total(TryToEat(s, i).pc, s.bites) <= Total(s.pc, s.bites)
  {
    hide LEFT, RIGHT, Total;
    if s.pc[i].Waits? && s.pc[i].sleep == Asleep {
      TotalUpdate(s.pc, s.bites, i, Waits(s.pc[i].bite, Signalled));
    }
  }

  /** Every step but a spurious wakeup uses something up; a spurious wakeup gives one unit back. */
  lemma StepUsesRank(s: State, a: Action)
    requires Inv(s) && Enabled(s, a)
    ensures Total(Apply(s, a).pc, s.bites) <= Total(s.pc, s.bites) + if a.SpuriousWakeup? then 1 else -1
  {
    hide LEFT, RIGHT, Total, TryToEat, Exclusive, HungryOnlyNextToEating;
    var i := a.i;
    assert PhilOk(s, i);
    match a
    case GetHungry(_) =>
      var s1 := SetPhil(s, i, HUNGRY, s.pc[i]);
      TryToEatKeepsPc(s1, i);
      assert s1.pc == s.pc;
      TotalUpdate(s.pc, s.bites, i, Apply(s, a).pc[i]);
    case StopEating(_) =>
      var s1 := ForksDown(s, i);
      TotalUpdate(s.pc, s.bites, i, s1.pc[i]);
      TryToEatFrame(s1, LEFT(i, s.N));
      TryToEatTotal(s1, LEFT(i, s.N));
      TryToEatTotal(TryToEat(s1, LEFT(i, s.N)), RIGHT(i, s.N));
    case _ =>
      TotalUpdate(s.pc, s.bites, i, Apply(s, a).pc[i]);
  }

  function SpuriousCount(acts: seq<Action>): nat {
    if acts == [] then 0 else SpuriousCount(acts[..|acts| - 1]) + if acts[|acts| - 1].SpuriousWakeup? then 1 else 0
  }

  lemma PrefixIsRun(run: seq<State>, acts: seq<Action>)
    requires IsRun(run, acts) && acts != []
    ensures IsRun(run[..|acts|], acts[..|acts| - 1])
  {
    hide Enabled, Apply;
    var run', acts' := run[..|acts|], acts[..|acts| - 1];
    forall k | 0 <= k < |acts'| ensures Enabled(run'[k], acts'[k]) && run'[k + 1] == Apply(run'[k], acts'[k]) {
      assert Enabled(run[k], acts[k]);
    }
  }

  lemma {:induction false} RunUsesRank(run: seq<State>, acts: seq<Action>, N: nat, bites: nat)
    requires IsRun(run, acts) && run[0] == InitState(N, bites)
    ensures Total(run[|acts|].pc, bites) <= Total(run[0].pc, bites) - |acts| + 2 * SpuriousCount(acts)
  {
    hide Total, Inv, Apply, Enabled, InitState;
    if acts != [] {
      var n := |acts| - 1;
      PrefixIsRun(run, acts);
      RunUsesRank(run[..|acts|], acts[..n], N, bites);
      RunKeepsInv(run, acts, N, bites, n);
      assert Enabled(run[n], acts[n]) && run[n + 1] == Apply(run[n], acts[n]);
      StepUsesRank(run[n], acts[n]);
    }
  }

  lemma InvTotal(s: State)
    requires Inv(s)
    ensures Total(s.pc, s.bites) >= 0
  {
    hide LEFT, RIGHT, Total, Exclusive, HungryOnlyNextToEating;
    forall k | 0 <= k < |s.pc| ensures Rank(s.pc[k], s.bites) >= 0 {
      assert PhilOk(s, k);
    }
    TotalNonNegative(s.pc, s.bites);
  }

  /** Without spurious wakeups no run is longer than N(4 bites + 2); each spurious wakeup adds at most two steps. */
  lemma RunsAreBounded(run: seq<State>, acts: seq<Action>, N: nat, bites: nat)
    requires IsRun(run, acts) && run[0] == InitState(N, bites)
    ensures |acts| <= N * (4 * bites + 2) + 2 * SpuriousCount(acts)
  {
    hide Inv, Total, Apply, Enabled, SpuriousCount;
    TotalConstant(run[0].pc, bites);
    RunUsesRank(run, acts, N, bites);
    RunKeepsInv(run, acts, N, bites, |acts|);
    InvTotal(run[|acts|]);
  }

  /** What philosopher i does next when it is not asleep. */
  function NextAction(s: State, i: nat): Action
    requires Sized(s) && i < s.N
  {
    match s.pc[i]
    case Arriving => Arrive(i)
    case Thinks(j) => if j < s.bites then GetHungry(i) else Leave(i)
    case Waits(_, _) => LookAgain(i)
    case Eats(_) => StopEating(i)
    case Done => Leave(i)
  }

  /** No deadlock: while anybody is at the table, somebody can move without a spurious wakeup. */
  lemma NoDeadlock(s: State, i: nat) returns (k: nat)
    requires Inv(s) && i < s.N && s.pc[i] != Done
    ensures k < s.N && Enabled(s, NextAction(s, k)) && !NextAction(s, k).SpuriousWakeup?
  {
    hide LEFT, RIGHT, Exclusive;
    k := i;
    assert PhilOk(s, i);
    if s.pc[i].Waits? && s.pc[i].sleep == Asleep {
      assert EatingNeighbour(s, i);
      k := if s.state[LEFT(i, s.N)] == EATING then LEFT(i, s.N) else RIGHT(i, s.N);
      assert PhilOk(s, k);
    }
  }

  ghost predicate OnlySpuriousLeft(s: State) {
    forall a: Action {:trigger Enabled(s, a)} :: Enabled(s, a) ==> a.SpuriousWakeup?
  }

  /** A run that cannot go on has fed everybody exactly `bites` times, and everybody has left. */
  lemma MaximalRunsFeedEveryone(run: seq<State>, acts: seq<Action>, N: nat, bites: nat, i: nat)
    requires IsRun(run, acts) && run[0] == InitState(N, bites) && i < N
    requires OnlySpuriousLeft(run[|acts|])
    ensures var s := run[|acts|];
            |s.state| == N && |s.pc| == N && |s.eaten| == N && s.pc[i] == Done && s.state[i] == NOTHERE && s.eaten[i] == bites
  {
    hide LEFT, RIGHT, Exclusive, HungryOnlyNextToEating, Enabled, Apply;
    RunKeepsInv(run, acts, N, bites, |acts|);
    var s := run[|acts|];
    assert PhilOk(s, i);
    if s.pc[i] != Done {
      var k := NoDeadlock(s, i);
    }
  }
}

/** symposium.c in place. */
module SymposiumInPlace {
  import opened Symposium

  /** The table's arrays; `pc` and `eaten` say where each philosopher's thread is and how much it has eaten. */
  class SymposiumTable {
    const bites: nat
    const state: array<Phil>
    const pc: array<Pc>
    const eaten: array<nat>

    ghost predicate Valid()
      reads this
    {
      pc.Length == state.Length && eaten.Length == state.Length && pc as object != state && eaten as object != state && eaten as object != pc
    }

    ghost function View(): (s: State)
      reads this, state, pc, eaten
      requires Valid()
      ensures Sized(s)
    {
      State(state.Length, bites, state[..], pc[..], eaten[..])
    }

    /** SymposiumTable_init, and N philosophers that have not yet arrived. */
    constructor Init(N: nat, bites: nat)
      ensures Valid() && fresh(state) && fresh(pc) && fresh(eaten) && View() == InitState(N, bites) && Inv(View())
    {
      this.bites := bites;
      state := new Phil[N];
      pc := new Pc[N](_ => Arriving);
      eaten := new nat[N](_ => 0);
      new;
      for i := 0 to N
        invariant forall k | 0 <= k < i :: state[k] == NOTHERE
        invariant forall k | 0 <= k < N :: pc[k] == Arriving && eaten[k] == 0
      {
        state[i] := NOTHERE;
      }
      InitialInv(N, bites);
    }

    method TryToEat(i: nat)
      requires Valid() && i < state.Length
      modifies state, pc
      ensures View() == Symposium.TryToEat(old(View()), i)
    {
      var N := state.Length;
      if state[i] == HUNGRY && state[LEFT(i, N)] != EATING && state[RIGHT(i, N)] != EATING {
        state[i] := EATING;
        CondSignal(i);
      }
    }

    /** Cond_Signal(&hungry[i]): wakes philosopher i if it is asleep there. */
    method CondSignal(i: nat)
      requires Valid() && i < state.Length
      modifies pc
      ensures pc[..] == if old(pc[i]).Waits? && old(pc[i]).sleep == Asleep then old(pc[..])[i := Waits(old(pc[i]).bite, Signalled)] else old(pc[..])
    {
      if pc[i].Waits? && pc[i].sleep == Asleep {
        pc[i] := Waits(pc[i].bite, Signalled);
      }
    }

    method Arrive(i: nat)
      requires Valid() && Inv(View()) && Enabled(View(), Action.Arrive(i))
      modifies state, pc
      ensures View() == Apply(old(View()), Action.Arrive(i)) && Inv(View())
    {
      StepKeepsInv(View(), Action.Arrive(i));
      state[i] := THINKING;
      pc[i] := Thinks(0);
    }

    /** Lock, state[i] = HUNGRY, trytoeat, and the first test of the loop. */
    method GetHungry(i: nat)
      requires Valid() && Inv(View()) && Enabled(View(), Action.GetHungry(i))
      modifies state, pc
      ensures View() == Apply(old(View()), Action.GetHungry(i)) && Inv(View())
    {
      StepKeepsInv(View(), Action.GetHungry(i));
      var j := pc[i].bite;
      state[i] := HUNGRY;
      assert View() == SetPhil(old(View()), i, HUNGRY, old(pc[i]));
      TryToEat(i);
      LoopTest(i, j);
    }

    /** while (state[i] == HUNGRY) Cond_Wait(...), and what the source asserts after it. */
    method LoopTest(i: nat, j: nat)
      requires Valid() && i < state.Length
      modifies pc
      ensures View() == WaitOrEat(old(View()), i, j)
    {
      pc[i] := if state[i] == HUNGRY then Waits(j, Asleep) else Eats(j);
    }

    /** Back from Cond_Wait with mx locked; leaving the loop means eating. */
    method LookAgain(i: nat)
      requires Valid() && Inv(View()) && Enabled(View(), Action.LookAgain(i))
      modifies pc
      ensures View() == Apply(old(View()), Action.LookAgain(i)) && Inv(View())
      ensures pc[i].Eats? ==> state[i] == EATING
    {
      StepKeepsInv(View(), Action.LookAgain(i));
      assert PhilOk(View(), i);
      LoopTest(i, pc[i].bite);
    }

    method StopEating(i: nat)
      requires Valid() && Inv(View()) && Enabled(View(), Action.StopEating(i))
      modifies state, pc, eaten
      ensures View() == Apply(old(View()), Action.StopEating(i)) && Inv(View())
    {
      StepKeepsInv(View(), Action.StopEating(i));
      state[i] := THINKING;
      pc[i] := Thinks(pc[i].bite + 1);
      eaten[i] := eaten[i] + 1;
      assert View() == ForksDown(old(View()), i);
      TryToEat(LEFT(i, state.Length));
      TryToEat(RIGHT(i, state.Length));
    }

    method Leave(i: nat)
      requires Valid() && Inv(View()) && Enabled(View(), Action.Leave(i))
      modifies state, pc
      ensures View() == Apply(old(View()), Action.Leave(i)) && Inv(View())
    {
      StepKeepsInv(View(), Action.Leave(i));
      state[i] := NOTHERE;
      pc[i] := Done;
    }
  }
}
