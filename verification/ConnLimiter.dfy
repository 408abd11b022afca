/**
 The connection limiter (middleware/connlimit.go): any number of request threads over one
 atomic counter. A thread adds one and looks at what it got; if that is too much it backs
 out, otherwise it serves and takes its one back when it returns.
 */
module ConnLimiter {
  /** Where a request is. `Added` holds the value its add returned. */
  datatype Phase = Added(current: int) | BackingOut | Serving | Rejected | Served

  /** The counter, and the requests by number. */
  datatype State = State(active: int, threads: map<nat, Phase>)

  const INITIAL := State(0, map[])

  datatype Step =
    | Add(thread: nat)     // active.Add(1)
    | Check(thread: nat)   // current > max ?
    | Undo(thread: nat)    // active.Add(-1) before the 503
    | Finish(thread: nat)  // the deferred active.Add(-1)

  function Next(max: int, s: State, step: Step): State {
    var t := step.thread;
    if step.Add? && t !in s.threads then
      s.(active := s.active + 1, threads := s.threads[t := Added(s.active + 1)])
    else if step.Check? && t in s.threads && s.threads[t].Added? then
      s.(threads := s.threads[t := if s.threads[t].current > max then BackingOut else Serving])
    else if step.Undo? && t in s.threads && s.threads[t] == BackingOut then
      s.(active := s.active - 1, threads := s.threads[t := Rejected])
    else if step.Finish? && t in s.threads && s.threads[t] == Serving then
      s.(active := s.active - 1, threads := s.threads[t := Served])
    else s
  }

  function Run(max: int, steps: seq<Step>): State {
    if steps == [] then INITIAL else Next(max, Run(max, steps[..|steps| - 1]), steps[|steps| - 1])
  }

  predicate IsInFlight(p: Phase) {
    p.Added? || p.BackingOut? || p.Serving?
  }

  /** Requests that have added one and not taken it back. */
  function InFlight(s: State): set<nat> {
    set t | t in s.threads && IsInFlight(s.threads[t])
  }

  predicate Admits(max: int, p: Phase) {
    p.Serving? || (p.Added? && p.current <= max)
  }

  /** Requests that serve, or will once they have looked. */
  function Admitted(max: int, s: State): set<nat> {
    set t | t in s.threads && Admits(max, s.threads[t])
  }

  function ServingNow(s: State): set<nat> {
    set t | t in s.threads && s.threads[t].Serving?
  }

  function BackingOutNow(s: State): set<nat> {
    set t | t in s.threads && s.threads[t].BackingOut?
  }

  predicate Deciding(s: State) {
    exists t :: t in s.threads && s.threads[t].Added?
  }

  predicate Inv(max: int, s: State) {
    s.active == |InFlight(s)| && |Admitted(max, s)| <= max
  }

  lemma {:induction false} Subset(a: set<nat>, b: set<nat>)
    requires a <= b
    ensures |a| <= |b|
  {
    assert |b| == |a| + |b - a| by {
      assert a + (b - a) == b && a * (b - a) == {};
    }
  }

  /** The requests of each kind after one of them has moved. */
  lemma {:induction false} OneMoves(max: int, s: State, s': State, t: nat)
    requires t in s'.threads && s'.threads == s.threads[t := s'.threads[t]]
    ensures InFlight(s') == if IsInFlight(s'.threads[t]) then InFlight(s) + {t} else InFlight(s) - {t}
    ensures Admitted(max, s') == if Admits(max, s'.threads[t]) then Admitted(max, s) + {t} else Admitted(max, s) - {t}
    ensures t in InFlight(s) <==> t in s.threads && IsInFlight(s.threads[t])
    ensures t in Admitted(max, s) <==> t in s.threads && Admits(max, s.threads[t])
  {
  }

  function Count(b: bool): nat {
    if b then 1 else 0
  }

  lemma {:induction false} OneMovesCounts(max: int, s: State, s': State, t: nat)
    requires t in s'.threads && s'.threads == s.threads[t := s'.threads[t]]
    ensures |InFlight(s')| + Count(t in s.threads && IsInFlight(s.threads[t])) ==
            |InFlight(s)| + Count(IsInFlight(s'.threads[t]))
    ensures |Admitted(max, s')| + Count(t in s.threads && Admits(max, s.threads[t])) ==
            |Admitted(max, s)| + Count(Admits(max, s'.threads[t]))
    ensures |Admitted(max, s)| <= |InFlight(s)|
  {
    OneMoves(max, s, s', t);
    assert Admitted(max, s) <= InFlight(s);
    Subset(Admitted(max, s), InFlight(s));
    hide InFlight, Admitted;
  }

  lemma {:induction false} StepKeeps(max: int, s: State, step: Step)
    requires max > 0 && Inv(max, s)
    ensures Inv(max, Next(max, s, step))
  {
    hide InFlight, Admitted;
    var t, s' := step.thread, Next(max, s, step);
    if s' != s {
      OneMovesCounts(max, s, s', t);
    }
  }

  lemma {:induction false} RunKeeps(max: int, steps: seq<Step>)
    requires max > 0
    ensures Inv(max, Run(max, steps))
  {
    if steps != [] {
      RunKeeps(max, steps[..|steps| - 1]);
      StepKeeps(max, Run(max, steps[..|steps| - 1]), steps[|steps| - 1]);
    } else {
      assert InFlight(INITIAL) == {} && Admitted(max, INITIAL) == {};
    }
  }

  /**
   In every interleaving: never more than `max` are serving; the counter is the number of
   requests that have added one and not taken it back, so when none is between its add and its
   check, those serving and those backing out; and it is back at zero exactly when all have
   finished.
   */
  lemma {:induction false} LimitHolds(max: int, steps: seq<Step>)
    requires max > 0
    ensures var s := Run(max, steps);
            && |ServingNow(s)| <= max
            && s.active == |InFlight(s)|
            && (!Deciding(s) ==> s.active == |ServingNow(s)| + |BackingOutNow(s)|)
            && (s.active == 0 <==> forall t :: t in s.threads ==> s.threads[t].Rejected? || s.threads[t].Served?)
  {
    RunKeeps(max, steps);
    var s := Run(max, steps);
    assert ServingNow(s) <= Admitted(max, s);
    Subset(ServingNow(s), Admitted(max, s));
    if !Deciding(s) {
      assert InFlight(s) == ServingNow(s) + BackingOutNow(s) && ServingNow(s) * BackingOutNow(s) == {};
    }
    forall t | t in s.threads && IsInFlight(s.threads[t])
      ensures s.active > 0
    {
      assert t in InFlight(s);
    }
    if forall t :: t in s.threads ==> s.threads[t].Rejected? || s.threads[t].Served? {
      assert InFlight(s) == {};
    }
  }

  // ----------------------------------------------------------- who is turned away

  /** The step at which a request added one: the first that knows of it. */
  function AddedAt(max: int, steps: seq<Step>, t: nat): (k: nat)
    requires t in Run(max, steps).threads
    ensures k < |steps| && steps[k] == Add(t) && t !in Run(max, steps[..k]).threads
  {
    var last := |steps| - 1;
    if t in Run(max, steps[..last]).threads then
      var k := AddedAt(max, steps[..last], t);
      assert steps[..last][..k] == steps[..k];
      k
    else last
  }

  /** How many others were in flight then. */
  function OthersAtAdd(max: int, steps: seq<Step>, t: nat): nat
    requires t in Run(max, steps).threads
  {
    |InFlight(Run(max, steps[..AddedAt(max, steps, t)]))|
  }

  /** A request is turned away if and only if, at its add, at least `max` others were in flight. */
  lemma {:induction false} TurnedAwayExactly(max: int, steps: seq<Step>, t: nat)
    requires max > 0 && t in Run(max, steps).threads
    ensures var others := OthersAtAdd(max, steps, t);
            match Run(max, steps).threads[t]
            case Added(current) => current == others + 1
            case BackingOut => others >= max
            case Rejected => others >= max
            case Serving => others < max
            case Served => others < max
  {
    hide InFlight;
    var before, step := steps[..|steps| - 1], steps[|steps| - 1];
    var s := Run(max, before);
    RunKeeps(max, before);
    if t in s.threads {
      TurnedAwayExactly(max, before, t);
      assert steps[..|steps| - 1][..AddedAt(max, before, t)] == steps[..AddedAt(max, before, t)];
    }
  }

  // ------------------------------------------------------------------- the class

  ghost predicate Reachable(max: int, s: State) {
    exists steps :: s == Run(max, steps)
  }

  lemma {:induction false} NextReachable(max: int, s: State, step: Step)
    requires Reachable(max, s)
    ensures Reachable(max, Next(max, s, step))
  {
    hide Next;
    var steps :| s == Run(max, steps);
    assert (steps + [step])[..|steps|] == steps;
    assert Next(max, s, step) == Run(max, steps + [step]);
  }

  /** What a request does before it is served or turned away. */
  function Entered(max: int, s: State, thread: nat): State {
    Next(max, Next(max, Next(max, s, Add(thread)), Check(thread)), Undo(thread))
  }

  /** The handler that `Middleware` returns, in two parts: before and after the next handler runs. */
  class ConnLimiter {
    const max: int
    var active: int
    ghost var state: State

    ghost predicate Valid()
      reads this
    {
      max > 0 && Reachable(max, state) && active == state.active
    }

    constructor (max: int)
      requires max > 0
      ensures Valid() && this.max == max && state == INITIAL
    {
      this.max, active, state := max, 0, INITIAL;
      assert INITIAL == Run(max, []);
    }

    method Enter(ghost thread: nat) returns (admitted: bool)
      requires Valid() && thread !in state.threads
      modifies this
      ensures Valid() && state == Entered(max, old(state), thread)
      ensures state.threads[thread] == (if admitted then Serving else Rejected)
      ensures admitted <==> old(active) < max
    {
      NextReachable(max, state, Add(thread));
      NextReachable(max, Next(max, state, Add(thread)), Check(thread));
      NextReachable(max, Next(max, Next(max, state, Add(thread)), Check(thread)), Undo(thread));
      state := Entered(max, state, thread);
      active := active + 1;
      var current := active;
      if current > max {
        active := active - 1;
        return false;
      }
      return true;
    }

    method Leave(ghost thread: nat)
      requires Valid() && thread in state.threads && state.threads[thread].Serving?
      modifies this
      ensures Valid() && state == Next(max, old(state), Finish(thread))
    {
      NextReachable(max, state, Finish(thread));
      state := Next(max, state, Finish(thread));
      active := active - 1;
    }
  }

  /** No limiter at all for a limit that is not positive. */
  method NewConnLimiter(max: int) returns (limiter: ConnLimiter?)
    ensures limiter == null <==> max <= 0
    ensures limiter != null ==> fresh(limiter) && limiter.Valid() && limiter.max == max && limiter.state == INITIAL
  {
    if max <= 0 {
      return null;
    }
    limiter := new ConnLimiter(max);
  }

  /** A nil limiter has nothing in flight. */
  method Active(limiter: ConnLimiter?) returns (n: int)
    requires limiter != null ==> limiter.Valid()
    ensures n == if limiter == null then 0 else |InFlight(limiter.state)|
  {
    if limiter == null {
      return 0;
    }
    ghost var steps :| limiter.state == Run(limiter.max, steps);
    LimitHolds(limiter.max, steps);
    n := limiter.active;
  }
}
