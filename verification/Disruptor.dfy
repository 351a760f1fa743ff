/** The chaos disruptor: one goroutine that deletes pods, and callers that arm and pause it. Each
    step below is one critical section or channel operation; a schedule is any interleaving. */
module Disruptors {

  const MAX_ACTIONS_PER_OPERATION := 5

  /** Where the goroutine is: waiting, inside `act` before its check, or past the check with a
      deletion under way. */
  datatype Position = Waiting | Entered(ungated: bool) | Acting(ungated: bool)

  datatype State = State(paused: bool, budget: int, actions: nat, trigger: bool, position: Position)

  datatype Step =
    // callers
    | ArmState | ArmSignal | PauseState
    // the goroutine
    | TakeTrigger | TimerFires | Check(gateOpen: bool) | ActionFails | Commit

  const INITIAL := State(true, 0, 0, false, Waiting)

  function Next(s: State, step: Step): State {
    match step
    case ArmState => s.(paused := false, budget := MAX_ACTIONS_PER_OPERATION)
    case ArmSignal => s.(trigger := true)
    case PauseState => s.(paused := true)
    case TakeTrigger => if s.position.Waiting? && s.trigger then s.(trigger := false, position := Entered(true)) else s
    case TimerFires => if s.position.Waiting? then s.(position := Entered(false)) else s
    case Check(gateOpen) =>
      if !s.position.Entered? then s
      else if s.paused || s.budget <= 0 || (!s.position.ungated && !gateOpen) then s.(position := Waiting)
      else s.(position := Acting(s.position.ungated))
    case ActionFails => if s.position.Acting? then s.(position := Waiting) else s
    case Commit =>
      if s.position.Acting? then s.(actions := s.actions + 1, budget := s.budget - 1, position := Waiting) else s
  }

  /** The state after the first `i` steps. */
  function After(schedule: seq<Step>, i: nat): State
    requires i <= |schedule|
  {
    if i == 0 then INITIAL else Next(After(schedule, i - 1), schedule[i - 1])
  }

  function Arms(schedule: seq<Step>, i: nat): nat
    requires i <= |schedule|
  {
    if i == 0 then 0 else Arms(schedule, i - 1) + if schedule[i - 1].ArmState? then 1 else 0
  }

  ghost predicate NoArm(schedule: seq<Step>, p: nat, q: nat) {
    forall m :: p <= m < q && m < |schedule| ==> !schedule[m].ArmState?
  }

  /** The budget never goes negative, a deletion under way is always paid for, and deletions never
      exceed what the arms have granted. */
  lemma {:induction false} BudgetHolds(schedule: seq<Step>, i: nat)
    requires i <= |schedule|
    ensures var s := After(schedule, i);
            && s.budget >= 0 && (s.position.Acting? ==> s.budget >= 1)
            && s.actions + s.budget <= MAX_ACTIONS_PER_OPERATION * Arms(schedule, i)
  {
    if i > 0 {
      BudgetHolds(schedule, i - 1);
    }
  }

  /** From one arm to the next, what is spent and what is left add up to the grant. */
  lemma {:induction false} GrantIsSpentOrLeft(schedule: seq<Step>, p: nat, q: nat)
    requires p < q <= |schedule| && schedule[p].ArmState? && NoArm(schedule, p + 1, q)
    ensures After(schedule, q).actions - After(schedule, p).actions + After(schedule, q).budget
            == MAX_ACTIONS_PER_OPERATION
    decreases q
  {
    if q > p + 1 {
      GrantIsSpentOrLeft(schedule, p, q - 1);
    }
  }

  /** After a pause and until the next arm, at most the deletion already under way is counted. */
  lemma {:induction false} PauseStopsAllButOne(schedule: seq<Step>, p: nat, q: nat)
    requires p < q <= |schedule| && schedule[p].PauseState? && NoArm(schedule, p, q)
    ensures var s, s' := After(schedule, p), After(schedule, q);
            && s'.paused
            && s'.actions + (if s'.position.Acting? then 1 else 0) <= s.actions + if s.position.Acting? then 1 else 0
    decreases q
  {
    if q > p + 1 {
      PauseStopsAllButOne(schedule, p, q - 1);
    }
  }

  /** Counted deletions that skipped the gate, or those that had to pass it. */
  function Hits(schedule: seq<Step>, i: nat, ungated: bool): nat
    requires i <= |schedule|
  {
    if i == 0 then 0
    else Hits(schedule, i - 1, ungated)
         + if schedule[i - 1].Commit? && After(schedule, i - 1).position == Acting(ungated) then 1 else 0
  }

  function Count(schedule: seq<Step>, i: nat, step: Step): nat
    requires i <= |schedule|
  {
    if i == 0 then 0 else Count(schedule, i - 1, step) + if schedule[i - 1] == step then 1 else 0
  }

  /** Every deletion is counted once; each signal of an arm pays for at most one that skips the gate;
      every other one found the gate open at its check. */
  lemma {:induction false} HitsAreAccountedFor(schedule: seq<Step>, i: nat)
    requires i <= |schedule|
    ensures var s := After(schedule, i);
            && s.actions == Hits(schedule, i, true) + Hits(schedule, i, false)
            && Hits(schedule, i, true) + (if s.trigger then 1 else 0)
               + (if s.position in {Entered(true), Acting(true)} then 1 else 0) <= Count(schedule, i, ArmSignal)
            && Hits(schedule, i, false) + (if s.position == Acting(false) then 1 else 0)
               <= Count(schedule, i, Check(true))
  {
    if i > 0 {
      HitsAreAccountedFor(schedule, i - 1);
    }
  }

  /** An arm lasts until the next pause, and its signal until a turn takes it. */
  lemma {:induction false} ArmStands(schedule: seq<Step>, p: nat, q: nat)
    requires p < q <= |schedule|
    ensures schedule[p].ArmState? && (forall m :: p < m < q ==> !schedule[m].PauseState?) ==>
              !After(schedule, q).paused
    ensures schedule[p].ArmSignal? && (forall m :: p < m < q ==> !schedule[m].TakeTrigger?) ==>
              After(schedule, q).trigger
    decreases q
  {
    if q > p + 1 {
      ArmStands(schedule, p, q - 1);
    }
  }

  /** The hit an arm guarantees: as long as nobody pauses, the turn that takes the trigger goes on to
      delete, whether or not the gate is open. A turn of the timer does if and only if it is open. */
  lemma OnArmHitSkipsGate(schedule: seq<Step>, i: nat, gateOpen: bool)
    requires i + 2 <= |schedule| && schedule[i + 1] == Check(gateOpen)
    requires var s := After(schedule, i); s.position == Waiting && !s.paused && s.budget > 0
    ensures schedule[i] == TakeTrigger && After(schedule, i).trigger ==> After(schedule, i + 2).position == Acting(true)
    ensures schedule[i] == TimerFires ==>
              After(schedule, i + 2).position == if gateOpen then Acting(false) else Waiting
  {
    assert After(schedule, i + 1) == Next(After(schedule, i), schedule[i]);
  }

  class Disruptor {
    var paused: bool
    var budget: int
    var actions: nat
    var trigger: bool
    var position: Position

    function Snapshot(): State
      reads this
    {
      State(paused, budget, actions, trigger, position)
    }

    constructor ()
      ensures Snapshot() == INITIAL
    {
      paused, budget, actions, trigger, position := true, 0, 0, false, Waiting;
    }

    method Arm()
      modifies this
      ensures Snapshot() == Next(old(Snapshot()), ArmState)
    {
      paused := false;
      budget := MAX_ACTIONS_PER_OPERATION;
    }

    /** A send that does not block: the channel holds at most one trigger. */
    method SignalArm()
      modifies this
      ensures Snapshot() == Next(old(Snapshot()), ArmSignal)
    {
      if !trigger {
        trigger := true;
      }
    }

    method Pause()
      modifies this
      ensures Snapshot() == Next(old(Snapshot()), PauseState)
    {
      paused := true;
    }

    /** One turn of the select in `run`: the trigger, if there is one, or the timer. */
    method Select(fromTrigger: bool)
      modifies this
      ensures Snapshot() == Next(old(Snapshot()), if fromTrigger then TakeTrigger else TimerFires)
    {
      if position.Waiting? {
        if !fromTrigger {
          position := Entered(false);
        } else if trigger {
          trigger := false;
          position := Entered(true);
        }
      }
    }

    /** The first critical section of `act`, and the gate. */
    method CheckBudget(gateOpen: bool)
      modifies this
      ensures Snapshot() == Next(old(Snapshot()), Check(gateOpen))
    {
      if !position.Entered? {
        return;
      }
      var skip := paused || budget <= 0;
      if skip {
        position := Waiting;
        return;
      }
      if !position.ungated && !gateOpen {
        position := Waiting;
        return;
      }
      position := Acting(position.ungated);
    }

    /** The deletion and, if it succeeded, the second critical section of `act`. */
    method FinishAction(failed: bool)
      modifies this
      ensures Snapshot() == Next(old(Snapshot()), if failed then ActionFails else Commit)
    {
      if !position.Acting? {
        return;
      }
      if !failed {
        actions := actions + 1;
        budget := budget - 1;
      }
      position := Waiting;
    }

    method Take(step: Step)
      modifies this
      ensures Snapshot() == Next(old(Snapshot()), step)
    {
      match step
      case ArmState => Arm();
      case ArmSignal => SignalArm();
      case PauseState => Pause();
      case TakeTrigger => Select(true);
      case TimerFires => Select(false);
      case Check(gateOpen) => CheckBudget(gateOpen);
      case ActionFails => FinishAction(true);
      case Commit => FinishAction(false);
    }
  }

  /** Every schedule: `states[i]` is the disruptor after `i` steps. */
  method Play(schedule: seq<Step>) returns (states: seq<State>)
    ensures |states| == |schedule| + 1 && forall i :: 0 <= i <= |schedule| ==> states[i] == After(schedule, i)
    ensures forall i :: 0 <= i <= |schedule| ==>
              && states[i].budget >= 0
              && states[i].actions + states[i].budget <= MAX_ACTIONS_PER_OPERATION * Arms(schedule, i)
    ensures forall p, q :: 0 <= p < q <= |schedule| && schedule[p].ArmState? && NoArm(schedule, p + 1, q) ==>
              states[q].actions - states[p].actions + states[q].budget == MAX_ACTIONS_PER_OPERATION
    ensures forall p, q :: 0 <= p < q <= |schedule| && schedule[p].PauseState? && NoArm(schedule, p, q) ==>
              states[q].actions <= states[p].actions + if states[p].position.Acting? then 1 else 0
    ensures forall i :: 0 <= i <= |schedule| ==>
              && states[i].actions == Hits(schedule, i, true) + Hits(schedule, i, false)
              && Hits(schedule, i, true) <= Count(schedule, i, ArmSignal)
              && Hits(schedule, i, false) <= Count(schedule, i, Check(true))
  {
    var d := new Disruptor();
    states := [d.Snapshot()];
    for i := 0 to |schedule|
      invariant |states| == i + 1 && d.Snapshot() == After(schedule, i)
      invariant forall j :: 0 <= j <= i ==> states[j] == After(schedule, j)
    {
      d.Take(schedule[i]);
      states := states + [d.Snapshot()];
    }
    forall i | 0 <= i <= |schedule|
      ensures states[i].budget >= 0
      ensures states[i].actions + states[i].budget <= MAX_ACTIONS_PER_OPERATION * Arms(schedule, i)
    {
      BudgetHolds(schedule, i);
    }
    forall i | 0 <= i <= |schedule|
      ensures states[i].actions == Hits(schedule, i, true) + Hits(schedule, i, false)
      ensures Hits(schedule, i, true) <= Count(schedule, i, ArmSignal)
      ensures Hits(schedule, i, false) <= Count(schedule, i, Check(true))
    {
      HitsAreAccountedFor(schedule, i);
    }
    forall p, q | 0 <= p < q <= |schedule| && schedule[p].ArmState? && NoArm(schedule, p + 1, q)
      ensures states[q].actions - states[p].actions + states[q].budget == MAX_ACTIONS_PER_OPERATION
    {
      GrantIsSpentOrLeft(schedule, p, q);
    }
    forall p, q | 0 <= p < q <= |schedule| && schedule[p].PauseState? && NoArm(schedule, p, q)
      ensures states[q].actions <= states[p].actions + if states[p].position.Acting? then 1 else 0
    {
      PauseStopsAllButOne(schedule, p, q);
    }
  }
}
