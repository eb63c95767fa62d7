/** Evaluation is linearizable: its answer is the decision of one instant, although it is computed outside the lock. */
module Evaluations {
  import opened Wrappers
  import opened Records
  import opened Memory
  import opened Machine
  import opened StepFrames
  import opened Footprints
  import opened MachineInvariants
  import opened Lifetimes
  import E = EngineState

  // ----- Records handed to the engine are not written -----

  /** The record in `cell` is still there and still the same. */
  ghost predicate RecordStays(m: Mem, n: Mem, cell: nat) {
    cell < |m.eng.cells| <= |n.eng.cells| && n.eng.cells[cell] == m.eng.cells[cell]
  }

  /** A step writes no record but that of a runtime agent. */
  lemma UnownedRecordStays(s: Sys, l: Label, t: Sys, cell: nat)
    requires Touched(s, t, l) && cell < |s.mem.eng.cells| && Unowned(s.mem, cell)
    ensures RecordStays(s.mem, t.mem, cell)
  {
  }

  // ----- One evaluation -----

  predicate Evaluates(call: Call) {
    call.InEvaluate? || call.Answering?
  }

  /** Only its own steps and a crash touch an evaluation in flight. */
  lemma OthersLeaveEvaluations(c: Config, s: Sys, l: Label, k: nat)
    requires WellFormed(s.mem) && Enabled(c, s, l) && k in s.calls && Evaluates(s.calls[k])
    requires !l.Crash? && l != EvalEnd(k) && l != EvalAnswer(k)
    ensures k in Next(c, s, l).calls && Next(c, s, l).calls[k] == s.calls[k]
  {
  }

  /** The evaluation has, or is bound to get, the answer that engine state `e` gives. */
  ghost predicate BoundTo(s: Sys, k: nat, action: AgentAction, e: E.State)
    requires E.WellFormed(e)
  {
    && k in s.calls
    && match s.calls[k]
       case InEvaluate(a, cell, query, profile) =>
         && a == action && E.LookUp(e, action) == E.Ready(cell, query, profile)
         && cell < |e.cells| && cell < |s.mem.eng.cells| && s.mem.eng.cells[cell] == e.cells[cell]
       case Answering(a, answer) => a == action && answer == E.DecideAt(e.queries, E.RecordsOf(e), action)
       case _ => false
  }

  lemma LookUpThenInterpret(e: E.State, action: AgentAction)
    requires E.WellFormed(e)
    ensures match E.LookUp(e, action)
            case Answered(decision) => E.DecideAt(e.queries, E.RecordsOf(e), action) == Ok(decision)
            case Ready(cell, query, profile) =>
              && cell < |e.cells|
              && E.DecideAt(e.queries, E.RecordsOf(e), action)
                 == E.Interpret(query(OPAInput(action, e.cells[cell])), profile)
  {
  }

  lemma BoundAtBegin(c: Config, s: Sys, k: nat, action: AgentAction)
    requires WellFormed(s.mem) && Enabled(c, s, EvalBegin(k, action))
    ensures BoundTo(Next(c, s, EvalBegin(k, action)), k, action, s.mem.eng)
  {
    LookUpThenInterpret(s.mem.eng, action);
    MemoryOfStep(c, s, EvalBegin(k, action));
  }

  lemma BoundAtEnd(c: Config, s: Sys, k: nat, action: AgentAction, e: E.State)
    requires WellFormed(s.mem) && Enabled(c, s, EvalEnd(k)) && E.WellFormed(e) && BoundTo(s, k, action, e)
    ensures BoundTo(Next(c, s, EvalEnd(k)), k, action, e)
  {
    LookUpThenInterpret(e, action);
    MemoryOfStep(c, s, EvalEnd(k));
  }

  lemma BoundKept(c: Config, s: Sys, l: Label, k: nat, action: AgentAction, e: E.State)
    requires Shape(c, s) && Enabled(c, s, l) && E.WellFormed(e) && BoundTo(s, k, action, e)
    requires !l.Crash? && l != EvalAnswer(k)
    ensures BoundTo(Next(c, s, l), k, action, e)
  {
    if l == EvalEnd(k) {
      BoundAtEnd(c, s, k, action, e);
    } else {
      OthersLeaveEvaluations(c, s, l, k);
      assert CallOk(s.mem, s.hist.born, s.calls[k]);
      if s.calls[k].InEvaluate? {
        StepTouches(c, s, l, Next(c, s, l));
        UnownedRecordStays(s, l, Next(c, s, l), s.calls[k].cell);
      }
    }
  }

  lemma BoundInRun(c: Config, states: seq<Sys>, labels: seq<Label>, n: nat, k: nat, action: AgentAction, e: E.State)
    requires Behavior(c, states, labels) && n < |labels| && E.WellFormed(e) && BoundTo(states[n], k, action, e)
    requires !labels[n].Crash? && labels[n] != EvalAnswer(k)
    ensures BoundTo(states[n + 1], k, action, e)
  {
    CoreAlways(c, states, labels, n);
    assert StepAt(c, states, labels, n);
    BoundKept(c, states[n], labels[n], k, action, e);
  }

  lemma BoundAfterBegin(c: Config, states: seq<Sys>, labels: seq<Label>, i: nat, k: nat, action: AgentAction)
    requires Behavior(c, states, labels) && i < |labels| && labels[i] == EvalBegin(k, action)
    ensures WellFormed(states[i].mem) && BoundTo(states[i + 1], k, action, states[i].mem.eng)
  {
    assert StepAt(c, states, labels, i);
    BoundAtBegin(c, states[i], k, action);
  }

  lemma {:induction false} BoundMeanwhile(c: Config, states: seq<Sys>, labels: seq<Label>,
                                          i: nat, j: nat, k: nat, action: AgentAction)
    requires Behavior(c, states, labels) && i < j <= |labels| && labels[i] == EvalBegin(k, action)
    requires forall n :: i < n < j ==> !labels[n].Crash? && labels[n] != EvalAnswer(k)
    ensures WellFormed(states[i].mem) && BoundTo(states[j], k, action, states[i].mem.eng)
    decreases j
  {
    BoundAfterBegin(c, states, labels, i, k, action);
    if i + 1 < j {
      BoundMeanwhile(c, states, labels, i, j - 1, k, action);
      BoundInRun(c, states, labels, j - 1, k, action, states[i].mem.eng);
    }
  }

  /**
   * Whatever reloads, registrations, removals and writes to agents come between its locked lookup and its return, an
   * evaluation returns the decision that the queries and records of the one instant of the lookup give, and that
   * decision is logged.
   */
  lemma EvaluationIsLinearizable(c: Config, states: seq<Sys>, labels: seq<Label>, i: nat, j: nat, k: nat,
                                 action: AgentAction)
    requires Behavior(c, states, labels) && i < j < |labels|
    requires labels[i] == EvalBegin(k, action) && labels[j] == EvalAnswer(k)
    requires forall n :: i < n < j ==> !labels[n].Crash? && labels[n] != EvalAnswer(k)
    ensures WellFormed(states[i].mem)
    ensures var answer := E.DecideAt(states[i].mem.eng.queries, E.RecordsOf(states[i].mem.eng), action);
      && k in states[j].calls && states[j].calls[k] == Answering(action, answer)
      && states[j + 1].mem.log == states[j].mem.log + (if answer.Ok? then [ActionEvent(action, answer.value)] else [])
  {
    BoundMeanwhile(c, states, labels, i, j, k, action);
    AnswerIsLogged(c, states, labels, j, k);
  }

  lemma AnswerIsLogged(c: Config, states: seq<Sys>, labels: seq<Label>, j: nat, k: nat)
    requires Behavior(c, states, labels) && j < |labels| && labels[j] == EvalAnswer(k)
    ensures k in states[j].calls && states[j].calls[k].Answering?
    ensures var call := states[j].calls[k];
      states[j + 1].mem.log
        == states[j].mem.log + (if call.answer.Ok? then [ActionEvent(call.action, call.answer.value)] else [])
  {
    assert StepAt(c, states, labels, j);
    MemoryOfStep(c, states[j], labels[j]);
  }
}
