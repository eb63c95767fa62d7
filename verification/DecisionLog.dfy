/** The audit log over whole runs: it only grows, and every decision in it was the decision of one earlier instant. */
module DecisionLog {
  import opened Wrappers
  import opened Records
  import opened Memory
  import opened Machine
  import opened StepFrames
  import opened Footprints
  import opened Lifetimes
  import opened Evaluations
  import E = EngineState

  /** The audit log is append-only over every run, restarts included. */
  lemma {:induction false} LogOnlyGrows(c: Config, states: seq<Sys>, labels: seq<Label>, i: nat, j: nat)
    requires Behavior(c, states, labels) && i <= j < |states|
    ensures states[i].mem.log <= states[j].mem.log
    decreases j
  {
    if i < j {
      LogOnlyGrows(c, states, labels, i, j - 1);
      RunTouches(c, states, labels, j - 1);
    }
  }

  // ----- Every decision in the log -----

  predicate AboutPolicy(event: Event) {
    event.kind == PolicyAllow || event.kind == PolicyDeny
  }

  /** The decision taken at once on the queries and records of `m`. */
  ghost function DecisionOf(m: Mem, action: AgentAction): Result<PolicyDecision, E.EvalError>
    requires WellFormed(m)
  {
    E.DecideAt(m.eng.queries, E.RecordsOf(m.eng), action)
  }

  /** The event reports a decision that the state `m` gives. */
  ghost predicate DecidedIn(m: Mem, event: Event) {
    WellFormed(m) && exists action: AgentAction ::
      DecisionOf(m, action).Ok? && event == ActionEvent(action, DecisionOf(m, action).value)
  }

  /** The evaluation of call `k` is bound to the engine of `m`. */
  ghost predicate BoundIn(m: Mem, s: Sys, k: nat) {
    WellFormed(m) && k in s.calls && Evaluates(s.calls[k]) && BoundTo(s, k, s.calls[k].action, m.eng)
  }

  /** Every evaluation in flight and every logged decision belongs to one of the states up to `j`. */
  ghost predicate Traced(states: seq<Sys>, j: nat)
    requires j < |states|
  {
    var s := states[j];
    && (forall k :: k in s.calls && Evaluates(s.calls[k]) ==> exists n :: 0 <= n <= j && BoundIn(states[n].mem, s, k))
    && (forall k :: k in s.calls && s.calls[k].Announcing? ==> !AboutPolicy(s.calls[k].event))
    && (forall i :: 0 <= i < |s.mem.log| && AboutPolicy(s.mem.log[i]) ==>
          exists n :: 0 <= n <= j && DecidedIn(states[n].mem, s.mem.log[i]))
  }

  lemma EvaluationsOfStep(c: Config, s: Sys, l: Label, k: nat)
    requires WellFormed(s.mem) && Enabled(c, s, l) && k in Next(c, s, l).calls
    ensures var call := Next(c, s, l).calls[k];
      && (Evaluates(call) ==>
            || l == EvalBegin(k, call.action)
            || (!l.Crash? && l != EvalAnswer(k) && k in s.calls && Evaluates(s.calls[k])
               && s.calls[k].action == call.action))
      && (call.Announcing? ==> (k in s.calls && call == s.calls[k]) || !AboutPolicy(call.event))
  {
  }

  lemma EvaluationsTraced(c: Config, states: seq<Sys>, labels: seq<Label>, j: nat, k: nat)
    requires Behavior(c, states, labels) && j < |labels| && Traced(states, j)
    requires k in states[j + 1].calls && Evaluates(states[j + 1].calls[k])
    ensures exists n :: 0 <= n <= j + 1 && BoundIn(states[n].mem, states[j + 1], k)
  {
    var s, l, t := states[j], labels[j], states[j + 1];
    CoreAlways(c, states, labels, j);
    assert StepAt(c, states, labels, j);
    EvaluationsOfStep(c, s, l, k);
    if l == EvalBegin(k, t.calls[k].action) {
      BoundAtBegin(c, s, k, t.calls[k].action);
      assert BoundIn(states[j].mem, t, k);
    } else {
      var n :| 0 <= n <= j && BoundIn(states[n].mem, s, k);
      BoundKept(c, s, l, k, s.calls[k].action, states[n].mem.eng);
      assert BoundIn(states[n].mem, t, k);
    }
  }

  lemma AnnouncementsTraced(c: Config, states: seq<Sys>, labels: seq<Label>, j: nat, k: nat)
    requires Behavior(c, states, labels) && j < |labels| && Traced(states, j)
    requires k in states[j + 1].calls && states[j + 1].calls[k].Announcing?
    ensures !AboutPolicy(states[j + 1].calls[k].event)
  {
    assert StepAt(c, states, labels, j);
    EvaluationsOfStep(c, states[j], labels[j], k);
  }

  /** What a step appends about policy is the answer of an evaluation. */
  lemma PolicyEventOfStep(c: Config, s: Sys, l: Label)
    requires WellFormed(s.mem) && Enabled(c, s, l)
    requires forall k :: k in s.calls && s.calls[k].Announcing? ==> !AboutPolicy(s.calls[k].event)
    ensures var t := Next(c, s, l);
      || t.mem.log == s.mem.log
      || (exists event :: t.mem.log == s.mem.log + [event] && !AboutPolicy(event))
      || (l.EvalAnswer? && s.calls[l.k].answer.Ok?
          && t.mem.log == s.mem.log + [ActionEvent(s.calls[l.k].action, s.calls[l.k].answer.value)])
  {
    if Quiet(l) {
      QuietStep(c, s, l);
      QuietEvents(c, s, l);
    } else {
      StepTouches(c, s, l, Next(c, s, l));
    }
  }

  lemma QuietEvents(c: Config, s: Sys, l: Label)
    requires WellFormed(s.mem) && Enabled(c, s, l) && Quiet(l)
    requires forall k :: k in s.calls && s.calls[k].Announcing? ==> !AboutPolicy(s.calls[k].event)
    ensures Appended(c, s, l).Some? ==> l.EvalAnswer? || !AboutPolicy(Appended(c, s, l).value)
  {
  }

  lemma LogTraced(c: Config, states: seq<Sys>, labels: seq<Label>, j: nat, i: nat)
    requires Behavior(c, states, labels) && j < |labels| && Traced(states, j)
    requires i < |states[j + 1].mem.log| && AboutPolicy(states[j + 1].mem.log[i])
    ensures exists n :: 0 <= n <= j + 1 && DecidedIn(states[n].mem, states[j + 1].mem.log[i])
  {
    var s, l, t := states[j], labels[j], states[j + 1];
    assert StepAt(c, states, labels, j);
    PolicyEventOfStep(c, s, l);
    if i < |s.mem.log| {
      assert t.mem.log[i] == s.mem.log[i];
    } else {
      AnswerTraced(states, j, l.k);
    }
  }

  /** The answer of an evaluation is a decision of the state it is bound to. */
  lemma AnswerTraced(states: seq<Sys>, j: nat, k: nat)
    requires j < |states| && Traced(states, j)
    requires k in states[j].calls && states[j].calls[k].Answering? && states[j].calls[k].answer.Ok?
    ensures var event := ActionEvent(states[j].calls[k].action, states[j].calls[k].answer.value);
      exists n :: 0 <= n <= j && DecidedIn(states[n].mem, event)
  {
    var n :| 0 <= n <= j && BoundIn(states[n].mem, states[j], k);
    assert DecisionOf(states[n].mem, states[j].calls[k].action) == states[j].calls[k].answer;
    assert DecidedIn(states[n].mem, ActionEvent(states[j].calls[k].action, states[j].calls[k].answer.value));
  }

  lemma TracedInRun(c: Config, states: seq<Sys>, labels: seq<Label>, j: nat)
    requires Behavior(c, states, labels) && j < |labels| && Traced(states, j)
    ensures Traced(states, j + 1)
  {
    var t := states[j + 1];
    forall k | k in t.calls && Evaluates(t.calls[k])
      ensures exists n :: 0 <= n <= j + 1 && BoundIn(states[n].mem, t, k)
    {
      EvaluationsTraced(c, states, labels, j, k);
    }
    forall k | k in t.calls && t.calls[k].Announcing?
      ensures !AboutPolicy(t.calls[k].event)
    {
      AnnouncementsTraced(c, states, labels, j, k);
    }
    forall i | 0 <= i < |t.mem.log| && AboutPolicy(t.mem.log[i])
      ensures exists n :: 0 <= n <= j + 1 && DecidedIn(states[n].mem, t.mem.log[i])
    {
      LogTraced(c, states, labels, j, i);
    }
  }

  lemma {:induction false} TracedAlways(c: Config, states: seq<Sys>, labels: seq<Label>, j: nat)
    requires Behavior(c, states, labels) && j < |states|
    ensures Traced(states, j)
    decreases j
  {
    if j > 0 {
      TracedAlways(c, states, labels, j - 1);
      TracedInRun(c, states, labels, j - 1);
    }
  }

  /**
   * Whatever policies are loaded: every allow and every deny ever logged is what the queries and records of one
   * earlier state of the run decide for an action with the logged agent, type and resource.
   */
  lemma EveryDecisionHasAnInstant(c: Config, states: seq<Sys>, labels: seq<Label>, j: nat, i: nat)
    requires Behavior(c, states, labels) && j < |states| && i < |states[j].mem.log|
    requires AboutPolicy(states[j].mem.log[i])
    ensures exists n :: 0 <= n <= j && DecidedIn(states[n].mem, states[j].mem.log[i])
  {
    TracedAlways(c, states, labels, j);
  }
}
