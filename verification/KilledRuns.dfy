/** When a killed agent stays killed, and a reachable run in which it does not. */
module KilledRuns {
  import opened Wrappers
  import opened Identity
  import opened Records
  import opened Memory
  import opened Machine
  import opened StepFrames
  import opened Footprints
  import opened Lifetimes
  import opened RunLaws
  import opened FirstRuns

  // ----- Exactly when a kill is final -----

  /** A Start or Stop in flight has captured the object. */
  ghost predicate InHand(s: Sys, ref: nat) {
    exists k :: k in s.calls && (s.calls[k].InStart? || s.calls[k].InStop?) && s.calls[k].ref == ref
  }

  ghost predicate KilledAt(s: Sys, ref: nat) {
    ref < |s.mem.heap| && s.mem.heap[ref].state == Killed
  }

  predicate Begins(l: Label) {
    l.StartBegin? || l.StopBegin?
  }

  lemma KilledAcrossWrite(s: Sys, t: Sys, write: Option<(nat, Change)>, ref: nat)
    requires KilledAt(s, ref) && WriteFrame(s, t, write)
    requires write.Some? && write.value.0 == ref ==> write.value.1.ToKilled?
    ensures KilledAt(t, ref)
  {
  }

  lemma WritesOfUnheld(c: Config, s: Sys, l: Label, ref: nat)
    requires WellFormed(s.mem) && Enabled(c, s, l) && Writes(l) && !Begins(l) && !InHand(s, ref)
    ensures WriteOf(s, l).Some? && WriteOf(s, l).value.0 == ref ==> WriteOf(s, l).value.1.ToKilled?
  {
  }

  lemma NothingTakenInHand(c: Config, s: Sys, l: Label, ref: nat)
    requires WellFormed(s.mem) && Enabled(c, s, l) && !Begins(l) && !InHand(s, ref)
    ensures !InHand(Next(c, s, l), ref)
  {
  }

  /** With nothing in flight on it, and no new Start or Stop, no step takes the mark `killed` away. */
  lemma KilledStep(c: Config, s: Sys, l: Label, ref: nat)
    requires WellFormed(s.mem) && Enabled(c, s, l) && !Begins(l) && KilledAt(s, ref) && !InHand(s, ref)
    ensures KilledAt(Next(c, s, l), ref)
  {
    var t := Next(c, s, l);
    if Writes(l) {
      WriteStep(c, s, l);
      WritesOfUnheld(c, s, l, ref);
      KilledAcrossWrite(s, t, WriteOf(s, l), ref);
    } else {
      StepTouches(c, s, l, t);
    }
  }

  lemma {:induction false} KilledStays(c: Config, s: Sys, labels: seq<Label>, t: Sys, ref: nat)
    requires Runs(c, s, labels, t) && KilledAt(s, ref) && !InHand(s, ref)
    requires forall l :: l in labels ==> !Begins(l)
    ensures KilledAt(t, ref)
    decreases |labels|
  {
    if labels != [] {
      assert labels[0] in labels && forall l :: l in labels[1..] ==> l in labels;
      KilledStep(c, s, labels[0], ref);
      NothingTakenInHand(c, s, labels[0], ref);
      KilledStays(c, Next(c, s, labels[0]), labels[1..], t, ref);
    }
  }

  /** A call in flight that holds the object can write over the mark at once. */
  lemma HeldCallOverwrites(c: Config, s: Sys, k: nat) returns (l: Label, t: Sys)
    requires WellFormed(s.mem) && s.hold == Free && k in s.calls && (s.calls[k].InStart? || s.calls[k].InStop?)
    requires s.calls[k].ref < |s.mem.heap|
    ensures !Begins(l) && Step(c, s, l, t) && !KilledAt(t, s.calls[k].ref)
  {
    l := if s.calls[k].InStart? then StartEnd(k, true, 0) else StopEnd(k, true, 0);
    MemoryOfStep(c, s, l);
    t := Next(c, s, l);
  }

  /** Every continuation without a new Start or Stop leaves the object killed. */
  ghost predicate StaysKilled(c: Config, s: Sys, ref: nat) {
    forall labels, t :: Runs(c, s, labels, t) && (forall l :: l in labels ==> !Begins(l)) ==> KilledAt(t, ref)
  }

  /**
   * A killed agent stays killed, through every continuation in which no new Start or Stop begins, exactly when no Start
   * or Stop that has captured its object is in flight.
   */
  lemma KilledIsFinal(c: Config, s: Sys, ref: nat)
    requires WellFormed(s.mem) && s.hold == Free && KilledAt(s, ref)
    ensures StaysKilled(c, s, ref) <==> !InHand(s, ref)
  {
    if !InHand(s, ref) {
      forall labels, t | Runs(c, s, labels, t) && forall l :: l in labels ==> !Begins(l)
        ensures KilledAt(t, ref)
      {
        KilledStays(c, s, labels, t, ref);
      }
    } else {
      var k :| k in s.calls && (s.calls[k].InStart? || s.calls[k].InStop?) && s.calls[k].ref == ref;
      var l, t := HeldCallOverwrites(c, s, k);
      RunsOne(c, s, l, t);
      assert !KilledAt(t, ref);
    }
  }

  lemma KillWrites(c: Config, s: Sys, k: nat, now: Time)
    requires WellFormed(s.mem) && Enabled(c, s, KillEnd(k, now)) && s.calls[k].id in s.mem.agents
    ensures var t := Next(c, s, KillEnd(k, now));
      t.hold == Free && KilledAt(t, s.mem.agents[s.calls[k].id])
  {
    MemoryOfStep(c, s, KillEnd(k, now));
  }

  /** So it is right after the Kill write of any run. */
  lemma KillInRun(c: Config, states: seq<Sys>, labels: seq<Label>, i: nat)
    requires Behavior(c, states, labels) && i < |labels| && labels[i].KillEnd?
    requires labels[i].k in states[i].calls && states[i].calls[labels[i].k].InKill?
    requires states[i].calls[labels[i].k].id in states[i].mem.agents
    ensures var ref := states[i].mem.agents[states[i].calls[labels[i].k].id];
      StaysKilled(c, states[i + 1], ref) <==> !InHand(states[i + 1], ref)
  {
    CoreAlways(c, states, labels, i + 1);
    assert StepAt(c, states, labels, i);
    KillWrites(c, states[i], labels[i].k, labels[i].now);
    KilledIsFinal(c, states[i + 1], states[i].mem.agents[states[i].calls[labels[i].k].id]);
  }

  // ----- A reachable run in which it is not -----

  /** A state in which `id` is registered, idle, and nothing holds the manager lock. */
  ghost predicate IdleAgent(s: Sys, id: string, k: nat, n: nat) {
    && WellFormed(s.mem) && s.phase == Up && s.hold == Free && id in s.mem.agents
    && k != n && k !in s.calls && n !in s.calls
    && CanStart(s.mem.heap[s.mem.agents[id]].state)
  }

  ghost predicate StateIs(s: Sys, id: string, state: State) {
    WellFormed(s.mem) && id in s.mem.agents && s.mem.heap[s.mem.agents[id]].state == state
  }

  ghost predicate InFlight(s: Sys, id: string, k: nat) {
    && WellFormed(s.mem) && s.phase == Up && s.hold == Free && id in s.mem.agents
    && k in s.calls && s.calls[k] == InStart(s.mem.agents[id], id)
  }

  lemma StartTakesOff(c: Config, s: Sys, id: string, k: nat, n: nat)
    requires IdleAgent(s, id, k, n)
    ensures var l := StartBegin(k, id); Enabled(c, s, l) && InFlight(Next(c, s, l), id, k) && n !in Next(c, s, l).calls
  {
    MemoryOfStep(c, s, StartBegin(k, id));
  }

  lemma KillSignals(c: Config, s: Sys, id: string, k: nat, n: nat)
    requires InFlight(s, id, k) && n !in s.calls
    ensures var l := KillBegin(n, id, "", true);
      Enabled(c, s, l) && InFlight(Next(c, s, l), id, k) && n in Next(c, s, l).calls
        && Next(c, s, l).calls[n] == InKill(id, "")
  {
    MemoryOfStep(c, s, KillBegin(n, id, "", true));
  }

  lemma KillRecords(c: Config, s: Sys, id: string, k: nat, n: nat, now: Time)
    requires InFlight(s, id, k) && n in s.calls && s.calls[n] == InKill(id, "")
    ensures var l := KillEnd(n, now);
      Enabled(c, s, l) && InFlight(Next(c, s, l), id, k) && StateIs(Next(c, s, l), id, Killed)
  {
    MemoryOfStep(c, s, KillEnd(n, now));
  }

  lemma StartLands(c: Config, s: Sys, id: string, k: nat, now: Time)
    requires InFlight(s, id, k)
    ensures var l := StartEnd(k, true, now); Enabled(c, s, l) && StateIs(Next(c, s, l), id, Running)
  {
    MemoryOfStep(c, s, StartEnd(k, true, now));
  }

  /** From the initial state to a Start in flight. */
  lemma StartInFlightRun(c: Config, id: string) returns (states: seq<Sys>, labels: seq<Label>)
    requires ValidId(id)
    ensures Behavior(c, states, labels)
    ensures InFlight(states[|labels|], id, 0) && 1 !in states[|labels|].calls
  {
    var s0;
    s0, labels := UnsavedAgent(c, id);
    states := RunIsBehavior(c, labels, s0);
    StartTakesOff(c, s0, id, 0, 1);
    states, labels := Extended(c, states, labels, StartBegin(0, id), Next(c, s0, StartBegin(0, id)));
  }

  /** And on to the Kill write while it is in flight. */
  lemma KilledInFlightRun(c: Config, id: string, now: Time) returns (states: seq<Sys>, labels: seq<Label>)
    requires ValidId(id)
    ensures Behavior(c, states, labels) && labels != [] && labels[|labels| - 1].KillEnd?
    ensures InFlight(states[|labels|], id, 0) && StateIs(states[|labels|], id, Killed)
  {
    states, labels := StartInFlightRun(c, id);
    var s1 := states[|labels|];
    KillSignals(c, s1, id, 0, 1);
    var s2 := Next(c, s1, KillBegin(1, id, "", true));
    states, labels := Extended(c, states, labels, KillBegin(1, id, "", true), s2);
    KillRecords(c, s2, id, 0, 1, now);
    states, labels := Extended(c, states, labels, KillEnd(1, now), Next(c, s2, KillEnd(1, now)));
  }

  /**
   * For every configuration and valid id there is a run from the initial state in which a Kill lands during a Start and
   * the Start's own late write then makes the killed agent `running`.
   */
  lemma KilledIsNotFinal(c: Config, id: string, now: Time) returns (states: seq<Sys>, labels: seq<Label>)
    requires ValidId(id)
    ensures Behavior(c, states, labels) && |labels| >= 2
    ensures labels[|labels| - 2].KillEnd? && StateIs(states[|labels| - 1], id, Killed)
    ensures labels[|labels| - 1].StartEnd? && StateIs(states[|labels|], id, Running)
  {
    states, labels := KilledInFlightRun(c, id, now);
    var s3 := states[|labels|];
    StartLands(c, s3, id, 0, now);
    states, labels := Extended(c, states, labels, StartEnd(0, true, now), Next(c, s3, StartEnd(0, true, now)));
  }

  /** A behavior with one more step. */
  lemma Extended(c: Config, states: seq<Sys>, labels: seq<Label>, l: Label, t: Sys)
    returns (longer: seq<Sys>, more: seq<Label>)
    requires Behavior(c, states, labels) && Step(c, states[|labels|], l, t)
    ensures longer == states + [t] && more == labels + [l] && Behavior(c, longer, more)
  {
    longer, more := states + [t], labels + [l];
    forall i | 0 <= i < |more|
      ensures StepAt(c, longer, more, i)
    {
      if i < |labels| {
        assert StepAt(c, states, labels, i);
      }
    }
  }
}
