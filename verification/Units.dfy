/**
 * Calls made one after another, with their effect on systemd units (daemon/internal/agent/sandbox.go). A unit is known
 * by its name; what systemd does with a job is an outcome chosen by the environment.
 */
module Units {
  import opened Identity
  import opened Records
  import M = Machine

  // ----- Units -----

  /** What became of a request to systemd: turned down, or a job that ended, with the unit active or not afterwards. */
  datatype Outcome = Refused | Finished(done: bool, active: bool)

  function SetActive(units: set<string>, unit: string, active: bool): set<string> {
    if active then units + {unit} else units - {unit}
  }

  /** A transient unit is refused while one of that name is active; otherwise only a job that is `done` is a success. */
  function StartAgent(units: set<string>, id: string, outcome: Outcome): (set<string>, bool) {
    var unit := SystemdUnitName(id);
    if unit in units || outcome.Refused? then (units, false)
    else (SetActive(units, unit, outcome.active), outcome.done)
  }

  /** The result of the stop job is not looked at. */
  function StopAgent(units: set<string>, id: string, outcome: Outcome): (set<string>, bool) {
    var unit := SystemdUnitName(id);
    if outcome.Refused? then (units, false) else (if outcome.active then units else units - {unit}, true)
  }

  function KillAgent(units: set<string>, id: string, outcome: Outcome): (set<string>, bool) {
    StopAgent(units, id, outcome)
  }

  // ----- Whole calls -----

  /** Registered agents with their recorded state, and the names of the active units. */
  datatype World = World(agents: map<string, State>, units: set<string>)

  datatype Op =
    | Register(id: string, admitted: bool)      // admitted: there is room and the workspace was provisioned
    | Unregister(id: string)
    | Start(id: string, outcome: Outcome)
    | Stop(id: string, outcome: Outcome)
    | Kill(id: string, outcome: Outcome)
    | Exit(unit: string)                        // a process ends on its own

  function Do(w: World, op: Op): World {
    match op
    case Register(id, admitted) =>
      if ValidId(id) && id !in w.agents && admitted then w.(agents := w.agents[id := Registered]) else w
    case Unregister(id) =>
      if id in w.agents && M.CanUnregister(w.agents[id]) then w.(agents := w.agents - {id}) else w
    case Start(id, outcome) =>
      if id !in w.agents || !M.CanStart(w.agents[id]) then w
      else
        var (units, ok) := StartAgent(w.units, id, outcome);
        World(w.agents[id := if ok then Running else Failed], units)
    case Stop(id, outcome) =>
      if id !in w.agents then w
      else
        var (units, ok) := StopAgent(w.units, id, outcome);
        World(w.agents[id := if ok then Stopped else Stopping], units)
    case Kill(id, outcome) =>
      var (units, ok) := KillAgent(w.units, id, outcome);
      World(if ok && id in w.agents then w.agents[id := Killed] else w.agents, units)
    case Exit(unit) => w.(units := w.units - {unit})
  }

  // ----- Safety -----

  /** Every active unit is that of a registered agent recorded as running. */
  ghost predicate Safe(w: World) {
    forall unit :: unit in w.units
      ==> exists id :: id in w.agents && w.agents[id] == Running && SystemdUnitName(id) == unit
  }

  predicate Active(w: World, id: string) {
    SystemdUnitName(id) in w.units
  }

  /** What systemd must not do: fail a start yet leave the unit up, or have a stop or kill leave an active unit up. */
  predicate Harmful(w: World, op: Op) {
    match op
    case Start(id, outcome) =>
      id in w.agents && M.CanStart(w.agents[id]) && outcome.Finished? && !outcome.done && outcome.active
    case Stop(id, outcome) => id in w.agents && Active(w, id) && (outcome.Refused? || outcome.active)
    case Kill(id, outcome) => Active(w, id) && outcome.Finished? && outcome.active
    case _ => false
  }

  /** In a safe world an active unit's id is registered and running. */
  lemma ActiveIsRunning(w: World, id: string)
    requires Safe(w) && Active(w, id)
    ensures id in w.agents && w.agents[id] == Running
  {
    var owner :| owner in w.agents && w.agents[owner] == Running && SystemdUnitName(owner) == SystemdUnitName(id);
    UnitNameInjective(owner, id);
  }

  /** Changing one agent and its own unit keeps the others safe. */
  lemma SafeAfter(w: World, v: World, id: string)
    requires Safe(w)
    requires forall unit :: unit in v.units && unit != SystemdUnitName(id) ==> unit in w.units
    requires forall other :: other in w.agents && other != id ==>
      other in v.agents && v.agents[other] == w.agents[other]
    requires Active(v, id) ==> id in v.agents && v.agents[id] == Running
    ensures Safe(v)
  {
    forall unit | unit in v.units
      ensures exists other :: other in v.agents && v.agents[other] == Running && SystemdUnitName(other) == unit
    {
      if unit != SystemdUnitName(id) {
        var other :| other in w.agents && w.agents[other] == Running && SystemdUnitName(other) == unit;
        assert other in v.agents && v.agents[other] == Running;
      }
    }
  }

  /** Which agent a call is about; for an exit, whichever owns the unit. */
  lemma ExitIsSafe(w: World, unit: string)
    requires Safe(w)
    ensures Safe(Do(w, Exit(unit)))
  {
    var v := Do(w, Exit(unit));
    forall u | u in v.units
      ensures exists id :: id in v.agents && v.agents[id] == Running && SystemdUnitName(id) == u
    {
      assert u in w.units;
    }
  }

  lemma HarmlessIsSafe(w: World, op: Op)
    requires Safe(w) && !Harmful(w, op)
    ensures Safe(Do(w, op))
  {
    if op.Exit? {
      ExitIsSafe(w, op.unit);
    } else {
      if Active(w, op.id) {
        ActiveIsRunning(w, op.id);
      }
      SafeAfter(w, Do(w, op), op.id);
    }
  }

  lemma HarmfulIsUnsafe(w: World, op: Op)
    requires Safe(w) && Harmful(w, op)
    ensures !Safe(Do(w, op))
  {
    var v := Do(w, op);
    if Active(w, op.id) {
      ActiveIsRunning(w, op.id);
    }
    assert Active(v, op.id) && v.agents[op.id] != Running;
    if Safe(v) {
      ActiveIsRunning(v, op.id);
    }
  }

  // ----- Runs -----

  ghost function After(w: World, ops: seq<Op>): World
    decreases |ops|
  {
    if ops == [] then w else Do(After(w, ops[..|ops| - 1]), ops[|ops| - 1])
  }

  lemma AfterOneMore(w: World, ops: seq<Op>, i: nat)
    requires i < |ops|
    ensures After(w, ops[..i + 1]) == Do(After(w, ops[..i]), ops[i])
  {
    assert ops[..i + 1][..i] == ops[..i];
  }

  lemma {:induction false} SafeUpTo(w: World, ops: seq<Op>, i: nat)
    requires Safe(w) && i <= |ops|
    requires forall j :: 0 <= j < i ==> !Harmful(After(w, ops[..j]), ops[j])
    ensures Safe(After(w, ops[..i]))
    decreases i
  {
    if i > 0 {
      SafeUpTo(w, ops, i - 1);
      AfterOneMore(w, ops, i - 1);
      HarmlessIsSafe(After(w, ops[..i - 1]), ops[i - 1]);
    }
  }

  /** A lifetime that starts with no unit active starts safe, whatever agents were restored. */
  lemma NoUnitsIsSafe(w: World)
    requires w.units == {}
    ensures Safe(w)
  {
  }

  /** From any safe world on, every state is safe exactly when no outcome is harmful. */
  lemma UnitSafety(w: World, ops: seq<Op>)
    requires Safe(w)
    ensures (forall i :: 0 <= i <= |ops| ==> Safe(After(w, ops[..i])))
       <==> (forall i :: 0 <= i < |ops| ==> !Harmful(After(w, ops[..i]), ops[i]))
  {
    if forall i :: 0 <= i < |ops| ==> !Harmful(After(w, ops[..i]), ops[i]) {
      forall i | 0 <= i <= |ops| ensures Safe(After(w, ops[..i])) {
        SafeUpTo(w, ops, i);
      }
    }
    if i :| 0 <= i < |ops| && Harmful(After(w, ops[..i]), ops[i]) {
      if Safe(After(w, ops[..i])) {
        HarmfulIsUnsafe(After(w, ops[..i]), ops[i]);
        AfterOneMore(w, ops, i);
        assert !Safe(After(w, ops[..i + 1]));
      }
    }
  }

  /** In a safe world, Unregister never removes an agent whose unit is active. */
  lemma UnregisterLeavesNoUnit(w: World, id: string)
    requires Safe(w) && id in w.agents && id !in Do(w, Unregister(id)).agents
    ensures !Active(w, id)
  {
    if Active(w, id) {
      ActiveIsRunning(w, id);
    }
  }

  // ----- Recorded as running -----

  predicate RecordedRunning(w: World, id: string) {
    id in w.agents && w.agents[id] == Running
  }

  /** A start of `id` that is a success: the agent can be started and has no active unit, and the job is done. */
  predicate Succeeds(w: World, op: Op, id: string) {
    && op.Start? && op.id == id && id in w.agents && w.agents[id] in {Registered, Stopping, Stopped, Killed, Failed}
    && !Active(w, id) && op.outcome.Finished? && op.outcome.done
  }

  /** What ends it: any Stop, and a Kill whose request is taken. */
  predicate Ends(op: Op, id: string) {
    (op.Stop? && op.id == id) || (op.Kill? && op.id == id && op.outcome.Finished?)
  }

  lemma RunningAfterOne(w: World, op: Op, id: string)
    ensures RecordedRunning(Do(w, op), id) <==> Succeeds(w, op, id) || (RecordedRunning(w, id) && !Ends(op, id))
  {
  }

  /** The call at `i` is a success that no later one ended. */
  ghost predicate LastsFrom(w: World, ops: seq<Op>, i: nat, id: string)
    requires i < |ops|
  {
    Succeeds(After(w, ops[..i]), ops[i], id) && forall j :: i < j < |ops| ==> !Ends(ops[j], id)
  }

  ghost predicate Started(w: World, ops: seq<Op>, id: string) {
    exists i :: 0 <= i < |ops| && LastsFrom(w, ops, i, id)
  }

  lemma LastsOneMore(w: World, ops: seq<Op>, op: Op, i: nat, id: string)
    requires i < |ops|
    ensures LastsFrom(w, ops + [op], i, id) <==> LastsFrom(w, ops, i, id) && !Ends(op, id)
  {
    var all := ops + [op];
    assert all[..i] == ops[..i] && all[|ops|] == op;
    assert forall j :: i < j < |ops| ==> all[j] == ops[j];
  }

  lemma StartedOneMore(w: World, ops: seq<Op>, op: Op, id: string)
    ensures Started(w, ops + [op], id) <==> Succeeds(After(w, ops), op, id) || (Started(w, ops, id) && !Ends(op, id))
  {
    var n := |ops|;
    assert (ops + [op])[..n] == ops;
    assert LastsFrom(w, ops + [op], n, id) <==> Succeeds(After(w, ops), op, id);
    forall i | 0 <= i < n
      ensures LastsFrom(w, ops + [op], i, id) <==> LastsFrom(w, ops, i, id) && !Ends(op, id)
    {
      LastsOneMore(w, ops, op, i, id);
    }
  }

  /**
   * An agent not running at first is recorded as running exactly when a start of it succeeded and neither a Stop nor a
   * Kill came after; a job with another result, or an active unit of that name, never makes it so.
   */
  lemma {:induction false} RunningMeansStarted(w: World, ops: seq<Op>, id: string)
    requires !RecordedRunning(w, id)
    ensures RecordedRunning(After(w, ops), id) <==> Started(w, ops, id)
    decreases |ops|
  {
    if ops != [] {
      var n := |ops| - 1;
      RunningMeansStarted(w, ops[..n], id);
      RunningAfterOne(After(w, ops[..n]), ops[n], id);
      StartedOneMore(w, ops[..n], ops[n], id);
      assert ops == ops[..n] + [ops[n]];
    }
  }

  // ----- Restart -----

  /** Units live on; of the agents only those restored from the registry come back, and no recorded state does. */
  function Restart(units: set<string>, restored: set<string>): World {
    World(map id | id in restored :: Registered, units)
  }

  /** Every active unit is that of some registered agent. */
  ghost predicate Owned(w: World) {
    forall unit :: unit in w.units ==> exists id :: id in w.agents && SystemdUnitName(id) == unit
  }

  /** Over a restart, safety survives exactly when no unit is active. */
  lemma SafeAfterRestart(units: set<string>, restored: set<string>)
    ensures Safe(Restart(units, restored)) <==> units == {}
  {
    if unit :| unit in units {
      assert forall id :: id in Restart(units, restored).agents ==> Restart(units, restored).agents[id] != Running;
    }
  }

  /**
   * Over a restart from a safe world, every unit keeps an owner exactly when every agent with an active unit is
   * restored.
   */
  lemma OwnedAfterRestart(w: World, restored: set<string>)
    requires Safe(w)
    ensures Owned(Restart(w.units, restored)) <==> forall id :: id in w.agents && Active(w, id) ==> id in restored
  {
    var v := Restart(w.units, restored);
    if Owned(v) {
      forall id | id in w.agents && Active(w, id) ensures id in restored {
        var owner :| owner in v.agents && SystemdUnitName(owner) == SystemdUnitName(id);
        UnitNameInjective(owner, id);
      }
    }
    if forall id :: id in w.agents && Active(w, id) ==> id in restored {
      forall unit | unit in w.units
        ensures exists id :: id in v.agents && SystemdUnitName(id) == unit
      {
        var id :| id in w.agents && w.agents[id] == Running && SystemdUnitName(id) == unit;
        assert id in v.agents;
      }
    }
  }

  /**
   * After a restart an agent can be unregistered whatever its unit does: it orphans the unit exactly when it is active.
   */
  lemma UnregisterAfterRestart(units: set<string>, restored: set<string>, id: string)
    requires id in restored
    ensures id !in Do(Restart(units, restored), Unregister(id)).agents
    ensures Owned(Do(Restart(units, restored), Unregister(id)))
       <==> Owned(Restart(units, restored)) && SystemdUnitName(id) !in units
  {
    var w := Restart(units, restored);
    var v := Do(w, Unregister(id));
    if Owned(v) && SystemdUnitName(id) in units {
      var owner :| owner in v.agents && SystemdUnitName(owner) == SystemdUnitName(id);
      UnitNameInjective(owner, id);
    }
    if Owned(v) {
      assert forall other :: other in v.agents ==> other in w.agents;
    }
    if Owned(w) && SystemdUnitName(id) !in units {
      forall unit | unit in v.units
        ensures exists other :: other in v.agents && SystemdUnitName(other) == unit
      {
        var other :| other in w.agents && SystemdUnitName(other) == unit;
        assert other in v.agents;
      }
    }
  }

  /** Stopping every agent that a restart left with a unit makes the world safe again. */
  lemma {:induction false} StopsRecover(w: World, ids: seq<string>)
    requires forall unit :: unit in w.units ==> exists i :: 0 <= i < |ids| && SystemdUnitName(ids[i]) == unit
    requires forall i :: 0 <= i < |ids| ==> ids[i] in w.agents
    ensures After(w, seq(|ids|, i requires 0 <= i < |ids| => Stop(ids[i], Finished(true, false)))).units == {}
    ensures Safe(After(w, seq(|ids|, i requires 0 <= i < |ids| => Stop(ids[i], Finished(true, false)))))
  {
    var ops := seq(|ids|, i requires 0 <= i < |ids| => Stop(ids[i], Finished(true, false)));
    StopsEmpty(w, ids, ops);
    var left := After(w, ops).units;
    forall unit | unit in w.units
      ensures unit !in left
    {
      var i :| 0 <= i < |ids| && SystemdUnitName(ids[i]) == unit;
    }
  }

  lemma {:induction false} StopsEmpty(w: World, ids: seq<string>, ops: seq<Op>)
    requires |ops| == |ids| && forall i :: 0 <= i < |ids| ==>
      ids[i] in w.agents && ops[i] == Stop(ids[i], Finished(true, false))
    ensures var v := After(w, ops);
      && w.agents.Keys == v.agents.Keys && v.units <= w.units
      && forall i :: 0 <= i < |ids| ==> SystemdUnitName(ids[i]) !in v.units
    decreases |ids|
  {
    if ids != [] {
      var n := |ids| - 1;
      StopsEmpty(w, ids[..n], ops[..n]);
      assert forall i :: 0 <= i < n ==> SystemdUnitName(ids[..n][i]) == SystemdUnitName(ids[i]);
    }
  }
}
