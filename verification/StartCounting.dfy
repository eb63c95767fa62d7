/** How many Starts can be in flight on one agent object. */
module StartCounting {
  import opened Wrappers
  import opened Records
  import opened Memory
  import opened Machine
  import opened StepFrames
  import opened Footprints
  import opened Lifetimes

  /** The Start calls that have captured object `ref` and not yet written their result. */
  function StartsOn(calls: map<nat, Call>, ref: nat): set<nat> {
    set k | k in calls && calls[k].InStart? && calls[k].ref == ref
  }

  function Mark(s: Sys, ref: nat): nat
    requires ref < |s.mem.heap|
  {
    if s.mem.heap[ref].state == Starting then 1 else 0
  }

  /**
   * The exact balance of one object: Starts in flight, plus Start results that were written over another state, are
   * the mark `starting` plus the Stop and Kill writes that took that mark away.
   */
  ghost predicate Balanced(s: Sys, ref: nat)
    requires ref < |s.mem.heap|
  {
    |StartsOn(s.calls, ref)| + Count(s.hist.late, ref) == Mark(s, ref) + Count(s.hist.overtaken, ref)
  }

  ghost predicate StartsOk(s: Sys) {
    && (forall ref :: ref in s.hist.late || ref in s.hist.overtaken ==> ref < |s.mem.heap|)
    && (forall ref :: s.hist.born <= ref < |s.mem.heap| ==> Balanced(s, ref))
  }

  lemma StartsOnAdd(calls: map<nat, Call>, k: nat, call: Call, ref: nat)
    requires k !in calls
    ensures |StartsOn(calls[k := call], ref)|
      == |StartsOn(calls, ref)| + if call.InStart? && call.ref == ref then 1 else 0
  {
    if call.InStart? && call.ref == ref {
      assert StartsOn(calls[k := call], ref) == StartsOn(calls, ref) + {k};
    } else {
      assert StartsOn(calls[k := call], ref) == StartsOn(calls, ref);
    }
  }

  lemma StartsOnRemove(calls: map<nat, Call>, k: nat, ref: nat)
    requires k in calls
    ensures |StartsOn(calls - {k}, ref)|
      == |StartsOn(calls, ref)| - if calls[k].InStart? && calls[k].ref == ref then 1 else 0
  {
    if calls[k].InStart? && calls[k].ref == ref {
      assert StartsOn(calls, ref) == StartsOn(calls - {k}, ref) + {k};
    } else {
      assert StartsOn(calls - {k}, ref) == StartsOn(calls, ref);
    }
  }

  lemma StartsOnReplace(calls: map<nat, Call>, k: nat, call: Call, ref: nat)
    requires k in calls && !call.InStart?
    ensures |StartsOn(calls[k := call], ref)|
      == |StartsOn(calls, ref)| - if calls[k].InStart? && calls[k].ref == ref then 1 else 0
  {
    StartsOnRemove(calls, k, ref);
    assert StartsOn(calls[k := call], ref) == StartsOn(calls - {k}, ref);
  }

  /** Only the beginning and the end of a Start change how many are in flight. */
  lemma StartsOnStep(c: Config, s: Sys, l: Label, ref: nat)
    requires Core(c, s) && Enabled(c, s, l) && !l.Crash?
    ensures var before, after := |StartsOn(s.calls, ref)|, |StartsOn(Next(c, s, l).calls, ref)|;
      after == if l.StartBegin? && WriteOf(s, l) == Some((ref, ToStarting)) then before + 1
               else if l.StartEnd? && s.calls[l.k].ref == ref then before - 1
               else before
  {
    var t := Next(c, s, l);
    match l
    case StartBegin(k, id) => if k in t.calls { StartsOnAdd(s.calls, k, t.calls[k], ref); }
    case StartEnd(k, _, _) => if k in t.calls { StartsOnReplace(s.calls, k, t.calls[k], ref); }
      else { StartsOnRemove(s.calls, k, ref); }
    case StopBegin(k, _) => if k in t.calls { StartsOnAdd(s.calls, k, t.calls[k], ref); }
    case StopEnd(k, _, _) => if k in t.calls { StartsOnReplace(s.calls, k, t.calls[k], ref); }
      else { StartsOnRemove(s.calls, k, ref); }
    case KillBegin(k, _, _, _) => if k in t.calls { StartsOnAdd(s.calls, k, t.calls[k], ref); }
    case KillEnd(k, _) => StartsOnReplace(s.calls, k, t.calls[k], ref);
    case EvalBegin(k, _) => StartsOnAdd(s.calls, k, t.calls[k], ref);
    case EvalEnd(k) => StartsOnReplace(s.calls, k, t.calls[k], ref);
    case EvalAnswer(k) => StartsOnRemove(s.calls, k, ref);
    case Reload(k, _) => if k in t.calls { StartsOnAdd(s.calls, k, t.calls[k], ref); }
    case Announce(k) => StartsOnRemove(s.calls, k, ref);
    case _ => assert t.calls == s.calls;
  }

  /** The bookkeeping of one write. */
  lemma BalanceAcrossWrite(s: Sys, t: Sys, written: nat, change: Change, ref: nat)
    requires ref < |s.mem.heap| && Balanced(s, ref) && WriteFrame(s, t, Some((written, change)))
    requires change.ToStarting? && written == ref ==> s.mem.heap[ref].state != Starting
    requires |StartsOn(t.calls, ref)| == |StartsOn(s.calls, ref)|
      + (if written == ref && change.ToStarting? then 1 else 0)
      - (if written == ref && (change.ToRunning? || change.ToFailed?) then 1 else 0)
    ensures |t.mem.heap| == |s.mem.heap| && Balanced(t, ref)
  {
    if written != ref {
      assert Count(t.hist.late, ref) == Count(s.hist.late, ref)
        && Count(t.hist.overtaken, ref) == Count(s.hist.overtaken, ref);
    }
  }

  lemma BalanceKeptByWrite(c: Config, s: Sys, l: Label, ref: nat)
    requires Core(c, s) && Enabled(c, s, l) && Writes(l) && ref < |s.mem.heap| && Balanced(s, ref)
    ensures |Next(c, s, l).mem.heap| == |s.mem.heap| && Balanced(Next(c, s, l), ref)
  {
    WriteStep(c, s, l);
    StartsOnStep(c, s, l, ref);
    match WriteOf(s, l)
    case None =>
    case Some((written, change)) => BalanceAcrossWrite(s, Next(c, s, l), written, change, ref);
  }

  lemma StartsKeptByWrites(c: Config, s: Sys, l: Label)
    requires Core(c, s) && StartsOk(s) && Enabled(c, s, l) && Writes(l)
    ensures StartsOk(Next(c, s, l))
  {
    WriteStep(c, s, l);
    WritesHitObjects(c, s, l);
    var t := Next(c, s, l);
    WriteKeepsRecords(s, t, WriteOf(s, l));
    forall ref | t.hist.born <= ref < |t.mem.heap|
      ensures Balanced(t, ref)
    {
      BalanceKeptByWrite(c, s, l, ref);
    }
  }

  lemma WritesHitObjects(c: Config, s: Sys, l: Label)
    requires Core(c, s) && Enabled(c, s, l) && Writes(l)
    ensures WriteOf(s, l).Some? ==> WriteOf(s, l).value.0 < |s.mem.heap|
  {
  }

  lemma OthersAddIdle(s: Sys, t: Sys, l: Label)
    requires Touched(s, t, l) && !Writes(l) && !l.Crash?
    ensures s.mem.heap <= t.mem.heap
    ensures forall ref :: |s.mem.heap| <= ref < |t.mem.heap| ==> t.mem.heap[ref].state == Registered
    ensures t.hist.born == s.hist.born && t.hist.late == s.hist.late && t.hist.overtaken == s.hist.overtaken
  {
  }

  /** Other steps write no state, and at most add an idle object. */
  lemma StartsKeptByOthers(c: Config, s: Sys, l: Label)
    requires Core(c, s) && StartsOk(s) && Enabled(c, s, l) && !Writes(l) && !l.Crash?
    ensures StartsOk(Next(c, s, l))
  {
    var t := Next(c, s, l);
    StepTouches(c, s, l, t);
    OthersAddIdle(s, t, l);
    forall ref | t.hist.born <= ref < |t.mem.heap|
      ensures Balanced(t, ref)
    {
      StartsOnStep(c, s, l, ref);
      if ref < |s.mem.heap| {
        assert Balanced(s, ref);
      } else {
        assert StartsOn(s.calls, ref) == {};
      }
    }
  }

  lemma {:induction false} StartsAlways(c: Config, states: seq<Sys>, labels: seq<Label>, i: nat)
    requires Behavior(c, states, labels) && i < |states|
    ensures StartsOk(states[i])
    decreases i
  {
    if i > 0 {
      StartsAlways(c, states, labels, i - 1);
      CoreAlways(c, states, labels, i - 1);
      var s, l := states[i - 1], labels[i - 1];
      assert StepAt(c, states, labels, i - 1);
      if Writes(l) {
        StartsKeptByWrites(c, s, l);
      } else if !l.Crash? {
        StartsKeptByOthers(c, s, l);
      }
    }
  }

  /**
   * In every state and for every object of this lifetime, registered or removed, the Starts in flight on it are exactly
   * its mark `starting`, plus the Stop and Kill writes that hit that mark, minus the Start results written over another
   * state.
   */
  lemma StartsInFlight(c: Config, states: seq<Sys>, labels: seq<Label>, i: nat, ref: nat)
    requires Behavior(c, states, labels) && i < |states| && states[i].hist.born <= ref < |states[i].mem.heap|
    ensures var s := states[i];
      |StartsOn(s.calls, ref)| == Mark(s, ref) + Count(s.hist.overtaken, ref) - Count(s.hist.late, ref)
  {
    StartsAlways(c, states, labels, i);
    assert Balanced(states[i], ref);
  }

  /** What a registered id points to is an object of this lifetime. */
  lemma RegisteredIsBorn(c: Config, states: seq<Sys>, labels: seq<Label>, i: nat, id: string)
    requires Behavior(c, states, labels) && i < |states| && id in states[i].mem.agents
    ensures states[i].hist.born <= states[i].mem.agents[id] < |states[i].mem.heap|
  {
    CoreAlways(c, states, labels, i);
  }

  // ----- Without Stop and Kill -----

  predicate StopsOrKills(l: Label) {
    l.StopBegin? || l.KillBegin?
  }

  lemma {:induction false} NothingOvertaken(c: Config, states: seq<Sys>, labels: seq<Label>, i: nat)
    requires Behavior(c, states, labels) && i < |states|
    requires forall j :: 0 <= j < i ==> !StopsOrKills(labels[j])
    ensures states[i].hist.overtaken == map[]
    ensures forall k :: k in states[i].calls ==> !states[i].calls[k].InStop? && !states[i].calls[k].InKill?
    decreases i
  {
    if i > 0 {
      NothingOvertaken(c, states, labels, i - 1);
      assert StepAt(c, states, labels, i - 1);
    }
  }

  /**
   * Without Stop and Kill, however many Starts race, at most one is in flight, and then Unregister leaves the agent
   * alone.
   */
  lemma RacingStartsAreExclusive(c: Config, states: seq<Sys>, labels: seq<Label>, i: nat, id: string)
    requires Behavior(c, states, labels) && i < |states| && id in states[i].mem.agents
    requires forall j :: 0 <= j < i ==> !StopsOrKills(labels[j])
    ensures var s := states[i]; var ref := s.mem.agents[id];
      && ref < |s.mem.heap|
      && |StartsOn(s.calls, ref)| <= 1
      && (StartsOn(s.calls, ref) != {} ==> s.mem.heap[ref].state == Starting)
      && WellFormed(s.mem)
      && (StartsOn(s.calls, ref) != {} && Enabled(c, s, Unregister(id)) ==> Next(c, s, Unregister(id)) == s)
  {
    CoreAlways(c, states, labels, i);
    RegisteredIsBorn(c, states, labels, i, id);
    StartsInFlight(c, states, labels, i, states[i].mem.agents[id]);
    NothingOvertaken(c, states, labels, i);
    var s := states[i];
    var starts := StartsOn(s.calls, s.mem.agents[id]);
    if starts != {} {
      var k :| k in starts;
      assert |starts - {k}| == |starts| - 1;
      if Enabled(c, s, Unregister(id)) {
        UnregisterStep(c, s, Unregister(id));
      }
    }
  }
}
