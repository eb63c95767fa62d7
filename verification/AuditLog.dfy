/** The audit logger (daemon/internal/audit/logger.go): every event goes to each enabled output, under one mutex. */
module AuditLog {
  import opened Memory

  /** Every event of `events` once, divided between the two outputs. */
  ghost predicate Divided(events: seq<Event>, journal: seq<Event>, stderr: seq<Event>) {
    forall event :: multiset(events)[event] == multiset(journal)[event] + multiset(stderr)[event]
  }

  lemma AppendCounts(events: seq<Event>, event: Event, other: Event)
    ensures multiset(events + [event])[other] == multiset(events)[other] + (if other == event then 1 else 0)
  {
  }

  lemma DividedAppend(events: seq<Event>, journal: seq<Event>, stderr: seq<Event>, event: Event)
    requires Divided(events, journal, stderr)
    ensures Divided(events + [event], journal + [event], stderr)
    ensures Divided(events + [event], journal, stderr + [event])
  {
    forall other: Event
      ensures multiset(events + [event])[other] == multiset(events)[other] + (if other == event then 1 else 0)
      ensures multiset(journal + [event])[other] == multiset(journal)[other] + (if other == event then 1 else 0)
      ensures multiset(stderr + [event])[other] == multiset(stderr)[other] + (if other == event then 1 else 0)
    {
      AppendCounts(events, event, other);
      AppendCounts(journal, event, other);
      AppendCounts(stderr, event, other);
    }
  }

  /** What became of one event at the outputs: whether the journal socket took it, and whether the file write worked. */
  datatype Outputs = Outputs(sent: bool, written: bool)

  /** `some` is `all` with some elements left out. */
  ghost predicate Subsequence(some: seq<Event>, all: seq<Event>)
    decreases |all|
  {
    if all == [] then some == []
    else
      var before := all[..|all| - 1];
      || Subsequence(some, before)
      || (some != [] && some[|some| - 1] == all[|all| - 1] && Subsequence(some[..|some| - 1], before))
  }

  lemma SubsequenceAppend(some: seq<Event>, all: seq<Event>, event: Event)
    requires Subsequence(some, all)
    ensures Subsequence(some, all + [event]) && Subsequence(some + [event], all + [event])
  {
    assert (all + [event])[..|all|] == all && (some + [event])[..|some|] == some;
  }

  /** So a file to which no write failed has every event, in order. */
  lemma {:induction false} NothingLeftOut(some: seq<Event>, all: seq<Event>)
    requires Subsequence(some, all)
    ensures |some| <= |all| && (|some| == |all| ==> some == all)
    decreases |all|
  {
    if all != [] {
      var before := all[..|all| - 1];
      if Subsequence(some, before) {
        NothingLeftOut(some, before);
      } else {
        NothingLeftOut(some[..|some| - 1], before);
      }
    }
  }

  class Logger {
    const journalEnabled: bool
    const fileEnabled: bool
    var journal: seq<Event>
    var stderr: seq<Event>             // events the journal socket did not take
    var file: seq<Event>
    ghost var events: seq<Event>       // every event logged, in order
    ghost var missing: nat             // how many the file did not get, because a write failed

    /** The file has the events in order but for the failed writes; journal and stderr together have each event once. */
    ghost predicate Valid()
      reads this
    {
      && (if fileEnabled then Subsequence(file, events) && |file| + missing == |events| else file == [])
      && (if journalEnabled then Divided(events, journal, stderr) else journal == [] && stderr == [])
    }

    constructor (journalEnabled: bool, fileEnabled: bool)
      ensures Valid() && events == []
      ensures this.journalEnabled == journalEnabled && this.fileEnabled == fileEnabled
    {
      this.journalEnabled, this.fileEnabled := journalEnabled, fileEnabled;
      journal, stderr, file, events, missing := [], [], [], [], 0;
    }

    /** If no file write failed, the file is the log. */
    lemma FileIsComplete()
      requires Valid() && fileEnabled && missing == 0
      ensures file == events
    {
      NothingLeftOut(file, events);
    }

    /** Errors of the outputs are not reported; only the journal has a fallback. */
    method Log(event: Event, outputs: Outputs)
      requires Valid()
      modifies this
      ensures Valid()
      ensures events == old(events) + [event]
      ensures journal == old(journal) + (if journalEnabled && outputs.sent then [event] else [])
      ensures stderr == old(stderr) + (if journalEnabled && !outputs.sent then [event] else [])
      ensures file == old(file) + (if fileEnabled && outputs.written then [event] else [])
      ensures missing == old(missing) + (if fileEnabled && !outputs.written then 1 else 0)
    {
      if journalEnabled {
        DividedAppend(events, journal, stderr, event);
        if outputs.sent {
          journal := journal + [event];
        } else {
          stderr := stderr + [event];
        }
      }
      if fileEnabled {
        SubsequenceAppend(file, events, event);
        if outputs.written {
          file := file + [event];
        } else {
          missing := missing + 1;
        }
      }
      events := events + [event];
    }

    method LogAgentAction(agentId: string, actionType: string, resource: string, profile: string, decision: string,
                          reasons: seq<string>, outputs: Outputs)
      requires Valid()
      modifies this
      ensures Valid()
      ensures decision == "deny" ==>
        events == old(events) + [Event(PolicyDeny, agentId, actionType, resource, profile, reasons, "", "")]
      ensures decision != "deny" ==>
        events == old(events) + [Event(PolicyAllow, agentId, actionType, resource, profile, reasons, "", "")]
    {
      var kind := PolicyAllow;
      if decision == "deny" {
        kind := PolicyDeny;
      }
      Log(Event(kind, agentId, actionType, resource, profile, reasons, "", ""), outputs);
    }

    method LogRuntimeAlert(agentId: string, rule: string, output: string, critical: bool, outputs: Outputs)
      requires Valid()
      modifies this
      ensures Valid()
      ensures critical ==> events == old(events) + [Event(RuntimeCritical, agentId, "", "", "", [], rule, output)]
      ensures !critical ==> events == old(events) + [Event(RuntimeAlert, agentId, "", "", "", [], rule, output)]
    {
      var kind := RuntimeAlert;
      if critical {
        kind := RuntimeCritical;
      }
      Log(Event(kind, agentId, "", "", "", [], rule, output), outputs);
    }

    method LogAgentLifecycle(agentId: string, kind: EventType, outputs: Outputs)
      requires Valid()
      modifies this
      ensures Valid()
      ensures events == old(events) + [Event(kind, agentId, "", "", "", [], "", "")]
    {
      Log(Event(kind, agentId, "", "", "", [], "", ""), outputs);
    }
  }
}
