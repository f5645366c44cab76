/** The rolling quota over whole runs, from a table that is pruned globally (src/onceproof/store.py:1159-1188). */
module RateQuota {
  import opened Wrappers
  import opened Schema
  import opened Transactions
  import opened Runs
  import opened Effects

  // ----- sequences of rate events -----

  predicate Matches(e: RateEvent, clientId: Id, operation: Operation) {
    e.clientId == clientId && e.operation == operation
  }

  lemma SlotsAppend(events: seq<RateEvent>, e: RateEvent, clientId: Id, operation: Operation, cutoff: int)
    ensures Slots(events + [e], clientId, operation, cutoff) ==
            Slots(events, clientId, operation, cutoff)
            + (if Matches(e, clientId, operation) && e.occurredAt > cutoff then [e.occurredAt] else [])
  {
    assert (events + [e])[..|events|] == events;
  }

  lemma {:induction false} SlotsOfPruned(events: seq<RateEvent>, pruned: int, clientId: Id, operation: Operation,
                                         cutoff: int)
    requires pruned <= cutoff
    ensures Slots(Prune(events, pruned), clientId, operation, cutoff) == Slots(events, clientId, operation, cutoff)
  {
    if events != [] {
      var front, last := events[..|events| - 1], events[|events| - 1];
      SlotsOfPruned(front, pruned, clientId, operation, cutoff);
      if last.occurredAt > pruned {
        SlotsAppend(Prune(front, pruned), last, clientId, operation, cutoff);
      } else {
        assert Prune(events, pruned) == Prune(front, pruned);
      }
    }
  }

  lemma {:induction false} PruneSelects(events: seq<RateEvent>, cutoff: int)
    ensures forall e :: e in Prune(events, cutoff) <==> e in events && e.occurredAt > cutoff
  {
    if events != [] {
      var front, last := events[..|events| - 1], events[|events| - 1];
      PruneSelects(front, cutoff);
      assert events == front + [last];
    }
  }

  /** All rows of one client and operation, whatever their age. */
  function Rows(events: seq<RateEvent>, clientId: Id, operation: Operation): nat {
    if events == [] then 0
    else
      Rows(events[..|events| - 1], clientId, operation)
      + (if Matches(events[|events| - 1], clientId, operation) then 1 else 0)
  }

  lemma RowsAppend(events: seq<RateEvent>, e: RateEvent, clientId: Id, operation: Operation)
    ensures Rows(events + [e], clientId, operation) ==
            Rows(events, clientId, operation) + (if Matches(e, clientId, operation) then 1 else 0)
  {
    assert (events + [e])[..|events|] == events;
  }

  lemma {:induction false} SlotsWithinRows(events: seq<RateEvent>, clientId: Id, operation: Operation, cutoff: int)
    ensures |Slots(events, clientId, operation, cutoff)| <= Rows(events, clientId, operation)
    ensures (forall e :: e in events ==> e.occurredAt > cutoff) ==>
              |Slots(events, clientId, operation, cutoff)| == Rows(events, clientId, operation)
  {
    if events != [] {
      SlotsWithinRows(events[..|events| - 1], clientId, operation, cutoff);
      assert forall e :: e in events[..|events| - 1] ==> e in events;
      assert events[|events| - 1] in events;
    }
  }

  lemma {:induction false} RowsOfPruned(events: seq<RateEvent>, cutoff: int, clientId: Id, operation: Operation)
    ensures Rows(Prune(events, cutoff), clientId, operation) <= Rows(events, clientId, operation)
  {
    if events != [] {
      var front, last := events[..|events| - 1], events[|events| - 1];
      RowsOfPruned(front, cutoff, clientId, operation);
      if last.occurredAt > cutoff {
        RowsAppend(Prune(front, cutoff), last, clientId, operation);
      } else {
        assert Prune(events, cutoff) == Prune(front, cutoff);
      }
    }
  }

  lemma {:induction false} NoSlotsOfStranger(events: seq<RateEvent>, clientId: Id, operation: Operation, cutoff: int)
    requires forall e :: e in events ==> e.clientId != clientId
    ensures Slots(events, clientId, operation, cutoff) == [] && Rows(events, clientId, operation) == 0
  {
    if events != [] {
      assert events[|events| - 1] in events;
      NoSlotsOfStranger(events[..|events| - 1], clientId, operation, cutoff);
    }
  }

  /** The times after a bound. */
  function Above(times: seq<int>, bound: int): seq<int> {
    if times == [] then []
    else Above(times[..|times| - 1], bound) + (if times[|times| - 1] > bound then [times[|times| - 1]] else [])
  }

  lemma {:induction false} LaterSlots(events: seq<RateEvent>, clientId: Id, operation: Operation, cutoff: int,
                                      later: int)
    requires cutoff <= later
    ensures Slots(events, clientId, operation, later) == Above(Slots(events, clientId, operation, cutoff), later)
  {
    if events != [] {
      var front, last := events[..|events| - 1], events[|events| - 1];
      LaterSlots(front, clientId, operation, cutoff, later);
      var earlier := Slots(front, clientId, operation, cutoff);
      if Matches(last, clientId, operation) && last.occurredAt > cutoff {
        assert (earlier + [last.occurredAt])[..|earlier|] == earlier;
      } else {
        assert Slots(events, clientId, operation, cutoff) == earlier;
      }
    }
  }

  lemma {:induction false} AboveOldest(times: seq<int>, bound: int)
    ensures |Above(times, bound)| <= |times|
    ensures times != [] ==> (|Above(times, bound)| == |times| <==> Oldest(times) > bound)
  {
    if |times| > 1 {
      AboveOldest(times[..|times| - 1], bound);
    } else if |times| == 1 {
      assert Above(times[..0], bound) == [];
    }
  }

  lemma {:induction false} SlotTimes(events: seq<RateEvent>, clientId: Id, operation: Operation, cutoff: int, now: int)
    requires forall e :: e in events ==> e.occurredAt <= now
    ensures forall t :: t in Slots(events, clientId, operation, cutoff) ==> cutoff < t <= now
  {
    if events != [] {
      assert events[|events| - 1] in events;
      SlotTimes(events[..|events| - 1], clientId, operation, cutoff, now);
    }
  }

  lemma {:induction false} OldestIsOne(times: seq<int>)
    requires times != []
    ensures Oldest(times) in times
  {
    if |times| > 1 {
      OldestIsOne(times[..|times| - 1]);
    }
  }

  // ----- the log of every committed admission -----

  ghost function Admitted(l: Ledger, op: Op): seq<RateEvent> {
    if Issues(l, op) then [RateEvent(op.record.clientId, IssueSlot, op.now)]
    else if Decides(l, op) then [RateEvent(op.clientId, VerifySlot, op.now)]
    else []
  }

  ghost function Log(run: Run, i: nat): seq<RateEvent>
    requires Steps(run) && i < |run.states|
  {
    if i == 0 then [] else Log(run, i - 1) + Admitted(run.states[i - 1], run.ops[i - 1])
  }

  function Limit(c: Client, operation: Operation): Quota {
    match operation
    case IssueSlot => c.issueLimit
    case VerifySlot => c.verifyLimit
  }

  /** What one step does to the table of rate events. */
  lemma RateSteps(l: Ledger, op: Op)
    ensures var m, added := Next(l, op), Admitted(l, op);
            if added != [] then
              && (op.Issue? || op.Verify?)
              && |added| == 1
              && m.rateEvents == Prune(l.rateEvents, op.now - 60) + added
              && added[0].occurredAt == op.now
              && added[0].clientId in l.clients
              && l.clients[added[0].clientId].status == Active
            else if op.Clean? then m.rateEvents == Prune(l.rateEvents, op.now - 60)
            else if Activates(l, op) then m.rateEvents == []
            else m.rateEvents == l.rateEvents
  {
    if Issues(l, op) { IssueCommits(l, op); }
    else if Creates(l, op) { CreateCommits(l, op); }
    else if Decides(l, op) { DecideCommits(l, op); }
    else if Rotates(l, op) { RotateCommits(l, op); }
    else if Revokes(l, op) { RevokeCommits(l, op); }
    else if Activates(l, op) { ActivateCommits(l, op); }
    else if !op.Clean? && !op.Seal? { RollsBack(l, op); }
  }

  /** An admission found fewer slots taken than the client's limit. */
  lemma AdmissionHadRoom(l: Ledger, op: Op)
    requires Admitted(l, op) != []
    ensures var e := Admitted(l, op)[0];
            |Slots(Prune(l.rateEvents, op.now - 60), e.clientId, e.operation, op.now - 60)|
            < Limit(l.clients[e.clientId], e.operation)
  {
    hide Prune, Slots, Oldest, KeyedDecision, Accepted;
    if Issues(l, op) {
      IssueCommits(l, op);
    } else {
      DecidedFresh(l, op);
    }
  }

  lemma LimitsAreFixed(l: Ledger, op: Op, clientId: Id, operation: Operation)
    requires clientId in l.clients
    ensures clientId in Next(l, op).clients
    ensures Limit(Next(l, op).clients[clientId], operation) == Limit(l.clients[clientId], operation)
  {
    ClientSteps(l, op, clientId);
  }

  ghost predicate EventsOfClients(l: Ledger, events: seq<RateEvent>) {
    forall e :: e in events ==> e.clientId in l.clients
  }

  lemma {:induction false} EventsHaveClients(run: Run, i: nat)
    requires IsRun(run) && i < |run.states|
    ensures EventsOfClients(run.states[i], Log(run, i))
    ensures EventsOfClients(run.states[i], run.states[i].rateEvents)
  {
    hide Next, Admitted, Issues, Decides, Creates, Rotates, Revokes, Activates, Accepts, Prune;
    if i > 0 {
      EventsHaveClients(run, i - 1);
      var l, op := run.states[i - 1], run.ops[i - 1];
      RateSteps(l, op);
      PruneSelects(l.rateEvents, op.now - 60);
      forall id | id in l.clients ensures id in run.states[i].clients { ClientSteps(l, op, id); }
    }
  }

  /** With any clock at all, the table never holds more rows of a client and operation than the limit. */
  lemma {:induction false} TableStaysWithinLimit(run: Run, i: nat, clientId: Id, operation: Operation)
    requires IsRun(run) && i < |run.states| && clientId in run.states[i].clients
    ensures Rows(run.states[i].rateEvents, clientId, operation) <= Limit(run.states[i].clients[clientId], operation)
  {
    hide Next, Admitted, Issues, Decides, Creates, Rotates, Revokes, Activates, Accepts, Prune, Slots, Limit;
    if i > 0 {
      var l, op := run.states[i - 1], run.ops[i - 1];
      RateSteps(l, op);
      EventsHaveClients(run, i - 1);
      if clientId in l.clients {
        TableStaysWithinLimit(run, i - 1, clientId, operation);
        LimitsAreFixed(l, op, clientId, operation);
      } else {
        NoSlotsOfStranger(l.rateEvents, clientId, operation, op.now);
      }
      var kept := Prune(l.rateEvents, op.now - 60);
      RowsOfPruned(l.rateEvents, op.now - 60, clientId, operation);
      if Admitted(l, op) != [] {
        var e := Admitted(l, op)[0];
        RowsAppend(kept, e, clientId, operation);
        AdmissionHadRoom(l, op);
        PruneSelects(l.rateEvents, op.now - 60);
        SlotsWithinRows(kept, e.clientId, e.operation, op.now - 60);
      }
    }
  }

  // ----- the pruned table against the full log -----

  ghost predicate Agrees(l: Ledger, log: seq<RateEvent>, clientId: Id, operation: Operation, now: int) {
    forall cutoff :: cutoff >= now - 60 ==>
      Slots(l.rateEvents, clientId, operation, cutoff) == Slots(log, clientId, operation, cutoff)
  }

  lemma {:induction false} TableRefinesLog(run: Run, clock: seq<int>, i: nat, clientId: Id, operation: Operation,
                                           now: int)
    requires IsRun(run) && Timed(run, clock) && i < |run.states|
    requires i == 0 || clock[i - 1] <= now
    requires clientId in run.states[i].clients && run.states[i].clients[clientId].status == Active
    ensures Agrees(run.states[i], Log(run, i), clientId, operation, now)
  {
    hide Next, Admitted, Issues, Decides, Creates, Rotates, Revokes, Activates, Accepts, Prune, Slots;
    if i > 0 {
      var l, op, log := run.states[i - 1], run.ops[i - 1], Log(run, i - 1);
      ClientSteps(l, op, clientId);
      RateSteps(l, op);
      if Activates(l, op) { ActivateCommits(l, op); }
      EventsHaveClients(run, i - 1);
      forall cutoff | cutoff >= now - 60
        ensures Slots(run.states[i].rateEvents, clientId, operation, cutoff) ==
                Slots(Log(run, i), clientId, operation, cutoff)
      {
        if clientId in l.clients {
          TableRefinesLog(run, clock, i - 1, clientId, operation, clock[i - 1]);
        } else {
          NoSlotsOfStranger(l.rateEvents, clientId, operation, cutoff);
          NoSlotsOfStranger(log, clientId, operation, cutoff);
        }
        SlotsOfPruned(l.rateEvents, op.now - 60, clientId, operation, cutoff);
        if Admitted(l, op) != [] {
          var e := Admitted(l, op)[0];
          assert Admitted(l, op) == [e];
          SlotsAppend(Prune(l.rateEvents, op.now - 60), e, clientId, operation, cutoff);
          SlotsAppend(log, e, clientId, operation, cutoff);
        } else {
          assert Log(run, i) == log;
        }
      }
    }
  }

  /** The admit or refuse decision from the pruned table is the one a log of all admissions would give. */
  lemma PrunedDecisionIsExact(run: Run, clock: seq<int>, i: nat, clientId: Id, operation: Operation, now: int)
    requires IsRun(run) && Timed(run, clock) && i < |run.states|
    requires i == 0 || clock[i - 1] <= now
    requires clientId in run.states[i].clients && run.states[i].clients[clientId].status == Active
    ensures var l, full := run.states[i], Slots(Log(run, i), clientId, operation, now - 60);
            var limit := Limit(l.clients[clientId], operation);
            if |full| < limit then ConsumeRateSlot(l, clientId, operation, limit, now).Success?
            else ConsumeRateSlot(l, clientId, operation, limit, now)
                   == Failure(RateLimited(Clamp(Oldest(full) + 60 - now)))
  {
    hide Next, Log, Prune, Slots, Oldest, Clamp;
    TableRefinesLog(run, clock, i, clientId, operation, now);
    SlotsOfPruned(run.states[i].rateEvents, now - 60, clientId, operation, now - 60);
  }

  // ----- the rolling quota -----

  /** Admissions of one client and operation in the window (end - 60, end]. */
  function InWindow(log: seq<RateEvent>, clientId: Id, operation: Operation, end: int): nat {
    if log == [] then 0
    else
      var last := log[|log| - 1];
      InWindow(log[..|log| - 1], clientId, operation, end)
      + (if Matches(last, clientId, operation) && end - 60 < last.occurredAt <= end then 1 else 0)
  }

  lemma {:induction false} WindowWithinSlots(log: seq<RateEvent>, clientId: Id, operation: Operation, end: int,
                                             now: int)
    requires now <= end
    ensures InWindow(log, clientId, operation, end) <= |Slots(log, clientId, operation, now - 60)|
  {
    if log != [] {
      WindowWithinSlots(log[..|log| - 1], clientId, operation, end, now);
    }
  }

  /** An admission inside the window found the window below the limit. */
  lemma WindowHadRoom(run: Run, clock: seq<int>, i: nat, clientId: Id, operation: Operation, end: int)
    requires IsRun(run) && Timed(run, clock) && 0 < i < |run.states|
    requires var added := Admitted(run.states[i - 1], run.ops[i - 1]);
             added != [] && Matches(added[0], clientId, operation) && added[0].occurredAt <= end
    ensures clientId in run.states[i - 1].clients
    ensures InWindow(Log(run, i - 1), clientId, operation, end) < Limit(run.states[i - 1].clients[clientId], operation)
  {
    hide Next, Admitted, Issues, Decides, Creates, Rotates, Revokes, Activates, Accepts, Prune, Slots;
    var l, op := run.states[i - 1], run.ops[i - 1];
    RateSteps(l, op);
    AdmissionHadRoom(l, op);
    TableRefinesLog(run, clock, i - 1, clientId, operation, op.now);
    SlotsOfPruned(l.rateEvents, op.now - 60, clientId, operation, op.now - 60);
    WindowWithinSlots(Log(run, i - 1), clientId, operation, end, op.now);
  }

  lemma WindowAppend(log: seq<RateEvent>, e: RateEvent, clientId: Id, operation: Operation, end: int)
    ensures InWindow(log + [e], clientId, operation, end) ==
            InWindow(log, clientId, operation, end)
            + (if Matches(e, clientId, operation) && end - 60 < e.occurredAt <= end then 1 else 0)
  {
    assert (log + [e])[..|log|] == log;
  }

  /** One step adds to the window at most the admission that found room in it. */
  lemma WindowStep(run: Run, clock: seq<int>, i: nat, clientId: Id, operation: Operation, end: int)
    requires IsRun(run) && Timed(run, clock) && 0 < i < |run.states|
    ensures var before, after := InWindow(Log(run, i - 1), clientId, operation, end),
                                 InWindow(Log(run, i), clientId, operation, end);
            || after == before
            || (after == before + 1 && clientId in run.states[i - 1].clients
                && before < Limit(run.states[i - 1].clients[clientId], operation))
  {
    hide Next, Admitted, InWindow, Timed;
    RateSteps(run.states[i - 1], run.ops[i - 1]);
    var added, log := Admitted(run.states[i - 1], run.ops[i - 1]), Log(run, i - 1);
    assert Log(run, i) == log + added;
    if added != [] {
      assert added == [added[0]];
      WindowAppend(log, added[0], clientId, operation, end);
      if Matches(added[0], clientId, operation) && end - 60 < added[0].occurredAt <= end {
        WindowHadRoom(run, clock, i, clientId, operation, end);
      }
    } else {
      assert log + [] == log;
    }
    hide Log;
  }

  /** No window of 60 seconds anywhere in a run holds more committed admissions than the client's limit. */
  lemma {:induction false} RollingQuota(run: Run, clock: seq<int>, i: nat, clientId: Id, operation: Operation, end: int)
    requires IsRun(run) && Timed(run, clock) && i < |run.states| && clientId in run.states[i].clients
    ensures InWindow(Log(run, i), clientId, operation, end) <= Limit(run.states[i].clients[clientId], operation)
  {
    hide Next, Log, InWindow, Limit, Prune, Slots;
    if i > 0 {
      WindowStep(run, clock, i, clientId, operation, end);
      if clientId in run.states[i - 1].clients {
        RollingQuota(run, clock, i - 1, clientId, operation, end);
        LimitsAreFixed(run.states[i - 1], run.ops[i - 1], clientId, operation);
      } else {
        EventsHaveClients(run, i - 1);
        NoWindowOfStranger(Log(run, i - 1), clientId, operation, end);
      }
    }
  }

  lemma {:induction false} NoWindowOfStranger(log: seq<RateEvent>, clientId: Id, operation: Operation, end: int)
    requires forall e :: e in log ==> e.clientId != clientId
    ensures InWindow(log, clientId, operation, end) == 0
  {
    if log != [] {
      assert log[|log| - 1] in log;
      NoWindowOfStranger(log[..|log| - 1], clientId, operation, end);
    }
  }

  // ----- Retry-After -----

  lemma {:induction false} LogIsPast(run: Run, clock: seq<int>, i: nat, now: int)
    requires IsRun(run) && Timed(run, clock) && i < |run.states|
    requires i == 0 || clock[i - 1] <= now
    ensures forall e :: e in Log(run, i) ==> e.occurredAt <= now
  {
    hide Next, Admitted, Issues, Decides, Creates, Rotates, Revokes, Activates, Accepts, Prune;
    if i > 0 {
      LogIsPast(run, clock, i - 1, clock[i - 1]);
      RateSteps(run.states[i - 1], run.ops[i - 1]);
    }
  }

  /** Nothing is admitted for this client and operation by the operations from i to j. */
  ghost predicate NoneAdmitted(run: Run, i: nat, j: nat, clientId: Id, operation: Operation)
    requires Steps(run) && i <= j < |run.states|
  {
    forall k, e :: i <= k < j && e in Admitted(run.states[k], run.ops[k]) ==> !Matches(e, clientId, operation)
  }

  lemma {:induction false} LogUnchanged(run: Run, i: nat, j: nat, clientId: Id, operation: Operation, cutoff: int)
    requires Steps(run) && i <= j < |run.states| && NoneAdmitted(run, i, j, clientId, operation)
    ensures Slots(Log(run, j), clientId, operation, cutoff) == Slots(Log(run, i), clientId, operation, cutoff)
  {
    hide Next, Admitted, Slots;
    if i < j {
      RateSteps(run.states[j - 1], run.ops[j - 1]);
      LogUnchanged(run, i, j - 1, clientId, operation, cutoff);
      var added := Admitted(run.states[j - 1], run.ops[j - 1]);
      if added != [] {
        assert added == [added[0]];
        SlotsAppend(Log(run, j - 1), added[0], clientId, operation, cutoff);
      } else {
        assert Log(run, j) == Log(run, j - 1);
      }
    }
  }

  /** A refusal sees exactly as many slots as the limit, and the wait is the oldest one's remaining minute. */
  lemma RefusalIsFull(run: Run, clock: seq<int>, i: nat, clientId: Id, operation: Operation, now: int, wait: int)
    requires IsRun(run) && Timed(run, clock) && i < |run.states|
    requires i == 0 || clock[i - 1] <= now
    requires clientId in run.states[i].clients && run.states[i].clients[clientId].status == Active
    requires var l := run.states[i];
             ConsumeRateSlot(l, clientId, operation, Limit(l.clients[clientId], operation), now)
             == Failure(RateLimited(wait))
    ensures var full := Slots(Log(run, i), clientId, operation, now - 60);
            && full != []
            && |full| == Limit(run.states[i].clients[clientId], operation)
            && wait == Oldest(full) + 60 - now
            && 1 <= wait <= 60
  {
    hide Next, Log, Prune, Slots, Rows, Oldest, ConsumeRateSlot;
    var l := run.states[i];
    var full := Slots(Log(run, i), clientId, operation, now - 60);
    PrunedDecisionIsExact(run, clock, i, clientId, operation, now);
    TableRefinesLog(run, clock, i, clientId, operation, now);
    SlotsWithinRows(l.rateEvents, clientId, operation, now - 60);
    TableStaysWithinLimit(run, i, clientId, operation);
    LogIsPast(run, clock, i, now);
    SlotTimes(Log(run, i), clientId, operation, now - 60, now);
    OldestIsOne(full);
  }

  /**
   * The reported wait is exact. If nothing else is admitted for the client and operation meanwhile,
   * a later attempt finds a slot precisely when the wait is over.
   */
  lemma RetryAfterIsExact(run: Run, clock: seq<int>, i: nat, j: nat, clientId: Id, operation: Operation,
                          now: int, wait: int, later: int)
    requires IsRun(run) && Timed(run, clock) && i <= j < |run.states|
    requires i == 0 || clock[i - 1] <= now
    requires j == 0 || clock[j - 1] <= later
    requires now <= later
    requires forall k :: k in {i, j} ==>
               clientId in run.states[k].clients && run.states[k].clients[clientId].status == Active
    requires var l := run.states[i];
             ConsumeRateSlot(l, clientId, operation, Limit(l.clients[clientId], operation), now)
             == Failure(RateLimited(wait))
    requires NoneAdmitted(run, i, j, clientId, operation)
    ensures 1 <= wait <= 60
    ensures var l := run.states[j];
            ConsumeRateSlot(l, clientId, operation, Limit(l.clients[clientId], operation), later).Success?
            <==> later >= now + wait
  {
    hide Next, Log, Prune, Slots, Oldest, ConsumeRateSlot;
    RefusalIsFull(run, clock, i, clientId, operation, now, wait);
    PrunedDecisionIsExact(run, clock, j, clientId, operation, later);
    LogUnchanged(run, i, j, clientId, operation, later - 60);
    LaterSlots(Log(run, i), clientId, operation, now - 60, later - 60);
    AboveOldest(Slots(Log(run, i), clientId, operation, now - 60), later - 60);
    LimitNeverChanges(run, i, j, clientId, operation);
  }

  lemma {:induction false} LimitNeverChanges(run: Run, i: nat, j: nat, clientId: Id, operation: Operation)
    requires Steps(run) && i <= j < |run.states| && clientId in run.states[i].clients
    ensures clientId in run.states[j].clients
    ensures Limit(run.states[j].clients[clientId], operation) == Limit(run.states[i].clients[clientId], operation)
  {
    if i < j {
      LimitNeverChanges(run, i, j - 1, clientId, operation);
      LimitsAreFixed(run.states[j - 1], run.ops[j - 1], clientId, operation);
    }
  }

  // ----- the same, as the callers see it -----

  /** The operation gets as far as asking for a slot. */
  ghost predicate Asks(l: Ledger, op: Op, clientId: Id, operation: Operation) {
    !Sealed(l) &&
    match operation
    case IssueSlot =>
      && op.Issue? && op.record.clientId == clientId
      && RegisterHashKey(l, op.record.hashKid, op.check).Success?
      && Authorised(l, op.record.issueCredentialId, clientId, Issuance, op.now)
    case VerifySlot =>
      && op.Verify? && op.clientId == clientId
      && Authorised(l, op.credentialId, clientId, Role.Verification, op.now)
      && IdempotentResult(l, clientId, op.key, FingerprintOf(op.request)) == Success(None)
  }

  lemma ReplyToAsking(l: Ledger, op: Op, clientId: Id, operation: Operation)
    requires Asks(l, op, clientId, operation)
    ensures var slot := ConsumeRateSlot(l, clientId, operation, Limit(l.clients[clientId], operation), op.now);
            if slot.Failure? then ReplyOf(l, op) == Failed(slot.error)
            else !(ReplyOf(l, op).Failed? && ReplyOf(l, op).error.RateLimited?)
  {
    hide Prune, Slots, Oldest, KeyedDecision, Accepted, Verdict.FromDict, Verdict.ToDict, Decide;
  }

  /** A client told to wait `wait` seconds is refused again before then and admitted to a slot from then on. */
  lemma RetryAfterAsSeen(run: Run, clock: seq<int>, i: nat, j: nat, clientId: Id, operation: Operation, wait: int)
    requires IsRun(run) && Timed(run, clock) && i < j < |run.ops|
    requires Asks(run.states[i], run.ops[i], clientId, operation)
    requires Asks(run.states[j], run.ops[j], clientId, operation)
    requires ReplyOf(run.states[i], run.ops[i]) == Failed(RateLimited(wait))
    requires NoneAdmitted(run, i, j, clientId, operation)
    ensures 1 <= wait <= 60
    ensures var reply := ReplyOf(run.states[j], run.ops[j]);
            (reply.Failed? && reply.error.RateLimited?) <==> clock[j] < clock[i] + wait
  {
    ReplyToAsking(run.states[i], run.ops[i], clientId, operation);
    ReplyToAsking(run.states[j], run.ops[j], clientId, operation);
    RetryAfterIsExact(run, clock, i, j, clientId, operation, clock[i], wait, clock[j]);
  }
}
