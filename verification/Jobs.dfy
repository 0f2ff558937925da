/** One background job (Coordinator/mlxbar/jobs.py, `JobManager`) as the atomic steps between its
    awaits: the job task, any number of cancellers, and one subscriber. */
module Jobs {
  import opened Prelude

  datatype JobState = Queued | Running | Completed | Failed | Cancelled

  predicate Terminal(s: JobState) {
    s.Completed? || s.Failed? || s.Cancelled?
  }

  // A stored record or an event: the state and whatever else it carries.
  datatype Record = Record(state: JobState, note: int)

  /** `Dropped`: cancelled before its first step, so its own handlers never ran. */
  datatype Task = NotStarted | Working | Dropped | Ended

  datatype Subscriber = Absent | Greeted(seen: JobState) | Listening(queue: nat) | Closed

  /** `queues` are the queue objects ever made, `queueOf` the one the dictionary holds now;
      `cancellers` counts the calls waiting for the job task; `sent` is everything put on the first queue. */
  datatype Job = Job(stored: Record, queues: seq<seq<Record>>, queueOf: Option<nat>, taskKnown: bool,
                     task: Task, cancelRequested: bool, cancellers: nat,
                     subscriber: Subscriber, received: seq<Record>, sent: seq<Record>)

  const CREATED := Job(Record(Queued, 0), [[]], Some(0), true, NotStarted, false, 0, Absent, [], [])

  datatype Step =
    | Start(note: int)                       // first step of the job task, up to the first wait inside `work`
    | DropAtEntry                            // the cancel reaches a task that never started
    | Report(note: int)                      // `update` called by the work function
    | Finish(outcome: JobState, note: int)   // the work ended; terminal record, event, bookkeeping
    | CancelCall
    | CancelSettle(note: int)                // a canceller resumes once the job task is done
    | Subscribe
    | Attach                                 // the subscriber resumes after its first event
    | Take

  predicate Live(j: Job) {
    !Terminal(j.stored.state)
  }

  // Puts an event on the queue object the dictionary holds.
  function Put(j: Job, e: Record): Job
    requires j.queueOf.Some? ==> j.queueOf.value < |j.queues|
  {
    if j.queueOf.None? then j
    else
      var q := j.queueOf.value;
      j.(queues := j.queues[q := j.queues[q] + [e]], sent := if q == 0 then j.sent + [e] else j.sent)
  }

  predicate Enabled(j: Job, s: Step) {
    match s
    case Start(_) => j.task.NotStarted? && !j.cancelRequested
    case DropAtEntry => j.task.NotStarted? && j.cancelRequested
    case Report(_) => j.task.Working?
    case Finish(outcome, _) => j.task.Working? && Terminal(outcome)
    case CancelCall => true
    case CancelSettle(_) => j.cancellers > 0 && (j.task.Dropped? || j.task.Ended?)
    case Subscribe => j.subscriber.Absent?
    case Attach => j.subscriber.Greeted?
    case Take => j.subscriber.Listening? && j.subscriber.queue < |j.queues| && j.queues[j.subscriber.queue] != []
  }

  function Do(j: Job, s: Step): Job
    requires Enabled(j, s) && QueueExists(j)
  {
    match s
    case Start(note) => Put(j.(stored := Record(Running, note), task := Working), Record(Running, note))
    case DropAtEntry => j.(task := Dropped)
    case Report(note) => Put(j.(stored := Record(Running, note)), Record(Running, note))
    case Finish(outcome, note) =>
      Put(j.(stored := Record(outcome, note)), Record(outcome, note))
        .(task := Ended, taskKnown := false, queueOf := None)
    case CancelCall =>
      if Terminal(j.stored.state) || !j.taskKnown then j
      else j.(cancelRequested := j.cancelRequested || j.task.NotStarted? || j.task.Working?,
              cancellers := j.cancellers + 1)
    case CancelSettle(note) =>
      var back := j.(cancellers := j.cancellers - 1);
      if Terminal(j.stored.state) then back
      else Put(back.(stored := Record(Cancelled, note)), Record(Cancelled, note)).(taskKnown := false, queueOf := None)
    case Subscribe => j.(subscriber := Greeted(j.stored.state), received := j.received + [j.stored])
    case Attach =>
      if Terminal(j.subscriber.seen) then j.(subscriber := Closed)
      else
        // `setdefault`, then the state is read again before waiting.
        var queue := if j.queueOf.Some? then j.queueOf.value else |j.queues|;
        var k := if j.queueOf.Some? then j else j.(queues := j.queues + [[]], queueOf := Some(queue));
        if Terminal(j.stored.state) then k.(subscriber := Closed, received := k.received + [j.stored])
        else k.(subscriber := Listening(queue))
    case Take =>
      var q := j.subscriber.queue;
      var e := j.queues[q][0];
      j.(queues := j.queues[q := j.queues[q][1..]], received := j.received + [e],
         subscriber := if Terminal(e.state) then Closed else j.subscriber)
  }

  predicate QueueExists(j: Job) {
    j.queueOf.Some? ==> j.queueOf.value < |j.queues|
  }

  // ------------------------------------------------------------------ invariant

  function Terminals(events: seq<Record>): nat {
    if events == [] then 0 else Terminals(events[1..]) + (if Terminal(events[0].state) then 1 else 0)
  }

  lemma {:induction false} TerminalsSnoc(events: seq<Record>, e: Record)
    ensures Terminals(events + [e]) == Terminals(events) + (if Terminal(e.state) then 1 else 0)
  {
    if events == [] {
      assert [] + [e] == [e] && [e][1..] == [];
    } else {
      TerminalsSnoc(events[1..], e);
      assert (events + [e])[1..] == events[1..] + [e];
    }
  }

  predicate EndsWith(events: seq<Record>, e: Record) {
    events != [] && events[|events| - 1] == e
  }

  /** While the job is live its first queue is the registered one and somebody still owes the terminal
      event; afterwards that event is the one terminal event sent, and it is what the record says. */
  ghost predicate WriterInv(j: Job) {
    && QueueExists(j) && |j.queues| >= 1
    && (Live(j) ==> j.queueOf == Some(0) && j.taskKnown && !j.task.Ended? && Terminals(j.sent) == 0)
    && (Live(j) && (j.cancelRequested || j.task.Dropped?) ==> j.cancellers > 0)
    && (j.task.Working? || j.task.NotStarted? ==> Live(j))
    && (!Live(j) ==> !j.taskKnown && j.queueOf != Some(0) && Terminals(j.sent) == 1 && EndsWith(j.sent, j.stored))
  }

  /** The subscriber listens to the first queue, misses nothing and reorders nothing. */
  ghost predicate ReaderInv(j: Job) {
    && |j.queues| >= 1
    && (!j.subscriber.Listening? && !j.subscriber.Closed? ==> j.queues[0] == j.sent)
    && (j.subscriber.Absent? ==> j.received == [])
    && (j.subscriber.Greeted? ==> |j.received| == 1 && j.received[0].state == j.subscriber.seen
                                  && (Terminal(j.subscriber.seen) ==> EndsWith(j.received, j.stored)))
    && (j.subscriber.Listening? ==> j.subscriber.queue == 0 && j.received != [] && Terminals(j.received) == 0
                                    && j.received[1..] + j.queues[0] == j.sent)
    && (j.subscriber.Closed? ==> !Live(j) && EndsWith(j.received, j.stored) && Complete(j))
  }

  /** A closed subscriber was given every event after its first record, or found the job over. */
  ghost predicate Complete(j: Job) {
    j.received != [] && (j.received[1..] == j.sent || j.received[1..] == [] || j.received[1..] == [j.stored])
  }

  ghost predicate Inv(j: Job) {
    WriterInv(j) && ReaderInv(j)
  }

  lemma WriterStep(j: Job, s: Step)
    requires Inv(j) && Enabled(j, s)
    ensures WriterInv(Do(j, s))
    ensures !Live(j) ==> Do(j, s).stored == j.stored
  {
    hide ReaderInv, Terminals;
    match s
    case Start(note) => TerminalsSnoc(j.sent, Record(Running, note));
    case Report(note) => TerminalsSnoc(j.sent, Record(Running, note));
    case Finish(outcome, note) => TerminalsSnoc(j.sent, Record(outcome, note));
    case CancelSettle(note) => TerminalsSnoc(j.sent, Record(Cancelled, note));
    case _ =>
  }

  // A step that may send one event and leaves the subscriber alone.
  lemma ReaderSend(j: Job, k: Job, more: seq<Record>)
    requires ReaderInv(j) && |k.queues| >= 1
    requires k.subscriber == j.subscriber && k.received == j.received
    requires k.sent == j.sent + more && k.queues[0] == j.queues[0] + more
    requires k.stored == j.stored || Live(j)
    requires !Live(j) ==> k.stored == j.stored && more == []
    requires j.subscriber.Greeted? && Terminal(j.subscriber.seen) ==> !Live(j)
    ensures ReaderInv(k)
  {
  }

  lemma ReaderStep(j: Job, s: Step)
    requires Inv(j) && Enabled(j, s)
    ensures ReaderInv(Do(j, s))
  {
    hide Terminals;
    var k := Do(j, s);
    match s
    case Subscribe => assert [] + [j.stored] == [j.stored];
    case Attach => AttachReads(j);
    case Take => TakeReads(j);
    case Start(note) => ReaderSend(j, k, [Record(Running, note)]);
    case Report(note) => ReaderSend(j, k, [Record(Running, note)]);
    case Finish(outcome, note) => ReaderSend(j, k, [Record(outcome, note)]);
    case CancelSettle(note) => if Live(j) { ReaderSend(j, k, [Record(Cancelled, note)]); }
    case _ =>
  }

  lemma AttachReads(j: Job)
    requires Inv(j) && j.subscriber.Greeted?
    ensures ReaderInv(Do(j, Attach))
  {
  }

  lemma TakeReads(j: Job)
    requires Inv(j) && Enabled(j, Take)
    ensures ReaderInv(Do(j, Take))
  {
    var q, e := j.queues[0], j.queues[0][0];
    TerminalsSnoc(j.received, e);
    assert j.received[1..] + q == (j.received + [e])[1..] + q[1..];
    if Terminal(e.state) {
      // The only terminal event is the last one sent.
      var at := |j.received| - 1;
      assert j.sent[at] == e;
      SomeTerminal(j.sent, at);
      OnlyTerminalIsLast(j.sent, at);
    }
  }

  lemma {:induction false} OnlyTerminalIsLast(events: seq<Record>, i: nat)
    requires i < |events| && Terminal(events[i].state) && Terminals(events) <= 1
    requires Terminal(events[|events| - 1].state)
    ensures i == |events| - 1
  {
    if i > 0 {
      OnlyTerminalIsLast(events[1..], i - 1);
    } else if |events| > 1 {
      SomeTerminal(events[1..], |events| - 2);
    }
  }

  lemma {:induction false} SomeTerminal(events: seq<Record>, i: nat)
    requires i < |events| && Terminal(events[i].state)
    ensures Terminals(events) >= 1
  {
    if i > 0 { SomeTerminal(events[1..], i - 1); }
  }

  // ----------------------------------------------------------------------- runs

  /** `run` starts at creation and every state follows from the one before by some enabled step. */
  ghost predicate IsRun(run: seq<Job>, steps: seq<Step>) {
    && |run| == |steps| + 1 && run[0] == CREATED
    && forall i :: 0 <= i < |steps| ==>
         Enabled(run[i], steps[i]) && QueueExists(run[i]) && run[i + 1] == Do(run[i], steps[i])
  }

  lemma {:induction false} RunsKeepInv(run: seq<Job>, steps: seq<Step>, i: nat)
    requires IsRun(run, steps) && i < |run|
    ensures Inv(run[i])
  {
    hide Do, Enabled;
    if i > 0 {
      RunsKeepInv(run, steps, i - 1);
      var j, s := run[i - 1], steps[i - 1];
      assert run[i - 1 + 1] == Do(j, s);
      WriterStep(j, s);
      ReaderStep(j, s);
    }
  }

  /** Once a terminal state is stored it is never overwritten, in any interleaving. */
  lemma {:induction false} TerminalStateIsFinal(run: seq<Job>, steps: seq<Step>, i: nat, k: nat)
    requires IsRun(run, steps) && i <= k < |run| && Terminal(run[i].stored.state)
    ensures run[k].stored == run[i].stored
    decreases k
  {
    hide WriterInv, ReaderInv, Do, Enabled, QueueExists;
    if i < k {
      TerminalStateIsFinal(run, steps, i, k - 1);
      RunsKeepInv(run, steps, k - 1);
      WriterStep(run[k - 1], steps[k - 1]);
      assert run[k - 1 + 1] == Do(run[k - 1], steps[k - 1]);
    }
  }

  /** A terminal event is sent at most once, a closed subscriber received everything up to it, and the
      last thing it was given is the stored terminal record. */
  lemma SubscriberIsToldTheTruth(run: seq<Job>, steps: seq<Step>, i: nat)
    requires IsRun(run, steps) && i < |run|
    ensures var j := run[i];
            && Terminals(j.sent) <= 1
            && (j.subscriber.Closed? ==> Terminal(j.stored.state) && EndsWith(j.received, j.stored) && Complete(j))
            && (j.subscriber.Listening? ==> && j.subscriber.queue == 0 && |j.queues| >= 1
                                            && j.received != [] && j.received[1..] + j.queues[0] == j.sent)
  {
    RunsKeepInv(run, steps, i);
  }

  // ------------------------------------------------- what the steps themselves say

  // Neither waiting nor at work.
  predicate Over(r: Record) {
    r.state != Queued && r.state != Running
  }

  /** What the steps write, told from the steps alone: each start and report, the end of the work, and a
      canceller's record when nothing final was written before it. */
  function Written(steps: seq<Step>): seq<Record> {
    if steps == [] then [] else AfterOne(Written(steps[..|steps| - 1]), steps[|steps| - 1])
  }

  function AfterOne(before: seq<Record>, s: Step): seq<Record> {
    match s
    case Start(note) => before + [Record(Running, note)]
    case Report(note) => before + [Record(Running, note)]
    case Finish(outcome, note) => before + [Record(outcome, note)]
    case CancelSettle(note) =>
      if before != [] && Over(before[|before| - 1]) then before else before + [Record(Cancelled, note)]
    case _ => before
  }

  /** The record in the database is the last one the steps wrote, and the events put on the job's queue are
      all of them, in order. */
  lemma {:induction false} RecordFollowsTheSteps(run: seq<Job>, steps: seq<Step>, i: nat)
    requires IsRun(run, steps) && i < |run|
    ensures var written := Written(steps[..i]);
            && run[i].sent == written
            && run[i].stored == if written == [] then Record(Queued, 0) else written[|written| - 1]
  {
    hide ReaderInv, Terminals, Written;
    if i > 0 {
      var j, s := run[i - 1], steps[i - 1];
      RecordFollowsTheSteps(run, steps, i - 1);
      RunsKeepInv(run, steps, i - 1);
      assert run[i - 1 + 1] == Do(j, s);
      WrittenSnoc(steps[..i - 1], s);
      assert steps[..i] == steps[..i - 1] + [s];
    } else {
      assert Written([]) == [] by { WrittenNil(); }
    }
  }

  lemma WrittenNil()
    ensures Written([]) == []
  {
  }

  lemma WrittenSnoc(steps: seq<Step>, s: Step)
    ensures Written(steps + [s]) == AfterOne(Written(steps), s)
  {
    assert (steps + [s])[..|steps + [s]| - 1] == steps;
  }

  // The step that ended the run: the work's own end, or the first canceller that found no record of one.
  predicate Ends(s: Step, r: Record) {
    match s
    case Finish(outcome, note) => r == Record(outcome, note)
    case CancelSettle(note) => r == Record(Cancelled, note)
    case _ => false
  }

  predicate Reports(s: Step, r: Record) {
    match s
    case Start(note) => r == Record(Running, note)
    case Report(note) => r == Record(Running, note)
    case _ => false
  }

  predicate MayEnd(s: Step) {
    s.Finish? || s.CancelSettle?
  }

  // What one step does to the record and to the events sent.
  lemma RecordStep(j: Job, s: Step)
    requires Inv(j) && Enabled(j, s)
    ensures var k := Do(j, s);
            && (Over(j.stored) ==> k.stored == j.stored && k.sent == j.sent && !s.Finish? && !s.Start? && !s.Report?)
            && (!Over(j.stored) && Over(k.stored) ==> MayEnd(s) && Ends(s, k.stored) && k.sent == j.sent + [k.stored])
            && (!Over(k.stored) ==> !MayEnd(s))
            && (!Over(k.stored) && (s.Start? || s.Report?) ==> Reports(s, k.stored) && k.sent == j.sent + [k.stored])
            && (!Over(k.stored) && !s.Start? && !s.Report? ==> k.stored == j.stored && k.sent == j.sent)
  {
    hide ReaderInv, Terminals;
  }

  lemma TaskStep(j: Job, s: Step)
    requires Inv(j) && Enabled(j, s)
    requires j.task.NotStarted? || (j.task.Dropped? && j.cancelRequested)
    ensures var k := Do(j, s);
            && !s.Report? && !s.Finish? && (j.cancelRequested || j.task.Dropped? ==> !s.Start?)
            && (!s.Start? ==> k.task.NotStarted? || (k.task.Dropped? && k.cancelRequested))
            && (j.cancelRequested ==> k.cancelRequested)
            && (s.CancelCall? && !Over(j.stored) ==> k.cancelRequested)
            && (!s.Start? ==> k.stored == j.stored || k.stored.state == Cancelled)
  {
    hide ReaderInv, Terminals;
  }

  lemma EventStep(j: Job, s: Step)
    requires Inv(j) && Enabled(j, s)
    ensures var k := Do(j, s);
            && (s.Subscribe? ==> k.received == [j.stored])
            && (s.Subscribe? || j.received != [] ==> !k.subscriber.Absent?)
            && (j.received != [] ==> !s.Subscribe?)
            && (j.received != [] ==> k.received == j.received || exists e :: k.received == j.received + [e])
  {
    hide Terminals, EndsWith;
    assert [] + [j.stored] == [j.stored];
    if s.Attach? {
      assert Do(j, s).received == j.received || Do(j, s).received == j.received + [j.stored];
    } else if s.Take? {
      assert Do(j, s).received == j.received + [j.queues[0][0]];
    }
  }

  /** A final record is the outcome and note of the one step that ended the run; before it nothing could
      have, and afterwards the work cannot end again. */
  lemma {:induction false} FinalRecordIsTheOutcome(run: seq<Job>, steps: seq<Step>, i: nat) returns (k: nat)
    requires IsRun(run, steps) && i < |run| && Over(run[i].stored)
    ensures k < i && Ends(steps[k], run[i].stored) && Over(run[k + 1].stored) && !Over(run[k].stored)
    ensures run[k + 1].sent == run[k].sent + [run[i].stored] && run[i].sent == run[k + 1].sent
    ensures forall m :: 0 <= m < k ==> !MayEnd(steps[m])
    ensures forall m :: k < m < i ==> !steps[m].Finish? && !steps[m].Start? && !steps[m].Report?
  {
    hide Inv, Do, Enabled, QueueExists, Ends, Reports, MayEnd, EndsWith;
    var j, s := run[i - 1], steps[i - 1];
    RunsKeepInv(run, steps, i - 1);
    assert run[i - 1 + 1] == Do(j, s);
    RecordStep(j, s);
    if Over(j.stored) {
      k := FinalRecordIsTheOutcome(run, steps, i - 1);
    } else {
      k := i - 1;
      LiveRecordIsTheLastReport(run, steps, i - 1);
    }
  }

  /** Until then the record is that of the last start or report, or the one the job was made with. */
  lemma {:induction false} LiveRecordIsTheLastReport(run: seq<Job>, steps: seq<Step>, i: nat)
    requires IsRun(run, steps) && i < |run| && !Over(run[i].stored)
    ensures forall m :: 0 <= m < i ==> !MayEnd(steps[m])
    ensures || (run[i].stored == Record(Queued, 0) && run[i].sent == []
                && forall m :: 0 <= m < i ==> !steps[m].Start? && !steps[m].Report?)
            || (EndsWith(run[i].sent, run[i].stored)
                && exists k :: 0 <= k < i && Reports(steps[k], run[i].stored)
                               && forall m :: k < m < i ==> !steps[m].Start? && !steps[m].Report?)
  {
    hide Inv, Do, Enabled, QueueExists, Ends, Reports, MayEnd;
    if i > 0 {
      var j, s := run[i - 1], steps[i - 1];
      RunsKeepInv(run, steps, i - 1);
      assert run[i - 1 + 1] == Do(j, s);
      RecordStep(j, s);
      LiveRecordIsTheLastReport(run, steps, i - 1);
      if s.Start? || s.Report? {
        assert Reports(steps[i - 1], run[i].stored);
      }
    }
  }

  /** A cancel that reaches a job before its first step keeps the work from ever running: the job stays
      queued until some canceller records that it was cancelled. */
  lemma {:induction false} CancelBeforeStart(run: seq<Job>, steps: seq<Step>, k: nat, i: nat)
    requires IsRun(run, steps) && k < i < |run| && steps[k].CancelCall? && !Over(run[k].stored)
    requires forall m :: 0 <= m < k ==> !steps[m].Start?
    ensures forall m :: 0 <= m < i ==> !steps[m].Start? && !steps[m].Report? && !steps[m].Finish?
    ensures run[i].stored == Record(Queued, 0) || run[i].stored.state == Cancelled
    ensures run[i].cancelRequested && (run[i].task.NotStarted? || run[i].task.Dropped?)
    decreases i
  {
    hide Inv, Do, Enabled, QueueExists, Ends, Reports, MayEnd, EndsWith;
    RunsKeepInv(run, steps, i - 1);
    assert run[i - 1 + 1] == Do(run[i - 1], steps[i - 1]);
    if i - 1 == k {
      NothingRanYet(run, steps, k);
    } else {
      CancelBeforeStart(run, steps, k, i - 1);
    }
    TaskStep(run[i - 1], steps[i - 1]);
  }

  lemma {:induction false} NothingRanYet(run: seq<Job>, steps: seq<Step>, i: nat)
    requires IsRun(run, steps) && i < |run|
    requires forall m :: 0 <= m < i ==> !steps[m].Start?
    ensures forall m :: 0 <= m < i ==> !steps[m].Report? && !steps[m].Finish?
    ensures run[i].task.NotStarted? || (run[i].task.Dropped? && run[i].cancelRequested)
    ensures !Over(run[i].stored) ==> run[i].stored == Record(Queued, 0)
  {
    hide Inv, Do, Enabled, QueueExists, Ends, Reports, MayEnd, EndsWith;
    if i > 0 {
      NothingRanYet(run, steps, i - 1);
      RunsKeepInv(run, steps, i - 1);
      assert run[i - 1 + 1] == Do(run[i - 1], steps[i - 1]);
      TaskStep(run[i - 1], steps[i - 1]);
    }
  }

  /** The first thing a subscriber is given is the record as it stood when it subscribed. */
  lemma {:induction false} FirstEventIsTheRecord(run: seq<Job>, steps: seq<Step>, k: nat, i: nat)
    requires IsRun(run, steps) && k < i < |run| && steps[k].Subscribe?
    ensures run[i].received != [] && run[i].received[0] == run[k].stored
    decreases i
  {
    hide Inv, Do, Enabled, QueueExists;
    RunsKeepInv(run, steps, i - 1);
    assert run[i - 1 + 1] == Do(run[i - 1], steps[i - 1]);
    EventStep(run[i - 1], steps[i - 1]);
    if i - 1 > k { FirstEventIsTheRecord(run, steps, k, i - 1); }
  }

  // ------------------------------------------------------------------ liveness

  /** A subscriber blocked on an empty queue always has a live writer: the job task, or a canceller of a
      task that never started. Whichever step ends the job puts the terminal event on that very queue. */
  lemma BlockedSubscriberHasAWriter(run: seq<Job>, steps: seq<Step>, i: nat)
    requires IsRun(run, steps) && i < |run|
    requires run[i].subscriber.Listening? && |run[i].queues| >= 1 && run[i].queues[0] == []
    ensures var j, q := run[i], run[i].subscriber.queue;
            && q == 0 && j.queueOf == Some(q) && QueueExists(j)
            && (j.task.NotStarted? || j.task.Working? || (j.task.Dropped? && j.cancellers > 0))
            && forall s :: Enabled(j, s) && Terminal(Do(j, s).stored.state) ==>
                 && |Do(j, s).queues| >= 1 && Do(j, s).queues[0] == [Do(j, s).stored]
                 && QueueExists(Do(j, s)) && Enabled(Do(j, s), Take) && Do(Do(j, s), Take).subscriber.Closed?
  {
    RunsKeepInv(run, steps, i);
    var j := run[i];
    assert Live(j) by {
      if !Live(j) {
        assert j.received[1..] == j.sent;
        NoTerminalInTail(j.received);
      }
    }
    forall s | Enabled(j, s) && Terminal(Do(j, s).stored.state)
      ensures |Do(j, s).queues| >= 1 && Do(j, s).queues[0] == [Do(j, s).stored]
      ensures QueueExists(Do(j, s)) && Enabled(Do(j, s), Take) && Do(Do(j, s), Take).subscriber.Closed?
    {
    }
  }

  lemma NoTerminalInTail(events: seq<Record>)
    requires events != []
    ensures Terminals(events[1..]) <= Terminals(events)
  {
  }

  // Steps the job's own parties take without anybody calling in from outside.
  predicate CanMove(j: Job, note: int) {
    || Enabled(j, Start(note)) || Enabled(j, DropAtEntry) || Enabled(j, Finish(Completed, note))
    || Enabled(j, CancelSettle(note)) || Enabled(j, Attach) || Enabled(j, Take)
  }

  /** No lost wake-up: when nothing can move any more, the job is over, no cancel call is waiting, and
      a subscriber that ever connected has been closed with the stored terminal record. */
  lemma NoDeadlock(run: seq<Job>, steps: seq<Step>, i: nat, note: int)
    requires IsRun(run, steps) && i < |run| && !CanMove(run[i], note)
    ensures var j := run[i];
            && Terminal(j.stored.state) && j.cancellers == 0
            && (j.subscriber.Absent? || (j.subscriber.Closed? && EndsWith(j.received, j.stored)))
  {
    RunsKeepInv(run, steps, i);
    var j := run[i];
    if j.subscriber.Listening? {
      BlockedSubscriberHasAWriter(run, steps, i);
    }
  }
}
