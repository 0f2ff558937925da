/** The job manager's shared dictionaries, updated by the steps of `Jobs`
    (Coordinator/mlxbar/jobs.py, `JobManager`). */
module JobManagement {
  import opened Prelude
  import opened Jobs

  type Id = int

  class Queue {
    var items: seq<Record>
    constructor ()
      ensures items == []
    {
      items := [];
    }
  }

  /** A task object; `waiters` are the suspended `cancel` calls that wait for it. */
  class TaskHandle {
    var phase: Task
    var cancelRequested: bool
    var waiters: nat
    constructor ()
      ensures phase == NotStarted && !cancelRequested && waiters == 0
    {
      phase, cancelRequested, waiters := NotStarted, false, 0;
    }
  }

  /** The one `events` generator of a job: the state it was first given, the queue object it holds once it
      listens, and everything it has been given. */
  class Subscription {
    var seen: JobState
    var queue: Queue?
    var received: seq<Record>
    ghost var phase: Subscriber
    constructor ()
      ensures phase == Absent && received == []
    {
      phase, queue, received, seen := Absent, null, [], Queued;
    }
  }

  /** What the dictionaries alone do not remember: every queue made for a job, which of them is
      registered, and the events put on the first one. */
  datatype Ledger =
    Ledger(made: seq<Queue>, slot: Option<nat>, handle: TaskHandle, sub: Subscription, sent: seq<Record>)

  ghost function Contents(made: seq<Queue>): (r: seq<seq<Record>>)
    reads made
    ensures |r| == |made|
  {
    seq(|made|, i requires 0 <= i < |made| reads made => made[i].items)
  }

  ghost function Objects(l: Ledger): set<object> {
    (set q | q in l.made) + {l.handle, l.sub}
  }

  class JobManager {
    var database: map<Id, Record>
    var queues: map<Id, Queue>
    var tasks: map<Id, TaskHandle>
    ghost var ledger: map<Id, Ledger>

    constructor ()
      ensures Valid() && database == map[]
    {
      database, queues, tasks, ledger := map[], map[], map[], map[];
    }

    /** The state of one job, as the protocol sees it. */
    ghost function View(id: Id): Job
      requires id in database && id in ledger
      reads this, Objects(ledger[id])
    {
      var l := ledger[id];
      Job(database[id], Contents(l.made), l.slot, id in tasks,
          l.handle.phase, l.handle.cancelRequested, l.handle.waiters,
          l.sub.phase, l.sub.received, l.sent)
    }

    /** The dictionaries point at the objects of the job. */
    ghost predicate Wired(id: Id)
      requires id in ledger
      reads this, Objects(ledger[id])
    {
      var l := ledger[id];
      && (id in queues <==> l.slot.Some?)
      && (l.slot.Some? ==> l.slot.value < |l.made| && queues[id] == l.made[l.slot.value])
      && (id in tasks ==> tasks[id] == l.handle)
      && (l.sub.phase.Greeted? ==> l.sub.seen == l.sub.phase.seen)
      && (l.sub.phase.Listening? ==> l.sub.phase.queue < |l.made| && l.sub.queue == l.made[l.sub.phase.queue])
      && (forall i, j :: 0 <= i < j < |l.made| ==> l.made[i] != l.made[j])
    }

    ghost predicate Valid()
      reads this, set id, o | id in ledger && o in Objects(ledger[id]) :: o
    {
      && ledger.Keys == database.Keys && queues.Keys <= database.Keys && tasks.Keys <= database.Keys
      && (forall id :: id in ledger ==> Wired(id) && Inv(View(id)))
      && (forall a, b :: a in ledger && b in ledger && a != b ==> Objects(ledger[a]) !! Objects(ledger[b]))
    }

    /** Only entries of job `id` differ in the dictionaries. */
    twostate predicate OnlyThis(id: Id)
      reads this
    {
      && id in ledger && id in database
      && database == old(database)[id := database[id]] && ledger == old(ledger)[id := ledger[id]]
      && tasks - {id} == old(tasks) - {id} && queues - {id} == old(queues) - {id}
    }

    /** No object of another job has changed. */
    twostate predicate OthersUntouched(id: Id)
      reads this, set o, x | o in ledger && x in Objects(ledger[o]) :: x
    {
      forall o :: o in ledger && o != id && o in old(ledger) && ledger[o] == old(ledger)[o] ==> SameObjects(ledger[o])
    }

    twostate predicate SameObjects(l: Ledger)
      reads Objects(l)
    {
      && (forall q :: q in l.made ==> q.items == old(q.items))
      && l.handle.phase == old(l.handle.phase) && l.handle.cancelRequested == old(l.handle.cancelRequested)
      && l.handle.waiters == old(l.handle.waiters)
      && l.sub.phase == old(l.sub.phase) && l.sub.seen == old(l.sub.seen)
      && l.sub.queue == old(l.sub.queue) && l.sub.received == old(l.sub.received)
    }

    twostate lemma OthersKept(id: Id)
      requires old(Valid()) && OnlyThis(id) && OthersUntouched(id)
      ensures forall o :: o in ledger && o != id ==>
                o in database && o in old(database) && View(o) == old(View(o)) && Wired(o)
    {
      forall o | o in ledger && o != id ensures View(o) == old(View(o)) && Wired(o) {
        assert old(Wired(o));
        assert SameObjects(ledger[o]);
        assert Contents(ledger[o].made) == old(Contents(ledger[o].made));
        assert o in tasks <==> o in tasks - {id};
        assert o in old(tasks) <==> o in old(tasks) - {id};
        assert o in queues <==> o in queues - {id};
        assert o in old(queues) <==> o in old(queues) - {id};
      }
    }

    twostate lemma ObjectsStayApart(id: Id)
      requires old(Valid()) && OnlyThis(id)
      requires forall x :: x in Objects(ledger[id]) ==> (id in old(ledger) && x in old(Objects(ledger[id]))) || fresh(x)
      ensures forall a, b :: a in ledger && b in ledger && a != b ==> Objects(ledger[a]) !! Objects(ledger[b])
    {
      hide Wired, View, Inv;
      forall o | o in ledger && o != id ensures Objects(ledger[id]) !! Objects(ledger[o]) {
        if id in old(ledger) { assert old(Objects(ledger[id]) !! Objects(ledger[o])); }
      }
      forall a, b | a in ledger && b in ledger && a != b ensures Objects(ledger[a]) !! Objects(ledger[b]) {
        if a != id && b != id { assert old(Objects(ledger[a]) !! Objects(ledger[b])); }
      }
    }

    /** A step of one job keeps the whole manager valid. */
    twostate lemma StaysValid(id: Id)
      requires old(Valid()) && OnlyThis(id) && OthersUntouched(id)
      requires Wired(id) && Inv(View(id))
      requires forall x :: x in Objects(ledger[id]) ==> (id in old(ledger) && x in old(Objects(ledger[id]))) || fresh(x)
      ensures Valid() && database.Keys == old(database.Keys) + {id}
      ensures forall o :: o in database && o != id ==> o in old(database) && View(o) == old(View(o))
    {
      hide Wired, View, Inv, Objects, Contents;
      OthersKept(id);
      forall o | o in ledger && o != id ensures Inv(View(o)) { assert old(Inv(View(o))); }
      ObjectsStayApart(id);
      assert forall o :: o in tasks && o != id ==> o in tasks - {id};
      assert forall o :: o in queues && o != id ==> o in queues - {id};
    }

    lemma Facts(id: Id)
      requires Valid() && (id in ledger || id in database)
      ensures id in ledger && id in database && Wired(id) && Inv(View(id))
      ensures forall o :: o in ledger && o != id ==> Objects(ledger[id]) !! Objects(ledger[o])
    {
    }

    /** Puts an event on the job's registered queue, which is the first one made. */
    method PutEvent(id: Id, e: Record)
      requires id in ledger && id in queues && Wired(id) && ledger[id].slot == Some(0)
      modifies this`ledger, queues[id]
      ensures queues[id].items == old(queues[id].items) + [e]
      ensures ledger == old(ledger)[id := old(ledger[id]).(sent := old(ledger[id].sent) + [e])]
      ensures Contents(ledger[id].made) == old(Contents(ledger[id].made)[0 := Contents(ledger[id].made)[0] + [e]])
    {
      var queue := queues[id];
      queue.items := queue.items + [e];
      ghost var l := ledger[id];
      ledger := ledger[id := l.(sent := l.sent + [e])];
    }

    /** The job leaves both dictionaries; whoever holds its queue object keeps it. */
    method Retire(id: Id)
      requires id in ledger
      modifies this`tasks, this`queues, this`ledger
      ensures tasks == old(tasks) - {id} && queues == old(queues) - {id}
      ensures ledger == old(ledger)[id := old(ledger)[id].(slot := None)]
    {
      tasks := tasks - {id};
      queues := queues - {id};
      ledger := ledger[id := ledger[id].(slot := None)];
    }

    method CreateObjects(id: Id)
      requires id !in ledger
      modifies this
      ensures OnlyThis(id) && Wired(id) && View(id) == CREATED
      ensures id in queues && id in tasks && id !in old(ledger)
      ensures forall x :: x in Objects(ledger[id]) ==> fresh(x)
      ensures database == old(database)[id := Record(Queued, 0)]
      ensures tasks.Keys == old(tasks).Keys + {id} && tasks[id].phase == NotStarted && fresh(tasks[id])
      ensures queues.Keys == old(queues).Keys + {id} && queues[id].items == [] && fresh(queues[id])
    {
      database := database[id := Record(Queued, 0)];
      var queue := new Queue();
      var task := new TaskHandle();
      var sub := new Subscription();
      queues := queues[id := queue];
      tasks := tasks[id := task];
      ledger := ledger[id := Ledger([queue], Some(0), task, sub, [])];
      assert Contents([queue]) == [[]];
    }

    /** A new job with its queue and its task. */
    method Create(id: Id)
      requires Valid() && id !in database
      modifies this
      ensures Valid() && database.Keys == old(database.Keys) + {id} && View(id) == CREATED
      ensures forall o :: o in database && o != id ==> o in old(database) && View(o) == old(View(o))
      ensures database == old(database)[id := Record(Queued, 0)]
      ensures tasks.Keys == old(tasks).Keys + {id} && tasks[id].phase == NotStarted && fresh(tasks[id])
      ensures queues.Keys == old(queues).Keys + {id} && queues[id].items == [] && fresh(queues[id])
    {
      hide Inv, View, Wired, Contents;
      CreateObjects(id);
      CreatedInv();
      StaysValid(id);
    }

    method RunStartEffect(id: Id, note: int)
      requires id in ledger && id in database && Wired(id) && Inv(View(id)) && Enabled(View(id), Start(note))
      modifies this`database, this`ledger, Objects(ledger[id])
      ensures OnlyThis(id) && Wired(id)
      ensures Objects(ledger[id]) == old(Objects(ledger[id]))
      ensures QueueExists(old(View(id))) && View(id) == Do(old(View(id)), Start(note))
      ensures database == old(database)[id := Record(Running, note)] && tasks == old(tasks) && queues == old(queues)
      ensures id in queues && queues[id].items == old(queues[id].items) + [Record(Running, note)]
    {
      hide Contents, ReaderInv;
      var e := Record(Running, note);
      tasks[id].phase := Working;
      database := database[id := e];
      PutEvent(id, e);
    }

    /** The job task's first step. */
    method RunStart(id: Id, note: int)
      requires Valid() && id in database && Enabled(View(id), Start(note))
      modifies this, Objects(ledger[id])
      ensures Valid() && database.Keys == old(database.Keys)
      ensures QueueExists(old(View(id))) && View(id) == Do(old(View(id)), Start(note))
      ensures forall o :: o in database && o != id ==> o in old(database) && View(o) == old(View(o))
      ensures database == old(database)[id := Record(Running, note)] && tasks == old(tasks) && queues == old(queues)
      ensures id in queues && queues[id].items == old(queues[id].items) + [Record(Running, note)]
    {
      hide Inv, Contents, View, Wired, Do, QueueExists, Enabled;
      Facts(id);
      RunStartEffect(id, note);
      StepKept(old(View(id)), Start(note));
      StaysValid(id);
    }

    method RunReportEffect(id: Id, note: int)
      requires id in ledger && id in database && Wired(id) && Inv(View(id)) && Enabled(View(id), Report(note))
      modifies this`database, this`ledger, Objects(ledger[id])
      ensures OnlyThis(id) && Wired(id)
      ensures Objects(ledger[id]) == old(Objects(ledger[id]))
      ensures QueueExists(old(View(id))) && View(id) == Do(old(View(id)), Report(note))
      ensures database == old(database)[id := Record(Running, note)] && tasks == old(tasks) && queues == old(queues)
      ensures id in queues && queues[id].items == old(queues[id].items) + [Record(Running, note)]
    {
      hide Contents, ReaderInv;
      var e := Record(Running, note);
      database := database[id := e];
      PutEvent(id, e);
    }

    /** A progress report from the work function: its own queue is always there to take the event. */
    method RunReport(id: Id, note: int)
      requires Valid() && id in database && Enabled(View(id), Report(note))
      modifies this, Objects(ledger[id])
      ensures Valid() && database.Keys == old(database.Keys)
      ensures QueueExists(old(View(id))) && View(id) == Do(old(View(id)), Report(note))
      ensures forall o :: o in database && o != id ==> o in old(database) && View(o) == old(View(o))
      ensures database == old(database)[id := Record(Running, note)] && tasks == old(tasks) && queues == old(queues)
      ensures id in queues && queues[id].items == old(queues[id].items) + [Record(Running, note)]
    {
      hide Inv, Contents, View, Wired, Do, QueueExists, Enabled;
      Facts(id);
      RunReportEffect(id, note);
      StepKept(old(View(id)), Report(note));
      StaysValid(id);
    }

    method RunFinishEffect(id: Id, outcome: JobState, note: int)
      requires id in ledger && id in database && Wired(id) && Inv(View(id)) && Enabled(View(id), Finish(outcome, note))
      modifies this`database, this`ledger, this`tasks, this`queues, Objects(ledger[id])
      ensures OnlyThis(id) && Wired(id)
      ensures Objects(ledger[id]) == old(Objects(ledger[id]))
      ensures QueueExists(old(View(id))) && View(id) == Do(old(View(id)), Finish(outcome, note))
      ensures database == old(database)[id := Record(outcome, note)]
      ensures tasks == old(tasks) - {id} && queues == old(queues) - {id}
      ensures old(id in queues) && old(queues[id]).items == old(queues[id].items) + [Record(outcome, note)]
    {
      hide Contents, ReaderInv, Terminals;
      var e := Record(outcome, note);
      database := database[id := e];
      PutEvent(id, e);
      tasks[id].phase := Ended;
      Retire(id);
    }

    /** The work ended or was cancelled: terminal record, terminal event, then the job leaves both dictionaries. */
    method RunFinish(id: Id, outcome: JobState, note: int)
      requires Valid() && id in database && Enabled(View(id), Finish(outcome, note))
      modifies this, Objects(ledger[id])
      ensures Valid() && database.Keys == old(database.Keys)
      ensures QueueExists(old(View(id))) && View(id) == Do(old(View(id)), Finish(outcome, note))
      ensures forall o :: o in database && o != id ==> o in old(database) && View(o) == old(View(o))
      ensures database == old(database)[id := Record(outcome, note)]
      ensures tasks == old(tasks) - {id} && queues == old(queues) - {id}
      ensures old(id in queues) && old(queues[id]).items == old(queues[id].items) + [Record(outcome, note)]
    {
      hide Inv, Contents, View, Wired, Do, QueueExists, Enabled;
      Facts(id);
      RunFinishEffect(id, outcome, note);
      StepKept(old(View(id)), Finish(outcome, note));
      StaysValid(id);
    }

    method DropTaskEffect(id: Id)
      requires id in ledger && id in database && Wired(id) && Inv(View(id)) && Enabled(View(id), DropAtEntry)
      modifies this`database, this`ledger, Objects(ledger[id])
      ensures OnlyThis(id) && Wired(id)
      ensures Objects(ledger[id]) == old(Objects(ledger[id]))
      ensures QueueExists(old(View(id))) && View(id) == Do(old(View(id)), DropAtEntry)
      ensures database == old(database) && tasks == old(tasks) && queues == old(queues)
      ensures ledger[id].handle.phase == Dropped
    {
      hide Contents, ReaderInv;
      tasks[id].phase := Dropped;
    }

    /** A cancel that lands before the first step drops the job task; none of its own code runs. */
    method DropTask(id: Id)
      requires Valid() && id in database && Enabled(View(id), DropAtEntry)
      modifies this, Objects(ledger[id])
      ensures Valid() && database.Keys == old(database.Keys)
      ensures QueueExists(old(View(id))) && View(id) == Do(old(View(id)), DropAtEntry)
      ensures forall o :: o in database && o != id ==> o in old(database) && View(o) == old(View(o))
      ensures database == old(database) && tasks == old(tasks) && queues == old(queues)
      ensures ledger[id].handle.phase == Dropped
    {
      hide Inv, Contents, View, Wired, Do, QueueExists, Enabled;
      Facts(id);
      DropTaskEffect(id);
      StepKept(old(View(id)), DropAtEntry);
      StaysValid(id);
    }

    method AskCancelEffect(id: Id) returns (task: TaskHandle?)
      requires id in ledger && id in database && Wired(id) && Inv(View(id)) && Enabled(View(id), CancelCall)
      modifies Objects(ledger[id])
      ensures OnlyThis(id) && Wired(id)
      ensures Objects(ledger[id]) == old(Objects(ledger[id]))
      ensures QueueExists(old(View(id))) && View(id) == Do(old(View(id)), CancelCall)
      ensures task != null <==> old(Live(View(id)) && id in tasks)
      ensures task != null ==> task == ledger[id].handle
      ensures database == old(database) && tasks == old(tasks) && queues == old(queues)
      ensures task == null <==> id !in tasks || (database[id].state != Queued && database[id].state != Running)
      ensures task != null ==> task == tasks[id] && task.phase == old(tasks[id].phase)
      ensures task != null ==> task.waiters == old(tasks[id].waiters) + 1
      ensures task != null && (task.phase.NotStarted? || task.phase.Working?) ==> task.cancelRequested
    {
      hide Contents, ReaderInv;
      if Terminal(database[id].state) || id !in tasks { return null; }
      task := tasks[id];
      if task.phase.NotStarted? || task.phase.Working? { task.cancelRequested := true; }
      task.waiters := task.waiters + 1;
    }

    /** A cancel call up to its wait: nothing for a finished job or one without a task, else the job task is
        asked to stop. */
    method AskCancel(id: Id) returns (task: TaskHandle?)
      requires Valid() && id in database && Enabled(View(id), CancelCall)
      modifies this, Objects(ledger[id])
      ensures Valid() && database.Keys == old(database.Keys)
      ensures QueueExists(old(View(id))) && View(id) == Do(old(View(id)), CancelCall)
      ensures task != null <==> old(Live(View(id)) && id in tasks)
      ensures task != null ==> task == ledger[id].handle
      ensures forall o :: o in database && o != id ==> o in old(database) && View(o) == old(View(o))
      ensures database == old(database) && tasks == old(tasks) && queues == old(queues)
      ensures task == null <==> id !in tasks || (database[id].state != Queued && database[id].state != Running)
      ensures task != null ==> task == tasks[id] && task.phase == old(tasks[id].phase)
      ensures task != null ==> task.waiters == old(tasks[id].waiters) + 1
      ensures task != null && (task.phase.NotStarted? || task.phase.Working?) ==> task.cancelRequested
    {
      hide Inv, Contents, View, Wired, Do, QueueExists, Enabled;
      Facts(id);
      task := AskCancelEffect(id);
      StepKept(old(View(id)), CancelCall);
      StaysValid(id);
    }

    method ResumeCancelEffect(id: Id, task: TaskHandle, note: int)
      requires id in ledger && id in database && Wired(id) && Inv(View(id)) && Enabled(View(id), CancelSettle(note))
      requires task == ledger[id].handle
      modifies this`database, this`ledger, this`tasks, this`queues, Objects(ledger[id])
      ensures OnlyThis(id) && Wired(id)
      ensures Objects(ledger[id]) == old(Objects(ledger[id]))
      ensures QueueExists(old(View(id))) && View(id) == Do(old(View(id)), CancelSettle(note))
      ensures task.waiters == old(task.waiters) - 1
      ensures var found := old(database[id]);
              if found.state != Queued && found.state != Running
              then database == old(database) && tasks == old(tasks) && queues == old(queues)
              else && database == old(database)[id := Record(Cancelled, note)]
                   && tasks == old(tasks) - {id} && queues == old(queues) - {id}
                   && old(id in queues)
                   && old(queues[id]).items == old(queues[id].items) + [Record(Cancelled, note)]
    {
      hide Contents, ReaderInv, Terminals;
      task.waiters := task.waiters - 1;
      if Terminal(database[id].state) { return; }
      var e := Record(Cancelled, note);
      database := database[id := e];
      if id in queues { PutEvent(id, e); }
      Retire(id);
    }

    /** The cancel call resumes once the job task is done, and writes the terminal record if that task never did. */
    method ResumeCancel(id: Id, task: TaskHandle, note: int)
      requires Valid() && id in database && Enabled(View(id), CancelSettle(note))
      requires task == ledger[id].handle
      modifies this, Objects(ledger[id])
      ensures Valid() && database.Keys == old(database.Keys)
      ensures QueueExists(old(View(id))) && View(id) == Do(old(View(id)), CancelSettle(note))
      ensures forall o :: o in database && o != id ==> o in old(database) && View(o) == old(View(o))
      ensures task.waiters == old(task.waiters) - 1
      ensures var found := old(database[id]);
              if found.state != Queued && found.state != Running
              then database == old(database) && tasks == old(tasks) && queues == old(queues)
              else && database == old(database)[id := Record(Cancelled, note)]
                   && tasks == old(tasks) - {id} && queues == old(queues) - {id}
                   && old(id in queues)
                   && old(queues[id]).items == old(queues[id].items) + [Record(Cancelled, note)]
    {
      hide Inv, Contents, View, Wired, Do, QueueExists, Enabled;
      Facts(id);
      ResumeCancelEffect(id, task, note);
      StepKept(old(View(id)), CancelSettle(note));
      StaysValid(id);
    }

    method SubscribeEffect(id: Id, sub: Subscription)
      requires id in ledger && id in database && Wired(id) && Inv(View(id)) && Enabled(View(id), Step.Subscribe)
      requires sub == ledger[id].sub
      modifies Objects(ledger[id])
      ensures OnlyThis(id) && Wired(id)
      ensures Objects(ledger[id]) == old(Objects(ledger[id]))
      ensures QueueExists(old(View(id))) && View(id) == Do(old(View(id)), Step.Subscribe)
      ensures database == old(database) && tasks == old(tasks) && queues == old(queues)
      ensures sub.received == old(sub.received) + [database[id]] && sub.seen == database[id].state
    {
      hide Contents, ReaderInv;
      sub.seen := database[id].state;
      sub.received := sub.received + [database[id]];
      sub.phase := Greeted(sub.seen);
    }

    /** The subscriber's first event is the stored record. */
    method Subscribe(id: Id, sub: Subscription)
      requires Valid() && id in database && Enabled(View(id), Step.Subscribe)
      requires sub == ledger[id].sub
      modifies this, Objects(ledger[id])
      ensures Valid() && database.Keys == old(database.Keys)
      ensures QueueExists(old(View(id))) && View(id) == Do(old(View(id)), Step.Subscribe)
      ensures forall o :: o in database && o != id ==> o in old(database) && View(o) == old(View(o))
      ensures database == old(database) && tasks == old(tasks) && queues == old(queues)
      ensures sub.received == old(sub.received) + [database[id]] && sub.seen == database[id].state
    {
      hide Inv, Contents, View, Wired, Do, QueueExists, Enabled;
      Facts(id);
      SubscribeEffect(id, sub);
      StepKept(old(View(id)), Step.Subscribe);
      StaysValid(id);
    }

    /** The job's queue, made when the dictionary has none. */
    method QueueFor(id: Id) returns (queue: Queue)
      requires id in ledger && Wired(id)
      modifies this`queues, this`ledger
      ensures id in ledger && id in queues && queues[id] == queue
      ensures old(ledger[id].slot).Some? ==> queues == old(queues) && ledger == old(ledger)
      ensures Contents(ledger[id].made) ==
              old(Contents(ledger[id].made)) + (if old(ledger[id].slot).Some? then [] else [[]])
      ensures old(ledger[id].slot).None? ==>
        && fresh(queue) && queue.items == [] && queues == old(queues)[id := queue]
        && ledger == old(ledger)[id := old(ledger)[id].(made := old(ledger)[id].made + [queue],
                                                        slot := Some(|old(ledger)[id].made|))]
    {
      if id in queues { return queues[id]; }
      queue := new Queue();
      queues := queues[id := queue];
      ghost var l := ledger[id];
      ledger := ledger[id := l.(made := l.made + [queue], slot := Some(|l.made|))];
    }

    method DropFirst(id: Id, queue: Queue, ghost q: nat)
      requires id in ledger && Wired(id) && q < |ledger[id].made| && queue == ledger[id].made[q] && queue.items != []
      modifies queue
      ensures queue.items == old(queue.items[1..])
      ensures Contents(ledger[id].made) == old(Contents(ledger[id].made)[q := Contents(ledger[id].made)[q][1..]])
    {
      queue.items := queue.items[1..];
    }

    /** The subscriber was told of the end already. */
    method CloseUnread(id: Id, sub: Subscription)
      requires id in ledger && id in database && Wired(id) && sub == ledger[id].sub
      modifies sub`phase
      ensures Wired(id) && View(id) == old(View(id)).(subscriber := Closed) && sub.phase.Closed?
    {
      hide Contents;
      sub.phase := Closed;
    }

    /** The job's queue, as the protocol sees it made when there is none. */
    method RegisterQueue(id: Id) returns (queue: Queue)
      requires id in ledger && id in database && Wired(id)
      modifies this`queues, this`ledger
      ensures OnlyThis(id) && Wired(id) && id in queues && queue == queues[id]
      ensures ledger[id].sub == old(ledger[id].sub)
      ensures forall x :: x in Objects(ledger[id]) ==> x in old(Objects(ledger[id])) || fresh(x)
      ensures var j := old(View(id));
              View(id) == if j.queueOf.Some? then j
                          else j.(queues := j.queues + [[]], queueOf := Some(|j.queues|))
    {
      hide Contents;
      queue := QueueFor(id);
    }

    /** The record is read once more before the wait. */
    method ReadAgain(id: Id, sub: Subscription, queue: Queue)
      requires id in ledger && id in database && Wired(id) && sub == ledger[id].sub
      requires id in queues && queue == queues[id]
      modifies sub
      ensures Wired(id) && sub.seen == old(sub.seen)
      ensures var j := old(View(id));
              View(id) == if Terminal(j.stored.state)
                          then j.(subscriber := Closed, received := j.received + [j.stored])
                          else j.(subscriber := Listening(j.queueOf.value))
      ensures Terminal(database[id].state) ==> sub.phase.Closed? && sub.received == old(sub.received) + [database[id]]
      ensures !Terminal(database[id].state) ==> sub.phase.Listening? && sub.received == old(sub.received)
                                                && sub.queue == queue
    {
      hide Contents;
      if Terminal(database[id].state) {
        sub.received := sub.received + [database[id]];
        sub.phase := Closed;
      } else {
        sub.queue := queue;
        sub.phase := Listening(ledger[id].slot.value);
      }
    }

    method AttachEffect(id: Id, sub: Subscription)
      requires id in ledger && id in database && Wired(id) && Inv(View(id)) && Enabled(View(id), Step.Attach)
      requires sub == ledger[id].sub
      modifies this`queues, this`ledger, Objects(ledger[id])
      ensures OnlyThis(id) && Wired(id)
      ensures forall x :: x in Objects(ledger[id]) ==> x in old(Objects(ledger[id])) || fresh(x)
      ensures QueueExists(old(View(id))) && View(id) == Do(old(View(id)), Step.Attach)
      ensures database == old(database) && tasks == old(tasks)
      ensures var greeted := old(sub.seen) == Queued || old(sub.seen) == Running;
              var over := database[id].state != Queued && database[id].state != Running;
              && (sub.phase.Closed? <==> !greeted || over)
              && sub.received == old(sub.received) + (if greeted && over then [database[id]] else [])
              && (greeted && !over ==> id in queues && sub.queue == queues[id])
    {
      hide Contents, Inv, Terminals;
      if Terminal(sub.seen) {
        CloseUnread(id, sub);
        return;
      }
      var queue := RegisterQueue(id);
      ReadAgain(id, sub, queue);
    }

    /** The subscriber takes the registered queue, or registers one, and looks at the record again before it waits. */
    method Attach(id: Id, sub: Subscription)
      requires Valid() && id in database && Enabled(View(id), Step.Attach)
      requires sub == ledger[id].sub
      modifies this, Objects(ledger[id])
      ensures Valid() && database.Keys == old(database.Keys)
      ensures QueueExists(old(View(id))) && View(id) == Do(old(View(id)), Step.Attach)
      ensures forall o :: o in database && o != id ==> o in old(database) && View(o) == old(View(o))
      ensures database == old(database) && tasks == old(tasks)
      ensures var greeted := old(sub.seen) == Queued || old(sub.seen) == Running;
              var over := database[id].state != Queued && database[id].state != Running;
              && (sub.phase.Closed? <==> !greeted || over)
              && sub.received == old(sub.received) + (if greeted && over then [database[id]] else [])
              && (greeted && !over ==> id in queues && sub.queue == queues[id])
    {
      hide Inv, Contents, View, Wired, Do, QueueExists, Enabled;
      Facts(id);
      AttachEffect(id, sub);
      StepKept(old(View(id)), Step.Attach);
      StaysValid(id);
    }

    method TakeEffect(id: Id, sub: Subscription)
      requires id in ledger && id in database && Wired(id) && Inv(View(id)) && Enabled(View(id), Step.Take)
      requires sub == ledger[id].sub
      modifies Objects(ledger[id])
      ensures OnlyThis(id) && Wired(id)
      ensures Objects(ledger[id]) == old(Objects(ledger[id]))
      ensures QueueExists(old(View(id))) && View(id) == Do(old(View(id)), Step.Take)
      ensures database == old(database) && tasks == old(tasks) && queues == old(queues)
      ensures sub.queue != null && sub.queue == old(sub.queue) && old(sub.queue.items) != []
      ensures sub.received == old(sub.received) + [old(sub.queue.items[0])]
      ensures sub.queue.items == old(sub.queue.items[1..])
      ensures var last := old(sub.queue.items[0].state);
              sub.phase.Closed? <==> last != Queued && last != Running
    {
      hide ReaderInv, Terminals;
      var e := sub.queue.items[0];
      DropFirst(id, sub.queue, sub.phase.queue);
      sub.received := sub.received + [e];
      if Terminal(e.state) { sub.phase := Closed; }
    }

    /** The subscriber takes the next event; a terminal one is its last. */
    method Take(id: Id, sub: Subscription)
      requires Valid() && id in database && Enabled(View(id), Step.Take)
      requires sub == ledger[id].sub
      modifies this, Objects(ledger[id])
      ensures Valid() && database.Keys == old(database.Keys)
      ensures QueueExists(old(View(id))) && View(id) == Do(old(View(id)), Step.Take)
      ensures forall o :: o in database && o != id ==> o in old(database) && View(o) == old(View(o))
      ensures database == old(database) && tasks == old(tasks) && queues == old(queues)
      ensures sub.queue != null && sub.queue == old(sub.queue) && old(sub.queue.items) != []
      ensures sub.received == old(sub.received) + [old(sub.queue.items[0])]
      ensures sub.queue.items == old(sub.queue.items[1..])
      ensures var last := old(sub.queue.items[0].state);
              sub.phase.Closed? <==> last != Queued && last != Running
    {
      hide Inv, Contents, View, Wired, Do, QueueExists, Enabled;
      Facts(id);
      TakeEffect(id, sub);
      StepKept(old(View(id)), Step.Take);
      StaysValid(id);
    }
  }

  lemma CreatedInv()
    ensures Inv(CREATED)
  {
  }

  lemma StepKept(j: Job, s: Step)
    requires Inv(j) && Enabled(j, s)
    ensures QueueExists(j) && Inv(Do(j, s))
  {
    WriterStep(j, s);
    ReaderStep(j, s);
  }
}
