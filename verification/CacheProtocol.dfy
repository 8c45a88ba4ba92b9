/**
 * Readers and the single fetch worker around the document cache (pkiclient/cache.go).  Each
 * section under the cache's lock is one step; a reader's miss and its enqueue, and the worker's
 * take, check, fetch, insert and answer, are separate steps that interleave freely.
 */
module CacheProtocol {
  import opened Basics
  import opened DocCache

  /** What a fetch operation is answered with. */
  datatype Value = Failed(err: nat) | Halted | Got(entry: Entry)

  datatype Phase = FastHit(entry: Entry) | Missed | Queued | Answered(v: Value)

  /** One GetDoc call; a call is named by its position in the state's list of calls. */
  datatype Call = Call(epoch: Epoch, phase: Phase)

  datatype Worker =
    | Idle | Checking(op: nat) | Fetching(op: nat) | Inserting(op: nat, entry: Entry)
    | Answering(op: nat, v: Value) | Stopped

  datatype Event =
    | Start(epoch: Epoch)            // GetDoc's fast path
    | Enqueue(op: nat)
    | TakeOp
    | Check
    | FetchFails(err: nat)
    | FetchGives(entry: Entry)
    | DoInsert
    | Answer
    | Halt
    | DrainOne

  datatype State = State(
    cache: Contents, touched: seq<Epoch>, calls: seq<Call>, queue: seq<nat>, worker: Worker,
    enqueued: seq<nat>, answered: seq<nat>)

  const Init := State(Empty, [], [], [], Idle, [], [])

  function Touch(st: State, epoch: Epoch): State
    requires epoch in st.cache.docs
  {
    st.(cache := Hit(st.cache, epoch), touched := st.touched + [epoch])
  }

  function Mark(st: State, op: nat, phase: Phase): State
    requires op < |st.calls|
  {
    st.(calls := st.calls[op := st.calls[op].(phase := phase)])
  }

  function Finish(st: State, op: nat, v: Value): State
    requires op < |st.calls|
  {
    Mark(st, op, Answered(v)).(answered := st.answered + [op])
  }

  /** A step that is not enabled changes nothing; the backing never answers for another epoch. */
  function Step(st: State, ev: Event, max: nat, backlog: nat): State {
    match ev
    case Start(epoch) =>
      if epoch in st.cache.docs then
        Touch(st, epoch).(calls := st.calls + [Call(epoch, FastHit(st.cache.docs[epoch].entry))])
      else st.(calls := st.calls + [Call(epoch, Missed)])
    case Enqueue(op) =>
      if op < |st.calls| && st.calls[op].phase == Missed && |st.queue| < backlog then
        Mark(st, op, Queued).(queue := st.queue + [op], enqueued := st.enqueued + [op])
      else st
    case TakeOp =>
      if st.worker == Idle && st.queue != [] then st.(worker := Checking(st.queue[0]), queue := st.queue[1..]) else st
    case Check =>
      if st.worker.Checking? && st.worker.op < |st.calls| then
        var op := st.worker.op;
        var epoch := st.calls[op].epoch;
        if epoch in st.cache.docs then
          Touch(st, epoch).(worker := Answering(op, Got(st.cache.docs[epoch].entry)))
        else st.(worker := Fetching(op))
      else st
    case FetchFails(err) =>
      if st.worker.Fetching? then st.(worker := Answering(st.worker.op, Failed(err))) else st
    case FetchGives(entry) =>
      if st.worker.Fetching? && st.worker.op < |st.calls| && entry.epoch == st.calls[st.worker.op].epoch then
        st.(worker := Inserting(st.worker.op, entry))
      else st
    case DoInsert =>
      if st.worker.Inserting? then
        st.(cache := Insert(st.cache, st.worker.entry, max), touched := st.touched + [st.worker.entry.epoch],
            worker := Answering(st.worker.op, Got(st.worker.entry)))
      else st
    case Answer =>
      if st.worker.Answering? && st.worker.op < |st.calls| then
        Finish(st, st.worker.op, st.worker.v).(worker := Idle)
      else st
    case Halt => if st.worker == Idle then st.(worker := Stopped) else st
    case DrainOne =>
      if st.worker == Stopped && st.queue != [] && st.queue[0] < |st.calls| then
        Finish(st, st.queue[0], Halted).(queue := st.queue[1..])
      else st
  }

  function Run(evs: seq<Event>, max: nat, backlog: nat): State {
    if evs == [] then Init else Step(Run(evs[..|evs| - 1], max, backlog), evs[|evs| - 1], max, backlog)
  }

  // ----- the cache half of the invariant

  /** The operation the worker has taken off the queue and not yet answered. */
  function InHand(w: Worker): seq<nat> {
    if w.Idle? || w.Stopped? then [] else [w.op]
  }

  ghost predicate CacheOk(st: State, max: nat) {
    && Agree(st.cache)
    && |st.cache.lru| <= max
    && Order(st.cache) == Take(Recency(st.touched), max)
  }

  lemma TouchOk(st: State, epoch: Epoch, max: nat)
    requires CacheOk(st, max) && epoch in st.cache.docs && max >= 1
    ensures CacheOk(Touch(st, epoch), max)
  {
    HitOrder(st.cache, epoch);
    HitAgrees(st.cache, epoch);
    RecencyMembers(st.touched);
    CutThenTouch(Recency(st.touched), epoch, max);
    assert (st.touched + [epoch])[..|st.touched|] == st.touched;
  }

  lemma InsertOk(st: State, entry: Entry, max: nat)
    requires CacheOk(st, max) && entry.epoch !in st.cache.docs && max >= 1
    ensures CacheOk(st.(cache := Insert(st.cache, entry, max), touched := st.touched + [entry.epoch]), max)
  {
    InsertNew(st.cache, entry, max);
    RecencyMembers(st.touched);
    assert entry.epoch !in Order(st.cache) by {
      forall i | 0 <= i < |st.cache.lru| ensures Order(st.cache)[i] != entry.epoch {
        assert st.cache.lru[i] in st.cache.lru;
      }
    }
    RemoveAbsent(Order(st.cache), entry.epoch);
    CutThenTouch(Recency(st.touched), entry.epoch, max);
    assert (st.touched + [entry.epoch])[..|st.touched|] == st.touched;
  }

  // ----- the protocol half

  ghost predicate CallOk(c: Call) {
    match c.phase
    case FastHit(entry) => entry.epoch == c.epoch
    case Answered(Got(entry)) => entry.epoch == c.epoch
    case _ => true
  }

  /** The worker only fetches epochs that are not cached, and only it could cache them. */
  ghost predicate WorkerOk(st: State) {
    match st.worker
    case Fetching(op) => op < |st.calls| && st.calls[op].epoch !in st.cache.docs
    case Inserting(op, entry) => op < |st.calls| && entry.epoch == st.calls[op].epoch && entry.epoch !in st.cache.docs
    case Answering(op, Got(entry)) => op < |st.calls| && entry.epoch == st.calls[op].epoch
    case _ => true
  }

  ghost predicate OpsOk(st: State) {
    && st.enqueued == st.answered + InHand(st.worker) + st.queue
    && NoDuplicates(st.enqueued)
    && CallsOk(st.calls, st.enqueued, st.answered)
  }

  ghost predicate CallsOk(calls: seq<Call>, enqueued: seq<nat>, answered: seq<nat>) {
    && (forall op :: op in enqueued ==> op < |calls|)
    && (forall op :: op in enqueued ==> (calls[op].phase.Answered? <==> op in answered))
    && (forall op :: 0 <= op < |calls| ==>
                       (op in enqueued <==> calls[op].phase.Queued? || calls[op].phase.Answered?))
    && (forall op :: 0 <= op < |calls| ==> CallOk(calls[op]))
  }

  ghost predicate Inv(st: State, max: nat) {
    CacheOk(st, max) && WorkerOk(st) && OpsOk(st)
  }

  /** The first operation not answered yet, in what has been enqueued. */
  lemma NextUnanswered(enqueued: seq<nat>, answered: seq<nat>, rest: seq<nat>)
    requires enqueued == answered + rest && rest != [] && NoDuplicates(enqueued)
    ensures enqueued == answered + [rest[0]] + rest[1..]
    ensures rest[0] in enqueued && rest[0] !in answered
  {
    NoDuplicatesPrefix(answered, enqueued);
    assert enqueued[|answered|] == rest[0];
  }

  lemma CallsAnswered(calls: seq<Call>, enqueued: seq<nat>, answered: seq<nat>, op: nat, v: Value)
    requires CallsOk(calls, enqueued, answered) && op in enqueued && op < |calls|
    requires v.Got? ==> v.entry.epoch == calls[op].epoch
    ensures CallsOk(calls[op := calls[op].(phase := Answered(v))], enqueued, answered + [op])
  {
    forall x ensures x in answered + [op] <==> x in answered || x == op {}
  }

  lemma FinishOk(st: State, op: nat, v: Value, st': State)
    requires OpsOk(st)
    requires InHand(st.worker) + st.queue != [] && op == (InHand(st.worker) + st.queue)[0]
    requires op < |st.calls| && (v.Got? ==> v.entry.epoch == st.calls[op].epoch)
    requires st'.calls == Mark(st, op, Answered(v)).calls && st'.answered == st.answered + [op]
    requires st'.enqueued == st.enqueued
    requires InHand(st'.worker) + st'.queue == (InHand(st.worker) + st.queue)[1..]
    ensures OpsOk(st')
  {
    var rest := InHand(st.worker) + st.queue;
    assert st.enqueued == st.answered + rest;
    NextUnanswered(st.enqueued, st.answered, rest);
    CallsAnswered(st.calls, st.enqueued, st.answered, op, v);
    assert st'.enqueued == st'.answered + (InHand(st'.worker) + st'.queue);
  }

  lemma EnqueueOk(st: State, op: nat)
    requires OpsOk(st) && op < |st.calls| && st.calls[op].phase == Missed
    ensures OpsOk(Mark(st, op, Queued).(queue := st.queue + [op], enqueued := st.enqueued + [op]))
  {
    assert op !in st.enqueued;
    assert forall x :: x in st.enqueued + [op] <==> x in st.enqueued || x == op;
    assert forall x :: x in st.answered ==> x in st.enqueued;
  }

  lemma StartOk(st: State, c: Call)
    requires OpsOk(st) && (c.phase.Missed? || (c.phase.FastHit? && c.phase.entry.epoch == c.epoch))
    ensures OpsOk(st.(calls := st.calls + [c]))
  {
  }

  lemma TakeOk(st: State)
    requires OpsOk(st) && st.worker == Idle && st.queue != []
    ensures OpsOk(st.(worker := Checking(st.queue[0]), queue := st.queue[1..]))
  {
    assert [st.queue[0]] + st.queue[1..] == st.queue;
  }

  /** Steps that neither take, answer nor add an operation leave the bookkeeping alone. */
  lemma SameOps(st: State, st': State)
    requires OpsOk(st)
    requires st'.calls == st.calls && st'.queue == st.queue && InHand(st'.worker) == InHand(st.worker)
    requires st'.enqueued == st.enqueued && st'.answered == st.answered
    ensures OpsOk(st')
  {
  }

  lemma InHandIsCall(st: State)
    requires OpsOk(st) && InHand(st.worker) != []
    ensures st.worker.op < |st.calls|
  {
    assert st.enqueued[|st.answered|] == st.worker.op;
    assert st.worker.op in st.enqueued;
  }

  lemma StartKeepsInv(st: State, epoch: Epoch, max: nat, backlog: nat)
    requires Inv(st, max) && max >= 1
    ensures Inv(Step(st, Start(epoch), max, backlog), max)
  {
    if epoch in st.cache.docs {
      TouchOk(st, epoch, max);
      StartOk(st, Call(epoch, FastHit(st.cache.docs[epoch].entry)));
    } else {
      StartOk(st, Call(epoch, Missed));
    }
  }

  lemma CheckKeepsInv(st: State, max: nat, backlog: nat)
    requires Inv(st, max) && max >= 1 && st.worker.Checking?
    ensures Inv(Step(st, Check, max, backlog), max)
  {
    InHandIsCall(st);
    var op, st' := st.worker.op, Step(st, Check, max, backlog);
    var epoch := st.calls[op].epoch;
    SameOps(st, st');
    if epoch in st.cache.docs {
      TouchOk(st, epoch, max);
      assert st.cache.docs[epoch].entry.epoch == epoch;
      assert st'.worker == Answering(op, Got(st.cache.docs[epoch].entry)) && CacheOk(st', max);
    } else {
      assert st' == st.(worker := Fetching(op));
    }
  }

  lemma FinishKeepsInv(st: State, ev: Event, max: nat, backlog: nat)
    requires Inv(st, max) && max >= 1
    requires (ev == Answer && st.worker.Answering?) || (ev == DrainOne && st.worker == Stopped && st.queue != [])
    ensures Inv(Step(st, ev, max, backlog), max)
  {
    if ev == Answer {
      InHandIsCall(st);
      FinishOk(st, st.worker.op, st.worker.v, Step(st, ev, max, backlog));
    } else {
      assert st.queue[0] in st.enqueued;
      FinishOk(st, st.queue[0], Halted, Step(st, ev, max, backlog));
    }
  }

  lemma StepKeepsInv(st: State, ev: Event, max: nat, backlog: nat)
    requires Inv(st, max) && max >= 1
    ensures Inv(Step(st, ev, max, backlog), max)
  {
    var st' := Step(st, ev, max, backlog);
    if st' != st {
      match ev
      case Start(epoch) => StartKeepsInv(st, epoch, max, backlog);
      case Enqueue(op) => EnqueueOk(st, op);
      case TakeOp => TakeOk(st);
      case Check => CheckKeepsInv(st, max, backlog);
      case FetchFails(err) => SameOps(st, st');
      case FetchGives(entry) => SameOps(st, st');
      case DoInsert =>
        InsertOk(st, st.worker.entry, max);
        SameOps(st, st');
      case Answer => FinishKeepsInv(st, ev, max, backlog);
      case Halt => SameOps(st, st');
      case DrainOne => FinishKeepsInv(st, ev, max, backlog);
    }
  }

  lemma {:induction false} RunKeepsInv(evs: seq<Event>, max: nat, backlog: nat)
    requires max >= 1
    ensures Inv(Run(evs, max, backlog), max)
  {
    if evs != [] {
      RunKeepsInv(evs[..|evs| - 1], max, backlog);
      StepKeepsInv(Run(evs[..|evs| - 1], max, backlog), evs[|evs| - 1], max, backlog);
    }
  }

  // ----- main results

  /** The uses of the cache, read off the events: hits of readers and worker, and insertions. */
  function Touched(evs: seq<Event>, max: nat, backlog: nat): seq<Epoch> {
    if evs == [] then []
    else
      var n := |evs| - 1;
      var st := Run(evs[..n], max, backlog);
      Touched(evs[..n], max, backlog) + TouchedBy(st, evs[n])
  }

  function TouchedBy(st: State, ev: Event): seq<Epoch> {
    match ev
    case Start(epoch) => if epoch in st.cache.docs then [epoch] else []
    case Check =>
      if st.worker.Checking? && st.worker.op < |st.calls| && st.calls[st.worker.op].epoch in st.cache.docs
      then [st.calls[st.worker.op].epoch] else []
    case DoInsert => if st.worker.Inserting? then [st.worker.entry.epoch] else []
    case _ => []
  }

  lemma StepTouches(st: State, ev: Event, max: nat, backlog: nat)
    ensures Step(st, ev, max, backlog).touched == st.touched + TouchedBy(st, ev)
  {
  }

  lemma {:induction false} TouchedIs(evs: seq<Event>, max: nat, backlog: nat)
    ensures Run(evs, max, backlog).touched == Touched(evs, max, backlog)
  {
    if evs != [] {
      TouchedIs(evs[..|evs| - 1], max, backlog);
      StepTouches(Run(evs[..|evs| - 1], max, backlog), evs[|evs| - 1], max, backlog);
    }
  }

  /**
   * After any interleaving of readers and worker, the cache's list is exactly the `max` most
   * recently used of all epochs ever used, and map and list hold the same epochs.
   */
  lemma LruRefinement(evs: seq<Event>, max: nat, backlog: nat)
    requires max >= 1
    ensures var st := Run(evs, max, backlog);
            && Order(st.cache) == Take(Recency(Touched(evs, max, backlog)), max)
            && NoDuplicates(Order(st.cache))
            && (forall e :: e in st.cache.docs <==> e in Order(st.cache))
            && (forall e :: e in Recency(Touched(evs, max, backlog)) <==> e in Touched(evs, max, backlog))
  {
    RunKeepsInv(evs, max, backlog);
    TouchedIs(evs, max, backlog);
    var st := Run(evs, max, backlog);
    RecencyMembers(st.touched);
    forall e ensures e in st.cache.docs <==> e in Order(st.cache) {
      if e in st.cache.docs {
        var i := Locate(st.cache, e);
      }
      if e in Order(st.cache) {
        var i :| 0 <= i < |st.cache.lru| && Order(st.cache)[i] == e;
        assert st.cache.lru[i] in st.cache.lru;
      }
    }
  }

  /**
   * Operations are answered in queue order and each exactly once: an operation is answered if and
   * only if it has left both the queue and the worker's hand, and an entry it is answered with is
   * for its own epoch.
   */
  lemma AnsweredExactlyOnce(evs: seq<Event>, max: nat, backlog: nat)
    requires max >= 1
    ensures var st := Run(evs, max, backlog);
            && st.enqueued == st.answered + InHand(st.worker) + st.queue
            && NoDuplicates(st.enqueued)
            && (forall op :: 0 <= op < |st.calls| ==> (st.calls[op].phase.Answered? <==> op in st.answered))
            && (forall op :: 0 <= op < |st.calls| ==> CallOk(st.calls[op]))
  {
    RunKeepsInv(evs, max, backlog);
    var st := Run(evs, max, backlog);
    forall op | 0 <= op < |st.calls| ensures st.calls[op].phase.Answered? <==> op in st.answered {
      if op in st.answered { assert op in st.enqueued; }
    }
  }

  // ----- which answer

  /** What each operation is to be answered with, read off the events of its own check, fetch or draining. */
  function Due(evs: seq<Event>, max: nat, backlog: nat): map<nat, Value> {
    if evs == [] then map[]
    else
      var n := |evs| - 1;
      DueStep(Run(evs[..n], max, backlog), evs[n], Due(evs[..n], max, backlog))
  }

  function DueStep(st: State, ev: Event, due: map<nat, Value>): map<nat, Value> {
    match ev
    case Check =>
      if st.worker.Checking? && st.worker.op < |st.calls| && st.calls[st.worker.op].epoch in st.cache.docs
      then due[st.worker.op := Got(st.cache.docs[st.calls[st.worker.op].epoch].entry)] else due
    case FetchGives(entry) =>
      if st.worker.Fetching? && st.worker.op < |st.calls| && entry.epoch == st.calls[st.worker.op].epoch
      then due[st.worker.op := Got(entry)] else due
    case FetchFails(err) => if st.worker.Fetching? then due[st.worker.op := Failed(err)] else due
    case DrainOne => if st.worker == Stopped && st.queue != [] then due[st.queue[0] := Halted] else due
    case _ => due
  }

  /** What is due to the operation in hand. */
  ghost predicate HandOk(st: State, due: map<nat, Value>) {
    match st.worker
    case Checking(op) => op !in due
    case Fetching(op) => op !in due
    case Inserting(op, entry) => op in due && due[op] == Got(entry)
    case Answering(op, v) => op in due && due[op] == v
    case _ => true
  }

  ghost predicate AnsweredAsDue(calls: seq<Call>, due: map<nat, Value>) {
    forall op :: 0 <= op < |calls| && calls[op].phase.Answered? ==> op in due && due[op] == calls[op].phase.v
  }

  ghost predicate DueOk(st: State, due: map<nat, Value>) {
    && HandOk(st, due)
    && AnsweredAsDue(st.calls, due)
    && (forall op :: op in due ==> op in st.answered || op in InHand(st.worker))
  }

  lemma HandNotQueued(st: State)
    requires OpsOk(st)
    ensures forall op :: op in st.queue ==> op !in InHand(st.worker)
  {
    if InHand(st.worker) != [] {
      var n, h := |st.answered|, st.worker.op;
      forall k | 0 <= k < |st.queue| ensures st.queue[k] != h {
        assert st.enqueued[n] == h && st.enqueued[n + 1 + k] == st.queue[k];
      }
    }
  }

  /** What has been enqueued and not yet come to the worker's hand has not been answered. */
  lemma QueuedNotAnswered(st: State, op: nat)
    requires OpsOk(st) && op in InHand(st.worker) + st.queue
    ensures op !in st.answered && op in st.enqueued && op < |st.calls|
    ensures op in st.queue ==> op !in InHand(st.worker)
  {
    HandNotQueued(st);
    var rest := InHand(st.worker) + st.queue;
    assert st.enqueued == st.answered + rest;
    NoDuplicatesPrefix(st.answered, st.enqueued);
    var i :| 0 <= i < |rest| && rest[i] == op;
    assert st.enqueued[|st.answered| + i] == op;
  }

  lemma CallsKeepDue(calls: seq<Call>, due: map<nat, Value>, op: nat, c: Call)
    requires AnsweredAsDue(calls, due) && op < |calls|
    requires c.phase.Answered? ==> op in due && due[op] == c.phase.v
    ensures AnsweredAsDue(calls[op := c], due)
  {
  }

  lemma StartKeepsDue(st: State, epoch: Epoch, max: nat, backlog: nat, due: map<nat, Value>)
    requires DueOk(st, due)
    ensures DueOk(Step(st, Start(epoch), max, backlog), due)
  {
  }

  lemma EnqueueKeepsDue(st: State, op: nat, max: nat, backlog: nat, due: map<nat, Value>)
    requires DueOk(st, due)
    ensures DueOk(Step(st, Enqueue(op), max, backlog), due)
  {
    if op < |st.calls| { CallsKeepDue(st.calls, due, op, st.calls[op].(phase := Queued)); }
  }

  lemma TakeKeepsDue(st: State, max: nat, backlog: nat, due: map<nat, Value>)
    requires OpsOk(st) && DueOk(st, due)
    ensures DueOk(Step(st, TakeOp, max, backlog), due)
  {
    if st.worker == Idle && st.queue != [] { QueuedNotAnswered(st, st.queue[0]); }
  }

  lemma InsertKeepsDue(st: State, max: nat, backlog: nat, due: map<nat, Value>)
    requires DueOk(st, due)
    ensures DueOk(Step(st, DoInsert, max, backlog), due)
  {
  }

  /** The check or the fetch of the operation in hand settles its answer. */
  lemma SettlingKeepsDue(st: State, ev: Event, max: nat, backlog: nat, due: map<nat, Value>)
    requires OpsOk(st) && DueOk(st, due) && (ev.Check? || ev.FetchGives? || ev.FetchFails?)
    ensures DueOk(Step(st, ev, max, backlog), DueStep(st, ev, due))
  {
    if st.worker.Checking? || st.worker.Fetching? {
      QueuedNotAnswered(st, st.worker.op);
      assert !st.calls[st.worker.op].phase.Answered?;
    }
  }

  lemma AnsweringKeepsDue(st: State, max: nat, backlog: nat, due: map<nat, Value>)
    requires OpsOk(st) && DueOk(st, due)
    ensures DueOk(Step(st, Answer, max, backlog), due)
  {
    if st.worker.Answering? && st.worker.op < |st.calls| {
      CallsKeepDue(st.calls, due, st.worker.op, st.calls[st.worker.op].(phase := Answered(st.worker.v)));
    }
  }

  lemma DrainingKeepsDue(st: State, max: nat, backlog: nat, due: map<nat, Value>)
    requires OpsOk(st) && DueOk(st, due)
    ensures DueOk(Step(st, DrainOne, max, backlog), DueStep(st, DrainOne, due))
  {
    if st.worker == Stopped && st.queue != [] {
      var op := st.queue[0];
      QueuedNotAnswered(st, op);
      var due' := due[op := Halted];
      assert AnsweredAsDue(st.calls, due');
      CallsKeepDue(st.calls, due', op, st.calls[op].(phase := Answered(Halted)));
    }
  }

  lemma StepKeepsDue(st: State, ev: Event, max: nat, backlog: nat, due: map<nat, Value>)
    requires OpsOk(st) && DueOk(st, due)
    ensures DueOk(Step(st, ev, max, backlog), DueStep(st, ev, due))
  {
    match ev
    case Check => SettlingKeepsDue(st, ev, max, backlog, due);
    case FetchGives(_) => SettlingKeepsDue(st, ev, max, backlog, due);
    case FetchFails(_) => SettlingKeepsDue(st, ev, max, backlog, due);
    case Answer => AnsweringKeepsDue(st, max, backlog, due);
    case DrainOne => DrainingKeepsDue(st, max, backlog, due);
    case Start(epoch) => StartKeepsDue(st, epoch, max, backlog, due);
    case Enqueue(op) => EnqueueKeepsDue(st, op, max, backlog, due);
    case TakeOp => TakeKeepsDue(st, max, backlog, due);
    case DoInsert => InsertKeepsDue(st, max, backlog, due);
    case Halt =>
  }

  lemma {:induction false} RunKeepsDue(evs: seq<Event>, max: nat, backlog: nat)
    requires max >= 1
    ensures DueOk(Run(evs, max, backlog), Due(evs, max, backlog))
  {
    if evs != [] {
      var n := |evs| - 1;
      RunKeepsDue(evs[..n], max, backlog);
      RunKeepsInv(evs[..n], max, backlog);
      StepKeepsDue(Run(evs[..n], max, backlog), evs[n], max, backlog, Due(evs[..n], max, backlog));
    }
  }

  /** Once settled, an answer is not settled again. */
  lemma SettledOnce(st: State, ev: Event, due: map<nat, Value>, op: nat)
    requires OpsOk(st) && DueOk(st, due) && op in due
    ensures op in DueStep(st, ev, due) && DueStep(st, ev, due)[op] == due[op]
  {
    if ev.DrainOne? && st.worker == Stopped && st.queue != [] { QueuedNotAnswered(st, st.queue[0]); }
  }

  /**
   * Over every run, and once only for each operation: it is answered with the cached entry if its
   * check hit, with the fetched entry or the error of its own fetch otherwise, and with "halted"
   * only if it was drained.
   */
  lemma AnswersAreDue(evs: seq<Event>, ev: Event, max: nat, backlog: nat)
    requires max >= 1
    ensures var st, due := Run(evs, max, backlog), Due(evs, max, backlog);
            && (forall op :: 0 <= op < |st.calls| && st.calls[op].phase.Answered? ==>
                               op in due && st.calls[op].phase.v == due[op])
            && (st.worker.Answering? ==> st.worker.op in due && st.worker.v == due[st.worker.op])
            && (forall op :: op in due ==>
                               op in Due(evs + [ev], max, backlog) && Due(evs + [ev], max, backlog)[op] == due[op])
  {
    RunKeepsDue(evs, max, backlog);
    RunKeepsInv(evs, max, backlog);
    assert (evs + [ev])[..|evs|] == evs;
    forall op | op in Due(evs, max, backlog)
      ensures op in Due(evs + [ev], max, backlog) && Due(evs + [ev], max, backlog)[op] == Due(evs, max, backlog)[op]
    {
      SettledOnce(Run(evs, max, backlog), ev, Due(evs, max, backlog), op);
    }
  }

  lemma FetchSteps(st: State, op: nat, entry: Entry, max: nat, backlog: nat)
    requires Agree(st.cache) && |st.cache.lru| <= max && max >= 1 && entry.epoch !in st.cache.docs
    requires st.worker == Fetching(op) && op < |st.calls| && entry.epoch == st.calls[op].epoch
    ensures var st1 := Step(Step(st, FetchGives(entry), max, backlog), DoInsert, max, backlog);
            && entry.epoch in st1.cache.docs && st1.cache.docs[entry.epoch].entry == entry
            && st1.worker == Answering(op, Got(entry)) && st1.calls == st.calls
  {
    InsertNew(st.cache, entry, max);
  }

  lemma AnswerStep(st: State, op: nat, v: Value, max: nat, backlog: nat)
    requires st.worker == Answering(op, v) && op < |st.calls|
    ensures var st1 := Step(st, Answer, max, backlog);
            st1.worker == Idle && st1.calls == st.calls[op := Call(st.calls[op].epoch, Answered(v))]
  {
  }

  /** A fetched document is cached and handed to the caller that asked for it. */
  lemma FetchIsAnswered(evs: seq<Event>, op: nat, entry: Entry, max: nat, backlog: nat)
    requires var st := Run(evs, max, backlog);
             max >= 1 && st.worker == Fetching(op) && op < |st.calls| && entry.epoch == st.calls[op].epoch
    ensures var st := Run(evs, max, backlog);
            var st1 := Step(Step(st, FetchGives(entry), max, backlog), DoInsert, max, backlog);
            var st2 := Step(st1, Answer, max, backlog);
            && entry.epoch in st1.cache.docs && st1.cache.docs[entry.epoch].entry == entry
            && st2.worker == Idle && st2.calls == st.calls[op := Call(entry.epoch, Answered(Got(entry)))]
  {
    RunKeepsInv(evs, max, backlog);
    var st := Run(evs, max, backlog);
    FetchSteps(st, op, entry, max, backlog);
    AnswerStep(Step(Step(st, FetchGives(entry), max, backlog), DoInsert, max, backlog), op, Got(entry), max, backlog);
  }

  /** A lookup is served from the cache exactly if the epoch is cached, with the cached entry. */
  lemma FastPath(st: State, epoch: Epoch, max: nat, backlog: nat)
    ensures Step(st, Start(epoch), max, backlog).calls == st.calls +
            [Call(epoch, if epoch in st.cache.docs then FastHit(st.cache.docs[epoch].entry) else Missed)]
  {
  }

  /** A miss is queued while there is room, and the worker takes, checks and fetches in turn. */
  lemma QueueSteps(st: State, op: nat, err: nat, max: nat, backlog: nat)
    ensures op < |st.calls| && st.calls[op].phase == Missed && |st.queue| < backlog ==>
              var st' := Step(st, Enqueue(op), max, backlog);
              st'.queue == st.queue + [op] && st'.calls == st.calls[op := Call(st.calls[op].epoch, Queued)]
    ensures st.worker == Idle && st.queue != [] ==>
              var st' := Step(st, TakeOp, max, backlog);
              st'.worker == Checking(st.queue[0]) && st'.queue == st.queue[1..]
    ensures st.worker == Checking(op) && op < |st.calls| && st.calls[op].epoch !in st.cache.docs ==>
              Step(st, Check, max, backlog).worker == Fetching(op)
    ensures st.worker == Checking(op) && op < |st.calls| && st.calls[op].epoch in st.cache.docs ==>
              Step(st, Check, max, backlog).worker == Answering(op, Got(st.cache.docs[st.calls[op].epoch].entry))
    ensures st.worker == Fetching(op) ==> Step(st, FetchFails(err), max, backlog).worker == Answering(op, Failed(err))
  {
  }

  // ----- agreement with the backing

  /** The backing's successful answers never change: for each epoch there is one document. */
  ghost predicate Stable(evs: seq<Event>, truth: Epoch -> Entry) {
    forall i :: 0 <= i < |evs| && evs[i].FetchGives? ==> evs[i].entry == truth(evs[i].entry.epoch)
  }

  ghost predicate Faithful(st: State, truth: Epoch -> Entry) {
    && TrueDocs(st.cache, truth)
    && (st.worker.Inserting? ==> st.worker.entry == truth(st.worker.entry.epoch))
    && (st.worker.Answering? && st.worker.v.Got? ==> st.worker.v.entry == truth(st.worker.v.entry.epoch))
    && AllServed(st.calls, truth)
  }

  ghost predicate AllServed(calls: seq<Call>, truth: Epoch -> Entry) {
    forall i :: 0 <= i < |calls| ==> Served(calls[i], truth)
  }

  /** A call that returned a document returned the backing's document for its epoch. */
  ghost predicate Served(c: Call, truth: Epoch -> Entry) {
    match c.phase
    case FastHit(entry) => entry == truth(c.epoch)
    case Answered(Got(entry)) => entry == truth(c.epoch)
    case _ => true
  }

  lemma ServeOne(calls: seq<Call>, truth: Epoch -> Entry, op: nat, c: Call)
    requires AllServed(calls, truth) && op < |calls| && Served(c, truth)
    ensures AllServed(calls[op := c], truth)
  {
  }

  /** A reader's steps. */
  lemma ReaderKeepsFaithful(st: State, ev: Event, max: nat, backlog: nat, truth: Epoch -> Entry)
    requires Inv(st, max) && Faithful(st, truth) && (ev.Start? || ev.Enqueue?)
    ensures Faithful(Step(st, ev, max, backlog), truth)
  {
    if ev.Enqueue? && ev.op < |st.calls| {
      ServeOne(st.calls, truth, ev.op, st.calls[ev.op].(phase := Queued));
    }
  }

  /** An operation is answered, by the worker or on halting. */
  lemma FinishKeepsFaithful(st: State, ev: Event, max: nat, backlog: nat, truth: Epoch -> Entry)
    requires Inv(st, max) && Faithful(st, truth) && (ev.Answer? || ev.DrainOne?)
    ensures Faithful(Step(st, ev, max, backlog), truth)
  {
    if ev.Answer? && st.worker.Answering? && st.worker.op < |st.calls| {
      ServeOne(st.calls, truth, st.worker.op, st.calls[st.worker.op].(phase := Answered(st.worker.v)));
    }
    if ev.DrainOne? && st.queue != [] && st.queue[0] < |st.calls| {
      ServeOne(st.calls, truth, st.queue[0], st.calls[st.queue[0]].(phase := Answered(Halted)));
    }
  }

  ghost predicate TrueDocs(c: Contents, truth: Epoch -> Entry) {
    forall k :: k in c.docs ==> c.docs[k].entry == truth(k)
  }

  lemma InsertKeepsTruth(c: Contents, entry: Entry, max: nat, truth: Epoch -> Entry)
    requires Agree(c) && |c.lru| <= max && max >= 1 && entry.epoch !in c.docs
    requires TrueDocs(c, truth) && entry == truth(entry.epoch)
    ensures TrueDocs(Insert(c, entry, max), truth)
  {
    InsertNew(c, entry, max);
    var r := Insert(c, entry, max);
    forall k | k in r.docs ensures r.docs[k].entry == truth(k) {
      if k != entry.epoch { assert r.docs[k] == c.docs[k]; }
    }
  }

  lemma InsertKeepsFaithful(st: State, max: nat, backlog: nat, truth: Epoch -> Entry)
    requires Agree(st.cache) && |st.cache.lru| <= max && max >= 1 && Faithful(st, truth)
    requires st.worker.Inserting? && st.worker.entry.epoch !in st.cache.docs
    ensures Faithful(Step(st, DoInsert, max, backlog), truth)
  {
    InsertKeepsTruth(st.cache, st.worker.entry, max, truth);
  }

  lemma StepKeepsFaithful(st: State, ev: Event, max: nat, backlog: nat, truth: Epoch -> Entry)
    requires Inv(st, max) && max >= 1 && Faithful(st, truth)
    requires ev.FetchGives? ==> ev.entry == truth(ev.entry.epoch)
    ensures Faithful(Step(st, ev, max, backlog), truth)
  {
    match ev
    case Start(_) => ReaderKeepsFaithful(st, ev, max, backlog, truth);
    case Enqueue(_) => ReaderKeepsFaithful(st, ev, max, backlog, truth);
    case Answer => FinishKeepsFaithful(st, ev, max, backlog, truth);
    case DrainOne => FinishKeepsFaithful(st, ev, max, backlog, truth);
    case DoInsert => if st.worker.Inserting? { InsertKeepsFaithful(st, max, backlog, truth); }
    case _ =>
  }

  /** With a stable backing, every successful GetDoc returns what the backing would return. */
  lemma {:induction false} CacheIsTransparent(evs: seq<Event>, max: nat, backlog: nat, truth: Epoch -> Entry)
    requires max >= 1 && Stable(evs, truth)
    ensures Faithful(Run(evs, max, backlog), truth)
  {
    if evs != [] {
      var n := |evs| - 1;
      assert forall i :: 0 <= i < n ==> evs[..n][i] == evs[i];
      CacheIsTransparent(evs[..n], max, backlog, truth);
      RunKeepsInv(evs[..n], max, backlog);
      StepKeepsFaithful(Run(evs[..n], max, backlog), evs[n], max, backlog, truth);
    }
  }

  // ----- the same protocol over the cache object

  /** One step taken on the cache object: every lookup and insertion is its own. */
  method StepOnCache(c: Cache, st: State, ev: Event, backlog: nat) returns (next: State)
    requires c.State() == st.cache
    modifies c
    ensures next == Step(st, ev, c.max, backlog)
    ensures c.State() == next.cache
  {
    next := st;
    match ev {
      case Start(epoch) =>
        var d := c.CacheGet(epoch);
        next := if d.None? then st.(calls := st.calls + [Call(epoch, Missed)])
                else Touch(st, epoch).(calls := st.calls + [Call(epoch, FastHit(d.value))]);
      case Check =>
        if st.worker.Checking? && st.worker.op < |st.calls| {
          var op := st.worker.op;
          var d := c.CacheGet(st.calls[op].epoch);
          next := if d.None? then st.(worker := Fetching(op))
                  else Touch(st, st.calls[op].epoch).(worker := Answering(op, Got(d.value)));
        }
      case DoInsert =>
        if st.worker.Inserting? {
          var entry := st.worker.entry;
          c.InsertLRU(entry);
          next := st.(cache := Insert(st.cache, entry, c.max), touched := st.touched + [entry.epoch],
                      worker := Answering(st.worker.op, Got(entry)));
        }
      case _ => next := Step(st, ev, c.max, backlog);
    }
  }

  /** Readers and worker driven over the cache object, in any interleaving, reach the model's state. */
  method RunOnCache(evs: seq<Event>, max: nat, backlog: nat) returns (st: State, docs: map<Epoch, Element>, lru: seq<Element>)
    ensures st == Run(evs, max, backlog)
    ensures docs == st.cache.docs && lru == st.cache.lru
  {
    var c := new Cache(max);
    st := Init;
    for n := 0 to |evs|
      invariant fresh(c) && c.max == max && c.State() == st.cache
      invariant st == Run(evs[..n], max, backlog)
    {
      assert evs[..n + 1][..n] == evs[..n];
      st := StepOnCache(c, st, evs[n], backlog);
    }
    assert evs[..|evs|] == evs;
    docs, lru := c.docs, c.lru;
  }
}
