/**
 * Sending user messages (send.go, worker.go): callers push onto the egress queue while the
 * session worker peeks, sends and pops.  One mutex-protected section is one step, so pushes may
 * land between the worker's two peeks, its send and its pop.  Blocking callers register a wait
 * channel, push, and wait for exactly one sent-or-failed signal.
 */
module Egress {
  import opened Basics
  import opened EgressQueue

  type MsgId = nat

  datatype Message = Message(id: MsgId, blocking: bool)

  /** What a blocking caller is doing; an id without a phase has no registered wait channel. */
  datatype Phase = Registered | Waiting | Signaled(ok: bool)

  /** Outcome of one doSend call: no SURB ID could be drawn, or the send ran and succeeded or failed. */
  datatype Attempt = Attempt(msg: Message, surbDrawn: bool, sendOk: bool)

  /** Where the worker is inside sendFromQueueOrDecoy and sendNext. */
  datatype Pc = Idle | Peeked | Holding(msg: Message) | Finished(msg: Message)

  datatype Event =
    | Enqueue(id: MsgId)
    | BlockStart(id: MsgId)
    | BlockPush(id: MsgId)
    | BlockReturn(id: MsgId)
    | Worker(surbDrawn: bool, sendOk: bool)

  datatype State = State(
    queue: seq<Message>,
    pc: Pc,
    callers: map<MsgId, Phase>,
    used: set<MsgId>,
    accepted: seq<Message>,
    sent: seq<Attempt>,
    popped: seq<Message>,
    signals: seq<MsgId>,
    fatals: nat)

  const Init := State([], Idle, map[], {}, [], [], [], [], 0)

  function Accept(st: State, m: Message): State {
    st.(queue := st.queue + [m], accepted := st.accepted + [m])
  }

  function DoSend(st: State, m: Message, surbDrawn: bool, sendOk: bool): State {
    var done := st.(pc := Finished(m), sent := st.sent + [Attempt(m, surbDrawn, sendOk)]);
    if !surbDrawn || !m.blocking then done
    else if m.id in st.callers then
      done.(callers := st.callers[m.id := Signaled(sendOk)], signals := st.signals + [m.id])
    else done.(fatals := st.fatals + 1)
  }

  function WorkerStep(st: State, surbDrawn: bool, sendOk: bool): State {
    match st.pc
    case Idle => if st.queue == [] then st else st.(pc := Peeked)
    case Peeked =>
      if st.queue == [] then st.(pc := Idle, fatals := st.fatals + 1) else st.(pc := Holding(st.queue[0]))
    case Holding(m) => DoSend(st, m, surbDrawn, sendOk)
    case Finished(_) =>
      if st.queue == [] then st.(pc := Idle, fatals := st.fatals + 1)
      else st.(pc := Idle, queue := st.queue[1..], popped := st.popped + [st.queue[0]])
  }

  /** Message IDs are drawn at random; a repeated ID of a blocking call is excluded, as a stutter. */
  function Step(cap: nat, st: State, ev: Event): State {
    match ev
    case Enqueue(id) => if |st.queue| < cap then Accept(st, Message(id, false)) else st
    case BlockStart(id) =>
      if id in st.used then st else st.(callers := st.callers[id := Registered], used := st.used + {id})
    case BlockPush(id) =>
      if id !in st.callers || st.callers[id] != Registered then st
      else if |st.queue| < cap then Accept(st, Message(id, true)).(callers := st.callers[id := Waiting])
      else st.(callers := st.callers - {id})
    case BlockReturn(id) =>
      if id in st.callers && st.callers[id].Signaled? then st.(callers := st.callers - {id}) else st
    case Worker(surbDrawn, sendOk) => WorkerStep(st, surbDrawn, sendOk)
  }

  function Run(cap: nat, start: State, evs: seq<Event>): State {
    if evs == [] then start else Step(cap, Run(cap, start, evs[..|evs| - 1]), evs[|evs| - 1])
  }

  // ----- what every interleaving keeps

  function Messages(sent: seq<Attempt>): (ms: seq<Message>)
    ensures |ms| == |sent|
  {
    seq(|sent|, i requires 0 <= i < |sent| => sent[i].msg)
  }

  /** The blocking messages whose doSend got past the SURB ID draw, in send order. */
  function SignalsDue(sent: seq<Attempt>): seq<MsgId> {
    if sent == [] then []
    else
      var a := sent[|sent| - 1];
      SignalsDue(sent[..|sent| - 1]) + if a.surbDrawn && a.msg.blocking then [a.msg.id] else []
  }

  predicate BlockingIdsDistinct(ms: seq<Message>) {
    forall i, j :: 0 <= i < j < |ms| && ms[i].blocking && ms[j].blocking ==> ms[i].id != ms[j].id
  }

  /** The message the worker has sent but not yet popped. */
  function InHand(st: State): seq<Message> {
    if st.pc.Finished? then [st.pc.msg] else []
  }

  predicate AwaitsSend(st: State, m: Message) {
    m.blocking ==> m.id in st.callers && st.callers[m.id] == Waiting
  }

  ghost predicate CallersOk(st: State) {
    && st.callers.Keys <= st.used
    && (forall m :: m in st.accepted && m.blocking ==> m.id in st.used)
    && (forall m :: m in st.accepted && m.blocking && m.id in st.callers ==> st.callers[m.id] != Registered)
    && (forall i :: |InHand(st)| <= i < |st.queue| ==> AwaitsSend(st, st.queue[i]))
  }

  ghost predicate Inv(st: State) {
    && st.fatals == 0
    && st.accepted == st.popped + st.queue
    && Messages(st.sent) == st.popped + InHand(st)
    && (st.pc != Idle ==> st.queue != [])
    && (st.pc.Holding? || st.pc.Finished? ==> st.pc.msg == st.queue[0])
    && st.signals == SignalsDue(st.sent)
    && BlockingIdsDistinct(st.accepted)
    && CallersOk(st)
  }

  lemma AcceptDistinct(accepted: seq<Message>, m: Message)
    requires BlockingIdsDistinct(accepted)
    requires m.blocking ==> forall x :: x in accepted && x.blocking ==> x.id != m.id
    ensures BlockingIdsDistinct(accepted + [m])
  {
    assert forall i :: 0 <= i < |accepted| ==> accepted[i] in accepted;
  }

  lemma AcceptKeepsWaiting(st: State, m: Message, callers: map<MsgId, Phase>, i: nat)
    requires Inv(st) && |InHand(st)| <= i < |st.queue|
    requires callers == if m.blocking then st.callers[m.id := Waiting] else st.callers
    ensures AwaitsSend(st.(callers := callers), st.queue[i])
  {
    assert AwaitsSend(st, st.queue[i]);
  }

  lemma AcceptKeepsCallers(st: State, m: Message)
    requires Inv(st)
    requires !m.blocking || (m.id in st.callers && st.callers[m.id] == Registered)
    ensures CallersOk(Accept(st, m).(callers := if m.blocking then st.callers[m.id := Waiting] else st.callers))
  {
    var st' := Accept(st, m).(callers := if m.blocking then st.callers[m.id := Waiting] else st.callers);
    forall x | x in st'.accepted && x.blocking
      ensures x.id in st'.used && (x.id in st'.callers ==> st'.callers[x.id] != Registered)
    {
      assert x in st.accepted || x == m;
    }
    forall i | |InHand(st')| <= i < |st'.queue| ensures AwaitsSend(st', st'.queue[i]) {
      if i < |st.queue| { AcceptKeepsWaiting(st, m, st'.callers, i); }
    }
  }

  lemma AcceptKeepsInv(st: State, m: Message)
    requires Inv(st)
    requires !m.blocking || (m.id in st.callers && st.callers[m.id] == Registered)
    ensures Inv(Accept(st, m).(callers := if m.blocking then st.callers[m.id := Waiting] else st.callers))
  {
    AcceptDistinct(st.accepted, m);
    AcceptKeepsCallers(st, m);
    assert st.accepted + [m] == st.popped + (st.queue + [m]);
  }

  lemma MessagesSnoc(sent: seq<Attempt>, a: Attempt)
    ensures Messages(sent + [a]) == Messages(sent) + [a.msg]
    ensures SignalsDue(sent + [a]) == SignalsDue(sent) + if a.surbDrawn && a.msg.blocking then [a.msg.id] else []
  {
    assert (sent + [a])[..|sent|] == sent;
  }

  /** Later messages in the queue have other IDs than the one sent. */
  lemma QueuedApart(st: State, i: nat)
    requires Inv(st) && 1 <= i < |st.queue| && st.queue[0].blocking && st.queue[i].blocking
    ensures st.queue[i].id != st.queue[0].id
  {
    assert st.accepted[|st.popped|] == st.queue[0] && st.accepted[|st.popped| + i] == st.queue[i];
  }

  lemma DoSendKeepsCallers(st: State, m: Message, surbDrawn: bool, sendOk: bool)
    requires Inv(st) && st.pc == Holding(m)
    ensures CallersOk(DoSend(st, m, surbDrawn, sendOk)) && DoSend(st, m, surbDrawn, sendOk).fatals == 0
  {
    var st' := DoSend(st, m, surbDrawn, sendOk);
    assert AwaitsSend(st, st.queue[0]);
    forall i | 1 <= i < |st.queue| ensures AwaitsSend(st', st.queue[i]) {
      assert AwaitsSend(st, st.queue[i]);
      if m.blocking && st.queue[i].blocking { QueuedApart(st, i); }
    }
  }

  lemma DoSendKeepsInv(st: State, m: Message, surbDrawn: bool, sendOk: bool)
    requires Inv(st) && st.pc == Holding(m)
    ensures Inv(DoSend(st, m, surbDrawn, sendOk))
  {
    DoSendKeepsCallers(st, m, surbDrawn, sendOk);
    MessagesSnoc(st.sent, Attempt(m, surbDrawn, sendOk));
    assert AwaitsSend(st, st.queue[0]);
  }

  lemma PopKeepsInv(st: State)
    requires Inv(st) && st.pc.Finished?
    ensures Inv(WorkerStep(st, true, true))
  {
    var st' := WorkerStep(st, true, true);
    assert st'.accepted == st'.popped + st'.queue;
    forall i | 0 <= i < |st'.queue| ensures AwaitsSend(st', st'.queue[i]) {
      assert AwaitsSend(st, st.queue[i + 1]);
    }
  }

  lemma WorkerKeepsInv(st: State, surbDrawn: bool, sendOk: bool)
    requires Inv(st)
    ensures Inv(WorkerStep(st, surbDrawn, sendOk))
  {
    match st.pc
    case Idle => assert forall i :: 0 <= i < |st.queue| ==> AwaitsSend(st, st.queue[i]);
    case Peeked => assert forall i :: 0 <= i < |st.queue| ==> AwaitsSend(st, st.queue[i]);
    case Holding(m) => DoSendKeepsInv(st, m, surbDrawn, sendOk);
    case Finished(_) => PopKeepsInv(st);
  }

  /** Callers may change as long as those whose message is still to be sent keep waiting. */
  lemma CallersChange(st: State, callers: map<MsgId, Phase>, used: set<MsgId>)
    requires Inv(st) && callers.Keys <= used && st.used <= used
    requires forall m :: m in st.accepted && m.blocking && m.id in callers ==> callers[m.id] != Registered
    requires forall id :: id in st.callers && st.callers[id] == Waiting ==> id in callers && callers[id] == Waiting
    ensures Inv(st.(callers := callers, used := used))
  {
    var st' := st.(callers := callers, used := used);
    forall i | |InHand(st)| <= i < |st.queue| ensures AwaitsSend(st', st.queue[i]) { assert AwaitsSend(st, st.queue[i]); }
  }

  lemma BlockStartKeepsInv(cap: nat, st: State, id: MsgId)
    requires Inv(st) && id !in st.used
    ensures Inv(Step(cap, st, BlockStart(id)))
  {
    CallersChange(st, st.callers[id := Registered], st.used + {id});
  }

  lemma CallerLeaves(st: State, id: MsgId)
    requires Inv(st) && id in st.callers && st.callers[id] != Waiting
    ensures Inv(st.(callers := st.callers - {id}))
  {
    CallersChange(st, st.callers - {id}, st.used);
  }

  lemma BlockPushKeepsInv(cap: nat, st: State, id: MsgId)
    requires Inv(st) && id in st.callers && st.callers[id] == Registered
    ensures Inv(Step(cap, st, BlockPush(id)))
  {
    if |st.queue| < cap { AcceptKeepsInv(st, Message(id, true)); } else { CallerLeaves(st, id); }
  }

  lemma EnqueueKeepsInv(cap: nat, st: State, id: MsgId)
    requires Inv(st)
    ensures Inv(Step(cap, st, Enqueue(id)))
  {
    if |st.queue| < cap { AcceptKeepsInv(st, Message(id, false)); }
  }

  lemma StepKeepsInv(cap: nat, st: State, ev: Event)
    requires Inv(st)
    ensures Inv(Step(cap, st, ev))
  {
    match ev
    case Enqueue(id) => EnqueueKeepsInv(cap, st, id);
    case BlockStart(id) =>
      if id !in st.used { BlockStartKeepsInv(cap, st, id); }
    case BlockPush(id) =>
      if id in st.callers && st.callers[id] == Registered { BlockPushKeepsInv(cap, st, id); }
    case BlockReturn(id) =>
      if id in st.callers && st.callers[id].Signaled? { CallerLeaves(st, id); }
    case Worker(surbDrawn, sendOk) => WorkerKeepsInv(st, surbDrawn, sendOk);
  }

  lemma {:induction false} RunKeepsInv(cap: nat, start: State, evs: seq<Event>)
    requires Inv(start)
    ensures Inv(Run(cap, start, evs))
  {
    if evs != [] {
      RunKeepsInv(cap, start, evs[..|evs| - 1]);
      StepKeepsInv(cap, Run(cap, start, evs[..|evs| - 1]), evs[|evs| - 1]);
    }
  }

  /**
   * Messages go out in push order, each accepted message at most once and none skipped; the
   * "impossible failure" branches (empty Peek or Pop, missing wait channel) are never taken.
   */
  lemma SentInPushOrder(cap: nat, evs: seq<Event>)
    ensures var st := Run(cap, Init, evs);
            && st.fatals == 0
            && Messages(st.sent) <= st.accepted
            && st.popped <= Messages(st.sent)
            && |st.sent| <= |st.popped| + 1
            && st.accepted == st.popped + st.queue
  {
    RunKeepsInv(cap, Init, evs);
    SentInOrder(Run(cap, Init, evs));
  }

  lemma SentInOrder(st: State)
    requires Inv(st)
    ensures Messages(st.sent) <= st.accepted && st.popped <= Messages(st.sent) && |st.sent| <= |st.popped| + 1
  {
    SentIsPrefix(st.popped, st.queue, InHand(st));
  }

  lemma SentIsPrefix(popped: seq<Message>, queue: seq<Message>, inHand: seq<Message>)
    requires inHand <= queue
    ensures popped + inHand <= popped + queue
  {
  }

  lemma {:induction false} SignalsDueAreSent(sent: seq<Attempt>)
    requires BlockingIdsDistinct(Messages(sent))
    ensures NoDuplicates(SignalsDue(sent))
    ensures forall id :: id in SignalsDue(sent) <==>
                           exists i :: 0 <= i < |sent| && sent[i].surbDrawn && sent[i].msg == Message(id, true)
  {
    if sent != [] {
      var n := |sent| - 1;
      var front := sent[..n];
      var a := sent[n];
      assert Messages(front) == Messages(sent)[..n];
      SignalsDueAreSent(front);
      forall id ensures id in SignalsDue(sent) <==>
                          exists i :: 0 <= i < |sent| && sent[i].surbDrawn && sent[i].msg == Message(id, true)
      {
        if exists i :: 0 <= i < |sent| && sent[i].surbDrawn && sent[i].msg == Message(id, true) {
          var i :| 0 <= i < |sent| && sent[i].surbDrawn && sent[i].msg == Message(id, true);
          if i < n {
            assert front[i] == sent[i];
            assert id in SignalsDue(front);
          } else {
            assert a.msg == Message(id, true);
          }
        }
        if id in SignalsDue(front) {
          var i :| 0 <= i < |front| && front[i].surbDrawn && front[i].msg == Message(id, true);
          assert sent[i] == front[i];
        }
      }
      forall i | 0 <= i < n && a.msg.blocking ensures front[i].msg != a.msg {
        assert Messages(sent)[i] == front[i].msg && Messages(sent)[n] == a.msg;
      }
    }
  }

  /**
   * No blocking caller is signalled twice, and it is signalled at all exactly when the worker has
   * run doSend on its message and a SURB ID could be drawn.
   */
  lemma SignalledExactlyOnce(cap: nat, evs: seq<Event>, id: MsgId)
    ensures var st := Run(cap, Init, evs);
            && NoDuplicates(st.signals)
            && (id in st.signals <==>
                exists i :: 0 <= i < |st.sent| && st.sent[i].surbDrawn && st.sent[i].msg == Message(id, true))
  {
    RunKeepsInv(cap, Init, evs);
    SignalsInOrder(Run(cap, Init, evs));
  }

  lemma SignalsInOrder(st: State)
    requires Inv(st)
    ensures NoDuplicates(st.signals)
    ensures forall id :: id in st.signals <==>
                           exists i :: 0 <= i < |st.sent| && st.sent[i].surbDrawn && st.sent[i].msg == Message(id, true)
  {
    SentInOrder(st);
    PrefixDistinct(Messages(st.sent), st.accepted);
    SignalsDueAreSent(st.sent);
  }

  lemma PrefixDistinct(prefix: seq<Message>, ms: seq<Message>)
    requires prefix <= ms && BlockingIdsDistinct(ms)
    ensures BlockingIdsDistinct(prefix)
  {
  }

  // ----- what single steps do

  /** A message is accepted exactly if there is room, and a blocking caller that is refused goes away. */
  lemma PushEffect(cap: nat, st: State, id: MsgId)
    ensures var st' := Step(cap, st, Enqueue(id));
            if |st.queue| < cap
            then st' == st.(queue := st.queue + [Message(id, false)], accepted := st.accepted + [Message(id, false)])
            else st' == st
    ensures id in st.callers && st.callers[id] == Registered ==>
              var st' := Step(cap, st, BlockPush(id));
              if |st.queue| < cap
              then st'.queue == st.queue + [Message(id, true)] && st'.callers == st.callers[id := Waiting]
              else st'.queue == st.queue && st'.callers == st.callers - {id}
    ensures id !in st.used ==> Step(cap, st, BlockStart(id)).callers == st.callers[id := Registered]
  {
  }

  lemma PeekTwice(st: State, surbDrawn: bool, sendOk: bool)
    requires st.pc == Idle && st.queue != []
    ensures WorkerStep(WorkerStep(st, surbDrawn, sendOk), surbDrawn, sendOk) == st.(pc := Holding(st.queue[0]))
  {
  }

  lemma SendThenPop(st: State, m: Message, surbDrawn: bool, sendOk: bool)
    requires st.pc == Holding(m) && st.queue != [] && (m.blocking ==> m.id in st.callers)
    ensures var st' := WorkerStep(WorkerStep(st, surbDrawn, sendOk), surbDrawn, sendOk);
            && st'.pc == Idle && st'.queue == st.queue[1..]
            && st'.sent == st.sent + [Attempt(m, surbDrawn, sendOk)] && st'.popped == st.popped + [st.queue[0]]
            && st'.callers == (if surbDrawn && m.blocking then st.callers[m.id := Signaled(sendOk)] else st.callers)
  {
  }

  /**
   * Left alone, the worker peeks, sends and pops the oldest message, and tells its caller, if that
   * one blocks and a SURB ID was drawn, how the send ended.
   */
  lemma WorkerRound(st: State, surbDrawn: bool, sendOk: bool)
    requires Inv(st) && st.pc == Idle && st.queue != []
    ensures var m, held := st.queue[0], WorkerStep(WorkerStep(st, surbDrawn, sendOk), surbDrawn, sendOk);
            var st' := WorkerStep(WorkerStep(held, surbDrawn, sendOk), surbDrawn, sendOk);
            && st'.pc == Idle && st'.queue == st.queue[1..]
            && st'.sent == st.sent + [Attempt(m, surbDrawn, sendOk)] && st'.popped == st.popped + [m]
            && st'.callers == (if surbDrawn && m.blocking then st.callers[m.id := Signaled(sendOk)] else st.callers)
  {
    assert AwaitsSend(st, st.queue[0]);
    PeekTwice(st, surbDrawn, sendOk);
    SendThenPop(st.(pc := Holding(st.queue[0])), st.queue[0], surbDrawn, sendOk);
  }

  /** A caller has been told the outcome of the send of its own message. */
  ghost predicate ToldTheTruth(sent: seq<Attempt>, id: MsgId, ok: bool) {
    exists i :: 0 <= i < |sent| && sent[i] == Attempt(Message(id, true), true, ok)
  }

  ghost predicate SignalsTrue(st: State) {
    forall id :: id in st.callers && st.callers[id].Signaled? ==> ToldTheTruth(st.sent, id, st.callers[id].ok)
  }

  lemma ToldSnoc(sent: seq<Attempt>, a: Attempt, id: MsgId, ok: bool)
    requires ToldTheTruth(sent, id, ok) || a == Attempt(Message(id, true), true, ok)
    ensures ToldTheTruth(sent + [a], id, ok)
  {
    if ToldTheTruth(sent, id, ok) {
      var i :| 0 <= i < |sent| && sent[i] == Attempt(Message(id, true), true, ok);
      assert (sent + [a])[i] == sent[i];
    } else {
      assert (sent + [a])[|sent|] == a;
    }
  }

  lemma DoSendKeepsTruth(st: State, m: Message, surbDrawn: bool, sendOk: bool)
    requires SignalsTrue(st)
    ensures SignalsTrue(DoSend(st, m, surbDrawn, sendOk))
  {
    var st' := DoSend(st, m, surbDrawn, sendOk);
    forall id | id in st'.callers && st'.callers[id].Signaled? ensures ToldTheTruth(st'.sent, id, st'.callers[id].ok) {
      ToldSnoc(st.sent, Attempt(m, surbDrawn, sendOk), id, st'.callers[id].ok);
    }
  }

  lemma StepKeepsTruth(cap: nat, st: State, ev: Event)
    requires SignalsTrue(st)
    ensures SignalsTrue(Step(cap, st, ev))
  {
    if ev.Worker? && st.pc.Holding? { DoSendKeepsTruth(st, st.pc.msg, ev.surbDrawn, ev.sendOk); }
  }

  lemma {:induction false} RunKeepsTruth(cap: nat, evs: seq<Event>)
    ensures SignalsTrue(Run(cap, Init, evs))
  {
    if evs != [] {
      RunKeepsTruth(cap, evs[..|evs| - 1]);
      StepKeepsTruth(cap, Run(cap, Init, evs[..|evs| - 1]), evs[|evs| - 1]);
    }
  }

  /** Over every run: a blocking caller is told that its send succeeded or failed as it did. */
  lemma SignalIsTrue(cap: nat, evs: seq<Event>, id: MsgId)
    requires var st := Run(cap, Init, evs);
             id in st.callers && st.callers[id].Signaled?
    ensures var st := Run(cap, Init, evs);
            exists i :: 0 <= i < |st.sent| && st.sent[i] == Attempt(Message(id, true), true, st.callers[id].ok)
  {
    RunKeepsTruth(cap, evs);
    assert ToldTheTruth(Run(cap, Init, evs).sent, id, Run(cap, Init, evs).callers[id].ok);
  }

  // ----- the same protocol over the ring buffer

  /** One step taken on the ring: every Peek, Push and Pop is the ring buffer's own. */
  method StepOnRing(q: Queue<Message>, st: State, ev: Event) returns (next: State)
    requires q.Valid() && q.Contents() == st.queue
    modifies q, q.content
    ensures q.Valid()
    ensures next == Step(q.content.Length, st, ev)
    ensures q.Contents() == next.queue
  {
    next := st;
    match ev {
      case Enqueue(id) =>
        var m := Message(id, false);
        var ok := q.Push(m);
        if ok { next := Accept(st, m); }
      case BlockStart(id) =>
        if id !in st.used {
          next := st.(callers := st.callers[id := Registered], used := st.used + {id});
        }
      case BlockPush(id) =>
        if id in st.callers && st.callers[id] == Registered {
          var m := Message(id, true);
          var ok := q.Push(m);
          next := if ok then Accept(st, m).(callers := st.callers[id := Waiting])
                  else st.(callers := st.callers - {id});
        }
      case BlockReturn(id) =>
        if id in st.callers && st.callers[id].Signaled? {
          next := st.(callers := st.callers - {id});
        }
      case Worker(surbDrawn, sendOk) =>
        match st.pc {
          case Idle =>
            var item := q.Peek();
            if item.Some? { next := st.(pc := Peeked); }
          case Peeked =>
            var item := q.Peek();
            next := if item.None? then st.(pc := Idle, fatals := st.fatals + 1) else st.(pc := Holding(item.value));
          case Holding(m) =>
            next := DoSend(st, m, surbDrawn, sendOk);
          case Finished(_) =>
            var item := q.Pop();
            next := if item.None? then st.(pc := Idle, fatals := st.fatals + 1)
                    else st.(pc := Idle, queue := st.queue[1..], popped := st.popped + [item.value]);
        }
    }
  }

  lemma MoveHead(items: seq<Message>, left: seq<Message>)
    requires left != []
    ensures items + [left[0]] + left[1..] == items + left
  {
  }

  method Drain(q: Queue<Message>) returns (items: seq<Message>)
    requires q.Valid()
    modifies q, q.content
    ensures q.Valid() && q.Contents() == []
    ensures items == old(q.Contents())
  {
    items := [];
    ghost var all, left := q.Contents(), q.Contents();
    while q.len > 0
      invariant q.Valid() && q.Contents() == left && items + left == all
      decreases q.len
    {
      MoveHead(items, left);
      var head := q.Pop();
      assert head == Some(left[0]);
      items, left := items + [head.value], left[1..];
    }
  }

  /**
   * The worker and its callers driven over the real ring buffer reach, for every capacity and
   * every interleaving, exactly the state they reach over an ideal bounded FIFO; `left` is what
   * the ring still holds when it is drained afterwards.
   */
  method RunOnRing(cap: nat, evs: seq<Event>) returns (st: State, left: seq<Message>)
    ensures st == Run(cap, Init, evs)
    ensures left == st.queue
  {
    var q := new Queue<Message>(cap, Message(0, false));
    st := Init;
    for n := 0 to |evs|
      invariant q.Valid() && fresh(q) && fresh(q.content) && q.content.Length == cap
      invariant st == Run(cap, Init, evs[..n])
      invariant q.Contents() == st.queue
    {
      assert evs[..n + 1][..n] == evs[..n];
      st := StepOnRing(q, st, evs[n]);
    }
    assert evs[..|evs|] == evs;
    left := Drain(q);
  }
}
