/**
 * The provider wire loop (minclient/connection.go, onWireConn).  Each event is one outcome of the
 * loop's select; the peer, the clock and the callbacks are arbitrary.  Requests are identified by
 * the number of the iteration that dequeued them.
 */
module WireLoop {
  import opened Basics

  type Error = nat

  datatype Reason =
    | Shutdown | CallbackError(err: Error) | SendError(err: Error) | ReceiveError(err: Error)
    | ReceiveEnded | PeerUnlisted | PeerDisconnected | BadSequence | SpuriousConsensus | UnknownCommand

  datatype Command =
    | NoOp | Disconnect | MessageEmpty(seqNo: nat) | Message(seqNo: nat, queueHint: nat)
    | MessageAck(seqNo: nat) | Consensus(payload: nat) | Unknown

  /** Outcome of PeerCredentials and IsPeerValid for a received command. */
  datatype Credentials = Unavailable | Unlisted | Listed

  datatype Event =
    | Poll(sendErr: Option<Error>, interval: int)              // poll timer or forced fetch
    | GetConsensus(sendErr: Option<Error>, elapsed: nat)
    | SendPacket(sendErr: Option<Error>, elapsed: nat)
    | Receive(cmd: Command, creds: Credentials)
    | ReceiveFailed(err: Error) | ReceiveClosed | Halt | CallbackFailed(err: Error)

  datatype Status = Sent | Failed(err: Error) | Outstanding
  datatype Answer = Document(payload: nat) | NotConnected
  datatype Kind = Empty | Payload | Ack

  /** What can be observed of the loop from outside. */
  datatype Obs =
    | Retrieve(seqNo: nat)
    | Accept(kind: Kind, seqNo: nat)
    | SpoolEmpty
    | PacketDone(id: nat, status: Status)
    | ConsensusDone(id: nat, status: Status)
    | Reply(id: nat, answer: Answer)
    | Exit(reason: Reason)

  datatype State = State(
    seqNo: nat, reqs: nat, resps: nat, pending: Option<nat>, delay: int,
    log: seq<Obs>, exit: Option<Reason>, clock: nat)

  const Init := State(0, 0, 0, None, 0, [], None, 0)

  // ----- the loop, one select outcome at a time

  function Emit(st: State, o: Obs): State {
    st.(log := st.log + [o])
  }

  /** The deferred teardown: answer the outstanding request, then report the reason. */
  function Leave(st: State, reason: Reason): State {
    var answered := if st.pending.None? then st else Emit(st, Reply(st.pending.value, NotConnected)).(pending := None);
    Emit(answered, Exit(reason)).(exit := Some(reason))
  }

  function SendStatus(err: Option<Error>): Status {
    if err.None? then Sent else Failed(err.value)
  }

  function Shrink(delay: int, elapsed: nat): int {
    if elapsed < delay then delay - elapsed else 0
  }

  /** Continue after a send, or leave if it failed. */
  function AfterSend(st: State, err: Option<Error>, elapsed: nat): State {
    if err.Some? then Leave(st, SendError(err.value)) else st.(delay := Shrink(st.delay, elapsed))
  }

  function Fetch(st: State, err: Option<Error>, interval: int): State {
    if st.reqs != st.resps then st.(delay := interval)
    else if err.Some? then Leave(st, SendError(err.value))
    else Emit(st, Retrieve(st.seqNo)).(reqs := st.reqs + 1, delay := interval)
  }

  /** The state after accepting the expected message, before any empty-spool callback. */
  function Accepted(st: State, kind: Kind): State {
    Emit(st, Accept(kind, st.seqNo))
      .(resps := st.resps + 1, seqNo := if kind == Empty then st.seqNo else (st.seqNo + 1) % TWO32)
  }

  function Respond(st: State, kind: Kind, seqNo: nat, hint: nat): State {
    if seqNo != st.seqNo then Leave(st, BadSequence)
    else if kind == Empty || (kind == Payload && hint == 0) then Emit(Accepted(st, kind), SpoolEmpty)
    else Accepted(st, kind)
  }

  function Handle(st: State, cmd: Command): State {
    match cmd
    case NoOp => st
    case Disconnect => Leave(st, PeerDisconnected)
    case MessageEmpty(s) => Respond(st, Empty, s, 0)
    case Message(s, hint) => Respond(st, Payload, s, hint)
    case MessageAck(s) => Respond(st, Ack, s, 0)
    case Consensus(payload) =>
      if st.pending.Some? then Emit(st, Reply(st.pending.value, Document(payload))).(pending := None)
      else Leave(st, SpuriousConsensus)
    case Unknown => Leave(st, UnknownCommand)
  }

  function Act(st: State, ev: Event): State {
    match ev
    case Poll(err, interval) => Fetch(st, err, interval)
    case GetConsensus(err, elapsed) =>
      if st.pending.Some? then
        Emit(st, ConsensusDone(st.clock, Outstanding)).(delay := Shrink(st.delay, elapsed))
      else
        AfterSend(Emit(st, ConsensusDone(st.clock, SendStatus(err))).(pending := Some(st.clock)), err, elapsed)
    case SendPacket(err, elapsed) => AfterSend(Emit(st, PacketDone(st.clock, SendStatus(err))), err, elapsed)
    case Receive(cmd, creds) =>
      (match creds
       case Unavailable => st
       case Unlisted => Leave(st, PeerUnlisted)
       case Listed => Handle(st, cmd))
    case ReceiveFailed(err) => Leave(st, ReceiveError(err))
    case ReceiveClosed => Leave(st, ReceiveEnded)
    case Halt => Leave(st, Shutdown)
    case CallbackFailed(err) => Leave(st, CallbackError(err))
  }

  function Step(st: State, ev: Event): State {
    if st.exit.Some? then st else Act(st, ev).(clock := st.clock + 1)
  }

  function Run(evs: seq<Event>): State {
    if evs == [] then Init else Step(Run(evs[..|evs| - 1]), evs[|evs| - 1])
  }

  // ----- the protocol, read off the log alone

  /** What a log says so far: retrievals sent, answers taken, and the requests done, admitted and replied to. */
  datatype Ledger = Ledger(
    retrieves: nat, answers: nat, bumped: seq<nat>, done: seq<nat>, admitted: seq<nat>, replied: seq<nat>)

  function Note(l: Ledger, o: Obs): Ledger {
    match o
    case Retrieve(_) => l.(retrieves := l.retrieves + 1)
    case Accept(kind, s) =>
      l.(answers := l.answers + 1, bumped := if kind == Empty then l.bumped else l.bumped + [s])
    case PacketDone(id, _) => l.(done := l.done + [id])
    case ConsensusDone(id, status) =>
      l.(done := l.done + [id], admitted := if status == Outstanding then l.admitted else l.admitted + [id])
    case Reply(id, _) => l.(replied := l.replied + [id])
    case SpoolEmpty => l
    case Exit(_) => l
  }

  function Read(log: seq<Obs>): Ledger {
    if log == [] then Ledger(0, 0, [], [], [], []) else Note(Read(log[..|log| - 1]), log[|log| - 1])
  }

  /** May `o` follow a log summarised by `l`? */
  predicate Allowed(l: Ledger, o: Obs) {
    match o
    case Retrieve(s) => l.retrieves == l.answers && s == |l.bumped| % TWO32
    case Accept(_, s) => s == |l.bumped| % TWO32
    case ConsensusDone(_, status) => status == Outstanding <==> l.admitted != l.replied
    case Reply(id, _) => l.admitted == l.replied + [id]
    case Exit(_) => l.admitted == l.replied
    case PacketDone(_, status) => status != Outstanding
    case SpoolEmpty => true
  }

  predicate Lawful(log: seq<Obs>) {
    log == [] || (Lawful(log[..|log| - 1]) && Allowed(Read(log[..|log| - 1]), log[|log| - 1]))
  }

  lemma LawfulSnoc(log: seq<Obs>, o: Obs)
    requires Lawful(log) && Allowed(Read(log), o)
    ensures Lawful(log + [o])
    ensures Read(log + [o]) == Note(Read(log), o)
  {
    assert (log + [o])[..|log|] == log;
  }

  /** Every observation of a lawful log was allowed where it stands. */
  lemma {:induction false} LawfulAt(log: seq<Obs>, k: nat)
    requires Lawful(log) && k < |log|
    ensures Lawful(log[..k]) && Allowed(Read(log[..k]), log[k])
  {
    var n := |log| - 1;
    if k < n {
      LawfulAt(log[..n], k);
      assert log[..n][..k] == log[..k];
    }
  }

  ghost predicate LedgerOk(l: Ledger) {
    && l.bumped == seq(|l.bumped|, i => i % TWO32)
    && l.retrieves <= l.answers + 1
    && l.replied <= l.admitted
    && |l.admitted| <= |l.replied| + 1
  }

  lemma NoteOk(l: Ledger, o: Obs)
    requires LedgerOk(l) && Allowed(l, o)
    ensures LedgerOk(Note(l, o))
  {
  }

  /**
   * What the protocol rules alone guarantee about any lawful log: accepted messages are numbered
   * 0, 1, 2, ... modulo 2^32, at most one retrieval is unanswered, and replies follow admissions
   * in order with at most one admitted request waiting.
   */
  lemma {:induction false} LawfulLog(log: seq<Obs>)
    requires Lawful(log)
    ensures var l := Read(log);
            && l.bumped == seq(|l.bumped|, i => i % TWO32)
            && l.retrieves <= l.answers + 1
            && l.replied <= l.admitted
            && |l.admitted| <= |l.replied| + 1
  {
    LedgerLawful(log);
  }

  lemma {:induction false} LedgerLawful(log: seq<Obs>)
    requires Lawful(log)
    ensures LedgerOk(Read(log))
  {
    if log != [] {
      var n := |log| - 1;
      LedgerLawful(log[..n]);
      NoteOk(Read(log[..n]), log[n]);
    }
  }

  /** The iterations that dequeued a packet or a consensus request. */
  function Dequeued(evs: seq<Event>): seq<nat> {
    if evs == [] then []
    else
      var n := |evs| - 1;
      Dequeued(evs[..n]) + Completes(evs[n], n)
  }

  function AsSeq<T>(o: Option<T>): seq<T> {
    if o.None? then [] else [o.value]
  }

  ghost predicate Agrees(st: State) {
    var l := Read(st.log);
    && Lawful(st.log)
    && st.reqs == l.retrieves
    && st.resps == l.answers
    && st.seqNo == |l.bumped| % TWO32
    && l.admitted == l.replied + AsSeq(st.pending)
  }

  lemma LeaveAgrees(st: State, reason: Reason)
    requires Agrees(st)
    ensures Agrees(Leave(st, reason)) && Leave(st, reason).pending.None?
    ensures Read(Leave(st, reason).log).done == Read(st.log).done
    ensures Leave(st, reason).log[|Leave(st, reason).log| - 1] == Exit(reason)
  {
    var answered := st;
    if st.pending.Some? {
      LawfulSnoc(st.log, Reply(st.pending.value, NotConnected));
      answered := Emit(st, Reply(st.pending.value, NotConnected)).(pending := None);
    }
    LawfulSnoc(answered.log, Exit(reason));
  }

  lemma NextSequence(n: nat)
    ensures (n % TWO32 + 1) % TWO32 == (n + 1) % TWO32
  {
  }

  /** Same ledger, agreement kept, and nothing left waiting if the loop is over. */
  ghost predicate Good(st: State, done: seq<nat>) {
    && Agrees(st)
    && Read(st.log).done == done
    && (st.exit.Some? ==> st.pending.None?)
  }

  lemma SpoolEmptyGood(st: State, done: seq<nat>)
    requires Good(st, done)
    ensures Good(Emit(st, SpoolEmpty), done)
  {
    LawfulSnoc(st.log, SpoolEmpty);
  }

  lemma EmitGood(st: State, o: Obs, l: Ledger, st': State, done: seq<nat>)
    requires Agrees(st) && Allowed(Read(st.log), o) && l == Note(Read(st.log), o)
    requires st'.log == st.log + [o] && st'.exit.None? && l.done == done
    requires st'.reqs == l.retrieves && st'.resps == l.answers && st'.seqNo == |l.bumped| % TWO32
    requires l.admitted == l.replied + AsSeq(st'.pending)
    ensures Good(st', done)
  {
    LawfulSnoc(st.log, o);
  }

  lemma AcceptGood(st: State, kind: Kind, done: seq<nat>)
    requires Good(st, done) && st.exit.None?
    ensures Good(Accepted(st, kind), done)
  {
    var l := Read(st.log);
    NextSequence(|l.bumped|);
    EmitGood(st, Accept(kind, st.seqNo), Note(l, Accept(kind, st.seqNo)), Accepted(st, kind), done);
  }

  lemma RespondGood(st: State, kind: Kind, s: nat, hint: nat, done: seq<nat>)
    requires Good(st, done) && st.exit.None?
    ensures Good(Respond(st, kind, s, hint), done)
  {
    if s != st.seqNo {
      LeaveAgrees(st, BadSequence);
    } else {
      AcceptGood(st, kind, done);
      SpoolEmptyGood(Accepted(st, kind), done);
    }
  }

  lemma LeaveGood(st: State, reason: Reason, done: seq<nat>)
    requires Good(st, done) && st.exit.None?
    ensures Good(Leave(st, reason), done)
  {
    LeaveAgrees(st, reason);
  }

  lemma ReplyGood(st: State, payload: nat, done: seq<nat>)
    requires Good(st, done) && st.exit.None? && st.pending.Some?
    ensures Good(Emit(st, Reply(st.pending.value, Document(payload))).(pending := None), done)
  {
    LawfulSnoc(st.log, Reply(st.pending.value, Document(payload)));
  }

  lemma HandleGood(st: State, cmd: Command, done: seq<nat>)
    requires Good(st, done) && st.exit.None?
    ensures Good(Handle(st, cmd), done)
  {
    match cmd
    case NoOp =>
    case Disconnect => LeaveGood(st, PeerDisconnected, done);
    case MessageEmpty(s) => RespondGood(st, Empty, s, 0, done);
    case Message(s, hint) => RespondGood(st, Payload, s, hint, done);
    case MessageAck(s) => RespondGood(st, Ack, s, 0, done);
    case Consensus(payload) =>
      if st.pending.Some? { ReplyGood(st, payload, done); } else { LeaveGood(st, SpuriousConsensus, done); }
    case Unknown => LeaveGood(st, UnknownCommand, done);
  }

  lemma AfterSendGood(st: State, err: Option<Error>, elapsed: nat, done: seq<nat>)
    requires Good(st, done) && st.exit.None?
    ensures Good(AfterSend(st, err, elapsed), done)
  {
    if err.Some? { LeaveGood(st, SendError(err.value), done); }
  }

  lemma FetchGood(st: State, err: Option<Error>, interval: int, done: seq<nat>)
    requires Good(st, done) && st.exit.None?
    ensures Good(Fetch(st, err, interval), done)
  {
    if st.reqs == st.resps {
      if err.Some? { LeaveGood(st, SendError(err.value), done); } else { LawfulSnoc(st.log, Retrieve(st.seqNo)); }
    }
  }

  lemma RefusedGood(st: State, elapsed: nat, done: seq<nat>)
    requires Good(st, done) && st.exit.None? && st.pending.Some?
    ensures Good(Emit(st, ConsensusDone(st.clock, Outstanding)).(delay := Shrink(st.delay, elapsed)), done + [st.clock])
  {
    LawfulSnoc(st.log, ConsensusDone(st.clock, Outstanding));
  }

  lemma AdmittedGood(st: State, err: Option<Error>, done: seq<nat>)
    requires Good(st, done) && st.exit.None? && st.pending.None?
    ensures Good(Emit(st, ConsensusDone(st.clock, SendStatus(err))).(pending := Some(st.clock)), done + [st.clock])
  {
    LawfulSnoc(st.log, ConsensusDone(st.clock, SendStatus(err)));
  }

  lemma PacketGood(st: State, err: Option<Error>, done: seq<nat>)
    requires Good(st, done) && st.exit.None?
    ensures Good(Emit(st, PacketDone(st.clock, SendStatus(err))), done + [st.clock])
  {
    LawfulSnoc(st.log, PacketDone(st.clock, SendStatus(err)));
  }

  /** The requests an event completes. */
  function Completes(ev: Event, clock: nat): seq<nat> {
    if ev.GetConsensus? || ev.SendPacket? then [clock] else []
  }

  lemma SendGood(st: State, ev: Event, done: seq<nat>)
    requires Good(st, done) && st.exit.None? && (ev.GetConsensus? || ev.SendPacket?)
    ensures Good(Act(st, ev), done + [st.clock])
  {
    match ev
    case GetConsensus(err, elapsed) =>
      if st.pending.Some? {
        RefusedGood(st, elapsed, done);
      } else {
        AdmittedGood(st, err, done);
        AfterSendGood(Emit(st, ConsensusDone(st.clock, SendStatus(err))).(pending := Some(st.clock)),
                      err, elapsed, done + [st.clock]);
      }
    case SendPacket(err, elapsed) =>
      PacketGood(st, err, done);
      AfterSendGood(Emit(st, PacketDone(st.clock, SendStatus(err))), err, elapsed, done + [st.clock]);
  }

  lemma OtherGood(st: State, ev: Event, done: seq<nat>)
    requires Good(st, done) && st.exit.None? && !ev.GetConsensus? && !ev.SendPacket?
    ensures Good(Act(st, ev), done)
  {
    match ev
    case Poll(err, interval) => FetchGood(st, err, interval, done);
    case Receive(cmd, creds) =>
      if creds == Unlisted { LeaveGood(st, PeerUnlisted, done); }
      if creds == Listed { HandleGood(st, cmd, done); }
    case ReceiveFailed(err) => LeaveGood(st, ReceiveError(err), done);
    case ReceiveClosed => LeaveGood(st, ReceiveEnded, done);
    case Halt => LeaveGood(st, Shutdown, done);
    case CallbackFailed(err) => LeaveGood(st, CallbackError(err), done);
  }

  /** One iteration keeps log and counters in agreement and completes exactly the request it dequeued. */
  lemma ActGood(st: State, ev: Event, done: seq<nat>)
    requires Good(st, done) && st.exit.None?
    ensures Good(Act(st, ev), done + Completes(ev, st.clock))
  {
    if ev.GetConsensus? || ev.SendPacket? {
      SendGood(st, ev, done);
    } else {
      OtherGood(st, ev, done);
      assert done + [] == done;
    }
  }

  /** What a state reached by `evs` satisfies. */
  ghost predicate Reached(evs: seq<Event>, st: State) {
    && Agrees(st)
    && st.clock <= |evs|
    && (st.exit.None? ==> st.clock == |evs|)
    && (st.exit.Some? ==> st.pending.None?)
    && Read(st.log).done == Dequeued(evs[..st.clock])
  }

  lemma DequeuedSnoc(evs: seq<Event>, ev: Event)
    ensures Dequeued(evs + [ev]) == Dequeued(evs) + Completes(ev, |evs|)
  {
    assert (evs + [ev])[..|evs|] == evs;
  }

  lemma ReachedLeft(evs: seq<Event>, ev: Event, st: State)
    requires Reached(evs, st) && st.exit.Some?
    ensures Reached(evs + [ev], st)
  {
    assert (evs + [ev])[..st.clock] == evs[..st.clock];
  }

  lemma ReachedSnoc(evs: seq<Event>, ev: Event, st: State, st': State)
    requires Reached(evs, st) && st.exit.None?
    requires st'.clock == st.clock + 1 && Good(st', Read(st.log).done + Completes(ev, st.clock))
    ensures Reached(evs + [ev], st')
  {
    DequeuedSnoc(evs, ev);
    assert (evs + [ev])[..st'.clock] == evs + [ev] && evs[..st.clock] == evs;
  }

  lemma ActKeepsClock(st: State, ev: Event)
    ensures Act(st, ev).clock == st.clock
  {
  }

  lemma TickGood(st: State, done: seq<nat>)
    requires Good(st, done)
    ensures Good(st.(clock := st.clock + 1), done)
  {
  }

  lemma ReachedStep(evs: seq<Event>, ev: Event, st: State, st': State)
    requires Reached(evs, st) && st' == Step(st, ev)
    ensures Reached(evs + [ev], st')
  {
    if st.exit.Some? {
      ReachedLeft(evs, ev, st);
    } else {
      var done := Read(st.log).done;
      ActGood(st, ev, done);
      ActKeepsClock(st, ev);
      TickGood(Act(st, ev), done + Completes(ev, st.clock));
      ReachedSnoc(evs, ev, st, st');
    }
  }

  lemma RunSnoc(evs: seq<Event>, ev: Event)
    ensures Run(evs + [ev]) == Step(Run(evs), ev)
  {
    assert (evs + [ev])[..|evs|] == evs;
  }

  lemma ReachedRun(evs: seq<Event>, ev: Event)
    requires Reached(evs, Run(evs))
    ensures Reached(evs + [ev], Run(evs + [ev]))
  {
    RunSnoc(evs, ev);
    ReachedStep(evs, ev, Run(evs), Run(evs + [ev]));
  }

  lemma {:induction false} RunAgrees(evs: seq<Event>)
    ensures Reached(evs, Run(evs))
  {
    if evs != [] {
      var front, ev := evs[..|evs| - 1], evs[|evs| - 1];
      assert evs == front + [ev];
      RunAgrees(front);
      ReachedRun(front, ev);
    }
  }

  /** How many events the loop takes before it is left. */
  function Taken(evs: seq<Event>): (n: nat)
    ensures n <= |evs|
  {
    RunAgrees(evs);
    Run(evs).clock
  }

  // ----- main results

  /**
   * Against any peer: accepted messages and ACKs carry 0, 1, 2, ... modulo 2^32, every retrieval
   * carries the number accepted so far, and never more than one retrieval is unanswered.
   */
  lemma SequenceDiscipline(evs: seq<Event>, k: nat)
    requires k < |Run(evs).log|
    ensures var log := Run(evs).log;
            var before := Read(log[..k]);
            && before.bumped == seq(|before.bumped|, i => i % TWO32)
            && before.retrieves <= before.answers + 1
            && (log[k].Retrieve? ==> log[k].seqNo == |before.bumped| % TWO32 && before.retrieves == before.answers)
            && (log[k].Accept? ==> log[k].seqNo == |before.bumped| % TWO32)
  {
    RunAgrees(evs);
    var log := Run(evs).log;
    LawfulAt(log, k);
    LawfulLog(log[..k]);
  }

  /** Requests that are done once each are admitted or refused, never both. */
  lemma {:induction false} AdmittedOrRefused(log: seq<Obs>)
    requires NoDuplicates(Read(log).done)
    ensures var l := Read(log);
            && NoDuplicates(l.admitted)
            && (forall id :: id in l.admitted ==> id in l.done)
            && (forall k :: 0 <= k < |log| && log[k].ConsensusDone? && log[k].status == Outstanding ==>
                              log[k].id in l.done && log[k].id !in l.admitted)
  {
    if log != [] {
      var front, o := log[..|log| - 1], log[|log| - 1];
      NoDuplicatesPrefix(Read(front).done, Read(log).done);
      AdmittedOrRefused(front);
      assert forall k :: 0 <= k < |front| ==> front[k] == log[k];
      if o.ConsensusDone? {
        assert Read(log).done[|Read(front).done|] == o.id;
      }
    }
  }

  /**
   * Every dequeued request has its done function called exactly once, in order; at most one
   * consensus request is waiting; once the loop is left, the admitted requests have been replied
   * to exactly once each, in order, and the refused ones never.
   */
  lemma RequestsCompleted(evs: seq<Event>)
    ensures var st := Run(evs);
            var l := Read(st.log);
            && st.clock <= |evs|
            && l.done == Dequeued(evs[..st.clock])
            && NoDuplicates(l.done)
            && NoDuplicates(l.admitted)
            && l.replied <= l.admitted
            && |l.admitted| <= |l.replied| + 1
            && (st.exit.Some? ==> l.replied == l.admitted)
            && (forall k :: 0 <= k < |st.log| && st.log[k].ConsensusDone? && st.log[k].status == Outstanding ==>
                              st.log[k].id !in l.replied)
  {
    RunAgrees(evs);
    LawfulLog(Run(evs).log);
    DequeuedIncreasing(evs[..Run(evs).clock]);
    AdmittedOrRefused(Run(evs).log);
  }

  lemma {:induction false} DequeuedIncreasing(evs: seq<Event>)
    ensures forall i :: 0 <= i < |Dequeued(evs)| ==> Dequeued(evs)[i] < |evs|
    ensures NoDuplicates(Dequeued(evs))
  {
    if evs != [] { DequeuedIncreasing(evs[..|evs| - 1]); }
  }

  /** A request is refused exactly when another one is waiting at that moment. */
  lemma RefusedIffWaiting(evs: seq<Event>, k: nat)
    requires k < |Run(evs).log| && Run(evs).log[k].ConsensusDone?
    ensures var l := Read(Run(evs).log[..k]);
            Run(evs).log[k].status == Outstanding <==> |l.admitted| == |l.replied| + 1
  {
    RunAgrees(evs);
    var log := Run(evs).log;
    LawfulAt(log, k);
    LawfulLog(log[..k]);
  }

  ghost predicate EndsWith(log: seq<Obs>, exit: Option<Reason>) {
    && (exit.Some? ==> log != [] && log[|log| - 1] == Exit(exit.value))
    && (forall k :: 0 <= k < |log| - (if exit.Some? then 1 else 0) ==> !log[k].Exit?)
  }

  ghost predicate ExitLast(st: State) {
    EndsWith(st.log, st.exit)
  }

  lemma Grow(log: seq<Obs>, o: Obs)
    requires EndsWith(log, None)
    ensures EndsWith(log + [o], if o.Exit? then Some(o.reason) else None)
  {
  }

  lemma LeaveExitLast(st: State, reason: Reason)
    requires ExitLast(st) && st.exit.None?
    ensures ExitLast(Leave(st, reason))
  {
    var log := st.log;
    if st.pending.Some? {
      Grow(log, Reply(st.pending.value, NotConnected));
      log := log + [Reply(st.pending.value, NotConnected)];
    }
    Grow(log, Exit(reason));
  }

  lemma RespondExitLast(st: State, kind: Kind, s: nat, hint: nat)
    requires ExitLast(st) && st.exit.None?
    ensures ExitLast(Respond(st, kind, s, hint))
  {
    LeaveExitLast(st, BadSequence);
    Grow(st.log, Accept(kind, st.seqNo));
    Grow(st.log + [Accept(kind, st.seqNo)], SpoolEmpty);
  }

  lemma HandleExitLast(st: State, cmd: Command)
    requires ExitLast(st) && st.exit.None?
    ensures ExitLast(Handle(st, cmd))
  {
    match cmd
    case NoOp =>
    case Disconnect => LeaveExitLast(st, PeerDisconnected);
    case MessageEmpty(s) => RespondExitLast(st, Empty, s, 0);
    case Message(s, hint) => RespondExitLast(st, Payload, s, hint);
    case MessageAck(s) => RespondExitLast(st, Ack, s, 0);
    case Consensus(payload) =>
      if st.pending.Some? { Grow(st.log, Reply(st.pending.value, Document(payload))); }
      LeaveExitLast(st, SpuriousConsensus);
    case Unknown => LeaveExitLast(st, UnknownCommand);
  }

  lemma AfterSendExitLast(st: State, err: Option<Error>, elapsed: nat)
    requires ExitLast(st) && st.exit.None?
    ensures ExitLast(AfterSend(st, err, elapsed))
  {
    if err.Some? { LeaveExitLast(st, SendError(err.value)); }
  }

  lemma ActExitLast(st: State, ev: Event)
    requires ExitLast(st) && st.exit.None?
    ensures ExitLast(Act(st, ev))
  {
    match ev
    case Poll(err, _) =>
      if err.Some? { LeaveExitLast(st, SendError(err.value)); }
      Grow(st.log, Retrieve(st.seqNo));
    case GetConsensus(err, elapsed) =>
      if st.pending.Some? {
        Grow(st.log, ConsensusDone(st.clock, Outstanding));
      } else {
        Grow(st.log, ConsensusDone(st.clock, SendStatus(err)));
        AfterSendExitLast(Emit(st, ConsensusDone(st.clock, SendStatus(err))).(pending := Some(st.clock)), err, elapsed);
      }
    case SendPacket(err, elapsed) =>
      Grow(st.log, PacketDone(st.clock, SendStatus(err)));
      AfterSendExitLast(Emit(st, PacketDone(st.clock, SendStatus(err))), err, elapsed);
    case Receive(cmd, creds) =>
      if creds == Unlisted { LeaveExitLast(st, PeerUnlisted); }
      if creds == Listed { HandleExitLast(st, cmd); }
    case ReceiveFailed(err) => LeaveExitLast(st, ReceiveError(err));
    case ReceiveClosed => LeaveExitLast(st, ReceiveEnded);
    case Halt => LeaveExitLast(st, Shutdown);
    case CallbackFailed(err) => LeaveExitLast(st, CallbackError(err));
  }

  /** The loop is left at most once, and its reason is the last thing observed. */
  lemma {:induction false} ExitIsLast(evs: seq<Event>)
    ensures ExitLast(Run(evs))
    ensures Run(evs).exit.Some? <==> exists k :: 0 <= k < |Run(evs).log| && Run(evs).log[k].Exit?
  {
    if evs != [] {
      ExitIsLast(evs[..|evs| - 1]);
      var st := Run(evs[..|evs| - 1]);
      if st.exit.None? { ActExitLast(st, evs[|evs| - 1]); }
    }
  }

  // ----- the whole log, from the events alone

  /** The admitted requests that have not been replied to. */
  function Waiting(l: Ledger): seq<nat> {
    if |l.replied| <= |l.admitted| then l.admitted[|l.replied|..] else []
  }

  function ExpectedSeq(l: Ledger): nat {
    |l.bumped| % TWO32
  }

  /** The end of a connection: whoever still waits learns that it is over, then the reason. */
  function Closing(waiting: seq<nat>, reason: Reason): seq<Obs> {
    (if waiting == [] then [] else [Reply(waiting[0], NotConnected)]) + [Exit(reason)]
  }

  function Answering(l: Ledger, kind: Kind, s: nat, spoolEmpty: bool): seq<Obs> {
    if s != ExpectedSeq(l) then Closing(Waiting(l), BadSequence)
    else [Accept(kind, s)] + if spoolEmpty then [SpoolEmpty] else []
  }

  /** What a received command shows: of a listed peer only. */
  function ShownOf(l: Ledger, cmd: Command): seq<Obs> {
    match cmd
    case NoOp => []
    case Disconnect => Closing(Waiting(l), PeerDisconnected)
    case MessageEmpty(s) => Answering(l, Empty, s, true)
    case Message(s, hint) => Answering(l, Payload, s, hint == 0)
    case MessageAck(s) => Answering(l, Ack, s, false)
    case Consensus(payload) =>
      if Waiting(l) == [] then Closing([], SpuriousConsensus) else [Reply(Waiting(l)[0], Document(payload))]
    case Unknown => Closing(Waiting(l), UnknownCommand)
  }

  /** What the `n`-th event shows, given what the log says so far. */
  function Shown(l: Ledger, ev: Event, n: nat): seq<Obs> {
    match ev
    case Poll(err, _) =>
      if l.retrieves != l.answers then []
      else if err.Some? then Closing(Waiting(l), SendError(err.value))
      else [Retrieve(ExpectedSeq(l))]
    case GetConsensus(err, _) =>
      if Waiting(l) != [] then [ConsensusDone(n, Outstanding)]
      else if err.Some? then [ConsensusDone(n, Failed(err.value))] + Closing([n], SendError(err.value))
      else [ConsensusDone(n, Sent)]
    case SendPacket(err, _) =>
      if err.Some? then [PacketDone(n, Failed(err.value))] + Closing(Waiting(l), SendError(err.value))
      else [PacketDone(n, Sent)]
    case Receive(cmd, creds) =>
      if creds == Unavailable then [] else if creds == Unlisted then Closing(Waiting(l), PeerUnlisted) else ShownOf(l, cmd)
    case ReceiveFailed(err) => Closing(Waiting(l), ReceiveError(err))
    case ReceiveClosed => Closing(Waiting(l), ReceiveEnded)
    case Halt => Closing(Waiting(l), Shutdown)
    case CallbackFailed(err) => Closing(Waiting(l), CallbackError(err))
  }

  predicate Over(log: seq<Obs>) {
    log != [] && log[|log| - 1].Exit?
  }

  /** The log that a run of these events has to produce; no counter of the loop appears in it. */
  function LogOf(evs: seq<Event>): seq<Obs> {
    if evs == [] then []
    else
      var n := |evs| - 1;
      var log := LogOf(evs[..n]);
      if Over(log) then log else log + Shown(Read(log), evs[n], n)
  }

  lemma WaitingIs(st: State)
    requires Agrees(st)
    ensures Waiting(Read(st.log)) == AsSeq(st.pending) && ExpectedSeq(Read(st.log)) == st.seqNo
  {
  }

  lemma LeaveShows(st: State, reason: Reason)
    ensures Leave(st, reason).log == st.log + Closing(AsSeq(st.pending), reason)
  {
  }

  lemma RespondShows(st: State, kind: Kind, s: nat, hint: nat)
    requires Agrees(st)
    ensures Respond(st, kind, s, hint).log ==
            st.log + Answering(Read(st.log), kind, s, kind == Empty || (kind == Payload && hint == 0))
  {
    WaitingIs(st);
    LeaveShows(st, BadSequence);
  }

  lemma HandleShows(st: State, cmd: Command)
    requires Agrees(st)
    ensures Handle(st, cmd).log == st.log + ShownOf(Read(st.log), cmd)
  {
    WaitingIs(st);
    match cmd
    case NoOp =>
    case Disconnect => LeaveShows(st, PeerDisconnected);
    case MessageEmpty(s) => RespondShows(st, Empty, s, 0);
    case Message(s, hint) => RespondShows(st, Payload, s, hint);
    case MessageAck(s) => RespondShows(st, Ack, s, 0);
    case Consensus(_) => LeaveShows(st, SpuriousConsensus);
    case Unknown => LeaveShows(st, UnknownCommand);
  }

  lemma SendShows(st: State, ev: Event)
    requires Agrees(st) && (ev.GetConsensus? || ev.SendPacket?)
    ensures Act(st, ev).log == st.log + Shown(Read(st.log), ev, st.clock)
  {
    WaitingIs(st);
    match ev
    case GetConsensus(err, _) =>
      if err.Some? {
        LeaveShows(Emit(st, ConsensusDone(st.clock, SendStatus(err))).(pending := Some(st.clock)), SendError(err.value));
      }
    case SendPacket(err, _) =>
      if err.Some? { LeaveShows(Emit(st, PacketDone(st.clock, SendStatus(err))), SendError(err.value)); }
  }

  lemma ActShows(st: State, ev: Event)
    requires Agrees(st)
    ensures Act(st, ev).log == st.log + Shown(Read(st.log), ev, st.clock)
  {
    WaitingIs(st);
    match ev
    case Poll(err, _) => if err.Some? { LeaveShows(st, SendError(err.value)); }
    case GetConsensus(_, _) => SendShows(st, ev);
    case SendPacket(_, _) => SendShows(st, ev);
    case Receive(cmd, creds) =>
      HandleShows(st, cmd);
      LeaveShows(st, PeerUnlisted);
    case ReceiveFailed(err) => LeaveShows(st, ReceiveError(err));
    case ReceiveClosed => LeaveShows(st, ReceiveEnded);
    case Halt => LeaveShows(st, Shutdown);
    case CallbackFailed(err) => LeaveShows(st, CallbackError(err));
  }

  lemma OverIff(st: State)
    requires ExitLast(st)
    ensures Over(st.log) <==> st.exit.Some?
  {
  }

  lemma OverIffLeft(evs: seq<Event>)
    ensures Over(Run(evs).log) <==> Run(evs).exit.Some?
  {
    ExitIsLast(evs);
    OverIff(Run(evs));
  }

  /** The loop shows exactly this log. */
  lemma {:induction false} LogIs(evs: seq<Event>)
    ensures Run(evs).log == LogOf(evs)
  {
    if evs != [] {
      var front, ev := evs[..|evs| - 1], evs[|evs| - 1];
      LogIs(front);
      OverIffLeft(front);
      RunAgrees(front);
      ActShows(Run(front), ev);
    }
  }

  lemma LogSnoc(evs: seq<Event>, ev: Event)
    ensures LogOf(evs + [ev]) ==
            if Over(LogOf(evs)) then LogOf(evs) else LogOf(evs) + Shown(Read(LogOf(evs)), ev, |evs|)
  {
    assert (evs + [ev])[..|evs|] == evs;
  }

  lemma ConsensusShown(l: Ledger, id: nat, payload: nat, n: nat)
    requires Waiting(l) == [id]
    ensures Shown(l, Receive(Consensus(payload), Listed), n) == [Reply(id, Document(payload))]
  {
  }

  /** An admitted request is answered with the very document the peer sends. */
  lemma ConsensusIsAnswered(evs: seq<Event>, id: nat, payload: nat)
    requires !Over(Run(evs).log) && Waiting(Read(Run(evs).log)) == [id]
    ensures Run(evs + [Receive(Consensus(payload), Listed)]).log == Run(evs).log + [Reply(id, Document(payload))]
  {
    var ev := Receive(Consensus(payload), Listed);
    LogIs(evs);
    LogIs(evs + [ev]);
    LogSnoc(evs, ev);
    ConsensusShown(Read(LogOf(evs)), id, payload, |evs|);
  }

  /** No request is told "not connected" before the very end. */
  ghost predicate NotConnectedLast(log: seq<Obs>) {
    forall k :: 0 <= k < |log| && log[k].Reply? && log[k].answer == NotConnected ==> k == |log| - 2 && Over(log)
  }

  lemma ShownEnds(l: Ledger, ev: Event, n: nat)
    ensures NotConnectedLast(Shown(l, ev, n))
    ensures forall k :: 0 <= k < |Shown(l, ev, n)| - 1 ==> !Shown(l, ev, n)[k].Exit?
  {
  }

  lemma {:induction false} NotConnectedOnlyAtExit(evs: seq<Event>)
    ensures NotConnectedLast(Run(evs).log)
  {
    LogIs(evs);
    if evs != [] {
      var n := |evs| - 1;
      NotConnectedOnlyAtExit(evs[..n]);
      LogIs(evs[..n]);
      ShownEnds(Read(LogOf(evs[..n])), evs[n], n);
    }
  }

  /** A done function is told what became of its own send, or that another request is outstanding. */
  ghost predicate StatusIsTrue(evs: seq<Event>, o: Obs) {
    match o
    case PacketDone(id, status) =>
      id < |evs| && evs[id].SendPacket? &&
      status == (if evs[id].sendErr.None? then Sent else Failed(evs[id].sendErr.value))
    case ConsensusDone(id, status) =>
      id < |evs| && evs[id].GetConsensus? &&
      (status == Outstanding || status == if evs[id].sendErr.None? then Sent else Failed(evs[id].sendErr.value))
    case Reply(_, Document(payload)) => Receive(Consensus(payload), Listed) in evs
    case _ => true
  }

  lemma ShownIsTrue(evs: seq<Event>, l: Ledger, n: nat)
    requires n == |evs| - 1
    ensures forall k :: 0 <= k < |Shown(l, evs[n], n)| ==> StatusIsTrue(evs, Shown(l, evs[n], n)[k])
  {
    assert evs[n] in evs;
  }

  lemma StaysTrue(evs: seq<Event>, n: nat, o: Obs)
    requires n <= |evs| && StatusIsTrue(evs[..n], o)
    ensures StatusIsTrue(evs, o)
  {
  }

  /** Over every run: done functions and document replies say what the events say. */
  lemma {:induction false} StatusesAreTrue(evs: seq<Event>)
    ensures forall k :: 0 <= k < |Run(evs).log| ==> StatusIsTrue(evs, Run(evs).log[k])
  {
    LogIs(evs);
    if evs != [] {
      var n := |evs| - 1;
      StatusesAreTrue(evs[..n]);
      LogIs(evs[..n]);
      ShownIsTrue(evs, Read(LogOf(evs[..n])), n);
      forall k | 0 <= k < |LogOf(evs[..n])| ensures StatusIsTrue(evs, LogOf(evs[..n])[k]) {
        StaysTrue(evs, n, LogOf(evs[..n])[k]);
      }
    }
  }

  // ----- polling

  predicate IsResponse(cmd: Command) {
    cmd.MessageEmpty? || cmd.Message? || cmd.MessageAck?
  }

  /** Responses to retrievals that arrived. */
  function Responses(evs: seq<Event>): nat {
    if evs == [] then 0
    else
      var n := |evs| - 1;
      Responses(evs[..n]) + if evs[n].Receive? && IsResponse(evs[n].cmd) then 1 else 0
  }

  /** Responses thrown away because the peer's credentials could not be read. */
  function Dropped(evs: seq<Event>): nat {
    if evs == [] then 0
    else
      var n := |evs| - 1;
      Dropped(evs[..n]) + if evs[n].Receive? && IsResponse(evs[n].cmd) && evs[n].creds == Unavailable then 1 else 0
  }

  lemma {:induction false} ResponsesAccounted(evs: seq<Event>)
    requires Run(evs).exit.None?
    ensures Run(evs).resps + Dropped(evs) == Responses(evs)
  {
    if evs != [] { ResponsesAccounted(evs[..|evs| - 1]); }
  }

  /**
   * Suppose the peer has answered each retrieval at most once and never unasked.  Then a due poll
   * sends a retrieval if and only if every retrieval has been answered and no answer was thrown
   * away at the credential check.
   */
  lemma PollSendsIff(evs: seq<Event>, interval: int)
    requires Run(evs).exit.None?
    requires Responses(evs) <= Read(Run(evs).log).retrieves
    ensures var st := Run(evs);
            var next := Run(evs + [Poll(None, interval)]);
            && st.resps <= st.reqs
            && (next.log == st.log + [Retrieve(st.seqNo)] <==>
                Dropped(evs) == 0 && Responses(evs) == Read(st.log).retrieves)
            && (next.log == st.log + [Retrieve(st.seqNo)] || next.log == st.log)
  {
    RunAgrees(evs);
    LawfulLog(Run(evs).log);
    ResponsesAccounted(evs);
    assert (evs + [Poll(None, interval)])[..|evs|] == evs;
    var st := Run(evs);
    assert Run(evs + [Poll(None, interval)]) == Step(st, Poll(None, interval));
    assert |st.log + [Retrieve(st.seqNo)]| != |st.log|;
  }

  function Retrievals(evs: seq<Event>): nat {
    Read(Run(evs).log).retrieves
  }

  lemma RetrievalsAreReqs(evs: seq<Event>)
    ensures Retrievals(evs) == Run(evs).reqs
    ensures Run(evs).reqs <= Run(evs).resps + 1
    ensures Read(Run(evs).log).answers == Run(evs).resps
  {
    RunAgrees(evs);
    LawfulLog(Run(evs).log);
  }

  /** Whatever happens from here on, no retrieval is sent any more. */
  ghost predicate Silent(evs: seq<Event>) {
    forall more: seq<Event> :: Retrievals(evs + more) == Retrievals(evs)
  }

  lemma SilencedStep(st: State, ev: Event)
    requires st.exit.Some? || st.resps > st.reqs
    ensures var st' := Step(st, ev);
            st'.reqs == st.reqs && (st'.exit.Some? || st'.resps > st'.reqs)
  {
  }

  lemma {:induction false} StaysSilenced(evs: seq<Event>, more: seq<Event>)
    requires Run(evs).exit.Some? || Run(evs).resps > Run(evs).reqs
    ensures var st := Run(evs + more);
            st.reqs == Run(evs).reqs && (st.exit.Some? || st.resps > st.reqs)
  {
    if more == [] {
      assert evs + more == evs;
    } else {
      var n := |more| - 1;
      var front := evs + more[..n];
      assert evs + more == front + [more[n]];
      RunSnoc(front, more[n]);
      StaysSilenced(evs, more[..n]);
      SilencedStep(Run(front), more[n]);
    }
  }

  /** What the peer can do so that the next poll sends: nothing, or answer the one open retrieval. */
  function AnswerOpen(st: State): seq<Event> {
    if st.reqs == st.resps then [] else [Receive(MessageEmpty(st.seqNo), Listed)]
  }

  lemma PollAfterAnswer(st: State)
    requires st.exit.None? && st.resps <= st.reqs <= st.resps + 1
    ensures var st1 := if st.reqs == st.resps then st else Step(st, Receive(MessageEmpty(st.seqNo), Listed));
            st1.exit.None? && st1.reqs == st1.resps == st.reqs && Step(st1, Poll(None, 0)).reqs == st.reqs + 1
  {
  }

  lemma CanRetrieve(evs: seq<Event>)
    requires Run(evs).exit.None? && Run(evs).resps <= Run(evs).reqs
    ensures Run(evs + AnswerOpen(Run(evs)) + [Poll(None, 0)]).reqs == Run(evs).reqs + 1
  {
    var st := Run(evs);
    RetrievalsAreReqs(evs);
    PollAfterAnswer(st);
    if st.reqs == st.resps {
      assert evs + AnswerOpen(st) == evs;
    } else {
      RunSnoc(evs, Receive(MessageEmpty(st.seqNo), Listed));
    }
    RunSnoc(evs + AnswerOpen(st), Poll(None, 0));
  }

  /**
   * Polling is over for good if and only if the loop has been left or more answers have been
   * accepted than retrievals sent.
   */
  lemma UnsolicitedAnswerSilencesPolling(evs: seq<Event>)
    ensures Silent(evs) <==> Run(evs).exit.Some? || Read(Run(evs).log).answers > Retrievals(evs)
  {
    RetrievalsAreReqs(evs);
    if Run(evs).exit.Some? || Read(Run(evs).log).answers > Retrievals(evs) {
      forall more: seq<Event> ensures Retrievals(evs + more) == Retrievals(evs) {
        RetrievalsAreReqs(evs + more);
        StaysSilenced(evs, more);
      }
    } else {
      var more := AnswerOpen(Run(evs)) + [Poll(None, 0)];
      CanRetrieve(evs);
      assert evs + more == evs + AnswerOpen(Run(evs)) + [Poll(None, 0)];
      RetrievalsAreReqs(evs + more);
      assert Retrievals(evs + more) != Retrievals(evs);
    }
  }

  /** One answer nobody asked for, right after connecting, is enough. */
  lemma OneUnsolicitedAnswer()
    ensures var evs := [Receive(MessageEmpty(0), Listed)];
            Run(evs).exit.None? && Silent(evs)
  {
    var ev := Receive(MessageEmpty(0), Listed);
    RunSnoc([], ev);
    assert [] + [ev] == [ev];
    RetrievalsAreReqs([ev]);
    UnsolicitedAnswerSilencesPolling([ev]);
  }

  /** The peer answers each retrieval at most once and never unasked. */
  ghost predicate Honest(evs: seq<Event>) {
    forall n :: 0 <= n <= |evs| ==> Responses(evs[..n]) <= Retrievals(evs[..n])
  }

  /** No retrieval is sent any more as long as the peer stays honest. */
  ghost predicate SilentIfHonest(evs: seq<Event>) {
    forall more: seq<Event> :: Honest(evs + more) ==> Retrievals(evs + more) == Retrievals(evs)
  }

  lemma HonestPrefix(evs: seq<Event>, n: nat)
    requires n <= |evs| && Honest(evs)
    ensures Honest(evs[..n])
  {
    forall k | 0 <= k <= n ensures Responses(evs[..n][..k]) <= Retrievals(evs[..n][..k]) {
      assert evs[..n][..k] == evs[..k];
    }
  }

  lemma HonestSnoc(evs: seq<Event>, ev: Event)
    requires Honest(evs) && Responses(evs + [ev]) <= Retrievals(evs + [ev])
    ensures Honest(evs + [ev])
  {
    var all := evs + [ev];
    forall k | 0 <= k <= |all| ensures Responses(all[..k]) <= Retrievals(all[..k]) {
      if k <= |evs| { assert all[..k] == evs[..k]; } else { assert all[..k] == all; }
    }
  }

  lemma {:induction false} DroppedGrows(evs: seq<Event>, more: seq<Event>)
    ensures Dropped(evs) <= Dropped(evs + more)
  {
    if more == [] {
      assert evs + more == evs;
    } else {
      var n := |more| - 1;
      DroppedGrows(evs, more[..n]);
      assert (evs + more)[..|evs + more| - 1] == evs + more[..n];
    }
  }

  lemma OpenStep(st: State, ev: Event)
    requires st.exit.Some? || st.resps < st.reqs
    ensures Step(st, ev).reqs == st.reqs
  {
  }

  /** A lost answer leaves a retrieval open that an honest peer will not answer again. */
  lemma {:induction false} StaysOpen(evs: seq<Event>, more: seq<Event>)
    requires Honest(evs + more) && (Run(evs).exit.Some? || Dropped(evs) > 0)
    ensures Run(evs + more).reqs == Run(evs).reqs
  {
    if more == [] {
      assert evs + more == evs;
    } else {
      var n := |more| - 1;
      var front := evs + more[..n];
      assert evs + more == front + [more[n]];
      assert (evs + more)[..|front|] == front;
      HonestPrefix(evs + more, |front|);
      StaysOpen(evs, more[..n]);
      RunSnoc(front, more[n]);
      if Run(front).exit.None? {
        LeftStaysLeft(evs, more[..n]);
        DroppedGrows(evs, more[..n]);
        ResponsesAccounted(front);
        RetrievalsAreReqs(front);
        HonestNow(front);
      }
      OpenStep(Run(front), more[n]);
    }
  }

  lemma LeftStaysLeft(evs: seq<Event>, more: seq<Event>)
    ensures Run(evs).exit.Some? ==> Run(evs + more).exit.Some?
  {
    if Run(evs).exit.Some? {
      assert (evs + more)[..|evs|] == evs;
      StaysLeft(evs + more, |evs|);
    }
  }

  lemma HonestNow(evs: seq<Event>)
    requires Honest(evs)
    ensures Responses(evs) <= Retrievals(evs)
  {
    assert evs[..|evs|] == evs;
  }

  lemma ResponsesSnoc(evs: seq<Event>, ev: Event)
    ensures Responses(evs + [ev]) == Responses(evs) + if ev.Receive? && IsResponse(ev.cmd) then 1 else 0
    ensures Dropped(evs + [ev]) ==
            Dropped(evs) + if ev.Receive? && IsResponse(ev.cmd) && ev.creds == Unavailable then 1 else 0
  {
    assert (evs + [ev])[..|evs|] == evs;
  }

  /** A poll asks for no answer that has not been given. */
  lemma HonestPoll(evs: seq<Event>)
    requires Honest(evs)
    ensures Honest(evs + [Poll(None, 0)])
  {
    var poll := Poll(None, 0);
    HonestNow(evs);
    ResponsesSnoc(evs, poll);
    RunSnoc(evs, poll);
    RetrievalsAreReqs(evs);
    RetrievalsAreReqs(evs + [poll]);
    HonestSnoc(evs, poll);
  }

  lemma ReceiveKeepsReqs(st: State, ev: Event)
    requires ev.Receive?
    ensures Step(st, ev).reqs == st.reqs
  {
  }

  /** The peer may answer, heard or unheard, while it owes an answer. */
  lemma HonestReply(evs: seq<Event>, ev: Event)
    requires Honest(evs) && Responses(evs) < Retrievals(evs)
    requires ev.Receive?
    ensures Honest(evs + [ev])
  {
    ResponsesSnoc(evs, ev);
    RunSnoc(evs, ev);
    RetrievalsAreReqs(evs);
    RetrievalsAreReqs(evs + [ev]);
    ReceiveKeepsReqs(Run(evs), ev);
    HonestSnoc(evs, ev);
  }

  lemma HonestAnswer(evs: seq<Event>)
    requires Honest(evs) && Run(evs).exit.None? && Dropped(evs) == 0
    ensures Run(evs).resps <= Run(evs).reqs
    ensures Honest(evs + AnswerOpen(Run(evs)) + [Poll(None, 0)])
  {
    var st := Run(evs);
    HonestNow(evs);
    RetrievalsAreReqs(evs);
    ResponsesAccounted(evs);
    if st.reqs == st.resps {
      assert evs + AnswerOpen(st) == evs;
    } else {
      HonestReply(evs, Receive(MessageEmpty(st.seqNo), Listed));
    }
    HonestPoll(evs + AnswerOpen(st));
  }

  /**
   * With a peer that answers each retrieval at most once and never unasked, polling is over for
   * good if and only if the loop has been left or an answer was thrown away at the credential
   * check.
   */
  lemma DroppedAnswerSilencesPolling(evs: seq<Event>)
    requires Honest(evs)
    ensures SilentIfHonest(evs) <==> Run(evs).exit.Some? || Dropped(evs) > 0
  {
    RetrievalsAreReqs(evs);
    if Run(evs).exit.Some? || Dropped(evs) > 0 {
      forall more: seq<Event> | Honest(evs + more) ensures Retrievals(evs + more) == Retrievals(evs) {
        RetrievalsAreReqs(evs + more);
        StaysOpen(evs, more);
      }
    } else {
      var more := AnswerOpen(Run(evs)) + [Poll(None, 0)];
      HonestAnswer(evs);
      CanRetrieve(evs);
      assert evs + more == evs + AnswerOpen(Run(evs)) + [Poll(None, 0)];
      RetrievalsAreReqs(evs + more);
      assert Retrievals(evs + more) != Retrievals(evs);
    }
  }

  lemma LostStep(st: State, s: nat)
    requires st.exit.None? && st.reqs == st.resps
    ensures var st1 := Step(st, Poll(None, 0));
            st1.reqs == st.reqs + 1 && Step(st1, Receive(MessageEmpty(s), Unavailable)).exit.None?
  {
  }

  /** One retrieval whose answer is thrown away is enough, at any time of an honest connection. */
  lemma OneLostAnswer(evs: seq<Event>, s: nat)
    requires Honest(evs) && Run(evs).exit.None? && Run(evs).reqs == Run(evs).resps
    ensures var lost := evs + [Poll(None, 0)] + [Receive(MessageEmpty(s), Unavailable)];
            Run(lost).exit.None? && Honest(lost) && SilentIfHonest(lost)
  {
    var poll, ev := Poll(None, 0), Receive(MessageEmpty(s), Unavailable);
    LostStep(Run(evs), s);
    HonestNow(evs);
    ResponsesSnoc(evs, poll);
    RunSnoc(evs, poll);
    RunSnoc(evs + [poll], ev);
    RetrievalsAreReqs(evs);
    RetrievalsAreReqs(evs + [poll]);
    HonestPoll(evs);
    HonestReply(evs + [poll], ev);
    ResponsesSnoc(evs + [poll], ev);
    DroppedAnswerSilencesPolling(evs + [poll] + [ev]);
  }

  /** The interval set by the last poll, the length of the iterations since that dequeued a request, and whether there were any. */
  datatype Spending = Spending(interval: int, spent: nat, any: bool)

  function Spent(evs: seq<Event>): Spending {
    if evs == [] then Spending(0, 0, false)
    else
      var n := |evs| - 1;
      var s := Spent(evs[..n]);
      match evs[n]
      case Poll(_, i) => Spending(i, 0, false)
      case GetConsensus(_, t) => Spending(s.interval, s.spent + t, true)
      case SendPacket(_, t) => Spending(s.interval, s.spent + t, true)
      case _ => s
  }

  lemma DelayStep(st: State, ev: Event)
    requires st.exit.None? && Step(st, ev).exit.None?
    ensures Step(st, ev).delay == match ev
            case Poll(_, i) => i
            case GetConsensus(_, t) => Shrink(st.delay, t)
            case SendPacket(_, t) => Shrink(st.delay, t)
            case _ => st.delay
  {
  }

  /**
   * The poll delay is the interval set by the last poll less the length of every iteration since
   * that dequeued a request, never below zero; iterations that received a command do not shorten it.
   */
  lemma {:induction false} PollDelay(evs: seq<Event>)
    requires Run(evs).exit.None?
    ensures var s := Spent(evs);
            && (!s.any ==> s.spent == 0)
            && Run(evs).delay == if !s.any then s.interval else if s.spent < s.interval then s.interval - s.spent else 0
  {
    if evs != [] {
      var n := |evs| - 1;
      PollDelay(evs[..n]);
      DelayStep(Run(evs[..n]), evs[n]);
    }
  }

  // ----- the loop as written

  /** The switch over a received command; a reason in `wireErr` means the loop is to be left. */
  method HandleCommand(cmd: Command, ghost st: State, log: seq<Obs>, consensusCtx: Option<nat>, seqNo: nat, nrResps: nat)
    returns (log': seq<Obs>, consensusCtx': Option<nat>, seqNo': nat, nrResps': nat, wireErr: Option<Reason>)
    requires st.log == log && st.pending == consensusCtx && st.seqNo == seqNo && st.resps == nrResps
    ensures var next := st.(log := log', pending := consensusCtx', seqNo := seqNo', resps := nrResps');
            Handle(st, cmd) == if wireErr.None? then next else Leave(next, wireErr.value)
  {
    log', consensusCtx', seqNo', nrResps', wireErr := log, consensusCtx, seqNo, nrResps, None;
    match cmd {
      case NoOp =>
      case Disconnect => wireErr := Some(PeerDisconnected);
      case MessageEmpty(s) =>
        if s != seqNo { wireErr := Some(BadSequence); return; }
        nrResps' := nrResps + 1;
        log' := log + [Accept(Empty, s)] + [SpoolEmpty];
      case Message(s, hint) =>
        if s != seqNo { wireErr := Some(BadSequence); return; }
        nrResps' := nrResps + 1;
        log' := log + [Accept(Payload, s)];
        seqNo' := (seqNo + 1) % TWO32;
        if hint == 0 { log' := log' + [SpoolEmpty]; }
      case MessageAck(s) =>
        if s != seqNo { wireErr := Some(BadSequence); return; }
        nrResps' := nrResps + 1;
        log' := log + [Accept(Ack, s)];
        seqNo' := (seqNo + 1) % TWO32;
      case Consensus(payload) =>
        if consensusCtx.None? { wireErr := Some(SpuriousConsensus); return; }
        log' := log + [Reply(consensusCtx.value, Document(payload))];
        consensusCtx' := None;
      case Unknown => wireErr := Some(UnknownCommand);
    }
  }

  /** One iteration of the loop; a reason in `wireErr` means it is to be left. */
  method OneEvent(ev: Event, n: nat, ghost st: State, log: seq<Obs>, consensusCtx: Option<nat>, fetchDelay: int,
                  seqNo: nat, nrReqs: nat, nrResps: nat)
    returns (log': seq<Obs>, consensusCtx': Option<nat>, fetchDelay': int, seqNo': nat, nrReqs': nat, nrResps': nat,
             wireErr: Option<Reason>)
    requires st == State(seqNo, nrReqs, nrResps, consensusCtx, fetchDelay, log, None, n)
    ensures var next := State(seqNo', nrReqs', nrResps', consensusCtx', fetchDelay', log', None, n);
            Act(st, ev) == if wireErr.None? then next else Leave(next, wireErr.value)
  {
    log', consensusCtx', fetchDelay', seqNo', nrReqs', nrResps' := log, consensusCtx, fetchDelay, seqNo, nrReqs, nrResps;
    wireErr := None;
    match ev {
      case Poll(err, interval) =>
        if nrReqs == nrResps {
          if err.Some? { wireErr := Some(SendError(err.value)); return; }
          log' := log + [Retrieve(seqNo)];
          nrReqs' := nrReqs + 1;
        }
        fetchDelay' := interval;
      case GetConsensus(err, elapsed) =>
        if consensusCtx.Some? {
          log' := log + [ConsensusDone(n, Outstanding)];
        } else {
          consensusCtx' := Some(n);
          log' := log + [ConsensusDone(n, SendStatus(err))];
          if err.Some? { wireErr := Some(SendError(err.value)); return; }
        }
        fetchDelay' := if elapsed < fetchDelay then fetchDelay - elapsed else 0;
      case SendPacket(err, elapsed) =>
        log' := log + [PacketDone(n, SendStatus(err))];
        if err.Some? { wireErr := Some(SendError(err.value)); return; }
        fetchDelay' := if elapsed < fetchDelay then fetchDelay - elapsed else 0;
      case Receive(cmd, creds) =>
        if creds == Unlisted { wireErr := Some(PeerUnlisted); return; }
        if creds == Listed {
          log', consensusCtx', seqNo', nrResps', wireErr := HandleCommand(cmd, st, log, consensusCtx, seqNo, nrResps);
        }
      case ReceiveFailed(err) => wireErr := Some(ReceiveError(err));
      case ReceiveClosed => wireErr := Some(ReceiveEnded);
      case Halt => wireErr := Some(Shutdown);
      case CallbackFailed(err) => wireErr := Some(CallbackError(err));
    }
  }

  /** onWireConn as it is written: local counters, one select per iteration, deferred teardown. */
  method OnWireConn(evs: seq<Event>) returns (log: seq<Obs>, left: bool, wireErr: Option<Reason>)
    ensures log == Run(evs).log == LogOf(evs)
    ensures left <==> Run(evs).exit.Some?
    ensures left ==> wireErr == Run(evs).exit
  {
    LogIs(evs);
    log, left, wireErr := [], false, None;
    var consensusCtx: Option<nat> := None;
    var fetchDelay: int := 0;
    var seqNo: nat, nrReqs: nat, nrResps: nat := 0, 0, 0;
    var n := 0;
    while n < |evs| && !left
      invariant 0 <= n <= |evs|
      invariant left ==> wireErr.Some?
      invariant var here := State(seqNo, nrReqs, nrResps, consensusCtx, fetchDelay, log, None, n);
                Run(evs[..n]) == if left then Leave(here, wireErr.value) else here
    {
      assert evs[..n + 1][..n] == evs[..n];
      ghost var st := State(seqNo, nrReqs, nrResps, consensusCtx, fetchDelay, log, None, n);
      log, consensusCtx, fetchDelay, seqNo, nrReqs, nrResps, wireErr :=
        OneEvent(evs[n], n, st, log, consensusCtx, fetchDelay, seqNo, nrReqs, nrResps);
      left := wireErr.Some?;
      n := n + 1;
    }
    if left {
      if consensusCtx.Some? { log := log + [Reply(consensusCtx.value, NotConnected)]; }
      log := log + [Exit(wireErr.value)];
      StaysLeft(evs, n);
    } else {
      assert evs[..n] == evs;
    }
  }

  lemma {:induction false} StaysLeft(evs: seq<Event>, n: nat)
    requires n <= |evs| && Run(evs[..n]).exit.Some?
    ensures Run(evs) == Run(evs[..n])
    decreases |evs|
  {
    if n == |evs| {
      assert evs[..n] == evs;
    } else {
      var m := |evs| - 1;
      assert evs[..m][..n] == evs[..n];
      StaysLeft(evs[..m], n);
    }
  }
}
