/**
 * The session's own maps and counters (session.go, send.go), with callbacks taken one at a time.
 * Each method does to the fields what the code does, and its ghost trace is a run of the SURB
 * model that ends in the same state, so what is proved of all runs holds of the fields.
 */
module SessionMaps {
  import opened Basics
  import opened Surb

  datatype Notice = MessageReply(msg: MsgId) | MessageGarbageCollected(msg: MsgId)

  /** The events an outcome puts on the event channel, and the reply it hands to a blocking caller. */
  function EventOf(o: Outcome): seq<Notice> {
    match o.result
    case Delivered(msg) => if o.entry.blocking then [] else [MessageReply(msg)]
    case Collected(msg, _) => [MessageGarbageCollected(msg)]
    case _ => []
  }

  function ReplyOf(o: Outcome): seq<MsgId> {
    if o.result.Delivered? && o.entry.blocking then [o.result.msg] else []
  }

  function Events(os: seq<Outcome>): seq<Notice> {
    if os == [] then [] else Events(os[..|os| - 1]) + EventOf(os[|os| - 1])
  }

  function Replies(os: seq<Outcome>): seq<MsgId> {
    if os == [] then [] else Replies(os[..|os| - 1]) + ReplyOf(os[|os| - 1])
  }

  lemma OutcomeSnoc(os: seq<Outcome>, o: Outcome)
    ensures Events(os + [o]) == Events(os) + EventOf(o)
    ensures Replies(os + [o]) == Replies(os) + ReplyOf(o)
  {
    assert (os + [o])[..|os|] == os;
  }

  /** What a send for a message with a SURB changes: stored if sent, and a loop decoy counted either way. */
  ghost predicate SentBy(st: State, st': State, id: SurbId, entry: Entry, sendOk: bool) {
    && Calm(st')
    && st'.live == (if sendOk then st.live[id := entry] else st.live)
    && st'.owner == (if sendOk then st.owner[id := entry] else st.owner)
    && st'.outcomes == st.outcomes
    && st'.decoys.tally == (if entry.decoy then Wrap(st.decoys.tally + 1) else st.decoys.tally)
    && st'.decoys.failed == st.decoys.failed + BoolToInt(entry.decoy && !sendOk)
  }

  lemma DecoyEffect(st: State, id: SurbId, entry: Entry, sendOk: bool, slop: int)
    requires Calm(st) && id !in st.owner && entry.decoy
    ensures var st1 := Step(st, if sendOk then DecoySent(id, entry) else DecoyFailed, slop);
            SentBy(st, Step(st1, DecoyCounted, slop), id, entry, sendOk)
  {
  }

  lemma UserEffect(st: State, id: SurbId, entry: Entry, slop: int)
    requires Calm(st) && id !in st.owner && !entry.decoy
    ensures SentBy(st, Step(st, Send(id, entry), slop), id, entry, true)
  {
  }

  /** The steps of a send. */
  lemma SendSteps(evs: seq<Event>, id: SurbId, entry: Entry, sendOk: bool, slop: int) returns (all: seq<Event>)
    requires Calm(Run(evs, slop)) && id !in Run(evs, slop).owner
    ensures SentBy(Run(evs, slop), Run(all, slop), id, entry, sendOk)
  {
    var st := Run(evs, slop);
    if entry.decoy {
      DecoyEffect(st, id, entry, sendOk, slop);
      var ev := if sendOk then DecoySent(id, entry) else DecoyFailed;
      var st1 := Step(st, ev, slop);
      all := Extend(evs, ev, slop, st1);
      all := Extend(all, DecoyCounted, slop, Step(st1, DecoyCounted, slop));
    } else if sendOk {
      UserEffect(st, id, entry, slop);
      all := Extend(evs, Send(id, entry), slop, Step(st, Send(id, entry), slop));
    } else {
      all := evs;
    }
  }

  /** The steps of a claim taken at once, and what it announces. */
  lemma ClaimSteps(evs: seq<Event>, ev: Event, v: Verdict, slop: int) returns (all: seq<Event>)
    requires Calm(Run(evs, slop)) && Claims(Run(evs, slop), ev, slop)
    ensures var st, st' := Run(evs, slop), Run(all, slop);
            var o := OutcomeOf(st, ev, v);
            && Took(st, st', o)
            && Events(st'.outcomes) == Events(st.outcomes) + EventOf(o)
            && Replies(st'.outcomes) == Replies(st.outcomes) + ReplyOf(o)
  {
    all := TakenAtOnce(evs, ev, v, slop);
    OutcomeSnoc(Run(evs, slop).outcomes, OutcomeOf(Run(evs, slop), ev, v));
  }

  /** The same for a collection visit. */
  lemma CollectSteps(evs: seq<Event>, id: SurbId, now: int, slop: int) returns (all: seq<Event>)
    requires Calm(Run(evs, slop)) && id in Run(evs, slop).live && Expired(Run(evs, slop).live[id], now, slop)
    ensures var st, st' := Run(evs, slop), Run(all, slop);
            && Calm(st') && st'.live == st.live - {id} && st'.owner == st.owner && st'.decoys == st.decoys
            && Events(st'.outcomes) == Events(st.outcomes) + [MessageGarbageCollected(st.live[id].msg)]
            && Replies(st'.outcomes) == Replies(st.outcomes)
  {
    all := ClaimSteps(evs, ReadExpired(id, now), Good, slop);
  }

  /** One more, on 64 bits. */
  function Up(tally: nat): nat {
    if tally == 0xFFFF_FFFF_FFFF_FFFF then 0 else tally + 1
  }

  lemma Plus(tally: nat)
    requires tally < TWO64
    ensures Wrap(tally + 1) == Up(tally) < TWO64
  {
  }

  /** One less, on 64 bits. */
  function Down(tally: nat): nat {
    if tally == 0 then 0xFFFF_FFFF_FFFF_FFFF else tally - 1
  }

  lemma Minus(tally: nat)
    requires tally < TWO64
    ensures Wrap(tally + 0xFFFF_FFFF_FFFF_FFFF) == Down(tally)
  {
  }

  /** What is announced, and the tally. */
  datatype Shown = Shown(events: seq<Notice>, replies: seq<MsgId>, tally: nat)

  /**
   * What the reply to a stored message changes, by its payload, the kind of the message, and
   * whether a blocking caller still waits.
   */
  predicate AckSays(entry: Entry, payloadOk: bool, waits: bool, was: Shown, now: Shown) {
    && (!payloadOk ==> now == was)
    && (payloadOk && entry.decoy ==> now == was.(tally := Down(was.tally)))
    && (payloadOk && !entry.decoy && !entry.blocking ==> now == was.(events := was.events + [MessageReply(entry.msg)]))
    && (payloadOk && !entry.decoy && entry.blocking ==>
          now == was.(replies := was.replies + if waits then [entry.msg] else []))
  }

  function VerdictOf(payloadOk: bool, waits: bool): Verdict {
    if !payloadOk then Undecodable else if waits then Good else CallerGone
  }

  /** The model's outcome for such a reply announces just that. */
  lemma OutcomeSays(entry: Entry, payloadOk: bool, waits: bool, o: Outcome, was: Shown, now: Shown)
    requires o.entry == entry && o.result == ResultOf(Claim(o.id, entry, Reply, true), VerdictOf(payloadOk, waits))
    requires AckSays(entry, payloadOk, waits, was, now)
    ensures now.events == was.events + EventOf(o) && now.replies == was.replies + ReplyOf(o)
    ensures now.tally == if o.result == DecoyAcked then Down(was.tally) else was.tally
  {
  }

  /** `evs` is a run of the model that ends in `st`, and the session's fields are what `st` says. */
  ghost predicate Mirrors(evs: seq<Event>, st: State, slop: int,
                          live: map<SurbId, Entry>, tally: nat, events: seq<Notice>, replies: seq<MsgId>)
  {
    st == Run(evs, slop) && Says(st, live, tally, events, replies)
  }

  ghost predicate Says(st: State, live: map<SurbId, Entry>, tally: nat, events: seq<Notice>, replies: seq<MsgId>) {
    && Calm(st)
    && st.live == live && st.decoys.tally == tally
    && Events(st.outcomes) == events && Replies(st.outcomes) == replies
  }

  lemma SendMirrors(evs: seq<Event>, st: State, slop: int, live: map<SurbId, Entry>, tally: nat,
                    events: seq<Notice>, replies: seq<MsgId>, id: SurbId, entry: Entry, sendOk: bool,
                    live': map<SurbId, Entry>, tally': nat)
    returns (all: seq<Event>, st': State)
    requires Mirrors(evs, st, slop, live, tally, events, replies) && id !in st.owner
    requires live' == if sendOk then live[id := entry] else live
    requires tally' == if entry.decoy then Wrap(tally + 1) else tally
    ensures Mirrors(all, st', slop, live', tally', events, replies)
    ensures SentBy(st, st', id, entry, sendOk)
  {
    all := SendSteps(evs, id, entry, sendOk, slop);
    st' := Run(all, slop);
  }

  lemma TookSays(st: State, st': State, o: Outcome, payloadOk: bool, waits: bool, live: map<SurbId, Entry>, was: Shown, now: Shown)
    requires Says(st, live, was.tally, was.events, was.replies) && o.id in live && was.tally < TWO64
    requires o.entry == live[o.id] && o.result == ResultOf(Claim(o.id, o.entry, Reply, true), VerdictOf(payloadOk, waits))
    requires AckSays(o.entry, payloadOk, waits, was, now) && Took(st, st', o)
    ensures Says(st', live - {o.id}, now.tally, now.events, now.replies)
  {
    OutcomeSnoc(st.outcomes, o);
    Minus(was.tally);
    OutcomeSays(o.entry, payloadOk, waits, o, was, now);
  }

  lemma AckMirrors(evs: seq<Event>, st: State, slop: int, live: map<SurbId, Entry>, was: Shown,
                   id: SurbId, payloadOk: bool, waits: bool, now: Shown)
    returns (all: seq<Event>, st': State)
    requires Mirrors(evs, st, slop, live, was.tally, was.events, was.replies) && id in live && was.tally < TWO64
    requires AckSays(live[id], payloadOk, waits, was, now)
    ensures Mirrors(all, st', slop, live - {id}, now.tally, now.events, now.replies)
    ensures Took(st, st', OutcomeOf(st, ReadReply(id), VerdictOf(payloadOk, waits)))
  {
    var v := VerdictOf(payloadOk, waits);
    all := TakenAtOnce(evs, ReadReply(id), v, slop);
    st' := Run(all, slop);
    TookSays(st, st', OutcomeOf(st, ReadReply(id), v), payloadOk, waits, live, was, now);
  }

  lemma CollectMirrors(evs: seq<Event>, st: State, slop: int, live: map<SurbId, Entry>, tally: nat,
                       events: seq<Notice>, replies: seq<MsgId>, id: SurbId, now: int)
    returns (all: seq<Event>, st': State)
    requires Mirrors(evs, st, slop, live, tally, events, replies) && id in live && Expired(live[id], now, slop)
    ensures Mirrors(all, st', slop, live - {id}, tally, events + [MessageGarbageCollected(live[id].msg)], replies)
    ensures st'.owner == st.owner && st'.decoys.failed == st.decoys.failed
  {
    all := CollectSteps(evs, id, now, slop);
    st' := Run(all, slop);
  }

  // ----- a collection, visiting entries in some order and reading the clock for each

  /** What is left of `m` after visiting `order`, entry `order[i]` at time `nows[i]`. */
  function Kept(m: map<SurbId, Entry>, order: seq<SurbId>, nows: seq<int>, slop: int): map<SurbId, Entry>
    requires |order| <= |nows|
  {
    if order == [] then m
    else
      var n := |order| - 1;
      var rest := Kept(m, order[..n], nows, slop);
      if order[n] in m && Expired(m[order[n]], nows[n], slop) then rest - {order[n]} else rest
  }

  /** The events this gives. */
  function Notices(m: map<SurbId, Entry>, order: seq<SurbId>, nows: seq<int>, slop: int): seq<Notice>
    requires |order| <= |nows|
  {
    if order == [] then []
    else
      var n := |order| - 1;
      Notices(m, order[..n], nows, slop) +
      if order[n] in m && Expired(m[order[n]], nows[n], slop)
      then [MessageGarbageCollected(m[order[n]].msg)] else []
  }

  lemma VisitSnoc(m: map<SurbId, Entry>, order: seq<SurbId>, nows: seq<int>, slop: int, id: SurbId)
    requires |order| < |nows| && id in m
    ensures var rest, gone := Kept(m, order, nows, slop), Expired(m[id], nows[|order|], slop);
            && Kept(m, order + [id], nows, slop) == (if gone then rest - {id} else rest)
            && Notices(m, order + [id], nows, slop) ==
               Notices(m, order, nows, slop) + if gone then [MessageGarbageCollected(m[id].msg)] else []
  {
    assert (order + [id])[..|order|] == order;
  }

  /** An entry is kept unless it was expired at its visit, and is not changed. */
  lemma {:induction false} KeptIff(m: map<SurbId, Entry>, order: seq<SurbId>, nows: seq<int>, slop: int, id: SurbId)
    requires |order| <= |nows|
    ensures var left := Kept(m, order, nows, slop);
            && (id in left <==> id in m && forall i :: 0 <= i < |order| && order[i] == id ==> !Expired(m[id], nows[i], slop))
            && (id in left ==> left[id] == m[id])
  {
    if order != [] {
      var n := |order| - 1;
      KeptIff(m, order[..n], nows, slop, id);
      assert forall i :: 0 <= i < n ==> order[..n][i] == order[i];
    }
  }

  /** The entries are visited once each: those in `order` have been, those in `todo` not yet. */
  ghost predicate Visiting(m: map<SurbId, Entry>, order: seq<SurbId>, todo: set<SurbId>) {
    && NoDuplicates(order) && todo <= m.Keys
    && |order| + |todo| == |m|
    && (forall id :: id in order <==> id in m && id !in todo)
  }

  lemma VisitNext(m: map<SurbId, Entry>, order: seq<SurbId>, todo: set<SurbId>, id: SurbId)
    requires Visiting(m, order, todo) && id in todo
    ensures Visiting(m, order + [id], todo - {id})
  {
  }

  predicate Rising(nows: seq<int>) {
    forall i, j :: 0 <= i < j < |nows| ==> nows[i] <= nows[j]
  }

  lemma KeptAt(m: map<SurbId, Entry>, order: seq<SurbId>, nows: seq<int>, slop: int, i: nat)
    requires NoDuplicates(order) && |order| <= |nows| && i < |order| && order[i] in m
    ensures order[i] in Kept(m, order, nows, slop) <==> !Expired(m[order[i]], nows[i], slop)
  {
    KeptIff(m, order, nows, slop, order[i]);
  }

  /**
   * A complete collection: exactly the entries expired at their own visit are gone; so, with a
   * clock that does not run back, all that were expired at its first reading and none that are
   * not at its last.
   */
  lemma CollectedIff(m: map<SurbId, Entry>, order: seq<SurbId>, nows: seq<int>, slop: int, i: nat)
    requires Visiting(m, order, {}) && |nows| == |m| && Rising(nows) && i < |order|
    ensures order[i] in m
    ensures var left, e := Kept(m, order, nows, slop), m[order[i]];
            && (order[i] !in left <==> nows[i] > e.sentAt + e.eta + slop)
            && (order[i] in left ==> left[order[i]] == e)
            && (nows[0] > e.sentAt + e.eta + slop ==> order[i] !in left)
            && (order[i] !in left ==> nows[|nows| - 1] > e.sentAt + e.eta + slop)
  {
    assert order[i] in order;
    KeptAt(m, order, nows, slop, i);
    KeptIff(m, order, nows, slop, order[i]);
    assert nows[0] <= nows[i] <= nows[|nows| - 1];
  }

  /** The visits that found their entry expired, in order. */
  function Expiries(m: map<SurbId, Entry>, order: seq<SurbId>, nows: seq<int>, slop: int): seq<MsgId>
    requires |order| <= |nows|
  {
    if order == [] then []
    else
      var n := |order| - 1;
      Expiries(m, order[..n], nows, slop) +
      if order[n] in m && nows[n] > m[order[n]].sentAt + m[order[n]].eta + slop then [m[order[n]].msg] else []
  }

  /** The events of a collection: one for the message of every entry found expired, in the order of the visits. */
  lemma {:induction false} NoticesAre(m: map<SurbId, Entry>, order: seq<SurbId>, nows: seq<int>, slop: int)
    requires |order| <= |nows|
    ensures var ms := Expiries(m, order, nows, slop);
            Notices(m, order, nows, slop) == seq(|ms|, i requires 0 <= i < |ms| => MessageGarbageCollected(ms[i]))
  {
    if order != [] { NoticesAre(m, order[..|order| - 1], nows, slop); }
  }

  /** What holds of every run that ends with nothing in progress and no overlap. */
  lemma CalmConserves(evs: seq<Event>, slop: int)
    requires Calm(Run(evs, slop))
    ensures var st := Run(evs, slop);
            && OneOutcomeEach(st.outcomes)
            && forall id :: id in st.owner ==> (id in st.live <==> !HasOutcome(st.outcomes, id))
  {
    NothingLost(evs, slop);
    RunKeepsInv(evs, slop);
    RunKeepsAccounted(evs, slop);
    AtMostOnce(Run(evs, slop), slop);
  }

  lemma CalmUnanswered(st: State)
    requires st.claims == map[] && !st.decoys.inFlight
    ensures var e := EndedDecoys(st.outcomes);
            Unanswered(st) == |DecoyIds(st.live)| + e.collected + e.discarded + st.decoys.failed
  {
    assert HeldDecoys(st.claims) == {};
  }

  lemma LawWhenCalm(st: State, slop: int)
    requires Inv(st, slop) && Law(st) && Calm(st)
    ensures var e := EndedDecoys(st.outcomes);
            st.decoys.tally == Wrap(|DecoyIds(st.live)| + e.collected + e.discarded + st.decoys.failed)
  {
    NoSurplus(st, slop);
    CalmUnanswered(st);
  }

  lemma CalmTally(evs: seq<Event>, st: State, slop: int)
    requires st == Run(evs, slop) && Calm(st)
    ensures var e := EndedDecoys(st.outcomes);
            st.decoys.tally == Wrap(|DecoyIds(st.live)| + e.collected + e.discarded + st.decoys.failed)
  {
    RunKeepsLaw(evs, slop);
    RunKeepsInv(evs, slop);
    LawWhenCalm(st, slop);
  }

  class Session {
    const slop: int
    var surbIDMap: map<SurbId, Entry>
    var replyWaitChanMap: set<MsgId>
    var decoyLoopTally: nat
    var events: seq<Notice>
    var replies: seq<MsgId>
    ghost var trace: seq<Event>
    ghost var past: State

    ghost predicate Valid()
      reads this
    {
      Mirrors(trace, past, slop, surbIDMap, decoyLoopTally, events, replies) && decoyLoopTally < TWO64
    }

    constructor (slop: int)
      ensures Valid() && this.slop == slop && past == Init
      ensures surbIDMap == map[] && replyWaitChanMap == {} && decoyLoopTally == 0 && events == [] && replies == []
    {
      this.slop := slop;
      surbIDMap, replyWaitChanMap, decoyLoopTally, events, replies := map[], {}, 0, [], [];
      trace, past := [], Init;
    }

    /** A blocking caller starts, or gives up, waiting for the reply to its message. */
    method SetWaiting(msg: MsgId, waiting: bool)
      requires Valid()
      modifies this`replyWaitChanMap
      ensures Valid()
      ensures replyWaitChanMap == if waiting then old(replyWaitChanMap) + {msg} else old(replyWaitChanMap) - {msg}
    {
      replyWaitChanMap := if waiting then replyWaitChanMap + {msg} else replyWaitChanMap - {msg};
    }

    /** The end of doSend for a message with a SURB, and sendLoopDecoy's deferred increment. */
    method DoSend(id: SurbId, entry: Entry, sendOk: bool)
      requires Valid() && id !in past.owner
      modifies this`surbIDMap, this`decoyLoopTally, this`trace, this`past
      ensures Valid()
      ensures surbIDMap == if sendOk then old(surbIDMap)[id := entry] else old(surbIDMap)
      ensures decoyLoopTally == if entry.decoy then Up(old(decoyLoopTally)) else old(decoyLoopTally)
      ensures SentBy(old(past), past, id, entry, sendOk)
    {
      ghost var live, tally := surbIDMap, decoyLoopTally;
      if sendOk { surbIDMap := surbIDMap[id := entry]; }
      Plus(decoyLoopTally);
      if entry.decoy { decoyLoopTally := Wrap(decoyLoopTally + 1); }
      trace, past := SendMirrors(trace, past, slop, live, tally, events, replies, id, entry, sendOk, surbIDMap, decoyLoopTally);
    }

    ghost function Announced(): Shown
      reads this
    {
      Shown(events, replies, decoyLoopTally)
    }

    /** onACK: an unknown ID changes nothing; a known one leaves the map whatever its payload. */
    method OnAck(id: SurbId, payloadOk: bool)
      requires Valid()
      modifies this`surbIDMap, this`decoyLoopTally, this`events, this`replies, this`trace, this`past
      ensures Valid()
      ensures id !in old(surbIDMap) ==> surbIDMap == old(surbIDMap) && Announced() == old(Announced()) && past == old(past)
      ensures id in old(surbIDMap) ==>
                var waits := old(surbIDMap)[id].msg in replyWaitChanMap;
                && surbIDMap == old(surbIDMap) - {id}
                && AckSays(old(surbIDMap)[id], payloadOk, waits, old(Announced()), Announced())
                && Took(old(past), past, old(OutcomeOf(past, ReadReply(id), VerdictOf(payloadOk, waits))))
    {
      if id !in surbIDMap { return; }
      var msg := surbIDMap[id];
      ghost var live, was := surbIDMap, Announced();
      surbIDMap := surbIDMap - {id};
      Deliver(msg, payloadOk);
      trace, past := AckMirrors(trace, past, slop, live, was, id, payloadOk, msg.msg in replyWaitChanMap, Announced());
    }

    /** What onACK does with the message once it is out of the map. */
    method Deliver(msg: Entry, payloadOk: bool)
      requires decoyLoopTally < TWO64
      modifies this`decoyLoopTally, this`events, this`replies
      ensures AckSays(msg, payloadOk, msg.msg in replyWaitChanMap, old(Announced()), Announced())
      ensures decoyLoopTally < TWO64
    {
      if !payloadOk { return; }
      if msg.decoy {
        Minus(decoyLoopTally);
        decoyLoopTally := Wrap(decoyLoopTally + 0xFFFF_FFFF_FFFF_FFFF);
        return;
      }
      if msg.blocking {
        if msg.msg !in replyWaitChanMap { return; }
        replies := replies + [msg.msg];
      } else {
        events := events + [MessageReply(msg.msg)];
      }
    }

    /** garbageCollect's visit to one entry. */
    method Visit(id: SurbId, now: int) returns (gone: bool)
      requires Valid() && id in surbIDMap
      modifies this`surbIDMap, this`events, this`trace, this`past
      ensures Valid()
      ensures gone <==> Expired(old(surbIDMap)[id], now, slop)
      ensures surbIDMap == if gone then old(surbIDMap) - {id} else old(surbIDMap)
      ensures events == old(events) + if gone then [MessageGarbageCollected(old(surbIDMap)[id].msg)] else []
      ensures past.owner == old(past.owner) && past.decoys.failed == old(past.decoys.failed)
    {
      var message := surbIDMap[id];
      gone := now > message.sentAt + message.eta + slop;
      if gone {
        trace, past := CollectMirrors(trace, past, slop, surbIDMap, decoyLoopTally, events, replies, id, now);
        surbIDMap := surbIDMap - {id};
        events := events + [MessageGarbageCollected(message.msg)];
      }
    }

    /** The next visit of a collection that has come as far as `order`, with its own reading of the clock. */
    method VisitNextEntry(id: SurbId, order: seq<SurbId>, nows: seq<int>, ghost m: map<SurbId, Entry>, ghost before: seq<Notice>)
      requires Valid() && |order| < |nows| && id in m && id !in order
      requires surbIDMap == Kept(m, order, nows, slop) && events == before + Notices(m, order, nows, slop)
      modifies this`surbIDMap, this`events, this`trace, this`past
      ensures Valid()
      ensures surbIDMap == Kept(m, order + [id], nows, slop)
      ensures events == before + Notices(m, order + [id], nows, slop)
      ensures past.owner == old(past.owner) && past.decoys.failed == old(past.decoys.failed)
    {
      KeptIff(m, order, nows, slop, id);
      VisitSnoc(m, order, nows, slop, id);
      var _ := Visit(id, nows[|order|]);
    }

    /**
     * garbageCollect: every entry is visited once, in any order, with its own reading of the
     * clock; those that are expired then leave the map, each with one event for its message.
     */
    method GarbageCollect(nows: seq<int>) returns (order: seq<SurbId>)
      requires Valid() && |nows| == |surbIDMap|
      modifies this`surbIDMap, this`events, this`trace, this`past
      ensures Valid()
      ensures Visiting(old(surbIDMap), order, {})
      ensures surbIDMap == Kept(old(surbIDMap), order, nows, slop)
      ensures events == old(events) + Notices(old(surbIDMap), order, nows, slop)
      ensures past.owner == old(past.owner) && past.decoys.failed == old(past.decoys.failed)
    {
      order := [];
      var todo := surbIDMap.Keys;
      ghost var m, before := surbIDMap, events;
      while todo != {}
        invariant Valid() && past.owner == old(past.owner) && past.decoys.failed == old(past.decoys.failed)
        invariant Visiting(m, order, todo)
        invariant surbIDMap == Kept(m, order, nows, slop)
        invariant events == before + Notices(m, order, nows, slop)
        decreases |todo|
      {
        var id :| id in todo;
        VisitNext(m, order, todo, id);
        VisitNextEntry(id, order, nows, m, before);
        todo, order := todo - {id}, order + [id];
      }
    }

    /**
     * After any calls: every SURB ID ever stored is either still in the map or has had exactly one
     * outcome, and the tally is the number of loop decoys that are live, were collected or
     * discarded, or failed to send.
     */
    lemma Conserved()
      requires Valid()
      ensures forall id :: id in past.owner ==> (id in surbIDMap <==> !HasOutcome(past.outcomes, id))
      ensures forall i, j :: 0 <= i < j < |past.outcomes| ==> past.outcomes[i].id != past.outcomes[j].id
      ensures var e := EndedDecoys(past.outcomes);
              decoyLoopTally == Wrap(|DecoyIds(surbIDMap)| + e.collected + e.discarded + past.decoys.failed)
    {
      CalmConserves(trace, slop);
      CalmTally(trace, past, slop);
    }
  }
}
