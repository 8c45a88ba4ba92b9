/**
 * Book-keeping of single-use reply blocks (session.go, send.go): the map from SURB IDs to sent
 * messages, emptied by replies and by the garbage collector, and the tally of loop decoys.
 * A reply callback and a garbage-collection visit both first read an entry and later delete it;
 * anything may happen in between.  Claims are numbered in the order of their reads.
 */
module Surb {
  import opened Basics

  type SurbId = nat
  type MsgId = nat

  datatype Entry = Entry(msg: MsgId, decoy: bool, blocking: bool, sentAt: int, eta: int)

  datatype Kind = Reply | Collector(now: int)
  datatype Claim = Claim(id: SurbId, entry: Entry, kind: Kind, deleted: bool)

  /** What the reply handler found: a good payload, a good one but no caller waiting for it, or an undecodable one. */
  datatype Verdict = Good | CallerGone | Undecodable

  datatype Result = Delivered(msg: MsgId) | DecoyAcked | Discarded | Collected(msg: MsgId, now: int)
  datatype Outcome = Outcome(claim: nat, id: SurbId, entry: Entry, result: Result)

  datatype Event =
    | Send(id: SurbId, entry: Entry)                       // a user message, sent and stored
    | DecoySent(id: SurbId, entry: Entry)                  // a loop decoy, sent and stored
    | DecoyFailed                                          // a loop decoy whose send failed
    | DecoyCounted                                         // the deferred increment
    | ReadReply(id: SurbId)
    | ReadExpired(id: SurbId, now: int)
    | Delete(claim: nat)
    | Finish(claim: nat, verdict: Verdict)

  /**
   * `owner` remembers every entry ever stored, `made` the SURB IDs of all claims in order; `overlaps`
   * are the IDs of entries read while another claim had read and not yet deleted them.
   */
  datatype State = State(
    live: map<SurbId, Entry>, owner: map<SurbId, Entry>, claims: map<nat, Claim>, made: seq<SurbId>,
    outcomes: seq<Outcome>, overlaps: set<SurbId>, decoys: Decoys)

  /** The 64-bit tally, and what it should be counting. */
  datatype Decoys = Decoys(tally: nat, counted: nat, stored: nat, failed: nat, inFlight: bool)

  const Init := State(map[], map[], map[], [], [], {}, Decoys(0, 0, 0, 0, false))

  // ----- steps

  predicate Expired(e: Entry, now: int, slop: int) {
    now > e.sentAt + e.eta + slop
  }

  ghost predicate Contended(st: State, id: SurbId) {
    exists k :: k in st.claims && st.claims[k].id == id && !st.claims[k].deleted
  }

  /** Is the garbage collector, which is a single worker, busy with an entry? */
  ghost predicate Collecting(st: State) {
    exists k :: k in st.claims && st.claims[k].kind.Collector?
  }

  function Store(st: State, id: SurbId, entry: Entry): State {
    st.(live := st.live[id := entry], owner := st.owner[id := entry])
  }

  ghost function Read(st: State, id: SurbId, kind: Kind): State
    requires id in st.live
  {
    st.(claims := st.claims[|st.made| := Claim(id, st.live[id], kind, false)],
        made := st.made + [id], overlaps := st.overlaps + if Contended(st, id) then {id} else {})
  }

  function ResultOf(c: Claim, v: Verdict): Result {
    match c.kind
    case Collector(now) => Collected(c.entry.msg, now)
    case Reply =>
      if v == Undecodable then Discarded
      else if c.entry.decoy then DecoyAcked
      else if c.entry.blocking && v == CallerGone then Discarded
      else Delivered(c.entry.msg)
  }

  /** Go's uint64 arithmetic. */
  function Wrap(x: int): nat {
    x % 0x1_0000_0000_0000_0000
  }

  function Increment(d: Decoys): Decoys {
    d.(tally := Wrap(d.tally + 1), counted := d.counted + 1, inFlight := false)
  }

  function Decrement(d: Decoys): Decoys {
    d.(tally := Wrap(d.tally + 0xFFFF_FFFF_FFFF_FFFF))
  }

  /**
   * A step that is not enabled changes nothing.  The session worker sends one message at a time,
   * and SURB IDs are drawn fresh.
   */
  ghost function Step(st: State, ev: Event, slop: int): State {
    match ev
    case Send(id, entry) =>
      if st.decoys.inFlight || id in st.owner || entry.decoy then st else Store(st, id, entry)
    case DecoySent(id, entry) =>
      if st.decoys.inFlight || id in st.owner || !entry.decoy then st
      else Store(st, id, entry).(decoys := st.decoys.(stored := st.decoys.stored + 1, inFlight := true))
    case DecoyFailed =>
      if st.decoys.inFlight then st
      else st.(decoys := st.decoys.(failed := st.decoys.failed + 1, inFlight := true))
    case DecoyCounted => if st.decoys.inFlight then st.(decoys := Increment(st.decoys)) else st
    case ReadReply(id) => if id in st.live then Read(st, id, Reply) else st
    case ReadExpired(id, now) =>
      if id in st.live && Expired(st.live[id], now, slop) && !Collecting(st) then Read(st, id, Collector(now)) else st
    case Delete(k) =>
      if k in st.claims && !st.claims[k].deleted then
        st.(live := st.live - {st.claims[k].id}, claims := st.claims[k := st.claims[k].(deleted := true)])
      else st
    case Finish(k, v) =>
      if k in st.claims && st.claims[k].deleted then
        var c := st.claims[k];
        var r := ResultOf(c, v);
        st.(claims := st.claims - {k}, outcomes := st.outcomes + [Outcome(k, c.id, c.entry, r)],
            decoys := if r == DecoyAcked then Decrement(st.decoys) else st.decoys)
      else st
  }

  ghost function Run(evs: seq<Event>, slop: int): State {
    if evs == [] then Init else Step(Run(evs[..|evs| - 1], slop), evs[|evs| - 1], slop)
  }

  // ----- claims

  /** Entries are what their send stored; a claim holds a copy of the entry it read. */
  ghost predicate EntriesOk(st: State) {
    && (forall id :: id in st.live ==> id in st.owner && st.live[id] == st.owner[id])
    && (forall k :: k in st.claims ==>
                      && k < |st.made| && st.made[k] == st.claims[k].id
                      && st.claims[k].id in st.owner && st.claims[k].entry == st.owner[st.claims[k].id])
    && (forall i :: 0 <= i < |st.made| ==> st.made[i] in st.owner)
  }

  /** Claim `k` has been made and has deleted its entry, whether or not it has finished since. */
  ghost predicate Gone(st: State, k: int) {
    0 <= k < |st.made| && (k in st.claims ==> st.claims[k].deleted)
  }

  ghost predicate StillLive(st: State) {
    forall k :: Gone(st, k) ==> st.made[k] !in st.live
  }

  ghost predicate OutcomeOk(st: State, o: Outcome, slop: int) {
    && o.claim < |st.made| && st.made[o.claim] == o.id && o.claim !in st.claims
    && o.id in st.owner && o.entry == st.owner[o.id]
    && (match o.result
        case Delivered(msg) => msg == o.entry.msg && !o.entry.decoy
        case DecoyAcked => o.entry.decoy
        case Discarded => true
        case Collected(msg, now) => msg == o.entry.msg && Expired(o.entry, now, slop))
  }

  /** How a claim ends: a reply by payload, kind of message and waiting caller, a collection in its event. */
  lemma ResultIs(c: Claim, v: Verdict)
    ensures c.kind.Collector? ==> ResultOf(c, v) == Collected(c.entry.msg, c.kind.now)
    ensures c.kind.Reply? && v == Undecodable ==> ResultOf(c, v) == Discarded
    ensures c.kind.Reply? && v != Undecodable && c.entry.decoy ==> ResultOf(c, v) == DecoyAcked
    ensures c.kind.Reply? && v != Undecodable && !c.entry.decoy && !c.entry.blocking ==> ResultOf(c, v) == Delivered(c.entry.msg)
    ensures c.kind.Reply? && !c.entry.decoy && c.entry.blocking ==>
              ResultOf(c, v) == match v case Good => Delivered(c.entry.msg) case CallerGone => Discarded case Undecodable => Discarded
  {
  }

  ghost predicate OutcomesOk(st: State, slop: int) {
    && (forall k :: k in st.claims && st.claims[k].kind.Collector? ==>
                      Expired(st.claims[k].entry, st.claims[k].kind.now, slop))
    && (forall i :: 0 <= i < |st.outcomes| ==> OutcomeOk(st, st.outcomes[i], slop))
    && (forall i, j :: 0 <= i < j < |st.outcomes| ==> st.outcomes[i].claim != st.outcomes[j].claim)
  }

  ghost predicate Inv(st: State, slop: int) {
    && EntriesOk(st) && StillLive(st) && OutcomesOk(st, slop)
    && OverlapsOk(st)
  }

  ghost predicate Twice(made: seq<SurbId>, id: SurbId) {
    exists i, j :: 0 <= i < j < |made| && made[i] == id && made[j] == id
  }

  ghost predicate OverlapsOk(st: State) {
    forall id :: id in st.overlaps <==> Twice(st.made, id)
  }

  lemma StoreKeepsInv(st: State, id: SurbId, entry: Entry, d: Decoys, slop: int)
    requires Inv(st, slop) && id !in st.owner
    ensures Inv(Store(st, id, entry).(decoys := d), slop)
  {
    var st' := Store(st, id, entry).(decoys := d);
    forall k | Gone(st', k) ensures st'.made[k] !in st'.live { assert Gone(st, k); }
    assert forall o :: OutcomeOk(st, o, slop) ==> OutcomeOk(st', o, slop);
  }

  lemma ReadKeepsInv(st: State, id: SurbId, kind: Kind, slop: int)
    requires Inv(st, slop) && id in st.live
    requires kind.Collector? ==> Expired(st.live[id], kind.now, slop)
    ensures Inv(Read(st, id, kind), slop)
  {
    var st' := Read(st, id, kind);
    var n := |st.made|;
    forall k | Gone(st', k) ensures st'.made[k] !in st'.live { assert k < n && Gone(st, k); }
    ReadKeepsOverlaps(st, id, kind);
    assert forall o :: OutcomeOk(st, o, slop) ==> OutcomeOk(st', o, slop);
  }

  /** An entry in the map that has been claimed before is still claimed. */
  lemma ContendedIffMade(st: State, id: SurbId)
    requires EntriesOk(st) && StillLive(st) && id in st.live
    ensures Contended(st, id) <==> exists i :: 0 <= i < |st.made| && st.made[i] == id
  {
    forall i | 0 <= i < |st.made| && st.made[i] == id ensures Contended(st, id) {
      assert !Gone(st, i);
      assert st.claims[i].id == id;
    }
  }

  lemma TwiceSnoc(made: seq<SurbId>, id: SurbId, x: SurbId)
    ensures Twice(made + [id], x) <==> Twice(made, x) || (x == id && exists i :: 0 <= i < |made| && made[i] == id)
  {
    var made' := made + [id];
    assert forall i :: 0 <= i < |made| ==> made'[i] == made[i];
    assert made'[|made|] == id;
  }

  lemma ReadKeepsOverlaps(st: State, id: SurbId, kind: Kind)
    requires EntriesOk(st) && StillLive(st) && OverlapsOk(st) && id in st.live
    ensures OverlapsOk(Read(st, id, kind))
  {
    ContendedIffMade(st, id);
    forall x ensures x in Read(st, id, kind).overlaps <==> Twice(st.made + [id], x) { TwiceSnoc(st.made, id, x); }
  }

  lemma DeleteKeepsInv(st: State, k: nat, slop: int)
    requires Inv(st, slop) && k in st.claims && !st.claims[k].deleted
    ensures Inv(Step(st, Delete(k), slop), slop)
  {
    var st' := Step(st, Delete(k), slop);
    forall j | Gone(st', j) ensures st'.made[j] !in st'.live { assert j == k || Gone(st, j); }
    assert forall o :: OutcomeOk(st, o, slop) ==> OutcomeOk(st', o, slop);
  }

  lemma FinishKeepsInv(st: State, k: nat, v: Verdict, slop: int)
    requires Inv(st, slop) && k in st.claims && st.claims[k].deleted
    ensures Inv(Step(st, Finish(k, v), slop), slop)
  {
    var st' := Step(st, Finish(k, v), slop);
    forall j | Gone(st', j) ensures st'.made[j] !in st'.live { assert Gone(st, j); }
    assert forall o :: OutcomeOk(st, o, slop) ==> OutcomeOk(st', o, slop);
    assert OutcomeOk(st', st'.outcomes[|st.outcomes|], slop);
    assert forall i :: 0 <= i < |st.outcomes| ==> st.outcomes[i].claim !in st.claims;
  }

  lemma StepKeepsInv(st: State, ev: Event, slop: int)
    requires Inv(st, slop)
    ensures Inv(Step(st, ev, slop), slop)
  {
    var st' := Step(st, ev, slop);
    match ev
    case Send(id, entry) => if id !in st.owner { StoreKeepsInv(st, id, entry, st.decoys, slop); }
    case DecoySent(id, entry) => if id !in st.owner { StoreKeepsInv(st, id, entry, st'.decoys, slop); }
    case DecoyFailed => SameButDecoys(st, st'.decoys, slop);
    case DecoyCounted => SameButDecoys(st, st'.decoys, slop);
    case ReadReply(id) => if id in st.live { ReadKeepsInv(st, id, Reply, slop); }
    case ReadExpired(id, now) =>
      if id in st.live && Expired(st.live[id], now, slop) && !Collecting(st) { ReadKeepsInv(st, id, Collector(now), slop); }
    case Delete(k) => if k in st.claims && !st.claims[k].deleted { DeleteKeepsInv(st, k, slop); }
    case Finish(k, v) => if k in st.claims && st.claims[k].deleted { FinishKeepsInv(st, k, v, slop); }
  }

  lemma SameButDecoys(st: State, d: Decoys, slop: int)
    requires Inv(st, slop)
    ensures Inv(st.(decoys := d), slop)
  {
    var st' := st.(decoys := d);
    forall k | Gone(st', k) ensures st'.made[k] !in st'.live { assert Gone(st, k); }
    assert forall o :: OutcomeOk(st, o, slop) ==> OutcomeOk(st', o, slop);
  }

  lemma {:induction false} RunKeepsInv(evs: seq<Event>, slop: int)
    ensures Inv(Run(evs, slop), slop)
  {
    if evs != [] {
      RunKeepsInv(evs[..|evs| - 1], slop);
      StepKeepsInv(Run(evs[..|evs| - 1], slop), evs[|evs| - 1], slop);
    }
  }

  // ----- main results

  /**
   * A reply reaches only the message whose send stored that SURB ID, and nothing is collected
   * before its send time, reply estimate and slop have passed.
   */
  lemma OutcomesAreRight(evs: seq<Event>, slop: int, i: nat)
    requires i < |Run(evs, slop).outcomes|
    ensures var st := Run(evs, slop);
            var o := st.outcomes[i];
            && o.id in st.owner
            && (o.result.Delivered? ==> o.result.msg == st.owner[o.id].msg)
            && (o.result.Collected? ==>
                  && o.result.msg == st.owner[o.id].msg
                  && o.result.now > st.owner[o.id].sentAt + st.owner[o.id].eta + slop)
  {
    RunKeepsInv(evs, slop);
    assert OutcomeOk(Run(evs, slop), Run(evs, slop).outcomes[i], slop);
  }

  // ----- nothing is lost

  ghost predicate HasOutcome(os: seq<Outcome>, id: SurbId) {
    exists i :: 0 <= i < |os| && os[i].id == id
  }

  ghost predicate Ended(os: seq<Outcome>, k: nat, id: SurbId) {
    exists i :: 0 <= i < |os| && os[i].claim == k && os[i].id == id
  }

  ghost predicate TakenOut(st: State, id: SurbId) {
    exists k :: Gone(st, k) && st.made[k] == id
  }

  /** An entry leaves the map only by a claim, and a claim goes away only with an outcome. */
  ghost predicate Accounted(st: State) {
    && (forall id :: id in st.owner ==> id in st.live || TakenOut(st, id))
    && (forall k :: 0 <= k < |st.made| ==> k in st.claims || Ended(st.outcomes, k, st.made[k]))
  }

  /** Steps that undo no deletion keep what was taken out. */
  lemma StaysTakenOut(st: State, st': State, id: SurbId)
    requires TakenOut(st, id)
    requires st.made <= st'.made && forall k :: Gone(st, k) ==> Gone(st', k)
    ensures TakenOut(st', id)
  {
    var k :| Gone(st, k) && st.made[k] == id;
    assert Gone(st', k) && st'.made[k] == id;
  }

  lemma EndedSnoc(os: seq<Outcome>, o: Outcome, k: nat, id: SurbId)
    requires Ended(os, k, id) || (o.claim == k && o.id == id)
    ensures Ended(os + [o], k, id)
  {
    if Ended(os, k, id) {
      var i :| 0 <= i < |os| && os[i].claim == k && os[i].id == id;
      assert (os + [o])[i] == os[i];
    } else {
      assert (os + [o])[|os|] == o;
    }
  }

  lemma StoreKeepsAccounted(st: State, id: SurbId, entry: Entry, d: Decoys)
    requires Accounted(st)
    ensures Accounted(Store(st, id, entry).(decoys := d))
  {
    var st' := Store(st, id, entry).(decoys := d);
    assert forall k :: Gone(st, k) ==> Gone(st', k);
    forall x | TakenOut(st, x) ensures TakenOut(st', x) { StaysTakenOut(st, st', x); }
  }

  lemma SameAccounts(st: State, d: Decoys)
    requires Accounted(st)
    ensures Accounted(st.(decoys := d))
  {
    var st' := st.(decoys := d);
    assert forall k :: Gone(st, k) ==> Gone(st', k);
    forall x | TakenOut(st, x) ensures TakenOut(st', x) { StaysTakenOut(st, st', x); }
  }

  lemma ReadKeepsAccounted(st: State, id: SurbId, kind: Kind)
    requires EntriesOk(st) && Accounted(st) && id in st.live
    ensures Accounted(Read(st, id, kind))
  {
    var st' := Read(st, id, kind);
    assert forall k :: Gone(st, k) ==> Gone(st', k);
    forall x | TakenOut(st, x) ensures TakenOut(st', x) { StaysTakenOut(st, st', x); }
  }

  lemma DeleteKeepsAccounted(st: State, k: nat, slop: int)
    requires EntriesOk(st) && Accounted(st) && k in st.claims && !st.claims[k].deleted
    ensures Accounted(Step(st, Delete(k), slop))
  {
    var st' := Step(st, Delete(k), slop);
    assert forall j :: Gone(st, j) ==> Gone(st', j);
    forall x | TakenOut(st, x) ensures TakenOut(st', x) { StaysTakenOut(st, st', x); }
    assert TakenOut(st', st.claims[k].id) by { assert Gone(st', k) && st'.made[k] == st.claims[k].id; }
  }

  lemma FinishKeepsAccounted(st: State, k: nat, v: Verdict, slop: int)
    requires EntriesOk(st) && Accounted(st) && k in st.claims && st.claims[k].deleted
    ensures Accounted(Step(st, Finish(k, v), slop))
  {
    var st' := Step(st, Finish(k, v), slop);
    var o := Outcome(k, st.claims[k].id, st.claims[k].entry, ResultOf(st.claims[k], v));
    forall j | 0 <= j < |st.made| && (j !in st.claims || j == k) ensures Ended(st.outcomes + [o], j, st.made[j]) {
      EndedSnoc(st.outcomes, o, j, st.made[j]);
    }
    assert forall j :: Gone(st, j) ==> Gone(st', j);
    forall x | TakenOut(st, x) ensures TakenOut(st', x) { StaysTakenOut(st, st', x); }
  }

  lemma StepKeepsAccounted(st: State, ev: Event, slop: int)
    requires EntriesOk(st) && Accounted(st)
    ensures Accounted(Step(st, ev, slop))
  {
    var st' := Step(st, ev, slop);
    if st' != st {
      match ev
      case Send(id, entry) => StoreKeepsAccounted(st, id, entry, st.decoys);
      case DecoySent(id, entry) => StoreKeepsAccounted(st, id, entry, st'.decoys);
      case DecoyFailed => SameAccounts(st, st'.decoys);
      case DecoyCounted => SameAccounts(st, st'.decoys);
      case ReadReply(id) => ReadKeepsAccounted(st, id, Reply);
      case ReadExpired(id, now) => ReadKeepsAccounted(st, id, Collector(now));
      case Delete(k) => DeleteKeepsAccounted(st, k, slop);
      case Finish(k, v) => FinishKeepsAccounted(st, k, v, slop);
    }
  }

  lemma {:induction false} RunKeepsAccounted(evs: seq<Event>, slop: int)
    ensures Accounted(Run(evs, slop))
  {
    if evs != [] {
      RunKeepsAccounted(evs[..|evs| - 1], slop);
      RunKeepsInv(evs[..|evs| - 1], slop);
      StepKeepsAccounted(Run(evs[..|evs| - 1], slop), evs[|evs| - 1], slop);
    }
  }

  lemma EndedIsGone(st: State, slop: int, i: nat)
    requires Inv(st, slop) && i < |st.outcomes|
    ensures st.outcomes[i].id !in st.live
  {
    assert OutcomeOk(st, st.outcomes[i], slop);
    assert Gone(st, st.outcomes[i].claim);
  }

  lemma InPlaceOrEnded(st: State, slop: int)
    requires Inv(st, slop) && Accounted(st) && st.claims == map[]
    ensures forall id :: id in st.owner ==> (id in st.live <==> !HasOutcome(st.outcomes, id))
  {
    forall i | 0 <= i < |st.outcomes| ensures st.outcomes[i].id !in st.live { EndedIsGone(st, slop, i); }
    forall id | id in st.owner && id !in st.live ensures HasOutcome(st.outcomes, id) {
      var k :| Gone(st, k) && st.made[k] == id;
      var i :| 0 <= i < |st.outcomes| && st.outcomes[i].claim == k && st.outcomes[i].id == id;
    }
  }

  /**
   * Conservation, for every run and whatever overlaps: once no claim is in progress, each stored
   * SURB ID is in exactly one place, the map or the outcomes.
   */
  lemma NothingLost(evs: seq<Event>, slop: int)
    requires Run(evs, slop).claims == map[]
    ensures var st := Run(evs, slop);
            forall id :: id in st.owner ==> (id in st.live <==> !HasOutcome(st.outcomes, id))
  {
    RunKeepsInv(evs, slop);
    RunKeepsAccounted(evs, slop);
    InPlaceOrEnded(Run(evs, slop), slop);
  }

  // ----- at most one outcome

  ghost predicate OneOutcomeEach(os: seq<Outcome>) {
    forall i, j :: 0 <= i < j < |os| ==> os[i].id != os[j].id
  }

  ghost predicate TwoOutcomesFor(os: seq<Outcome>, id: SurbId) {
    exists i, j :: 0 <= i < j < |os| && os[i].id == id && os[j].id == id
  }

  /** Two outcomes for one entry are of two claims on it. */
  lemma OutcomesAreClaims(st: State, slop: int, id: SurbId)
    requires Inv(st, slop) && TwoOutcomesFor(st.outcomes, id)
    ensures Twice(st.made, id)
  {
    var i, j :| 0 <= i < j < |st.outcomes| && st.outcomes[i].id == id && st.outcomes[j].id == id;
    assert OutcomeOk(st, st.outcomes[i], slop) && OutcomeOk(st, st.outcomes[j], slop);
    var k, l := st.outcomes[i].claim, st.outcomes[j].claim;
    assert k != l && st.made[k] == id && st.made[l] == id;
  }

  /** Two finished claims on one entry are two outcomes for it. */
  lemma ClaimsAreOutcomes(st: State, id: SurbId)
    requires Accounted(st) && st.claims == map[] && Twice(st.made, id)
    ensures TwoOutcomesFor(st.outcomes, id)
  {
    var k, l :| 0 <= k < l < |st.made| && st.made[k] == id && st.made[l] == id;
    assert Ended(st.outcomes, k, id) && Ended(st.outcomes, l, id);
    var i :| 0 <= i < |st.outcomes| && st.outcomes[i].claim == k && st.outcomes[i].id == id;
    var j :| 0 <= j < |st.outcomes| && st.outcomes[j].claim == l && st.outcomes[j].id == id;
  }

  lemma NoneTwice(made: seq<SurbId>)
    ensures NoDuplicates(made) <==> forall id :: !Twice(made, id)
  {
    if !NoDuplicates(made) {
      var i, j :| 0 <= i < j < |made| && made[i] == made[j];
      assert Twice(made, made[i]);
    }
  }

  lemma OneEach(os: seq<Outcome>)
    ensures OneOutcomeEach(os) <==> forall id :: !TwoOutcomesFor(os, id)
  {
    if !OneOutcomeEach(os) {
      var i, j :| 0 <= i < j < |os| && os[i].id == os[j].id;
      assert TwoOutcomesFor(os, os[i].id);
    }
  }

  lemma OverlapEndsTwice(st: State, slop: int, id: SurbId)
    requires Inv(st, slop) && Accounted(st)
    ensures TwoOutcomesFor(st.outcomes, id) ==> id in st.overlaps
    ensures st.claims == map[] && id in st.overlaps ==> TwoOutcomesFor(st.outcomes, id)
  {
    if TwoOutcomesFor(st.outcomes, id) { OutcomesAreClaims(st, slop, id); }
    if st.claims == map[] && id in st.overlaps { ClaimsAreOutcomes(st, id); }
  }

  lemma AtMostOnce(st: State, slop: int)
    requires Inv(st, slop) && Accounted(st)
    ensures NoDuplicates(st.made) <==> st.overlaps == {}
    ensures st.overlaps == {} ==> OneOutcomeEach(st.outcomes)
    ensures st.claims == map[] && OneOutcomeEach(st.outcomes) ==> st.overlaps == {}
  {
    NoneTwice(st.made);
    OneEach(st.outcomes);
    forall id
      ensures TwoOutcomesFor(st.outcomes, id) ==> id in st.overlaps
      ensures st.claims == map[] && id in st.overlaps ==> TwoOutcomesFor(st.outcomes, id)
    {
      OverlapEndsTwice(st, slop, id);
    }
  }

  /**
   * Over every run: each stored SURB ID is claimed at most once if and only if no entry is read
   * between another claim's read and delete of it.  Without such an overlap no ID has two
   * outcomes, so a message gets at most one of a reply and a garbage-collected event; and as soon
   * as the claims in progress have finished, exactly the IDs with an overlap have two.
   */
  lemma AtMostOnceIff(evs: seq<Event>, slop: int)
    ensures var st := Run(evs, slop);
            && (NoDuplicates(st.made) <==> st.overlaps == {})
            && (st.overlaps == {} ==> OneOutcomeEach(st.outcomes))
            && (st.claims == map[] ==> (OneOutcomeEach(st.outcomes) <==> st.overlaps == {}))
            && (st.claims == map[] ==> forall id :: TwoOutcomesFor(st.outcomes, id) <==> id in st.overlaps)
  {
    RunKeepsInv(evs, slop);
    RunKeepsAccounted(evs, slop);
    var st := Run(evs, slop);
    AtMostOnce(st, slop);
    forall id | st.claims == map[] ensures TwoOutcomesFor(st.outcomes, id) <==> id in st.overlaps {
      OverlapEndsTwice(st, slop, id);
    }
  }

  // ----- the decoy tally

  datatype Endings = Endings(acked: nat, discarded: nat, collected: nat)

  /** Loop decoys among the outcomes, by how they ended. */
  function EndedDecoys(os: seq<Outcome>): Endings {
    if os == [] then Endings(0, 0, 0)
    else
      var e, o := EndedDecoys(os[..|os| - 1]), os[|os| - 1];
      if !o.entry.decoy then e
      else
        match o.result
        case DecoyAcked => e.(acked := e.acked + 1)
        case Collected(_, _) => e.(collected := e.collected + 1)
        case _ => e.(discarded := e.discarded + 1)
  }

  function DecoyIds(m: map<SurbId, Entry>): set<SurbId> {
    set id | id in m && m[id].decoy
  }

  /** Claims on loop decoys that are out of the map, but not finished. */
  function HeldDecoys(claims: map<nat, Claim>): set<nat> {
    set k | k in claims && claims[k].deleted && claims[k].entry.decoy
  }

  function BoolToInt(b: bool): int { if b then 1 else 0 }

  /** The tally is what has been counted less what has been acknowledged, whatever the claims do. */
  ghost predicate TallyOk(d: Decoys, acked: nat, owner: map<SurbId, Entry>) {
    && d.tally == Wrap(d.counted - acked)
    && d.counted + BoolToInt(d.inFlight) == d.stored + d.failed
    && d.stored == |DecoyIds(owner)|
  }

  ghost predicate TallyInv(st: State) {
    TallyOk(st.decoys, EndedDecoys(st.outcomes).acked, st.owner)
  }

  lemma StoreCount(m: map<SurbId, Entry>, id: SurbId, entry: Entry)
    requires id !in m
    ensures |DecoyIds(m[id := entry])| == |DecoyIds(m)| + BoolToInt(entry.decoy)
  {
    assert DecoyIds(m[id := entry]) == if entry.decoy then DecoyIds(m) + {id} else DecoyIds(m);
  }

  lemma OutcomeCount(os: seq<Outcome>, o: Outcome)
    ensures EndedDecoys(os + [o]) ==
            var e := EndedDecoys(os);
            if !o.entry.decoy then e
            else if o.result == DecoyAcked then e.(acked := e.acked + 1)
            else if o.result.Collected? then e.(collected := e.collected + 1)
            else e.(discarded := e.discarded + 1)
  {
    assert (os + [o])[..|os|] == os;
  }

  lemma TallyUp(x: int)
    ensures Wrap(Wrap(x) + 1) == Wrap(x + 1)
  {
  }

  lemma TallyDown(x: int)
    ensures Wrap(Wrap(x) + 0xFFFF_FFFF_FFFF_FFFF) == Wrap(x - 1)
  {
  }

  lemma AckTally(d: Decoys, acked: nat, owner: map<SurbId, Entry>)
    requires TallyOk(d, acked, owner)
    ensures TallyOk(Decrement(d), acked + 1, owner)
  {
    TallyDown(d.counted - acked);
  }

  lemma OutcomeTally(d: Decoys, os: seq<Outcome>, o: Outcome, owner: map<SurbId, Entry>)
    requires TallyOk(d, EndedDecoys(os).acked, owner)
    requires o.result == DecoyAcked ==> o.entry.decoy
    ensures TallyOk(if o.result == DecoyAcked then Decrement(d) else d, EndedDecoys(os + [o]).acked, owner)
  {
    OutcomeCount(os, o);
    if o.result == DecoyAcked { AckTally(d, EndedDecoys(os).acked, owner); }
  }

  lemma FinishKeepsTally(st: State, k: nat, v: Verdict, slop: int)
    requires TallyInv(st) && k in st.claims && st.claims[k].deleted
    ensures TallyInv(Step(st, Finish(k, v), slop))
  {
    var c := st.claims[k];
    OutcomeTally(st.decoys, st.outcomes, Outcome(k, c.id, c.entry, ResultOf(c, v)), st.owner);
  }

  lemma StepKeepsTally(st: State, ev: Event, slop: int)
    requires TallyInv(st)
    ensures TallyInv(Step(st, ev, slop))
  {
    if Step(st, ev, slop) != st {
      match ev
      case Send(id, entry) => StoreCount(st.owner, id, entry);
      case DecoySent(id, entry) => StoreCount(st.owner, id, entry);
      case DecoyCounted => TallyUp(st.decoys.counted - EndedDecoys(st.outcomes).acked);
      case Finish(k, v) => FinishKeepsTally(st, k, v, slop);
      case _ =>
    }
  }

  lemma {:induction false} RunKeepsTally(evs: seq<Event>, slop: int)
    ensures TallyInv(Run(evs, slop))
  {
    if evs == [] {
      assert DecoyIds(Init.owner) == {};
    } else {
      RunKeepsTally(evs[..|evs| - 1], slop);
      StepKeepsTally(Run(evs[..|evs| - 1], slop), evs[|evs| - 1], slop);
    }
  }

  /** Loop decoys sent and neither acknowledged nor still waiting to be counted. */
  function Unanswered(st: State): int {
    var e := EndedDecoys(st.outcomes);
    |DecoyIds(st.live)| + |HeldDecoys(st.claims)| + e.collected + e.discarded + st.decoys.failed
    - BoolToInt(st.decoys.inFlight)
  }

  // ----- claims beyond the first on one loop decoy

  /** Claims on loop decoys that have deleted their entry. */
  ghost function GoneDecoys(st: State): set<nat> {
    set k | 0 <= k < |st.made| && Gone(st, k) && st.made[k] in st.owner && st.owner[st.made[k]].decoy
  }

  ghost function Image(ks: set<nat>, made: seq<SurbId>): set<SurbId>
    requires forall k :: k in ks ==> k < |made|
  {
    set k | k in ks :: made[k]
  }

  /** How many of them were surplus, their entry having been taken out by another claim too. */
  ghost function Repeats(st: State): int {
    |GoneDecoys(st)| - |Image(GoneDecoys(st), st.made)|
  }

  ghost predicate Injective(ks: set<nat>, made: seq<SurbId>)
    requires forall k :: k in ks ==> k < |made|
  {
    forall k, l :: k in ks && l in ks && made[k] == made[l] ==> k == l
  }

  lemma {:induction false} ImageSize(ks: set<nat>, made: seq<SurbId>)
    requires forall k :: k in ks ==> k < |made|
    ensures |Image(ks, made)| <= |ks|
    ensures |Image(ks, made)| == |ks| <==> Injective(ks, made)
  {
    if ks != {} {
      var k :| k in ks;
      var rest := ks - {k};
      ImageSize(rest, made);
      if made[k] in Image(rest, made) {
        assert Image(ks, made) == Image(rest, made);
      } else {
        assert Image(ks, made) == Image(rest, made) + {made[k]};
        assert Injective(ks, made) <==> Injective(rest, made);
      }
    }
  }

  ghost function EndedClaims(os: seq<Outcome>): set<nat> {
    set i | 0 <= i < |os| && os[i].entry.decoy :: os[i].claim
  }

  function EndedTotal(os: seq<Outcome>): nat {
    var e := EndedDecoys(os);
    e.acked + e.discarded + e.collected
  }

  lemma TotalSnoc(os: seq<Outcome>, o: Outcome)
    ensures EndedTotal(os + [o]) == EndedTotal(os) + BoolToInt(o.entry.decoy)
    ensures EndedClaims(os + [o]) == EndedClaims(os) + if o.entry.decoy then {o.claim} else {}
  {
    OutcomeCount(os, o);
    var all := os + [o];
    assert forall i :: 0 <= i < |os| ==> all[i] == os[i];
    assert all[|os|] == o;
  }

  ghost predicate ClaimsDistinct(os: seq<Outcome>) {
    forall i, j :: 0 <= i < j < |os| ==> os[i].claim != os[j].claim
  }

  lemma {:induction false} EndedCount(os: seq<Outcome>)
    requires ClaimsDistinct(os)
    ensures |EndedClaims(os)| == EndedTotal(os) <= |os|
  {
    if os != [] {
      var n := |os| - 1;
      var front, o := os[..n], os[n];
      assert os == front + [o];
      EndedCount(front);
      TotalSnoc(front, o);
      assert o.claim !in EndedClaims(front);
    }
  }

  lemma GoneIsHeldOrEnded(st: State, slop: int, k: nat)
    requires EntriesOk(st) && OutcomesOk(st, slop) && Accounted(st) && k in GoneDecoys(st)
    ensures k in HeldDecoys(st.claims) || k in EndedClaims(st.outcomes)
  {
    if k !in st.claims {
      var i :| 0 <= i < |st.outcomes| && st.outcomes[i].claim == k && st.outcomes[i].id == st.made[k];
      assert OutcomeOk(st, st.outcomes[i], slop);
    }
  }

  lemma EndedIsGoneDecoy(st: State, slop: int, i: nat)
    requires OutcomesOk(st, slop) && i < |st.outcomes|
    ensures Gone(st, st.outcomes[i].claim) && st.outcomes[i].claim !in st.claims
    ensures st.outcomes[i].entry.decoy ==> st.outcomes[i].claim in GoneDecoys(st)
  {
    assert OutcomeOk(st, st.outcomes[i], slop);
  }

  lemma HeldIsGone(st: State, k: nat)
    requires EntriesOk(st) && k in HeldDecoys(st.claims)
    ensures k in GoneDecoys(st)
  {
  }

  /** The claims that are gone are those held and those ended. */
  lemma GoneCount(st: State, slop: int)
    requires Inv(st, slop) && Accounted(st)
    ensures |GoneDecoys(st)| == |HeldDecoys(st.claims)| + EndedTotal(st.outcomes)
  {
    var held, ended := HeldDecoys(st.claims), EndedClaims(st.outcomes);
    assert ClaimsDistinct(st.outcomes);
    EndedCount(st.outcomes);
    forall k | k in held ensures k in GoneDecoys(st) { HeldIsGone(st, k); }
    forall k | k in ended ensures k in GoneDecoys(st) && k !in held {
      var i :| 0 <= i < |st.outcomes| && st.outcomes[i].entry.decoy && st.outcomes[i].claim == k;
      EndedIsGoneDecoy(st, slop, i);
    }
    forall k | k in GoneDecoys(st) ensures k in held || k in ended { GoneIsHeldOrEnded(st, slop, k); }
    UnionSize(GoneDecoys(st), held, ended);
  }

  lemma UnionSize(all: set<nat>, a: set<nat>, b: set<nat>)
    requires forall k :: k in all <==> k in a || k in b
    requires a !! b
    ensures |all| == |a| + |b|
  {
    assert all == a + b;
  }

  lemma TakenOutDecoy(st: State, id: SurbId)
    requires Accounted(st) && id in DecoyIds(st.owner) && id !in st.live
    ensures id in Image(GoneDecoys(st), st.made)
  {
    var k :| Gone(st, k) && st.made[k] == id;
    assert k in GoneDecoys(st);
  }

  /** The loop decoys taken out are those stored that are no longer in the map. */
  lemma ImageCount(st: State, slop: int)
    requires Inv(st, slop) && Accounted(st)
    ensures |Image(GoneDecoys(st), st.made)| == |DecoyIds(st.owner)| - |DecoyIds(st.live)|
  {
    var out, live := Image(GoneDecoys(st), st.made), DecoyIds(st.live);
    forall id | id in DecoyIds(st.owner) ensures id in out || id in live {
      if id !in st.live { TakenOutDecoy(st, id); }
    }
    assert forall id :: id in out ==> id in DecoyIds(st.owner) && id !in live;
    assert forall id :: id in live ==> id in DecoyIds(st.owner);
    UnionSize(DecoyIds(st.owner), out, live);
  }

  /** The tally with every claim accounted for. */
  ghost predicate Law(st: State) {
    && st.decoys.tally == Wrap(Unanswered(st) - Repeats(st))
    && 0 <= Repeats(st) <= |GoneDecoys(st)|
    && (Repeats(st) == 0 <==> Injective(GoneDecoys(st), st.made))
  }

  lemma LawFromCounts(st: State)
    requires TallyInv(st)
    requires |GoneDecoys(st)| == |HeldDecoys(st.claims)| + EndedTotal(st.outcomes)
    requires |Image(GoneDecoys(st), st.made)| == |DecoyIds(st.owner)| - |DecoyIds(st.live)|
    ensures Law(st)
  {
    ImageSize(GoneDecoys(st), st.made);
    assert st.decoys.counted - EndedDecoys(st.outcomes).acked == Unanswered(st) - Repeats(st);
  }

  lemma DistinctIsInjective(ks: set<nat>, made: seq<SurbId>)
    requires (forall k :: k in ks ==> k < |made|) && NoDuplicates(made)
    ensures Injective(ks, made)
  {
  }

  lemma NoSurplus(st: State, slop: int)
    requires Inv(st, slop) && Law(st) && st.overlaps == {}
    ensures Repeats(st) == 0
  {
    NoneTwice(st.made);
    DistinctIsInjective(GoneDecoys(st), st.made);
  }

  /**
   * The law of the tally, modulo 2^64: it is the number of loop decoys that are live, held by an
   * unfinished claim, collected, discarded or failed to send, less one while a loop decoy has been
   * sent and not yet counted, and less the surplus claims.  Without overlaps there is no surplus,
   * and only a send in flight can make it wrap.
   */
  ghost predicate TallyHolds(st: State) {
    && st.decoys.tally == Wrap(Unanswered(st) - Repeats(st))
    && 0 <= Repeats(st)
    && (st.overlaps == {} ==> Repeats(st) == 0)
    && -1 <= Unanswered(st)
    && (Unanswered(st) == -1 ==> st.decoys.inFlight)
  }

  lemma TallyLaw(st: State, slop: int)
    requires Inv(st, slop) && Accounted(st) && TallyInv(st)
    ensures Law(st)
  {
    GoneCount(st, slop);
    ImageCount(st, slop);
    LawFromCounts(st);
  }

  lemma LawHolds(st: State, slop: int)
    requires Inv(st, slop) && Law(st)
    ensures TallyHolds(st)
  {
    if st.overlaps == {} { NoSurplus(st, slop); }
  }

  lemma RunKeepsLaw(evs: seq<Event>, slop: int)
    ensures Law(Run(evs, slop))
  {
    RunKeepsInv(evs, slop);
    RunKeepsAccounted(evs, slop);
    RunKeepsTally(evs, slop);
    TallyLaw(Run(evs, slop), slop);
  }

  /** The law holds over every run, overlaps included. */
  lemma DecoyTally(evs: seq<Event>, slop: int)
    ensures TallyHolds(Run(evs, slop))
  {
    RunKeepsLaw(evs, slop);
    RunKeepsInv(evs, slop);
    LawHolds(Run(evs, slop), slop);
  }

  /** No loop decoy was read between another claim's read and delete. */
  ghost predicate NoDecoyOverlap(st: State) {
    forall id :: id in st.overlaps && id in st.owner ==> !st.owner[id].decoy
  }

  lemma WrapSame(x: int, r: nat)
    requires r < TWO64
    ensures Wrap(x - r) == Wrap(x) <==> r == 0
  {
  }

  lemma OverlapIsClash(st: State, slop: int, id: SurbId)
    requires Inv(st, slop) && st.claims == map[] && id in st.overlaps && id in st.owner && st.owner[id].decoy
    ensures !Injective(GoneDecoys(st), st.made)
  {
    var k, l :| 0 <= k < l < |st.made| && st.made[k] == id && st.made[l] == id;
    assert k in GoneDecoys(st) && l in GoneDecoys(st);
  }

  lemma ClashIsOverlap(st: State, slop: int, k: nat, l: nat)
    requires Inv(st, slop) && k in GoneDecoys(st) && l in GoneDecoys(st) && k != l && st.made[k] == st.made[l]
    ensures !NoDecoyOverlap(st)
  {
    var id := st.made[k];
    assert Twice(st.made, id) by { assert st.made[l] == id; }
  }

  /** With no claim in progress, surplus claims on loop decoys are overlaps. */
  lemma InjectiveIff(st: State, slop: int)
    requires Inv(st, slop) && st.claims == map[]
    ensures Injective(GoneDecoys(st), st.made) <==> NoDecoyOverlap(st)
  {
    if !NoDecoyOverlap(st) {
      var id :| id in st.overlaps && id in st.owner && st.owner[id].decoy;
      OverlapIsClash(st, slop, id);
    }
    if !Injective(GoneDecoys(st), st.made) {
      var k, l :| k in GoneDecoys(st) && l in GoneDecoys(st) && st.made[k] == st.made[l] && k != l;
      ClashIsOverlap(st, slop, k, l);
    }
  }

  lemma FewGone(st: State, slop: int)
    requires Inv(st, slop) && Accounted(st) && st.claims == map[]
    ensures |GoneDecoys(st)| <= |st.outcomes|
  {
    GoneCount(st, slop);
    EndedCount(st.outcomes);
    assert HeldDecoys(st.claims) == {};
  }

  lemma LawIff(st: State)
    requires Law(st) && |GoneDecoys(st)| < TWO64
    ensures st.decoys.tally == Wrap(Unanswered(st)) <==> Injective(GoneDecoys(st), st.made)
  {
    WrapSame(Unanswered(st), Repeats(st));
  }

  /**
   * Exactly when the tally is right: with no claim in progress (and fewer than 2^64 outcomes), if
   * and only if no loop decoy was read between another claim's read and delete of it, which is to
   * say none has two outcomes.  Overlaps on user messages do no harm.
   */
  lemma TallyRightIff(evs: seq<Event>, slop: int)
    requires Run(evs, slop).claims == map[] && |Run(evs, slop).outcomes| < TWO64
    ensures var st := Run(evs, slop);
            st.decoys.tally == Wrap(Unanswered(st)) <==> NoDecoyOverlap(st)
  {
    RunKeepsInv(evs, slop);
    RunKeepsAccounted(evs, slop);
    RunKeepsLaw(evs, slop);
    InjectiveIff(Run(evs, slop), slop);
    FewGone(Run(evs, slop), slop);
    LawIff(Run(evs, slop));
  }

  // ----- what an overlap can do

  lemma Extend(evs: seq<Event>, ev: Event, slop: int, expected: State) returns (evs': seq<Event>)
    requires Step(Run(evs, slop), ev, slop) == expected
    ensures evs' == evs + [ev] && Run(evs', slop) == expected
  {
    evs' := evs + [ev];
    assert evs'[..|evs|] == evs;
  }

  predicate Claims(st: State, ev: Event, slop: int) {
    || (ev.ReadReply? && ev.id in st.live)
    || (ev.ReadExpired? && ev.id in st.live && Expired(st.live[ev.id], ev.now, slop))
  }

  function ClaimOf(st: State, ev: Event): Claim
    requires (ev.ReadReply? || ev.ReadExpired?) && ev.id in st.live
  {
    Claim(ev.id, st.live[ev.id], if ev.ReadReply? then Reply else Collector(ev.now), true)
  }

  function OutcomeOf(st: State, ev: Event, v: Verdict): Outcome
    requires (ev.ReadReply? || ev.ReadExpired?) && ev.id in st.live
  {
    Outcome(|st.made|, ev.id, st.live[ev.id], ResultOf(ClaimOf(st, ev), v))
  }

  /** Two claims on one entry, both at the same point. */
  function Pair(n: nat, c0: Claim, c1: Claim, deleted: bool): map<nat, Claim> {
    map[n := c0.(deleted := deleted), n + 1 := c1.(deleted := deleted)]
  }

  lemma ReadTwice(st: State, ev0: Event, ev1: Event, slop: int)
    requires st.claims == map[] && Claims(st, ev0, slop) && Claims(st, ev1, slop) && ev0.id == ev1.id
    requires ev0.ReadReply? || ev1.ReadReply?
    ensures var st2 := Step(Step(st, ev0, slop), ev1, slop);
            && st2.claims == Pair(|st.made|, ClaimOf(st, ev0), ClaimOf(st, ev1), false)
            && st2.live == st.live && st2.outcomes == st.outcomes && st2.decoys == st.decoys && ev0.id in st2.overlaps
  {
    var n, st1 := |st.made|, Step(st, ev0, slop);
    assert !Collecting(st);
    assert st1.claims == map[n := ClaimOf(st, ev0).(deleted := false)];
    assert ev0.ReadReply? ==> !Collecting(st1);
    assert st1.claims[n].id == ev1.id && !st1.claims[n].deleted;
    assert Contended(st1, ev1.id);
  }

  lemma DeleteTwice(st: State, n: nat, c0: Claim, c1: Claim, slop: int)
    requires st.claims == Pair(n, c0, c1, false) && c0.id == c1.id
    ensures var st2 := Step(Step(st, Delete(n), slop), Delete(n + 1), slop);
            && st2.claims == Pair(n, c0, c1, true)
            && st2.live == st.live - {c0.id}
            && st2.outcomes == st.outcomes && st2.decoys == st.decoys && st2.overlaps == st.overlaps
  {
  }

  function Finished(d: Decoys, r: Result): Decoys {
    if r == DecoyAcked then Decrement(d) else d
  }

  lemma FinishTwice(st: State, n: nat, c0: Claim, c1: Claim, v0: Verdict, v1: Verdict, slop: int)
    requires st.claims == Pair(n, c0, c1, true) && c0.deleted && c1.deleted
    ensures var st2 := Step(Step(st, Finish(n, v0), slop), Finish(n + 1, v1), slop);
            var r0, r1 := ResultOf(c0, v0), ResultOf(c1, v1);
            && st2.claims == map[] && st2.live == st.live && st2.overlaps == st.overlaps
            && st2.outcomes == st.outcomes + [Outcome(n, c0.id, c0.entry, r0)] + [Outcome(n + 1, c1.id, c1.entry, r1)]
            && st2.decoys == Finished(Finished(st.decoys, r0), r1)
  {
    var st1 := Step(st, Finish(n, v0), slop);
    assert st1.claims == map[n + 1 := c1];
  }

  /**
   * Whatever the run so far, as long as no claim is in progress: two replies, or a reply and the
   * collector, that read one entry before either deletes it both complete it.
   */
  lemma OverlapCompletesTwice(evs: seq<Event>, ev0: Event, ev1: Event, v0: Verdict, v1: Verdict, slop: int)
    returns (all: seq<Event>)
    requires Run(evs, slop).claims == map[]
    requires Claims(Run(evs, slop), ev0, slop) && Claims(Run(evs, slop), ev1, slop) && ev0.id == ev1.id
    requires ev0.ReadReply? || ev1.ReadReply?
    ensures var st, st' := Run(evs, slop), Run(all, slop);
            var n, c0, c1 := |st.made|, ClaimOf(st, ev0), ClaimOf(st, ev1);
            var r0, r1 := ResultOf(c0, v0), ResultOf(c1, v1);
            && st'.live == st.live - {ev0.id} && st'.claims == map[] && ev0.id in st'.overlaps
            && st'.outcomes == st.outcomes + [Outcome(n, c0.id, c0.entry, r0)] + [Outcome(n + 1, c1.id, c1.entry, r1)]
            && st'.decoys == Finished(Finished(st.decoys, r0), r1)
  {
    var st := Run(evs, slop);
    var n, c0, c1 := |st.made|, ClaimOf(st, ev0), ClaimOf(st, ev1);
    ReadTwice(st, ev0, ev1, slop);
    var s1 := Step(st, ev0, slop);
    all := Extend(evs, ev0, slop, s1);
    var s2 := Step(s1, ev1, slop);
    all := Extend(all, ev1, slop, s2);
    DeleteTwice(s2, n, c0, c1, slop);
    var s3 := Step(s2, Delete(n), slop);
    all := Extend(all, Delete(n), slop, s3);
    var s4 := Step(s3, Delete(n + 1), slop);
    all := Extend(all, Delete(n + 1), slop, s4);
    FinishTwice(s4, n, c0, c1, v0, v1, slop);
    var s5 := Step(s4, Finish(n, v0), slop);
    all := Extend(all, Finish(n, v0), slop, s5);
    all := Extend(all, Finish(n + 1, v1), slop, Step(s5, Finish(n + 1, v1), slop));
  }

  lemma OneDecoySent(entry: Entry, slop: int) returns (evs: seq<Event>)
    requires entry.decoy
    ensures var st := Run(evs, slop);
            st.live == map[0 := entry] && st.claims == map[] && st.decoys == Decoys(1, 1, 1, 0, false)
  {
    var s := Init.(live := map[0 := entry], owner := map[0 := entry], decoys := Decoys(0, 0, 1, 0, true));
    evs := Extend([], DecoySent(0, entry), slop, s);
    evs := Extend(evs, DecoyCounted, slop, s.(decoys := Decoys(1, 1, 1, 0, false)));
  }

  lemma DoubleAck()
    ensures Decrement(Decrement(Decoys(1, 1, 1, 0, false))) == Decoys(TWO64 - 1, 1, 1, 0, false)
  {
  }

  /** Two overlapping replies to one loop decoy: with nothing in flight, the tally is off by 2^64 for good. */
  lemma OverlappingRepliesBreakTally(entry: Entry, slop: int) returns (evs: seq<Event>)
    requires entry.decoy
    ensures var st := Run(evs, slop);
            && st.live == map[] && st.claims == map[] && !st.decoys.inFlight && st.decoys.failed == 0
            && st.decoys.tally == TWO64 - 1
  {
    evs := OneDecoySent(entry, slop);
    evs := OverlapCompletesTwice(evs, ReadReply(0), ReadReply(0), Good, Good, slop);
    DoubleAck();
  }

  /** A reply read just before the collector reads the same expired entry: both complete the one message. */
  lemma ReplyAndCollection(entry: Entry, slop: int, now: int) returns (evs: seq<Event>)
    requires !entry.decoy && Expired(entry, now, slop)
    ensures var os := Run(evs, slop).outcomes;
            |os| == 2 && os[0].result == Delivered(entry.msg) && os[1].result == Collected(entry.msg, now)
  {
    evs := Extend([], Send(0, entry), slop, Init.(live := map[0 := entry], owner := map[0 := entry]));
    evs := OverlapCompletesTwice(evs, ReadReply(0), ReadExpired(0, now), Good, Good, slop);
  }

  // ----- claims taken one at a time

  /** No claim is in progress, none ever overlapped, and no send is waiting to be counted. */
  predicate Calm(st: State) {
    st.claims == map[] && st.overlaps == {} && !st.decoys.inFlight
  }

  /** From `st` to `st'`: one entry gone with the outcome `o`, nothing else touched. */
  ghost predicate Took(st: State, st': State, o: Outcome) {
    && Calm(st')
    && st'.live == st.live - {o.id} && st'.owner == st.owner
    && st'.outcomes == st.outcomes + [o]
    && st'.decoys == if o.result == DecoyAcked then Decrement(st.decoys) else st.decoys
  }

  lemma TakeEffect(st: State, ev: Event, v: Verdict, slop: int)
    requires Calm(st) && Claims(st, ev, slop)
    ensures var n := |st.made|;
            Took(st, Step(Step(Step(st, ev, slop), Delete(n), slop), Finish(n, v), slop), OutcomeOf(st, ev, v))
  {
    var n := |st.made|;
    assert !Contended(st, ev.id) && !Collecting(st);
    var st1 := Step(st, ev, slop);
    assert st1.claims == map[n := ClaimOf(st, ev).(deleted := false)];
    var st2 := Step(st1, Delete(n), slop);
    assert st2.claims == map[n := ClaimOf(st, ev)];
  }

  /** A reply or a collection visit that runs without interruption: read, delete and finish in a row. */
  lemma TakenAtOnce(evs: seq<Event>, ev: Event, v: Verdict, slop: int) returns (all: seq<Event>)
    requires Calm(Run(evs, slop)) && Claims(Run(evs, slop), ev, slop)
    ensures var n := |Run(evs, slop).made|;
            all == evs + [ev] + [Delete(n)] + [Finish(n, v)]
    ensures Took(Run(evs, slop), Run(all, slop), OutcomeOf(Run(evs, slop), ev, v))
  {
    var st, n := Run(evs, slop), |Run(evs, slop).made|;
    TakeEffect(st, ev, v, slop);
    var st1 := Step(st, ev, slop);
    all := Extend(evs, ev, slop, st1);
    var st2 := Step(st1, Delete(n), slop);
    all := Extend(all, Delete(n), slop, st2);
    all := Extend(all, Finish(n, v), slop, Step(st2, Finish(n, v), slop));
  }
}
