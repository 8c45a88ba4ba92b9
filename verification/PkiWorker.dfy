/**
 * The PKI refresh worker (minclient/pki.go): document and failure maps, the once-per-epoch
 * callback, and the timer and completion-signal handshake with its callers.  Callers, the clock
 * and the PKI may act between any two of the worker's steps.  Timers are those of the Go version
 * the module asks for: Stop reports false once the timer has expired or been stopped.
 */
module PkiWorker {
  import opened Basics

  type Epoch = nat

  datatype Doc = Doc(epoch: Epoch, body: nat)

  /** Outcome of getDocumentDirect; a fetched document is for the epoch asked for. */
  datatype Fetched = Got(body: nat) | NoDocument | OtherError | Cancelled

  // ----- what one round does to the maps

  datatype Store = Store(docs: map<Epoch, Doc>, failed: set<Epoch>, updated: bool)

  function FetchOne(s: Store, epoch: Epoch, f: Fetched): Store {
    if epoch in s.docs || epoch in s.failed then s
    else
      match f
      case Got(body) => Store(s.docs[epoch := Doc(epoch, body)], s.failed, true)
      case NoDocument => s.(failed := s.failed + {epoch})
      case OtherError => s
      case Cancelled => s
  }

  /** Does the fetch end the worker?  Only if it was made at all. */
  predicate Cancels(s: Store, epoch: Epoch, f: Fetched) {
    epoch !in s.docs && epoch !in s.failed && f == Cancelled
  }

  function PrunedFailures(failed: set<Epoch>, now: Epoch): set<Epoch> {
    set e | e in failed && now <= e <= now + 1
  }

  function PrunedDocs(docs: map<Epoch, Doc>, now: Epoch): map<Epoch, Doc> {
    map e | e in docs && now <= e :: docs[e]
  }

  function PruneAll(s: Store, now: Epoch): Store {
    s.(failed := PrunedFailures(s.failed, now), docs := if s.updated then PrunedDocs(s.docs, now) else s.docs)
  }

  /** One full round for epoch `now`, if neither fetch is cancelled. */
  function Round(docs: map<Epoch, Doc>, failed: set<Epoch>, now: Epoch, older: Fetched, current: Fetched): Store
    requires now >= 1
  {
    PruneAll(FetchOne(FetchOne(Store(docs, failed, false), now - 1, older), now, current), now)
  }

  // ----- the worker among its callers

  datatype Pc =
    | Head | MustDrain | Lookup
    | Fetching(now: Epoch, todo: seq<Epoch>, updated: bool)
    | Pruning(now: Epoch, updated: bool)
    | Notifying(now: Epoch) | ClearDone | SignalDone | Rearm | Stopped

  datatype Event =
    | Expire | Force | TakeDone
    | SelectForce | SelectTimer | Drain
    | EpochIs(now: Epoch) | EpochFails
    | Fetch(f: Fetched) | Prune | Notify | Clear | Signal | ResetTimer
    | Halt

  /** The maps, the callbacks made so far, and the last epoch seen. */
  datatype Data = Data(docs: map<Epoch, Doc>, failed: set<Epoch>, last: Epoch, callbacks: seq<Doc>, clock: Epoch)

  /**
   * The timer (`armed`, `tick`) and the two one-place channels; `missed` records a failed epoch
   * lookup and `signals` counts the completion signals sent.
   */
  datatype Wires = Wires(armed: bool, tick: bool, forced: bool, done: bool, missed: bool, signals: nat)

  datatype State = State(data: Data, wires: Wires, pc: Pc)

  const Init := State(Data(map[], {}, 0, [], 0), Wires(true, false, false, false, false, 0), Head)

  function Stored(d: Data, s: Store): Data {
    d.(docs := s.docs, failed := s.failed)
  }

  function FetchStep(d: Data, now: Epoch, todo: seq<Epoch>, updated: bool, f: Fetched): (Data, Pc)
    requires todo != []
  {
    var s := Store(d.docs, d.failed, updated);
    if Cancels(s, todo[0], f) then (d, Stopped)
    else
      var s' := FetchOne(s, todo[0], f);
      (Stored(d, s'), if |todo| == 1 then Pruning(now, s'.updated) else Fetching(now, todo[1..], s'.updated))
  }

  function NotifyStep(d: Data, now: Epoch): Data {
    if now != d.last && now in d.docs then d.(last := now, callbacks := d.callbacks + [d.docs[now]]) else d
  }

  /** The steps that work on the maps; others, and epochs that would go back, leave them alone. */
  function WorkData(d: Data, pc: Pc, ev: Event): (Data, Pc) {
    match ev
    case EpochIs(now) =>
      if pc == Lookup && now >= 1 && now >= d.clock then (d.(clock := now), Fetching(now, [now - 1, now], false)) else (d, pc)
    case Fetch(f) =>
      if pc.Fetching? && pc.todo != [] then FetchStep(d, pc.now, pc.todo, pc.updated, f) else (d, pc)
    case Prune =>
      if pc.Pruning? then (Stored(d, PruneAll(Store(d.docs, d.failed, pc.updated), pc.now)), Notifying(pc.now)) else (d, pc)
    case Notify => if pc.Notifying? then (NotifyStep(d, pc.now), ClearDone) else (d, pc)
    case _ => (d, pc)
  }

  /** The steps on timer and channels; a step that would block changes nothing. */
  function WorkWires(w: Wires, pc: Pc, ev: Event): (Wires, Pc) {
    match ev
    case Expire => (if w.armed then w.(armed := false, tick := true) else w, pc)
    case Force => (w.(forced := true), pc)
    case TakeDone => (w.(done := false), pc)
    case SelectForce =>
      if pc != Head || !w.forced then (w, pc)
      else if w.armed then (w.(forced := false, armed := false), Lookup)
      else (w.(forced := false), MustDrain)
    case SelectTimer => if pc == Head && w.tick then (w.(tick := false), Lookup) else (w, pc)
    case Drain => if pc == MustDrain && w.tick then (w.(tick := false), Lookup) else (w, pc)
    case EpochFails => if pc == Lookup then (w.(missed := true), Head) else (w, pc)
    case Clear => if pc == ClearDone then (w.(done := false), SignalDone) else (w, pc)
    case Signal => if pc == SignalDone && !w.done then (w.(done := true, signals := w.signals + 1), Rearm) else (w, pc)
    case ResetTimer => if pc == Rearm then (w.(armed := true), Head) else (w, pc)
    case Halt => if pc == Head then (w, Stopped) else (w, pc)
    case _ => (w, pc)
  }

  predicate OnMaps(ev: Event) {
    ev.EpochIs? || ev.Fetch? || ev.Prune? || ev.Notify?
  }

  function Step(st: State, ev: Event): State {
    if OnMaps(ev) then
      var (d, pc) := WorkData(st.data, st.pc, ev);
      State(d, st.wires, pc)
    else
      var (w, pc) := WorkWires(st.wires, st.pc, ev);
      State(st.data, w, pc)
  }

  function Run(evs: seq<Event>): State {
    if evs == [] then Init else Step(Run(evs[..|evs| - 1]), evs[|evs| - 1])
  }

  // ----- the maps

  /** In every state, also in the middle of a round. */
  ghost predicate MapsOk(d: Data) {
    && (forall e :: e in d.docs ==> d.docs[e].epoch == e && e <= d.clock)
    && (forall e :: e in d.failed ==> e <= d.clock)
    && d.docs.Keys !! d.failed
  }

  ghost predicate AtMostOneDoc(d: Data) {
    forall a, b :: a in d.docs && b in d.docs ==> a == b
  }

  /** At most one document, and no failure mark but the current epoch's. */
  ghost predicate Pruned(d: Data) {
    AtMostOneDoc(d) && d.failed <= {d.clock}
  }

  ghost predicate PcOk(d: Data, pc: Pc) {
    match pc
    case Fetching(now, todo, updated) =>
      now == d.clock >= 1 && (todo == [now - 1, now] || todo == [now]) && (!updated ==> AtMostOneDoc(d))
    case Pruning(now, updated) => now == d.clock >= 1 && (!updated ==> AtMostOneDoc(d))
    case Notifying(now) => now == d.clock >= 1 && Pruned(d)
    case Stopped => true
    case _ => Pruned(d)
  }

  ghost predicate Rising(callbacks: seq<Doc>) {
    forall i, j :: 0 <= i < j < |callbacks| ==> callbacks[i].epoch < callbacks[j].epoch
  }

  ghost predicate CallbacksOk(d: Data) {
    && d.last <= d.clock
    && Rising(d.callbacks)
    && (forall i :: 0 <= i < |d.callbacks| ==> d.callbacks[i].epoch <= d.last)
  }

  ghost predicate DataInv(d: Data, pc: Pc) {
    MapsOk(d) && PcOk(d, pc) && CallbacksOk(d)
  }

  lemma FetchKeepsData(d: Data, now: Epoch, todo: seq<Epoch>, updated: bool, f: Fetched)
    requires DataInv(d, Fetching(now, todo, updated)) && todo != []
    ensures var (d', pc') := FetchStep(d, now, todo, updated, f);
            DataInv(d', pc')
  {
    assert |todo| == 2 ==> todo[1..] == [now];
  }

  lemma PruneKeepsData(d: Data, now: Epoch, updated: bool)
    requires DataInv(d, Pruning(now, updated))
    ensures DataInv(Stored(d, PruneAll(Store(d.docs, d.failed, updated), now)), Notifying(now))
  {
  }

  lemma NotifyKeepsData(d: Data, now: Epoch)
    requires DataInv(d, Notifying(now))
    ensures DataInv(NotifyStep(d, now), ClearDone)
  {
  }

  lemma WiresKeepData(d: Data, w: Wires, pc: Pc, ev: Event)
    requires DataInv(d, pc) && !OnMaps(ev)
    ensures DataInv(d, WorkWires(w, pc, ev).1)
  {
  }

  lemma EpochKeepsData(d: Data, pc: Pc, now: Epoch)
    requires DataInv(d, pc)
    ensures var (d', pc') := WorkData(d, pc, EpochIs(now));
            DataInv(d', pc')
  {
  }

  lemma StepKeepsData(st: State, ev: Event)
    requires DataInv(st.data, st.pc)
    ensures DataInv(Step(st, ev).data, Step(st, ev).pc)
  {
    if !OnMaps(ev) {
      WiresKeepData(st.data, st.wires, st.pc, ev);
    } else if ev.EpochIs? {
      EpochKeepsData(st.data, st.pc, ev.now);
    } else if ev.Fetch? && st.pc.Fetching? && st.pc.todo != [] {
      FetchKeepsData(st.data, st.pc.now, st.pc.todo, st.pc.updated, ev.f);
    } else if ev == Prune && st.pc.Pruning? {
      PruneKeepsData(st.data, st.pc.now, st.pc.updated);
    } else if ev == Notify && st.pc.Notifying? {
      NotifyKeepsData(st.data, st.pc.now);
    }
  }

  lemma {:induction false} RunKeepsData(evs: seq<Event>)
    ensures DataInv(Run(evs).data, Run(evs).pc)
  {
    if evs != [] {
      RunKeepsData(evs[..|evs| - 1]);
      StepKeepsData(Run(evs[..|evs| - 1]), evs[|evs| - 1]);
    }
  }

  /**
   * Over every run: no epoch is both stored and marked failed, a stored document is for its key's
   * epoch, at the head of the loop at most one document and only the current epoch's failure mark
   * remain, and callbacks go out for strictly increasing epochs.
   */
  lemma WorkerState(evs: seq<Event>)
    ensures var st := Run(evs);
            && st.data.docs.Keys !! st.data.failed
            && (forall e :: e in st.data.docs ==> st.data.docs[e].epoch == e)
            && (st.pc == Head ==> Pruned(st.data))
            && Rising(st.data.callbacks)
  {
    RunKeepsData(evs);
  }

  // ----- where documents and marks come from

  /** One fetch: exactly for an epoch neither stored nor marked, and with the document that was fetched. */
  lemma FetchEffect(d: Data, now: Epoch, todo: seq<Epoch>, updated: bool, f: Fetched)
    requires todo != []
    ensures var (d', pc') := FetchStep(d, now, todo, updated, f);
            var e, known := todo[0], todo[0] in d.docs || todo[0] in d.failed;
            && d'.callbacks == d.callbacks && d'.last == d.last && d'.clock == d.clock
            && (known || f == OtherError || f == Cancelled ==> d'.docs == d.docs && d'.failed == d.failed)
            && (!known && f == NoDocument ==> d'.docs == d.docs && d'.failed == d.failed + {e})
            && (!known && f.Got? ==> d'.docs == d.docs[e := Doc(e, f.body)] && d'.failed == d.failed)
            && (pc' == Stopped <==> !known && f == Cancelled)
  {
  }

  /** The callback: once for an epoch, with its stored document. */
  lemma NotifyEffect(d: Data, now: Epoch)
    ensures var d' := NotifyStep(d, now);
            && d'.docs == d.docs && d'.failed == d.failed && d'.clock == d.clock
            && (now in d.docs && now != d.last ==> d'.callbacks == d.callbacks + [d.docs[now]] && d'.last == now)
            && (now !in d.docs || now == d.last ==> d' == d)
  {
  }

  /** Pruning: exactly earlier documents go, if one was stored in this round, and marks outside now..now+1. */
  lemma PruneEffect(d: Data, now: Epoch, updated: bool)
    ensures var d' := Stored(d, PruneAll(Store(d.docs, d.failed, updated), now));
            && (forall e :: e in d'.docs <==> e in d.docs && (!updated || e >= now))
            && (forall e :: e in d'.docs ==> d'.docs[e] == d.docs[e])
            && (forall e :: e in d'.failed <==> e in d.failed && now <= e <= now + 1)
  {
  }

  /** The `i`-th event gave this document, fetched for its own epoch. */
  ghost predicate FetchedAt(evs: seq<Event>, i: int, doc: Doc) {
    && 0 <= i < |evs| && evs[i] == Fetch(Got(doc.body))
    && var pc := Run(evs[..i]).pc; pc.Fetching? && pc.todo != [] && pc.todo[0] == doc.epoch
  }

  ghost predicate WasFetched(evs: seq<Event>, doc: Doc) {
    exists i :: FetchedAt(evs, i, doc)
  }

  /** The `i`-th event said that there is no document for this epoch. */
  ghost predicate DeniedAt(evs: seq<Event>, i: int, e: Epoch) {
    && 0 <= i < |evs| && evs[i] == Fetch(NoDocument)
    && var pc := Run(evs[..i]).pc; pc.Fetching? && pc.todo != [] && pc.todo[0] == e
  }

  ghost predicate WasDenied(evs: seq<Event>, e: Epoch) {
    exists i :: DeniedAt(evs, i, e)
  }

  ghost predicate Sourced(evs: seq<Event>, d: Data) {
    && (forall e :: e in d.docs ==> WasFetched(evs, d.docs[e]))
    && (forall e :: e in d.failed ==> WasDenied(evs, e))
    && (forall i :: 0 <= i < |d.callbacks| ==> WasFetched(evs, d.callbacks[i]))
  }

  lemma StaysFetched(evs: seq<Event>, ev: Event, doc: Doc)
    requires WasFetched(evs, doc)
    ensures WasFetched(evs + [ev], doc)
  {
    var i :| FetchedAt(evs, i, doc);
    assert (evs + [ev])[..i] == evs[..i];
    assert FetchedAt(evs + [ev], i, doc);
  }

  lemma StaysDenied(evs: seq<Event>, ev: Event, e: Epoch)
    requires WasDenied(evs, e)
    ensures WasDenied(evs + [ev], e)
  {
    var i :| DeniedAt(evs, i, e);
    assert (evs + [ev])[..i] == evs[..i];
    assert DeniedAt(evs + [ev], i, e);
  }

  lemma StaysSourced(evs: seq<Event>, ev: Event, d: Data)
    requires Sourced(evs, d)
    ensures Sourced(evs + [ev], d)
  {
    forall doc | WasFetched(evs, doc) ensures WasFetched(evs + [ev], doc) { StaysFetched(evs, ev, doc); }
    forall e | WasDenied(evs, e) ensures WasDenied(evs + [ev], e) { StaysDenied(evs, ev, e); }
  }

  lemma FetchIsSourced(evs: seq<Event>, f: Fetched, st: State)
    requires st == Run(evs) && Sourced(evs, st.data) && st.pc.Fetching? && st.pc.todo != []
    ensures Sourced(evs + [Fetch(f)], FetchStep(st.data, st.pc.now, st.pc.todo, st.pc.updated, f).0)
  {
    StaysSourced(evs, Fetch(f), st.data);
    FetchEffect(st.data, st.pc.now, st.pc.todo, st.pc.updated, f);
    var e := st.pc.todo[0];
    assert (evs + [Fetch(f)])[..|evs|] == evs;
    if f.Got? { assert FetchedAt(evs + [Fetch(f)], |evs|, Doc(e, f.body)); }
    if f == NoDocument { assert DeniedAt(evs + [Fetch(f)], |evs|, e); }
  }

  lemma StepIsSourced(evs: seq<Event>, ev: Event, st: State, d: Data)
    requires st == Run(evs) && Sourced(evs, st.data) && d == Step(st, ev).data
    ensures Sourced(evs + [ev], d)
  {
    StaysSourced(evs, ev, st.data);
    if ev.Fetch? && st.pc.Fetching? && st.pc.todo != [] {
      FetchIsSourced(evs, ev.f, st);
    } else if ev == Prune && st.pc.Pruning? {
      PruneEffect(st.data, st.pc.now, st.pc.updated);
    } else if ev == Notify && st.pc.Notifying? {
      NotifyEffect(st.data, st.pc.now);
    }
  }

  lemma {:induction false} RunIsSourced(evs: seq<Event>)
    ensures Sourced(evs, Run(evs).data)
  {
    if evs != [] {
      var front, ev := evs[..|evs| - 1], evs[|evs| - 1];
      RunIsSourced(front);
      StepIsSourced(front, ev, Run(front), Run(evs).data);
      assert evs == front + [ev];
    }
  }

  /**
   * Over every run: a stored document, and every document handed to a callback, is one that was
   * fetched for its epoch, and an epoch is marked only if it was said to have no document.
   */
  lemma DocumentsAreFetched(evs: seq<Event>, e: Epoch)
    ensures e in Run(evs).data.docs ==> WasFetched(evs, Run(evs).data.docs[e])
    ensures e in Run(evs).data.failed ==> WasDenied(evs, e)
    ensures forall i :: 0 <= i < |Run(evs).data.callbacks| ==> WasFetched(evs, Run(evs).data.callbacks[i])
  {
    RunIsSourced(evs);
  }

  // ----- callers

  lemma KeepsCurrent(st: State, ev: Event, e: Epoch)
    requires DataInv(st.data, st.pc) && e in st.data.docs && Step(st, ev).data.clock <= e
    ensures e in Step(st, ev).data.docs && Step(st, ev).data.docs[e] == st.data.docs[e]
  {
  }

  lemma ClockForward(st: State, ev: Event)
    ensures st.data.clock <= Step(st, ev).data.clock
  {
  }

  /** A stored document stays available, unchanged, until a later epoch has been seen. */
  lemma {:induction false} DocumentPersists(evs: seq<Event>, more: seq<Event>, e: Epoch)
    requires e in Run(evs).data.docs && Run(evs + more).data.clock <= e
    ensures e in Run(evs + more).data.docs && Run(evs + more).data.docs[e] == Run(evs).data.docs[e]
  {
    if more == [] {
      assert evs + more == evs;
    } else {
      var n := |more| - 1;
      var front := evs + more[..n];
      assert evs + more == front + [more[n]];
      assert (front + [more[n]])[..|front|] == front;
      ClockForward(Run(front), more[n]);
      DocumentPersists(evs, more[..n], e);
      RunKeepsData(front);
      KeepsCurrent(Run(front), more[n], e);
    }
  }

  /** currentDocument: look, and if there is nothing wait for a round and look once more. */
  function CurrentDocument(now: Epoch, first: State, second: State): Option<Doc> {
    if now in first.data.docs then Some(first.data.docs[now])
    else if now in second.data.docs then Some(second.data.docs[now])
    else None
  }

  /** Whatever happens between the two looks, a returned document is for the epoch looked up. */
  lemma CurrentDocumentIsCurrent(evs: seq<Event>, more: seq<Event>, now: Epoch)
    ensures var d := CurrentDocument(now, Run(evs), Run(evs + more));
            d.Some? ==> d.value.epoch == now
  {
    RunKeepsData(evs);
    RunKeepsData(evs + more);
  }

  // ----- the handshake

  ghost predicate HandshakeInv(w: Wires, pc: Pc) {
    && (pc == SignalDone ==> !w.done)
    && (if w.missed then !w.armed && !w.tick && (pc == Head || pc == MustDrain || pc == Stopped)
        else match pc
             case Head => w.armed != w.tick
             case MustDrain => w.tick && !w.armed
             case Stopped => true
             case _ => !w.armed && !w.tick)
  }

  lemma StepKeepsHandshake(st: State, ev: Event)
    requires HandshakeInv(st.wires, st.pc)
    ensures HandshakeInv(Step(st, ev).wires, Step(st, ev).pc)
  {
  }

  lemma {:induction false} RunKeepsHandshake(evs: seq<Event>)
    ensures HandshakeInv(Run(evs).wires, Run(evs).pc)
  {
    if evs != [] {
      RunKeepsHandshake(evs[..|evs| - 1]);
      StepKeepsHandshake(Run(evs[..|evs| - 1]), evs[|evs| - 1]);
    }
  }

  /** Under any interleaving of callers, the completion signal finds its channel free. */
  lemma SignalNeverBlocks(evs: seq<Event>)
    ensures Run(evs).pc == SignalDone ==>
              Run(evs + [Signal]).wires.signals == Run(evs).wires.signals + 1 && Run(evs + [Signal]).wires.done
  {
    RunKeepsHandshake(evs);
    assert (evs + [Signal])[..|evs|] == evs;
  }

  /**
   * At the loop head the timer is live, by exactly one of "armed" and "tick buffered", if and only
   * if no epoch lookup has failed so far; and the drain after Stop finds its tick under the same
   * condition.
   */
  lemma TimerLiveIff(evs: seq<Event>)
    ensures var st := Run(evs);
            var w := st.wires;
            && (st.pc == Head ==> ((w.armed != w.tick) <==> !w.missed) && ((w.armed || w.tick) <==> !w.missed))
            && (st.pc == MustDrain ==> (Run(evs + [Drain]).pc == Lookup <==> !w.missed))
  {
    RunKeepsHandshake(evs);
    assert (evs + [Drain])[..|evs|] == evs;
  }

  /** A caller's poke at the loop head starts a round, unless an epoch lookup has failed. */
  lemma PokeStartsRound(st: State)
    requires HandshakeInv(st.wires, st.pc) && st.pc == Head && !st.wires.missed
    ensures var st1 := Step(Step(st, Force), SelectForce);
            && (st1.pc == Lookup || (st1.pc == MustDrain && Step(st1, Drain).pc == Lookup))
            && st1.data == st.data && !st1.wires.forced
  {
  }

  lemma DeadStep(st: State, ev: Event)
    requires HandshakeInv(st.wires, st.pc) && st.wires.missed
    ensures var st' := Step(st, ev);
            st'.wires.missed && st'.data == st.data && st'.wires.signals == st.wires.signals
  {
  }

  /** A single failed lookup in the first round is enough to get there. */
  lemma LookupCanFail()
    ensures var evs := [Expire, SelectTimer, EpochFails];
            Run(evs).wires.missed && Run(evs).pc == Head
  {
    var evs := [Expire, SelectTimer, EpochFails];
    assert evs[..2] == [Expire, SelectTimer] && evs[..2][..1] == [Expire] && [Expire][..0] == [];
    assert Run([Expire]) == Step(Init, Expire);
    assert Run(evs[..2]) == Step(Run([Expire]), SelectTimer);
  }

  /**
   * One failed epoch lookup ends the worker's usefulness: whatever happens afterwards, no document
   * is stored, no callback is made and no new completion signal is sent.
   */
  lemma {:induction false} FailedLookupIsFatal(evs: seq<Event>, more: seq<Event>)
    requires Run(evs).wires.missed
    ensures var st, st' := Run(evs), Run(evs + more);
            st'.wires.missed && st'.data == st.data && st'.wires.signals == st.wires.signals
  {
    if more == [] {
      assert evs + more == evs;
    } else {
      var n := |more| - 1;
      var front := evs + more[..n];
      assert evs + more == front + [more[n]];
      assert (front + [more[n]])[..|front|] == front;
      FailedLookupIsFatal(evs, more[..n]);
      RunKeepsHandshake(front);
      DeadStep(Run(front), more[n]);
    }
  }

  // ----- the worker's own code

  /** The worker's separate steps, taken without interruption, do to the maps exactly what Refresh below does. */
  lemma StepsMakeARound(st: State, now: Epoch, older: Fetched, current: Fetched)
    requires st.pc == Lookup && now >= 1 && now >= st.data.clock
    requires var s0 := Store(st.data.docs, st.data.failed, false);
             !Cancels(s0, now - 1, older) && !Cancels(FetchOne(s0, now - 1, older), now, current)
    ensures var st1 := Step(Step(Step(st, EpochIs(now)), Fetch(older)), Fetch(current));
            var s := Round(st.data.docs, st.data.failed, now, older, current);
            Step(st1, Prune) == State(Stored(st.data.(clock := now), s), st.wires, Notifying(now))
  {
    var st1 := Step(st, EpochIs(now));
    assert st1.pc == Fetching(now, [now - 1, now], false);
    var st2 := Step(st1, Fetch(older));
    assert [now - 1, now][1..] == [now];
    var s1 := FetchOne(Store(st.data.docs, st.data.failed, false), now - 1, older);
    assert st2 == State(Stored(st1.data, s1), st.wires, Fetching(now, [now], s1.updated));
  }

  /**
   * What a round does about the current epoch: a fetched document is stored as fetched, a missing
   * one marked, another error forgotten, and what was stored or marked before is left as it was.
   */
  predicate RefreshedFor(docs: map<Epoch, Doc>, failed: set<Epoch>, now: Epoch, current: Fetched,
                         docs': map<Epoch, Doc>, failed': set<Epoch>)
  {
    && (now in docs ==> now in docs' && docs'[now] == docs[now] && (now in failed' <==> now in failed))
    && (now in failed ==> now in failed' && (now in docs' <==> now in docs))
    && (now !in docs && now !in failed ==>
          match current
          case Got(body) => now in docs' && docs'[now] == Doc(now, body) && now !in failed'
          case NoDocument => now !in docs' && now in failed'
          case OtherError => now !in docs' && now !in failed'
          case Cancelled => true)
  }

  lemma RoundRefreshes(docs: map<Epoch, Doc>, failed: set<Epoch>, now: Epoch, older: Fetched, current: Fetched)
    requires now >= 1
    ensures var s := Round(docs, failed, now, older, current);
            RefreshedFor(docs, failed, now, current, s.docs, s.failed)
  {
  }

  class Pki {
    var docs: map<Epoch, Doc>
    var failedFetches: set<Epoch>
    var lastCallbackEpoch: Epoch
    var callbacks: seq<Doc>

    constructor ()
      ensures docs == map[] && failedFetches == {} && lastCallbackEpoch == 0 && callbacks == []
    {
      docs, failedFetches, lastCallbackEpoch, callbacks := map[], {}, 0, [];
    }

    method PruneDocuments(now: Epoch)
      modifies this`docs
      ensures docs == PrunedDocs(old(docs), now)
      ensures forall e :: e in docs <==> e in old(docs) && e >= now
      ensures forall e :: e in docs ==> docs[e] == old(docs)[e]
    {
      var todo := docs.Keys;
      while todo != {}
        invariant todo <= docs.Keys
        invariant docs.Keys <= old(docs).Keys
        invariant forall e :: e in docs ==> docs[e] == old(docs)[e]
        invariant forall e :: e in old(docs) && e !in todo ==> (e in docs <==> now <= e)
        decreases |todo|
      {
        var epoch :| epoch in todo;
        todo := todo - {epoch};
        if epoch < now { docs := docs - {epoch}; }
      }
    }

    method PruneFailures(now: Epoch)
      modifies this`failedFetches
      ensures failedFetches == PrunedFailures(old(failedFetches), now)
      ensures forall e :: e in failedFetches <==> e in old(failedFetches) && now <= e <= now + 1
    {
      var todo := failedFetches;
      while todo != {}
        invariant todo <= failedFetches <= old(failedFetches)
        invariant forall e :: e in old(failedFetches) && e !in todo ==> (e in failedFetches <==> now <= e <= now + 1)
        decreases |todo|
      {
        var epoch :| epoch in todo;
        todo := todo - {epoch};
        if epoch < now || epoch > now + 1 { failedFetches := failedFetches - {epoch}; }
      }
    }

    /**
     * The body of the worker's loop after a successful epoch lookup: fetch what is missing, prune,
     * and call back once per epoch.  `halted` is the return on a cancelled fetch.
     */
    method Refresh(now: Epoch, older: Fetched, current: Fetched) returns (halted: bool)
      requires now >= 1
      modifies this
      ensures !halted ==>
                var s := Round(old(docs), old(failedFetches), now, older, current);
                && docs == s.docs && failedFetches == s.failed
                && (if now != old(lastCallbackEpoch) && now in docs
                    then lastCallbackEpoch == now && callbacks == old(callbacks) + [docs[now]]
                    else lastCallbackEpoch == old(lastCallbackEpoch) && callbacks == old(callbacks))
      ensures halted <==>
                var s0 := Store(old(docs), old(failedFetches), false);
                Cancels(s0, now - 1, older) || Cancels(FetchOne(s0, now - 1, older), now, current)
      ensures halted ==> callbacks == old(callbacks)
      ensures !halted ==> RefreshedFor(old(docs), old(failedFetches), now, current, docs, failedFetches)
    {
      RoundRefreshes(docs, failedFetches, now, older, current);
      var epochs := [(now - 1, older), (now, current)];
      var didUpdate := false;
      halted := false;
      ghost var s0 := Store(docs, failedFetches, false);
      for i := 0 to 2
        invariant callbacks == old(callbacks) && lastCallbackEpoch == old(lastCallbackEpoch) && !halted
        invariant i == 0 ==> Store(docs, failedFetches, didUpdate) == s0
        invariant i == 1 ==> Store(docs, failedFetches, didUpdate) == FetchOne(s0, now - 1, older) && !Cancels(s0, now - 1, older)
        invariant i == 2 ==>
                    && !Cancels(s0, now - 1, older)
                    && !Cancels(FetchOne(s0, now - 1, older), now, current)
                    && Store(docs, failedFetches, didUpdate) == FetchOne(FetchOne(s0, now - 1, older), now, current)
      {
        var (epoch, f) := epochs[i];
        if epoch !in docs && epoch !in failedFetches {
          match f {
            case Got(body) =>
              docs := docs[epoch := Doc(epoch, body)];
              didUpdate := true;
            case NoDocument => failedFetches := failedFetches + {epoch};
            case OtherError =>
            case Cancelled =>
              halted := true;
              return;
          }
        }
      }
      PruneFailures(now);
      if didUpdate { PruneDocuments(now); }
      if now != lastCallbackEpoch && now in docs {
        lastCallbackEpoch := now;
        callbacks := callbacks + [docs[now]];
      }
    }
  }
}
