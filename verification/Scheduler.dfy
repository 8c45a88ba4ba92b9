/**
 * The cover-traffic scheduler (worker.go): three timers, connection and document events, and on
 * each tick of the first timer "send user data or a decoy".  Clock readings and random draws are
 * given with each turn of the loop; callers push messages at any moment, also in the middle of a
 * turn.  A timer keeps an undelivered tick over a Reset, as in the Go version the module asks for.
 */
module Scheduler {
  import opened Basics
  import EgressQueue
  import Egress

  datatype Which = P | L | D

  /** Maximal delays of the three timers, in milliseconds. */
  datatype Doc = Doc(pMax: nat, lMax: nat, dMax: nat)

  datatype Timer = Timer(deadline: Option<int>, tick: bool)

  datatype Draws = Draws(p: nat, l: nat, d: nat)

  /** Whether the service lookup, the two random reads and the send itself succeed. */
  datatype Env = Env(serviceOk: bool, idOk: bool, surbOk: bool, sendOk: bool)

  datatype Happening =
    | Expire(w: Which)                 // the runtime delivers a tick
    | Fire(w: Which, env: Env)         // the loop receives it
    | Connection(up: bool) | NewDocument(doc: Doc) | Nonsense | Halt

  datatype Turn = Turn(what: Happening, now: int, draws: Draws)

  datatype Control = Control(connected: bool, doc: Doc, p: Timer, l: Timer, d: Timer, now: int, halted: bool)

  // ----- control: what the loop does apart from the queue

  const MAX_DURATION: int := TWO63 - 1

  function Get(c: Control, w: Which): Timer {
    match w case P => c.p case L => c.l case D => c.d
  }

  function Set(c: Control, w: Which, t: Timer): Control {
    match w case P => c.(p := t) case L => c.(l := t) case D => c.(d := t)
  }

  function MaxDelay(doc: Doc, w: Which): nat {
    match w case P => doc.pMax case L => doc.lMax case D => doc.dMax
  }

  function Draw(draws: Draws, w: Which): nat {
    match w case P => draws.p case L => draws.l case D => draws.d
  }

  function Interval(connected: bool, draw: nat, max: nat): int {
    if !connected then MAX_DURATION else Milliseconds(if draw > max then max else draw)
  }

  function Reset(c: Control, draws: Draws, w: Which): Control {
    Set(c, w, Get(c, w).(deadline := Some(c.now + Interval(c.connected, Draw(draws, w), MaxDelay(c.doc, w)))))
  }

  function ResetAll(c: Control, draws: Draws): Control {
    Reset(Reset(Reset(c, draws, P), draws, L), draws, D)
  }

  function Start(doc: Doc, now: int, draws: Draws): Control {
    var idle := Timer(None, false);
    ResetAll(Control(true, doc, idle, idle, idle, now, false), draws).(connected := false)
  }

  /** Can this happen now?  Clocks do not run back, and only a delivered tick can be received. */
  predicate Enabled(c: Control, t: Turn) {
    && !c.halted && c.now <= t.now
    && (match t.what
        case Expire(w) => Get(c, w).deadline.Some? && Get(c, w).deadline.value <= t.now
        case Fire(w, _) => Get(c, w).tick
        case _ => true)
  }

  function ControlStep(c0: Control, t: Turn): Control {
    if !Enabled(c0, t) then c0
    else
      var c := c0.(now := t.now);
      match t.what
      case Expire(w) => Set(c, w, Timer(None, true))
      case Fire(w, _) => Reset(Set(c, w, Get(c, w).(tick := false)), t.draws, w)
      case Connection(up) => ResetAll(c.(connected := up), t.draws)
      case NewDocument(doc) => ResetAll(c.(doc := doc), t.draws)
      case Nonsense => c
      case Halt => c.(halted := true)
  }

  /** One send slot: when, and which timer called for it. */
  datatype Slot = Slot(at: int, w: Which)

  /** The slots there should be: one for every tick received while connected. */
  function SlotsOf(c: Control, t: Turn): seq<Slot> {
    if Enabled(c, t) && t.what.Fire? && c.connected then [Slot(t.now, t.what.w)] else []
  }

  function ControlRun(start: Control, turns: seq<Turn>): Control {
    if turns == [] then start else ControlStep(ControlRun(start, turns[..|turns| - 1]), turns[|turns| - 1])
  }

  function SlotRun(start: Control, turns: seq<Turn>): seq<Slot> {
    if turns == [] then []
    else
      var n := |turns| - 1;
      SlotRun(start, turns[..n]) + SlotsOf(ControlRun(start, turns[..n]), turns[n])
  }

  // ----- the whole worker, with its queue

  datatype Config = Config(queueSize: nat, decoysDisabled: bool)

  datatype Traffic = User(msg: Egress.Message) | DropDecoy | LoopDecoy

  /** A call into the network layer. */
  datatype Attempt = Attempt(slot: Slot, traffic: Traffic)

  /** What callers do before the turn, between the two peeks, and between send and pop. */
  datatype Callers = Callers(before: seq<Egress.Event>, between: seq<Egress.Event>, after: seq<Egress.Event>)

  datatype State = State(control: Control, egress: Egress.State, attempts: seq<Attempt>)

  predicate CallersOnly(evs: seq<Egress.Event>) {
    forall i :: 0 <= i < |evs| ==> !evs[i].Worker?
  }

  predicate OnlyCallers(cs: Callers) {
    CallersOnly(cs.before) && CallersOnly(cs.between) && CallersOnly(cs.after)
  }

  /** Would a decoy go out? */
  predicate DecoyGoes(cfg: Config, env: Env) {
    !cfg.decoysDisabled && env.serviceOk && env.idOk && env.surbOk
  }

  function Decoy(cfg: Config, env: Env, slot: Slot, kind: Traffic): seq<Attempt> {
    if DecoyGoes(cfg, env) then [Attempt(slot, kind)] else []
  }

  /** sendNext, with callers at work between its steps. */
  function SendNext(cfg: Config, eg: Egress.State, env: Env, cs: Callers): Egress.State {
    var held := Egress.WorkerStep(Egress.Run(cfg.queueSize, eg, cs.between), env.surbOk, env.sendOk);
    var sent := Egress.WorkerStep(held, env.surbOk, env.sendOk);
    Egress.WorkerStep(Egress.Run(cfg.queueSize, sent, cs.after), env.surbOk, env.sendOk)
  }

  /** sendFromQueueOrDecoy: the queue as it is afterwards, and the calls made. */
  function SendFromQueueOrDecoy(cfg: Config, eg: Egress.State, env: Env, cs: Callers, slot: Slot): (Egress.State, seq<Attempt>) {
    var peeked := Egress.WorkerStep(eg, env.surbOk, env.sendOk);
    if peeked.pc == Egress.Idle then (peeked, Decoy(cfg, env, slot, DropDecoy))
    else
      var done := SendNext(cfg, peeked, env, cs);
      (done, if env.surbOk && peeked.queue != [] then [Attempt(slot, User(peeked.queue[0]))] else [])
  }

  function Step(cfg: Config, st: State, t: Turn, cs: Callers): State {
    var eg := Egress.Run(cfg.queueSize, st.egress, cs.before);
    var next := ControlStep(st.control, t);
    if SlotsOf(st.control, t) == [] then State(next, eg, st.attempts)
    else
      var slot := Slot(t.now, t.what.w);
      match t.what.w
      case P =>
        var (eg', made) := SendFromQueueOrDecoy(cfg, eg, t.what.env, cs, slot);
        State(next, eg', st.attempts + made)
      case L => State(next, eg, st.attempts + Decoy(cfg, t.what.env, slot, LoopDecoy))
      case D => State(next, eg, st.attempts + Decoy(cfg, t.what.env, slot, DropDecoy))
  }

  function Run(cfg: Config, start: State, turns: seq<Turn>, callers: seq<Callers>): State
    requires |turns| == |callers|
  {
    if turns == [] then start
    else
      var n := |turns| - 1;
      Step(cfg, Run(cfg, start, turns[..n], callers[..n]), turns[n], callers[n])
  }

  function Observe(attempts: seq<Attempt>): (slots: seq<Slot>)
    ensures |slots| == |attempts|
  {
    seq(|attempts|, i requires 0 <= i < |attempts| => attempts[i].slot)
  }

  // ----- traffic does not depend on the queue

  lemma {:induction false} CallersKeepPc(cap: nat, eg: Egress.State, evs: seq<Egress.Event>)
    requires CallersOnly(evs)
    ensures Egress.Run(cap, eg, evs).pc == eg.pc
  {
    if evs != [] {
      assert !evs[|evs| - 1].Worker?;
      CallersKeepPc(cap, eg, evs[..|evs| - 1]);
    }
  }

  /** sendNext returns to its starting point: the two further steps find the message they expect. */
  lemma SendNextReturns(cfg: Config, eg: Egress.State, env: Env, cs: Callers)
    requires Egress.Inv(eg) && eg.pc == Egress.Peeked && OnlyCallers(cs)
    ensures Egress.Inv(SendNext(cfg, eg, env, cs)) && SendNext(cfg, eg, env, cs).pc == Egress.Idle
  {
    var a := Egress.Run(cfg.queueSize, eg, cs.between);
    Egress.RunKeepsInv(cfg.queueSize, eg, cs.between);
    CallersKeepPc(cfg.queueSize, eg, cs.between);
    var held := Egress.WorkerStep(a, env.surbOk, env.sendOk);
    Egress.WorkerKeepsInv(a, env.surbOk, env.sendOk);
    var sent := Egress.WorkerStep(held, env.surbOk, env.sendOk);
    Egress.WorkerKeepsInv(held, env.surbOk, env.sendOk);
    assert sent.pc.Finished?;
    var b := Egress.Run(cfg.queueSize, sent, cs.after);
    Egress.RunKeepsInv(cfg.queueSize, sent, cs.after);
    CallersKeepPc(cfg.queueSize, sent, cs.after);
    Egress.WorkerKeepsInv(b, env.surbOk, env.sendOk);
  }

  /** Does a slot of the first timer look the same with and without a message to send? */
  predicate Hides(cfg: Config, env: Env) {
    !env.surbOk || (!cfg.decoysDisabled && env.serviceOk && env.idOk)
  }

  ghost predicate AtLoopHead(eg: Egress.State) {
    Egress.Inv(eg) && eg.pc == Egress.Idle
  }

  /** What fills a slot: a message if the queue has one and a SURB ID can be drawn, else a decoy if one goes. */
  lemma SlotIsFilled(cfg: Config, eg: Egress.State, env: Env, cs: Callers, slot: Slot)
    requires AtLoopHead(eg) && OnlyCallers(cs)
    ensures var (eg', made) := SendFromQueueOrDecoy(cfg, eg, env, cs, slot);
            && AtLoopHead(eg')
            && Observe(made) == if (if eg.queue == [] then DecoyGoes(cfg, env) else env.surbOk) then [slot] else []
  {
    Egress.WorkerKeepsInv(eg, env.surbOk, env.sendOk);
    var peeked := Egress.WorkerStep(eg, env.surbOk, env.sendOk);
    if eg.queue != [] {
      SendNextReturns(cfg, peeked, env, cs);
    }
  }

  lemma ObserveConcat(a: seq<Attempt>, b: seq<Attempt>)
    ensures Observe(a + b) == Observe(a) + Observe(b)
  {
  }

  /**
   * Exactly when a slot hides whether the queue was empty, for any two states of queue and callers
   * and whatever callers do meanwhile: either no SURB ID can be drawn at all, or decoys are on and
   * service lookup and message ID draw succeed.
   */
  lemma SlotHidesQueueIff(cfg: Config, env: Env, slot: Slot, eg0: Egress.State, cs0: Callers, eg1: Egress.State, cs1: Callers)
    requires AtLoopHead(eg0) && AtLoopHead(eg1) && OnlyCallers(cs0) && OnlyCallers(cs1)
    requires eg0.queue == [] && eg1.queue != []
    ensures var (_, made0) := SendFromQueueOrDecoy(cfg, eg0, env, cs0, slot);
            var (_, made1) := SendFromQueueOrDecoy(cfg, eg1, env, cs1, slot);
            Observe(made0) == Observe(made1) <==> Hides(cfg, env)
  {
    SlotIsFilled(cfg, eg0, env, cs0, slot);
    SlotIsFilled(cfg, eg1, env, cs1, slot);
  }

  // ----- whole runs

  ghost predicate AllWell(turns: seq<Turn>) {
    forall i :: 0 <= i < |turns| && turns[i].what.Fire? ==>
      turns[i].what.env.serviceOk && turns[i].what.env.idOk && turns[i].what.env.surbOk
  }

  ghost predicate AllCallers(callers: seq<Callers>) {
    forall i :: 0 <= i < |callers| ==> OnlyCallers(callers[i])
  }

  /** The turn is not a tick of the first timer, received while connected, that would give the queue away. */
  predicate TurnHides(cfg: Config, c: Control, t: Turn) {
    SlotsOf(c, t) != [] && t.what.w == P ==> Hides(cfg, t.what.env)
  }

  ghost predicate Covered(cfg: Config, start: Control, turns: seq<Turn>) {
    forall n :: 0 <= n < |turns| ==> TurnHides(cfg, ControlRun(start, turns[..n]), turns[n])
  }

  /** The slots used if no turn gives the queue away. */
  function UsedSlots(cfg: Config, c: Control, t: Turn): seq<Slot> {
    if SlotsOf(c, t) != [] && (if t.what.w == P then t.what.env.surbOk else DecoyGoes(cfg, t.what.env))
    then SlotsOf(c, t) else []
  }

  function UsedRun(cfg: Config, start: Control, turns: seq<Turn>): seq<Slot> {
    if turns == [] then []
    else
      var n := |turns| - 1;
      UsedRun(cfg, start, turns[..n]) + UsedSlots(cfg, ControlRun(start, turns[..n]), turns[n])
  }

  lemma DecoySlots(cfg: Config, env: Env, slot: Slot, kind: Traffic)
    ensures Observe(Decoy(cfg, env, slot, kind)) == if DecoyGoes(cfg, env) then [slot] else []
  {
  }

  /** The slots of one turn, given whether its callers leave the queue empty. */
  function TurnSlots(cfg: Config, c: Control, t: Turn, empty: bool): seq<Slot> {
    if SlotsOf(c, t) != [] && t.what.w == P && empty && !DecoyGoes(cfg, t.what.env) then [] else UsedSlots(cfg, c, t)
  }

  /** A tick of one of the two decoy timers. */
  lemma DecoyTurn(cfg: Config, st: State, t: Turn, cs: Callers)
    requires SlotsOf(st.control, t) != [] && t.what.w != P
    ensures var st' := Step(cfg, st, t, cs);
            && st'.egress == Egress.Run(cfg.queueSize, st.egress, cs.before)
            && Observe(st'.attempts) == Observe(st.attempts) + UsedSlots(cfg, st.control, t)
  {
    var slot, env, kind := Slot(t.now, t.what.w), t.what.env, if t.what.w == L then LoopDecoy else DropDecoy;
    DecoySlots(cfg, env, slot, kind);
    ObserveConcat(st.attempts, Decoy(cfg, env, slot, kind));
  }

  /** A tick of the first timer. */
  lemma QueueTurn(cfg: Config, st: State, t: Turn, cs: Callers, eg: Egress.State)
    requires SlotsOf(st.control, t) != [] && t.what.w == P && OnlyCallers(cs)
    requires eg == Egress.Run(cfg.queueSize, st.egress, cs.before) && AtLoopHead(eg)
    ensures var st' := Step(cfg, st, t, cs);
            && AtLoopHead(st'.egress)
            && Observe(st'.attempts) == Observe(st.attempts) + TurnSlots(cfg, st.control, t, eg.queue == [])
  {
    var slot := Slot(t.now, P);
    SlotIsFilled(cfg, eg, t.what.env, cs, slot);
    ObserveConcat(st.attempts, SendFromQueueOrDecoy(cfg, eg, t.what.env, cs, slot).1);
  }

  /** One turn, in terms of the queue its callers leave it. */
  lemma StepUses(cfg: Config, st: State, t: Turn, cs: Callers)
    requires AtLoopHead(st.egress) && OnlyCallers(cs)
    ensures var st' := Step(cfg, st, t, cs);
            && AtLoopHead(st'.egress)
            && st'.control == ControlStep(st.control, t)
            && Observe(st'.attempts) == Observe(st.attempts) +
               TurnSlots(cfg, st.control, t, Egress.Run(cfg.queueSize, st.egress, cs.before).queue == [])
  {
    var eg := Egress.Run(cfg.queueSize, st.egress, cs.before);
    Egress.RunKeepsInv(cfg.queueSize, st.egress, cs.before);
    CallersKeepPc(cfg.queueSize, st.egress, cs.before);
    if SlotsOf(st.control, t) != [] {
      if t.what.w == P { QueueTurn(cfg, st, t, cs, eg); } else { DecoyTurn(cfg, st, t, cs); }
    }
  }

  lemma CoveredPrefix(cfg: Config, start: Control, turns: seq<Turn>)
    requires turns != [] && Covered(cfg, start, turns)
    ensures Covered(cfg, start, turns[..|turns| - 1])
  {
    var front := turns[..|turns| - 1];
    forall n | 0 <= n < |front| ensures TurnHides(cfg, ControlRun(start, front[..n]), front[n]) {
      assert front[..n] == turns[..n];
    }
  }

  ghost predicate Follows(cfg: Config, start: Control, turns: seq<Turn>, st: State) {
    && AtLoopHead(st.egress)
    && st.control == ControlRun(start, turns)
    && Observe(st.attempts) == UsedRun(cfg, start, turns)
  }

  lemma FollowsNext(cfg: Config, start: Control, turns: seq<Turn>, st: State, cs: Callers)
    requires turns != [] && OnlyCallers(cs)
    requires var n := |turns| - 1;
             Follows(cfg, start, turns[..n], st) && TurnHides(cfg, ControlRun(start, turns[..n]), turns[n])
    ensures Follows(cfg, start, turns, Step(cfg, st, turns[|turns| - 1], cs))
  {
    StepUses(cfg, st, turns[|turns| - 1], cs);
  }

  lemma {:induction false} RunFollows(cfg: Config, start: State, turns: seq<Turn>, callers: seq<Callers>)
    requires |turns| == |callers| && AllCallers(callers) && Covered(cfg, start.control, turns)
    requires AtLoopHead(start.egress) && start.attempts == []
    ensures Follows(cfg, start.control, turns, Run(cfg, start, turns, callers))
  {
    if turns != [] {
      var n := |turns| - 1;
      assert forall i :: 0 <= i < n ==> callers[..n][i] == callers[i];
      CoveredPrefix(cfg, start.control, turns);
      RunFollows(cfg, start, turns[..n], callers[..n]);
      FollowsNext(cfg, start.control, turns, Run(cfg, start, turns[..n], callers[..n]), callers[n]);
    }
  }

  lemma {:induction false} AllSlotsUsed(cfg: Config, start: Control, turns: seq<Turn>)
    requires !cfg.decoysDisabled && AllWell(turns)
    ensures UsedRun(cfg, start, turns) == SlotRun(start, turns)
  {
    if turns != [] {
      var n := |turns| - 1;
      assert forall i :: 0 <= i < n ==> turns[..n][i] == turns[i];
      AllSlotsUsed(cfg, start, turns[..n]);
    }
  }

  /**
   * If no turn gives the queue away, control state and send slots are functions of the turns
   * alone, whatever callers push and whenever; and with decoys on and all lookups and random reads
   * succeeding, there is one slot for every tick received while connected.
   */
  lemma TrafficFollowsControl(cfg: Config, start: State, turns: seq<Turn>, callers: seq<Callers>)
    requires |turns| == |callers| && AllCallers(callers) && Covered(cfg, start.control, turns)
    requires AtLoopHead(start.egress) && start.attempts == []
    ensures var st := Run(cfg, start, turns, callers);
            && st.control == ControlRun(start.control, turns)
            && Observe(st.attempts) == UsedRun(cfg, start.control, turns)
            && (!cfg.decoysDisabled && AllWell(turns) ==> Observe(st.attempts) == SlotRun(start.control, turns))
  {
    RunFollows(cfg, start, turns, callers);
    if !cfg.decoysDisabled && AllWell(turns) { AllSlotsUsed(cfg, start.control, turns); }
  }

  /**
   * Cover traffic hides the user: if no turn gives the queue away, two runs with the same turns
   * and draws, but different queues at the start and different pushes at different moments, have
   * the same control state and the same send slots at the same times.
   */
  lemma CoverTrafficIndependence(cfg: Config, control: Control, eg1: Egress.State, eg2: Egress.State,
                                 turns: seq<Turn>, callers1: seq<Callers>, callers2: seq<Callers>)
    requires |turns| == |callers1| == |callers2| && Covered(cfg, control, turns)
    requires AllCallers(callers1) && AllCallers(callers2) && AtLoopHead(eg1) && AtLoopHead(eg2)
    ensures var run1 := Run(cfg, State(control, eg1, []), turns, callers1);
            var run2 := Run(cfg, State(control, eg2, []), turns, callers2);
            run1.control == run2.control && Observe(run1.attempts) == Observe(run2.attempts)
  {
    RunFollows(cfg, State(control, eg1, []), turns, callers1);
    RunFollows(cfg, State(control, eg2, []), turns, callers2);
  }

  // ----- and only then

  ghost function Seen(cfg: Config, control: Control, turns: seq<Turn>, callers: seq<Callers>): seq<Slot>
    requires |turns| == |callers|
  {
    Observe(Run(cfg, State(control, Egress.Init, []), turns, callers).attempts)
  }

  /** An observer of the send slots learns nothing about what callers do. */
  ghost predicate Independent(cfg: Config, control: Control, turns: seq<Turn>) {
    forall c1: seq<Callers>, c2: seq<Callers> ::
      |c1| == |turns| && |c2| == |turns| && AllCallers(c1) && AllCallers(c2) ==>
        Seen(cfg, control, turns, c1) == Seen(cfg, control, turns, c2)
  }

  const QUIET: Callers := Callers([], [], [])
  const PUSH: Callers := Callers([Egress.Enqueue(0)], [], [])

  /** Nobody pushes, except one message just before turn `n`. */
  function PushAt(n: int, len: nat): seq<Callers> {
    seq(len, i => if i == n then PUSH else QUIET)
  }

  /** Between pushes: at the loop head with nothing to send. */
  ghost predicate Empty(eg: Egress.State) {
    AtLoopHead(eg) && eg.queue == []
  }

  /** Between pushes, in this control state, with so many attempts made. */
  ghost predicate Counted(st: State, control: Control, attempts: nat) {
    Empty(st.egress) && st.control == control && |st.attempts| == attempts
  }

  /** The attempts made while nobody pushes. */
  function QuietOne(cfg: Config, c: Control, t: Turn): nat {
    if SlotsOf(c, t) != [] && DecoyGoes(cfg, t.what.env) then 1 else 0
  }

  function QuietCount(cfg: Config, start: Control, turns: seq<Turn>): nat {
    if turns == [] then 0
    else
      var n := |turns| - 1;
      QuietCount(cfg, start, turns[..n]) + QuietOne(cfg, ControlRun(start, turns[..n]), turns[n])
  }

  lemma QuietStep(cfg: Config, st: State, t: Turn)
    requires Empty(st.egress)
    ensures var st' := Step(cfg, st, t, QUIET);
            && Empty(st'.egress) && st'.control == ControlStep(st.control, t)
            && |st'.attempts| == |st.attempts| + if SlotsOf(st.control, t) != [] && DecoyGoes(cfg, t.what.env) then 1 else 0
  {
    assert Egress.Run(cfg.queueSize, st.egress, QUIET.before) == st.egress;
  }

  lemma PushedOnce(cap: nat, eg: Egress.State)
    requires Empty(eg) && cap >= 1
    ensures var pushed := Egress.Run(cap, eg, PUSH.before);
            AtLoopHead(pushed) && pushed.queue == [Egress.Message(0, false)]
  {
    var one := [Egress.Enqueue(0)];
    assert one[..0] == [] && Egress.Run(cap, eg, one[..0]) == eg;
    assert Egress.Run(cap, eg, one) == Egress.Step(cap, eg, Egress.Enqueue(0));
    Egress.RunKeepsInv(cap, eg, one);
  }

  /** A single message is sent and popped again. */
  lemma SentOnce(cfg: Config, eg: Egress.State, env: Env, slot: Slot)
    requires AtLoopHead(eg) && |eg.queue| == 1 && env.surbOk
    ensures var (eg', made) := SendFromQueueOrDecoy(cfg, eg, env, PUSH, slot);
            Empty(eg') && |made| == 1
  {
    SlotIsFilled(cfg, eg, env, PUSH, slot);
    var peeked := Egress.WorkerStep(eg, env.surbOk, env.sendOk);
    assert Egress.Run(cfg.queueSize, peeked, PUSH.between) == peeked;
    var sent := Egress.WorkerStep(Egress.WorkerStep(peeked, env.surbOk, env.sendOk), env.surbOk, env.sendOk);
    assert sent.queue == eg.queue && sent.pc.Finished?;
    assert Egress.Run(cfg.queueSize, sent, PUSH.after) == sent;
  }

  /** A turn that gives the queue away: one attempt more if a message has just been pushed. */
  lemma PushStep(cfg: Config, st: State, t: Turn)
    requires Empty(st.egress) && cfg.queueSize >= 1 && !TurnHides(cfg, st.control, t)
    ensures var st' := Step(cfg, st, t, PUSH);
            && Empty(st'.egress) && st'.control == ControlStep(st.control, t)
            && |st'.attempts| == |st.attempts| + 1
  {
    PushedOnce(cfg.queueSize, st.egress);
    SentOnce(cfg, Egress.Run(cfg.queueSize, st.egress, PUSH.before), t.what.env, Slot(t.now, P));
  }

  lemma CountQuiet(cfg: Config, st: State, control: Control, t: Turn, attempts: nat)
    requires Counted(st, control, attempts)
    ensures Counted(Step(cfg, st, t, QUIET), ControlStep(control, t), attempts + QuietOne(cfg, control, t))
  {
    QuietStep(cfg, st, t);
  }

  lemma CountPush(cfg: Config, st: State, control: Control, t: Turn, attempts: nat)
    requires Counted(st, control, attempts) && cfg.queueSize >= 1 && !TurnHides(cfg, control, t)
    ensures Counted(Step(cfg, st, t, PUSH), ControlStep(control, t), attempts + 1)
    ensures QuietOne(cfg, control, t) == 0
  {
    PushStep(cfg, st, t);
  }

  lemma RunTo(cfg: Config, start: State, turns: seq<Turn>, callers: seq<Callers>, k: nat)
    requires |turns| == |callers| && 0 < k <= |turns|
    ensures Run(cfg, start, turns[..k], callers[..k]) ==
            Step(cfg, Run(cfg, start, turns[..k - 1], callers[..k - 1]), turns[k - 1], callers[k - 1])
  {
    assert turns[..k][..k - 1] == turns[..k - 1] && callers[..k][..k - 1] == callers[..k - 1];
  }

  lemma ControlTo(cfg: Config, start: Control, turns: seq<Turn>, k: nat)
    requires 0 < k <= |turns|
    ensures ControlRun(start, turns[..k]) == ControlStep(ControlRun(start, turns[..k - 1]), turns[k - 1])
    ensures QuietCount(cfg, start, turns[..k]) ==
            QuietCount(cfg, start, turns[..k - 1]) + QuietOne(cfg, ControlRun(start, turns[..k - 1]), turns[k - 1])
  {
    assert turns[..k][..k - 1] == turns[..k - 1];
  }

  /** The attempts of the first `k` turns, if nobody pushes except one message just before turn `n`. */
  function CountTo(cfg: Config, control: Control, turns: seq<Turn>, n: int, k: nat): nat
    requires k <= |turns|
  {
    QuietCount(cfg, control, turns[..k]) + if 0 <= n < k then 1 else 0
  }

  lemma CountStep(cfg: Config, control: Control, turns: seq<Turn>, n: int, k: nat, st: State)
    requires 0 < k <= |turns| && cfg.queueSize >= 1
    requires 0 <= n < |turns| ==> !TurnHides(cfg, ControlRun(control, turns[..n]), turns[n])
    requires Counted(st, ControlRun(control, turns[..k - 1]), CountTo(cfg, control, turns, n, k - 1))
    ensures Counted(Step(cfg, st, turns[k - 1], PushAt(n, |turns|)[k - 1]), ControlRun(control, turns[..k]),
                    CountTo(cfg, control, turns, n, k))
  {
    var c, d := ControlRun(control, turns[..k - 1]), CountTo(cfg, control, turns, n, k - 1);
    ControlTo(cfg, control, turns, k);
    if k - 1 == n { CountPush(cfg, st, c, turns[k - 1], d); } else { CountQuiet(cfg, st, c, turns[k - 1], d); }
  }

  lemma {:induction false} RunCounted(cfg: Config, control: Control, turns: seq<Turn>, n: int, k: nat)
    requires k <= |turns| && cfg.queueSize >= 1
    requires 0 <= n < |turns| ==> !TurnHides(cfg, ControlRun(control, turns[..n]), turns[n])
    ensures Counted(Run(cfg, State(control, Egress.Init, []), turns[..k], PushAt(n, |turns|)[..k]),
                    ControlRun(control, turns[..k]), CountTo(cfg, control, turns, n, k))
  {
    var start, callers := State(control, Egress.Init, []), PushAt(n, |turns|);
    if k == 0 {
      assert Empty(Egress.Init);
    } else {
      RunCounted(cfg, control, turns, n, k - 1);
      CountStep(cfg, control, turns, n, k, Run(cfg, start, turns[..k - 1], callers[..k - 1]));
      RunTo(cfg, start, turns, callers, k);
    }
  }

  /** With at most one push, the slots seen are as many as counted. */
  lemma SeenCount(cfg: Config, control: Control, turns: seq<Turn>, n: int)
    requires cfg.queueSize >= 1
    requires 0 <= n < |turns| ==> !TurnHides(cfg, ControlRun(control, turns[..n]), turns[n])
    ensures |Seen(cfg, control, turns, PushAt(n, |turns|))| == CountTo(cfg, control, turns, n, |turns|)
  {
    RunCounted(cfg, control, turns, n, |turns|);
    assert turns[..|turns|] == turns && PushAt(n, |turns|)[..|turns|] == PushAt(n, |turns|);
  }

  /** A turn that gives the queue away tells two runs apart. */
  lemma GivenAway(cfg: Config, control: Control, turns: seq<Turn>, n: nat) returns (c1: seq<Callers>, c2: seq<Callers>)
    requires n < |turns| && cfg.queueSize >= 1
    requires !TurnHides(cfg, ControlRun(control, turns[..n]), turns[n])
    ensures |c1| == |c2| == |turns| && AllCallers(c1) && AllCallers(c2)
    ensures Seen(cfg, control, turns, c1) != Seen(cfg, control, turns, c2)
  {
    c1, c2 := PushAt(-1, |turns|), PushAt(n, |turns|);
    SeenCount(cfg, control, turns, -1);
    SeenCount(cfg, control, turns, n);
  }

  /**
   * For given turns and draws, and a queue that can hold a message at all: the send slots are the
   * same for all callers if and only if every tick of the first timer received while connected
   * either finds no SURB ID to draw, or has decoys on and a lookup and an ID draw that succeed.
   */
  lemma IndependentIff(cfg: Config, control: Control, turns: seq<Turn>)
    requires cfg.queueSize >= 1
    ensures Independent(cfg, control, turns) <==> Covered(cfg, control, turns)
  {
    if Covered(cfg, control, turns) {
      forall c1: seq<Callers>, c2: seq<Callers>
        | |c1| == |turns| && |c2| == |turns| && AllCallers(c1) && AllCallers(c2)
        ensures Seen(cfg, control, turns, c1) == Seen(cfg, control, turns, c2)
      {
        CoverTrafficIndependence(cfg, control, Egress.Init, Egress.Init, turns, c1, c2);
      }
    } else {
      var n :| 0 <= n < |turns| && !TurnHides(cfg, ControlRun(control, turns[..n]), turns[n]);
      var c1, c2 := GivenAway(cfg, control, turns, n);
    }
  }

  // ----- traffic does not stop

  predicate InRange(doc: Doc) {
    doc.pMax < TWO63 / 1_000_000 && doc.lMax < TWO63 / 1_000_000 && doc.dMax < TWO63 / 1_000_000
  }

  /** Each timer has a tick to deliver or a deadline set; while connected, none further off than its maximum. */
  ghost predicate Ticking(c: Control, w: Which) {
    var t := Get(c, w);
    && (t.tick || t.deadline.Some?)
    && (c.connected && !t.tick ==> t.deadline.value <= c.now + 1_000_000 * MaxDelay(c.doc, w))
  }

  ghost predicate CoverInv(c: Control) {
    InRange(c.doc) && Ticking(c, P) && Ticking(c, L) && Ticking(c, D)
  }

  lemma ResetTicks(c: Control, draws: Draws, w: Which)
    requires InRange(c.doc)
    ensures Ticking(Reset(c, draws, w), w)
    ensures forall v :: v != w ==> Get(Reset(c, draws, w), v) == Get(c, v)
  {
  }

  lemma StepKeepsCover(c: Control, t: Turn)
    requires CoverInv(c) && (t.what.NewDocument? ==> InRange(t.what.doc))
    ensures CoverInv(ControlStep(c, t))
  {
    if Enabled(c, t) {
      var c1 := c.(now := t.now);
      match t.what
      case Expire(w) =>
      case Fire(w, _) => ResetTicks(Set(c1, w, Get(c1, w).(tick := false)), t.draws, w);
      case Connection(up) => ResetAllTicks(c1.(connected := up), t.draws);
      case NewDocument(doc) => ResetAllTicks(c1.(doc := doc), t.draws);
      case Nonsense =>
      case Halt =>
    }
  }

  lemma ResetAllTicks(c: Control, draws: Draws)
    requires InRange(c.doc)
    ensures CoverInv(ResetAll(c, draws))
  {
    ResetTicks(c, draws, P);
    ResetTicks(Reset(c, draws, P), draws, L);
    ResetTicks(Reset(Reset(c, draws, P), draws, L), draws, D);
  }

  /**
   * Over every run, no timer is ever left unset, stale ticks and document changes included; and
   * while connected each timer's next tick is at most its document's maximal delay away.
   */
  lemma {:induction false} CoverNeverStops(doc: Doc, now: int, draws: Draws, turns: seq<Turn>)
    requires InRange(doc) && forall i :: 0 <= i < |turns| && turns[i].what.NewDocument? ==> InRange(turns[i].what.doc)
    ensures CoverInv(ControlRun(Start(doc, now, draws), turns))
  {
    if turns == [] {
      var idle := Timer(None, false);
      ResetAllTicks(Control(true, doc, idle, idle, idle, now, false), draws);
    } else {
      var n := |turns| - 1;
      assert forall i :: 0 <= i < n ==> turns[..n][i] == turns[i];
      CoverNeverStops(doc, now, draws, turns[..n]);
      StepKeepsCover(ControlRun(Start(doc, now, draws), turns[..n]), turns[n]);
    }
  }

  // ----- when the timers are set to

  function Lesser(a: nat, b: nat): nat {
    if a <= b then a else b
  }

  /** `t` is a deadline drawn now: while disconnected as late as a Go duration allows. */
  predicate SetTo(t: Timer, now: int, connected: bool, draw: nat, max: nat) {
    t.deadline == Some(if connected then now + 1_000_000 * Lesser(draw, max) else now + 0x7FFF_FFFF_FFFF_FFFF)
  }

  lemma IntervalIs(c: Control, draws: Draws)
    requires InRange(c.doc)
    ensures var r := ResetAll(c, draws);
            && SetTo(r.p, c.now, c.connected, draws.p, c.doc.pMax) && r.p.tick == c.p.tick
            && SetTo(r.l, c.now, c.connected, draws.l, c.doc.lMax) && r.l.tick == c.l.tick
            && SetTo(r.d, c.now, c.connected, draws.d, c.doc.dMax) && r.d.tick == c.d.tick
            && r == c.(p := r.p, l := r.l, d := r.d)
    ensures var r := Reset(c, draws, P);
            SetTo(r.p, c.now, c.connected, draws.p, c.doc.pMax) && r.p.tick == c.p.tick && r == c.(p := r.p)
    ensures var r := Reset(c, draws, L);
            SetTo(r.l, c.now, c.connected, draws.l, c.doc.lMax) && r.l.tick == c.l.tick && r == c.(l := r.l)
    ensures var r := Reset(c, draws, D);
            SetTo(r.d, c.now, c.connected, draws.d, c.doc.dMax) && r.d.tick == c.d.tick && r == c.(d := r.d)
  {
  }

  /**
   * A tick received consumes that tick and re-arms that timer, with its own draw cut at its own
   * maximum; the other timers, the connection and the document stay as they are.
   */
  lemma TickRearms(c: Control, t: Turn)
    requires Enabled(c, t) && t.what.Fire? && InRange(c.doc)
    ensures var r := ControlStep(c, t);
            && (t.what.w == P ==> SetTo(r.p, t.now, c.connected, t.draws.p, c.doc.pMax) && !r.p.tick && r == c.(p := r.p, now := t.now))
            && (t.what.w == L ==> SetTo(r.l, t.now, c.connected, t.draws.l, c.doc.lMax) && !r.l.tick && r == c.(l := r.l, now := t.now))
            && (t.what.w == D ==> SetTo(r.d, t.now, c.connected, t.draws.d, c.doc.dMax) && !r.d.tick && r == c.(d := r.d, now := t.now))
  {
    IntervalIs(Set(c.(now := t.now), t.what.w, Get(c, t.what.w).(tick := false)), t.draws);
  }

  /** All three timers are set anew, for this connection status and document; undelivered ticks stay. */
  predicate AllSet(r: Control, c: Control, t: Turn, connected: bool, doc: Doc) {
    && r.connected == connected && r.doc == doc && r.now == t.now && !r.halted
    && SetTo(r.p, t.now, connected, t.draws.p, doc.pMax) && r.p.tick == c.p.tick
    && SetTo(r.l, t.now, connected, t.draws.l, doc.lMax) && r.l.tick == c.l.tick
    && SetTo(r.d, t.now, connected, t.draws.d, doc.dMax) && r.d.tick == c.d.tick
  }

  /** A connection or document event sets all three timers anew. */
  lemma EventsRearmAll(c: Control, t: Turn)
    requires Enabled(c, t) && InRange(c.doc) && (t.what.NewDocument? ==> InRange(t.what.doc))
    ensures t.what.Connection? ==> AllSet(ControlStep(c, t), c, t, t.what.up, c.doc)
    ensures t.what.NewDocument? ==> AllSet(ControlStep(c, t), c, t, c.connected, t.what.doc)
  {
    if t.what.Connection? { IntervalIs(c.(connected := t.what.up, now := t.now), t.draws); }
    if t.what.NewDocument? { IntervalIs(c.(doc := t.what.doc, now := t.now), t.draws); }
  }

  /** The worker starts disconnected, with all timers set as if it were connected. */
  lemma StartSetsAll(doc: Doc, now: int, draws: Draws)
    requires InRange(doc)
    ensures var r := Start(doc, now, draws);
            && !r.connected && !r.halted && r.doc == doc && r.now == now && !r.p.tick && !r.l.tick && !r.d.tick
            && SetTo(r.p, now, true, draws.p, doc.pMax)
            && SetTo(r.l, now, true, draws.l, doc.lMax)
            && SetTo(r.d, now, true, draws.d, doc.dMax)
  {
    var idle := Timer(None, false);
    IntervalIs(Control(true, doc, idle, idle, idle, now, false), draws);
  }

  /** The rest: a deadline turns into a tick, and nothing else sets or consumes anything. */
  lemma OtherTurns(c: Control, t: Turn)
    ensures !Enabled(c, t) ==> ControlStep(c, t) == c
    ensures Enabled(c, t) && t.what == Expire(P) ==> ControlStep(c, t) == c.(p := Timer(None, true), now := t.now)
    ensures Enabled(c, t) && t.what == Expire(L) ==> ControlStep(c, t) == c.(l := Timer(None, true), now := t.now)
    ensures Enabled(c, t) && t.what == Expire(D) ==> ControlStep(c, t) == c.(d := Timer(None, true), now := t.now)
    ensures Enabled(c, t) && t.what == Nonsense ==> ControlStep(c, t) == c.(now := t.now)
    ensures Enabled(c, t) && t.what == Halt ==> ControlStep(c, t) == c.(now := t.now, halted := true)
  {
  }

  // ----- what fills a slot

  lemma FromQueueOrDecoy(cfg: Config, eg: Egress.State, env: Env, cs: Callers, slot: Slot)
    requires AtLoopHead(eg)
    ensures var (_, made) := SendFromQueueOrDecoy(cfg, eg, env, cs, slot);
            made == if eg.queue != [] then (if env.surbOk then [Attempt(slot, User(eg.queue[0]))] else [])
                    else if !cfg.decoysDisabled && env.serviceOk && env.idOk && env.surbOk then [Attempt(slot, DropDecoy)]
                    else []
  {
  }

  /**
   * One turn makes at most one call into the network layer: for a tick of the first timer received
   * while connected the message queued longest, or a drop decoy if there is none; for one of the
   * second a loop decoy, for one of the third a drop decoy; and none otherwise.
   */
  lemma TurnTraffic(cfg: Config, st: State, t: Turn, cs: Callers)
    requires AtLoopHead(st.egress) && OnlyCallers(cs)
    ensures var made := Step(cfg, st, t, cs).attempts;
            var queue := Egress.Run(cfg.queueSize, st.egress, cs.before).queue;
            if !(Enabled(st.control, t) && t.what.Fire? && st.control.connected) then made == st.attempts
            else
              var slot, env := Slot(t.now, t.what.w), t.what.env;
              var decoyGoes := !cfg.decoysDisabled && env.serviceOk && env.idOk && env.surbOk;
              && (t.what.w == P && queue != [] ==>
                    made == st.attempts + if env.surbOk then [Attempt(slot, User(queue[0]))] else [])
              && (t.what.w == P && queue == [] ==> made == st.attempts + if decoyGoes then [Attempt(slot, DropDecoy)] else [])
              && (t.what.w == L ==> made == st.attempts + if decoyGoes then [Attempt(slot, LoopDecoy)] else [])
              && (t.what.w == D ==> made == st.attempts + if decoyGoes then [Attempt(slot, DropDecoy)] else [])
  {
    Egress.RunKeepsInv(cfg.queueSize, st.egress, cs.before);
    CallersKeepPc(cfg.queueSize, st.egress, cs.before);
    if SlotsOf(st.control, t) != [] && t.what.w == P {
      FromQueueOrDecoy(cfg, Egress.Run(cfg.queueSize, st.egress, cs.before), t.what.env, cs, Slot(t.now, P));
    }
  }

  // ----- the loop as written, over the ring buffer

  method CallersOnRing(q: EgressQueue.Queue<Egress.Message>, eg: Egress.State, evs: seq<Egress.Event>)
    returns (next: Egress.State)
    requires q.Valid() && q.Contents() == eg.queue
    modifies q, q.content
    ensures q.Valid() && q.Contents() == next.queue
    ensures next == Egress.Run(q.content.Length, eg, evs)
  {
    next := eg;
    for n := 0 to |evs|
      invariant q.Valid() && q.Contents() == next.queue
      invariant next == Egress.Run(q.content.Length, eg, evs[..n])
    {
      assert evs[..n + 1][..n] == evs[..n];
      next := Egress.StepOnRing(q, next, evs[n]);
    }
    assert evs[..|evs|] == evs;
  }

  /** sendFromQueueOrDecoy and sendNext on the ring: peek, peek again, send, pop. */
  method SendOnRing(q: EgressQueue.Queue<Egress.Message>, cfg: Config, eg: Egress.State, env: Env, cs: Callers, slot: Slot)
    returns (next: Egress.State, made: seq<Attempt>)
    requires q.Valid() && q.Contents() == eg.queue && q.content.Length == cfg.queueSize
    modifies q, q.content
    ensures q.Valid() && q.Contents() == next.queue
    ensures (next, made) == SendFromQueueOrDecoy(cfg, eg, env, cs, slot)
  {
    var work := Egress.Worker(env.surbOk, env.sendOk);
    next := Egress.StepOnRing(q, eg, work);
    if next.pc == Egress.Idle {
      made := Decoy(cfg, env, slot, DropDecoy);
    } else {
      made := if env.surbOk && next.queue != [] then [Attempt(slot, User(next.queue[0]))] else [];
      next := CallersOnRing(q, next, cs.between);
      next := Egress.StepOnRing(q, next, work);
      next := Egress.StepOnRing(q, next, work);
      next := CallersOnRing(q, next, cs.after);
      next := Egress.StepOnRing(q, next, work);
    }
  }

  method DrawInterval(isConnected: bool, draw: nat, max: nat) returns (interval: int)
    ensures interval == Interval(isConnected, draw, max)
    ensures isConnected && max < TWO63 / 1_000_000 ==> 0 <= interval <= 1_000_000 * max
  {
    if !isConnected { return MAX_DURATION; }
    var msec := draw;
    if msec > max { msec := max; }
    interval := Milliseconds(msec);
  }

  /** The variables of one turn: state after the select, and which timers have to be reset. */
  datatype Locals = Locals(connected: bool, doc: Doc, p: Timer, l: Timer, d: Timer, all: bool, pFired: bool, lFired: bool, dFired: bool)

  function Rearmed(timer: Timer, must: bool, now: int, interval: int): Timer {
    if must then timer.(deadline := Some(now + interval)) else timer
  }

  function IntervalOf(v: Locals, draws: Draws, w: Which): int {
    Interval(v.connected, Draw(draws, w), MaxDelay(v.doc, w))
  }

  /** The end of the turn, from these variables. */
  function Resets(v: Locals, draws: Draws, now: int): Control {
    Control(v.connected, v.doc,
            Rearmed(v.p, v.all || v.pFired, now, IntervalOf(v, draws, P)),
            Rearmed(v.l, v.all || v.lFired, now, IntervalOf(v, draws, L)),
            Rearmed(v.d, v.all || v.dFired, now, IntervalOf(v, draws, D)), now, false)
  }

  method ResetTimers(v: Locals, draws: Draws, now: int) returns (next: Control)
    ensures next == Resets(v, draws, now)
  {
    var pInterval := DrawInterval(v.connected, draws.p, v.doc.pMax);
    var lInterval := DrawInterval(v.connected, draws.l, v.doc.lMax);
    var dInterval := DrawInterval(v.connected, draws.d, v.doc.dMax);
    var pTimer, lTimer, dTimer := v.p, v.l, v.d;
    if v.all || v.pFired { pTimer := pTimer.(deadline := Some(now + pInterval)); }
    if v.all || v.lFired { lTimer := lTimer.(deadline := Some(now + lInterval)); }
    if v.all || v.dFired { dTimer := dTimer.(deadline := Some(now + dInterval)); }
    next := Control(v.connected, v.doc, pTimer, lTimer, dTimer, now, false);
  }

  /** One turn of the loop after its select: note what happened, draw three intervals, reset what must be reset. */
  method Turnover(c: Control, t: Turn) returns (next: Control)
    requires Enabled(c, t) && !t.what.Expire? && !t.what.Halt?
    ensures next == ControlStep(c, t)
  {
    var v := Locals(c.connected, c.doc, c.p, c.l, c.d, false, false, false, false);
    match t.what {
      case Fire(P, _) => v := v.(pFired := true, p := v.p.(tick := false));
      case Fire(L, _) => v := v.(lFired := true, l := v.l.(tick := false));
      case Fire(D, _) => v := v.(dFired := true, d := v.d.(tick := false));
      case Connection(up) => v := v.(connected := up, all := true);
      case NewDocument(d) => v := v.(doc := d, all := true);
      case Nonsense =>
    }
    next := ResetTimers(v, t.draws, t.now);
  }

  /** The session worker's loop over the real ring buffer takes exactly the steps of the model. */
  method Worker(cfg: Config, doc: Doc, now: int, draws: Draws, turns: seq<Turn>, callers: seq<Callers>) returns (st: State)
    requires |turns| == |callers|
    ensures st == Run(cfg, State(Start(doc, now, draws), Egress.Init, []), turns, callers)
  {
    var q := new EgressQueue.Queue<Egress.Message>(cfg.queueSize, Egress.Message(0, false));
    var control, eg, attempts := Start(doc, now, draws), Egress.Init, [];
    ghost var start := State(control, eg, []);
    for n := 0 to |turns|
      invariant q.Valid() && fresh(q) && fresh(q.content) && q.content.Length == cfg.queueSize
      invariant q.Contents() == eg.queue
      invariant State(control, eg, attempts) == Run(cfg, start, turns[..n], callers[..n])
    {
      assert turns[..n + 1][..n] == turns[..n] && callers[..n + 1][..n] == callers[..n];
      var t, cs := turns[n], callers[n];
      eg := CallersOnRing(q, eg, cs.before);
      if Enabled(control, t) {
        if t.what.Fire? && control.connected {
          var slot, env := Slot(t.now, t.what.w), t.what.env;
          match t.what.w {
            case P =>
              var made;
              eg, made := SendOnRing(q, cfg, eg, env, cs, slot);
              attempts := attempts + made;
            case L => attempts := attempts + Decoy(cfg, env, slot, LoopDecoy);
            case D => attempts := attempts + Decoy(cfg, env, slot, DropDecoy);
          }
        }
        match t.what {
          case Expire(w) => control := Set(control.(now := t.now), w, Timer(None, true));
          case Halt => control := control.(now := t.now, halted := true);
          case _ => control := Turnover(control, t);
        }
      }
    }
    assert turns[..|turns|] == turns && callers[..|callers|] == callers;
    st := State(control, eg, attempts);
  }
}
