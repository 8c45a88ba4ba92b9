/**
 * The delayed queue (timer_queue.go): items wait in a priority queue until their deadline and are
 * then forwarded.  The worker peeks under the lock, and pops in a separate locked section later;
 * pushes may land in between.  Among equal priorities the library may pop any.
 */
module TimerQueue {
  import opened Basics

  datatype Item = Item(id: nat, priority: nat)

  /** The worker's test, on Go's 64-bit integers; the clock is read twice. */
  predicate HandleNow(priority: nat, now1: nat, now2: nat) {
    Int64(Int64(priority) - now1) < 0 || priority < now2
  }

  /**
   * The test lets an item through although its deadline is still ahead if and only if the deadline
   * is at least 2^63 ns ahead, where the signed difference wraps.
   */
  lemma EarlyIff(priority: nat, now1: nat, now2: nat)
    requires priority < TWO64 && now1 <= now2 < TWO63
    ensures (HandleNow(priority, now1, now2) && now2 < priority) <==> (now2 < priority && priority - now1 >= TWO63)
  {
    if priority < TWO63 {
      assert Int64(priority) == priority;
    } else {
      assert Int64(priority) == priority - TWO64;
      if priority - now1 < TWO63 {
        assert Int64(priority - TWO64 - now1) == priority - now1;
      } else {
        assert Int64(priority - TWO64 - now1) == priority - TWO64 - now1;
      }
    }
  }

  // ----- the worker and its callers

  datatype Pc = Looking | Waiting(until: Option<int>) | Forwarding

  datatype Sent = Sent(item: Item, at: nat)

  datatype State = State(queue: seq<Item>, pc: Pc, now: nat, pushed: multiset<Item>, sent: seq<Sent>)

  const Init := State([], Looking, 0, multiset{}, [])

  /** Pop names which of the least-priority items the library hands out. */
  datatype Event = Push(item: Item) | Clock(to: nat) | Look(reread: nat) | Fire | Wake | Pop(i: nat)

  predicate IsLeast(q: seq<Item>, i: nat) {
    i < |q| && forall j :: 0 <= j < |q| ==> q[i].priority <= q[j].priority
  }

  function Least(q: seq<Item>): (i: nat)
    requires q != []
    ensures IsLeast(q, i)
  {
    if |q| == 1 then 0
    else
      var i := Least(q[..|q| - 1]);
      assert forall j :: 0 <= j < |q| - 1 ==> q[..|q| - 1][j] == q[j];
      if q[|q| - 1].priority < q[i].priority then |q| - 1 else i
  }

  function Advance(now: nat, to: nat): nat {
    if now <= to < TWO63 then to else now
  }

  /** A step that is not enabled changes nothing; clocks do not run backwards and stay below 2^63. */
  function Step(st: State, ev: Event): State {
    match ev
    case Push(item) => st.(queue := st.queue + [item], pushed := st.pushed + multiset{item})
    case Clock(to) => st.(now := Advance(st.now, to))
    case Look(reread) =>
      if st.pc != Looking || !(st.now <= reread < TWO63) then st.(now := Advance(st.now, reread))
      else if st.queue == [] then st.(pc := Waiting(None), now := reread)
      else
        var p := st.queue[Least(st.queue)].priority;
        if HandleNow(p, st.now, reread) then st.(pc := Forwarding, now := reread)
        else st.(pc := Waiting(Some(reread + Int64(Int64(p) - st.now))), now := reread)
    case Fire =>
      if st.pc.Waiting? && st.pc.until.Some? && st.pc.until.value <= st.now then st.(pc := Forwarding) else st
    case Wake => if st.pc.Waiting? then st.(pc := Looking) else st
    case Pop(i) =>
      if st.pc != Forwarding then st
      else if st.queue == [] then st.(pc := Looking)
      else if IsLeast(st.queue, i) then
        st.(pc := Looking, queue := st.queue[..i] + st.queue[i + 1..], sent := st.sent + [Sent(st.queue[i], st.now)])
      else st
  }

  function Run(evs: seq<Event>): State {
    if evs == [] then Init else Step(Run(evs[..|evs| - 1]), evs[|evs| - 1])
  }

  /** The time after some events. */
  function Now(evs: seq<Event>): nat {
    if evs == [] then 0 else After(Now(evs[..|evs| - 1]), evs[|evs| - 1])
  }

  function After(now: nat, ev: Event): nat {
    match ev
    case Clock(to) => Advance(now, to)
    case Look(reread) => Advance(now, reread)
    case _ => now
  }

  /** A 64-bit deadline less than 2^63 ns ahead of the clock. */
  predicate Near(priority: nat, now: nat) {
    priority < TWO64 && priority - now < TWO63
  }

  /** The latest of the clock and all queued deadlines. */
  function Latest(q: seq<Item>, now: nat): (t: nat)
    ensures now <= t && forall i :: 0 <= i < |q| ==> q[i].priority <= t
    ensures t == now || exists i :: 0 <= i < |q| && q[i].priority == t
  {
    if q == [] then now
    else
      var n := |q| - 1;
      var t := Latest(q[..n], now);
      assert forall i :: 0 <= i < n ==> q[..n][i] == q[i];
      if q[n].priority > t then q[n].priority else t
  }

  /** Every deadline was less than 2^63 ns ahead of the clock, or of the latest deadline queued then. */
  ghost predicate Safe(evs: seq<Event>) {
    forall i :: 0 <= i < |evs| && evs[i].Push? ==> SafePush(Run(evs[..i]), evs[i].item)
  }

  predicate SafePush(st: State, item: Item) {
    Near(item.priority, Latest(st.queue, st.now))
  }

  /** What a caller can check without looking at the queue: every deadline was near when it was pushed. */
  ghost predicate Sane(evs: seq<Event>) {
    forall i :: 0 <= i < |evs| && evs[i].Push? ==> Near(evs[i].item.priority, Now(evs[..i]))
  }

  function Items(sent: seq<Sent>): multiset<Item> {
    if sent == [] then multiset{} else Items(sent[..|sent| - 1]) + multiset{sent[|sent| - 1].item}
  }

  /** Some queued item is due by time `t`. */
  ghost predicate DueBy(q: seq<Item>, t: int) {
    exists i :: 0 <= i < |q| && q[i].priority <= t
  }

  /** Pushed items are exactly those queued and those forwarded. */
  ghost predicate Conserved(st: State) {
    st.pushed == multiset(st.queue) + Items(st.sent)
  }

  /** The deadline is near, or will be once some earlier one has passed. */
  ghost predicate Guard(q: seq<Item>, now: nat, p: nat) {
    p < TWO64 && (p - now < TWO63 || exists j :: 0 <= j < |q| && q[j].priority < p && p - q[j].priority < TWO63)
  }

  ghost predicate Guarded(q: seq<Item>, now: nat) {
    forall i :: 0 <= i < |q| ==> Guard(q, now, q[i].priority)
  }

  ghost predicate Timely(st: State) {
    && st.now < TWO63
    && Guarded(st.queue, st.now)
    && (forall i :: 0 <= i < |st.sent| ==> st.sent[i].item.priority <= st.sent[i].at)
    && (st.pc == Forwarding ==> DueBy(st.queue, st.now))
    && (st.pc.Waiting? && st.pc.until.Some? ==> DueBy(st.queue, st.pc.until.value))
  }

  lemma TakeOut(q: seq<Item>, i: nat)
    requires i < |q|
    ensures multiset(q) == multiset(q[..i] + q[i + 1..]) + multiset{q[i]}
  {
    assert q == q[..i] + [q[i]] + q[i + 1..];
  }

  lemma ItemsSnoc(sent: seq<Sent>, s: Sent)
    ensures Items(sent + [s]) == Items(sent) + multiset{s.item}
  {
    assert (sent + [s])[..|sent|] == sent;
  }

  lemma PopConserves(st: State, i: nat)
    requires Conserved(st) && i < |st.queue|
    ensures multiset(st.queue[..i] + st.queue[i + 1..]) + Items(st.sent + [Sent(st.queue[i], st.now)]) == st.pushed
  {
    TakeOut(st.queue, i);
    ItemsSnoc(st.sent, Sent(st.queue[i], st.now));
  }

  lemma PushConserves(st: State, item: Item)
    requires Conserved(st)
    ensures multiset(st.queue + [item]) + Items(st.sent) == st.pushed + multiset{item}
  {
  }

  /** Steps other than pushes and pops touch no item. */
  lemma KeepsItems(st: State, ev: Event)
    requires !ev.Push? && !ev.Pop?
    ensures var st' := Step(st, ev);
            st'.queue == st.queue && st'.sent == st.sent && st'.pushed == st.pushed
  {
  }

  lemma SameItems(st: State, st': State)
    requires Conserved(st) && st'.queue == st.queue && st'.sent == st.sent && st'.pushed == st.pushed
    ensures Conserved(st')
  {
  }

  lemma StepConserves(st: State, ev: Event)
    requires Conserved(st)
    ensures Conserved(Step(st, ev))
  {
    match ev
    case Push(item) => PushConserves(st, item);
    case Pop(i) => if i < |st.queue| { PopConserves(st, i); }
    case _ =>
      KeepsItems(st, ev);
      SameItems(st, Step(st, ev));
  }

  lemma DueLater(q: seq<Item>, t: int, u: int)
    requires DueBy(q, t) && t <= u
    ensures DueBy(q, u)
  {
    var i :| 0 <= i < |q| && q[i].priority <= t;
    assert q[i].priority <= u;
  }

  lemma PushKeepsDue(q: seq<Item>, item: Item, t: int)
    requires DueBy(q, t)
    ensures DueBy(q + [item], t)
  {
    var i :| 0 <= i < |q| && q[i].priority <= t;
    assert (q + [item])[i] == q[i];
  }

  /** The item popped is due although it need not be the one peeked. */
  lemma LeastIsDue(q: seq<Item>, i: nat, t: int)
    requires DueBy(q, t) && IsLeast(q, i)
    ensures q[i].priority <= t
  {
    var j :| 0 <= j < |q| && q[j].priority <= t;
  }

  /** For a near deadline the worker's 64-bit difference is the true one. */
  lemma TimeLeft(p: nat, now: nat)
    requires Near(p, now) && now < TWO63
    ensures Int64(Int64(p) - now) == p - now
  {
  }

  lemma LeastIsNear(q: seq<Item>, now: nat, i: nat)
    requires Guarded(q, now) && IsLeast(q, i)
    ensures Near(q[i].priority, now)
  {
    assert Guard(q, now, q[i].priority);
  }

  lemma GuardLater(q: seq<Item>, now: nat, later: nat)
    requires Guarded(q, now) && now <= later
    ensures Guarded(q, later)
  {
    forall i | 0 <= i < |q| ensures Guard(q, later, q[i].priority) { assert Guard(q, now, q[i].priority); }
  }

  /** A deadline not after a queued one is guarded as well. */
  lemma {:induction false} GuardBelow(q: seq<Item>, now: nat, k: nat, p: nat)
    requires Guarded(q, now) && k < |q| && p <= q[k].priority
    ensures Guard(q, now, p)
    decreases q[k].priority
  {
    assert Guard(q, now, q[k].priority);
    if q[k].priority - now >= TWO63 {
      var j :| 0 <= j < |q| && q[j].priority < q[k].priority && q[k].priority - q[j].priority < TWO63;
      if p <= q[j].priority { GuardBelow(q, now, j, p); }
    }
  }

  lemma SafeIsGuarded(q: seq<Item>, now: nat, p: nat)
    requires Guarded(q, now) && Near(p, Latest(q, now))
    ensures Guard(q, now, p)
  {
    var t := Latest(q, now);
    if t != now {
      var k :| 0 <= k < |q| && q[k].priority == t;
      if p <= t { GuardBelow(q, now, k, p); }
    }
  }

  lemma GuardStays(q: seq<Item>, item: Item, now: nat, p: nat)
    requires Guard(q, now, p)
    ensures Guard(q + [item], now, p)
  {
    if p - now >= TWO63 {
      var j :| 0 <= j < |q| && q[j].priority < p && p - q[j].priority < TWO63;
      assert (q + [item])[j] == q[j];
    }
  }

  lemma PushGuards(q: seq<Item>, now: nat, item: Item)
    requires Guarded(q, now) && Near(item.priority, Latest(q, now))
    ensures Guarded(q + [item], now)
  {
    SafeIsGuarded(q, now, item.priority);
    forall i | 0 <= i < |q + [item]| ensures Guard(q + [item], now, (q + [item])[i].priority) {
      var p := (q + [item])[i].priority;
      assert p == if i < |q| then q[i].priority else item.priority;
      GuardStays(q, item, now, p);
    }
  }

  function Without(q: seq<Item>, i: nat): seq<Item>
    requires i < |q|
  {
    q[..i] + q[i + 1..]
  }

  /** A deadline guarded by the item popped has become near. */
  lemma GuardPopped(q: seq<Item>, now: nat, i: nat, p: nat)
    requires Guard(q, now, p) && i < |q| && q[i].priority <= now
    ensures Guard(Without(q, i), now, p)
  {
    if p - now >= TWO63 {
      var j :| 0 <= j < |q| && q[j].priority < p && p - q[j].priority < TWO63;
      assert j != i && Without(q, i)[if j < i then j else j - 1] == q[j];
    }
  }

  lemma PopGuards(q: seq<Item>, now: nat, i: nat)
    requires Guarded(q, now) && i < |q| && q[i].priority <= now
    ensures Guarded(Without(q, i), now)
  {
    forall k | 0 <= k < |q| - 1 ensures Guard(Without(q, i), now, Without(q, i)[k].priority) {
      var p := q[if k < i then k else k + 1].priority;
      assert Without(q, i)[k].priority == p;
      GuardPopped(q, now, i, p);
    }
  }

  lemma LookIsTimely(st: State, reread: nat)
    requires Timely(st) && st.pc == Looking && st.now <= reread < TWO63 && st.queue != []
    ensures Timely(Step(st, Look(reread)))
  {
    var i := Least(st.queue);
    var p := st.queue[i].priority;
    LeastIsNear(st.queue, st.now, i);
    TimeLeft(p, st.now);
    GuardLater(st.queue, st.now, reread);
    if HandleNow(p, st.now, reread) {
      assert p <= reread;
    } else {
      assert p <= reread + (p - st.now);
    }
  }

  /**
   * What a look leads to: an overdue item is forwarded; otherwise the timer rings as much later as
   * the least deadline was ahead of the first clock reading, so no later than that deadline plus
   * the time between the two readings, and not before the deadline.
   */
  lemma LookSays(st: State, reread: nat)
    requires Timely(st) && st.pc == Looking && st.now <= reread < TWO63 && st.queue != []
    ensures var p, st' := st.queue[Least(st.queue)].priority, Step(st, Look(reread));
            && st'.queue == st.queue && st'.sent == st.sent && st'.now == reread
            && (p < st.now || p < reread ==> st'.pc == Forwarding)
            && (p >= st.now && p >= reread ==> st'.pc == Waiting(Some(p + (reread - st.now))))
  {
    LeastIsNear(st.queue, st.now, Least(st.queue));
    TimeLeft(st.queue[Least(st.queue)].priority, st.now);
  }

  /** The other steps of the worker: it forwards what it pops, wakes when its timer rings, and waits for a wake-up if idle. */
  lemma WorkerSteps(st: State, i: nat, reread: nat)
    ensures st.pc == Forwarding && IsLeast(st.queue, i) ==>
              var st' := Step(st, Pop(i));
              && st'.pc == Looking && st'.queue == st.queue[..i] + st.queue[i + 1..]
              && st'.sent == st.sent + [Sent(st.queue[i], st.now)]
    ensures st.pc == Looking && st.queue == [] && st.now <= reread < TWO63 ==> Step(st, Look(reread)).pc == Waiting(None)
    ensures st.pc.Waiting? && st.pc.until.Some? && st.pc.until.value <= st.now ==> Step(st, Fire).pc == Forwarding
    ensures st.pc.Waiting? ==> Step(st, Wake).pc == Looking
  {
  }

  lemma PassingIsTimely(st: State, to: nat)
    requires Timely(st)
    ensures Timely(st.(now := Advance(st.now, to)))
  {
    GuardLater(st.queue, st.now, Advance(st.now, to));
    if st.pc == Forwarding { DueLater(st.queue, st.now, Advance(st.now, to)); }
  }

  lemma PushIsTimely(st: State, item: Item)
    requires Timely(st) && SafePush(st, item)
    ensures Timely(Step(st, Push(item)))
  {
    PushGuards(st.queue, st.now, item);
    if st.pc == Forwarding { PushKeepsDue(st.queue, item, st.now); }
    if st.pc.Waiting? && st.pc.until.Some? { PushKeepsDue(st.queue, item, st.pc.until.value); }
  }

  lemma PopIsTimely(st: State, i: nat)
    requires Timely(st) && st.pc == Forwarding && IsLeast(st.queue, i)
    ensures Timely(Step(st, Pop(i)))
  {
    LeastIsDue(st.queue, i, st.now);
    PopGuards(st.queue, st.now, i);
  }

  lemma StepIsTimely(st: State, ev: Event)
    requires Timely(st) && (ev.Push? ==> SafePush(st, ev.item))
    ensures Timely(Step(st, ev))
  {
    if Step(st, ev) != st {
      match ev
      case Push(item) => PushIsTimely(st, item);
      case Clock(to) => PassingIsTimely(st, to);
      case Look(reread) =>
        if st.pc != Looking || st.queue == [] { PassingIsTimely(st, reread); } else { LookIsTimely(st, reread); }
      case Fire => DueLater(st.queue, st.pc.until.value, st.now);
      case Wake =>
      case Pop(i) => if st.queue != [] { PopIsTimely(st, i); }
    }
  }

  lemma NowSnoc(evs: seq<Event>, ev: Event)
    ensures Now(evs + [ev]) == After(Now(evs), ev)
  {
    assert (evs + [ev])[..|evs|] == evs;
  }

  lemma RunSnoc(evs: seq<Event>, ev: Event)
    ensures Run(evs + [ev]) == Step(Run(evs), ev)
  {
    assert (evs + [ev])[..|evs|] == evs;
  }

  lemma SafePrefix(evs: seq<Event>, n: nat)
    requires Safe(evs) && n <= |evs|
    ensures Safe(evs[..n])
  {
    forall i | 0 <= i < n && evs[i].Push? ensures SafePush(Run(evs[..n][..i]), evs[i].item) {
      assert evs[..n][..i] == evs[..i];
    }
  }

  lemma SafeSnoc(evs: seq<Event>, ev: Event)
    requires Safe(evs) && (ev.Push? ==> SafePush(Run(evs), ev.item))
    ensures Safe(evs + [ev])
  {
    var all := evs + [ev];
    forall i | 0 <= i < |all| && all[i].Push? ensures SafePush(Run(all[..i]), all[i].item) {
      assert all[..i] == evs[..i];
      if i == |evs| { assert evs[..i] == evs; }
    }
  }

  lemma {:induction false} RunNow(evs: seq<Event>)
    ensures Run(evs).now == Now(evs)
  {
    if evs != [] { RunNow(evs[..|evs| - 1]); }
  }

  /** A deadline near the clock is safe whatever the queue holds. */
  lemma SaneIsSafe(evs: seq<Event>)
    requires Sane(evs)
    ensures Safe(evs)
  {
    forall i | 0 <= i < |evs| && evs[i].Push? ensures SafePush(Run(evs[..i]), evs[i].item) { RunNow(evs[..i]); }
  }

  lemma SaneSnoc(evs: seq<Event>, ev: Event)
    requires Sane(evs) && (ev.Push? ==> Near(ev.item.priority, Now(evs)))
    ensures Sane(evs + [ev])
  {
    var all := evs + [ev];
    forall i | 0 <= i < |all| && all[i].Push? ensures Near(all[i].item.priority, Now(all[..i])) {
      assert all[..i] == evs[..i];
      if i == |evs| { assert evs[..i] == evs; }
    }
  }

  lemma {:induction false} RunConserves(evs: seq<Event>)
    ensures Conserved(Run(evs))
  {
    if evs != [] {
      RunConserves(evs[..|evs| - 1]);
      StepConserves(Run(evs[..|evs| - 1]), evs[|evs| - 1]);
    }
  }

  lemma {:induction false} RunIsTimely(evs: seq<Event>)
    requires Safe(evs)
    ensures Timely(Run(evs))
  {
    if evs != [] {
      var n := |evs| - 1;
      SafePrefix(evs, n);
      RunIsTimely(evs[..n]);
      StepIsTimely(Run(evs[..n]), evs[n]);
    }
  }

  /**
   * With pushes anywhere between the worker's peek and pop: pushed items are exactly those queued
   * and those forwarded, and, if all pushes were safe, none is forwarded before its deadline.
   */
  lemma NeverEarly(evs: seq<Event>)
    ensures Run(evs).pushed == multiset(Run(evs).queue) + Items(Run(evs).sent)
    ensures Safe(evs) ==>
              forall i :: 0 <= i < |Run(evs).sent| ==> Run(evs).sent[i].item.priority <= Run(evs).sent[i].at
  {
    RunConserves(evs);
    if Safe(evs) { RunIsTimely(evs); }
  }

  // ----- an unsafe push can be forwarded early

  ghost predicate ForwardedEarly(st: State) {
    exists i :: 0 <= i < |st.sent| && st.sent[i].at < st.sent[i].item.priority
  }

  predicate NoPush(evs: seq<Event>) {
    forall i :: 0 <= i < |evs| ==> !evs[i].Push?
  }

  /** Something is forwarded early after `evs`, though nothing more is pushed. */
  ghost predicate CanBeEarly(evs: seq<Event>) {
    exists more :: LeadsToEarly(evs, more)
  }

  /** All other items are due, and the one at `f` is 2^63 ns or more ahead. */
  ghost predicate Ripe(q: seq<Item>, now: nat, f: nat) {
    && f < |q| && now < TWO63
    && q[f].priority < TWO64 && q[f].priority - now >= TWO63
    && forall j :: 0 <= j < |q| && j != f ==> q[j].priority <= now
  }

  /** `more` takes the run on to something forwarded early. */
  ghost predicate LeadsToEarly(evs: seq<Event>, more: seq<Event>) {
    NoPush(more) && ForwardedEarly(Run(evs + more))
  }

  lemma First(evs: seq<Event>, ev: Event, rest: seq<Event>)
    requires !ev.Push? && LeadsToEarly(evs + [ev], rest)
    ensures LeadsToEarly(evs, [ev] + rest)
  {
    assert evs + [ev] + rest == evs + ([ev] + rest);
  }

  /** Looking at a ripe queue leads to a pop, at once or after a timer set to now. */
  lemma RipeLook(st: State, f: nat)
    requires Ripe(st.queue, st.now, f) && st.pc == Looking
    ensures var look := Step(st, Look(st.now));
            && look.queue == st.queue && look.now == st.now && look.sent == st.sent
            && (look.pc == Forwarding || Step(look, Fire) == look.(pc := Forwarding))
  {
    var p := st.queue[Least(st.queue)].priority;
    if |st.queue| == 1 {
      EarlyIff(p, st.now, st.now);
    } else {
      assert p <= st.queue[if f == 0 then 1 else 0].priority <= st.now;
      TimeLeft(p, st.now);
    }
  }

  lemma RipePop(q: seq<Item>, now: nat, f: nat, i: nat) returns (g: nat)
    requires Ripe(q, now, f) && |q| > 1 && IsLeast(q, i)
    ensures Ripe(q[..i] + q[i + 1..], now, g)
  {
    assert q[i].priority <= q[if f == 0 then 1 else 0].priority <= now;
    g := if i < f then f - 1 else f;
    var q' := q[..i] + q[i + 1..];
    assert forall k :: 0 <= k < |q'| ==> q'[k] == q[if k < i then k else k + 1];
  }

  function Rank(pc: Pc): nat {
    match pc case Waiting(_) => 2 case Looking => 1 case Forwarding => 0
  }

  /** A step that leaves clock and queue alone. */
  lemma StillRipe(evs: seq<Event>, ev: Event, f: nat, pc: Pc)
    requires Ripe(Run(evs).queue, Run(evs).now, f)
    requires Step(Run(evs), ev).queue == Run(evs).queue && Step(Run(evs), ev).now == Run(evs).now && Step(Run(evs), ev).pc == pc
    ensures Ripe(Run(evs + [ev]).queue, Run(evs + [ev]).now, f) && Run(evs + [ev]).pc == pc
    ensures |Run(evs + [ev]).queue| == |Run(evs).queue|
  {
    RunSnoc(evs, ev);
  }

  /** Wake, look and pop until the far item is alone, then it is forwarded too. */
  lemma {:induction false} ForceEarly(evs: seq<Event>, f: nat) returns (more: seq<Event>)
    requires Ripe(Run(evs).queue, Run(evs).now, f)
    ensures LeadsToEarly(evs, more)
    decreases |Run(evs).queue|, Rank(Run(evs).pc)
  {
    match Run(evs).pc
    case Waiting(_) =>
      StillRipe(evs, Wake, f, Looking);
      more := ForceEarly(evs + [Wake], f);
      First(evs, Wake, more);
      more := [Wake] + more;
    case Looking =>
      more := LookOn(evs, f);
    case Forwarding =>
      more := PopOn(evs, f);
  }

  lemma {:induction false} LookOn(evs: seq<Event>, f: nat) returns (more: seq<Event>)
    requires Ripe(Run(evs).queue, Run(evs).now, f) && Run(evs).pc == Looking
    ensures LeadsToEarly(evs, more)
    decreases |Run(evs).queue|, 1, 0
  {
    var look := Look(Run(evs).now);
    RipeLook(Run(evs), f);
    var looked := evs + [look];
    RunSnoc(evs, look);
    StillRipe(evs, look, f, Run(looked).pc);
    if Run(looked).pc == Forwarding {
      more := PopOn(looked, f);
    } else {
      StillRipe(looked, Fire, f, Forwarding);
      more := PopOn(looked + [Fire], f);
      First(looked, Fire, more);
      more := [Fire] + more;
    }
    First(evs, look, more);
    more := [look] + more;
  }

  lemma {:induction false} PopOn(evs: seq<Event>, f: nat) returns (more: seq<Event>)
    requires Ripe(Run(evs).queue, Run(evs).now, f) && Run(evs).pc == Forwarding
    ensures LeadsToEarly(evs, more)
    decreases |Run(evs).queue|, 0, 0
  {
    var i := Least(Run(evs).queue);
    if |Run(evs).queue| == 1 {
      PopsEarly(Run(evs), f, i);
      more := [];
      RunSnoc(evs, Pop(i));
      assert evs + [Pop(i)] + more == evs + [Pop(i)];
    } else {
      var g := PopsDue(evs, f, i);
      more := ForceEarly(evs + [Pop(i)], g);
    }
    First(evs, Pop(i), more);
    more := [Pop(i)] + more;
  }

  lemma PopsDue(evs: seq<Event>, f: nat, i: nat) returns (g: nat)
    requires Ripe(Run(evs).queue, Run(evs).now, f) && Run(evs).pc == Forwarding
    requires |Run(evs).queue| > 1 && IsLeast(Run(evs).queue, i)
    ensures var next := Run(evs + [Pop(i)]);
            Ripe(next.queue, next.now, g) && |next.queue| < |Run(evs).queue|
  {
    RunSnoc(evs, Pop(i));
    g := RipePop(Run(evs).queue, Run(evs).now, f, i);
  }

  lemma PopsEarly(st: State, f: nat, i: nat)
    requires Ripe(st.queue, st.now, f) && st.pc == Forwarding && |st.queue| == 1 && IsLeast(st.queue, i)
    ensures ForwardedEarly(Step(st, Pop(i)))
  {
    assert Step(st, Pop(i)).sent[|st.sent|] == Sent(st.queue[f], st.now);
  }

  lemma EarlyBefore(evs: seq<Event>, ev: Event)
    requires CanBeEarly(evs + [ev]) && !ev.Push?
    ensures CanBeEarly(evs)
  {
    var more :| LeadsToEarly(evs + [ev], more);
    First(evs, ev, more);
  }

  lemma RipeCanBeEarly(evs: seq<Event>, f: nat)
    requires Ripe(Run(evs).queue, Run(evs).now, f)
    ensures CanBeEarly(evs)
  {
    var more := ForceEarly(evs, f);
  }

  /** Once the clock has reached the latest queued deadline, the unsafe item is the only one not due. */
  lemma FarIsRipe(st: State, item: Item, st': State)
    requires item.priority < TWO64 && !SafePush(st, item)
    requires st' == Step(Step(st, Push(item)), Clock(Latest(st.queue, st.now)))
    ensures Ripe(st'.queue, st'.now, |st.queue|)
  {
  }

  lemma RunTwo(evs: seq<Event>, a: Event, b: Event)
    ensures Run(evs + [a] + [b]) == Step(Step(Run(evs), a), b)
  {
    RunSnoc(evs, a);
    RunSnoc(evs + [a], b);
  }

  lemma FarRun(evs: seq<Event>, item: Item)
    requires item.priority < TWO64 && !SafePush(Run(evs), item)
    ensures CanBeEarly(evs + [Push(item)])
  {
    var clock := Clock(Latest(Run(evs).queue, Run(evs).now));
    var ripe := evs + [Push(item)] + [clock];
    RunTwo(evs, Push(item), clock);
    FarIsRipe(Run(evs), item, Run(ripe));
    RipeCanBeEarly(ripe, |Run(evs).queue|);
    EarlyBefore(evs + [Push(item)], clock);
  }

  lemma {:induction false} SafeExtended(evs: seq<Event>, more: seq<Event>)
    requires Safe(evs) && NoPush(more)
    ensures Safe(evs + more)
  {
    if more == [] {
      assert evs + more == evs;
    } else {
      var n := |more| - 1;
      SafeExtended(evs, more[..n]);
      assert evs + more == (evs + more[..n]) + [more[n]];
      SafeSnoc(evs + more[..n], more[n]);
    }
  }

  lemma SafeRun(evs: seq<Event>)
    requires Safe(evs)
    ensures !CanBeEarly(evs)
  {
    forall more | NoPush(more) ensures !LeadsToEarly(evs, more) {
      SafeExtended(evs, more);
      NeverEarly(evs + more);
    }
  }

  /**
   * After any run of safe pushes, whatever the queue holds and wherever the worker is: a further
   * push can lead to an item being forwarded before its deadline if and only if the pushed deadline
   * is 2^63 ns or more ahead of the latest of the clock and all queued deadlines.
   */
  lemma EarlyRunIff(evs: seq<Event>, item: Item)
    requires Safe(evs) && item.priority < TWO64
    ensures CanBeEarly(evs + [Push(item)]) <==> item.priority - Latest(Run(evs).queue, Run(evs).now) >= TWO63
  {
    if SafePush(Run(evs), item) {
      SafeSnoc(evs, Push(item));
      SafeRun(evs + [Push(item)]);
    } else {
      FarRun(evs, item);
    }
  }

  /** All deadlines are 64-bit integers. */
  ghost predicate Deadlines64(evs: seq<Event>) {
    forall i :: 0 <= i < |evs| && evs[i].Push? ==> evs[i].item.priority < TWO64
  }

  lemma UnsafeLast(evs: seq<Event>, ev: Event)
    requires Safe(evs) && !Safe(evs + [ev])
    ensures ev.Push? && !SafePush(Run(evs), ev.item)
  {
    if !ev.Push? || SafePush(Run(evs), ev.item) { SafeSnoc(evs, ev); }
  }

  lemma {:induction false} FirstUnsafe(evs: seq<Event>) returns (front: seq<Event>, ev: Event)
    requires !Safe(evs)
    ensures front + [ev] <= evs && Safe(front) && ev.Push? && !SafePush(Run(front), ev.item)
  {
    front, ev := evs[..|evs| - 1], evs[|evs| - 1];
    assert front + [ev] == evs;
    if Safe(front) {
      UnsafeLast(front, ev);
    } else {
      front, ev := FirstUnsafe(front);
    }
  }

  lemma SafeThroughout(evs: seq<Event>, n: nat)
    requires Safe(evs) && n <= |evs|
    ensures !CanBeEarly(evs[..n])
  {
    SafePrefix(evs, n);
    SafeRun(evs[..n]);
  }

  lemma UnsafeSomewhere(evs: seq<Event>) returns (n: nat)
    requires Deadlines64(evs) && !Safe(evs)
    ensures n <= |evs| && CanBeEarly(evs[..n])
  {
    var front, ev := FirstUnsafe(evs);
    n := |front| + 1;
    assert evs[|front|] == ev && evs[..n] == front + [ev];
    FarRun(front, ev.item);
  }

  /** Over whole runs: nothing can be forwarded early at any point if and only if every push was safe. */
  lemma NeverEarlyIff(evs: seq<Event>)
    requires Deadlines64(evs)
    ensures (forall n :: 0 <= n <= |evs| ==> !CanBeEarly(evs[..n])) <==> Safe(evs)
  {
    if Safe(evs) {
      forall n | 0 <= n <= |evs| ensures !CanBeEarly(evs[..n]) { SafeThroughout(evs, n); }
    } else {
      var n := UnsafeSomewhere(evs);
    }
  }

  // ----- the queue object and its worker

  class Delayed {
    var priq: seq<Item>

    constructor ()
      ensures priq == []
    {
      priq := [];
    }

    method PushItem(i: Item)
      modifies this
      ensures priq == old(priq) + [i]
    {
      priq := priq + [i];
    }

    /** The position of the first item of least priority. */
    method Peek() returns (best: nat)
      requires priq != []
      ensures IsLeast(priq, best)
    {
      best := 0;
      for j := 1 to |priq|
        invariant best < |priq|
        invariant forall x :: 0 <= x < j ==> priq[best].priority <= priq[x].priority
      {
        if priq[j].priority < priq[best].priority { best := j; }
      }
    }

    /** forward: pops an item of least priority, if there is one. */
    method Forward() returns (item: Option<Item>, ghost i: nat)
      modifies this
      ensures old(priq) == [] ==> item == None && priq == []
      ensures old(priq) != [] ==>
                && IsLeast(old(priq), i) && item == Some(old(priq)[i])
                && priq == old(priq)[..i] + old(priq)[i + 1..]
    {
      i := 0;
      if priq == [] { return None, i; }
      var best := Peek();
      i := best;
      item := Some(priq[best]);
      priq := priq[..best] + priq[best + 1..];
    }
  }

  function PushedBy(evs: seq<Event>): multiset<Item> {
    if evs == [] then multiset{} else PushedBy(evs[..|evs| - 1]) + PushOf(evs[|evs| - 1])
  }

  function PushOf(ev: Event): multiset<Item> {
    if ev.Push? then multiset{ev.item} else multiset{}
  }

  lemma PushedSnoc(evs: seq<Event>, n: nat)
    requires n < |evs|
    ensures PushedBy(evs[..n + 1]) == PushedBy(evs[..n]) + PushOf(evs[n])
  {
    assert evs[..n + 1][..n] == evs[..n];
  }

  /** All items of least priority have the same priority. */
  lemma LeastPriority(q: seq<Item>, i: nat, j: nat)
    requires IsLeast(q, i) && IsLeast(q, j)
    ensures q[i].priority == q[j].priority
  {
  }

  /**
   * One section of the worker or of a caller, on the queue object: the model's step for the same
   * event, except that the object itself chooses among the items of least priority.
   */
  method StepOnQueue(q: Delayed, st: State, ev: Event) returns (next: State, ghost taken: Event)
    requires q.priq == st.queue
    modifies q
    ensures next == Step(st, taken) && q.priq == next.queue
    ensures next.pushed == st.pushed + PushOf(ev)
    ensures taken == ev || (ev.Pop? && taken.Pop?)
  {
    next, taken := st, ev;
    match ev {
      case Push(item) =>
        q.PushItem(item);
        next := st.(queue := q.priq, pushed := st.pushed + multiset{item});
      case Clock(to) => next := st.(now := Advance(st.now, to));
      case Look(reread) =>
        if st.pc != Looking || !(st.now <= reread < TWO63) {
          next := st.(now := Advance(st.now, reread));
        } else if q.priq == [] {
          next := st.(pc := Waiting(None), now := reread);
        } else {
          var best := q.Peek();
          LeastPriority(q.priq, best, Least(q.priq));
          var timeLeft := Int64(Int64(q.priq[best].priority) - st.now);
          if timeLeft < 0 || q.priq[best].priority < reread {
            next := st.(pc := Forwarding, now := reread);
          } else {
            next := st.(pc := Waiting(Some(reread + timeLeft)), now := reread);
          }
        }
      case Fire =>
        if st.pc.Waiting? && st.pc.until.Some? && st.pc.until.value <= st.now { next := st.(pc := Forwarding); }
      case Wake => if st.pc.Waiting? { next := st.(pc := Looking); }
      case Pop(_) =>
        if st.pc == Forwarding {
          var item, i := q.Forward();
          taken := Pop(i);
          next := st.(pc := Looking, queue := q.priq, sent := if item.None? then st.sent else st.sent + [Sent(item.value, st.now)]);
        }
    }
  }

  lemma NowAt(evs: seq<Event>, n: nat)
    requires n < |evs|
    ensures Now(evs[..n + 1]) == After(Now(evs[..n]), evs[n])
  {
    assert evs[..n + 1][..n] == evs[..n];
  }

  lemma SameTime(evs: seq<Event>, n: nat, trace: seq<Event>, taken: Event)
    requires n < |evs| && Now(trace) == Now(evs[..n])
    requires taken == evs[n] || (evs[n].Pop? && taken.Pop?)
    ensures Now(trace + [taken]) == Now(evs[..n + 1])
  {
    NowSnoc(trace, taken);
    NowAt(evs, n);
    assert After(Now(trace), taken) == After(Now(trace), evs[n]);
  }

  /**
   * The worker and its callers over the queue object, in any interleaving: nothing is forwarded
   * before its deadline, and pushed items are exactly those forwarded and those left.
   */
  method Worker(evs: seq<Event>) returns (sent: seq<Sent>, left: seq<Item>, ghost trace: seq<Event>)
    requires Sane(evs)
    ensures Run(trace).sent == sent && Run(trace).queue == left
    ensures forall i :: 0 <= i < |sent| ==> sent[i].item.priority <= sent[i].at
    ensures PushedBy(evs) == multiset(left) + Items(sent)
  {
    var q := new Delayed();
    var st := Init;
    trace := [];
    for n := 0 to |evs|
      invariant fresh(q) && q.priq == st.queue
      invariant st == Run(trace) && Sane(trace) && Now(trace) == Now(evs[..n]) && st.pushed == PushedBy(evs[..n])
    {
      ghost var taken;
      st, taken := StepOnQueue(q, st, evs[n]);
      PushedSnoc(evs, n);
      RunSnoc(trace, taken);
      SaneSnoc(trace, taken);
      SameTime(evs, n, trace, taken);
      trace := trace + [taken];
    }
    assert evs[..|evs|] == evs;
    SaneIsSafe(trace);
    NeverEarly(trace);
    sent, left := st.sent, q.priq;
  }
}
