/**
 * Path selection (minclient/path.go): one node per layer between source and destination, hop keys
 * of one epoch, and a random delay command on every hop that forwards.  Random choices are
 * arbitrary; `providerLayer` stands for the layer index reserved for providers.
 */
module Path {
  import opened Basics

  type Epoch = nat
  type Key = nat
  type Name = nat

  datatype Node = Node(id: nat, layer: nat, keys: map<Epoch, Key>)

  datatype Document = Document(topology: seq<seq<Node>>, providers: map<Name, Node>, muMaxDelay: nat)

  /** From where to where, and whether it is a client's own packet and a forward one. */
  datatype Request = Request(src: Node, dst: Node, fromClient: bool, forward: bool)

  /** OutOfRange is the run-time panic of a slice bound beyond the topology. */
  datatype SelectError = InvalidDestination | InvalidSource | EmptyLayer(layer: nat) | OutOfRange

  datatype Selection = Hops(hops: seq<Node>) | NoHops(err: SelectError)

  // ----- which layers a path has to cross

  function FirstLayer(providerLayer: nat, rq: Request): nat {
    if rq.forward && !rq.fromClient && rq.src.layer != providerLayer then rq.src.layer + 1 else 0
  }

  /** The loop stops at the destination's layer, counted from the first one, or at the end of the topology. */
  function EndLayer(providerLayer: nat, layers: nat, rq: Request): nat {
    var end := FirstLayer(providerLayer, rq) + rq.dst.layer;
    if end < layers then end else layers
  }

  predicate BadDestination(providerLayer: nat, rq: Request) {
    rq.forward && rq.dst.layer != providerLayer
  }

  predicate BadSource(providerLayer: nat, rq: Request) {
    !BadDestination(providerLayer, rq) && (rq.fromClient || !rq.forward) && rq.src.layer != providerLayer
  }

  predicate BeyondTopology(providerLayer: nat, layers: nat, rq: Request) {
    rq.forward && !BadDestination(providerLayer, rq) && !rq.fromClient && rq.src.layer != providerLayer && rq.src.layer >= layers
  }

  predicate ValidRequest(providerLayer: nat, layers: nat, rq: Request) {
    !BadDestination(providerLayer, rq) && !BadSource(providerLayer, rq) && !BeyondTopology(providerLayer, layers, rq)
  }

  /** The source comes first only on a client's forward path. */
  function Prefix(rq: Request): (r: seq<Node>)
    ensures |r| <= 1
  {
    if rq.forward && rq.fromClient then [rq.src] else []
  }

  /** One node from each required layer, in increasing layer order, then the destination. */
  ghost predicate Crosses(providerLayer: nat, topology: seq<seq<Node>>, rq: Request, hops: seq<Node>) {
    var lo, hi := FirstLayer(providerLayer, rq), EndLayer(providerLayer, |topology|, rq);
    var k := |Prefix(rq)|;
    && lo <= hi <= |topology|
    && |hops| == k + (hi - lo) + 1
    && Prefix(rq) <= hops
    && hops[|hops| - 1] == rq.dst
    && (forall l :: lo <= l < hi ==> hops[k + l - lo] in topology[l])
  }

  /** Layer `lo + i`, the first that is needed and empty. */
  ghost predicate FirstEmpty(providerLayer: nat, topology: seq<seq<Node>>, rq: Request, i: nat) {
    var lo, hi := FirstLayer(providerLayer, rq), EndLayer(providerLayer, |topology|, rq);
    lo + i < hi <= |topology| && topology[lo + i] == [] && forall j :: lo <= j < lo + i ==> topology[j] != []
  }

  /** The cause of each error; at most one of them holds. */
  ghost predicate SelectFails(providerLayer: nat, topology: seq<seq<Node>>, rq: Request, err: SelectError) {
    match err
    case InvalidDestination => BadDestination(providerLayer, rq)
    case InvalidSource => BadSource(providerLayer, rq)
    case OutOfRange => BeyondTopology(providerLayer, |topology|, rq)
    case EmptyLayer(i) => ValidRequest(providerLayer, |topology|, rq) && FirstEmpty(providerLayer, topology, rq, i)
  }

  /**
   * selectHops: the special cases that return early agree with the general rule, and it fails
   * exactly for a cause: on a valid request only if some layer it must cross is empty, and then
   * the error names the first such layer (counted from the first one needed, as the source does).
   */
  method SelectHops(providerLayer: nat, topology: seq<seq<Node>>, rq: Request) returns (r: Selection)
    ensures r.Hops? ==> ValidRequest(providerLayer, |topology|, rq) && Crosses(providerLayer, topology, rq, r.hops)
    ensures r.NoHops? ==> SelectFails(providerLayer, topology, rq, r.err)
    ensures r == NoHops(InvalidDestination) <==> BadDestination(providerLayer, rq)
    ensures r == NoHops(InvalidSource) <==> BadSource(providerLayer, rq)
    ensures r == NoHops(OutOfRange) <==> BeyondTopology(providerLayer, |topology|, rq)
  {
    var startLayer := 0;
    if rq.forward {
      if rq.dst.layer != providerLayer { return NoHops(InvalidDestination); }
      if rq.fromClient {
        if rq.src.layer != providerLayer { return NoHops(InvalidSource); }
      } else if rq.src.layer == providerLayer {
        startLayer := 0;
      } else if rq.src.layer == |topology| - 1 {
        return Hops([rq.dst]);
      } else {
        startLayer := rq.src.layer + 1;
        if startLayer > |topology| { return NoHops(OutOfRange); }
      }
    } else {
      if rq.src.layer != providerLayer { return NoHops(InvalidSource); }
      if rq.dst.layer != providerLayer && rq.dst.layer == 0 { return Hops([rq.dst]); }
    }
    var hops := if rq.forward && rq.fromClient then [rq.src] else [];
    var i := 0;
    while startLayer + i < |topology| && i != rq.dst.layer
      invariant startLayer + i <= EndLayer(providerLayer, |topology|, rq)
      invariant |hops| == |Prefix(rq)| + i && Prefix(rq) <= hops
      invariant forall l :: startLayer <= l < startLayer + i ==> hops[|Prefix(rq)| + l - startLayer] in topology[l]
    {
      var nodes := topology[startLayer + i];
      if |nodes| == 0 { return NoHops(EmptyLayer(i)); }
      var pick :| 0 <= pick < |nodes|;
      hops := hops + [nodes[pick]];
      i := i + 1;
    }
    hops := hops + [rq.dst];
    return Hops(hops);
  }

  /** A selection and a cause of failure exclude each other, and so do two different causes. */
  lemma SelectCauses(providerLayer: nat, topology: seq<seq<Node>>, rq: Request, hops: seq<Node>, e: SelectError, f: SelectError)
    requires SelectFails(providerLayer, topology, rq, e)
    ensures !(ValidRequest(providerLayer, |topology|, rq) && Crosses(providerLayer, topology, rq, hops))
    ensures SelectFails(providerLayer, topology, rq, f) ==> e == f
  {
    if e.EmptyLayer? && f.EmptyLayer? && SelectFails(providerLayer, topology, rq, f) {
      var lo := FirstLayer(providerLayer, rq);
      assert topology[lo + e.layer] == [] && topology[lo + f.layer] == [];
    }
  }

  /** In a topology below the provider layer, a client's packet crosses every layer. */
  lemma ClientCrossesAll(providerLayer: nat, topology: seq<seq<Node>>, rq: Request, hops: seq<Node>)
    requires |topology| <= providerLayer && rq.fromClient && rq.dst.layer == providerLayer
    requires Crosses(providerLayer, topology, rq, hops)
    ensures |hops| == |Prefix(rq)| + |topology| + 1
    ensures forall l :: 0 <= l < |topology| ==> hops[|Prefix(rq)| + l] in topology[l]
  {
    assert forall l :: 0 <= l < |topology| ==> hops[|Prefix(rq)| + l - 0] in topology[l];
  }

  /** A mix's own forward packet crosses the layers after its own. */
  lemma MixCrossesRest(providerLayer: nat, topology: seq<seq<Node>>, rq: Request, hops: seq<Node>)
    requires |topology| <= providerLayer && rq.forward && !rq.fromClient
    requires ValidRequest(providerLayer, |topology|, rq) && Crosses(providerLayer, topology, rq, hops)
    ensures rq.src.layer != providerLayer ==>
              && |hops| == |topology| - rq.src.layer
              && forall l :: rq.src.layer < l < |topology| ==> hops[l - rq.src.layer - 1] in topology[l]
    ensures rq.src.layer == providerLayer ==>
              |hops| == |topology| + 1 && forall l :: 0 <= l < |topology| ==> hops[l] in topology[l]
  {
    var lo := FirstLayer(providerLayer, rq);
    assert forall l :: lo <= l < |topology| ==> hops[0 + l - lo] in topology[l];
  }

  /** A reply to a mix crosses the layers before its own, a reply to a provider all of them. */
  lemma ReplyCrosses(providerLayer: nat, topology: seq<seq<Node>>, rq: Request, hops: seq<Node>)
    requires |topology| <= providerLayer && !rq.forward && Crosses(providerLayer, topology, rq, hops)
    ensures var n := if rq.dst.layer < |topology| then rq.dst.layer else |topology|;
            |hops| == n + 1 && forall l :: 0 <= l < n ==> hops[l] in topology[l]
  {
    assert forall l :: 0 <= l < EndLayer(providerLayer, |topology|, rq) ==> hops[0 + l - 0] in topology[l];
  }

  /** Every selectable node: the ends that are on the path, and all nodes of the layers it crosses. */
  ghost predicate Candidate(providerLayer: nat, topology: seq<seq<Node>>, rq: Request, n: Node) {
    || n == rq.dst
    || n in Prefix(rq)
    || exists l :: FirstLayer(providerLayer, rq) <= l < EndLayer(providerLayer, |topology|, rq) <= |topology| && n in topology[l]
  }

  lemma HopsAreCandidates(providerLayer: nat, topology: seq<seq<Node>>, rq: Request, hops: seq<Node>, i: nat)
    requires Crosses(providerLayer, topology, rq, hops) && i < |hops|
    ensures Candidate(providerLayer, topology, rq, hops[i])
  {
    var lo, k := FirstLayer(providerLayer, rq), |Prefix(rq)|;
    if i < k {
      assert hops[i] == Prefix(rq)[i];
    } else if i < |hops| - 1 {
      assert hops[k + (lo + i - k) - lo] in topology[lo + i - k];
    }
  }

  /** Some selectable node has no key for the epoch, so an attempt may fail. */
  ghost predicate MissingKey(providerLayer: nat, topology: seq<seq<Node>>, rq: Request, epoch: Epoch) {
    exists n: Node :: Candidate(providerLayer, topology, rq, n) && epoch !in n.keys
  }

  ghost predicate HasKeyed(nodes: seq<Node>, epoch: Epoch) {
    exists n: Node :: n in nodes && epoch in n.keys
  }

  /** Some selection has all its keys for the epoch, so an attempt may succeed. */
  ghost predicate Keyable(providerLayer: nat, topology: seq<seq<Node>>, rq: Request, epoch: Epoch) {
    var hi := EndLayer(providerLayer, |topology|, rq);
    && epoch in rq.dst.keys
    && (forall n :: n in Prefix(rq) ==> epoch in n.keys)
    && (forall l :: FirstLayer(providerLayer, rq) <= l < hi <= |topology| ==> HasKeyed(topology[l], epoch))
  }

  lemma KeyedHopsAreKeyable(providerLayer: nat, topology: seq<seq<Node>>, rq: Request, hops: seq<Node>, epoch: Epoch)
    requires Crosses(providerLayer, topology, rq, hops)
    requires forall i :: 0 <= i < |hops| ==> epoch in hops[i].keys
    ensures Keyable(providerLayer, topology, rq, epoch)
  {
    var lo, hi, k := FirstLayer(providerLayer, rq), EndLayer(providerLayer, |topology|, rq), |Prefix(rq)|;
    assert hops[|hops| - 1] == rq.dst;
    forall n | n in Prefix(rq) ensures epoch in n.keys {
      assert n == Prefix(rq)[0] == hops[0];
    }
    forall l | lo <= l < hi ensures HasKeyed(topology[l], epoch) {
      assert hops[k + l - lo] in topology[l] && epoch in hops[k + l - lo].keys;
    }
  }

  // ----- hops, delays and commands

  datatype Command = NodeDelay(ms: nat) | Recipient(name: Name) | SurbReply(surbId: nat)

  datatype PathHop = PathHop(id: nat, key: Key, commands: seq<Command>)

  datatype PathResult = NewPathOk(path: seq<PathHop>, arrival: int) | NewPathErr(err: PathError)
  datatype PathError = Select(err: SelectError) | MaxAttempts

  const MAX_ATTEMPTS: nat := 3

  /** The commands of a hop, sorted by kind. */
  datatype Summary = Summary(delays: seq<nat>, recipients: seq<Name>, replies: seq<nat>)

  function Note(s: Summary, c: Command): Summary {
    match c
    case NodeDelay(ms) => s.(delays := s.delays + [ms])
    case Recipient(name) => s.(recipients := s.recipients + [name])
    case SurbReply(id) => s.(replies := s.replies + [id])
  }

  function Summarize(cs: seq<Command>): Summary {
    if cs == [] then Summary([], [], []) else Note(Summarize(cs[..|cs| - 1]), cs[|cs| - 1])
  }

  lemma SummarizeSnoc(cs: seq<Command>, c: Command)
    ensures Summarize(cs + [c]) == Note(Summarize(cs), c)
  {
    assert (cs + [c])[..|cs|] == cs;
  }

  /** Does hop `i` of `n` hold the packet back?  All but the last, and the last if it answers a SURB. */
  predicate Waits(i: nat, n: nat, surb: Option<nat>, forward: bool) {
    i != n - 1 || (surb.Some? && forward)
  }

  /** The delay drawn for a hop: at least 1 ms, cut at MuMaxDelay if that is set. */
  function HopDelay(draw: nat, muMaxDelay: nat): (d: nat)
    requires draw < TWO64 - 1
    ensures 1 <= d < TWO64 && (muMaxDelay > 0 ==> d <= muMaxDelay)
    ensures d <= draw + 1 && (d < draw + 1 ==> d == muMaxDelay)
  {
    if 0 < muMaxDelay < draw + 1 then muMaxDelay else draw + 1
  }

  /** What hop `i` of `n` is told: its delay iff it waits, and recipient and reply only at the end. */
  ghost predicate Told(s: Summary, ms: nat, i: nat, n: nat, recipient: Name, surb: Option<nat>, forward: bool) {
    && s.delays == (if Waits(i, n, surb, forward) then [ms] else [])
    && s.recipients == (if i == n - 1 then [recipient] else [])
    && s.replies == (if i == n - 1 && surb.Some? && !forward then [surb.value] else [])
  }

  ghost predicate HopOk(h: PathHop, d: Node, keyEpoch: Epoch, delay: nat, i: nat, n: nat,
                        recipient: Name, surb: Option<nat>, forward: bool)
  {
    && h.id == d.id
    && keyEpoch in d.keys && h.key == d.keys[keyEpoch]
    && Told(Summarize(h.commands), Uint32(delay), i, n, recipient, surb, forward)
  }

  /** Sum of the first `k` delays that are waited for, in nanoseconds of Go time. */
  function Waited(delays: seq<nat>, k: nat, n: nat, surb: Option<nat>, forward: bool): int
    requires k <= |delays|
  {
    if k == 0 then 0
    else Waited(delays, k - 1, n, surb, forward) +
         if Waits(k - 1, n, surb, forward) then Milliseconds(delays[k - 1]) else 0
  }

  ghost predicate DelayOk(delay: nat, muMaxDelay: nat) {
    1 <= delay < TWO64 && (muMaxDelay > 0 ==> delay <= muMaxDelay)
  }

  /** The hops built so far, on the way to a path of `n`. */
  ghost predicate PathUpTo(path: seq<PathHop>, descs: seq<Node>, keyEpoch: Epoch, delays: seq<nat>, muMaxDelay: nat,
                           n: nat, recipient: Name, surb: Option<nat>, forward: bool)
  {
    && |path| == |delays| <= |descs|
    && (forall i :: 0 <= i < |delays| ==> DelayOk(delays[i], muMaxDelay))
    && (forall i :: 0 <= i < |path| ==>
                      HopOk(path[i], descs[i], keyEpoch, delays[i], i, n, recipient, surb, forward))
  }

  ghost predicate PathOk(path: seq<PathHop>, descs: seq<Node>, keyEpoch: Epoch, delays: seq<nat>, muMaxDelay: nat,
                         recipient: Name, surb: Option<nat>, forward: bool)
  {
    |path| == |descs| && PathUpTo(path, descs, keyEpoch, delays, muMaxDelay, |path|, recipient, surb, forward)
  }

  lemma DelaysSnoc(delays: seq<nat>, delay: nat, muMaxDelay: nat, i: nat)
    requires forall k :: 0 <= k < |delays| ==> DelayOk(delays[k], muMaxDelay)
    requires DelayOk(delay, muMaxDelay) && i <= |delays|
    ensures DelayOk((delays + [delay])[i], muMaxDelay)
  {
    assert (delays + [delay])[i] == if i < |delays| then delays[i] else delay;
  }

  lemma HopSnoc(path: seq<PathHop>, h: PathHop, descs: seq<Node>, keyEpoch: Epoch, delays: seq<nat>, delay: nat,
                muMaxDelay: nat, n: nat, recipient: Name, surb: Option<nat>, forward: bool, i: nat)
    requires PathUpTo(path, descs, keyEpoch, delays, muMaxDelay, n, recipient, surb, forward)
    requires |path| < |descs| && i <= |path|
    requires HopOk(h, descs[|path|], keyEpoch, delay, |path|, n, recipient, surb, forward)
    ensures HopOk((path + [h])[i], descs[i], keyEpoch, (delays + [delay])[i], i, n, recipient, surb, forward)
  {
    if i < |path| { assert (path + [h])[i] == path[i] && (delays + [delay])[i] == delays[i]; }
  }

  lemma PathSnoc(path: seq<PathHop>, h: PathHop, descs: seq<Node>, keyEpoch: Epoch, delays: seq<nat>, delay: nat,
                 muMaxDelay: nat, n: nat, recipient: Name, surb: Option<nat>, forward: bool)
    requires PathUpTo(path, descs, keyEpoch, delays, muMaxDelay, n, recipient, surb, forward)
    requires |path| < |descs| && DelayOk(delay, muMaxDelay)
    requires HopOk(h, descs[|path|], keyEpoch, delay, |path|, n, recipient, surb, forward)
    ensures PathUpTo(path + [h], descs, keyEpoch, delays + [delay], muMaxDelay, n, recipient, surb, forward)
  {
    forall i | 0 <= i < |delays + [delay]| ensures DelayOk((delays + [delay])[i], muMaxDelay) {
      DelaysSnoc(delays, delay, muMaxDelay, i);
    }
    forall i | 0 <= i < |path + [h]|
      ensures HopOk((path + [h])[i], descs[i], keyEpoch, (delays + [delay])[i], i, n, recipient, surb, forward)
    {
      HopSnoc(path, h, descs, keyEpoch, delays, delay, muMaxDelay, n, recipient, surb, forward, i);
    }
  }

  lemma AddDelay(ms: nat)
    ensures Summarize([NodeDelay(ms)]) == Summary([ms], [], [])
  {
    SummarizeSnoc([], NodeDelay(ms));
    assert [] + [NodeDelay(ms)] == [NodeDelay(ms)] && [] + [ms] == [ms];
  }

  lemma AddRecipient(cs: seq<Command>, name: Name)
    requires Summarize(cs).recipients == []
    ensures Summarize(cs + [Recipient(name)]) == Summarize(cs).(recipients := [name])
  {
    SummarizeSnoc(cs, Recipient(name));
    assert [] + [name] == [name];
  }

  lemma AddReply(cs: seq<Command>, id: nat)
    requires Summarize(cs).replies == []
    ensures Summarize(cs + [SurbReply(id)]) == Summarize(cs).(replies := [id])
  {
    SummarizeSnoc(cs, SurbReply(id));
    assert [] + [id] == [id];
  }

  method HopCommands(ms: nat, i: nat, n: nat, recipient: Name, surb: Option<nat>, forward: bool)
    returns (commands: seq<Command>)
    ensures Told(Summarize(commands), ms, i, n, recipient, surb, forward)
  {
    commands := [];
    if i != n - 1 || (surb.Some? && forward) {
      AddDelay(ms);
      commands := [NodeDelay(ms)];
    }
    if i == n - 1 {
      AddRecipient(commands, recipient);
      commands := commands + [Recipient(recipient)];
      if surb.Some? && !forward {
        AddReply(commands, surb.value);
        commands := commands + [SurbReply(surb.value)];
      }
    }
  }

  /** One hop: its key, a delay drawn and cut, its commands, and how long it holds the packet. */
  method BuildHop(d: Node, keyEpoch: Epoch, muMaxDelay: nat, i: nat, n: nat, recipient: Name, surb: Option<nat>, forward: bool)
    returns (h: PathHop, delay: nat, wait: int)
    requires keyEpoch in d.keys
    ensures DelayOk(delay, muMaxDelay)
    ensures HopOk(h, d, keyEpoch, delay, i, n, recipient, surb, forward)
    ensures wait == if Waits(i, n, surb, forward) then Milliseconds(delay) else 0
  {
    var draw: nat :| draw < TWO64 - 1;
    delay := HopDelay(draw, muMaxDelay);
    var commands := HopCommands(Uint32(delay), i, n, recipient, surb, forward);
    h := PathHop(d.id, d.keys[keyEpoch], commands);
    wait := if i != n - 1 || (surb.Some? && forward) then Milliseconds(delay) else 0;
  }

  /** One turn of the inner loop of NewPath: the next hop, its delay and the time after it. */
  method AppendHop(path: seq<PathHop>, arrival: int, ghost delays: seq<nat>, descs: seq<Node>, keyEpoch: Epoch, muMaxDelay: nat,
                   recipient: Name, surb: Option<nat>, forward: bool)
    returns (path': seq<PathHop>, arrival': int, ghost delays': seq<nat>)
    requires PathUpTo(path, descs, keyEpoch, delays, muMaxDelay, |descs|, recipient, surb, forward)
    requires |path| < |descs| && keyEpoch in descs[|path|].keys
    ensures |path'| == |path| + 1
    ensures PathUpTo(path', descs, keyEpoch, delays', muMaxDelay, |descs|, recipient, surb, forward)
    ensures arrival' - Waited(delays', |delays'|, |descs|, surb, forward) ==
            arrival - Waited(delays, |delays|, |descs|, surb, forward)
  {
    var idx, n := |path|, |descs|;
    var h, delay, wait := BuildHop(descs[idx], keyEpoch, muMaxDelay, idx, n, recipient, surb, forward);
    PathSnoc(path, h, descs, keyEpoch, delays, delay, muMaxDelay, n, recipient, surb, forward);
    WaitedSnoc(delays, delay, wait, n, surb, forward);
    path', arrival', delays' := path + [h], arrival + wait, delays + [delay];
  }

  /** The inner loop of NewPath: hops with their keys, delays and commands, unless a key is missing. */
  method BuildHops(descs: seq<Node>, keyEpoch: Epoch, muMaxDelay: nat, recipient: Name, surb: Option<nat>,
                   forward: bool, baseTime: int)
    returns (found: bool, path: seq<PathHop>, arrival: int, ghost delays: seq<nat>)
    ensures found <==> forall i :: 0 <= i < |descs| ==> keyEpoch in descs[i].keys
    ensures found ==> PathOk(path, descs, keyEpoch, delays, muMaxDelay, recipient, surb, forward)
    ensures found ==> arrival == baseTime + Waited(delays, |path|, |path|, surb, forward)
  {
    path, arrival, delays := [], baseTime, [];
    for idx := 0 to |descs|
      invariant |path| == idx
      invariant forall i :: 0 <= i < idx ==> keyEpoch in descs[i].keys
      invariant PathUpTo(path, descs, keyEpoch, delays, muMaxDelay, |descs|, recipient, surb, forward)
      invariant arrival == baseTime + Waited(delays, |delays|, |descs|, surb, forward)
    {
      if keyEpoch !in descs[idx].keys {
        found := false;
        return;
      }
      path, arrival, delays := AppendHop(path, arrival, delays, descs, keyEpoch, muMaxDelay, recipient, surb, forward);
    }
    found := true;
  }

  lemma WaitedSnoc(delays: seq<nat>, delay: nat, wait: int, n: nat, surb: Option<nat>, forward: bool)
    requires wait == if Waits(|delays|, n, surb, forward) then Milliseconds(delay) else 0
    ensures Waited(delays + [delay], |delays| + 1, n, surb, forward) == Waited(delays, |delays|, n, surb, forward) + wait
  {
    WaitedPrefix(delays, delay, |delays|, n, surb, forward);
  }

  lemma {:induction false} WaitedPrefix(delays: seq<nat>, delay: nat, k: nat, n: nat, surb: Option<nat>, forward: bool)
    requires k <= |delays|
    ensures Waited(delays + [delay], k, n, surb, forward) == Waited(delays, k, n, surb, forward)
  {
    if k > 0 { WaitedPrefix(delays, delay, k - 1, n, surb, forward); }
  }

  function EpochAfter(epoch: Epoch, k: nat): (e: Epoch)
    ensures epoch + k < TWO64 ==> e == epoch + k
  {
    (epoch + k) % 0x1_0000_0000_0000_0000
  }

  /** The returned path and its proof data: hops `descs`, drawn `delays`, all keys of epoch + k, the first that worked. */
  ghost predicate NewPathSpec(r: PathResult, providerLayer: nat, doc: Document, rq: Request, recipient: Name,
                              surb: Option<nat>, baseTime: int, epoch: Epoch,
                              k: nat, descs: seq<Node>, delays: seq<nat>)
    requires r.NewPathOk?
  {
    && k < MAX_ATTEMPTS
    && ValidRequest(providerLayer, |doc.topology|, rq)
    && Crosses(providerLayer, doc.topology, rq, descs)
    && Keyable(providerLayer, doc.topology, rq, EpochAfter(epoch, k))
    && (forall j: nat :: j < k ==> MissingKey(providerLayer, doc.topology, rq, EpochAfter(epoch, j)))
    && PathOk(r.path, descs, EpochAfter(epoch, k), delays, doc.muMaxDelay, recipient, surb, rq.forward)
    && r.arrival == baseTime + Waited(delays, |delays|, |delays|, surb, rq.forward)
  }

  /** The cause of each error: of selectHops, or a selectable node without a key for each epoch tried. */
  ghost predicate NewPathFails(providerLayer: nat, topology: seq<seq<Node>>, rq: Request, epoch: Epoch, err: PathError) {
    match err
    case Select(e) => SelectFails(providerLayer, topology, rq, e)
    case MaxAttempts =>
      && ValidRequest(providerLayer, |topology|, rq)
      && (exists hops :: Crosses(providerLayer, topology, rq, hops))
      && forall j: nat :: j < MAX_ATTEMPTS ==> MissingKey(providerLayer, topology, rq, EpochAfter(epoch, j))
  }

  /**
   * NewPath: nothing of an abandoned attempt survives.  It fails exactly if selectHops does, or
   * for missing keys: only if for each of the three epochs tried some selectable node has no key,
   * and surely if for each of them every selection has a node without.
   */
  method NewPath(providerLayer: nat, doc: Document, recipient: Name, rq: Request, surb: Option<nat>,
                 baseTime: int, epoch: Epoch)
    returns (r: PathResult, ghost k: nat, ghost descs: seq<Node>, ghost delays: seq<nat>)
    requires epoch < TWO64
    ensures r.NewPathOk? ==>
              NewPathSpec(r, providerLayer, doc, rq, recipient, surb, baseTime, epoch, k, descs, delays)
    ensures r.NewPathErr? ==> NewPathFails(providerLayer, doc.topology, rq, epoch, r.err)
  {
    k, descs, delays := 0, [], [];
    var keyEpoch := epoch;
    for attempts := 0 to MAX_ATTEMPTS
      invariant keyEpoch == EpochAfter(epoch, attempts)
      invariant attempts > 0 ==>
                  ValidRequest(providerLayer, |doc.topology|, rq) && Crosses(providerLayer, doc.topology, rq, descs)
      invariant forall j: nat :: j < attempts ==> MissingKey(providerLayer, doc.topology, rq, EpochAfter(epoch, j))
    {
      var sel := SelectHops(providerLayer, doc.topology, rq);
      if sel.NoHops? {
        r := NewPathErr(Select(sel.err));
        return;
      }
      descs := sel.hops;
      var found, path, arrival, ds := BuildHops(sel.hops, keyEpoch, doc.muMaxDelay, recipient, surb, rq.forward, baseTime);
      if found {
        KeyedHopsAreKeyable(providerLayer, doc.topology, rq, descs, keyEpoch);
        k, delays := attempts, ds;
        r := NewPathOk(path, arrival);
        return;
      }
      ghost var i :| 0 <= i < |sel.hops| && keyEpoch !in sel.hops[i].keys;
      HopsAreCandidates(providerLayer, doc.topology, rq, sel.hops, i);
      assert MissingKey(providerLayer, doc.topology, rq, keyEpoch);
      NextEpoch(epoch, attempts);
      keyEpoch := (keyEpoch + 1) % 0x1_0000_0000_0000_0000;
    }
    r := NewPathErr(MaxAttempts);
  }

  lemma NextEpoch(epoch: Epoch, k: nat)
    ensures (EpochAfter(epoch, k) + 1) % 0x1_0000_0000_0000_0000 == EpochAfter(epoch, k + 1)
  {
  }

  // ----- the estimate against the commands

  function Sum(s: seq<nat>): nat {
    if s == [] then 0 else s[0] + Sum(s[1..])
  }

  lemma SumOne(x: nat)
    ensures Sum([x]) == x
  {
    assert [x][1..] == [];
  }

  /** Milliseconds in the delay commands of one hop, and how many there are. */
  function HopMs(h: PathHop): nat {
    Sum(Summarize(h.commands).delays)
  }

  function HopCount(h: PathHop): nat {
    |Summarize(h.commands).delays|
  }

  /** The same over the first `k` hops of a path. */
  function TotalDelay(path: seq<PathHop>, k: nat): nat
    requires k <= |path|
  {
    if k == 0 then 0 else TotalDelay(path, k - 1) + HopMs(path[k - 1])
  }

  function DelayCount(path: seq<PathHop>, k: nat): nat
    requires k <= |path|
  {
    if k == 0 then 0 else DelayCount(path, k - 1) + HopCount(path[k - 1])
  }

  /** Each waiting hop has one delay command, carrying the delay drawn for it in full. */
  ghost predicate Exact(path: seq<PathHop>, delays: seq<nat>, mu: nat, surb: Option<nat>, forward: bool) {
    && |path| == |delays|
    && (forall i :: 0 <= i < |path| ==> 1 <= delays[i] <= mu)
    && (forall i :: 0 <= i < |path| ==>
                      var w := Waits(i, |path|, surb, forward);
                      HopMs(path[i]) == (if w then delays[i] else 0) && HopCount(path[i]) == if w then 1 else 0)
  }

  lemma PathIsExact(path: seq<PathHop>, descs: seq<Node>, keyEpoch: Epoch, delays: seq<nat>,
                    mu: nat, recipient: Name, surb: Option<nat>, forward: bool)
    requires PathOk(path, descs, keyEpoch, delays, mu, recipient, surb, forward)
    requires 0 < mu < TWO32
    ensures Exact(path, delays, mu, surb, forward)
  {
    forall i | 0 <= i < |path|
      ensures var w := Waits(i, |path|, surb, forward);
              HopMs(path[i]) == (if w then delays[i] else 0) && HopCount(path[i]) == if w then 1 else 0
    {
      assert HopOk(path[i], descs[i], keyEpoch, delays[i], i, |path|, recipient, surb, forward);
      assert DelayOk(delays[i], mu);
      if Waits(i, |path|, surb, forward) {
        SumOne(delays[i]);
      }
    }
    assert forall i :: 0 <= i < |path| ==> DelayOk(delays[i], mu);
  }

  lemma CountStep(c: nat, total: nat, d: nat, mu: nat)
    requires c <= total <= c * mu && 1 <= d <= mu
    ensures c + 1 <= total + d <= (c + 1) * mu
  {
    assert (c + 1) * mu == c * mu + mu;
  }

  /** Between 1 and MuMaxDelay milliseconds for each delay command; only the last hop may have none. */
  lemma {:induction false} DelayBounds(path: seq<PathHop>, delays: seq<nat>, mu: nat, surb: Option<nat>, forward: bool, k: nat)
    requires Exact(path, delays, mu, surb, forward) && k <= |path|
    ensures DelayCount(path, k) == if k < |path| || k == 0 || (surb.Some? && forward) then k else k - 1
    ensures DelayCount(path, k) <= TotalDelay(path, k) <= DelayCount(path, k) * mu
  {
    if k > 0 {
      DelayBounds(path, delays, mu, surb, forward, k - 1);
      CountStep(DelayCount(path, k - 1), TotalDelay(path, k - 1), delays[k - 1], mu);
    }
  }

  /**
   * With 0 < MuMaxDelay < 2^32 the time returned is the base plus exactly the delays written into
   * the packet.
   */
  lemma {:induction false} EstimateIsExact(path: seq<PathHop>, delays: seq<nat>, mu: nat, surb: Option<nat>, forward: bool, k: nat)
    requires Exact(path, delays, mu, surb, forward) && mu < TWO32 && k <= |path|
    ensures Waited(delays, k, |path|, surb, forward) == 1_000_000 * TotalDelay(path, k)
  {
    if k > 0 { EstimateIsExact(path, delays, mu, surb, forward, k - 1); }
  }

  /**
   * The estimate agrees with the command for every possible draw if and only if MuMaxDelay is set
   * and below 2^32: otherwise the 32-bit delay command drops bits that the estimate keeps.
   */
  lemma DelayFitsIff(mu: nat)
    ensures (forall draw: nat :: draw < TWO64 - 1 ==>
               Milliseconds(HopDelay(draw, mu)) == 1_000_000 * Uint32(HopDelay(draw, mu)))
            <==> 0 < mu < TWO32
  {
    if 0 < mu < TWO32 {
      forall draw: nat | draw < TWO64 - 1
        ensures Milliseconds(HopDelay(draw, mu)) == 1_000_000 * Uint32(HopDelay(draw, mu))
      {
        assert HopDelay(draw, mu) < TWO32;
      }
    } else {
      var draw: nat := TWO32 - 1;
      assert HopDelay(draw, mu) == TWO32;
      assert Milliseconds(TWO32) == 1_000_000 * TWO32;
    }
  }
}
