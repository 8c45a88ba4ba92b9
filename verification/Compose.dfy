/**
 * Composing a packet (minclient/send.go): a forward path, for a SURB also a reply path that starts
 * when the forward one ends, and a retry loop around both.  Clock readings, documents and the
 * results of the cryptography are given for each turn of the loop.
 */
module Compose {
  import opened Basics
  import opened Path

  type Byte = b: nat | b < 256

  /** Library constants. */
  datatype Params = Params(
    providerLayer: nat, period: nat, surbLength: nat, recipientLength: nat, payloadLength: nat)

  /** What one turn of the retry loop sees; None stands for a failed lookup or call. */
  datatype Turn = Turn(
    unixTime: int, epoch: Option<Epoch>, fwdDoc: Option<Document>, revDoc: Option<Document>,
    took: int, budget: int, surb: Option<seq<Byte>>, packetOk: bool)

  datatype Error = BadRecipient | BadSize | NoEpoch | NoDocument | NoProvider | NoPath(err: PathError) | CryptoFailed

  datatype Made = MadePath(path: seq<PathHop>, arrival: int) | NotMade(err: Error)

  /** The ingredients handed to the Sphinx library: both paths and the framed payload. */
  datatype Packet = Packet(fwd: seq<PathHop>, rev: seq<PathHop>, payload: seq<Byte>)

  datatype Attempt = Failed(err: Error) | Straddled | TooLong | Composed(packet: Packet, eta: int)

  // ----- framing

  function Zeros(n: nat): seq<Byte> {
    seq(n, _ => 0)
  }

  function Frame(surbLength: nat, surb: Option<seq<Byte>>, b: seq<Byte>): seq<Byte> {
    if surb.None? then Zeros(2 + surbLength) + b else [1, 0] + surb.value + b
  }

  /** Flag, SURB and ciphertext can be told apart again, and the length does not tell whether there is a SURB. */
  lemma FrameRoundTrip(surbLength: nat, surb: Option<seq<Byte>>, b: seq<Byte>)
    requires surb.Some? ==> |surb.value| == surbLength
    ensures var f := Frame(surbLength, surb, b);
            && |f| == 2 + surbLength + |b|
            && (f[0] == 1 <==> surb.Some?) && f[1] == 0
            && (surb.None? ==> forall i :: 0 <= i < 2 + surbLength ==> f[i] == 0)
            && f[2 + surbLength..] == b
            && (surb.Some? ==> f[2..2 + surbLength] == surb.value)
  {
    var f := Frame(surbLength, surb, b);
    if surb.Some? {
      assert f[2..] == surb.value + b;
    }
  }

  // ----- one path

  /** `count` delay commands, together exactly the time from `base` to `arrival`. */
  ghost predicate Timed(path: seq<PathHop>, mu: nat, base: int, arrival: int, count: nat) {
    var ms := TotalDelay(path, |path|);
    && arrival == base + 1_000_000 * ms
    && DelayCount(path, |path|) == count
    && count <= ms <= count * mu
  }

  /** A document whose topology stays below the provider layer and whose delay limit fits 32 bits. */
  predicate Usable(p: Params, doc: Option<Document>) {
    doc.Some? && |doc.value.topology| <= p.providerLayer && 0 < doc.value.muMaxDelay < TWO32
  }

  lemma NewPathTimed(p: Params, r: PathResult, doc: Document, rq: Request, recipient: Name, surb: Option<nat>, base: int,
                     epoch: Epoch, k: nat, descs: seq<Node>, delays: seq<nat>)
    requires r.NewPathOk? && Usable(p, Some(doc)) && rq.fromClient && rq.dst.layer == p.providerLayer
    requires NewPathSpec(r, p.providerLayer, doc, rq, recipient, surb, base, epoch, k, descs, delays)
    ensures var layers := |doc.topology|;
            Timed(r.path, doc.muMaxDelay, base, r.arrival,
                  if !rq.forward then layers else if surb.Some? then layers + 2 else layers + 1)
  {
    ClientCrossesAll(p.providerLayer, doc.topology, rq, descs);
    PathIsExact(r.path, descs, EpochAfter(epoch, k), delays, doc.muMaxDelay, recipient, surb, rq.forward);
    ExactIsTimed(r.path, delays, doc.muMaxDelay, surb, rq.forward, base, r.arrival);
  }

  lemma ExactIsTimed(path: seq<PathHop>, delays: seq<nat>, mu: nat, surb: Option<nat>, forward: bool, base: int, arrival: int)
    requires Exact(path, delays, mu, surb, forward) && mu < TWO32 && path != []
    requires arrival == base + Waited(delays, |delays|, |delays|, surb, forward)
    ensures Timed(path, mu, base, arrival, if surb.Some? && forward then |path| else |path| - 1)
  {
    DelayBounds(path, delays, mu, surb, forward, |path|);
    EstimateIsExact(path, delays, mu, surb, forward, |path|);
  }

  /** What a client asks of NewPath: from its own provider to the other one, or back. */
  function ClientRequest(doc: Document, own: Name, provider: Name, forward: bool): Request
    requires own in doc.providers && provider in doc.providers
  {
    if forward then Request(doc.providers[own], doc.providers[provider], true, true)
    else Request(doc.providers[provider], doc.providers[own], true, false)
  }

  predicate Listed(doc: Option<Document>, own: Name, provider: Name) {
    doc.Some? && own in doc.value.providers && provider in doc.value.providers
  }

  /** The cause of each error of makePath; two causes exclude each other. */
  ghost predicate PathFails(p: Params, own: Name, provider: Name, forward: bool, doc: Option<Document>, epoch: Epoch, err: Error) {
    match err
    case NoDocument => doc.None?
    case NoProvider => doc.Some? && !Listed(doc, own, provider)
    case NoPath(e) =>
      Listed(doc, own, provider) &&
      NewPathFails(p.providerLayer, doc.value.topology, ClientRequest(doc.value, own, provider, forward), epoch, e)
    case _ => false
  }

  lemma PathCauses(p: Params, own: Name, provider: Name, forward: bool, doc: Option<Document>, epoch: Epoch, e: Error, f: Error)
    requires PathFails(p, own, provider, forward, doc, epoch, e) && PathFails(p, own, provider, forward, doc, epoch, f)
    ensures e == f
  {
    if e.NoPath? {
      var topology, rq := doc.value.topology, ClientRequest(doc.value, own, provider, forward);
      if e.err.Select? {
        CauseExcludesCrossing(p.providerLayer, topology, rq, e.err.err);
        if f.err.Select? { SelectCauses(p.providerLayer, topology, rq, [], e.err.err, f.err.err); }
      } else if f.err.Select? {
        CauseExcludesCrossing(p.providerLayer, topology, rq, f.err.err);
      }
    }
  }

  lemma CauseExcludesCrossing(providerLayer: nat, topology: seq<seq<Node>>, rq: Request, e: SelectError)
    requires SelectFails(providerLayer, topology, rq, e)
    ensures !(ValidRequest(providerLayer, |topology|, rq) && exists hops :: Crosses(providerLayer, topology, rq, hops))
  {
    forall hops: seq<Node>
      ensures !(ValidRequest(providerLayer, |topology|, rq) && Crosses(providerLayer, topology, rq, hops))
    {
      SelectCauses(providerLayer, topology, rq, hops, e, e);
    }
  }

  /** Made, and could be: every cause other than missing keys is absent, and some attempt found all its keys. */
  ghost predicate PathMade(p: Params, own: Name, provider: Name, forward: bool, doc: Option<Document>, epoch: Epoch) {
    Listed(doc, own, provider) &&
    var topology, rq := doc.value.topology, ClientRequest(doc.value, own, provider, forward);
    && ValidRequest(p.providerLayer, |topology|, rq)
    && (exists hops :: Crosses(p.providerLayer, topology, rq, hops))
    && (exists k: nat :: k < MAX_ATTEMPTS && Keyable(p.providerLayer, topology, rq, EpochAfter(epoch, k)))
  }

  /** The path and its arrival time are what NewPath makes for this request, from the time `base` on. */
  ghost predicate PathFrom(p: Params, own: Name, recipient: Name, provider: Name, surb: Option<nat>, base: int, forward: bool,
                           doc: Option<Document>, epoch: Epoch, path: seq<PathHop>, arrival: int)
  {
    Listed(doc, own, provider) &&
    exists k, descs, delays ::
      NewPathSpec(NewPathOk(path, arrival), p.providerLayer, doc.value, ClientRequest(doc.value, own, provider, forward),
                  recipient, surb, base, epoch, k, descs, delays)
  }

  lemma PathFromIsMade(p: Params, own: Name, recipient: Name, provider: Name, surb: Option<nat>, base: int, forward: bool,
                       doc: Option<Document>, epoch: Epoch, path: seq<PathHop>, arrival: int)
    requires PathFrom(p, own, recipient, provider, surb, base, forward, doc, epoch, path, arrival)
    ensures PathMade(p, own, provider, forward, doc, epoch)
  {
  }

  lemma PathFromIsTimed(p: Params, own: Name, recipient: Name, provider: Name, surb: Option<nat>, base: int, forward: bool,
                        doc: Option<Document>, epoch: Epoch, path: seq<PathHop>, arrival: int)
    requires PathFrom(p, own, recipient, provider, surb, base, forward, doc, epoch, path, arrival)
    requires Usable(p, doc) && (forward || doc.value.providers[own].layer == p.providerLayer)
    ensures doc.value.providers[own].layer == p.providerLayer
    ensures var layers := |doc.value.topology|;
            Timed(path, doc.value.muMaxDelay, base, arrival,
                  if !forward then layers else if surb.Some? then layers + 2 else layers + 1)
  {
    var rq := ClientRequest(doc.value, own, provider, forward);
    var k, descs, delays :|
      NewPathSpec(NewPathOk(path, arrival), p.providerLayer, doc.value, rq, recipient, surb, base, epoch, k, descs, delays);
    NewPathTimed(p, NewPathOk(path, arrival), doc.value, rq, recipient, surb, base, epoch, k, descs, delays);
  }

  /**
   * makePath: it fails exactly for a cause, the choice of nodes mattering only where keys are
   * missing; a path made is NewPath's for the request, and timed by its own delay commands.
   */
  method MakePath(p: Params, own: Name, recipient: Name, provider: Name, surb: Option<nat>, base: int, forward: bool,
                  doc: Option<Document>, epoch: Epoch)
    returns (r: Made)
    requires epoch < TWO64
    ensures r.NotMade? ==> PathFails(p, own, provider, forward, doc, epoch, r.err)
    ensures r.MadePath? ==> PathMade(p, own, provider, forward, doc, epoch)
    ensures r.MadePath? ==> PathFrom(p, own, recipient, provider, surb, base, forward, doc, epoch, r.path, r.arrival)
    ensures r.MadePath? && Usable(p, doc) && doc.value.providers[own].layer == p.providerLayer ==>
              var layers := |doc.value.topology|;
              Timed(r.path, doc.value.muMaxDelay, base, r.arrival,
                    if !forward then layers else if surb.Some? then layers + 2 else layers + 1)
  {
    var srcProvider, dstProvider := own, provider;
    if !forward { srcProvider, dstProvider := dstProvider, srcProvider; }
    if doc.None? { return NotMade(NoDocument); }
    var d := doc.value;
    if srcProvider !in d.providers || dstProvider !in d.providers { return NotMade(NoProvider); }
    var rq := Request(d.providers[srcProvider], d.providers[dstProvider], true, forward);
    assert rq == ClientRequest(d, own, provider, forward);
    var np, k, descs, delays := NewPath(p.providerLayer, d, recipient, rq, surb, base, epoch);
    match np {
      case NewPathErr(e) => return NotMade(NoPath(e));
      case NewPathOk(path, arrival) =>
        assert PathFrom(p, own, recipient, provider, surb, base, forward, doc, epoch, path, arrival);
        PathFromIsMade(p, own, recipient, provider, surb, base, forward, doc, epoch, path, arrival);
        if Usable(p, doc) && d.providers[own].layer == p.providerLayer {
          PathFromIsTimed(p, own, recipient, provider, surb, base, forward, doc, epoch, path, arrival);
        }
        return MadePath(path, arrival);
    }
  }

  /** Every cause but missing keys is certain: no path is made under it, and no other error reported. */
  lemma CertainFailure(p: Params, own: Name, provider: Name, forward: bool, doc: Option<Document>, epoch: Epoch, e: Error)
    requires PathFails(p, own, provider, forward, doc, epoch, e) && e != NoPath(MaxAttempts)
    ensures !PathMade(p, own, provider, forward, doc, epoch)
    ensures forall f :: PathFails(p, own, provider, forward, doc, epoch, f) ==> f == e
  {
    forall f | PathFails(p, own, provider, forward, doc, epoch, f) ensures f == e {
      PathCauses(p, own, provider, forward, doc, epoch, f, e);
    }
    if e.NoPath? {
      CauseExcludesCrossing(p.providerLayer, doc.value.topology, ClientRequest(doc.value, own, provider, forward), e.err.err);
    }
  }

  // ----- one turn of the retry loop

  /** Go's Time.Sub saturates at the ends of int64. */
  function Saturate(x: int): (r: int)
    ensures -TWO63 <= r < TWO63 && (-TWO63 <= x < TWO63 ==> r == x)
    ensures (x >= TWO63 ==> r == TWO63 - 1) && (x < -TWO63 ==> r == -TWO63)
  {
    if x >= TWO63 then TWO63 - 1 else if x < -TWO63 then -TWO63 else x
  }

  /** How many delay commands a packet carries on both paths together. */
  function DelayTotal(layers: nat, withSurb: bool): nat {
    if withSurb then 2 * layers + 2 else layers + 1
  }

  /** The document both path calls see, usable as above. */
  predicate Steady(p: Params, t: Turn, withSurb: bool) {
    Usable(p, t.fwdDoc) && (withSurb ==> t.revDoc == t.fwdDoc)
  }

  ghost predicate Estimated(p: Params, t: Turn, withSurb: bool, packet: Packet, eta: int)
    requires Steady(p, t, withSurb)
  {
    var n, mu := DelayTotal(|t.fwdDoc.value.topology|, withSurb), t.fwdDoc.value.muMaxDelay;
    var ms := TotalDelay(packet.fwd, |packet.fwd|) + TotalDelay(packet.rev, |packet.rev|);
    && DelayCount(packet.fwd, |packet.fwd|) + DelayCount(packet.rev, |packet.rev|) == n
    && n <= ms <= n * mu
    && eta == 1_000_000 * ms
  }

  /** What is to be sent, from whom and to whom, and the SURB ID if a reply is wanted. */
  datatype Job = Job(own: Name, user: Name, recipient: Name, provider: Name, surbId: Option<nat>, b: seq<Byte>) {
    predicate WithSurb() { surbId.Some? }
  }

  function ClockTime(t: Turn): int {
    t.unixTime * 1_000_000_000
  }

  /** Both paths were made, given what the two calls of makePath returned. */
  predicate BothMade(t: Turn, withSurb: bool, fwd: Made, back: Made) {
    t.epoch.Some? && fwd.MadePath? && (withSurb ==> back.MadePath?)
  }

  /** The time from the turn's clock reading to the end of the last path. */
  function Elapsed(t: Turn, withSurb: bool, fwd: Made, back: Made): int
    requires BothMade(t, withSurb, fwd, back)
  {
    (if withSurb then back.arrival else fwd.arrival) - ClockTime(t)
  }

  /** What one call of makePath returns: an error only for its cause, or a path to `recipient` from the time `base` on. */
  ghost predicate MadeFor(p: Params, job: Job, forward: bool, recipient: Name, base: int, doc: Option<Document>, epoch: Epoch, m: Made) {
    if m.NotMade? then PathFails(p, job.own, job.provider, forward, doc, epoch, m.err)
    else PathFrom(p, job.own, recipient, job.provider, job.surbId, base, forward, doc, epoch, m.path, m.arrival)
  }

  /** Both calls of makePath: to the recipient from the turn's clock reading, and back to the user from the arrival there. */
  ghost predicate Tried(p: Params, job: Job, t: Turn, fwd: Made, back: Made)
    requires t.epoch.Some?
  {
    && MadeFor(p, job, true, job.recipient, ClockTime(t), t.fwdDoc, t.epoch.value, fwd)
    && (job.WithSurb() && fwd.MadePath? ==>
          MadeFor(p, job, false, job.user, fwd.arrival, t.revDoc, t.epoch.value, back))
  }

  predicate CryptoOk(t: Turn, withSurb: bool) {
    t.packetOk && (withSurb ==> t.surb.Some?)
  }

  /** The cause of each failure of a turn. */
  ghost predicate TurnFails(p: Params, job: Job, t: Turn, err: Error) {
    match err
    case NoEpoch => t.epoch.None?
    case CryptoFailed => t.epoch.Some? && t.took <= t.budget && !CryptoOk(t, job.WithSurb())
    case _ =>
      t.epoch.Some? &&
      (PathFails(p, job.own, job.provider, true, t.fwdDoc, t.epoch.value, err) ||
       (job.WithSurb() && PathFails(p, job.own, job.provider, false, t.revDoc, t.epoch.value, err)))
  }

  /** The packet made from these two paths, with the time to the end of the last one as its estimate. */
  ghost predicate ComposedFrom(p: Params, job: Job, t: Turn, fwd: Made, back: Made, packet: Packet, eta: int) {
    && BothMade(t, job.WithSurb(), fwd, back) && Tried(p, job, t, fwd, back)
    && t.took <= t.budget && CryptoOk(t, job.WithSurb())
    && packet.fwd == fwd.path
    && packet.rev == (if job.WithSurb() then back.path else [])
    && packet.payload == Frame(p.surbLength, if job.WithSurb() then t.surb else None, job.b)
    && eta == Saturate(Elapsed(t, job.WithSurb(), fwd, back))
    && eta < 2 * p.period
  }

  /** The two calls of makePath in one turn. */
  method MakePaths(p: Params, job: Job, t: Turn) returns (fwd: Made, back: Made)
    requires t.epoch.Some? && t.epoch.value < TWO64
    ensures Tried(p, job, t, fwd, back)
  {
    fwd := MakePath(p, job.own, job.recipient, job.provider, job.surbId, ClockTime(t), true, t.fwdDoc, t.epoch.value);
    back := fwd;
    if fwd.MadePath? && job.WithSurb() {
      back := MakePath(p, job.own, job.user, job.provider, job.surbId, fwd.arrival, false, t.revDoc, t.epoch.value);
    }
  }

  /** The estimate of two paths made from one usable document. */
  lemma TriedIsEstimated(p: Params, job: Job, t: Turn, fwd: Made, back: Made, packet: Packet)
    requires BothMade(t, job.WithSurb(), fwd, back) && Tried(p, job, t, fwd, back) && Steady(p, t, job.WithSurb())
    requires packet.fwd == fwd.path && packet.rev == if job.WithSurb() then back.path else []
    ensures Estimated(p, t, job.WithSurb(), packet, Elapsed(t, job.WithSurb(), fwd, back))
  {
    PathFromIsTimed(p, job.own, job.recipient, job.provider, job.surbId, ClockTime(t), true, t.fwdDoc, t.epoch.value,
                    fwd.path, fwd.arrival);
    if job.WithSurb() {
      PathFromIsTimed(p, job.own, job.user, job.provider, job.surbId, fwd.arrival, false, t.revDoc, t.epoch.value,
                      back.path, back.arrival);
      RoundTrip(p, t, true, packet, ClockTime(t), fwd.arrival, back.arrival);
    } else {
      RoundTrip(p, t, false, packet, ClockTime(t), fwd.arrival, fwd.arrival);
    }
  }

  /** An estimate that reaches the limit needs delays that can. */
  lemma TooLongFor(p: Params, t: Turn, withSurb: bool, packet: Packet, elapsed: int)
    requires Steady(p, t, withSurb) && Estimated(p, t, withSurb, packet, elapsed) && elapsed >= 2 * p.period
    ensures !InTime(p, t, withSurb)
  {
  }

  /** Saturation does not matter below the limit. */
  lemma InTimeIsExact(p: Params, t: Turn, withSurb: bool, packet: Packet, elapsed: int)
    requires Steady(p, t, withSurb) && Estimated(p, t, withSurb, packet, elapsed)
    requires 2 * p.period < TWO63 && Saturate(elapsed) < 2 * p.period
    ensures Saturate(elapsed) == elapsed
  {
  }

  /** What the estimate means, if both path calls see one document with 0 < MuMaxDelay < 2^32. */
  lemma ComposedIsEstimated(p: Params, job: Job, t: Turn, fwd: Made, back: Made, packet: Packet, eta: int)
    requires ComposedFrom(p, job, t, fwd, back, packet, eta) && Steady(p, t, job.WithSurb()) && 2 * p.period < TWO63
    ensures Estimated(p, t, job.WithSurb(), packet, eta)
  {
    TriedIsEstimated(p, job, t, fwd, back, packet);
    InTimeIsExact(p, t, job.WithSurb(), packet, Elapsed(t, job.WithSurb(), fwd, back));
  }

  /** The end of a turn, once both paths are there. */
  method Finish(p: Params, job: Job, t: Turn, there: Made, again: Made) returns (o: Attempt)
    requires 2 * p.period < TWO63 && BothMade(t, job.WithSurb(), there, again) && Tried(p, job, t, there, again)
    ensures o == Straddled <==> t.took > t.budget
    ensures o == TooLong <==> t.took <= t.budget && Elapsed(t, job.WithSurb(), there, again) >= 2 * p.period
    ensures o == Failed(CryptoFailed) <==>
              && t.took <= t.budget && Elapsed(t, job.WithSurb(), there, again) < 2 * p.period
              && !CryptoOk(t, job.WithSurb())
    ensures o.Failed? ==> o.err == CryptoFailed
    ensures o.Composed? ==> ComposedFrom(p, job, t, there, again, o.packet, o.eta)
  {
    if t.took > t.budget { return Straddled; }
    var arrival := if job.WithSurb() then again.arrival else there.arrival;
    var eta := Saturate(arrival - ClockTime(t));
    if eta >= 2 * p.period { return TooLong; }
    if job.WithSurb() {
      if t.surb.None? || !t.packetOk { return Failed(CryptoFailed); }
      return Composed(Packet(there.path, again.path, [1, 0] + t.surb.value + job.b), eta);
    } else {
      if !t.packetOk { return Failed(CryptoFailed); }
      return Composed(Packet(there.path, [], Zeros(2 + p.surbLength) + job.b), eta);
    }
  }

  /**
   * One turn, `fwd` and `back` being what its two calls of makePath return.  It ends in each way
   * exactly if: no epoch; no forward path; no reply path; path selection took longer than the
   * budget; the delays reach twice the epoch period; the cryptography fails; or else it composes.
   * The packet then consists of a path to the recipient, with a SURB also of one back to the user
   * that starts when the first ends, and of the SURB's frame; its estimate is the time to the end
   * of the last path.  If both path calls see one document with 0 < MuMaxDelay < 2^32, that is the
   * sum of all delay commands on both paths, 2L+2 of them (L+1 without a SURB), and the delay test
   * can only fail if that many maximal delays reach the limit.
   */
  method ComposeOnce(p: Params, job: Job, t: Turn) returns (o: Attempt, ghost fwd: Made, ghost back: Made)
    requires 2 * p.period < TWO63
    requires t.epoch.Some? ==> t.epoch.value < TWO64
    ensures o == Failed(NoEpoch) <==> t.epoch.None?
    ensures t.epoch.Some? ==> Tried(p, job, t, fwd, back)
    ensures t.epoch.Some? && fwd.NotMade? ==> o == Failed(fwd.err)
    ensures t.epoch.Some? && fwd.MadePath? && job.WithSurb() && back.NotMade? ==> o == Failed(back.err)
    ensures o == Straddled <==> BothMade(t, job.WithSurb(), fwd, back) && t.took > t.budget
    ensures o == TooLong <==>
              && BothMade(t, job.WithSurb(), fwd, back) && t.took <= t.budget
              && Elapsed(t, job.WithSurb(), fwd, back) >= 2 * p.period
    ensures o == Failed(CryptoFailed) <==>
              && BothMade(t, job.WithSurb(), fwd, back) && t.took <= t.budget
              && Elapsed(t, job.WithSurb(), fwd, back) < 2 * p.period && !CryptoOk(t, job.WithSurb())
    ensures o.Failed? ==> TurnFails(p, job, t, o.err)
    ensures o.Composed? ==> ComposedFrom(p, job, t, fwd, back, o.packet, o.eta)
    ensures o.Composed? && Steady(p, t, job.WithSurb()) ==> Estimated(p, t, job.WithSurb(), o.packet, o.eta)
    ensures o.TooLong? ==> !InTime(p, t, job.WithSurb())
  {
    fwd, back := NotMade(NoEpoch), NotMade(NoEpoch);
    if t.epoch.None? { return Failed(NoEpoch), fwd, back; }
    var there, again := MakePaths(p, job, t);
    fwd, back := there, again;
    if there.NotMade? { return Failed(there.err), fwd, back; }
    if job.WithSurb() && again.NotMade? { return Failed(again.err), fwd, back; }
    o := Finish(p, job, t, there, again);
    if Steady(p, t, job.WithSurb()) {
      if o.Composed? { ComposedIsEstimated(p, job, t, fwd, back, o.packet, o.eta); }
      if o.TooLong? {
        ghost var packet := Packet(fwd.path, if job.WithSurb() then back.path else [], []);
        TriedIsEstimated(p, job, t, fwd, back, packet);
        TooLongFor(p, t, job.WithSurb(), packet, Elapsed(t, job.WithSurb(), fwd, back));
      }
    }
  }

  lemma AddDelays(c: nat, d: nat, x: nat, y: nat, mu: nat)
    requires c <= x <= c * mu && d <= y <= d * mu
    ensures c + d <= x + y <= (c + d) * mu
  {
    assert (c + d) * mu == c * mu + d * mu;
  }

  lemma RoundTrip(p: Params, t: Turn, withSurb: bool, packet: Packet, now: int, mid: int, arrival: int)
    requires Steady(p, t, withSurb)
    requires var layers, mu := |t.fwdDoc.value.topology|, t.fwdDoc.value.muMaxDelay;
             && Timed(packet.fwd, mu, now, mid, if withSurb then layers + 2 else layers + 1)
             && (if withSurb then Timed(packet.rev, mu, mid, arrival, layers) else packet.rev == [] && arrival == mid)
    ensures Estimated(p, t, withSurb, packet, arrival - now)
  {
    var mu := t.fwdDoc.value.muMaxDelay;
    var x, y := TotalDelay(packet.fwd, |packet.fwd|), TotalDelay(packet.rev, |packet.rev|);
    var c, d := DelayCount(packet.fwd, |packet.fwd|), DelayCount(packet.rev, |packet.rev|);
    AddDelays(c, d, x, y, mu);
    assert c + d == DelayTotal(|t.fwdDoc.value.topology|, withSurb);
  }

  // ----- the retry loop

  /** A turn that is redone: too slow, or with delays that can reach the limit. */
  predicate Redone(p: Params, t: Turn, withSurb: bool) {
    t.epoch.Some? && (t.took > t.budget || !InTime(p, t, withSurb))
  }

  /**
   * ComposeSphinxPacket over any sequence of turns: malformed input fails before any path is made;
   * otherwise the last turn taken gives the result, a packet composed from that turn's two paths or
   * a failure for that turn's cause, and every turn before it was redone for a reason.  If
   * MuMaxDelay keeps the longest possible round trip under the limit the delay test never costs a turn.
   */
  method ComposeSphinxPacket(p: Params, job: Job, recipientLength: nat, turns: seq<Turn>)
    returns (o: Option<Attempt>, last: nat, tooLong: nat, ghost fwd: Made, ghost back: Made)
    requires 2 * p.period < TWO63
    requires forall i :: 0 <= i < |turns| && turns[i].epoch.Some? ==> turns[i].epoch.value < TWO64
    ensures o == Some(Failed(BadRecipient)) <==> recipientLength > p.recipientLength
    ensures o == Some(Failed(BadSize)) <==> recipientLength <= p.recipientLength && |job.b| != p.payloadLength
    ensures o.Some? ==> o.value.Failed? || o.value.Composed?
    ensures o.Some? && o.value.Failed? && o.value.err != BadRecipient && o.value.err != BadSize ==>
              last < |turns| && TurnFails(p, job, turns[last], o.value.err)
    ensures o.Some? && o.value.Composed? ==>
              && last < |turns|
              && ComposedFrom(p, job, turns[last], fwd, back, o.value.packet, o.value.eta)
              && (Steady(p, turns[last], job.WithSurb()) ==>
                    Estimated(p, turns[last], job.WithSurb(), o.value.packet, o.value.eta))
    ensures last <= |turns| && (o.None? ==> last == |turns|)
    ensures forall i :: 0 <= i < last ==> Redone(p, turns[i], job.WithSurb())
    ensures (forall i :: 0 <= i < |turns| ==> InTime(p, turns[i], job.WithSurb())) ==> tooLong == 0
  {
    last, tooLong := 0, 0;
    fwd, back := NotMade(NoEpoch), NotMade(NoEpoch);
    if recipientLength > p.recipientLength { return Some(Failed(BadRecipient)), last, tooLong, fwd, back; }
    if |job.b| != p.payloadLength { return Some(Failed(BadSize)), last, tooLong, fwd, back; }
    while last < |turns|
      invariant last <= |turns|
      invariant forall i :: 0 <= i < last ==> Redone(p, turns[i], job.WithSurb())
      invariant (forall j :: 0 <= j < |turns| ==> InTime(p, turns[j], job.WithSurb())) ==> tooLong == 0
    {
      var a;
      a, fwd, back := ComposeOnce(p, job, turns[last]);
      match a {
        case Straddled =>
        case TooLong => tooLong := tooLong + 1;
        case Failed(_) => return Some(a), last, tooLong, fwd, back;
        case Composed(_, _) => return Some(a), last, tooLong, fwd, back;
      }
      last := last + 1;
    }
    o := None;
  }

  /** The longest possible round trip of this turn's document is under the limit. */
  predicate InTime(p: Params, t: Turn, withSurb: bool) {
    Steady(p, t, withSurb) &&
    1_000_000 * (DelayTotal(|t.fwdDoc.value.topology|, withSurb) * t.fwdDoc.value.muMaxDelay) < 2 * p.period
  }
}
