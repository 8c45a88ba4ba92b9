/**
 * The connect loop around the wire loop (minclient/connection.go): descriptor lookup, dialling,
 * reconnection, the status callback, and the back-off shared with the peer reader.
 */
module Connection {
  import opened Basics
  import WireLoop

  type Error = nat

  type Name = nat
  type Key = nat

  /** A provider as the PKI lists it, with the number of addresses on acceptable transports. */
  datatype Descriptor = Descriptor(identityKey: Key, linkKey: Key, addresses: nat)
  datatype Document = Document(epoch: nat, providers: map<Name, Descriptor>)
  datatype Config = Config(provider: Name, keyPin: Option<Key>)

  datatype PkiCause = NoDocument | NotListed | PinMismatch

  datatype Reason =
    | NotConnected | Shutdown | NoAddresses | PkiError(cause: PkiCause) | ConnectError(err: Error)
    | NotAuthenticated
    | Wire(reason: WireLoop.Reason)

  /** One call of the status callback. */
  datatype Note = Up | Down(reason: Reason)

  /** The keys the peer has shown. */
  datatype Peer = Peer(identityKey: Key, linkKey: Key)

  /** The peer's authentication during the handshake, with the document current at that moment. */
  datatype Auth = Auth(peer: Peer, doc: Option<Document>)

  /** An event of the wire loop; a received command comes with the document current at that moment. */
  datatype Input = Other(ev: WireLoop.Event) | Received(cmd: WireLoop.Command, peer: Option<Peer>, doc: Option<Document>)

  /** What happens to one candidate address. */
  datatype Dial =
    | HaltedWaiting | HaltedDialing | DialFailed(err: Error)
    | NoSession(err: Error)
    | NoHandshake(err: Error, tried: Option<Auth>)    // failed for another reason, before or after authentication
    | Established(auth: Auth, inputs: seq<Input>)     // up to the authentication, and on if that succeeds

  /** One pass of the connect loop: the document it finds, and what happens to each address it tries. */
  datatype Round = Round(doc: Option<Document>, dials: nat -> Dial)

  /** How far a scripted run got: it needs another pass, is still connected, or has returned. */
  datatype Ending = Again | Connected | Returned(reason: Reason)

  datatype Outcome = Outcome(notes: seq<Note>, ending: Ending)

  // ----- the cached descriptor

  datatype Cached = Cached(descriptor: Option<Descriptor>, epoch: nat)

  /** Why the provider's descriptor cannot be used, if it cannot. */
  function LookupError(cfg: Config, doc: Option<Document>): Option<PkiCause> {
    if doc.None? then Some(NoDocument)
    else if cfg.provider !in doc.value.providers then Some(NotListed)
    else if cfg.keyPin.Some? && cfg.keyPin.value != doc.value.providers[cfg.provider].identityKey then Some(PinMismatch)
    else None
  }

  /** What is cached after a lookup, whatever was before. */
  function Lookup(cfg: Config, doc: Option<Document>): Cached {
    if LookupError(cfg, doc).Some? then Cached(None, 0)
    else Cached(Some(doc.value.providers[cfg.provider]), doc.value.epoch)
  }

  predicate PeerValid(cfg: Config, doc: Option<Document>, peer: Peer) {
    LookupError(cfg, doc).None? &&
    var d := doc.value.providers[cfg.provider];
    d.identityKey == peer.identityKey && d.linkKey == peer.linkKey
  }

  /** What the wire loop sees of an input. */
  function AsEvent(cfg: Config, i: Input): WireLoop.Event {
    match i
    case Other(ev) => ev
    case Received(cmd, peer, doc) =>
      WireLoop.Receive(cmd, if peer.None? then WireLoop.Unavailable
                            else if PeerValid(cfg, doc, peer.value) then WireLoop.Listed else WireLoop.Unlisted)
  }

  function Events(cfg: Config, inputs: seq<Input>): seq<WireLoop.Event> {
    seq(|inputs|, i requires 0 <= i < |inputs| => AsEvent(cfg, inputs[i]))
  }

  /** Every received command whose peer can be read is a lookup. */
  function CachedAfter(cfg: Config, c: Cached, inputs: seq<Input>): Cached {
    if inputs == [] then c
    else
      var last := inputs[|inputs| - 1];
      if last.Received? && last.peer.Some? then Lookup(cfg, last.doc)
      else CachedAfter(cfg, c, inputs[..|inputs| - 1])
  }

  /** The inputs the wire loop gets to. */
  function Taken(cfg: Config, inputs: seq<Input>): seq<Input> {
    inputs[..WireLoop.Taken(Events(cfg, inputs))]
  }

  /** The connection is its own authenticator: the handshake makes the first lookup. */
  function DialCached(cfg: Config, c: Cached, d: Dial): Cached {
    match d
    case NoHandshake(_, auth) => if auth.Some? then Lookup(cfg, auth.value.doc) else c
    case Established(auth, inputs) =>
      var c1 := Lookup(cfg, auth.doc);
      if PeerValid(cfg, auth.doc, auth.peer) then CachedAfter(cfg, c1, Taken(cfg, inputs)) else c1
    case _ => c
  }

  function AddressCached(cfg: Config, c: Cached, dials: seq<Dial>): Cached {
    if dials == [] then c
    else if dials[0].DialFailed? then AddressCached(cfg, c, dials[1..])
    else DialCached(cfg, c, dials[0])
  }

  function Dials(cfg: Config, r: Round): seq<Dial>
    requires LookupError(cfg, r.doc).None?
  {
    seq(r.doc.value.providers[cfg.provider].addresses, i requires 0 <= i => r.dials(i))
  }

  function RoundCached(cfg: Config, r: Round): Cached {
    var c := Lookup(cfg, r.doc);
    if c.descriptor.None? then c
    else if Dials(cfg, r) == [] then c.(descriptor := None)
    else AddressCached(cfg, c, Dials(cfg, r))
  }

  function LoopCached(cfg: Config, c: Cached, rounds: seq<Round>): Cached
    decreases |rounds|
  {
    if rounds == [] then c
    else if RoundNotes(cfg, rounds[0]).ending == Again then LoopCached(cfg, RoundCached(cfg, rounds[0]), rounds[1..])
    else RoundCached(cfg, rounds[0])
  }

  // ----- the callbacks a script of events gives rise to

  function Prepend(notes: seq<Note>, o: Outcome): Outcome {
    Outcome(notes + o.notes, o.ending)
  }

  function DialNotes(cfg: Config, d: Dial): Outcome {
    match d
    case HaltedWaiting => Outcome([], Returned(Shutdown))
    case HaltedDialing => Outcome([], Returned(Shutdown))
    case DialFailed(err) => Outcome([Down(ConnectError(err))], Again)
    case NoSession(err) => Outcome([Down(ConnectError(err)), Down(NotConnected)], Again)
    case NoHandshake(err, _) => Outcome([Down(ConnectError(err)), Down(NotConnected)], Again)
    case Established(auth, inputs) =>
      if !PeerValid(cfg, auth.doc, auth.peer) then Outcome([Down(NotAuthenticated), Down(NotConnected)], Again) else
      var exit := WireLoop.Run(Events(cfg, inputs)).exit;
      if exit.None? then Outcome([Up], Connected)
      else Outcome([Up, Down(Wire(exit.value)), Down(NotConnected)], Again)
  }

  /** Addresses are tried in order until one gives a TCP connection. */
  function AddressNotes(cfg: Config, dials: seq<Dial>): Outcome {
    if dials == [] then Outcome([], Again)
    else if dials[0].DialFailed? then Prepend(DialNotes(cfg, dials[0]).notes, AddressNotes(cfg, dials[1..]))
    else DialNotes(cfg, dials[0])
  }

  function RoundNotes(cfg: Config, r: Round): Outcome {
    var err := LookupError(cfg, r.doc);
    if err.Some? then Outcome([], Returned(PkiError(err.value)))
    else if Dials(cfg, r) == [] then Outcome([], Returned(NoAddresses))
    else AddressNotes(cfg, Dials(cfg, r))
  }

  function LoopNotes(cfg: Config, rounds: seq<Round>): Outcome {
    if rounds == [] then Outcome([], Again)
    else
      var first := RoundNotes(cfg, rounds[0]);
      if first.ending == Again then Prepend(first.notes, LoopNotes(cfg, rounds[1..])) else first
  }

  /** The whole of doConnect: its loop, then the deferred callback with the reason. */
  function ConnectNotes(cfg: Config, rounds: seq<Round>): Outcome {
    var o := LoopNotes(cfg, rounds);
    if o.ending.Returned? then Outcome(o.notes + [Down(o.ending.reason)], o.ending) else o
  }

  // ----- what they say

  /** The callbacks of one address, by what happens to it. */
  lemma DialSays(cfg: Config, d: Dial)
    ensures d.HaltedWaiting? || d.HaltedDialing? ==> DialNotes(cfg, d) == Outcome([], Returned(Shutdown))
    ensures d.DialFailed? ==> DialNotes(cfg, d) == Outcome([Down(ConnectError(d.err))], Again)
    ensures d.NoSession? || d.NoHandshake? ==> DialNotes(cfg, d) == Outcome([Down(ConnectError(d.err)), Down(NotConnected)], Again)
    ensures d.Established? && !PeerValid(cfg, d.auth.doc, d.auth.peer) ==>
              DialNotes(cfg, d) == Outcome([Down(NotAuthenticated), Down(NotConnected)], Again)
    ensures d.Established? && PeerValid(cfg, d.auth.doc, d.auth.peer) ==>
              var log := WireLoop.LogOf(Events(cfg, d.inputs));
              DialNotes(cfg, d) ==
              if WireLoop.Over(log)
              then Outcome([Up, Down(Wire(log[|log| - 1].reason)), Down(NotConnected)], Again)
              else Outcome([Up], Connected)
  {
    if d.Established? {
      WireLoop.LogIs(Events(cfg, d.inputs));
      WireLoop.ExitIsLast(Events(cfg, d.inputs));
    }
  }

  /** A pass of the loop ends at once without a usable descriptor or without addresses. */
  lemma RoundSays(cfg: Config, r: Round)
    ensures LookupError(cfg, r.doc).Some? ==>
              && RoundNotes(cfg, r) == Outcome([], Returned(PkiError(LookupError(cfg, r.doc).value)))
              && RoundCached(cfg, r) == Cached(None, 0)
    ensures LookupError(cfg, r.doc).None? && r.doc.value.providers[cfg.provider].addresses == 0 ==>
              && RoundNotes(cfg, r) == Outcome([], Returned(NoAddresses))
              && RoundCached(cfg, r) == Cached(None, r.doc.value.epoch)
  {
  }

  /** A lookup made for a received command replaces what was cached; other events leave it. */
  lemma LookupReplaces(cfg: Config, c: Cached, inputs: seq<Input>, i: Input)
    ensures CachedAfter(cfg, c, inputs + [i]) ==
            if i.Received? && i.peer.Some? then Lookup(cfg, i.doc) else CachedAfter(cfg, c, inputs)
  {
    assert (inputs + [i])[..|inputs|] == inputs;
  }

  /** The reports of the first `k` addresses, each failing to dial. */
  function Failures(dials: seq<Dial>, k: nat): seq<Note>
    requires k <= |dials| && forall i :: 0 <= i < k ==> dials[i].DialFailed?
  {
    seq(k, i requires 0 <= i < k => Down(ConnectError(dials[i].err)))
  }

  lemma FailuresCons(dials: seq<Dial>, k: nat, more: seq<Note>)
    requires 0 < k <= |dials| && forall i :: 0 <= i < k ==> dials[i].DialFailed?
    ensures forall i :: 0 <= i < k - 1 ==> dials[1..][i].DialFailed?
    ensures [Down(ConnectError(dials[0].err))] + (Failures(dials[1..], k - 1) + more) == Failures(dials, k) + more
    ensures [Down(ConnectError(dials[0].err))] + Failures(dials[1..], k - 1) == Failures(dials, k)
  {
    assert forall i :: 0 <= i < k - 1 ==> dials[1..][i] == dials[i + 1];
    assert [Down(ConnectError(dials[0].err))] + Failures(dials[1..], k - 1) == Failures(dials, k);
  }

  /** Addresses are tried in order: each that fails to dial is reported, the first that does not is the last tried. */
  lemma {:induction false} AddressesInOrder(cfg: Config, dials: seq<Dial>, k: nat)
    requires k <= |dials| && forall i :: 0 <= i < k ==> dials[i].DialFailed?
    requires k < |dials| ==> !dials[k].DialFailed?
    ensures AddressNotes(cfg, dials) ==
            if k == |dials| then Outcome(Failures(dials, k), Again)
            else Outcome(Failures(dials, k) + DialNotes(cfg, dials[k]).notes, DialNotes(cfg, dials[k]).ending)
  {
    if k > 0 {
      FailuresCons(dials, k, if k < |dials| then DialNotes(cfg, dials[k]).notes else []);
      AddressesInOrder(cfg, dials[1..], k - 1);
    } else if dials == [] {
      assert Failures(dials, 0) == [];
    } else {
      assert Failures(dials, 0) + DialNotes(cfg, dials[0]).notes == DialNotes(cfg, dials[0]).notes;
    }
  }

  // ----- the same, going on from what has happened so far

  datatype Progress = Progress(notes: seq<Note>, ending: Ending, cached: Cached)

  function AddressesFrom(cfg: Config, so: seq<Note>, c: Cached, dials: seq<Dial>): Progress
    decreases |dials|
  {
    if dials == [] then Progress(so, Again, c)
    else
      var o := DialNotes(cfg, dials[0]);
      if dials[0].DialFailed? then AddressesFrom(cfg, so + o.notes, c, dials[1..])
      else Progress(so + o.notes, o.ending, DialCached(cfg, c, dials[0]))
  }

  lemma {:induction false} AddressesFromIs(cfg: Config, so: seq<Note>, c: Cached, dials: seq<Dial>)
    ensures var o := AddressNotes(cfg, dials);
            AddressesFrom(cfg, so, c, dials) == Progress(so + o.notes, o.ending, AddressCached(cfg, c, dials))
    decreases |dials|
  {
    if dials != [] && dials[0].DialFailed? {
      var here := DialNotes(cfg, dials[0]).notes;
      AddressesFromIs(cfg, so + here, c, dials[1..]);
      assert so + here + AddressNotes(cfg, dials[1..]).notes == so + (here + AddressNotes(cfg, dials[1..]).notes);
    }
  }

  function RoundsFrom(cfg: Config, so: seq<Note>, c: Cached, rounds: seq<Round>): Progress
    decreases |rounds|
  {
    if rounds == [] then Progress(so, Again, c)
    else
      var o := RoundNotes(cfg, rounds[0]);
      if o.ending == Again then RoundsFrom(cfg, so + o.notes, RoundCached(cfg, rounds[0]), rounds[1..])
      else Progress(so + o.notes, o.ending, RoundCached(cfg, rounds[0]))
  }

  lemma {:induction false} RoundsFromIs(cfg: Config, so: seq<Note>, c: Cached, rounds: seq<Round>)
    ensures var o := LoopNotes(cfg, rounds);
            RoundsFrom(cfg, so, c, rounds) == Progress(so + o.notes, o.ending, LoopCached(cfg, c, rounds))
    decreases |rounds|
  {
    if rounds != [] && RoundNotes(cfg, rounds[0]).ending == Again {
      var here := RoundNotes(cfg, rounds[0]).notes;
      RoundsFromIs(cfg, so + here, RoundCached(cfg, rounds[0]), rounds[1..]);
      assert so + here + LoopNotes(cfg, rounds[1..]).notes == so + (here + LoopNotes(cfg, rounds[1..]).notes);
    }
  }

  // ----- what they always satisfy

  /** No "connected" is followed by another without a disconnect in between. */
  predicate Alternating(notes: seq<Note>) {
    forall i :: 0 <= i < |notes| - 1 && notes[i].Up? ==> notes[i + 1].Down?
  }

  predicate EndsUp(notes: seq<Note>) {
    notes != [] && notes[|notes| - 1].Up?
  }

  ghost predicate Clean(o: Outcome) {
    && Alternating(o.notes)
    && (EndsUp(o.notes) <==> o.ending == Connected)
  }

  lemma CleanPrepend(notes: seq<Note>, o: Outcome)
    requires Alternating(notes) && !EndsUp(notes) && Clean(o)
    ensures Clean(Prepend(notes, o))
  {
    var all := notes + o.notes;
    forall i | 0 <= i < |all| - 1 && all[i].Up? ensures all[i + 1].Down? {
      if i + 1 < |notes| {
        assert notes[i].Up?;
      } else if i >= |notes| {
        assert o.notes[i - |notes|].Up?;
      }
    }
  }

  lemma {:induction false} AddressesClean(cfg: Config, dials: seq<Dial>)
    ensures Clean(AddressNotes(cfg, dials))
  {
    if dials != [] && dials[0].DialFailed? {
      AddressesClean(cfg, dials[1..]);
      CleanPrepend(DialNotes(cfg, dials[0]).notes, AddressNotes(cfg, dials[1..]));
    }
  }

  lemma {:induction false} LoopClean(cfg: Config, rounds: seq<Round>)
    ensures Clean(LoopNotes(cfg, rounds))
  {
    if rounds != [] {
      if LookupError(cfg, rounds[0].doc).None? { AddressesClean(cfg, Dials(cfg, rounds[0])); }
      LoopClean(cfg, rounds[1..]);
      if RoundNotes(cfg, rounds[0]).ending == Again {
        CleanPrepend(RoundNotes(cfg, rounds[0]).notes, LoopNotes(cfg, rounds[1..]));
      }
    }
  }

  /**
   * Over every run of the connect loop: between two "connected" callbacks there is a
   * disconnect, the last callback says "connected" exactly while the wire loop is running, and a
   * return always reports its reason in the last callback.
   */
  lemma StatusAlternates(cfg: Config, rounds: seq<Round>)
    ensures var o := ConnectNotes(cfg, rounds);
            && Clean(o)
            && (o.ending.Returned? ==> o.notes != [] && o.notes[|o.notes| - 1] == Down(o.ending.reason))
  {
    LoopClean(cfg, rounds);
    var o := LoopNotes(cfg, rounds);
    if o.ending.Returned? { CleanPrepend(o.notes, Outcome([Down(o.ending.reason)], o.ending)); }
  }

  // ----- while connected the descriptor is there

  /** The provider's descriptor, for which the configured pin holds. */
  predicate Pinned(cfg: Config, c: Cached) {
    c.descriptor.Some? && (cfg.keyPin.Some? ==> c.descriptor.value.identityKey == cfg.keyPin.value)
  }

  lemma EventsPrefix(cfg: Config, inputs: seq<Input>)
    requires inputs != []
    ensures Events(cfg, inputs)[..|inputs| - 1] == Events(cfg, inputs[..|inputs| - 1])
  {
  }

  lemma {:induction false} StaysPinned(cfg: Config, c: Cached, inputs: seq<Input>)
    requires Pinned(cfg, c) && WireLoop.Run(Events(cfg, inputs)).exit.None?
    ensures Pinned(cfg, CachedAfter(cfg, c, inputs))
  {
    if inputs != [] {
      EventsPrefix(cfg, inputs);
      StaysPinned(cfg, c, inputs[..|inputs| - 1]);
    }
  }

  lemma StillRunning(cfg: Config, inputs: seq<Input>)
    requires WireLoop.Run(Events(cfg, inputs)).exit.None?
    ensures Taken(cfg, inputs) == inputs
  {
    WireLoop.RunAgrees(Events(cfg, inputs));
  }

  lemma {:induction false} AddressesPinned(cfg: Config, c: Cached, dials: seq<Dial>)
    requires Pinned(cfg, c) && AddressNotes(cfg, dials).ending == Connected
    ensures Pinned(cfg, AddressCached(cfg, c, dials))
  {
    if dials[0].DialFailed? {
      AddressesPinned(cfg, c, dials[1..]);
    } else {
      StillRunning(cfg, dials[0].inputs);
      StaysPinned(cfg, Lookup(cfg, dials[0].auth.doc), dials[0].inputs);
    }
  }

  /**
   * Whatever the lookups made for the commands received so far, as long as the wire loop runs the
   * provider's descriptor is cached and has the pinned key: a lookup that loses it ends the loop.
   */
  lemma {:induction false} ConnectedHasDescriptor(cfg: Config, c: Cached, rounds: seq<Round>)
    requires ConnectNotes(cfg, rounds).ending == Connected
    ensures Pinned(cfg, LoopCached(cfg, c, rounds))
    decreases |rounds|
  {
    var r := rounds[0];
    if RoundNotes(cfg, r).ending == Again {
      ConnectedHasDescriptor(cfg, RoundCached(cfg, r), rounds[1..]);
    } else {
      AddressesPinned(cfg, Lookup(cfg, r.doc), Dials(cfg, r));
    }
  }

  // ----- the connection object

  class Connection {
    const cfg: Config
    var isConnected: bool
    var pkiEpoch: nat
    var descriptor: Option<Descriptor>
    var notes: seq<Note>

    ghost predicate Valid()
      reads this
    {
      Alternating(notes) && (isConnected <==> EndsUp(notes))
    }

    ghost function Cache(): Cached
      reads this
    {
      Cached(descriptor, pkiEpoch)
    }

    constructor (cfg: Config)
      ensures Valid() && notes == [] && !isConnected && descriptor == None && this.cfg == cfg
    {
      this.cfg := cfg;
      isConnected, pkiEpoch, descriptor, notes := false, 0, None, [];
    }

    method OnConnStatusChange(err: Option<Reason>)
      modifies this`isConnected, this`notes
      ensures isConnected <==> err.None?
      ensures notes == old(notes) + [if err.None? then Up else Down(err.value)]
    {
      isConnected := err.None?;
      notes := notes + [if err.None? then Up else Down(err.value)];
    }

    /** getDescriptor: the three ways to fail, each of which forgets the cached descriptor and its epoch. */
    method GetDescriptor(doc: Option<Document>) returns (err: Option<PkiCause>)
      modifies this`pkiEpoch, this`descriptor
      ensures err == LookupError(cfg, doc)
      ensures err == Some(NoDocument) <==> doc.None?
      ensures err == Some(NotListed) <==> doc.Some? && cfg.provider !in doc.value.providers
      ensures err == Some(PinMismatch) <==>
                && doc.Some? && cfg.provider in doc.value.providers && cfg.keyPin.Some?
                && cfg.keyPin.value != doc.value.providers[cfg.provider].identityKey
      ensures Cache() == Lookup(cfg, doc)
      ensures err.None? ==>
                && doc.Some? && cfg.provider in doc.value.providers
                && descriptor == Some(doc.value.providers[cfg.provider]) && pkiEpoch == doc.value.epoch
                && Pinned(cfg, Cache())
      ensures err.Some? ==> descriptor == None && pkiEpoch == 0
    {
      pkiEpoch, descriptor := 0, None;
      if doc.None? { return Some(NoDocument); }
      if cfg.provider !in doc.value.providers { return Some(NotListed); }
      var desc := doc.value.providers[cfg.provider];
      if cfg.keyPin.Some? && cfg.keyPin.value != desc.identityKey { return Some(PinMismatch); }
      pkiEpoch, descriptor := doc.value.epoch, Some(desc);
      return None;
    }

    /** IsPeerValid: refreshes the cached descriptor and compares the peer's keys with it. */
    method IsPeerValid(doc: Option<Document>, peer: Peer) returns (ok: bool)
      modifies this`pkiEpoch, this`descriptor
      ensures ok <==> PeerValid(cfg, doc, peer)
      ensures ok <==>
                && doc.Some? && cfg.provider in doc.value.providers
                && (cfg.keyPin.Some? ==> cfg.keyPin.value == doc.value.providers[cfg.provider].identityKey)
                && doc.value.providers[cfg.provider].identityKey == peer.identityKey
                && doc.value.providers[cfg.provider].linkKey == peer.linkKey
      ensures ok ==> descriptor.Some? && descriptor.value.identityKey == peer.identityKey && descriptor.value.linkKey == peer.linkKey
      ensures Cache() == Lookup(cfg, doc)
    {
      var err := GetDescriptor(doc);
      if err.Some? { return false; }
      return descriptor.value.identityKey == peer.identityKey && descriptor.value.linkKey == peer.linkKey;
    }

    /** The lookups the wire loop makes, one for each command it takes whose peer can be read. */
    method Validate(inputs: seq<Input>) returns (wire: seq<WireLoop.Event>)
      modifies this`pkiEpoch, this`descriptor
      ensures wire == Events(cfg, inputs)
      ensures Cache() == CachedAfter(cfg, old(Cache()), Taken(cfg, inputs))
    {
      wire := [];
      ghost var before := Cache();
      var used := WireLoop.Taken(Events(cfg, inputs));
      for n := 0 to |inputs|
        invariant wire == Events(cfg, inputs[..n])
        invariant n <= used ==> Cache() == CachedAfter(cfg, before, inputs[..n])
        invariant n >= used ==> Cache() == CachedAfter(cfg, before, inputs[..used])
      {
        assert inputs[..n + 1][..n] == inputs[..n];
        var i := inputs[n];
        if n < used && i.Received? && i.peer.Some? {
          var ok := IsPeerValid(i.doc, i.peer.value);
          wire := wire + [WireLoop.Receive(i.cmd, if ok then WireLoop.Listed else WireLoop.Unlisted)];
        } else {
          wire := wire + [AsEvent(cfg, i)];
        }
        assert Events(cfg, inputs[..n + 1]) == Events(cfg, inputs[..n]) + [AsEvent(cfg, i)];
      }
      assert inputs[..|inputs|] == inputs;
    }

    /** One address, from the back-off wait to the end of its connection. */
    method DialOne(d: Dial) returns (ending: Ending)
      modifies this
      requires !isConnected
      ensures ending == DialNotes(cfg, d).ending
      ensures notes == old(notes) + DialNotes(cfg, d).notes
      ensures Cache() == DialCached(cfg, old(Cache()), d)
      ensures isConnected <==> ending == Connected
    {
      match d {
        case HaltedWaiting => return Returned(Shutdown);
        case HaltedDialing => return Returned(Shutdown);
        case DialFailed(err) =>
          notes := notes + [Down(ConnectError(err))];
          return Again;
        case NoSession(err) => notes := notes + [Down(ConnectError(err))];
        case NoHandshake(err, auth) =>
          if auth.Some? { var _ := IsPeerValid(auth.value.doc, auth.value.peer); }
          notes := notes + [Down(ConnectError(err))];
        case Established(auth, inputs) =>
          var ok := IsPeerValid(auth.doc, auth.peer);
          if ok {
            OnConnStatusChange(None);
            var wire := Validate(inputs);
            var _, left, wireErr := WireLoop.OnWireConn(wire);
            if !left { return Connected; }
            OnConnStatusChange(Some(Wire(wireErr.value)));
          } else {
            notes := notes + [Down(NotAuthenticated)];
          }
      }
      OnConnStatusChange(Some(NotConnected));
      return Again;
    }

    /** The addresses in order, until one gives a TCP connection. */
    method DialAll(dials: seq<Dial>) returns (ending: Ending)
      modifies this
      requires !isConnected
      ensures ending == AddressNotes(cfg, dials).ending
      ensures notes == old(notes) + AddressNotes(cfg, dials).notes
      ensures Cache() == AddressCached(cfg, old(Cache()), dials)
      ensures isConnected <==> ending == Connected
    {
      ghost var all := AddressesFrom(cfg, notes, Cache(), dials);
      AddressesFromIs(cfg, notes, Cache(), dials);
      assert dials[0..] == dials;
      for i := 0 to |dials|
        invariant !isConnected
        invariant AddressesFrom(cfg, notes, Cache(), dials[i..]) == all
      {
        assert dials[i..][1..] == dials[i + 1..];
        ending := DialOne(dials[i]);
        if !dials[i].DialFailed? { return; }
      }
      ending := Again;
    }

    /** One pass of the connect loop, with the reason it returns for, if it does. */
    method OneRound(r: Round) returns (ending: Ending)
      modifies this
      requires !isConnected
      ensures ending == RoundNotes(cfg, r).ending
      ensures notes == old(notes) + RoundNotes(cfg, r).notes
      ensures Cache() == RoundCached(cfg, r)
      ensures isConnected <==> ending == Connected
    {
      var connErr := GetDescriptor(r.doc);
      if connErr.Some? { return Returned(PkiError(connErr.value)); }
      if descriptor.value.addresses == 0 {
        descriptor := None;  // give up till the next PKI fetch
        return Returned(NoAddresses);
      }
      ending := DialAll(Dials(cfg, r));
    }

    method ConnectLoop(rounds: seq<Round>) returns (ending: Ending)
      requires !isConnected
      modifies this
      ensures ending == LoopNotes(cfg, rounds).ending
      ensures notes == old(notes) + LoopNotes(cfg, rounds).notes
      ensures Cache() == LoopCached(cfg, old(Cache()), rounds)
      ensures isConnected <==> ending == Connected
    {
      ghost var all := RoundsFrom(cfg, notes, Cache(), rounds);
      RoundsFromIs(cfg, notes, Cache(), rounds);
      assert rounds[0..] == rounds;
      for n := 0 to |rounds|
        invariant !isConnected
        invariant RoundsFrom(cfg, notes, Cache(), rounds[n..]) == all
      {
        assert rounds[n..][1..] == rounds[n + 1..];
        ending := OneRound(rounds[n]);
        if ending != Again { return; }
      }
      ending := Again;
    }

    /**
     * doConnect: it only returns with a reason, which is also its last callback, so the
     * "connErr is nil" panic is never reached.
     */
    method DoConnect(rounds: seq<Round>) returns (connErr: Option<Reason>)
      requires Valid() && !isConnected
      modifies this
      ensures Valid()
      ensures notes == old(notes) + ConnectNotes(cfg, rounds).notes
      ensures connErr.Some? <==> ConnectNotes(cfg, rounds).ending.Returned?
      ensures connErr.Some? ==> connErr.value == ConnectNotes(cfg, rounds).ending.reason && !isConnected
      ensures isConnected <==> ConnectNotes(cfg, rounds).ending == Connected
      ensures isConnected ==> Pinned(cfg, Cache())
    {
      StatusAlternates(cfg, rounds);
      CleanPrepend(notes, ConnectNotes(cfg, rounds));
      if ConnectNotes(cfg, rounds).ending == Connected { ConnectedHasDescriptor(cfg, Cache(), rounds); }
      ghost var expected := Prepend(notes, ConnectNotes(cfg, rounds)).notes;
      connErr := None;
      var ending := ConnectLoop(rounds);
      if ending.Returned? {
        connErr := Some(ending.reason);
        notes := notes + [Down(ending.reason)];
      }
      assert notes == expected;
    }
  }

  // ----- the reconnect back-off

  const RETRY_INCREMENT: nat := 2_000_000_000
  const MAX_RETRY_DELAY: nat := 5_000_000_000

  /** Where the dialler is among its separate atomic accesses to the shared delay. */
  datatype BackoffPc = AtWait | Waited | Added | Loaded(over: bool)

  /** One atomic access by the dialler, or the peer reader's reset. */
  datatype BackoffEvent = Dialler | ReaderReset

  datatype Backoff = Backoff(delay: nat, pc: BackoffPc, waits: seq<nat>)

  function BackoffStep(b: Backoff, ev: BackoffEvent): Backoff {
    if ev == ReaderReset then b.(delay := 0)
    else
      match b.pc
      case AtWait => b.(pc := Waited, waits := b.waits + [b.delay])
      case Waited => b.(pc := Added, delay := b.delay + RETRY_INCREMENT)
      case Added => b.(pc := Loaded(b.delay > MAX_RETRY_DELAY))
      case Loaded(over) => b.(pc := AtWait, delay := if over then MAX_RETRY_DELAY else b.delay)
  }

  function BackoffRun(evs: seq<BackoffEvent>): Backoff {
    if evs == [] then Backoff(0, AtWait, []) else BackoffStep(BackoffRun(evs[..|evs| - 1]), evs[|evs| - 1])
  }

  predicate Settled(d: nat) {
    d == 0 || d == RETRY_INCREMENT || d == 2 * RETRY_INCREMENT || d == MAX_RETRY_DELAY
  }

  ghost predicate BackoffInv(b: Backoff) {
    && (forall i :: 0 <= i < |b.waits| ==> Settled(b.waits[i]))
    && (match b.pc
        case AtWait => Settled(b.delay)
        case Waited => Settled(b.delay)
        case Added => b.delay == 0 || (b.delay >= RETRY_INCREMENT && Settled(b.delay - RETRY_INCREMENT))
        case Loaded(over) => over || Settled(b.delay))
  }

  /**
   * However the reader's resets fall between the dialler's separate loads, adds and stores, the
   * delay waited before each dial is 0, 2, 4 or 5 seconds.
   */
  lemma {:induction false} BackoffBounded(evs: seq<BackoffEvent>)
    ensures BackoffInv(BackoffRun(evs))
    ensures forall i :: 0 <= i < |BackoffRun(evs).waits| ==> 0 <= BackoffRun(evs).waits[i] <= MAX_RETRY_DELAY
  {
    if evs != [] { BackoffBounded(evs[..|evs| - 1]); }
  }

  /**
   * Left alone between two dials, the dialler waits the delay there is and adds two seconds for
   * the next one, up to five; a reset by the reader starts over from nothing.
   */
  lemma BackoffGrows(b: Backoff)
    requires b.pc == AtWait
    ensures var next := BackoffStep(BackoffStep(BackoffStep(BackoffStep(b, Dialler), Dialler), Dialler), Dialler);
            && next.pc == AtWait && next.waits == b.waits + [b.delay]
            && next.delay == if b.delay + 2_000_000_000 > 5_000_000_000 then 5_000_000_000 else b.delay + 2_000_000_000
    ensures BackoffStep(b, ReaderReset) == b.(delay := 0)
  {
  }
}
