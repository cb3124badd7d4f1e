/**
  Two peers, two channels, every interleaving: the transition system of a session after the handshake,
  and the invariant that ties the two ratchets together
  (src/core/services/SessionManager.js:1018-1134).

  Hypotheses, all of them visible in `Enabled` and `Next`: each encrypt and decrypt call is one atomic
  step; only envelopes that the other peer sent are delivered; and no envelope with an older ratchet key
  arrives after a newer one from the same peer. Envelopes may be lost, duplicated and, within one ratchet
  key, reordered.
*/
module TwoParty {
  import opened Keys
  import opened Payload
  import opened ChatLog
  import opened DoubleRatchet

  datatype Role = Host | Guest

  /** An envelope that was encrypted; `wired` is false when transport.send threw afterwards. */
  datatype Sent = Sent(envelope: Envelope, wired: bool)

  /**
    One peer's end of the link. `keys` are the ratchet keys it generated, `sent` every envelope it encrypted,
    `arrived` and `decrypted` the positions in the other peer's `sent` that reached it and that it decrypted, in order.
    Positions below `boundary` were sent over a transport this peer has since replaced.
  */
  datatype Side = Side(
    ratchet: Ratchet, keys: set<KeyId>,
    sent: seq<Sent>, arrived: seq<nat>, decrypted: seq<nat>, boundary: nat)

  datatype Peer = Peer(side: Side, app: App)

  /** `shared` is the handshake key; `nextKey` the id of the next key pair to be generated. */
  datatype World = World(host: Peer, guest: Peer, nextKey: KeyId, shared: Key)

  datatype Event =
    | SendChat(from: Role, id: nat, text: string, sender: string, timestamp: int, nonce: Nonce, wired: bool)
    | SendControl(from: Role, action: ControlAction, title: string, nonce: Nonce, wired: bool)
    | Deliver(to: Role, at: nat)
    | Reconnect(who: Role)

  function Other(role: Role): Role {
    if role == Host then Guest else Host
  }

  function Get(w: World, role: Role): Peer {
    if role == Host then w.host else w.guest
  }

  function Put(w: World, role: Role, peer: Peer): World {
    if role == Host then w.(host := peer) else w.(guest := peer)
  }

  function Emit(s: Side, plain: Payload, nonce: Nonce, wired: bool): Side {
    var (r, e) := Encrypt(s.ratchet, plain, nonce);
    s.(ratchet := r, sent := s.sent + [Sent(e, wired)])
  }

  /** sendMessage: the counter moves first, an invalid text stops there, and a failed send is not logged. */
  function Say(p: Peer, id: nat, text: string, sender: string, timestamp: int, nonce: Nonce, wired: bool): Peer {
    var counted := p.app.(counter := p.app.counter + 1);
    if !ValidText(text) then p.(app := counted)
    else
      var m := Message(id, text, sender, timestamp, counted.counter);
      var logged := if wired then counted.(messages := counted.messages + [LogEntry(m, true)]) else counted;
      Peer(Emit(p.side, Chat(m), nonce, wired), logged)
  }

  /** sendTitle and the other control messages: the sender's own title is set whether or not the send succeeds. */
  function Tell(p: Peer, action: ControlAction, title: string, nonce: Nonce, wired: bool): Peer {
    Peer(Emit(p.side, Control(action, title), nonce, wired), if action == Title then p.app.(title := title) else p.app)
  }

  function Arrive(s: Side, e: Envelope, at: nat, newKey: KeyId): Side {
    var (r, out) := Decrypt(s.ratchet, e, newKey);
    s.(ratchet := r, keys := s.keys + {r.pk}, arrived := s.arrived + [at],
       decrypted := if out.Opened? then s.decrypted + [at] else s.decrypted)
  }

  function Hear(p: Peer, e: Envelope, at: nat, newKey: KeyId): Peer {
    var out := Decrypt(p.side.ratchet, e, newKey).1;
    Peer(Arrive(p.side, e, at, newKey), if out.Opened? then Receive(p.app, out.plain) else p.app)
  }

  /** A new transport: an empty nonce set, and whatever is still under way on the old one is ignored. */
  function Relink(s: Side, boundary: nat): Side {
    s.(ratchet := s.ratchet.(nonces := []), boundary := boundary)
  }

  /** No envelope of an older key after one of a newer key. */
  predicate InEpochOrder(sent: seq<Sent>, arrived: seq<nat>, at: nat)
    requires at < |sent|
  {
    forall j | 0 <= j < |arrived| :: arrived[j] < |sent| && sent[arrived[j]].envelope.pk <= sent[at].envelope.pk
  }

  predicate Deliverable(s: Side, r: Side, at: nat) {
    r.boundary <= at < |s.sent| && s.sent[at].wired && InEpochOrder(s.sent, r.arrived, at)
  }

  predicate Enabled(w: World, ev: Event) {
    ev.Deliver? ==> Deliverable(Get(w, Other(ev.to)).side, Get(w, ev.to).side, ev.at)
  }

  function Next(w: World, ev: Event): World
    requires Enabled(w, ev)
  {
    match ev
    case SendChat(from, id, text, sender, timestamp, nonce, wired) =>
      Put(w, from, Say(Get(w, from), id, text, sender, timestamp, nonce, wired))
    case SendControl(from, action, title, nonce, wired) =>
      Put(w, from, Tell(Get(w, from), action, title, nonce, wired))
    case Deliver(to, at) =>
      Put(w, to, Hear(Get(w, to), Get(w, Other(to)).side.sent[at].envelope, at, w.nextKey)).(nextKey := w.nextKey + 1)
    case Reconnect(who) =>
      var p := Get(w, who);
      Put(w, who, p.(side := Relink(p.side, |Get(w, Other(who)).side.sent|)))
  }

  /** What `_ratchetDecrypt` returns for this delivery. */
  function Result(w: World, to: Role, at: nat): Outcome
    requires Enabled(w, Deliver(to, at))
  {
    Decrypt(Get(w, to).side.ratchet, Get(w, Other(to)).side.sent[at].envelope, w.nextKey).1
  }

  /** The delivered envelope carries a new ratchet key and is not rejected as a replay. */
  predicate TakesDhStep(w: World, to: Role, at: nat)
    requires Enabled(w, Deliver(to, at))
  {
    var e := Get(w, Other(to)).side.sent[at].envelope;
    e.pk != Get(w, to).side.ratchet.last && !IsReplay(Get(w, to).side.ratchet, e.c)
  }

  ghost predicate Admissible(w: World, evs: seq<Event>)
    decreases |evs|
  {
    evs == [] || (Enabled(w, evs[0]) && Admissible(Next(w, evs[0]), evs[1..]))
  }

  ghost function Run(w: World, evs: seq<Event>): World
    requires Admissible(w, evs)
    decreases |evs|
  {
    if evs == [] then w else Run(Next(w, evs[0]), evs[1..])
  }

  // ---- The invariant ----

  /**
    `a` is exactly one root step ahead of `b`: its root is the step of b's root with the DH output of both
    current keys, its send chain starts where that step left it, it last saw b's current key, and it
    receives on the chain b sends on.
  */
  ghost predicate Ahead(a: Ratchet, b: Ratchet) {
    && a.root == RootOf(b.root, DhOut(a.pk, b.pk))
    && Base(a.send) == ChainOf(b.root, DhOut(a.pk, b.pk))
    && a.last == b.pk
    && Base(a.recv) == Base(b.send)
    && b.last < a.pk
    && b.pk < a.pk
  }

  /** An envelope of sender `s` as receiver `r` may still have to open it. */
  ghost predicate Readable(s: Ratchet, r: Ratchet, e: Envelope) {
    && 0 <= e.n
    && (e.pk == s.pk || (e.pk < s.pk && e.pk <= r.last))
    && (e.pk == s.pk ==> e.n < s.sendIdx && e.c.key == MessageKeyAt(Base(s.send), e.n))
    && (e.pk == r.last ==> e.c.key == MessageKeyAt(Base(r.recv), e.n))
  }

  /** Position order of a log: keys never get older, and under one key the index grows. */
  predicate Before(e: Envelope, f: Envelope) {
    e.pk < f.pk || (e.pk == f.pk && e.n < f.n)
  }

  /** A position already opened is past, and its key is gone from the buffer. */
  ghost predicate Spent(r: Ratchet, e: Envelope) {
    && e.pk <= r.last
    && (e.pk == r.last ==> e.n < r.recvIdx && !Holds(r.skipped, e.n))
  }

  ghost predicate Channel(s: Side, r: Side) {
    && (forall i :: 0 <= i < |s.sent| ==> Readable(s.ratchet, r.ratchet, s.sent[i].envelope))
    && (forall i, j :: 0 <= i < j < |s.sent| ==> Before(s.sent[i].envelope, s.sent[j].envelope))
    && (forall i :: 0 <= i < |s.sent| && InEpochOrder(s.sent, r.arrived, i) ==> r.ratchet.last <= s.sent[i].envelope.pk)
    && (forall k :: 0 <= k < |r.arrived| ==> r.arrived[k] < |s.sent|)
    && (forall k :: 0 <= k < |r.decrypted| ==>
          r.decrypted[k] < |s.sent| && Spent(r.ratchet, s.sent[r.decrypted[k]].envelope))
    && (forall k, l :: 0 <= k < l < |r.decrypted| ==> r.decrypted[k] != r.decrypted[l])
  }

  ghost predicate Linked(a: Side, b: Side, nextKey: KeyId) {
    && RatchetOk(a.ratchet) && RatchetOk(b.ratchet)
    && Ahead(a.ratchet, b.ratchet)
    && a.ratchet.pk < nextKey && b.ratchet.pk < nextKey
    && Channel(a, b) && Channel(b, a)
  }

  ghost predicate SyncedBy(w: World, ahead: Role) {
    Linked(Get(w, ahead).side, Get(w, Other(ahead)).side, w.nextKey)
  }

  ghost predicate Synced(w: World) {
    SyncedBy(w, Host) || SyncedBy(w, Guest)
  }

  /** Nothing sent, nothing arrived: a side right after the handshake. */
  ghost predicate Untouched(s: Side) {
    && s.sent == [] && s.arrived == [] && s.decrypted == [] && s.boundary == 0
    && s.ratchet.sendIdx == s.ratchet.recvIdx == 0 && s.ratchet.skipped == [] && s.ratchet.nonces == []
  }

  /** Never both peers, so always exactly one. */
  lemma ExactlyOneAhead(w: World)
    requires Synced(w)
    ensures SyncedBy(w, Host) <==> !SyncedBy(w, Guest)
  {
  }

  // ---- Each event keeps it ----

  lemma EmitKeepsChannel(s: Side, r: Side, plain: Payload, nonce: Nonce, wired: bool)
    requires Channel(s, r) && RatchetOk(s.ratchet)
    requires r.ratchet.last <= s.ratchet.pk
    requires r.ratchet.last == s.ratchet.pk ==> Base(r.ratchet.recv) == Base(s.ratchet.send)
    ensures Channel(Emit(s, plain, nonce, wired), r)
    ensures RatchetOk(Emit(s, plain, nonce, wired).ratchet)
  {
    var s' := Emit(s, plain, nonce, wired);
    ChainAtBase(s.ratchet.send);
    assert s'.sent[..|s.sent|] == s.sent;
    forall i | 0 <= i < |s'.sent| && InEpochOrder(s'.sent, r.arrived, i)
      ensures r.ratchet.last <= s'.sent[i].envelope.pk
    {
      if i < |s.sent| {
        assert InEpochOrder(s.sent, r.arrived, i) by {
          forall j | 0 <= j < |r.arrived|
            ensures r.arrived[j] < |s.sent| && s.sent[r.arrived[j]].envelope.pk <= s.sent[i].envelope.pk
          {
            assert s'.sent[r.arrived[j]] == s.sent[r.arrived[j]];
          }
        }
      }
    }
  }

  /** A sender's step leaves the other direction alone. */
  lemma EmitKeepsOther(s: Side, r: Side, plain: Payload, nonce: Nonce, wired: bool)
    requires Channel(r, s)
    ensures Channel(r, Emit(s, plain, nonce, wired))
  {
  }

  lemma EmitKeepsLinked(a: Side, b: Side, nextKey: KeyId, plain: Payload, nonce: Nonce, wired: bool)
    requires Linked(a, b, nextKey)
    ensures Linked(Emit(a, plain, nonce, wired), b, nextKey)
    ensures Linked(a, Emit(b, plain, nonce, wired), nextKey)
  {
    EmitKeepsChannel(a, b, plain, nonce, wired);
    EmitKeepsOther(a, b, plain, nonce, wired);
    EmitKeepsChannel(b, a, plain, nonce, wired);
    EmitKeepsOther(b, a, plain, nonce, wired);
  }

  // ---- Deliveries ----

  lemma TakeKeySpends(r: Ratchet, n: int)
    requires RatchetOk(r)
    ensures var (r', res) := TakeKey(r, r.last, n);
      && (forall f: Envelope :: Spent(r, f) ==> Spent(r', f))
      && (res.Granted? ==> forall f: Envelope :: f.pk == r.last && f.n == n ==> Spent(r', f) && !Spent(r, f))
  {
    TakeKeyOk(r, n);
  }

  lemma ArrivedKeepsChannel(s: Side, r: Side, at: nat)
    requires Channel(s, r) && at < |s.sent|
    ensures Channel(s, r.(arrived := r.arrived + [at]))
  {
    var arrived := r.arrived + [at];
    forall i | 0 <= i < |s.sent| && InEpochOrder(s.sent, arrived, i)
      ensures InEpochOrder(s.sent, r.arrived, i)
    {
      assert forall j :: 0 <= j < |r.arrived| ==> arrived[j] == r.arrived[j];
    }
  }

  lemma RatchetChangeKeepsChannel(s: Side, r: Side, x: Ratchet)
    requires Channel(s, r)
    requires x.last == r.ratchet.last && Base(x.recv) == Base(r.ratchet.recv)
    requires forall f: Envelope :: Spent(r.ratchet, f) ==> Spent(x, f)
    ensures Channel(s, r.(ratchet := x))
  {
  }

  lemma DecryptedKeepsChannel(s: Side, r: Side, at: nat)
    requires Channel(s, r) && at < |s.sent| && at !in r.decrypted
    requires Spent(r.ratchet, s.sent[at].envelope)
    ensures Channel(s, r.(decrypted := r.decrypted + [at]))
  {
  }

  /** Receiving never touches what this peer sends with. */
  lemma ReceiverKeepsOwnChannel(s: Side, r: Side, r': Side)
    requires Channel(r, s)
    requires r'.sent == r.sent
    requires r'.ratchet.pk == r.ratchet.pk && r'.ratchet.send == r.ratchet.send
    requires r'.ratchet.sendIdx == r.ratchet.sendIdx
    ensures Channel(r', s)
  {
  }

  /** The envelope's ratchet key is the one last seen: no DH step, and the key found is the right one. */
  lemma ReceiveKnown(s: Side, r: Side, at: nat)
    requires RatchetOk(r.ratchet) && Channel(s, r) && at < |s.sent| && s.sent[at].envelope.pk == r.ratchet.last
    ensures var e := s.sent[at].envelope;
      var (x, res) := TakeKey(r.ratchet, e.pk, e.n);
      && RatchetOk(x)
      && x == r.ratchet.(recv := x.recv, recvIdx := x.recvIdx, skipped := x.skipped)
      && Base(x.recv) == Base(r.ratchet.recv)
      && Open(res, e.c) == (if res.Granted? then Opened(e.c.plain) else Rejected(res.reason))
      && (res.Granted? ==> at !in r.decrypted)
      && Channel(s, r.(ratchet := x, decrypted := if res.Granted? then r.decrypted + [at] else r.decrypted))
  {
    var e := s.sent[at].envelope;
    var (x, res) := TakeKey(r.ratchet, e.pk, e.n);
    TakeKeyOk(r.ratchet, e.n);
    TakeKeySpends(r.ratchet, e.n);
    RatchetChangeKeepsChannel(s, r, x);
    assert Readable(s.ratchet, r.ratchet, e);
    if res.Granted? {
      DecryptedKeepsChannel(s, r.(ratchet := x), at);
    }
  }

  lemma NonceKeepsChannel(s: Side, r: Side, c: Ciphertext)
    requires Channel(s, r) && RatchetOk(r.ratchet)
    ensures Channel(s, r.(ratchet := NoteNonce(r.ratchet, c))) && RatchetOk(NoteNonce(r.ratchet, c))
  {
  }

  /** A delivered envelope never carries a key older than the last one seen. */
  lemma DeliveredKey(s: Side, r: Side, at: nat)
    requires Channel(s, r) && Deliverable(s, r, at)
    ensures r.ratchet.last <= s.sent[at].envelope.pk
    ensures s.sent[at].envelope.pk == r.ratchet.last || s.sent[at].envelope.pk == s.ratchet.pk
  {
  }

  /** Faithful: the call throws or returns exactly what was encrypted, and an envelope opens at most once. */
  ghost predicate Faithful(s: Side, r: Side, at: nat, out: Outcome)
    requires at < |s.sent|
  {
    && (out.Opened? ==> out.plain == s.sent[at].envelope.c.plain && at !in r.decrypted)
    && (out.Rejected? ==> out.reason != BadCiphertext)
  }

  /** The last stage of a delivery: take the key and, if it was there, open the envelope. */
  function Taken(r: Side, e: Envelope, at: nat): Side {
    var (x, res) := TakeKey(r.ratchet, e.pk, e.n);
    r.(ratchet := x, decrypted := if Open(res, e.c).Opened? then r.decrypted + [at] else r.decrypted)
  }

  /** The first stage, for the key last seen: note the nonce. */
  function Noted(r: Side, e: Envelope, at: nat): Side {
    r.(ratchet := NoteNonce(r.ratchet, e.c), arrived := r.arrived + [at])
  }

  lemma ArriveUnderKnownKey(r: Side, e: Envelope, at: nat, newKey: KeyId)
    requires e.pk == r.ratchet.last
    ensures IsReplay(r.ratchet, e.c) ==> Arrive(r, e, at, newKey) == r.(keys := r.keys + {r.ratchet.pk},
                                                                        arrived := r.arrived + [at])
    ensures !IsReplay(r.ratchet, e.c) ==>
      && Arrive(r, e, at, newKey) == Taken(Noted(r, e, at), e, at).(keys := r.keys + {r.ratchet.pk})
      && Decrypt(r.ratchet, e, newKey).1 == Open(TakeKey(Noted(r, e, at).ratchet, e.pk, e.n).1, e.c)
  {
  }

  /** Nothing but the receiving half of a ratchet differs. */
  ghost predicate OnlyReceived(r: Ratchet, x: Ratchet) {
    && x == r.(recv := x.recv, recvIdx := x.recvIdx, skipped := x.skipped, nonces := x.nonces)
    && Base(x.recv) == Base(r.recv)
  }

  /** Delivery under the key last seen, to either peer. */
  lemma ArriveKnown(s: Side, r: Side, at: nat, newKey: KeyId)
    requires RatchetOk(r.ratchet) && Channel(s, r)
    requires at < |s.sent| && s.sent[at].envelope.pk == r.ratchet.last
    ensures var e := s.sent[at].envelope;
      var r' := Arrive(r, e, at, newKey);
      && RatchetOk(r'.ratchet) && Channel(s, r') && OnlyReceived(r.ratchet, r'.ratchet)
      && Faithful(s, r, at, Decrypt(r.ratchet, e, newKey).1)
  {
    var e := s.sent[at].envelope;
    ArriveUnderKnownKey(r, e, at, newKey);
    ArrivedKeepsChannel(s, r, at);
    if !IsReplay(r.ratchet, e.c) {
      var r1 := Noted(r, e, at);
      NonceKeepsChannel(s, r.(arrived := r.arrived + [at]), e.c);
      ReceiveKnown(s, r1, at);
    }
  }

  /** The DH step: the peer that was behind takes it on the other's current key, and the roles swap. */
  lemma StepSwapsRoles(a: Side, b: Side, at: nat, nextKey: KeyId)
    requires Linked(a, b, nextKey)
    requires at < |a.sent| && a.sent[at].envelope.pk == a.ratchet.pk
    ensures var b' := b.(ratchet := DhStep(b.ratchet, a.ratchet.pk, nextKey), arrived := b.arrived + [at]);
      Linked(b', a, nextKey + 1)
  {
    var x := DhStep(b.ratchet, a.ratchet.pk, nextKey);
    var b' := b.(ratchet := x, arrived := b.arrived + [at]);
    DhStepOk(b.ratchet, a.ratchet.pk, nextKey);
    forall i | 0 <= i < |a.sent|
      ensures Readable(a.ratchet, x, a.sent[i].envelope)
    {
      assert Readable(a.ratchet, b.ratchet, a.sent[i].envelope);
    }
    forall i | 0 <= i < |a.sent| && InEpochOrder(a.sent, b'.arrived, i)
      ensures x.last <= a.sent[i].envelope.pk
    {
      assert b'.arrived[|b.arrived|] == at;
    }
    forall i | 0 <= i < |b.sent|
      ensures Readable(x, a.ratchet, b.sent[i].envelope)
    {
      assert Readable(b.ratchet, a.ratchet, b.sent[i].envelope);
    }
  }

  lemma ReceiveAfterStep(a: Side, b: Side, at: nat, nextKey: KeyId)
    requires Linked(b, a, nextKey)
    requires at < |a.sent| && a.sent[at].envelope.pk == b.ratchet.last
    ensures var e := a.sent[at].envelope;
      && Linked(Taken(b, e, at), a, nextKey)
      && Faithful(a, b, at, Open(TakeKey(b.ratchet, e.pk, e.n).1, e.c))
  {
    ReceiveKnown(a, b, at);
    ReceiverKeepsOwnChannel(a, b, Taken(b, a.sent[at].envelope, at));
  }

  /** The first stage, for a new ratchet key: note the nonce and take the DH step. */
  function Stepped(r: Side, e: Envelope, at: nat, newKey: KeyId): Side {
    r.(ratchet := DhStep(NoteNonce(r.ratchet, e.c), e.pk, newKey), arrived := r.arrived + [at])
  }

  lemma ArriveInStages(r: Side, e: Envelope, at: nat, newKey: KeyId)
    requires !IsReplay(r.ratchet, e.c) && e.pk != r.ratchet.last
    ensures Arrive(r, e, at, newKey) == Taken(Stepped(r, e, at, newKey), e, at).(keys := r.keys + {newKey})
    ensures Decrypt(r.ratchet, e, newKey).1 == Open(TakeKey(Stepped(r, e, at, newKey).ratchet, e.pk, e.n).1, e.c)
  {
  }

  lemma SteppedLinked(a: Side, b: Side, at: nat, nextKey: KeyId)
    requires Linked(a, b, nextKey)
    requires at < |a.sent| && a.sent[at].envelope.pk == a.ratchet.pk
    ensures Linked(Stepped(b, a.sent[at].envelope, at, nextKey), a, nextKey + 1)
  {
    var b1 := b.(ratchet := NoteNonce(b.ratchet, a.sent[at].envelope.c));
    NonceKeepsChannel(a, b, a.sent[at].envelope.c);
    ReceiverKeepsOwnChannel(a, b, b1);
    StepSwapsRoles(a, b1, at, nextKey);
  }

  lemma KeysDoNotMatter(a: Side, b: Side, nextKey: KeyId, keys: set<KeyId>)
    requires Linked(a, b, nextKey)
    ensures Linked(a.(keys := keys), b, nextKey)
  {
  }

  lemma ArriveNew(a: Side, b: Side, at: nat, nextKey: KeyId)
    requires Linked(a, b, nextKey)
    requires at < |a.sent| && a.sent[at].envelope.pk == a.ratchet.pk
    requires !IsReplay(b.ratchet, a.sent[at].envelope.c)
    ensures var e := a.sent[at].envelope;
      && Linked(Arrive(b, e, at, nextKey), a, nextKey + 1)
      && Faithful(a, b, at, Decrypt(b.ratchet, e, nextKey).1)
  {
    var e := a.sent[at].envelope;
    SteppedLinked(a, b, at, nextKey);
    var b2 := Stepped(b, e, at, nextKey);
    ReceiveAfterStep(a, b2, at, nextKey + 1);
    KeysDoNotMatter(Taken(b2, e, at), a, nextKey + 1, b.keys + {nextKey});
    ArriveInStages(b, e, at, nextKey);
  }

  /** A delivery to the peer that is ahead: the sender's key is known, and nothing swaps. */
  lemma DeliverToAhead(a: Side, b: Side, at: nat, nextKey: KeyId)
    requires Linked(a, b, nextKey) && Deliverable(b, a, at)
    ensures Linked(Arrive(a, b.sent[at].envelope, at, nextKey), b, nextKey + 1)
    ensures Faithful(b, a, at, Decrypt(a.ratchet, b.sent[at].envelope, nextKey).1)
  {
    DeliveredKey(b, a, at);
    ArriveKnown(b, a, at, nextKey);
    ReceiverKeepsOwnChannel(b, a, Arrive(a, b.sent[at].envelope, at, nextKey));
  }

  /** A delivery to the peer that is behind: under the old key nothing swaps, under the new one the roles do. */
  lemma DeliverToBehind(a: Side, b: Side, at: nat, nextKey: KeyId)
    requires Linked(a, b, nextKey) && Deliverable(a, b, at)
    ensures var e := a.sent[at].envelope;
      var b' := Arrive(b, e, at, nextKey);
      && (if e.pk != b.ratchet.last && !IsReplay(b.ratchet, e.c)
          then Linked(b', a, nextKey + 1) else Linked(a, b', nextKey + 1))
      && Faithful(a, b, at, Decrypt(b.ratchet, e, nextKey).1)
  {
    var e := a.sent[at].envelope;
    DeliveredKey(a, b, at);
    if e.pk == b.ratchet.last {
      ArriveKnown(a, b, at, nextKey);
      ReceiverKeepsOwnChannel(a, b, Arrive(b, e, at, nextKey));
    } else if !IsReplay(b.ratchet, e.c) {
      ArriveNew(a, b, at, nextKey);
    } else {
      ArrivedKeepsChannel(a, b, at);
      var b1 := b.(arrived := b.arrived + [at]);
      ReceiverKeepsOwnChannel(a, b, b1);
      assert Arrive(b, e, at, nextKey).(keys := b.keys) == b1;
    }
  }

  lemma RelinkKeepsLinked(a: Side, b: Side, nextKey: KeyId, boundary: nat)
    requires Linked(a, b, nextKey)
    ensures Linked(Relink(a, boundary), b, nextKey)
    ensures Linked(a, Relink(b, boundary), nextKey)
  {
    RatchetChangeKeepsChannel(b, a, a.ratchet.(nonces := []));
    RatchetChangeKeepsChannel(a, b, b.ratchet.(nonces := []));
  }

  // ---- Every run ----

  lemma DeliverKeepsSync(w: World, ahead: Role, to: Role, at: nat)
    requires SyncedBy(w, ahead) && Enabled(w, Deliver(to, at))
    ensures SyncedBy(Next(w, Deliver(to, at)), if TakesDhStep(w, to, at) then to else ahead)
    ensures TakesDhStep(w, to, at) ==> to != ahead
    ensures Faithful(Get(w, Other(to)).side, Get(w, to).side, at, Result(w, to, at))
  {
    var a, b := Get(w, ahead).side, Get(w, Other(ahead)).side;
    if to == ahead {
      DeliveredKey(b, a, at);
      DeliverToAhead(a, b, at, w.nextKey);
    } else {
      DeliverToBehind(a, b, at, w.nextKey);
    }
  }

  /** A send either stops before encrypting or encrypts one payload; the other peer is not involved. */
  lemma SendEmits(w: World, ev: Event) returns (plain: Payload)
    requires ev.SendChat? || ev.SendControl?
    ensures var s, s' := Get(w, ev.from).side, Get(Next(w, ev), ev.from).side;
      s' == s || s' == Emit(s, plain, ev.nonce, ev.wired)
    ensures Get(Next(w, ev), Other(ev.from)) == Get(w, Other(ev.from))
    ensures Next(w, ev).nextKey == w.nextKey && Next(w, ev).shared == w.shared
  {
    plain := if ev.SendControl? then Control(ev.action, ev.title)
             else Chat(Message(ev.id, ev.text, ev.sender, ev.timestamp, Get(w, ev.from).app.counter + 1));
  }

  lemma SendKeepsSync(w: World, ahead: Role, ev: Event)
    requires SyncedBy(w, ahead) && (ev.SendChat? || ev.SendControl?)
    ensures SyncedBy(Next(w, ev), ahead)
  {
    var plain := SendEmits(w, ev);
    EmitKeepsLinked(Get(w, ahead).side, Get(w, Other(ahead)).side, w.nextKey, plain, ev.nonce, ev.wired);
  }

  /** One event: the invariant is kept, and exactly a DH step moves the lead, to the peer that takes it. */
  lemma NextKeepsSync(w: World, ev: Event, ahead: Role)
    requires SyncedBy(w, ahead) && Enabled(w, ev)
    ensures SyncedBy(Next(w, ev), if ev.Deliver? && TakesDhStep(w, ev.to, ev.at) then ev.to else ahead)
    ensures ev.Deliver? ==>
      Faithful(Get(w, Other(ev.to)).side, Get(w, ev.to).side, ev.at, Result(w, ev.to, ev.at))
  {
    match ev
    case Deliver(to, at) => DeliverKeepsSync(w, ahead, to, at);
    case Reconnect(who) =>
      RelinkKeepsLinked(Get(w, ahead).side, Get(w, Other(ahead)).side, w.nextKey, |Get(w, Other(who)).side.sent|);
    case _ => SendKeepsSync(w, ahead, ev);
  }

  ghost function Leader(w: World): Role
  {
    if SyncedBy(w, Host) then Host else Guest
  }

  /** Every reachable state is in sync. */
  lemma {:induction false} RunKeepsSync(w: World, evs: seq<Event>)
    requires Synced(w) && Admissible(w, evs)
    ensures Synced(Run(w, evs))
    decreases |evs|
  {
    if evs != [] {
      NextKeepsSync(w, evs[0], Leader(w));
      RunKeepsSync(Next(w, evs[0]), evs[1..]);
    }
  }

  /**
    In every run of the two-peer system, every delivery throws or returns exactly the plaintext that was
    encrypted in that envelope, and no envelope opens twice.
  */
  lemma EveryDeliveryIsFaithful(w: World, evs: seq<Event>, to: Role, at: nat)
    requires Synced(w) && Admissible(w, evs) && Enabled(Run(w, evs), Deliver(to, at))
    ensures var now := Run(w, evs);
      Faithful(Get(now, Other(to)).side, Get(now, to).side, at, Result(now, to, at))
  {
    RunKeepsSync(w, evs);
    NextKeepsSync(Run(w, evs), Deliver(to, at), Leader(Run(w, evs)));
  }
}
