/**
  The manager's methods called one after another, by both peers: what the two entries hold is what the theorems
  about two peers are about (src/core/services/SessionManager.js:295-770, 975-999).
*/
module EndToEnd {
  import opened Options
  import opened Keys
  import opened Payload
  import opened DoubleRatchet
  import opened TwoParty
  import opened Invite
  import opened Handshake
  import opened Rekeying
  import opened Sessions
  import opened SessionManager
  import Lifecycle
  import Guarantees

  /** A host that waits for its answer. */
  ghost predicate Waiting(x: Exchange, host: Entry)
    reads host, host.session
  {
    var s := host.session;
    && host.Valid() && host.identity == x.host.identity && s.id == Str(x.host.sessionId)
    && s.dhRatchetPublicKey == Some(x.host.ratchet)
    && s.local == FingerprintOf(Jwk(x.host.identity), Jwk(x.host.signing))
    && s.sendChainIndex == s.receiveChainIndex == 0 && s.skippedMessageKeys == [] && host.seenNonces == []
    && s.LifeView() == Lifecycle.Handle(Lifecycle.Life(Lifecycle.Created, x.host.createdAt, SESSION_EXPIRY_MS),
                                        Lifecycle.LifeEvent.Create, x.host.createdAt)
  }

  /** A guest that has made its answer. */
  ghost predicate Answered(x: Exchange, guest: Entry)
    requires OfferRead(x).Ok? && OfferRead(x).value.publicKey.Jwk? && OfferRead(x).value.ratchetKey.Jwk?
    reads guest, guest.session
  {
    var joined := JoinedBy(x);
    && guest.Ready() && guest.View() == joined.ratchet && guest.session.sharedKey == joined.shared
    && guest.session.local == joined.local && guest.session.remote == joined.remote
  }

  method Meet(x: Exchange, hostManager: Manager, guestManager: Manager, hostTransport: nat, guestTransport: nat)
    returns (host: Entry, guest: Option<Entry>, answer: Code)
    requires HonestExchange(x) && hostManager.mode == guestManager.mode == x.mode
    ensures fresh(host) && fresh(host.session) && Waiting(x, host)
    ensures guest.Some? <==> Current(x.host.createdAt, x.joinedAt)
    ensures guest.Some? ==> fresh(guest.value) && fresh(guest.value.session) && guest.value.session != host.session
    ensures guest.Some? ==>
      && OfferRead(x).Ok? && OfferRead(x).value.publicKey.Jwk? && OfferRead(x).value.ratchetKey.Jwk?
      && Answered(x, guest.value) && answer == EncodeAnswer(JoinedBy(x).answer, x.joinedAt)
  {
    var created, code := hostManager.CreateSession("", x.host, hostTransport, x.host.createdAt);
    host := created.value;
    InviteArrives(x.host, x.joinedAt);
    var error;
    guest, answer, error :=
      guestManager.JoinSession(code, x.joinedAt, x.sdp, guestTransport, x.identity, x.first, x.second, x.secret);
  }

  lemma AnswerRead(x: Exchange)
    requires HonestExchange(x) && Current(x.host.createdAt, x.joinedAt)
    ensures OfferRead(x).Ok? && OfferRead(x).value.publicKey.Jwk? && OfferRead(x).value.ratchetKey.Jwk?
    ensures var answer := JoinedBy(x).answer;
      var read := ReadAnswer(EncodeAnswer(answer, x.joinedAt), x.finalizedAt, Str(x.host.sessionId));
      && answer.publicKey.Jwk? && answer.ratchetKey.Jwk?
      && (read.Ok? <==> Current(x.joinedAt, x.finalizedAt))
      && (read.Ok? ==> read.value == answer)
      && Finalize(x.mode, x.host, answer).Some?
  {
    AnswerGoesBack(x);
    AnswerRoundTrip(JoinedBy(x).answer, x.joinedAt, x.finalizedAt);
  }

  /** The host reads the guest's answer: in time it holds what `Finalize` says. */
  method Answer(x: Exchange, manager: Manager, host: Entry, answer: Code) returns (ok: bool)
    requires HonestExchange(x) && manager.mode == x.mode && Waiting(x, host)
    requires Current(x.host.createdAt, x.joinedAt)
    requires OfferRead(x).Ok? && OfferRead(x).value.publicKey.Jwk? && OfferRead(x).value.ratchetKey.Jwk?
    requires answer == EncodeAnswer(JoinedBy(x).answer, x.joinedAt)
    modifies host.session
    ensures ok <==> Current(x.joinedAt, x.finalizedAt) && x.finalizedAt - x.host.createdAt <= SESSION_EXPIRY_MS
    ensures ok ==>
      && JoinedBy(x).answer.publicKey.Jwk? && JoinedBy(x).answer.ratchetKey.Jwk?
      && Finalize(x.mode, x.host, JoinedBy(x).answer).Some?
      && var finalized := Finalize(x.mode, x.host, JoinedBy(x).answer).value;
        && host.Ready() && host.View() == finalized.ratchet && host.session.sharedKey == finalized.shared
        && host.session.local == finalized.local && host.session.remote == finalized.remote
  {
    AnswerRead(x);
    var error := manager.FinalizeSession(host, answer, x.finalizedAt);
    ok := error.None?;
  }

  /** The two entries as the two-party system right after the handshake. */
  ghost function Start(x: Exchange, host: Entry, guest: Entry): World
    requires host.Ready() && guest.Ready()
    reads host, host.session, guest, guest.session
  {
    Established(host.View(), guest.View(), {x.host.ratchet}, {x.first, x.second}, guest.session.sharedKey, x.nextKey)
  }

  lemma StartOpens(x: Exchange, host: Entry, guest: Entry)
    requires HonestExchange(x) && InTime(x) && GoesThrough(x) && host.Ready() && Answered(x, guest)
    requires host.View() == Finalize(x.mode, x.host, JoinedBy(x).answer).value.ratchet
    ensures Guarantees.Opens(x, Start(x, host, guest))
    ensures Finalize(x.mode, x.host, JoinedBy(x).answer).value.shared == guest.session.sharedKey
    ensures Finalize(x.mode, x.host, JoinedBy(x).answer).value.local == guest.session.remote
    ensures Finalize(x.mode, x.host, JoinedBy(x).answer).value.remote == guest.session.local
  {
    HonestHandshake(x);
  }

  /** Create, join and finalize with untouched codes: it succeeds in time, and opens a session of `Guarantees`. */
  method Establish(x: Exchange, hostManager: Manager, guestManager: Manager, hostTransport: nat, guestTransport: nat)
    returns (ok: bool, host: Entry, guest: Option<Entry>)
    requires HonestExchange(x) && hostManager.mode == guestManager.mode == x.mode
    ensures ok <==> InTime(x)
    ensures ok ==>
      && guest.Some? && fresh(host) && fresh(guest.value) && host.Ready() && guest.value.Ready()
      && Guarantees.Opens(x, Start(x, host, guest.value))
      && host.session.sharedKey == guest.value.session.sharedKey
      && host.session.local == guest.value.session.remote && host.session.remote == guest.value.session.local
  {
    var answer;
    host, guest, answer := Meet(x, hostManager, guestManager, hostTransport, guestTransport);
    if guest.None? {
      return false, host, None;
    }
    ok := Answer(x, hostManager, host, answer);
    if ok {
      GoesThroughExactlyInTime(x);
      StartOpens(x, host, guest.value);
    }
  }

  // ---- Reconnecting ----

  /** The two entries as the two-party system, what was sent before left out. */
  ghost function Pair(host: Entry, guest: Entry, nextKey: KeyId): World
    requires host.Ready() && guest.Ready()
    reads host, host.session, guest, guest.session
  {
    World(host.PeerView(), guest.PeerView(), nextKey, host.session.sharedKey)
  }

  /** The status of a session that can be reconnected at `now`. */
  predicate CanReconnect(l: Lifecycle.Life, heard: bool, now: int) {
    || l.status == Lifecycle.Disconnected
    || (heard && l.status in {Lifecycle.Connected, Lifecycle.Connecting})
    || (l.status in {Lifecycle.AwaitingAnswer, Lifecycle.AwaitingFinalize} && now <= l.createdAt + l.expiryMs)
  }

  /** One peer's reconnect: when it began, its new transport, and whether the old one reports its closing. */
  datatype NewLink = NewLink(sdp: nat, transport: nat, heard: bool, now: int)

  /** The two entries know each other as the two ends of one session. */
  ghost predicate Acquainted(host: Entry, guest: Entry)
    reads host, host.session, guest, guest.session
  {
    && host.Ready() && guest.Ready()
    && host != guest && host.session != guest.session && host.session.id == guest.session.id
    && guest.session.remote.Fingerprint? && guest.session.remote.primary == Jwk(host.identity)
  }

  /** The cipher text of the guest's answer. */
  function TextFor(mode: Mode, secret: nat, host: KeyId): Json {
    if mode == KemMode then KemText(secret, host) else Null
  }

  /** The first two calls: the host's code, and the guest's answer to it. */
  method Rejoin(hostManager: Manager, host: Entry, guestManager: Manager, guest: Entry, hostLink: NewLink,
                guestLink: NewLink, secret: nat) returns (ok: bool, answer: Code)
    requires hostManager.mode == guestManager.mode && Acquainted(host, guest)
    modifies host, host.session, guest, guest.session
    ensures host.Ready() && host.PeerView() == old(host.PeerView())
    ensures host.session.sharedKey == old(host.session.sharedKey)
    ensures guest.Ready() && guest.AppView() == old(guest.AppView())
    ensures ok <==> CanReconnect(old(host.session.LifeView()), hostLink.heard, hostLink.now)
                    && CanReconnect(old(guest.session.LifeView()), guestLink.heard, guestLink.now)
    ensures ok ==>
      && host.session.status == guest.session.status == Lifecycle.Connecting
      && host.transport == Some(hostLink.transport) && guest.transport == Some(guestLink.transport)
      && answer == Code(Stringify(ReconnectAnswer(Sdp(guestLink.sdp), host.session.id,
                                                  TextFor(guestManager.mode, secret, host.identity))))
    ensures ok && guestManager.mode == DhMode ==> guest.View() == old(guest.View()).(nonces := [])
    ensures ok && guestManager.mode == KemMode ==>
      guestManager.HoldsRekeyed(guest, Guest, old(guest.View()), Kem(secret, host.identity, host.identity))
  {
    hostManager.RelinkedExactly(host.session.LifeView(), hostLink.heard, hostLink.now);
    guestManager.RelinkedExactly(guest.session.LifeView(), guestLink.heard, guestLink.now);
    answer := Garbled;
    var code;
    code, ok := hostManager.ReconnectAsHost(host, hostLink.sdp, hostLink.transport, hostLink.heard, hostLink.now);
    if !ok {
      return;
    }
    ReconnectRoundTrip(Sdp(hostLink.sdp), host.session.id, Null, host.session.id);
    var error;
    error, answer := guestManager.ReconnectAsGuest(guest, code, guestLink.sdp, guestLink.transport, guestLink.heard,
                                                   secret, guestLink.now);
    ok := error.None?;
  }

  /**
    A whole reconnect with untouched codes. In dh mode only the nonces are forgotten; in kem mode both peers have
    replaced their chains by those of one new handshake key.
  */
  method Reconnect(hostManager: Manager, host: Entry, guestManager: Manager, guest: Entry, hostLink: NewLink,
                   guestLink: NewLink, secret: nat, ghost nextKey: KeyId) returns (ok: bool)
    requires hostManager.mode == guestManager.mode && Acquainted(host, guest)
    modifies host, host.session, guest, guest.session
    ensures host.Ready() && guest.Ready()
    ensures ok <==> CanReconnect(old(host.session.LifeView()), hostLink.heard, hostLink.now)
                    && CanReconnect(old(guest.session.LifeView()), guestLink.heard, guestLink.now)
    ensures ok ==>
      && host.session.status == guest.session.status == Lifecycle.Connecting
      && host.transport == Some(hostLink.transport) && guest.transport == Some(guestLink.transport)
    ensures ok && hostManager.mode == DhMode ==>
      Pair(host, guest, nextKey) == RelinkBoth(old(Pair(host, guest, nextKey)))
    ensures ok && hostManager.mode == KemMode ==>
      var shared := Kem(secret, host.identity, host.identity);
      Pair(host, guest, nextKey) == RekeyBoth(old(Pair(host, guest, nextKey)), shared)
      && guest.session.sharedKey == shared
  {
    var answer;
    ok, answer := Rejoin(hostManager, host, guestManager, guest, hostLink, guestLink, secret);
    if ok {
      ReconnectRoundTrip(Sdp(guestLink.sdp), host.session.id, TextFor(guestManager.mode, secret, host.identity),
                         host.session.id);
      var error := hostManager.FinalizeReconnect(host, answer);
    }
  }

  // ---- Talking ----

  /** The sender's and the receiver's part of the two-party system. */
  ghost function Talk(from: Role, sender: Entry, receiver: Entry, newKey: KeyId): World
    requires sender.Ready() && receiver.Ready()
    reads sender, sender.session, receiver, receiver.session
  {
    if from == Host then Pair(sender, receiver, newKey) else Pair(receiver, sender, newKey)
  }

  /** A chat that is sent and comes in at the other end: the two events of the two-party system. */
  method Chat(sending: Manager, sender: Entry, receiving: Manager, receiver: Entry, transport: nat, from: Role,
              id: nat, text: string, name: string, now: int, nonce: Nonce, newKey: KeyId)
    requires sender.Ready() && receiver.Ready() && sender != receiver && sender.session != receiver.session
    requires sender.session.status == Lifecycle.Connected && receiver.transport == Some(transport) && ValidText(text)
    modifies sender, sender.session, receiver, receiver.session
    ensures sender.Ready() && receiver.Ready()
    ensures var w := old(Talk(from, sender, receiver, newKey));
      var chat := SendChat(from, id, text, name, now, nonce, true);
      && Enabled(Next(w, chat), Deliver(Other(from), 0))
      && var w2 := Next(Next(w, chat), Deliver(Other(from), 0));
        && sender.View() == Get(w2, from).side.ratchet && sender.AppView() == Get(w2, from).app
        && receiver.View() == Get(w2, Other(from)).side.ratchet && receiver.AppView() == Get(w2, Other(from)).app
  {
    var connected, wire := sending.SendMessage(sender, id, text, name, now, nonce, true);
    receiving.OnMessage(receiver, transport, Keyed(wire[0].envelope), newKey);
  }
}
