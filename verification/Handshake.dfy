/**
  Creating, joining and finalizing a session: what both peers derive, and that an honest exchange puts them
  in the state from which every run stays in sync
  (src/core/services/SessionManager.js:295-620, `initDhRatchet` of both crypto adapters).
*/
module Handshake {
  import opened Options
  import opened Keys
  import opened ChatLog
  import opened DoubleRatchet
  import opened TwoParty
  import opened Lineage
  import opened Conversation
  import opened Invite
  import Lifecycle

  /** The two crypto suites: ECDH on the identity keys, or a KEM towards the host's identity key. */
  datatype Mode = DhMode | KemMode

  /** A hash of one or two public keys. */
  datatype Fingerprint = Unset | Fingerprint(primary: Json, secondary: Json)

  function FingerprintOf(primary: Json, secondary: Json): Fingerprint {
    Fingerprint(primary, if Truthy(secondary) then secondary else Null)
  }

  /** What the host generates in createSession. */
  datatype HostStart = HostStart(
    identity: KeyId, signing: KeyId, ratchet: KeyId, sdp: nat, sessionId: string, createdAt: int)

  function HostOffer(h: HostStart): Offer {
    var unsigned := Offer(Sdp(h.sdp), Jwk(h.identity), Str(h.sessionId), Num(h.createdAt),
                          Undefined, Jwk(h.signing), Null, Jwk(h.ratchet));
    unsigned.(signature := Signature(h.signing, CanonicalBytes(unsigned)))
  }

  /** The guest's handshake key, and the cipher text that goes into its answer. */
  function Agree(mode: Mode, mine: KeyId, theirs: KeyId, secret: nat): (Key, Json) {
    match mode
    case DhMode => (DhOut(mine, theirs), Null)
    case KemMode => (Kem(secret, theirs, theirs), KemText(secret, theirs))
  }

  /** The host's handshake key; None where the adapter throws. */
  function Conclude(mode: Mode, mine: KeyId, theirs: KeyId, cipherText: Json): Option<Key> {
    if mode == KemMode && Truthy(cipherText) then
      Decapsulate(cipherText, mine)
    else if mode == DhMode then Some(DhOut(mine, theirs))
    else None
  }

  function InitialChain(dir: Direction, shared: Key, mine: KeyId, theirs: KeyId): Key {
    InitChain(dir, shared, DhOut(mine, theirs))
  }

  /** initDhRatchet, with the host's and the guest's assignment of the two directions. */
  function InitDhRatchet(shared: Key, mine: KeyId, theirs: KeyId, role: Role): Ratchet {
    var hostToGuest := InitialChain(HostToGuest, shared, mine, theirs);
    var guestToHost := InitialChain(GuestToHost, shared, mine, theirs);
    Ratchet(InitRoot(shared, DhOut(mine, theirs)),
            if role == Host then hostToGuest else guestToHost, 0,
            if role == Host then guestToHost else hostToGuest, 0,
            mine, theirs, [], [])
  }

  /** The guest's first DH step: a second key pair on top of the one its answer carries. */
  function GuestRatchet(shared: Key, first: KeyId, second: KeyId, host: KeyId): Ratchet {
    var r := InitDhRatchet(shared, first, host, Guest);
    var dh := DhOut(second, host);
    r.(root := RootOf(r.root, dh), send := ChainOf(r.root, dh), sendIdx := 0, pk := second)
  }

  /** Both peers right after the handshake; the keys each generated, and nothing sent yet. */
  ghost function Established(host: Ratchet, guest: Ratchet, hostKeys: set<KeyId>, guestKeys: set<KeyId>,
                             shared: Key, nextKey: KeyId): World {
    World(Peer(Side(host, hostKeys, [], [], [], 0), EMPTY_APP),
          Peer(Side(guest, guestKeys, [], [], [], 0), EMPTY_APP),
          nextKey, shared)
  }

  /** What joinSession leaves the guest with, for an offer that carries the host's ratchet key. */
  datatype Joined = Joined(shared: Key, ratchet: Ratchet, answer: Answer, local: Fingerprint, remote: Fingerprint)

  function Join(mode: Mode, offer: Offer, sdp: nat, identity: KeyId, first: KeyId, second: KeyId, secret: nat): Joined
    requires offer.publicKey.Jwk? && offer.ratchetKey.Jwk?
  {
    var (shared, cipherText) := Agree(mode, identity, offer.publicKey.key, secret);
    Joined(shared, GuestRatchet(shared, first, second, offer.ratchetKey.key),
           Answer(Sdp(sdp), Jwk(identity), offer.sessionId, cipherText, Jwk(first)),
           FingerprintOf(Jwk(identity), Null), FingerprintOf(offer.publicKey, offer.signingKey))
  }

  /** What finalizeSession leaves the host with, for an answer that carries the guest's ratchet key. */
  datatype Finalized = Finalized(shared: Key, ratchet: Ratchet, local: Fingerprint, remote: Fingerprint)

  function Finalize(mode: Mode, h: HostStart, answer: Answer): Option<Finalized>
    requires answer.publicKey.Jwk? && answer.ratchetKey.Jwk?
  {
    match Conclude(mode, h.identity, answer.publicKey.key, answer.cipherText)
    case None => None
    case Some(shared) =>
      Some(Finalized(shared, InitDhRatchet(shared, h.ratchet, answer.ratchetKey.key, Host),
                     FingerprintOf(Jwk(h.identity), Jwk(h.signing)), FingerprintOf(answer.publicKey, Null)))
  }

  /** What joinSession goes by: decoded, its signature checked, its keys importable. */
  function ReadOffer(code: Code, now: int): Result<Offer> {
    match DecodeOffer(code, now)
    case Err(error) => Err(error)
    case Ok(offer) =>
      if CheckSignature(offer).Err? then CheckSignature(offer)
      else if !offer.publicKey.Jwk? || (Truthy(offer.ratchetKey) && !offer.ratchetKey.Jwk?) then Err(CryptoFailure)
      else Ok(offer)
  }

  /** What finalizeSession goes by: decoded, for this session, its public key importable. */
  function ReadAnswer(code: Code, now: int, sessionId: Json): Result<Answer> {
    match DecodeAnswer(code, now)
    case Err(error) => Err(error)
    case Ok(answer) =>
      if answer.sessionId != sessionId then Err(WrongSession)
      else if !answer.publicKey.Jwk? then Err(CryptoFailure)
      else Ok(answer)
  }

  /** The handshake key a host takes from a cipher text: None where decapsulation throws. */
  function Decapsulate(cipherText: Json, mine: KeyId): Option<Key> {
    if cipherText.KemText? then Some(Kem(cipherText.secret, cipherText.recipient, mine)) else None
  }

  /** An honest kem-mode reconnect gives both peers the same new handshake key. */
  lemma HonestReconnect(sdp: Json, sessionId: Json, host: KeyId, guest: KeyId, secret: nat)
    ensures var (shared, cipherText) := Agree(KemMode, guest, host, secret);
      var read := ReadReconnect(Code(Stringify(ReconnectAnswer(sdp, sessionId, cipherText))), sessionId);
      && read.Ok? && read.value == (sdp, cipherText)
      && Truthy(read.value.1) && Decapsulate(read.value.1, host) == Some(shared)
  {
    ReconnectRoundTrip(sdp, sessionId, Agree(KemMode, guest, host, secret).1, sessionId);
  }

  // ---- The two sides fit together ----

  lemma InitialStatesAreSynced(shared: Key, host: KeyId, first: KeyId, second: KeyId, nextKey: KeyId)
    requires host < first < second < nextKey
    ensures SyncedBy(Established(InitDhRatchet(shared, host, first, Host), GuestRatchet(shared, first, second, host),
                                 {host}, {first, second}, shared, nextKey), Guest)
  {
  }

  lemma InitialStatesAreTraceable(shared: Key, host: KeyId, first: KeyId, second: KeyId, nextKey: KeyId)
    requires host < first < second < nextKey
    requires Unrelated(shared, {host, first, second}, nextKey)
    ensures Traceable(Established(InitDhRatchet(shared, host, first, Host), GuestRatchet(shared, first, second, host),
                                  {host}, {first, second}, shared, nextKey),
                      InitRoot(shared, DhOut(host, first)))
  {
  }

  lemma InitialStatesAreCalm(shared: Key, host: KeyId, first: KeyId, second: KeyId, nextKey: KeyId)
    ensures var w := Established(InitDhRatchet(shared, host, first, Host), GuestRatchet(shared, first, second, host),
                                 {host}, {first, second}, shared, nextKey);
      Calm(w) && HonestLogs(w)
  {
  }

  // ---- An honest exchange of codes ----

  /**
    What the host generates, what the guest generates, and when the codes are used: the guest joins at `joinedAt`
    by its own clock, the host finalizes at `finalizedAt` by its own.
  */
  datatype Exchange = Exchange(
    mode: Mode, host: HostStart, identity: KeyId, first: KeyId, second: KeyId, secret: nat, sdp: nat,
    joinedAt: int, finalizedAt: int, nextKey: KeyId)

  /** Key ids in the order in which the two peers generate their key pairs. */
  ghost predicate FreshIds(h: HostStart, identity: KeyId, first: KeyId, second: KeyId, nextKey: KeyId) {
    && h.identity < h.ratchet < first < second < nextKey
    && h.ratchet < identity < first
  }

  ghost predicate HonestExchange(x: Exchange) {
    FreshIds(x.host, x.identity, x.first, x.second, x.nextKey) && x.host.sessionId != ""
  }

  /** A code made at `made` is accepted at `now`: for five minutes, and by a clock up to 30 s behind. */
  predicate Current(made: int, now: int) {
    0 < made <= now + CLOCK_SKEW_MS && now - made <= SESSION_EXPIRY_MS
  }

  /** Both codes are used while they are current, and the host finalizes within its session's life. */
  predicate InTime(x: Exchange) {
    && Current(x.host.createdAt, x.joinedAt)
    && Current(x.joinedAt, x.finalizedAt)
    && x.finalizedAt - x.host.createdAt <= SESSION_EXPIRY_MS
  }

  /** The guest's session after joinSession. */
  function GuestLife(x: Exchange): Lifecycle.Life {
    Lifecycle.Handle(Lifecycle.Life(Lifecycle.Created, x.host.createdAt, SESSION_EXPIRY_MS),
                     Lifecycle.LifeEvent.Join, x.joinedAt)
  }

  /** The host's session after createSession and finalizeSession. */
  function HostLife(x: Exchange): Lifecycle.Life {
    var created := Lifecycle.Handle(Lifecycle.Life(Lifecycle.Created, x.host.createdAt, SESSION_EXPIRY_MS),
                                    Lifecycle.LifeEvent.Create, x.host.createdAt);
    Lifecycle.Handle(created, Lifecycle.LifeEvent.Finalize, x.finalizedAt)
  }

  function OfferRead(x: Exchange): Result<Offer> {
    ReadOffer(EncodeOffer(HostOffer(x.host)), x.joinedAt)
  }

  function JoinedBy(x: Exchange): Joined
    requires OfferRead(x).Ok? && OfferRead(x).value.publicKey.Jwk? && OfferRead(x).value.ratchetKey.Jwk?
  {
    Join(x.mode, OfferRead(x).value, x.sdp, x.identity, x.first, x.second, x.secret)
  }

  /** Every check that create, join and finalize make, with the codes as they were made. */
  predicate GoesThrough(x: Exchange) {
    && OfferRead(x).Ok? && OfferRead(x).value.publicKey.Jwk? && OfferRead(x).value.ratchetKey.Jwk?
    && GuestLife(x).status == Lifecycle.AwaitingFinalize
    && var answer := JoinedBy(x).answer;
      && ReadAnswer(EncodeAnswer(answer, x.joinedAt), x.finalizedAt, Str(x.host.sessionId)) == Ok(answer)
      && answer.publicKey.Jwk? && answer.ratchetKey.Jwk?
      && Finalize(x.mode, x.host, answer).Some?
      && HostLife(x).status == Lifecycle.Connecting
  }

  /** The untouched invite passes every check of the guest exactly while it is current, and gives it the host's keys. */
  lemma InviteArrives(h: HostStart, now: int)
    requires h.sessionId != ""
    ensures var read := ReadOffer(EncodeOffer(HostOffer(h)), now);
      && (read.Ok? <==> Current(h.createdAt, now))
      && (read.Ok? ==>
            && read.value.sdp == Sdp(h.sdp) && read.value.createdAt == Num(h.createdAt)
            && read.value.cipherText == Null
            && read.value.publicKey == Jwk(h.identity)
            && read.value.signingKey == Jwk(h.signing)
            && read.value.ratchetKey == Jwk(h.ratchet)
            && read.value.sessionId == Str(h.sessionId))
  {
    if h.createdAt != 0 {
      OfferRoundTrip(HostOffer(h), now);
      if DecodeOffer(EncodeOffer(HostOffer(h)), now).Ok? {
        DecodedBytesAreTheSignedOnes(HostOffer(h), now);
      }
    } else {
      TimelessOffer(HostOffer(h), now);
    }
    SignatureNotSigned(h);
  }

  /** An offer without a time stamp is refused. */
  lemma TimelessOffer(f: Offer, now: int)
    requires !Truthy(f.createdAt)
    ensures DecodeOffer(EncodeOffer(f), now).Err?
  {
    OfferFieldsRead(f);
    OfferFieldsDistinct(f);
    StringifyKeepsProperties(OfferFields(f), "t");
  }

  lemma AnswerArrives(answer: Answer, made: int, now: int)
    requires answer.sdp.Sdp? && answer.publicKey.Jwk? && Truthy(answer.sessionId) && answer.ratchetKey.Jwk?
    requires answer.cipherText.KemText? || answer.cipherText == Null
    ensures ReadAnswer(EncodeAnswer(answer, made), now, answer.sessionId) == Ok(answer) <==> Current(made, now)
  {
    AnswerRoundTrip(answer, made, now);
  }

  /** An answer is for one session: any other host that reads it, however early, refuses it. */
  lemma AnswerIsForOneSession(answer: Answer, made: int, now: int, reader: Json)
    requires answer.sdp.Sdp? && answer.publicKey.Jwk? && Truthy(answer.sessionId) && answer.ratchetKey.Jwk?
    requires answer.cipherText.KemText? || answer.cipherText == Null
    requires reader != answer.sessionId
    ensures ReadAnswer(EncodeAnswer(answer, made), now, reader) ==
      if !(0 < made <= now + 30000) then Err(BadTimestamp)
      else if now - made > 300000 then Err(TooOld)
      else Err(WrongSession)
  {
    AnswerRoundTrip(answer, made, now);
  }

  /**
    An invite that still names the host's signing key, but not the six fields the host signed with it, is refused:
    as unsigned if its signature is gone, as forged otherwise. The host signs nothing else with its key.
  */
  lemma AlteredInviteIsRefused(h: HostStart, code: Code, now: int)
    requires DecodeOffer(code, now).Ok? && DecodeOffer(code, now).value.signingKey == Jwk(h.signing)
    requires var offer := DecodeOffer(code, now).value;
      && !SameSignedFields(offer, HostOffer(h))
      && (offer.signature.Signature? && offer.signature.signer == h.signing ==>
            offer.signature.message == CanonicalBytes(HostOffer(h)))
    ensures ReadOffer(code, now) ==
            Err(if Truthy(DecodeOffer(code, now).value.signature) then SignatureInvalid else SignatureMissing)
  {
    CanonicalBytesCoverAll(DecodeOffer(code, now).value, HostOffer(h));
  }

  /** The signature is not among the bytes it signs. */
  lemma SignatureNotSigned(h: HostStart)
    ensures HostOffer(h).signature == Signature(h.signing, CanonicalBytes(HostOffer(h)))
  {
  }

  /** An honest exchange with untouched codes goes through, in either mode, if and only if it is in time. */
  lemma GoesThroughExactlyInTime(x: Exchange)
    requires HonestExchange(x)
    ensures GoesThrough(x) <==> InTime(x)
  {
    InviteArrives(x.host, x.joinedAt);
    LivesInTime(x);
    if Current(x.host.createdAt, x.joinedAt) {
      AnswerGoesBack(x);
    }
  }

  lemma AnswerGoesBack(x: Exchange)
    requires HonestExchange(x) && Current(x.host.createdAt, x.joinedAt)
    ensures OfferRead(x).Ok? && OfferRead(x).value.publicKey.Jwk? && OfferRead(x).value.ratchetKey.Jwk?
    ensures var answer := JoinedBy(x).answer;
      && (ReadAnswer(EncodeAnswer(answer, x.joinedAt), x.finalizedAt, Str(x.host.sessionId)) == Ok(answer)
          <==> Current(x.joinedAt, x.finalizedAt))
      && answer.publicKey.Jwk? && answer.ratchetKey.Jwk? && Finalize(x.mode, x.host, answer).Some?
  {
    InviteArrives(x.host, x.joinedAt);
    AnswerArrives(JoinedBy(x).answer, x.joinedAt, x.finalizedAt);
  }

  lemma LivesInTime(x: Exchange)
    ensures GuestLife(x).status == Lifecycle.AwaitingFinalize <==> x.joinedAt - x.host.createdAt <= SESSION_EXPIRY_MS
    ensures HostLife(x).status == Lifecycle.Connecting <==> x.finalizedAt - x.host.createdAt <= SESSION_EXPIRY_MS
  {
  }

  /**
    What an honest create, join and finalize with untouched codes leaves behind, in both modes: both peers hold
    the same handshake key, see each other's fingerprints as the other shows its own, and start in sync with the
    guest one root ahead, on its second key while the answer carried the first.
  */
  lemma HonestHandshake(x: Exchange)
    requires HonestExchange(x) && GoesThrough(x)
    ensures var joined := JoinedBy(x);
      var finalized := Finalize(x.mode, x.host, joined.answer).value;
      && joined.ratchet.pk == x.second && joined.answer.ratchetKey == Jwk(x.first)
      && joined.answer.sdp == Sdp(x.sdp) && joined.answer.publicKey == Jwk(x.identity)
      && joined.answer.sessionId == Str(x.host.sessionId)
      && finalized.shared == joined.shared
      && joined.shared == (if x.mode == KemMode then Kem(x.secret, x.host.identity, x.host.identity)
                           else DhOut(x.identity, x.host.identity))
      && finalized.local == joined.remote && finalized.remote == joined.local
      && StartsInSync(Established(finalized.ratchet, joined.ratchet, {x.host.ratchet}, {x.first, x.second},
                                  joined.shared, x.nextKey))
  {
    InviteArrives(x.host, x.joinedAt);
    KeysAgree(x.mode, x.host, OfferRead(x).value, x.identity, x.first, x.second, x.secret, x.sdp, x.nextKey);
  }

  /**
    The link of an exchange that went through: each peer ends connected if and only if the link comes up, by its
    own clock, within the session's life; otherwise it ends in Expired, for good.
  */
  lemma ConnectsExactlyWithinLife(x: Exchange, hostAt: int, guestAt: int)
    requires HonestExchange(x) && GoesThrough(x)
    ensures var host := Lifecycle.Handle(HostLife(x), Lifecycle.LinkUp, hostAt).status;
      && (host == Lifecycle.Connected <==> hostAt - x.host.createdAt <= SESSION_EXPIRY_MS)
      && (host != Lifecycle.Connected ==> host == Lifecycle.Expired)
    ensures var guest := Lifecycle.Handle(GuestLife(x), Lifecycle.LinkUp, guestAt).status;
      && (guest == Lifecycle.Connected <==> guestAt - x.host.createdAt <= SESSION_EXPIRY_MS)
      && (guest != Lifecycle.Connected ==> guest == Lifecycle.Expired)
  {
  }

  /**
    What comparing fingerprints gives the users: the guest shows, for an invite it has accepted, the fingerprint
    that the host shows for itself if and only if the invite carries the six fields the host signed, whatever
    happened to the code on the way, its signing key and signature stripped or replaced included. The host signs
    nothing else with its key.
  */
  lemma SameFingerprintSameInvite(h: HostStart, code: Code, now: int)
    requires ReadOffer(code, now).Ok?
    requires var offer := ReadOffer(code, now).value;
      offer.signature.Signature? && offer.signature.signer == h.signing ==>
        offer.signature.message == CanonicalBytes(HostOffer(h))
    ensures var offer := ReadOffer(code, now).value;
      FingerprintOf(offer.publicKey, offer.signingKey) == FingerprintOf(Jwk(h.identity), Jwk(h.signing))
      <==> SameSignedFields(offer, HostOffer(h))
  {
    CanonicalBytesCoverAll(ReadOffer(code, now).value, HostOffer(h));
  }

  /** In kem mode an answer without a cipher text, or with one that is not one, concludes nothing. */
  lemma KemNeedsCipherText(mine: KeyId, theirs: KeyId, cipherText: Json)
    ensures Conclude(KemMode, mine, theirs, cipherText).Some? <==> cipherText.KemText?
    ensures cipherText.KemText? ==>
      Conclude(KemMode, mine, theirs, cipherText) == Some(Kem(cipherText.secret, cipherText.recipient, mine))
    ensures Conclude(DhMode, mine, theirs, cipherText) == Some(DhOut(mine, theirs))
  {
  }

  /** From an offer that carries the host's keys. */
  lemma KeysAgree(mode: Mode, h: HostStart, offer: Offer, identity: KeyId, first: KeyId, second: KeyId, secret: nat,
                  sdp: nat, nextKey: KeyId)
    requires FreshIds(h, identity, first, second, nextKey)
    requires offer.publicKey == Jwk(h.identity) && offer.signingKey == Jwk(h.signing)
    requires offer.ratchetKey == Jwk(h.ratchet)
    ensures var joined := Join(mode, offer, sdp, identity, first, second, secret);
      var finalized := Finalize(mode, h, joined.answer);
      && finalized.Some?
      && finalized.value.shared == joined.shared
      && finalized.value.local == joined.remote && finalized.value.remote == joined.local
      && StartsInSync(Established(finalized.value.ratchet, joined.ratchet, {h.ratchet}, {first, second},
                                  joined.shared, nextKey))
  {
    var joined := Join(mode, offer, sdp, identity, first, second, secret);
    assert Conclude(mode, h.identity, identity, joined.answer.cipherText) == Some(joined.shared);
    SharedIsUnrelated(mode, h, identity, first, second, secret, nextKey);
    EstablishedStartsInSync(joined.shared, h.ratchet, first, second, nextKey);
  }

  /** All that the theorems about whole runs ask of the state they start from. */
  ghost predicate StartsInSync(w: World) {
    && Untouched(w.host.side) && Untouched(w.guest.side)
    && SyncedBy(w, Guest) && (exists origin :: Traceable(w, origin))
    && Calm(w) && HonestLogs(w)
  }

  lemma EstablishedStartsInSync(shared: Key, host: KeyId, first: KeyId, second: KeyId, nextKey: KeyId)
    requires host < first < second < nextKey
    requires Unrelated(shared, {host, first, second}, nextKey)
    ensures StartsInSync(Established(InitDhRatchet(shared, host, first, Host),
                                     GuestRatchet(shared, first, second, host),
                                     {host}, {first, second}, shared, nextKey))
  {
    InitialStatesAreSynced(shared, host, first, second, nextKey);
    InitialStatesAreTraceable(shared, host, first, second, nextKey);
    InitialStatesAreCalm(shared, host, first, second, nextKey);
  }

  lemma SharedIsUnrelated(mode: Mode, h: HostStart, identity: KeyId, first: KeyId, second: KeyId, secret: nat,
                          nextKey: KeyId)
    requires FreshIds(h, identity, first, second, nextKey)
    ensures Unrelated(Agree(mode, identity, h.identity, secret).0, {h.ratchet, first, second}, nextKey)
  {
  }
}
