/**
  The session record and the entry the manager keeps for it, updated in place
  (src/core/domain/Session.js, src/core/services/SessionManager.js:38-39).
*/
module Sessions {
  import opened Options
  import opened Keys
  import opened ChatLog
  import opened DoubleRatchet
  import opened TwoParty
  import opened Invite
  import opened Handshake
  import opened Lifecycle

  ghost predicate Below(skipped: seq<Skipped>, bound: nat) {
    forall i :: 0 <= i < |skipped| ==> skipped[i].n < bound
  }

  class Session {
    const id: Json
    const role: Role
    const createdAt: int
    const expiryMs: int
    var status: Status
    var title: string
    var local: Fingerprint
    var remote: Fingerprint
    var fingerprintVerified: bool
    var sharedKey: Key
    var sendChainKey: Key
    var receiveChainKey: Key
    var rootKey: Key
    var dhRatchetPublicKey: Option<KeyId>
    var dhRatchetPrivateKey: Option<KeyId>
    var lastRemoteRatchetPubKey: Option<KeyId>
    var sendChainIndex: nat
    var receiveChainIndex: nat
    var skippedMessageKeys: seq<Skipped>
    var messageCounter: nat
    var lastReceivedCounter: nat

    constructor (id: Json, role: Role, createdAt: int, expiryMs: int)
      ensures this.id == id && this.role == role && LifeView() == Life(Created, createdAt, expiryMs)
      ensures title == "" && local == Unset && remote == Unset && !fingerprintVerified
      ensures sharedKey == sendChainKey == receiveChainKey == rootKey == NoKey
      ensures dhRatchetPublicKey == dhRatchetPrivateKey == lastRemoteRatchetPubKey == None
      ensures sendChainIndex == receiveChainIndex == messageCounter == lastReceivedCounter == 0
      ensures skippedMessageKeys == []
    {
      this.id, this.role, this.createdAt, this.expiryMs := id, role, createdAt, expiryMs;
      status, title, local, remote, fingerprintVerified := Created, "", Unset, Unset, false;
      sharedKey, sendChainKey, receiveChainKey, rootKey := NoKey, NoKey, NoKey, NoKey;
      dhRatchetPublicKey, dhRatchetPrivateKey, lastRemoteRatchetPubKey := None, None, None;
      sendChainIndex, receiveChainIndex, skippedMessageKeys := 0, 0, [];
      messageCounter, lastReceivedCounter := 0, 0;
    }

    function LifeView(): Life
      reads this
    {
      Life(status, createdAt, expiryMs)
    }

    /** False where the source throws. */
    method Transition(target: Status, now: int) returns (ok: bool)
      modifies this`status
      ensures (LifeView(), ok) == Attempt(old(LifeView()), target, now)
    {
      if now - createdAt > expiryMs && status != Disconnected && target != Expired && target != Failed {
        status := Expired;
        return false;
      }
      if !Edge(status, target) {
        return false;
      }
      status := target;
      return true;
    }

    method NextMessageCounter() returns (counter: nat)
      modifies this`messageCounter
      ensures counter == messageCounter == old(messageCounter) + 1
    {
      messageCounter := messageCounter + 1;
      counter := messageCounter;
    }

    method ValidateReceivedCounter(counter: int) returns (ok: bool)
      modifies this`lastReceivedCounter
      ensures ok <==> CounterAccepted(old(lastReceivedCounter), counter)
      ensures lastReceivedCounter == if ok then counter else old(lastReceivedCounter)
    {
      if counter < 1 {
        return false;
      }
      if counter <= lastReceivedCounter {
        return false;
      }
      if counter - lastReceivedCounter > 10000 {
        return false;
      }
      lastReceivedCounter := counter;
      return true;
    }
  }

  /** `identity` is the id of the entry's identity key pair; transports are numbered. */
  class Entry {
    const session: Session
    const identity: KeyId
    var transport: Option<nat>
    var seenNonces: seq<Nonce>
    var messages: seq<LogEntry>

    constructor (session: Session, identity: KeyId, transport: nat)
      ensures this.session == session && this.identity == identity
      ensures this.transport == Some(transport) && seenNonces == [] && messages == []
    {
      this.session, this.identity := session, identity;
      this.transport, seenNonces, messages := Some(transport), [], [];
    }

    /** The bounded collections keep to their bounds, every skipped index is a passed one, and key pairs stay whole. */
    ghost predicate Valid()
      reads this, session
    {
      && |session.skippedMessageKeys| <= MAX_SKIPPED_KEYS
      && |seenNonces| <= MAX_NONCES
      && Below(session.skippedMessageKeys, session.receiveChainIndex)
      && session.dhRatchetPrivateKey == session.dhRatchetPublicKey
    }

    /** The handshake has set up the DH ratchet. */
    ghost predicate Ready()
      reads this, session
    {
      && Valid()
      && session.rootKey != NoKey
      && session.sendChainKey != NoKey
      && session.dhRatchetPublicKey.Some?
      && session.lastRemoteRatchetPubKey.Some?
    }

    ghost function View(): Ratchet
      reads this, session
      requires Ready()
    {
      Ratchet(session.rootKey, session.sendChainKey, session.sendChainIndex,
              session.receiveChainKey, session.receiveChainIndex,
              session.dhRatchetPublicKey.value, session.lastRemoteRatchetPubKey.value,
              session.skippedMessageKeys, seenNonces)
    }

    ghost function AppView(): App
      reads this, session
    {
      App(session.messageCounter, session.lastReceivedCounter, messages, session.title)
    }

    /** This peer as one side of the two-party system, before it has sent anything. */
    ghost function PeerView(): Peer
      reads this, session
      requires Ready()
    {
      Peer(Side(View(), {}, [], [], [], 0), AppView())
    }
  }
}
