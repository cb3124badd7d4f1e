/**
  The manager's methods on one entry, in the source's own imperative form, each proved to compute the
  function on values that the theorems are about (src/core/services/SessionManager.js).
*/
module SessionManager {
  import opened Options
  import opened Keys
  import opened Payload
  import opened ChatLog
  import opened DoubleRatchet
  import opened TwoParty
  import opened Invite
  import opened Handshake
  import opened Rekeying
  import opened Lifecycle
  import opened Sessions

  /** Map.set: an existing key keeps its place, a new one goes to the end. */
  function Store(skipped: seq<Skipped>, x: Skipped): seq<Skipped> {
    if skipped == [] then [x]
    else if skipped[0].pk == x.pk && skipped[0].n == x.n then [x] + skipped[1..]
    else [skipped[0]] + Store(skipped[1..], x)
  }

  lemma {:induction false} StoreAppends(skipped: seq<Skipped>, x: Skipped)
    requires forall i :: 0 <= i < |skipped| ==> skipped[i].n != x.n
    ensures Store(skipped, x) == skipped + [x]
  {
    if skipped != [] {
      StoreAppends(skipped[1..], x);
      assert skipped + [x] == [skipped[0]] + (skipped[1..] + [x]);
    }
  }

  lemma {:induction false} RemoveShrinks(skipped: seq<Skipped>, pk: KeyId, n: int, below: nat)
    requires Below(skipped, below)
    ensures |Remove(skipped, pk, n)| <= |skipped|
    ensures Below(Remove(skipped, pk, n), below)
  {
    if skipped != [] && !(skipped[0].pk == pk && skipped[0].n == n) {
      RemoveShrinks(skipped[1..], pk, n, below);
    }
  }

  /** One turn of the skip loop: one more skipped key, then the oldest dropped if there are too many. */
  function SkipOne(kept: seq<Skipped>, x: Skipped): seq<Skipped> {
    var more := Store(kept, x);
    if |more| > MAX_SKIPPED_KEYS then more[1..] else more
  }

  lemma WindowPush(skipped: seq<Skipped>, pk: KeyId, chain: Key, start: nat, at: nat)
    requires start <= at
    ensures var more := Window(skipped + SkipRange(pk, chain, start, at), MAX_SKIPPED_KEYS)
                        + [Skipped(pk, at, MessageKeyAt(chain, at - start))];
      (if |more| > MAX_SKIPPED_KEYS then more[1..] else more)
      == Window(skipped + SkipRange(pk, chain, start, at + 1), MAX_SKIPPED_KEYS)
  {
  }

  lemma SkipOneKeepsWindow(kept: seq<Skipped>, skipped: seq<Skipped>, pk: KeyId, chain: Key, start: nat, at: nat)
    requires start <= at
    requires kept == Window(skipped + SkipRange(pk, chain, start, at), MAX_SKIPPED_KEYS)
    requires Below(kept, at)
    ensures var more := SkipOne(kept, Skipped(pk, at, MessageKeyAt(chain, at - start)));
      more == Window(skipped + SkipRange(pk, chain, start, at + 1), MAX_SKIPPED_KEYS) && Below(more, at + 1)
  {
    StoreAppends(kept, Skipped(pk, at, MessageKeyAt(chain, at - start)));
    WindowPush(skipped, pk, chain, start, at);
  }

  class Manager {
    const mode: Mode

    constructor (mode: Mode)
      ensures this.mode == mode
    {
      this.mode := mode;
    }

    // ---- The ratchet ----

    method PerformDhRatchetStep(entry: Entry, remote: KeyId, newKey: KeyId)
      requires entry.Ready()
      modifies entry.session`rootKey, entry.session`receiveChainKey, entry.session`receiveChainIndex,
               entry.session`sendChainKey, entry.session`sendChainIndex, entry.session`dhRatchetPublicKey,
               entry.session`dhRatchetPrivateKey, entry.session`lastRemoteRatchetPubKey,
               entry.session`skippedMessageKeys
      ensures entry.Ready()
      ensures entry.View() == DhStep(old(entry.View()), remote, newKey)
    {
      var s := entry.session;
      var dhOut1 := DhOut(s.dhRatchetPrivateKey.value, remote);
      var rootAfterRecv, newRecvChain := RootOf(s.rootKey, dhOut1), ChainOf(s.rootKey, dhOut1);
      var dhOut2 := DhOut(newKey, remote);
      var rootAfterSend, newSendChain := RootOf(rootAfterRecv, dhOut2), ChainOf(rootAfterRecv, dhOut2);
      s.rootKey := rootAfterSend;
      s.receiveChainKey := newRecvChain;
      s.receiveChainIndex := 0;
      s.sendChainKey := newSendChain;
      s.sendChainIndex := 0;
      s.dhRatchetPublicKey := Some(newKey);
      s.dhRatchetPrivateKey := Some(newKey);
      s.lastRemoteRatchetPubKey := Some(remote);
      s.skippedMessageKeys := [];
    }

    method RatchetEncrypt(entry: Entry, plain: Payload, nonce: Nonce) returns (e: Envelope)
      requires entry.Ready()
      modifies entry.session`sendChainKey, entry.session`sendChainIndex
      ensures entry.Ready()
      ensures (entry.View(), e) == Encrypt(old(entry.View()), plain, nonce)
    {
      var s := entry.session;
      var messageKey, nextChainKey := MessageKey(s.sendChainKey), NextChain(s.sendChainKey);
      s.sendChainKey := nextChainKey;
      var idx := s.sendChainIndex;
      s.sendChainIndex := s.sendChainIndex + 1;
      e := Envelope(s.dhRatchetPublicKey.value, idx, Ciphertext(Some(nonce), messageKey, plain));
    }

    /** The nonce check; false where the call throws. */
    method NoteFirstUse(entry: Entry, c: Ciphertext) returns (isNew: bool)
      requires entry.Ready()
      modifies entry`seenNonces
      ensures entry.Ready()
      ensures isNew <==> !IsReplay(old(entry.View()), c)
      ensures entry.View() == if isNew then NoteNonce(old(entry.View()), c) else old(entry.View())
    {
      if c.nonce.Some? {
        if c.nonce.value in entry.seenNonces {
          return false;
        }
        entry.seenNonces := entry.seenNonces + [c.nonce.value];
        if |entry.seenNonces| > 500 {
          entry.seenNonces := entry.seenNonces[1..];
        }
      }
      return true;
    }

    /** The out-of-order lookup and the skip loop. */
    method ObtainKey(entry: Entry, pk: KeyId, n: int) returns (res: KeyResult)
      requires entry.Ready()
      modifies entry.session`receiveChainKey, entry.session`receiveChainIndex, entry.session`skippedMessageKeys
      ensures entry.Ready()
      ensures (entry.View(), res) == TakeKey(old(entry.View()), pk, n)
    {
      var s := entry.session;
      if n < s.receiveChainIndex {
        var found := Find(s.skippedMessageKeys, pk, n);
        if found.None? {
          return Denied(KeyNotFound);
        }
        RemoveShrinks(s.skippedMessageKeys, pk, n, s.receiveChainIndex);
        s.skippedMessageKeys := Remove(s.skippedMessageKeys, pk, n);
        return Granted(found.value);
      }
      if n - s.receiveChainIndex > 100 {
        return Denied(TooManySkipped);
      }
      SkipTo(entry, pk, n);
      res := Granted(MessageKey(s.receiveChainKey));
      s.receiveChainKey := NextChain(s.receiveChainKey);
      s.receiveChainIndex := s.receiveChainIndex + 1;
    }

    /** The skip loop: at most 100 turns, and what it leaves in the map. */
    method SkipTo(entry: Entry, pk: KeyId, n: nat)
      requires entry.Ready() && entry.session.receiveChainIndex <= n <= entry.session.receiveChainIndex + 100
      modifies entry.session`receiveChainKey, entry.session`receiveChainIndex, entry.session`skippedMessageKeys
      ensures entry.Ready()
      ensures var r := old(entry.View());
        entry.View() == r.(
          recv := ChainAt(r.recv, n - r.recvIdx), recvIdx := n,
          skipped := Window(r.skipped + SkipRange(pk, r.recv, r.recvIdx, n), MAX_SKIPPED_KEYS))
    {
      var s := entry.session;
      ghost var skipped, chain, start := s.skippedMessageKeys, s.receiveChainKey, s.receiveChainIndex;
      assert skipped + SkipRange(pk, chain, start, start) == skipped;
      while s.receiveChainIndex < n
        invariant start <= s.receiveChainIndex <= n
        invariant s.receiveChainKey == ChainAt(chain, s.receiveChainIndex - start)
        invariant s.skippedMessageKeys == Window(skipped + SkipRange(pk, chain, start, s.receiveChainIndex),
                                                 MAX_SKIPPED_KEYS)
        invariant Below(s.skippedMessageKeys, s.receiveChainIndex)
        decreases n - s.receiveChainIndex
      {
        var messageKey, nextChainKey := MessageKey(s.receiveChainKey), NextChain(s.receiveChainKey);
        var x := Skipped(pk, s.receiveChainIndex, messageKey);
        SkipOneKeepsWindow(s.skippedMessageKeys, skipped, pk, chain, start, s.receiveChainIndex);
        s.skippedMessageKeys := Store(s.skippedMessageKeys, x);
        s.receiveChainKey := nextChainKey;
        s.receiveChainIndex := s.receiveChainIndex + 1;
        if |s.skippedMessageKeys| > 200 {
          s.skippedMessageKeys := s.skippedMessageKeys[1..];
        }
      }
    }

    method RatchetDecrypt(entry: Entry, wire: Wire, newKey: KeyId) returns (out: Outcome)
      requires entry.Ready()
      modifies entry`seenNonces, entry.session`rootKey, entry.session`receiveChainKey, entry.session`receiveChainIndex,
               entry.session`sendChainKey, entry.session`sendChainIndex, entry.session`dhRatchetPublicKey,
               entry.session`dhRatchetPrivateKey, entry.session`lastRemoteRatchetPubKey,
               entry.session`skippedMessageKeys
      ensures entry.Ready()
      ensures (entry.View(), out) == DecryptWire(old(entry.View()), wire, newKey)
    {
      var s := entry.session;
      if wire.NotJson? {
        return Rejected(BadKey);
      }
      var isNew := NoteFirstUse(entry, if wire.Keyed? then wire.envelope.c else wire.c);
      if !isNew {
        return Rejected(DuplicateNonce);
      }
      if wire.NotAKey? {
        return Rejected(BadKey);
      }
      var e := wire.envelope;
      if Some(e.pk) != s.lastRemoteRatchetPubKey {
        PerformDhRatchetStep(entry, e.pk, newKey);
      }
      var res := ObtainKey(entry, e.pk, e.n);
      out := Open(res, e.c);
    }

    // ---- Messages ----

    /** Throws when not connected; otherwise the peer moves as `Say` does. `up` is false where transport.send throws. */
    method SendMessage(entry: Entry, id: nat, text: string, sender: string, now: int, nonce: Nonce, up: bool)
      returns (connected: bool, wire: seq<Sent>)
      requires entry.Ready()
      modifies entry`messages, entry.session`messageCounter, entry.session`sendChainKey, entry.session`sendChainIndex
      ensures entry.Ready()
      ensures connected <==> entry.session.status == Connected
      ensures !connected ==> wire == [] && entry.PeerView() == old(entry.PeerView())
      ensures connected ==>
        var p := Say(old(entry.PeerView()), id, text, sender, now, nonce, up);
        entry.PeerView() == p.(side := p.side.(sent := [])) && wire == p.side.sent
      ensures !up || !connected ==> entry.messages == old(entry.messages)
      ensures connected && up && 0 < |text| <= 10000 ==>
        entry.messages == old(entry.messages) + [LogEntry(Message(id, text, sender, now, entry.session.messageCounter),
                                                          true)]
    {
      wire := [];
      if entry.session.status != Connected {
        return false, [];
      }
      connected := true;
      var counter := entry.session.NextMessageCounter();
      if !ValidText(text) {
        return;
      }
      var m := Message(id, text, sender, now, counter);
      var e := RatchetEncrypt(entry, Chat(m), nonce);
      wire := [Sent(e, up)];
      if !up {
        return;
      }
      entry.messages := entry.messages + [LogEntry(m, true)];
    }

    /** The title is set in any case; the control message goes out only over a live connection. */
    method SendTitle(entry: Entry, title: string, nonce: Nonce, up: bool) returns (wire: seq<Sent>)
      requires entry.Ready()
      modifies entry.session`title, entry.session`sendChainKey, entry.session`sendChainIndex
      ensures entry.Ready()
      ensures if entry.session.status == Connected && entry.transport.Some?
              then var p := Tell(old(entry.PeerView()), Title, title, nonce, up);
                entry.View() == p.side.ratchet && wire == p.side.sent && entry.AppView() == p.app
              else wire == [] && entry.View() == old(entry.View())
                   && entry.AppView() == old(entry.AppView()).(title := title)
    {
      wire := [];
      entry.session.title := title;
      if entry.session.status == Connected && entry.transport.Some? {
        var e := RatchetEncrypt(entry, Control(Title, title), nonce);
        wire := [Sent(e, up)];
      }
    }

    /** The message listener of `transport`: deaf once the entry has another transport, or none. */
    method OnMessage(entry: Entry, transport: nat, wire: Wire, newKey: KeyId)
      requires entry.Ready()
      modifies entry`seenNonces, entry`messages, entry.session
      ensures entry.Ready() && entry.transport == old(entry.transport)
      ensures entry.session.LifeView() == old(entry.session.LifeView())
      ensures entry.transport != Some(transport) ==> entry.PeerView() == old(entry.PeerView())
      ensures entry.transport == Some(transport) && wire.Keyed? ==>
        var p := Hear(old(entry.PeerView()), wire.envelope, 0, newKey);
        entry.View() == p.side.ratchet && entry.AppView() == p.app
      ensures entry.transport == Some(transport) && !wire.Keyed? ==>
        entry.View() == DecryptWire(old(entry.View()), wire, newKey).0 && entry.AppView() == old(entry.AppView())
      ensures entry.transport == Some(transport) ==>
        var out := DecryptWire(old(entry.View()), wire, newKey).1;
        entry.session.title == (if out.Opened? && out.plain.Control? && out.plain.action == Title
                                   && out.plain.title != "" then out.plain.title else old(entry.session.title))
    {
      if entry.transport != Some(transport) {
        return;
      }
      var out := RatchetDecrypt(entry, wire, newKey);
      if out.Rejected? {
        return;
      }
      match out.plain
      case Chat(m) =>
        if !ValidMessage(m) {
          return;
        }
        var ok := entry.session.ValidateReceivedCounter(m.counter);
        if ok {
          entry.messages := entry.messages + [LogEntry(m, false)];
        }
      case Control(action, title) =>
        if action == Title && title != "" {
          entry.session.title := title;
        }
      case OtherTag =>
    }

    // ---- Connection ----

    /** The state listener of `transport`. */
    method OnStateChange(entry: Entry, transport: nat, up: bool, now: int)
      modifies entry.session`status
      ensures entry.session.LifeView() ==
        if entry.transport != Some(transport) then old(entry.session.LifeView())
        else Handle(old(entry.session.LifeView()), if up then LinkUp else LinkDown, now)
      ensures entry.transport == Some(transport) && !up && old(entry.session.status) in {Connected, Connecting} ==>
        entry.session.status == Disconnected
      ensures entry.transport == Some(transport) && up
              && old(entry.session.status) in {AwaitingAnswer, AwaitingFinalize, Connecting} ==>
        entry.session.status == if now > entry.session.createdAt + entry.session.expiryMs then Expired else Connected
    {
      if entry.transport != Some(transport) {
        return;
      }
      var s := entry.session;
      if up {
        if s.status == AwaitingAnswer || s.status == AwaitingFinalize {
          var ok := s.Transition(Connecting, now);
          if !ok {
            return;
          }
        }
        if s.status == Connecting {
          var ok := s.Transition(Connected, now);
        }
      } else if s.status == Connected || s.status == Connecting {
        s.status := Disconnected;
      }
    }

    method Disconnect(entry: Entry)
      modifies entry`transport, entry.session`status
      ensures entry.transport == None
      ensures forall heard, now :: entry.session.LifeView() == Handle(old(entry.session.LifeView()),
                                                                      LifeEvent.Disconnect(heard), now)
    {
      entry.transport := None;
      if entry.session.status == Connected || entry.session.status == Connecting {
        entry.session.status := Disconnected;
      }
    }

    function LinkLost(l: Life, heard: bool): Life {
      if heard then LoseLink(l) else l
    }

    /** Closing the old transport fires its state listener if one is attached (`heard`) and it was not closed before. */
    method CloseOld(entry: Entry, heard: bool)
      modifies entry.session`status
      ensures entry.session.LifeView() == LinkLost(old(entry.session.LifeView()), heard)
    {
      if heard && (entry.session.status == Connected || entry.session.status == Connecting) {
        entry.session.status := Disconnected;
      }
    }

    /** A new transport and a status change; keys, indices, nonces and messages are untouched. */
    method ReconnectAsHost(entry: Entry, sdp: nat, transport: nat, heard: bool, now: int) returns (code: Code, ok: bool)
      requires entry.Ready()
      modifies entry`transport, entry.session`status
      ensures entry.Ready() && entry.PeerView() == old(entry.PeerView()) && entry.transport == Some(transport)
      ensures (entry.session.LifeView(), ok) == Relinked(old(entry.session.LifeView()), heard, now)
      ensures entry.session.LifeView() == Handle(old(entry.session.LifeView()), LifeEvent.Reconnect(heard), now)
      ensures code == Code(Stringify(ReconnectOffer(Sdp(sdp), entry.session.id)))
    {
      CloseOld(entry, heard);
      entry.transport := Some(transport);
      code := Code(Stringify(ReconnectOffer(Sdp(sdp), entry.session.id)));
      ok := entry.session.Transition(Connecting, now);
    }

    /** The status after a reconnect, and whether its transition returned. */
    function Relinked(l: Life, heard: bool, now: int): (Life, bool) {
      Attempt(LinkLost(l, heard), Connecting, now)
    }

    /** A lost session can always be reconnected, a live one when its old transport reports the loss. */
    lemma RelinkedExactly(l: Life, heard: bool, now: int)
      ensures var (l', ok) := Relinked(l, heard, now);
        && l' == Handle(l, LifeEvent.Reconnect(heard), now)
        && (ok ==> l' == l.(status := Connecting))
        && (ok <==> l.status == Disconnected || (heard && l.status in {Connected, Connecting})
                    || (l.status in {AwaitingAnswer, AwaitingFinalize} && now <= l.createdAt + l.expiryMs))
    {
    }

    /**
      The guest forgets the nonces it has seen. In dh mode, or when no remote identity is known, the ratchet is
      untouched otherwise; in kem mode both chain keys are replaced by chains of a new handshake key for the host's
      identity key, and the cipher text goes into the answer. A code that cannot be read or is for another session
      changes nothing.
    */
    method ReconnectAsGuest(entry: Entry, code: Code, sdp: nat, transport: nat, heard: bool, secret: nat, now: int)
      returns (error: Option<InviteError>, answer: Code)
      requires entry.Ready()
      modifies entry`transport, entry`seenNonces, entry.session`status, entry.session`sharedKey,
               entry.session`sendChainKey, entry.session`receiveChainKey
      ensures entry.Ready() && entry.AppView() == old(entry.AppView())
      ensures var read := ReadReconnect(code, entry.session.id);
        && (read.Err? ==> error == Some(read.error) && unchanged(entry) && unchanged(entry.session))
        && (read.Ok? ==> entry.transport == Some(transport))
      ensures ReadReconnect(code, entry.session.id).Ok? && mode == KemMode && entry.session.remote.Fingerprint?
              && !entry.session.remote.primary.Jwk? ==>
        && error == Some(CryptoFailure) && entry.PeerView() == old(entry.PeerView())
        && entry.session.LifeView() == LinkLost(old(entry.session.LifeView()), heard)
      ensures ReadReconnect(code, entry.session.id).Ok? && mode == KemMode && entry.session.remote.Fingerprint?
              && entry.session.remote.primary.Jwk? ==>
        var host := entry.session.remote.primary.key;
        && HoldsRekeyed(entry, Guest, old(entry.View()), Kem(secret, host, host))
        && answer == Code(Stringify(ReconnectAnswer(Sdp(sdp), entry.session.id, KemText(secret, host))))
      ensures ReadReconnect(code, entry.session.id).Ok? && (mode == DhMode || entry.session.remote == Unset) ==>
        && entry.session.sharedKey == old(entry.session.sharedKey)
        && entry.View() == old(entry.View()).(nonces := [])
        && answer == Code(Stringify(ReconnectAnswer(Sdp(sdp), entry.session.id, Null)))
      ensures ReadReconnect(code, entry.session.id).Ok?
              && (mode == KemMode && entry.session.remote.Fingerprint? ==> entry.session.remote.primary.Jwk?) ==>
        && (entry.session.LifeView(), error.None?) == Relinked(old(entry.session.LifeView()), heard, now)
        && (error == None || error == Some(StatusRefused))
    {
      answer := Garbled;
      var read := ReadReconnect(code, entry.session.id);
      if read.Err? {
        return Some(read.error), answer;
      }
      CloseOld(entry, heard);
      entry.transport := Some(transport);
      var s := entry.session;
      if mode == KemMode && s.remote.Fingerprint? && !s.remote.primary.Jwk? {
        return Some(CryptoFailure), answer;
      }
      var cipherText := Rejoin(entry, secret);
      answer := Code(Stringify(ReconnectAnswer(Sdp(sdp), s.id, cipherText)));
      var ok := s.Transition(Connecting, now);
      return if ok then None else Some(StatusRefused), answer;
    }

    /** What a reconnect does to the guest's keys and nonces, and the cipher text for the host. */
    method Rejoin(entry: Entry, secret: nat) returns (cipherText: Json)
      requires entry.Ready()
      requires mode == KemMode && entry.session.remote.Fingerprint? ==> entry.session.remote.primary.Jwk?
      modifies entry`seenNonces, entry.session`sharedKey, entry.session`sendChainKey, entry.session`receiveChainKey
      ensures entry.Ready()
      ensures mode == KemMode && entry.session.remote.Fingerprint? ==>
        var host := entry.session.remote.primary.key;
        HoldsRekeyed(entry, Guest, old(entry.View()), Kem(secret, host, host)) && cipherText == KemText(secret, host)
      ensures mode == DhMode || entry.session.remote == Unset ==>
        && entry.session.sharedKey == old(entry.session.sharedKey)
        && entry.View() == old(entry.View()).(nonces := []) && cipherText == Null
    {
      cipherText := Null;
      if mode == KemMode && entry.session.remote.Fingerprint? {
        cipherText := RekeyGuest(entry.session, entry.identity, secret);
      }
      entry.seenNonces := [];
    }

    /** One peer after a kem-mode reconnect: both chains hang on `shared` alone, the rest is as before. */
    ghost predicate HoldsRekeyed(entry: Entry, role: Role, before: Ratchet, shared: Key)
      reads entry, entry.session
    {
      && entry.Ready() && entry.session.sharedKey == shared
      && entry.View() == before.(send := InitChain(if role == Guest then GuestToHost else HostToGuest, shared, NoKey),
                                 recv := InitChain(if role == Guest then HostToGuest else GuestToHost, shared, NoKey),
                                 nonces := [])
    }

    /** The kem part: a new handshake key for the host's identity key, and chains of it alone. */
    method RekeyGuest(s: Session, identity: KeyId, secret: nat) returns (cipherText: Json)
      requires s.remote.Fingerprint? && s.remote.primary.Jwk?
      modifies s`sharedKey, s`sendChainKey, s`receiveChainKey
      ensures (s.sharedKey, cipherText) == Agree(KemMode, identity, s.remote.primary.key, secret)
      ensures s.sendChainKey == SymmetricChain(Guest, s.sharedKey)
      ensures s.receiveChainKey == SymmetricChain(Host, s.sharedKey)
    {
      var (shared, text) := Agree(KemMode, identity, s.remote.primary.key, secret);
      s.sharedKey, cipherText := shared, text;
      SetSymmetricChains(s, shared, Guest);
    }

    /**
      The host forgets its nonces when the answer is back, and in kem mode replaces its chain keys by those of
      the cipher text in it. An answer that cannot be used changes nothing.
    */
    method FinalizeReconnect(entry: Entry, code: Code) returns (error: Option<InviteError>)
      requires entry.Ready()
      modifies entry`seenNonces, entry.session`sharedKey, entry.session`sendChainKey, entry.session`receiveChainKey
      ensures entry.Ready() && entry.AppView() == old(entry.AppView())
      ensures var read := ReadReconnect(code, entry.session.id);
        && (read.Err? ==> error == Some(read.error))
        && (read.Ok? ==>
              if mode == KemMode && Truthy(read.value.1) then
                match Decapsulate(read.value.1, entry.identity)
                case None => error == Some(CryptoFailure)
                case Some(shared) =>
                  error == None && HoldsRekeyed(entry, Host, old(entry.View()), shared)
              else
                && error == None && entry.session.sharedKey == old(entry.session.sharedKey)
                && entry.View() == old(entry.View()).(nonces := []))
      ensures error.Some? ==> unchanged(entry) && unchanged(entry.session)
    {
      var read := ReadReconnect(code, entry.session.id);
      if read.Err? {
        return Some(read.error);
      }
      var cipherText := read.value.1;
      if mode == KemMode && Truthy(cipherText) {
        var shared := Decapsulate(cipherText, entry.identity);
        if shared.None? {
          return Some(CryptoFailure);
        }
        entry.session.sharedKey := shared.value;
        SetSymmetricChains(entry.session, shared.value, Host);
      }
      entry.seenNonces := [];
      return None;
    }

    // ---- The handshake ----

    method CreateSession(title: string, h: HostStart, transport: nat, now: int)
      returns (entry: Option<Entry>, code: Code)
      ensures fresh(if entry.Some? then {entry.value, entry.value.session} else {})
      ensures code == EncodeOffer(HostOffer(h))
      ensures entry.Some? <==> now - h.createdAt <= SESSION_EXPIRY_MS
      ensures entry.Some? ==>
        var s := entry.value.session;
        && entry.value.identity == h.identity && entry.value.transport == Some(transport) && entry.value.Valid()
        && s.id == Str(h.sessionId) && s.role == Host && entry.value.AppView() == EMPTY_APP.(title := title)
        && s.LifeView() == Handle(Life(Created, h.createdAt, SESSION_EXPIRY_MS), Create, now)
        && s.dhRatchetPublicKey == s.dhRatchetPrivateKey == Some(h.ratchet)
        && s.local == FingerprintOf(Jwk(h.identity), Jwk(h.signing))
        && s.sendChainIndex == s.receiveChainIndex == 0 && s.skippedMessageKeys == [] && entry.value.seenNonces == []
    {
      var s := new Session(Str(h.sessionId), Host, h.createdAt, SESSION_EXPIRY_MS);
      s.title := title;
      s.local := FingerprintOf(Jwk(h.identity), Jwk(h.signing));
      s.dhRatchetPublicKey := Some(h.ratchet);
      s.dhRatchetPrivateKey := Some(h.ratchet);
      code := EncodeOffer(HostOffer(h));
      var ok := s.Transition(AwaitingAnswer, now);
      if !ok {
        return None, code;
      }
      var e := new Entry(s, h.identity, transport);
      entry := Some(e);
    }

    /** deriveRatchetKeys, for a peer that offers no ratchet key. */
    method SetSymmetricChains(s: Session, shared: Key, role: Role)
      modifies s`sendChainKey, s`receiveChainKey
      ensures s.sendChainKey == InitChain(if role == Host then HostToGuest else GuestToHost, shared, NoKey)
      ensures s.receiveChainKey == InitChain(if role == Host then GuestToHost else HostToGuest, shared, NoKey)
    {
      s.sendChainKey := InitChain(if role == Host then HostToGuest else GuestToHost, shared, NoKey);
      s.receiveChainKey := InitChain(if role == Host then GuestToHost else HostToGuest, shared, NoKey);
    }

    /**
      The ratchet part of joinSession: two key pairs and one root step of the guest's own; symmetric chains for
      an offer without a ratchet key; nothing for one whose ratchet key is falsy without being null.
    */
    method StartGuestRatchet(s: Session, offered: Json, first: KeyId, second: KeyId) returns (ratchetKey: Json)
      requires Truthy(offered) ==> offered.Jwk?
      requires s.dhRatchetPrivateKey == s.dhRatchetPublicKey
      modifies s`rootKey, s`sendChainKey, s`receiveChainKey, s`sendChainIndex, s`dhRatchetPublicKey,
               s`dhRatchetPrivateKey, s`lastRemoteRatchetPubKey
      ensures s.dhRatchetPrivateKey == s.dhRatchetPublicKey
      ensures ratchetKey == if offered.Jwk? then Jwk(first) else Null
      ensures offered.Jwk? ==> HoldsRatchet(s, GuestRatchet(s.sharedKey, first, second, offered.key))
      ensures offered.Null? ==> HoldsSymmetric(s)
      ensures !Truthy(offered) ==>
        && unchanged(s`rootKey) && unchanged(s`sendChainIndex) && unchanged(s`dhRatchetPublicKey)
        && unchanged(s`lastRemoteRatchetPubKey)
      ensures !Truthy(offered) && !offered.Null? ==> unchanged(s)
    {
      ratchetKey := Null;
      if offered.Null? {
        SetSymmetricChains(s, s.sharedKey, Guest);
      } else if Truthy(offered) {
        var host := offered.key;
        ratchetKey := Jwk(first);
        var dhOut := DhOut(first, host);
        s.rootKey := InitRoot(s.sharedKey, dhOut);
        s.sendChainKey := InitChain(GuestToHost, s.sharedKey, dhOut);
        s.receiveChainKey := InitChain(HostToGuest, s.sharedKey, dhOut);
        s.dhRatchetPublicKey := Some(first);
        s.dhRatchetPrivateKey := Some(first);
        s.lastRemoteRatchetPubKey := Some(host);
        var dhOut2 := DhOut(second, host);
        var root2, sendChain2 := RootOf(s.rootKey, dhOut2), ChainOf(s.rootKey, dhOut2);
        s.rootKey := root2;
        s.sendChainKey := sendChain2;
        s.sendChainIndex := 0;
        s.dhRatchetPublicKey := Some(second);
        s.dhRatchetPrivateKey := Some(second);
      }
    }

    /** The ratchet part of finalizeSession; false where an import throws. */
    method StartHostRatchet(s: Session, answered: Json) returns (ok: bool)
      modifies s`rootKey, s`sendChainKey, s`receiveChainKey, s`lastRemoteRatchetPubKey
      ensures ok <==> (Truthy(answered) && s.dhRatchetPrivateKey.Some? ==> answered.Jwk?)
      ensures answered.Jwk? && s.dhRatchetPrivateKey.Some? && s.dhRatchetPrivateKey == s.dhRatchetPublicKey ==>
        HoldsRatchet(s, InitDhRatchet(s.sharedKey, s.dhRatchetPrivateKey.value, answered.key,
                                      Host).(sendIdx := s.sendChainIndex))
      ensures !Truthy(answered) ==>
        && s.sendChainKey == InitChain(HostToGuest, s.sharedKey, NoKey)
        && s.receiveChainKey == InitChain(GuestToHost, s.sharedKey, NoKey)
        && unchanged(s`rootKey) && unchanged(s`lastRemoteRatchetPubKey)
      ensures !ok || (Truthy(answered) && s.dhRatchetPrivateKey.None?) ==> unchanged(s)
    {
      if !Truthy(answered) {
        SetSymmetricChains(s, s.sharedKey, Host);
      } else if s.dhRatchetPrivateKey.Some? {
        if !answered.Jwk? {
          return false;
        }
        var guest := answered.key;
        var dhOut := DhOut(s.dhRatchetPrivateKey.value, guest);
        s.rootKey := InitRoot(s.sharedKey, dhOut);
        s.sendChainKey := InitChain(HostToGuest, s.sharedKey, dhOut);
        s.receiveChainKey := InitChain(GuestToHost, s.sharedKey, dhOut);
        s.lastRemoteRatchetPubKey := Some(guest);
      }
      return true;
    }

    /** The guest's chains when no ratchet key was offered. */
    ghost predicate HoldsSymmetric(s: Session)
      reads s
    {
      && s.sendChainKey == InitChain(GuestToHost, s.sharedKey, NoKey)
      && s.receiveChainKey == InitChain(HostToGuest, s.sharedKey, NoKey)
    }

    /** The keys and the send position of `r`, all set. */
    ghost predicate HoldsRatchet(s: Session, r: Ratchet)
      reads s
    {
      && s.rootKey == r.root != NoKey && s.sendChainKey == r.send != NoKey && s.receiveChainKey == r.recv
      && s.sendChainIndex == r.sendIdx
      && s.dhRatchetPublicKey == Some(r.pk) && s.lastRemoteRatchetPubKey == Some(r.last)
    }

    /** The guest joins: what it derives is `Join`, for every acceptable offer that carries a ratchet key. */
    method JoinSession(code: Code, now: int, sdp: nat, transport: nat, identity: KeyId, first: KeyId, second: KeyId,
                       secret: nat)
      returns (entry: Option<Entry>, answer: Code, error: Option<InviteError>)
      ensures entry.Some? <==> error.None?
      ensures error == (match ReadOffer(code, now) case Ok(_) => None case Err(e) => Some(e))
      ensures entry.Some? ==>
        && fresh(entry.value) && fresh(entry.value.session)
        && HasJoined(entry.value, ReadOffer(code, now).value, now, transport, identity)
      ensures entry.Some? && ReadOffer(code, now).value.ratchetKey.Jwk? ==>
        var joined := Handshake.Join(mode, ReadOffer(code, now).value, sdp, identity, first, second, secret);
        && HoldsJoined(entry.value, joined) && answer == EncodeAnswer(joined.answer, now)
      ensures entry.Some? ==>
        var offer := ReadOffer(code, now).value;
        var (shared, cipherText) := Agree(mode, identity, offer.publicKey.key, secret);
        && entry.value.session.sharedKey == shared
        && (offer.ratchetKey.Null? ==> HoldsSymmetric(entry.value.session))
        && answer == EncodeAnswer(Answer(Sdp(sdp), Jwk(identity), offer.sessionId, cipherText,
                                         if offer.ratchetKey.Jwk? then Jwk(first) else Null), now)
    {
      answer := Garbled;
      var decoded := DecodeOffer(code, now);
      if decoded.Err? {
        return None, answer, Some(decoded.error);
      }
      var offer := decoded.value;
      var checked := CheckSignature(offer);
      if checked.Err? {
        return None, answer, Some(checked.error);
      }
      if !offer.publicKey.Jwk? || (Truthy(offer.ratchetKey) && !offer.ratchetKey.Jwk?) {
        return None, answer, Some(CryptoFailure);
      }
      var e, reply := JoinWith(offer, now, sdp, transport, identity, first, second, secret);
      return Some(e), EncodeAnswer(reply, now), None;
    }

    /** joinSession from the point where the offer is accepted. */
    method JoinWith(offer: Offer, now: int, sdp: nat, transport: nat, identity: KeyId, first: KeyId, second: KeyId,
                    secret: nat)
      returns (entry: Entry, reply: Answer)
      requires offer.publicKey.Jwk? && (Truthy(offer.ratchetKey) ==> offer.ratchetKey.Jwk?)
      requires offer.createdAt.Num? && now - offer.createdAt.n <= SESSION_EXPIRY_MS
      ensures fresh(entry) && fresh(entry.session)
      ensures HasJoined(entry, offer, now, transport, identity)
      ensures (entry.session.sharedKey, reply.cipherText) == Agree(mode, identity, offer.publicKey.key, secret)
      ensures entry.session.local == FingerprintOf(Jwk(identity), Null)
      ensures entry.session.remote == FingerprintOf(offer.publicKey, offer.signingKey)
      ensures reply == Answer(Sdp(sdp), Jwk(identity), offer.sessionId, reply.cipherText,
                              if offer.ratchetKey.Jwk? then Jwk(first) else Null)
      ensures offer.ratchetKey.Jwk? ==>
        HoldsRatchet(entry.session, GuestRatchet(entry.session.sharedKey, first, second, offer.ratchetKey.key))
      ensures offer.ratchetKey.Null? ==> HoldsSymmetric(entry.session)
    {
      var s, cipherText, ratchetKey := KeyGuest(offer, identity, first, second, secret);
      reply := Answer(Sdp(sdp), Jwk(identity), offer.sessionId, cipherText, ratchetKey);
      entry := AwaitFinalize(s, now, transport, identity);
    }

    /** The guest's new session with all its keys, and the two of them that go into the answer. */
    method KeyGuest(offer: Offer, identity: KeyId, first: KeyId, second: KeyId, secret: nat)
      returns (s: Session, cipherText: Json, ratchetKey: Json)
      requires offer.publicKey.Jwk? && (Truthy(offer.ratchetKey) ==> offer.ratchetKey.Jwk?) && offer.createdAt.Num?
      ensures fresh(s) && s.id == offer.sessionId && s.role == Guest
      ensures s.LifeView() == Life(Created, offer.createdAt.n, SESSION_EXPIRY_MS)
      ensures s.local == FingerprintOf(Jwk(identity), Null)
      ensures s.remote == FingerprintOf(offer.publicKey, offer.signingKey)
      ensures (s.sharedKey, cipherText) == Agree(mode, identity, offer.publicKey.key, secret)
      ensures s.title == "" && s.messageCounter == s.lastReceivedCounter == 0
      ensures s.receiveChainIndex == 0 && s.skippedMessageKeys == [] && s.dhRatchetPrivateKey == s.dhRatchetPublicKey
      ensures ratchetKey == if offer.ratchetKey.Jwk? then Jwk(first) else Null
      ensures offer.ratchetKey.Jwk? ==> HoldsRatchet(s, GuestRatchet(s.sharedKey, first, second, offer.ratchetKey.key))
      ensures offer.ratchetKey.Null? ==> HoldsSymmetric(s)
    {
      s, cipherText := MeetHost(offer, identity, secret);
      ratchetKey := StartGuestRatchet(s, offer.ratchetKey, first, second);
    }

    /** The new session waits for the host; the manager keeps it in a new entry. */
    method AwaitFinalize(s: Session, now: int, transport: nat, identity: KeyId) returns (entry: Entry)
      requires s.status == Created && now - s.createdAt <= s.expiryMs
      modifies s`status
      ensures s.status == AwaitingFinalize
      ensures fresh(entry) && entry.session == s && entry.identity == identity && entry.transport == Some(transport)
      ensures entry.seenNonces == [] && entry.messages == []
    {
      var ok := s.Transition(AwaitingFinalize, now);
      entry := new Entry(s, identity, transport);
    }

    /** The guest's new session: both identities and the handshake key. */
    method MeetHost(offer: Offer, identity: KeyId, secret: nat) returns (s: Session, cipherText: Json)
      requires offer.publicKey.Jwk? && offer.createdAt.Num?
      ensures fresh(s) && s.id == offer.sessionId && s.role == Guest
      ensures s.LifeView() == Life(Created, offer.createdAt.n, SESSION_EXPIRY_MS)
      ensures s.local == FingerprintOf(Jwk(identity), Null)
      ensures s.remote == FingerprintOf(offer.publicKey, offer.signingKey)
      ensures (s.sharedKey, cipherText) == Agree(mode, identity, offer.publicKey.key, secret)
      ensures s.title == "" && s.dhRatchetPublicKey == s.dhRatchetPrivateKey == None && s.skippedMessageKeys == []
      ensures s.sendChainIndex == s.receiveChainIndex == s.messageCounter == s.lastReceivedCounter == 0
    {
      s := new Session(offer.sessionId, Guest, offer.createdAt.n, SESSION_EXPIRY_MS);
      s.local := FingerprintOf(Jwk(identity), Null);
      s.remote := FingerprintOf(offer.publicKey, offer.signingKey);
      var (sharedKey, text) := Agree(mode, identity, offer.publicKey.key, secret);
      s.sharedKey, cipherText := sharedKey, text;
    }

    ghost predicate HasJoined(entry: Entry, offer: Offer, now: int, transport: nat, identity: KeyId)
      requires offer.createdAt.Num?
      reads entry, entry.session
    {
      && entry.Valid() && entry.AppView() == EMPTY_APP
      && entry.identity == identity && entry.transport == Some(transport)
      && entry.session.id == offer.sessionId && entry.session.role == Guest
      && entry.session.LifeView() == Handle(Life(Created, offer.createdAt.n, SESSION_EXPIRY_MS), LifeEvent.Join, now)
      && entry.session.status == AwaitingFinalize
      && entry.session.receiveChainIndex == 0 && entry.session.skippedMessageKeys == [] && entry.seenNonces == []
    }

    ghost predicate HoldsJoined(entry: Entry, joined: Joined)
      reads entry, entry.session
    {
      && entry.Ready() && entry.View() == joined.ratchet
      && entry.session.sharedKey == joined.shared
      && entry.session.local == joined.local && entry.session.remote == joined.remote
    }

    /**
      The host finalizes. With a ratchet key on both sides its state is `InitDhRatchet`, with indices, buffer
      and nonces as they were: all empty the first time.
    */
    method FinalizeSession(entry: Entry, code: Code, now: int) returns (error: Option<InviteError>)
      requires entry.Valid()
      modifies entry.session
      ensures entry.Valid() && entry.AppView() == old(entry.AppView())
      ensures entry.session.local == old(entry.session.local)
      ensures var read := ReadAnswer(code, now, entry.session.id);
        read.Err? ==> error == Some(read.error) && unchanged(entry.session)
      ensures match DecodeAnswer(code, now)
        case Err(e) => error == Some(e) && unchanged(entry.session)
        case Ok(answer) =>
          && (answer.sessionId != entry.session.id ==> error == Some(WrongSession) && unchanged(entry.session))
          && (answer.sessionId == entry.session.id && !answer.publicKey.Jwk? ==>
                error == Some(CryptoFailure) && unchanged(entry.session))
      ensures ReadAnswer(code, now, entry.session.id).Ok? ==>
        var answer := ReadAnswer(code, now, entry.session.id).value;
        && entry.session.remote == FingerprintOf(answer.publicKey, Null)
        && HoldsFinalized(entry, answer, old(Ratchets(entry)))
        && (Conclude(mode, entry.identity, answer.publicKey.key, answer.cipherText).None? ==>
              HandshakeKeys(entry.session) == old(HandshakeKeys(entry.session)))
        && (entry.session.fingerprintVerified <==>
              old(entry.session.fingerprintVerified) && old(entry.session.remote) in {Unset, entry.session.remote})
        && (!Finalizable(entry, answer) ==>
              error == Some(CryptoFailure) && entry.session.LifeView() == old(entry.session.LifeView()))
        && (Finalizable(entry, answer) ==>
              && entry.session.LifeView() == Handle(old(entry.session.LifeView()), LifeEvent.Finalize, now)
              && error == if Attempt(old(entry.session.LifeView()), Connecting, now).1 then None
                          else Some(StatusRefused))
    {
      var decoded := DecodeAnswer(code, now);
      if decoded.Err? {
        return Some(decoded.error);
      }
      var answer := decoded.value;
      if answer.sessionId != entry.session.id {
        return Some(WrongSession);
      }
      if !answer.publicKey.Jwk? {
        return Some(CryptoFailure);
      }
      error := FinalizeWith(entry, answer, now);
    }

    /** finalizeSession from the point where the answer is accepted. */
    method FinalizeWith(entry: Entry, answer: Answer, now: int) returns (error: Option<InviteError>)
      requires entry.Valid() && answer.publicKey.Jwk?
      modifies entry.session
      ensures entry.Valid() && entry.AppView() == old(entry.AppView())
      ensures entry.session.local == old(entry.session.local)
      ensures entry.session.remote == FingerprintOf(answer.publicKey, Null)
      ensures HoldsFinalized(entry, answer, old(Ratchets(entry)))
      ensures Conclude(mode, entry.identity, answer.publicKey.key, answer.cipherText).None? ==>
        HandshakeKeys(entry.session) == old(HandshakeKeys(entry.session))
      ensures entry.session.fingerprintVerified <==>
        old(entry.session.fingerprintVerified) && old(entry.session.remote) in {Unset, entry.session.remote}
      ensures !Finalizable(entry, answer) ==>
        error == Some(CryptoFailure) && entry.session.LifeView() == old(entry.session.LifeView())
      ensures Finalizable(entry, answer) ==>
        && entry.session.LifeView() == Handle(old(entry.session.LifeView()), LifeEvent.Finalize, now)
        && error == if Attempt(old(entry.session.LifeView()), Connecting, now).1 then None else Some(StatusRefused)
    {
      var agreed := AgreeWithGuest(entry, answer);
      if !agreed {
        return Some(CryptoFailure);
      }
      var ok := entry.session.Transition(Connecting, now);
      return if ok then None else Some(StatusRefused);
    }

    /** The keys of finalizeSession; false where a crypto call throws. */
    method AgreeWithGuest(entry: Entry, answer: Answer) returns (ok: bool)
      requires entry.Valid() && answer.publicKey.Jwk?
      modifies entry.session`remote, entry.session`fingerprintVerified, entry.session`sharedKey, entry.session`rootKey,
               entry.session`sendChainKey, entry.session`receiveChainKey, entry.session`lastRemoteRatchetPubKey
      ensures entry.Valid() && entry.session.remote == FingerprintOf(answer.publicKey, Null)
      ensures HoldsFinalized(entry, answer, old(Ratchets(entry)))
      ensures ok <==> Finalizable(entry, answer)
      ensures Conclude(mode, entry.identity, answer.publicKey.key, answer.cipherText).None? ==>
        HandshakeKeys(entry.session) == old(HandshakeKeys(entry.session))
      ensures entry.session.fingerprintVerified <==>
        old(entry.session.fingerprintVerified) && old(entry.session.remote) in {Unset, entry.session.remote}
    {
      var s := entry.session;
      SetRemote(s, FingerprintOf(answer.publicKey, Null));
      var shared := Conclude(mode, entry.identity, answer.publicKey.key, answer.cipherText);
      if shared.None? {
        return false;
      }
      s.sharedKey := shared.value;
      ok := StartHostRatchet(s, answer.ratchetKey);
    }

    /** A changed fingerprint is no longer a verified one. */
    method SetRemote(s: Session, remote: Fingerprint)
      modifies s`remote, s`fingerprintVerified
      ensures s.remote == remote
      ensures s.fingerprintVerified <==>
        old(s.fingerprintVerified) && (old(s.remote) == Unset || old(s.remote) == remote)
    {
      if s.remote != Unset && s.remote != remote {
        s.fingerprintVerified := false;
      }
      s.remote := remote;
    }

    /** All that the handshake derives. */
    ghost function HandshakeKeys(s: Session): (Key, Key, Key, Key, Option<KeyId>)
      reads s
    {
      (s.sharedKey, s.rootKey, s.sendChainKey, s.receiveChainKey, s.lastRemoteRatchetPubKey)
    }

    /** What finalizing keeps of the entry's ratchet: its key pair, indices and buffer. */
    ghost function Ratchets(entry: Entry): (Option<KeyId>, nat, nat, seq<Skipped>)
      reads entry, entry.session
    {
      (entry.session.dhRatchetPublicKey, entry.session.sendChainIndex, entry.session.receiveChainIndex,
       entry.session.skippedMessageKeys)
    }

    ghost predicate HoldsFinalized(entry: Entry, answer: Answer, before: (Option<KeyId>, nat, nat, seq<Skipped>))
      requires answer.publicKey.Jwk?
      reads entry, entry.session
    {
      match Conclude(mode, entry.identity, answer.publicKey.key, answer.cipherText)
      case None => true
      case Some(shared) =>
        && entry.session.sharedKey == shared
        && Ratchets(entry) == before
        && (!Truthy(answer.ratchetKey) ==>
              && entry.session.sendChainKey == InitChain(HostToGuest, shared, NoKey)
              && entry.session.receiveChainKey == InitChain(GuestToHost, shared, NoKey))
        && (answer.ratchetKey.Jwk? && before.0.Some? ==>
              && entry.Ready()
              && entry.View() == InitDhRatchet(shared, before.0.value, answer.ratchetKey.key, Host).(
                   sendIdx := before.1, recvIdx := before.2, skipped := before.3, nonces := entry.seenNonces))
    }

    /** The keys of the answer fit: its cipher text opens, and its ratchet key, if used, can be imported. */
    ghost predicate Finalizable(entry: Entry, answer: Answer)
      requires answer.publicKey.Jwk?
      reads entry, entry.session
    {
      && Conclude(mode, entry.identity, answer.publicKey.key, answer.cipherText).Some?
      && (Truthy(answer.ratchetKey) && entry.session.dhRatchetPublicKey.Some? ==> answer.ratchetKey.Jwk?)
    }
  }
}
