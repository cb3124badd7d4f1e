/**
  The guarantees of a whole session, from the invite to the last message: an honest exchange of untouched
  codes, in either handshake mode, followed by any run of the two peers. Reconnects of the two modes differ,
  and so do the guarantees about them.
*/
module Guarantees {
  import opened Keys
  import opened Payload
  import opened ChatLog
  import opened DoubleRatchet
  import opened TwoParty
  import opened Lineage
  import opened Secrecy
  import opened Conversation
  import opened Titles
  import opened Handshake
  import opened Delivery
  import opened Rekeying
  import opened RekeyedKeys
  import opened RekeyedSecrecy
  import opened RekeyedHealing
  import opened Healing

  /** `w` is where an exchange leads that passes every check of both peers. */
  ghost predicate Opens(x: Exchange, w: World) {
    && GoesThrough(x)
    && var joined := JoinedBy(x);
      w == Established(Finalize(x.mode, x.host, joined.answer).value.ratchet, joined.ratchet, {x.host.ratchet},
                       {x.first, x.second}, joined.shared, x.nextKey)
  }

  lemma OpensInSync(x: Exchange, w: World)
    requires HonestExchange(x) && Opens(x, w)
    ensures StartsInSync(w)
  {
    HonestHandshake(x);
  }

  lemma OpensBlank(x: Exchange, w: World)
    requires Opens(x, w)
    ensures w.host.app == w.guest.app == EMPTY_APP && Untouched(w.host.side) && Untouched(w.guest.side)
  {
  }

  /** An honest exchange opens a session if and only if it is in time. */
  lemma HonestExchangeOpens(x: Exchange)
    requires HonestExchange(x)
    ensures (exists w :: Opens(x, w)) <==> InTime(x)
  {
    GoesThroughExactlyInTime(x);
    if InTime(x) {
      var joined := JoinedBy(x);
      assert Opens(x, Established(Finalize(x.mode, x.host, joined.answer).value.ratchet, joined.ratchet,
                                  {x.host.ratchet},
                                  {x.first, x.second}, joined.shared, x.nextKey));
    }
  }

  /** The reconnects of the two-party system are dh-mode ones; for kem mode see the last two guarantees. */
  ghost predicate DhReconnects(x: Exchange, evs: seq<Event>) {
    x.mode == KemMode ==> forall i :: 0 <= i < |evs| ==> !evs[i].Reconnect?
  }

  /** The ratchet state and its private key give away the key of nothing this side has encrypted. */
  ghost predicate SentIsSecret(s: Side) {
    forall i :: 0 <= i < |s.sent| ==> !Derivable(Captured(s.ratchet), {s.ratchet.pk}, s.sent[i].envelope.c.key)
  }

  /** Nor the key of anything it has opened. */
  ghost predicate OpenedIsSecret(r: Side, s: Side) {
    forall k :: 0 <= k < |r.decrypted| && r.decrypted[k] < |s.sent| ==>
      !Derivable(Captured(r.ratchet), {r.ratchet.pk}, s.sent[r.decrypted[k]].envelope.c.key)
  }

  lemma SentSecretInRun(w: World, evs: seq<Event>, origin: Key, who: Role)
    requires Synced(w) && Traceable(w, origin) && Admissible(w, evs)
    ensures SentIsSecret(Get(Run(w, evs), who).side)
  {
    forall i | 0 <= i < |Get(Run(w, evs), who).side.sent|
      ensures var s := Get(Run(w, evs), who).side;
        !Derivable(Captured(s.ratchet), {s.ratchet.pk}, s.sent[i].envelope.c.key)
    {
      ForwardSecrecy(w, evs, origin, who, i);
    }
  }

  lemma OpenedSecretInRun(w: World, evs: seq<Event>, origin: Key, who: Role)
    requires Synced(w) && Traceable(w, origin) && BothHang(w) && Admissible(w, evs)
    ensures OpenedIsSecret(Get(Run(w, evs), who).side, Get(Run(w, evs), Other(who)).side)
  {
    forall k | 0 <= k < |Get(Run(w, evs), who).side.decrypted|
      ensures var r, s := Get(Run(w, evs), who).side, Get(Run(w, evs), Other(who)).side;
        && r.decrypted[k] < |s.sent|
        && !Derivable(Captured(r.ratchet), {r.ratchet.pk}, s.sent[r.decrypted[k]].envelope.c.key)
    {
      OpenedStaySecret(w, evs, origin, who, k);
    }
  }

  /**
    Any run, with losses, duplicates, reordering inside an epoch, failed sends and dh-mode reconnects: the peers
    stay in sync, and every delivery throws or gives exactly what was encrypted, at most once per envelope.
  */
  lemma EverySessionIsFaithful(x: Exchange, w: World, evs: seq<Event>, who: Role, at: nat)
    requires HonestExchange(x) && Opens(x, w) && DhReconnects(x, evs)
    requires Admissible(w, evs) && Enabled(Run(w, evs), Deliver(who, at))
    ensures var now := Run(w, evs);
      && Synced(now)
      && Faithful(Get(now, Other(who)).side, Get(now, who).side, at, TwoParty.Result(now, who, at))
  {
    OpensInSync(x, w);
    RunKeepsSync(w, evs);
    EveryDeliveryIsFaithful(w, evs, who, at);
  }

  /**
    And a delivery opens exactly when its nonce is new, it was not opened before, and its index was neither given
    up nor lies more than 100 ahead.
  */
  lemma EverySessionOpensExactly(x: Exchange, w: World, evs: seq<Event>, who: Role, at: nat)
    requires HonestExchange(x) && Opens(x, w) && DhReconnects(x, evs)
    requires Admissible(w, evs) && Enabled(Run(w, evs), Deliver(who, at))
    ensures var now := Run(w, evs);
      TwoParty.Result(now, who, at).Opened? <==>
      ShouldOpen(Get(now, who).side, Of(ListenRun(w, Listening(w), evs), who),
                 Get(now, Other(who)).side.sent[at].envelope, at)
  {
    OpensInSync(x, w);
    ExactDelivery(w, evs, who, at);
  }

  /**
    In any such run, a peer's own log is exactly the chats that went out, in order; and a received log is a
    subsequence of it, with strictly rising counters.
  */
  lemma EverySessionKeepsItsLogs(x: Exchange, w: World, evs: seq<Event>, who: Role)
    requires HonestExchange(x) && Opens(x, w) && DhReconnects(x, evs) && Admissible(w, evs)
    ensures var now := Run(w, evs);
      var own, received := Picked(Get(now, Other(who)).app.messages, true), Picked(Get(now, who).app.messages, false);
      own == WiredChats(Get(now, Other(who)).side.sent) && Subsequence(received, own) && Rising(received)
  {
    OpensInSync(x, w);
    OwnLogIsWhatWentOut(w, evs, Other(who));
    LossyConversation(w, evs, who);
  }

  /** In any such run, a captured ratchet state gives away the key of nothing the peer has sent or opened so far. */
  lemma EverySessionIsForwardSecret(x: Exchange, w: World, evs: seq<Event>, who: Role)
    requires HonestExchange(x) && Opens(x, w) && DhReconnects(x, evs) && Admissible(w, evs)
    ensures SentIsSecret(Get(Run(w, evs), who).side)
    ensures OpenedIsSecret(Get(Run(w, evs), who).side, Get(Run(w, evs), Other(who)).side)
  {
    OpensInSync(x, w);
    var origin :| Traceable(w, origin);
    SentSecretInRun(w, evs, origin, who);
    OpenedSecretInRun(w, evs, origin, who);
  }

  /**
    Healing: capture a peer's whole ratchet state after any such run, and let the session go on in any way. Once
    the peer has another ratchet key its root and send chain are out of reach, and so is the key of every envelope
    from two roots past the captured one on.
  */
  lemma EverySessionHeals(x: Exchange, w: World, before: seq<Event>, evs: seq<Event>, victim: Role)
    requires HonestExchange(x) && Opens(x, w) && DhReconnects(x, before) && DhReconnects(x, evs)
    requires Admissible(w, before) && Admissible(Run(w, before), evs)
    ensures var captured, now := Get(Run(w, before), victim).side.ratchet, Run(Run(w, before), evs);
      && VictimHealed(captured, Get(now, victim).side)
      && EnvelopesHealed(captured, now.host.side) && EnvelopesHealed(captured, now.guest.side)
  {
    RunIsReachable(x, w, before);
    var origin := RunIsTraceable(x, w, before);
    CompromiseHeals(Run(w, before), victim, origin, evs);
  }

  /** In any such run, a peer's title is the last one that was set here or opened in a title message. */
  lemma EverySessionKeepsItsTitle(x: Exchange, w: World, evs: seq<Event>, who: Role)
    requires HonestExchange(x) && Opens(x, w) && DhReconnects(x, evs) && Admissible(w, evs)
    ensures var title := Get(Run(w, evs), who).app.title;
      title == Last("", TitleHistory(w, evs, who)) && (title == "" || title in TitlesSet(evs))
  {
    OpensBlank(x, w);
    TitleIsTheLastOne(w, evs, who);
    EveryTitleWasSet(w, evs, who);
  }

  /**
    Over lossless first-in-first-out channels: nothing is buffered, and what a peer has received is a prefix of
    what the other sent, and all of it once the channel is empty.
  */
  lemma EveryLosslessSession(x: Exchange, w: World, evs: seq<Event>, who: Role)
    requires HonestExchange(x) && Opens(x, w) && FifoRun(w, evs)
    ensures LogsArePrefix(AfterFifo(w, evs), who)
  {
    OpensInSync(x, w);
    LosslessConversation(w, evs, who);
  }

  /** And there decryption never throws: the next envelope always opens. */
  lemma EveryLosslessDeliveryOpens(x: Exchange, w: World, evs: seq<Event>, who: Role)
    requires HonestExchange(x) && Opens(x, w) && FifoRun(w, evs)
    requires Pending(AfterFifo(w, evs), who)
    ensures NextOpens(AfterFifo(w, evs), who)
  {
    OpensInSync(x, w);
    LosslessDelivery(w, evs, who);
  }

  // ---- Reconnects in kem mode ----

  lemma RunIsReachable(x: Exchange, w: World, evs: seq<Event>)
    requires HonestExchange(x) && Opens(x, w) && Admissible(w, evs)
    ensures Reachable(Run(w, evs))
  {
    OpensInSync(x, w);
    StartTied(w);
    RunKeepsTied(w, Listening(w), evs);
  }

  /**
    A kem-mode session that has been reconnected after any run `before`, and goes on in any way, reconnects
    included. Every delivery turns out as it would have done after dh-mode reconnects, except that one that
    would have opened is rejected when its envelope does not survive the latest re-keying.
  */
  lemma EveryKemSessionOpensExactly(x: Exchange, w: World, before: seq<Event>, shared: Key, evs: seq<KemEvent>,
                                    who: Role, at: nat)
    requires x.mode == KemMode && HonestExchange(x) && Opens(x, w) && DhReconnects(x, before) && Admissible(w, before)
    requires KemAdmissible(RekeyBoth(Run(w, before), shared), evs)
    requires Enabled(KemRun(RekeyBoth(Run(w, before), shared), evs), Deliver(who, at))
    ensures var now := Run(w, before);
      && DhAdmissible(RelinkBoth(now), evs)
      && var dh, kem := DhRun(RelinkBoth(now), evs), KemRun(RekeyBoth(now, shared), evs);
        && Enabled(dh, Deliver(who, at))
        && var e := Get(kem, Other(who)).side.sent[at].envelope;
          var m := MarkTo(MarksRun(RekeyBoth(now, shared), MarksAt(now, shared), evs), who);
          TwoParty.Result(kem, who, at) == Expected(TwoParty.Result(dh, who, at), e.c.plain, m, e)
  {
    RunIsReachable(x, w, before);
    ExactlySurvivorsOpen(Run(w, before), shared, evs, who, at);
  }

  /**
    The failure, at the earliest input: an honest kem-mode exchange, one reconnect, and the guest's first chat. It
    is delivered and rejected, where it would have opened after a dh-mode reconnect.
  */
  lemma EveryKemReconnectLosesAMessage(x: Exchange, w: World, shared: Key, chat: Event)
    requires x.mode == KemMode && HonestExchange(x) && Opens(x, w)
    requires chat.SendChat? && chat.from == Guest && ValidText(chat.text) && chat.wired
    ensures !Synced(RekeyBoth(w, shared))
    ensures var dh, kem := Next(RelinkBoth(w), chat), Next(RekeyBoth(w, shared), chat);
      && Enabled(dh, Deliver(Host, 0)) && TwoParty.Result(dh, Host, 0).Opened?
      && Enabled(kem, Deliver(Host, 0)) && TwoParty.Result(kem, Host, 0) == Rejected(BadCiphertext)
  {
    OpensInSync(x, w);
    RunIsReachable(x, w, []);
    RekeyBreaksSync(w, shared);
    LeadersFirstMessageLost(w, Guest, shared, chat);
  }

  /** In kem mode, over any run and any reconnects, the logs are the same. */
  lemma EveryKemSessionKeepsItsLogs(x: Exchange, w: World, evs: seq<KemEvent>, who: Role)
    requires x.mode == KemMode && HonestExchange(x) && Opens(x, w) && KemAdmissible(w, evs)
    ensures var now := KemRun(w, evs);
      var own, received := Picked(Get(now, Other(who)).app.messages, true), Picked(Get(now, who).app.messages, false);
      own == WiredChats(Get(now, Other(who)).side.sent) && Subsequence(received, own) && Rising(received)
  {
    OpensInSync(x, w);
    KemRunKeepsOwnLogs(w, evs);
    KemConversation(w, evs, who);
  }

  /** `evs` reconnects with handshake keys for the host's identity key, each a new one. */
  ghost predicate FreshReconnects(x: Exchange, shared: Key, evs: seq<KemEvent>) {
    shared.Kem? && shared.opener == x.host.identity && GoodSecrets(evs, {shared}, x.host.identity)
  }

  lemma RunIsTraceable(x: Exchange, w: World, evs: seq<Event>) returns (origin: Key)
    requires HonestExchange(x) && Opens(x, w) && Admissible(w, evs)
    ensures Traceable(Run(w, evs), origin) && BothHang(Run(w, evs)) && NoRatchetKey(Run(w, evs), x.host.identity)
  {
    OpensInSync(x, w);
    origin :| Traceable(w, origin);
    RunKeepsTrace(w, evs, origin);
    RunKeepsHang(w, evs, origin);
    RunKeepsIdentity(w, origin, x.host.identity, evs);
  }

  /**
    In kem mode, at any point of any run with reconnects, a captured ratchet state gives away nothing sent or
    opened.
  */
  lemma EveryKemSessionIsForwardSecret(x: Exchange, w: World, before: seq<Event>, shared: Key, evs: seq<KemEvent>,
                                       who: Role)
    requires x.mode == KemMode && HonestExchange(x) && Opens(x, w) && DhReconnects(x, before) && Admissible(w, before)
    requires FreshReconnects(x, shared, evs) && KemAdmissible(RekeyBoth(Run(w, before), shared), evs)
    ensures KeepsSecrets(KemRun(RekeyBoth(Run(w, before), shared), evs), who)
  {
    RunIsReachable(x, w, before);
    var origin := RunIsTraceable(x, w, before);
    KemForwardSecrecy(Run(w, before), origin, shared, x.host.identity, evs, who);
  }

  /**
    Healing in kem mode, with reconnects before and after the capture: out of reach are also all keys of chains
    that a reconnect has set since.
  */
  lemma EveryKemSessionHeals(x: Exchange, w: World, before: seq<Event>, shared: Key, evs: seq<KemEvent>,
                             after: seq<KemEvent>, victim: Role)
    requires x.mode == KemMode && HonestExchange(x) && Opens(x, w) && DhReconnects(x, before) && Admissible(w, before)
    requires FreshReconnects(x, shared, evs) && KemAdmissible(RekeyBoth(Run(w, before), shared), evs)
    requires KemAdmissible(KemRun(RekeyBoth(Run(w, before), shared), evs), after)
    requires GoodSecrets(after, UsedAfter({shared}, evs), x.host.identity)
    ensures var capture := KemRun(RekeyBoth(Run(w, before), shared), evs);
      Recovered(Get(capture, victim).side.ratchet, KemRun(capture, after), victim, UsedAfter({shared}, evs))
  {
    RunIsReachable(x, w, before);
    var origin := RunIsTraceable(x, w, before);
    KemCompromiseHeals(Run(w, before), origin, shared, x.host.identity, evs, after, victim);
  }

  /** And no message key is used twice, by either peer, before or after any reconnect. */
  lemma EveryKemSessionUsesKeysOnce(x: Exchange, w: World, before: seq<Event>, shared: Key, evs: seq<KemEvent>,
                                    who: Role)
    requires x.mode == KemMode && HonestExchange(x) && Opens(x, w) && DhReconnects(x, before) && Admissible(w, before)
    requires NewSecrets(evs, {shared}) && KemAdmissible(RekeyBoth(Run(w, before), shared), evs)
    ensures var now := KemRun(RekeyBoth(Run(w, before), shared), evs);
      OneTime(Get(now, who).side.sent, Get(now, Other(who)).side.sent)
  {
    RunIsReachable(x, w, before);
    var origin := RunIsTraceable(x, w, before);
    KemKeysAreOneTime(Run(w, before), origin, shared, evs, who);
  }
}
