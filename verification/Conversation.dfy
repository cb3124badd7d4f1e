/**
  What the two users see: the message logs of both peers, over lossless first-in-first-out channels and
  over lossy ones (src/core/services/SessionManager.js:738-770, 975-999, src/core/domain/Session.js:106-117).
*/
module Conversation {
  import opened Options
  import opened Keys
  import opened Payload
  import opened ChatLog
  import opened DoubleRatchet
  import opened TwoParty

  function Sealed(sent: seq<Sent>, i: nat): Option<Nonce>
    requires i < |sent|
  {
    sent[i].envelope.c.nonce
  }

  ghost predicate UnusedNonce(s: Side, nonce: Nonce) {
    forall i :: 0 <= i < |s.sent| ==> Sealed(s.sent, i) != Some(nonce)
  }

  /** Every send succeeds with a nonce of its own, and each peer gets the other's envelopes in order, none missing. */
  ghost predicate Fifo(w: World, ev: Event) {
    match ev
    case SendChat(from, _, text, _, _, nonce, wired) =>
      ValidText(text) && wired && UnusedNonce(Get(w, from).side, nonce)
    case SendControl(from, _, _, nonce, wired) => wired && UnusedNonce(Get(w, from).side, nonce)
    case Deliver(to, at) => at == |Get(w, to).side.arrived| < |Get(w, Other(to)).side.sent|
    case Reconnect(_) => false
  }

  // ---- The ratchet over a lossless channel ----

  /**
    The index an envelope under `pk` must have at position `at`: one more than the one before, or 0 under a new
    key.
  */
  function NumberAt(sent: seq<Sent>, at: nat, pk: KeyId): int
    requires at <= |sent|
  {
    if at > 0 && sent[at - 1].envelope.pk == pk then sent[at - 1].envelope.n + 1 else 0
  }

  ghost predicate NumberOk(sent: seq<Sent>, at: nat)
    requires at < |sent|
  {
    sent[at].envelope.n == NumberAt(sent, at, sent[at].envelope.pk)
  }

  /** Envelopes are numbered without a gap, from 0 again under each new ratchet key. */
  ghost predicate Numbered(s: Side) {
    && (forall i :: 0 <= i < |s.sent| ==> NumberOk(s.sent, i))
    && s.ratchet.sendIdx == NumberAt(s.sent, |s.sent|, s.ratchet.pk)
  }

  /** The receiver stands right behind the last envelope that arrived, with nothing buffered. */
  ghost predicate InStep(s: Side, r: Side) {
    && r.boundary == 0
    && |r.arrived| <= |s.sent|
    && (forall k :: 0 <= k < |r.arrived| ==> r.arrived[k] == k)
    && r.decrypted == r.arrived
    && r.ratchet.skipped == []
    && (|r.arrived| == 0 ==> r.ratchet.recvIdx == 0)
    && (|r.arrived| > 0 ==>
          var e := s.sent[|r.arrived| - 1].envelope;
          r.ratchet.last == e.pk && r.ratchet.recvIdx == e.n + 1)
  }

  ghost predicate DistinctNonces(s: Side, r: Side) {
    && (forall i :: 0 <= i < |s.sent| ==> s.sent[i].wired && Sealed(s.sent, i).Some?)
    && (forall i, j :: 0 <= i < j < |s.sent| ==> Sealed(s.sent, i) != Sealed(s.sent, j))
    && (forall x :: x in r.ratchet.nonces ==>
          exists i :: 0 <= i < |r.arrived| && i < |s.sent| && Sealed(s.sent, i) == Some(x))
  }

  ghost predicate Lossless(s: Side, r: Side) {
    Numbered(s) && InStep(s, r) && DistinctNonces(s, r)
  }

  lemma EmitKeepsLossless(s: Side, r: Side, plain: Payload, nonce: Nonce)
    requires Lossless(s, r) && UnusedNonce(s, nonce)
    ensures Lossless(Emit(s, plain, nonce, true), r)
  {
    var s' := Emit(s, plain, nonce, true);
    assert forall i :: 0 <= i < |s.sent| ==> s'.sent[i] == s.sent[i] && Sealed(s'.sent, i) == Sealed(s.sent, i);
    assert Sealed(s'.sent, |s.sent|) == Some(nonce);
    forall i | 0 <= i < |s'.sent|
      ensures NumberOk(s'.sent, i)
    {
      assert i < |s.sent| ==> NumberOk(s.sent, i);
    }
  }

  lemma EmitKeepsLosslessOther(s: Side, r: Side, plain: Payload, nonce: Nonce, wired: bool)
    requires Lossless(r, s)
    ensures Lossless(r, Emit(s, plain, nonce, wired))
  {
  }

  /** The next envelope is the one the receiver's index points at: nothing is skipped, and a key is granted. */
  lemma NextInLine(s: Side, r: Side, newKey: KeyId)
    requires Lossless(s, r) && |r.arrived| < |s.sent|
    ensures var e := s.sent[|r.arrived|].envelope;
      var r1 := Synchronise(NoteNonce(r.ratchet, e.c), e.pk, newKey);
      && !IsReplay(r.ratchet, e.c)
      && e.n == r1.recvIdx
      && r1.skipped == []
  {
    var at := |r.arrived|;
    var e := s.sent[at].envelope;
    assert NumberOk(s.sent, at);
    if e.pk == r.ratchet.last {
      assert at > 0 ==> s.sent[at - 1].envelope.pk == e.pk;
      assert NoteNonce(r.ratchet, e.c).recvIdx == e.n;
    } else {
      assert at > 0 ==> s.sent[at - 1].envelope.pk != e.pk;
      assert e.n == 0;
    }
  }

  lemma ArriveKeepsInStep(s: Side, r: Side, newKey: KeyId)
    requires Lossless(s, r) && |r.arrived| < |s.sent| && RatchetOk(r.ratchet)
    requires Decrypt(r.ratchet, s.sent[|r.arrived|].envelope, newKey).1 != Rejected(BadCiphertext)
    ensures var e := s.sent[|r.arrived|].envelope;
      && Decrypt(r.ratchet, e, newKey).1 == Opened(e.c.plain)
      && Lossless(s, Arrive(r, e, |r.arrived|, newKey))
  {
    NextInLine(s, r, newKey);
    ArriveStaysInStep(s, r, newKey);
    ArriveKeepsDistinct(s, r, newKey);
  }

  lemma ArriveStaysInStep(s: Side, r: Side, newKey: KeyId)
    requires Lossless(s, r) && |r.arrived| < |s.sent|
    requires Decrypt(r.ratchet, s.sent[|r.arrived|].envelope, newKey).1 != Rejected(BadCiphertext)
    ensures var e := s.sent[|r.arrived|].envelope;
      && Decrypt(r.ratchet, e, newKey).1 == Opened(e.c.plain)
      && InStep(s, Arrive(r, e, |r.arrived|, newKey))
  {
    var e := s.sent[|r.arrived|].envelope;
    NextInLine(s, r, newKey);
    var r1 := Synchronise(NoteNonce(r.ratchet, e.c), e.pk, newKey);
    assert r1.skipped + SkipRange(e.pk, r1.recv, r1.recvIdx, e.n) == [];
    assert Decrypt(r.ratchet, e, newKey).1 == Opened(e.c.plain);
  }

  lemma ArriveKeepsDistinct(s: Side, r: Side, newKey: KeyId)
    requires Lossless(s, r) && |r.arrived| < |s.sent|
    ensures DistinctNonces(s, Arrive(r, s.sent[|r.arrived|].envelope, |r.arrived|, newKey))
  {
  }

  /** Receiving, a DH step included, leaves the receiver's own envelopes numbered. */
  lemma ArriveKeepsLosslessOther(s: Side, r: Side, e: Envelope, at: nat, newKey: KeyId)
    requires Lossless(r, s)
    requires forall i :: 0 <= i < |r.sent| ==> r.sent[i].envelope.pk < newKey
    ensures Lossless(Arrive(r, e, at, newKey), s)
  {
  }

  // ---- The logs over lossless channels ----

  /** The chat messages among a peer's envelopes. */
  function Chats(sent: seq<Sent>): seq<Message> {
    if sent == [] then []
    else
      var plain := sent[|sent| - 1].envelope.c.plain;
      Chats(sent[..|sent| - 1]) + if plain.Chat? then [plain.message] else []
  }

  lemma {:induction false} ChatsPrefix(sent: seq<Sent>, k: nat)
    requires k <= |sent|
    ensures Chats(sent[..k]) <= Chats(sent)
  {
    if k < |sent| {
      ChatsPrefix(sent[..|sent| - 1], k);
      assert sent[..|sent| - 1][..k] == sent[..k];
    } else {
      assert sent[..k] == sent;
    }
  }

  lemma ChatsNext(sent: seq<Sent>, k: nat)
    requires k < |sent|
    ensures var plain := sent[k].envelope.c.plain;
      Chats(sent[..k + 1]) == Chats(sent[..k]) + if plain.Chat? then [plain.message] else []
  {
    assert sent[..k + 1][..k] == sent[..k];
  }

  /** The sender logs exactly its chats, numbered 1, 2, 3, ...; the receiver has logged those that arrived. */
  ghost predicate LogsAgree(s: Peer, r: Peer) {
    && Picked(s.app.messages, true) == Chats(s.side.sent)
    && s.app.counter == |Chats(s.side.sent)|
    && (forall j :: 0 <= j < |Chats(s.side.sent)| ==>
          Chats(s.side.sent)[j].counter == j + 1 && ValidMessage(Chats(s.side.sent)[j]))
    && |r.side.arrived| <= |s.side.sent|
    && Picked(r.app.messages, false) == Chats(s.side.sent[..|r.side.arrived|])
    && r.app.lastReceived == |Chats(s.side.sent[..|r.side.arrived|])|
  }

  ghost predicate LinksCalm(w: World) {
    Lossless(w.host.side, w.guest.side) && Lossless(w.guest.side, w.host.side)
  }

  ghost predicate LogsCalm(w: World) {
    LogsAgree(w.host, w.guest) && LogsAgree(w.guest, w.host)
  }

  ghost predicate Calm(w: World) {
    LinksCalm(w) && LogsCalm(w)
  }

  lemma FifoIsEnabled(w: World, ev: Event)
    requires Synced(w) && LinksCalm(w) && Fifo(w, ev)
    ensures Enabled(w, ev)
  {
    if ev.Deliver? {
      var s, r := Get(w, Other(ev.to)).side, Get(w, ev.to).side;
      forall j | 0 <= j < |r.arrived|
        ensures r.arrived[j] < |s.sent| && s.sent[r.arrived[j]].envelope.pk <= s.sent[ev.at].envelope.pk
      {
        assert Before(s.sent[j].envelope, s.sent[ev.at].envelope);
      }
    }
  }

  lemma TellKeepsLogs(s: Peer, r: Peer, action: ControlAction, title: string, nonce: Nonce)
    requires LogsAgree(s, r) && LogsAgree(r, s)
    ensures var s' := Tell(s, action, title, nonce, true);
      LogsAgree(s', r) && LogsAgree(r, s')
  {
    var sent' := Tell(s, action, title, nonce, true).side.sent;
    assert sent'[..|s.side.sent|] == s.side.sent;
    assert sent'[..|r.side.arrived|] == s.side.sent[..|r.side.arrived|];
  }

  lemma SayKeepsLogs(s: Peer, r: Peer, id: nat, text: string, sender: string, timestamp: int, nonce: Nonce)
    requires LogsAgree(s, r) && LogsAgree(r, s) && ValidText(text)
    ensures var s' := Say(s, id, text, sender, timestamp, nonce, true);
      LogsAgree(s', r) && LogsAgree(r, s')
  {
    var m := Message(id, text, sender, timestamp, s.app.counter + 1);
    var s' := Say(s, id, text, sender, timestamp, nonce, true);
    assert s'.side.sent[..|s.side.sent|] == s.side.sent;
    assert s'.side.sent[..|r.side.arrived|] == s.side.sent[..|r.side.arrived|];
    PickedAppend(s.app.messages, m, true);
  }

  lemma HearKeepsLogs(s: Peer, r: Peer, newKey: KeyId)
    requires LogsAgree(s, r) && LogsAgree(r, s) && |r.side.arrived| < |s.side.sent|
    requires var e := s.side.sent[|r.side.arrived|].envelope;
      Decrypt(r.side.ratchet, e, newKey).1 == Opened(e.c.plain)
    ensures var r' := Hear(r, s.side.sent[|r.side.arrived|].envelope, |r.side.arrived|, newKey);
      LogsAgree(s, r') && LogsAgree(r', s)
  {
    var at := |r.side.arrived|;
    var plain := s.side.sent[at].envelope.c.plain;
    ChatsNext(s.side.sent, at);
    ChatsPrefix(s.side.sent, at + 1);
    if plain.Chat? {
      var m := plain.message;
      assert Chats(s.side.sent)[|Chats(s.side.sent[..at])|] == m;
      PickedAppend(r.app.messages, m, false);
    }
  }

  lemma FifoSendKeepsLinks(w: World, ev: Event)
    requires LinksCalm(w) && Fifo(w, ev) && (ev.SendChat? || ev.SendControl?)
    ensures LinksCalm(Next(w, ev))
  {
    var s, r := Get(w, ev.from).side, Get(w, Other(ev.from)).side;
    var plain := SendEmits(w, ev);
    EmitKeepsLossless(s, r, plain, ev.nonce);
    EmitKeepsLosslessOther(s, r, plain, ev.nonce, true);
  }

  lemma FifoSayKeepsLogs(w: World, from: Role, id: nat, text: string, sender: string, timestamp: int, nonce: Nonce)
    requires LogsCalm(w) && ValidText(text)
    ensures LogsCalm(Put(w, from, Say(Get(w, from), id, text, sender, timestamp, nonce, true)))
  {
    SayKeepsLogs(Get(w, from), Get(w, Other(from)), id, text, sender, timestamp, nonce);
  }

  lemma FifoControlKeepsLogs(w: World, from: Role, action: ControlAction, title: string, nonce: Nonce)
    requires LogsCalm(w)
    ensures LogsCalm(Put(w, from, Tell(Get(w, from), action, title, nonce, true)))
  {
    TellKeepsLogs(Get(w, from), Get(w, Other(from)), action, title, nonce);
  }

  lemma FifoDeliverKeepsLinks(w: World, to: Role, at: nat)
    requires Synced(w) && LinksCalm(w) && Fifo(w, Deliver(to, at)) && Enabled(w, Deliver(to, at))
    ensures LinksCalm(Next(w, Deliver(to, at)))
    ensures Result(w, to, at) == Opened(Get(w, Other(to)).side.sent[at].envelope.c.plain)
  {
    var s, r := Get(w, Other(to)).side, Get(w, to).side;
    NextKeepsSync(w, Deliver(to, at), Leader(w));
    ArriveKeepsInStep(s, r, w.nextKey);
    forall i | 0 <= i < |r.sent|
      ensures r.sent[i].envelope.pk < w.nextKey
    {
      assert Readable(r.ratchet, s.ratchet, r.sent[i].envelope);
    }
    ArriveKeepsLosslessOther(s, r, s.sent[at].envelope, at, w.nextKey);
  }

  lemma FifoDeliverKeepsLogs(w: World, to: Role, at: nat)
    requires LogsCalm(w) && Fifo(w, Deliver(to, at)) && Enabled(w, Deliver(to, at))
    requires Result(w, to, at) == Opened(Get(w, Other(to)).side.sent[at].envelope.c.plain)
    ensures LogsCalm(Next(w, Deliver(to, at)))
  {
    HearKeepsLogs(Get(w, Other(to)), Get(w, to), w.nextKey);
  }

  lemma FifoNextKeepsCalm(w: World, ev: Event)
    requires Synced(w) && Calm(w) && Fifo(w, ev) && Enabled(w, ev)
    ensures Calm(Next(w, ev))
    ensures ev.Deliver? ==>
      Result(w, ev.to, ev.at) == Opened(Get(w, Other(ev.to)).side.sent[ev.at].envelope.c.plain)
  {
    if ev.Deliver? {
      FifoDeliverKeepsLinks(w, ev.to, ev.at);
      FifoDeliverKeepsLogs(w, ev.to, ev.at);
    } else {
      FifoSendKeepsLinks(w, ev);
      if ev.SendChat? {
        FifoSayKeepsLogs(w, ev.from, ev.id, ev.text, ev.sender, ev.timestamp, ev.nonce);
      } else {
        FifoControlKeepsLogs(w, ev.from, ev.action, ev.title, ev.nonce);
      }
    }
  }

  ghost predicate FifoRun(w: World, evs: seq<Event>)
    decreases |evs|
  {
    evs == [] || (Fifo(w, evs[0]) && Enabled(w, evs[0]) && FifoRun(Next(w, evs[0]), evs[1..]))
  }

  ghost function AfterFifo(w: World, evs: seq<Event>): World
    requires FifoRun(w, evs)
    decreases |evs|
  {
    if evs == [] then w else AfterFifo(Next(w, evs[0]), evs[1..])
  }

  lemma {:induction false} FifoRunStaysCalm(w: World, evs: seq<Event>)
    requires Synced(w) && Calm(w) && FifoRun(w, evs)
    ensures Synced(AfterFifo(w, evs)) && Calm(AfterFifo(w, evs))
    decreases |evs|
  {
    if evs != [] {
      NextKeepsSync(w, evs[0], Leader(w));
      FifoNextKeepsCalm(w, evs[0]);
      FifoRunStaysCalm(Next(w, evs[0]), evs[1..]);
    }
  }

  /** Nothing is buffered, and what `who` has logged of the other is a prefix of what the other logged as its own. */
  ghost predicate LogsArePrefix(now: World, who: Role) {
    var s, r := Get(now, Other(who)), Get(now, who);
    && r.side.ratchet.skipped == []
    && Picked(r.app.messages, false) <= Picked(s.app.messages, true)
    && (|r.side.arrived| == |s.side.sent| ==> Picked(r.app.messages, false) == Picked(s.app.messages, true))
  }

  /** An envelope is under way to `who`. */
  ghost predicate Pending(now: World, who: Role) {
    |Get(now, who).side.arrived| < |Get(now, Other(who)).side.sent|
  }

  /** The next envelope can be delivered, and opens to what was encrypted. */
  ghost predicate NextOpens(now: World, who: Role)
    requires Pending(now, who)
  {
    var at := |Get(now, who).side.arrived|;
    && Enabled(now, Deliver(who, at))
    && Result(now, who, at) == Opened(Get(now, Other(who)).side.sent[at].envelope.c.plain)
  }

  /** Over lossless first-in-first-out channels each peer's log of the other is a prefix at all times. */
  lemma LosslessConversation(w: World, evs: seq<Event>, who: Role)
    requires Synced(w) && Calm(w) && FifoRun(w, evs)
    ensures LogsArePrefix(AfterFifo(w, evs), who)
  {
    FifoRunStaysCalm(w, evs);
    CalmLogs(AfterFifo(w, evs), who);
  }

  /** Over such channels decryption never throws. */
  lemma LosslessDelivery(w: World, evs: seq<Event>, who: Role)
    requires Synced(w) && Calm(w) && FifoRun(w, evs) && Pending(AfterFifo(w, evs), who)
    ensures NextOpens(AfterFifo(w, evs), who)
  {
    FifoRunStaysCalm(w, evs);
    CalmDelivery(AfterFifo(w, evs), who);
  }

  lemma CalmLogs(now: World, who: Role)
    requires Calm(now)
    ensures LogsArePrefix(now, who)
  {
    var s, r := Get(now, Other(who)), Get(now, who);
    ChatsPrefix(s.side.sent, |r.side.arrived|);
    if |r.side.arrived| == |s.side.sent| {
      assert s.side.sent[..|r.side.arrived|] == s.side.sent;
    }
  }

  lemma CalmDelivery(now: World, who: Role)
    requires Synced(now) && Calm(now) && Pending(now, who)
    ensures NextOpens(now, who)
  {
    var next := Deliver(who, |Get(now, who).side.arrived|);
    FifoIsEnabled(now, next);
    FifoNextKeepsCalm(now, next);
  }

  // ---- The logs over lossy channels ----

  ghost predicate Rising(ms: seq<Message>) {
    forall i, j :: 0 <= i < j < |ms| ==> ms[i].counter < ms[j].counter
  }

  /** `a` is what is left of `b` when some elements are dropped. */
  ghost predicate Subsequence<T(!new)>(a: seq<T>, b: seq<T>) {
    exists at: seq<nat> :: Embeds(a, b, at)
  }

  ghost predicate Embeds<T(!new)>(a: seq<T>, b: seq<T>, at: seq<nat>) {
    && |at| == |a|
    && (forall i :: 0 <= i < |a| ==> at[i] < |b| && a[i] == b[at[i]])
    && (forall i, j :: 0 <= i < j < |a| ==> at[i] < at[j])
  }

  ghost predicate AllBelow(ms: seq<Message>, counter: nat) {
    forall m :: m in ms ==> m.counter <= counter
  }

  ghost predicate Within(a: seq<Message>, b: seq<Message>) {
    forall m :: m in a ==> m in b
  }

  /** Every chat that went out is in the sender's own log. */
  ghost predicate Logged(sent: seq<Sent>, own: seq<Message>) {
    forall i :: 0 <= i < |sent| && sent[i].wired && sent[i].envelope.c.plain.Chat? ==>
      sent[i].envelope.c.plain.message in own
  }

  ghost predicate Honest(s: Peer, r: Peer) {
    var own, theirs := Picked(s.app.messages, true), Picked(r.app.messages, false);
    && Rising(own) && AllBelow(own, s.app.counter) && Logged(s.side.sent, own)
    && Rising(theirs) && AllBelow(theirs, r.app.lastReceived) && Within(theirs, own)
  }

  ghost predicate HonestLogs(w: World) {
    Honest(w.host, w.guest) && Honest(w.guest, w.host)
  }

  lemma SayKeepsOwn(s: Peer, r: Peer, id: nat, text: string, sender: string, timestamp: int, nonce: Nonce, wired: bool)
    requires Honest(s, r)
    ensures Honest(Say(s, id, text, sender, timestamp, nonce, wired), r)
  {
  }

  lemma SayKeepsTheirs(s: Peer, r: Peer, id: nat, text: string, sender: string, timestamp: int, nonce: Nonce,
                       wired: bool)
    requires Honest(r, s)
    ensures Honest(r, Say(s, id, text, sender, timestamp, nonce, wired))
  {
  }

  lemma TellKeepsHonest(s: Peer, r: Peer, action: ControlAction, title: string, nonce: Nonce, wired: bool)
    requires Honest(s, r) && Honest(r, s)
    ensures var s' := Tell(s, action, title, nonce, wired);
      Honest(s', r) && Honest(r, s')
  {
  }

  lemma ReceiveKeepsTheirs(s: Peer, r: Peer, plain: Payload, side: Side)
    requires Honest(s, r)
    requires plain.Chat? ==> plain.message in Picked(s.app.messages, true)
    ensures Honest(s, Peer(side, Receive(r.app, plain)))
  {
  }

  lemma ReceiveKeepsOwn(s: Peer, r: Peer, plain: Payload, side: Side)
    requires Honest(r, s) && side.sent == r.side.sent
    ensures Honest(Peer(side, Receive(r.app, plain)), s)
  {
  }

  lemma SayKeepsHonest(w: World, from: Role, id: nat, text: string, sender: string, timestamp: int,
                       nonce: Nonce, wired: bool)
    requires HonestLogs(w)
    ensures HonestLogs(Put(w, from, Say(Get(w, from), id, text, sender, timestamp, nonce, wired)))
  {
    SayKeepsOwn(Get(w, from), Get(w, Other(from)), id, text, sender, timestamp, nonce, wired);
    SayKeepsTheirs(Get(w, from), Get(w, Other(from)), id, text, sender, timestamp, nonce, wired);
  }

  lemma NextKeepsHonest(w: World, ev: Event)
    requires HonestLogs(w) && Enabled(w, ev)
    ensures HonestLogs(Next(w, ev))
  {
    match ev
    case SendChat(from, id, text, sender, timestamp, nonce, wired) =>
      SayKeepsHonest(w, from, id, text, sender, timestamp, nonce, wired);
    case SendControl(from, action, title, nonce, wired) =>
      TellKeepsHonest(Get(w, from), Get(w, Other(from)), action, title, nonce, wired);
    case Deliver(to, at) => DeliverKeepsHonest(w, to, at);
    case Reconnect(who) => RelinkKeepsHonest(w, who);
  }

  lemma RelinkKeepsHonest(w: World, who: Role)
    requires HonestLogs(w)
    ensures HonestLogs(Next(w, Reconnect(who)))
  {
  }

  lemma DeliverKeepsHonest(w: World, to: Role, at: nat)
    requires HonestLogs(w) && Enabled(w, Deliver(to, at))
    ensures HonestLogs(Next(w, Deliver(to, at)))
  {
    var s, r := Get(w, Other(to)), Get(w, to);
    var e := s.side.sent[at].envelope;
    var side := Arrive(r.side, e, at, w.nextKey);
    if Result(w, to, at).Opened? {
      ReceiveKeepsTheirs(s, r, e.c.plain, side);
      ReceiveKeepsOwn(s, r, e.c.plain, side);
    }
  }

  lemma {:induction false} RunKeepsHonest(w: World, evs: seq<Event>)
    requires HonestLogs(w) && Admissible(w, evs)
    ensures HonestLogs(Run(w, evs))
    decreases |evs|
  {
    if evs != [] {
      NextKeepsHonest(w, evs[0]);
      RunKeepsHonest(Next(w, evs[0]), evs[1..]);
    }
  }

  lemma {:induction false} RisingSubsetEmbeds(a: seq<Message>, b: seq<Message>) returns (at: seq<nat>)
    requires Rising(a) && Rising(b) && forall m :: m in a ==> m in b
    ensures Embeds(a, b, at)
  {
    if a == [] {
      at := [];
    } else {
      var most := a[..|a| - 1];
      at := RisingSubsetEmbeds(most, b);
      assert a[|a| - 1] in b;
      var k :| 0 <= k < |b| && b[k] == a[|a| - 1];
      forall i | 0 <= i < |most|
        ensures at[i] < k
      {
        assert b[at[i]] == a[i] && a[i].counter < a[|a| - 1].counter;
      }
      at := at + [k];
    }
  }

  /**
    With losses, duplicates, failed sends, reordering inside an epoch and reconnects: what a peer has logged
    of the other is a subsequence of what the other logged as its own, with strictly rising counters.
  */
  lemma LossyConversation(w: World, evs: seq<Event>, to: Role)
    requires HonestLogs(w) && Admissible(w, evs)
    ensures var now := Run(w, evs);
      var own, theirs := Picked(Get(now, Other(to)).app.messages, true), Picked(Get(now, to).app.messages, false);
      && Subsequence(theirs, own)
      && Rising(theirs)
  {
    RunKeepsHonest(w, evs);
    var now := Run(w, evs);
    var own, theirs := Picked(Get(now, Other(to)).app.messages, true), Picked(Get(now, to).app.messages, false);
    var at := RisingSubsetEmbeds(theirs, own);
  }

  // ---- The own log ----

  /** The chat messages that went out. */
  function WiredChats(sent: seq<Sent>): seq<Message> {
    if sent == [] then []
    else
      var last := sent[|sent| - 1];
      WiredChats(sent[..|sent| - 1])
      + if last.wired && last.envelope.c.plain.Chat? then [last.envelope.c.plain.message] else []
  }

  ghost predicate OwnLog(p: Peer) {
    Picked(p.app.messages, true) == WiredChats(p.side.sent)
  }

  ghost predicate OwnLogs(w: World) {
    OwnLog(w.host) && OwnLog(w.guest)
  }

  lemma SayKeepsOwnLog(p: Peer, id: nat, text: string, sender: string, timestamp: int, nonce: Nonce, wired: bool)
    requires OwnLog(p)
    ensures OwnLog(Say(p, id, text, sender, timestamp, nonce, wired))
  {
    var p' := Say(p, id, text, sender, timestamp, nonce, wired);
    if ValidText(text) {
      assert p'.side.sent[..|p.side.sent|] == p.side.sent;
      PickedAppend(p.app.messages, Message(id, text, sender, timestamp, p.app.counter + 1), true);
    }
  }

  lemma TellKeepsOwnLog(p: Peer, action: ControlAction, title: string, nonce: Nonce, wired: bool)
    requires OwnLog(p)
    ensures OwnLog(Tell(p, action, title, nonce, wired))
  {
    assert Tell(p, action, title, nonce, wired).side.sent[..|p.side.sent|] == p.side.sent;
  }

  lemma HearKeepsOwnLog(p: Peer, e: Envelope, at: nat, newKey: KeyId)
    requires OwnLog(p)
    ensures OwnLog(Hear(p, e, at, newKey))
  {
  }

  lemma NextKeepsOwnLogs(w: World, ev: Event)
    requires OwnLogs(w) && Enabled(w, ev)
    ensures OwnLogs(Next(w, ev))
  {
    match ev
    case SendChat(from, id, text, sender, timestamp, nonce, wired) =>
      SayKeepsOwnLog(Get(w, from), id, text, sender, timestamp, nonce, wired);
    case SendControl(from, action, title, nonce, wired) =>
      TellKeepsOwnLog(Get(w, from), action, title, nonce, wired);
    case Deliver(to, at) =>
      HearKeepsOwnLog(Get(w, to), Get(w, Other(to)).side.sent[at].envelope, at, w.nextKey);
    case Reconnect(_) =>
  }

  /** Over every run, failed sends included: a peer's own log is exactly the chats that went out, in order. */
  lemma {:induction false} OwnLogIsWhatWentOut(w: World, evs: seq<Event>, who: Role)
    requires OwnLogs(w) && Admissible(w, evs)
    ensures OwnLogs(Run(w, evs))
    ensures Picked(Get(Run(w, evs), who).app.messages, true) == WiredChats(Get(Run(w, evs), who).side.sent)
    decreases |evs|
  {
    if evs != [] {
      NextKeepsOwnLogs(w, evs[0]);
      OwnLogIsWhatWentOut(Next(w, evs[0]), evs[1..], who);
    }
  }

  /** The index and the message key of the send chain are used up. */
  ghost predicate KeySpent(r: Ratchet, r': Ratchet) {
    r' == r.(send := NextChain(r.send), sendIdx := r.sendIdx + 1)
  }

  /**
    A chat whose send fails: the counter and the send chain have moved on, and neither log shows the message. A
    control message that fails costs a key as well, and its title stays set here.
  */
  lemma FailedSendLeavesNoTrace(w: World, ev: Event)
    requires (ev.SendChat? && ValidText(ev.text)) || ev.SendControl?
    requires !ev.wired
    ensures var p, p', w' := Get(w, ev.from), Get(Next(w, ev), ev.from), Next(w, ev);
      && p'.app.messages == p.app.messages && Get(w', Other(ev.from)) == Get(w, Other(ev.from))
      && p'.app.counter == p.app.counter + (if ev.SendChat? then 1 else 0)
      && p'.app.title == (if ev.SendControl? && ev.action == Title then ev.title else p.app.title)
      && KeySpent(p.side.ratchet, p'.side.ratchet)
      && |p'.side.sent| == |p.side.sent| + 1 && p'.side.sent[..|p.side.sent|] == p.side.sent
  {
  }

  lemma NextKeepsSent(w: World, ev: Event, who: Role)
    requires Enabled(w, ev)
    ensures Get(w, who).side.sent <= Get(Next(w, ev), who).side.sent
  {
    if ev.SendChat? || ev.SendControl? {
      var plain := SendEmits(w, ev);
    }
  }

  lemma {:induction false} RunKeepsSent(w: World, evs: seq<Event>, who: Role)
    requires Admissible(w, evs)
    ensures Get(w, who).side.sent <= Get(Run(w, evs), who).side.sent
    decreases |evs|
  {
    if evs != [] {
      NextKeepsSent(w, evs[0], who);
      RunKeepsSent(Next(w, evs[0]), evs[1..], who);
    }
  }

  /** And however the run goes on, that envelope is never delivered. */
  lemma FailedSendNeverArrives(w: World, ev: Event, evs: seq<Event>)
    requires (ev.SendChat? && ValidText(ev.text)) || ev.SendControl?
    requires !ev.wired && Admissible(Next(w, ev), evs)
    ensures !Enabled(Run(Next(w, ev), evs), Deliver(Other(ev.from), |Get(w, ev.from).side.sent|))
  {
    RunKeepsSent(Next(w, ev), evs, ev.from);
    var at := |Get(w, ev.from).side.sent|;
    assert !Get(Next(w, ev), ev.from).side.sent[at].wired;
  }

  /** A text of no or more than 10000 characters is refused before anything is encrypted, and only counted. */
  lemma TextsRefused(p: Peer, id: nat, text: string, sender: string, timestamp: int, nonce: Nonce, wired: bool)
    ensures var p' := Say(p, id, text, sender, timestamp, nonce, wired);
      && p'.app.counter == p.app.counter + 1
      && (p'.side == p.side <==> |text| == 0 || |text| > 10000)
      && (p'.side == p.side ==> p'.app == p.app.(counter := p'.app.counter))
  {
    if ValidText(text) {
      var p' := Say(p, id, text, sender, timestamp, nonce, wired);
      assert |p'.side.sent| == |p.side.sent| + 1;
    }
  }

  // ---- The counter window ----

  ghost function ReceiveAll(app: App, ms: seq<Message>): App
    decreases |ms|
  {
    if ms == [] then app else ReceiveAll(Receive(app, Chat(ms[0])), ms[1..])
  }

  lemma {:induction false} LastReceivedGrows(app: App, ms: seq<Message>)
    ensures app.lastReceived <= ReceiveAll(app, ms).lastReceived
    decreases |ms|
  {
    if ms != [] {
      LastReceivedGrows(Receive(app, Chat(ms[0])), ms[1..]);
    }
  }

  /**
    The 10000 window is a point of no return. Valid messages that arrive in order are all dropped, however
    many they are, exactly when the first runs more than 10000 past the last accepted counter, which lost
    messages and failed sends can bring about: both use up counters.
  */
  lemma CounterGapIsPermanent(app: App, ms: seq<Message>)
    requires ms != [] && Rising(ms) && ms[0].counter > app.lastReceived
    requires forall i :: 0 <= i < |ms| ==> ValidMessage(ms[i])
    ensures ReceiveAll(app, ms) == app <==> ms[0].counter > app.lastReceived + MAX_COUNTER_JUMP
  {
    if ms[0].counter > app.lastReceived + MAX_COUNTER_JUMP {
      NothingHeard(app, ms);
    } else {
      LastReceivedGrows(Receive(app, Chat(ms[0])), ms[1..]);
    }
  }

  lemma {:induction false} NothingHeard(app: App, ms: seq<Message>)
    requires Rising(ms) && (ms != [] ==> ms[0].counter > app.lastReceived + MAX_COUNTER_JUMP)
    ensures ReceiveAll(app, ms) == app
    decreases |ms|
  {
    if ms != [] {
      assert Receive(app, Chat(ms[0])) == app;
      if |ms| > 1 {
        assert ms[1..][0] == ms[1];
      }
      NothingHeard(app, ms[1..]);
    }
  }

  /** `k` attempts to send an empty text: each is refused, after it has used up a counter. */
  function Refusals(from: Role, k: nat): seq<Event> {
    seq(k, _ => SendChat(from, 0, "", "", 0, 0, true))
  }

  /** All that refused texts leave behind. */
  function Counted(w: World, from: Role, k: nat): World {
    var p := Get(w, from);
    Put(w, from, p.(app := p.app.(counter := p.app.counter + k)))
  }

  lemma {:induction false} RefusalsOnlyCount(w: World, from: Role, k: nat)
    ensures Admissible(w, Refusals(from, k))
    ensures Run(w, Refusals(from, k)) == Counted(w, from, k)
    decreases k
  {
    if k > 0 {
      var w1 := Next(w, Refusals(from, k)[0]);
      RefusalsOnlyCount(w1, from, k - 1);
      assert Refusals(from, k)[1..] == Refusals(from, k - 1);
    }
  }

  lemma CountedStaysCalm(w: World, from: Role, k: nat, chat: Event)
    requires Synced(w) && LinksCalm(w) && chat.SendChat? && Fifo(w, chat)
    ensures var w1 := Counted(w, from, k);
      Synced(w1) && LinksCalm(w1) && Fifo(w1, chat)
  {
  }

  /** A chat sent over a link that has lost nothing, everything before it having been received, is decrypted. */
  lemma NextChatOpens(w: World, chat: Event)
    requires Synced(w) && LinksCalm(w) && chat.SendChat? && !Pending(w, Other(chat.from)) && Fifo(w, chat)
    ensures var w2 := Next(w, chat);
      var at := |Get(w, chat.from).side.sent|;
      && Enabled(w2, Deliver(Other(chat.from), at))
      && Result(w2, Other(chat.from), at) ==
           Opened(Chat(Message(chat.id, chat.text, chat.sender, chat.timestamp, Get(w, chat.from).app.counter + 1)))
  {
    FifoSendKeepsLinks(w, chat);
    SendKeepsSync(w, Leader(w), chat);
    ChatIsNext(w, chat);
    var w2 := Next(w, chat);
    var deliver := Deliver(Other(chat.from), |Get(w, chat.from).side.sent|);
    FifoIsEnabled(w2, deliver);
    FifoDeliverKeepsLinks(w2, Other(chat.from), deliver.at);
  }

  lemma ChatIsNext(w: World, chat: Event)
    requires LinksCalm(w) && chat.SendChat? && !Pending(w, Other(chat.from)) && Fifo(w, chat)
    ensures var w2 := Next(w, chat);
      var at := |Get(w, chat.from).side.sent|;
      && Fifo(w2, Deliver(Other(chat.from), at))
      && Get(w2, chat.from).side.sent[at].envelope.c.plain ==
           Chat(Message(chat.id, chat.text, chat.sender, chat.timestamp, Get(w, chat.from).app.counter + 1))
  {
  }

  /**
    A run that reaches the point of no return: on a link that has lost nothing, after `k` refused texts the next
    chat is delivered and decrypted, and is dropped nevertheless if and only if `k` is 10000 or more. From then
    on CounterGapIsPermanent applies.
  */
  lemma RefusedTextsCloseTheLog(w: World, k: nat, chat: Event)
    requires Synced(w) && Calm(w) && chat.SendChat? && !Pending(w, Other(chat.from)) && Fifo(w, chat)
    ensures Admissible(w, Refusals(chat.from, k)) && Run(w, Refusals(chat.from, k)) == Counted(w, chat.from, k)
    ensures var w2 := Next(Counted(w, chat.from, k), chat);
      var to, at := Other(chat.from), |Get(w, chat.from).side.sent|;
      && Enabled(w2, Deliver(to, at)) && Result(w2, to, at).Opened?
      && (Get(Next(w2, Deliver(to, at)), to).app == Get(w, to).app <==> k >= MAX_COUNTER_JUMP)
  {
    RefusalsOnlyCount(w, chat.from, k);
    CountedStaysCalm(w, chat.from, k, chat);
    AllHeard(w, chat.from);
    NextChatDropped(Counted(w, chat.from, k), chat, k);
  }

  lemma NextChatDropped(w: World, chat: Event, k: nat)
    requires Synced(w) && LinksCalm(w) && chat.SendChat? && !Pending(w, Other(chat.from)) && Fifo(w, chat)
    requires Get(w, chat.from).app.counter == Get(w, Other(chat.from)).app.lastReceived + k
    ensures var w2 := Next(w, chat);
      var to, at := Other(chat.from), |Get(w, chat.from).side.sent|;
      && Enabled(w2, Deliver(to, at)) && Result(w2, to, at).Opened?
      && (Get(Next(w2, Deliver(to, at)), to).app == Get(w, to).app <==> k >= MAX_COUNTER_JUMP)
  {
    NextChatOpens(w, chat);
    var m := Message(chat.id, chat.text, chat.sender, chat.timestamp, Get(w, chat.from).app.counter + 1);
    HeardApp(Next(w, chat), Other(chat.from), |Get(w, chat.from).side.sent|, Chat(m));
    DroppedBeyond(Get(w, Other(chat.from)).app, m, k);
  }

  lemma HeardApp(w: World, to: Role, at: nat, plain: Payload)
    requires Enabled(w, Deliver(to, at)) && Result(w, to, at) == Opened(plain)
    ensures Get(Next(w, Deliver(to, at)), to).app == Receive(Get(w, to).app, plain)
  {
  }

  lemma DroppedBeyond(app: App, m: Message, k: nat)
    requires ValidMessage(m) && m.counter == app.lastReceived + k + 1
    ensures Receive(app, Chat(m)) == app <==> k >= MAX_COUNTER_JUMP
  {
  }

  lemma AllHeard(w: World, from: Role)
    requires Calm(w) && !Pending(w, Other(from))
    ensures Get(w, Other(from)).app.lastReceived == Get(w, from).app.counter
  {
    var s, r := Get(w, from), Get(w, Other(from));
    assert s.side.sent[..|r.side.arrived|] == s.side.sent;
  }
}
