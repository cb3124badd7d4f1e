/**
  When exactly an honest delivery opens: the ideal receivers of both peers, followed through every run of the
  two-party system (src/core/services/SessionManager.js:1073-1134).
*/
module Delivery {
  import opened Keys
  import opened Payload
  import opened DoubleRatchet
  import opened Receiver
  import opened TwoParty

  /** The ideal receiver of the epoch of one ratchet key. */
  datatype Listener = Listener(epoch: KeyId, ideal: Ideal)

  datatype Listeners = Listeners(host: Listener, guest: Listener)

  /** Another ratchet key starts another epoch, in which everything but the nonces is forgotten. */
  function Turn(l: Listener, pk: KeyId): Ideal {
    if pk == l.epoch then l.ideal else NewEpoch(l.ideal.seen)
  }

  function Listen(l: Listener, e: Envelope): Listener {
    if Replayed(l.ideal, e.c) then l else Listener(e.pk, Ask(Saw(Turn(l, e.pk), e.c), e.n))
  }

  function Of(ls: Listeners, role: Role): Listener {
    if role == Host then ls.host else ls.guest
  }

  function Set(ls: Listeners, role: Role, l: Listener): Listeners {
    if role == Host then ls.(host := l) else ls.(guest := l)
  }

  function ListenNext(w: World, ls: Listeners, ev: Event): Listeners
    requires Enabled(w, ev)
  {
    match ev
    case Deliver(to, at) => Set(ls, to, Listen(Of(ls, to), Get(w, Other(to)).side.sent[at].envelope))
    case Reconnect(who) => var l := Of(ls, who); Set(ls, who, l.(ideal := l.ideal.(seen := [])))
    case _ => ls
  }

  ghost function ListenRun(w: World, ls: Listeners, evs: seq<Event>): Listeners
    requires Admissible(w, evs)
    decreases |evs|
  {
    if evs == [] then ls else ListenRun(Next(w, evs[0]), ListenNext(w, ls, evs[0]), evs[1..])
  }

  /** The listeners right after the handshake. */
  function Listening(w: World): Listeners {
    Listeners(Listener(w.host.side.ratchet.last, NewEpoch([])), Listener(w.guest.side.ratchet.last, NewEpoch([])))
  }

  // ---- What ties a listener to its side ----

  ghost predicate Follows(r: Ratchet, l: Listener) {
    l.epoch == r.last && Mirrors(r, l.ideal) && Whole(l.ideal)
  }

  /** A receiver under the sender's current key is not ahead of it. */
  ghost predicate InReach(s: Side, r: Side) {
    r.ratchet.last == s.ratchet.pk ==> r.ratchet.recvIdx <= s.ratchet.sendIdx
  }

  /** Of the current epoch, exactly the positions that were opened are released. */
  ghost predicate Remembers(s: Side, r: Side, l: Listener) {
    && (forall at :: 0 <= at < |s.sent| && s.sent[at].envelope.pk == r.ratchet.last ==>
          (s.sent[at].envelope.n in l.ideal.released <==> at in r.decrypted))
    && InReach(s, r)
  }

  ghost predicate Tied(s: Side, r: Side, l: Listener) {
    Follows(r.ratchet, l) && Remembers(s, r, l)
  }

  ghost predicate BothTied(w: World, ls: Listeners) {
    Tied(w.guest.side, w.host.side, ls.host) && Tied(w.host.side, w.guest.side, ls.guest)
  }

  lemma EmitKeepsTied(s: Side, r: Side, l: Listener, plain: Payload, nonce: Nonce, wired: bool)
    requires Tied(s, r, l) && Channel(s, r)
    ensures Tied(Emit(s, plain, nonce, wired), r, l)
  {
  }

  /** Sending does not touch what the sender listens with. */
  lemma EmitKeepsTiedOther(s: Side, r: Side, l: Listener, plain: Payload, nonce: Nonce, wired: bool)
    requires Tied(r, s, l)
    ensures Tied(r, Emit(s, plain, nonce, wired), l)
  {
  }

  /** The nonce check of the ratchet is that of the listener. */
  lemma SawMirrors(r: Ratchet, i: Ideal, c: Ciphertext)
    requires Mirrors(r, i)
    ensures IsReplay(r, c) <==> Replayed(i, c)
    ensures Mirrors(NoteNonce(r, c), Saw(i, c))
  {
  }

  /** After the nonce check and a possible DH step the ratchet mirrors the epoch the listener turns to. */
  lemma TurnMirrors(r: Ratchet, l: Listener, e: Envelope, newKey: KeyId)
    requires Follows(r, l)
    ensures Mirrors(Synchronise(NoteNonce(r, e.c), e.pk, newKey), Saw(Turn(l, e.pk), e.c))
    ensures Whole(Saw(Turn(l, e.pk), e.c))
  {
  }

  /** Any envelope: the listener keeps following, and a message key is used exactly when the listener grants it. */
  lemma DecryptFollows(r: Ratchet, l: Listener, e: Envelope, newKey: KeyId)
    requires Follows(r, l)
    ensures Follows(Decrypt(r, e, newKey).0, Listen(l, e))
    ensures UsedKey(Decrypt(r, e, newKey).1) <==> !Replayed(l.ideal, e.c) && Grants(Turn(l, e.pk), e.n)
  {
    SawMirrors(r, l.ideal, e.c);
    if !IsReplay(r, e.c) {
      TurnMirrors(r, l, e, newKey);
      var r2, i2 := Synchronise(NoteNonce(r, e.c), e.pk, newKey), Saw(Turn(l, e.pk), e.c);
      SynchroniseOk(NoteNonce(r, e.c), e.pk, newKey);
      TakeKeyRefines(r2, i2, e.n);
      TakeKeyOk(r2, e.n);
      AskKeepsWhole(i2, e.n);
    }
  }

  /** An honest delivery: a used key opens the envelope, and the position is remembered as its index is. */
  lemma ArriveKeepsTied(s: Side, r: Side, l: Listener, at: nat, newKey: KeyId)
    requires Tied(s, r, l) && Channel(s, r) && Deliverable(s, r, at)
    requires Decrypt(r.ratchet, s.sent[at].envelope, newKey).1 != Rejected(BadCiphertext)
    ensures Tied(s, Arrive(r, s.sent[at].envelope, at, newKey), Listen(l, s.sent[at].envelope))
  {
    var e := s.sent[at].envelope;
    var r', l' := Arrive(r, e, at, newKey), Listen(l, e);
    DecryptFollows(r.ratchet, l, e, newKey);
    DeliveredKey(s, r, at);
    ArriveRemembers(s, r, l, at, newKey);
    ArriveStaysInReach(s, r, at, newKey);
  }

  lemma ArriveStaysInReach(s: Side, r: Side, at: nat, newKey: KeyId)
    requires InReach(s, r) && Channel(s, r) && Deliverable(s, r, at)
    ensures InReach(s, Arrive(r, s.sent[at].envelope, at, newKey))
  {
  }

  lemma ArriveRemembers(s: Side, r: Side, l: Listener, at: nat, newKey: KeyId)
    requires Tied(s, r, l) && Channel(s, r) && Deliverable(s, r, at)
    requires Decrypt(r.ratchet, s.sent[at].envelope, newKey).1 != Rejected(BadCiphertext)
    ensures var e := s.sent[at].envelope;
      var r', l' := Arrive(r, e, at, newKey), Listen(l, e);
      forall j :: 0 <= j < |s.sent| && s.sent[j].envelope.pk == r'.ratchet.last ==>
        (s.sent[j].envelope.n in l'.ideal.released <==> j in r'.decrypted)
  {
    var e := s.sent[at].envelope;
    ArriveShape(r, l, e, at, newKey);
    DeliveredKey(s, r, at);
    var r', l' := Arrive(r, e, at, newKey), Listen(l, e);
    forall j | 0 <= j < |s.sent| && s.sent[j].envelope.pk == r'.ratchet.last
      ensures s.sent[j].envelope.n in l'.ideal.released <==> j in r'.decrypted
    {
      RemembersOne(s, r, l, at, j);
    }
  }

  /** What an arrival does to the opened positions and to the released indices. */
  lemma ArriveShape(r: Side, l: Listener, e: Envelope, at: nat, newKey: KeyId)
    requires Follows(r.ratchet, l) && Decrypt(r.ratchet, e, newKey).1 != Rejected(BadCiphertext)
    ensures var r', l' := Arrive(r, e, at, newKey), Listen(l, e);
      var granted := !Replayed(l.ideal, e.c) && Grants(Turn(l, e.pk), e.n);
      && r'.ratchet.last == (if Replayed(l.ideal, e.c) then r.ratchet.last else e.pk)
      && r'.decrypted == r.decrypted + (if granted then [at] else [])
      && l'.ideal.released == ReleasedAfter(l, e)
  {
    SawMirrors(r.ratchet, l.ideal, e.c);
    DecryptFollows(r.ratchet, l, e, newKey);
    LastAfter(r.ratchet, e, newKey);
    AskReleases(l, e);
  }

  lemma LastAfter(r: Ratchet, e: Envelope, newKey: KeyId)
    ensures Decrypt(r, e, newKey).0.last == if IsReplay(r, e.c) then r.last else e.pk
  {
  }

  lemma AskReleases(l: Listener, e: Envelope)
    ensures Listen(l, e).ideal.released == ReleasedAfter(l, e)
  {
  }

  ghost function ReleasedAfter(l: Listener, e: Envelope): set<int> {
    if Replayed(l.ideal, e.c) then l.ideal.released
    else Turn(l, e.pk).released + if Grants(Turn(l, e.pk), e.n) then {e.n} else {}
  }

  lemma RemembersOne(s: Side, r: Side, l: Listener, at: nat, j: nat)
    requires l.epoch == r.ratchet.last && Remembers(s, r, l) && Channel(s, r) && at < |s.sent| && j < |s.sent|
    requires r.ratchet.last <= s.sent[at].envelope.pk
    requires var e := s.sent[at].envelope;
      s.sent[j].envelope.pk == if Replayed(l.ideal, e.c) then r.ratchet.last else e.pk
    ensures var e := s.sent[at].envelope;
      var granted := !Replayed(l.ideal, e.c) && Grants(Turn(l, e.pk), e.n);
      s.sent[j].envelope.n in ReleasedAfter(l, e) <==> j in r.decrypted + if granted then [at] else []
  {
  }

  /** Receiving leaves the other direction alone: a new ratchet key is none the other peer has seen. */
  lemma ArriveKeepsTiedOther(s: Side, r: Side, l: Listener, e: Envelope, at: nat, newKey: KeyId)
    requires Tied(r, s, l) && s.ratchet.last != newKey
    ensures Tied(Arrive(r, e, at, newKey), s, l)
  {
  }

  // ---- Every run ----

  lemma SendKeepsTied(w: World, ls: Listeners, ev: Event)
    requires Synced(w) && BothTied(w, ls) && (ev.SendChat? || ev.SendControl?)
    ensures BothTied(Next(w, ev), ls)
  {
    var plain := SendEmits(w, ev);
    var s, r := Get(w, ev.from).side, Get(w, Other(ev.from)).side;
    EmitKeepsTied(s, r, Of(ls, Other(ev.from)), plain, ev.nonce, ev.wired);
    EmitKeepsTiedOther(s, r, Of(ls, ev.from), plain, ev.nonce, ev.wired);
  }

  lemma DeliverKeepsTied(w: World, ls: Listeners, to: Role, at: nat)
    requires Synced(w) && BothTied(w, ls) && Enabled(w, Deliver(to, at))
    ensures BothTied(Next(w, Deliver(to, at)), ListenNext(w, ls, Deliver(to, at)))
  {
    var s, r := Get(w, Other(to)).side, Get(w, to).side;
    NextKeepsSync(w, Deliver(to, at), Leader(w));
    ArriveKeepsTied(s, r, Of(ls, to), at, w.nextKey);
    ArriveKeepsTiedOther(s, r, Of(ls, Other(to)), s.sent[at].envelope, at, w.nextKey);
  }

  lemma RelinkKeepsTied(w: World, ls: Listeners, who: Role)
    requires BothTied(w, ls)
    ensures BothTied(Next(w, Reconnect(who)), ListenNext(w, ls, Reconnect(who)))
  {
  }

  lemma NextKeepsTied(w: World, ls: Listeners, ev: Event)
    requires Synced(w) && BothTied(w, ls) && Enabled(w, ev)
    ensures BothTied(Next(w, ev), ListenNext(w, ls, ev))
  {
    match ev
    case Deliver(to, at) => DeliverKeepsTied(w, ls, to, at);
    case Reconnect(who) => RelinkKeepsTied(w, ls, who);
    case _ => SendKeepsTied(w, ls, ev);
  }

  lemma {:induction false} RunKeepsTied(w: World, ls: Listeners, evs: seq<Event>)
    requires Synced(w) && BothTied(w, ls) && Admissible(w, evs)
    ensures Synced(Run(w, evs)) && BothTied(Run(w, evs), ListenRun(w, ls, evs))
    decreases |evs|
  {
    if evs != [] {
      NextKeepsSync(w, evs[0], Leader(w));
      NextKeepsTied(w, ls, evs[0]);
      RunKeepsTied(Next(w, evs[0]), ListenNext(w, ls, evs[0]), evs[1..]);
    }
  }

  lemma StartTied(w: World)
    requires Synced(w) && Untouched(w.host.side) && Untouched(w.guest.side)
    ensures BothTied(w, Listening(w))
  {
  }

  /** The delivery opens: a new nonce, not opened before, not given up, and at most 100 indices ahead. */
  ghost predicate ShouldOpen(r: Side, l: Listener, e: Envelope, at: nat) {
    && !Replayed(l.ideal, e.c)
    && at !in r.decrypted
    && e.n !in Turn(l, e.pk).evicted
    && e.n <= Turn(l, e.pk).next + MAX_SKIP
  }

  lemma GrantedWhenOpen(s: Side, r: Side, l: Listener, at: nat)
    requires Tied(s, r, l) && Channel(s, r) && Deliverable(s, r, at)
    ensures var e := s.sent[at].envelope;
      ShouldOpen(r, l, e, at) <==> !Replayed(l.ideal, e.c) && Grants(Turn(l, e.pk), e.n)
  {
  }

  /**
    From the handshake on, in every run: a delivery opens if and only if its nonce is not among the last 500,
    the envelope was not opened before, its index was not given up for 200 newer ones, and it is at most 100
    past the end of its epoch's chain.
  */
  lemma ExactDelivery(w: World, evs: seq<Event>, to: Role, at: nat)
    requires Synced(w) && Untouched(w.host.side) && Untouched(w.guest.side)
    requires Admissible(w, evs) && Enabled(Run(w, evs), Deliver(to, at))
    ensures var now := Run(w, evs);
      Result(now, to, at).Opened? <==>
      ShouldOpen(Get(now, to).side, Of(ListenRun(w, Listening(w), evs), to),
                 Get(now, Other(to)).side.sent[at].envelope, at)
  {
    StartTied(w);
    RunKeepsTied(w, Listening(w), evs);
    var now, ls := Run(w, evs), ListenRun(w, Listening(w), evs);
    OpensExactly(now, ls, to, at);
  }

  lemma OpensExactly(now: World, ls: Listeners, to: Role, at: nat)
    requires Synced(now) && BothTied(now, ls) && Enabled(now, Deliver(to, at))
    ensures Result(now, to, at).Opened? <==>
            ShouldOpen(Get(now, to).side, Of(ls, to), Get(now, Other(to)).side.sent[at].envelope, at)
  {
    var s, r := Get(now, Other(to)).side, Get(now, to).side;
    NextKeepsSync(now, Deliver(to, at), Leader(now));
    GrantedWhenOpen(s, r, Of(ls, to), at);
    DecryptFollows(r.ratchet, Of(ls, to), s.sent[at].envelope, now.nextKey);
  }
}
