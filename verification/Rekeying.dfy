/**
  Reconnecting in kem mode. Both peers replace their chain keys by chains of a new handshake key and leave
  root, indices, ratchet keys and skipped-key map alone; so the sync invariant breaks, and which deliveries
  still open depends on where the chains stood
  (src/core/services/SessionManager.js:679-690, 715-725).

  The kem run is compared, event by event, with the run in which the same reconnects had been dh-mode ones.
*/
module Rekeying {
  import opened Keys
  import opened Payload
  import opened ChatLog
  import opened DoubleRatchet
  import opened TwoParty
  import opened Conversation
  import opened Delivery
  import opened Secrecy

  /** deriveRatchetKeys: the chain on which `role` sends, from a handshake key alone. */
  function SymmetricChain(role: Role, shared: Key): Key {
    InitChain(if role == Host then HostToGuest else GuestToHost, shared, NoKey)
  }

  /** One peer's part of a kem-mode reconnect. */
  function Rekey(s: Side, role: Role, shared: Key, boundary: nat): Side {
    s.(ratchet := s.ratchet.(send := SymmetricChain(role, shared), recv := SymmetricChain(Other(role), shared),
                             nonces := []),
       boundary := boundary)
  }

  function RekeyBoth(w: World, shared: Key): World {
    w.(host := w.host.(side := Rekey(w.host.side, Host, shared, |w.guest.side.sent|)),
       guest := w.guest.(side := Rekey(w.guest.side, Guest, shared, |w.host.side.sent|)),
       shared := shared)
  }

  function RelinkBoth(w: World): World {
    w.(host := w.host.(side := Relink(w.host.side, |w.guest.side.sent|)),
       guest := w.guest.(side := Relink(w.guest.side, |w.host.side.sent|)))
  }

  lemma RelinkBothIsTwoReconnects(w: World)
    ensures RelinkBoth(w) == Next(Next(w, Reconnect(Host)), Reconnect(Guest))
  {
  }

  /** In kem mode peers reconnect together: nothing is sent or heard between the two halves of the exchange. */
  datatype KemEvent = Plain(event: Event) | FullReconnect(shared: Key)

  predicate KemEnabled(w: World, ev: KemEvent) {
    ev.Plain? ==> !ev.event.Reconnect? && Enabled(w, ev.event)
  }

  function KemNext(w: World, ev: KemEvent): World
    requires KemEnabled(w, ev)
  {
    if ev.Plain? then Next(w, ev.event) else RekeyBoth(w, ev.shared)
  }

  /** The same event, had the reconnect been a dh-mode one. */
  function DhNext(w: World, ev: KemEvent): World
    requires KemEnabled(w, ev)
  {
    if ev.Plain? then Next(w, ev.event) else RelinkBoth(w)
  }

  ghost predicate KemAdmissible(w: World, evs: seq<KemEvent>)
    decreases |evs|
  {
    evs == [] || (KemEnabled(w, evs[0]) && KemAdmissible(KemNext(w, evs[0]), evs[1..]))
  }

  ghost function KemRun(w: World, evs: seq<KemEvent>): World
    requires KemAdmissible(w, evs)
    decreases |evs|
  {
    if evs == [] then w else KemRun(KemNext(w, evs[0]), evs[1..])
  }

  ghost predicate DhAdmissible(w: World, evs: seq<KemEvent>)
    decreases |evs|
  {
    evs == [] || (KemEnabled(w, evs[0]) && DhAdmissible(DhNext(w, evs[0]), evs[1..]))
  }

  ghost function DhRun(w: World, evs: seq<KemEvent>): World
    requires DhAdmissible(w, evs)
    decreases |evs|
  {
    if evs == [] then w else DhRun(DhNext(w, evs[0]), evs[1..])
  }

  // ---- What decides ----

  /**
    One direction at the latest reconnect: the sender's ratchet key, whether the receiver had seen it, where
    both stood on the chain, and the chain that replaced it.
  */
  datatype Mark = Mark(pk: KeyId, known: bool, sendIdx: nat, recvIdx: nat, base: Key)

  datatype Marks = Marks(toHost: Mark, toGuest: Mark)

  function MarkAt(s: Side, r: Side, base: Key): Mark {
    Mark(s.ratchet.pk, r.ratchet.last == s.ratchet.pk, s.ratchet.sendIdx, r.ratchet.recvIdx, base)
  }

  function MarksAt(w: World, shared: Key): Marks {
    Marks(MarkAt(w.guest.side, w.host.side, SymmetricChain(Guest, shared)),
          MarkAt(w.host.side, w.guest.side, SymmetricChain(Host, shared)))
  }

  function MarkTo(ms: Marks, role: Role): Mark {
    if role == Host then ms.toHost else ms.toGuest
  }

  /**
    The envelope survives the re-keying: it carries a ratchet key newer than the reconnect, or its receiver had
    seen the key and stood, with nothing under way, where the sender stood.
  */
  predicate Survives(m: Mark, e: Envelope) {
    e.pk != m.pk || (m.known && m.sendIdx == m.recvIdx)
  }

  // ---- The two runs side by side ----

  ghost predicate SameShape(a: seq<Skipped>, b: seq<Skipped>) {
    |a| == |b| && forall i :: 0 <= i < |a| ==> a[i].pk == b[i].pk && a[i].n == b[i].n
  }

  ghost predicate SameRatchet(u: Ratchet, v: Ratchet) {
    v == u.(send := v.send, recv := v.recv, skipped := v.skipped) && SameShape(u.skipped, v.skipped)
  }

  ghost predicate SameWire(a: Sent, b: Sent) {
    b == a.(envelope := a.envelope.(c := a.envelope.c.(key := b.envelope.c.key)))
  }

  ghost predicate SameSide(u: Side, v: Side) {
    && SameRatchet(u.ratchet, v.ratchet)
    && u.keys == v.keys && u.arrived == v.arrived && u.boundary == v.boundary
    && |u.sent| == |v.sent| && (forall i :: 0 <= i < |u.sent| ==> SameWire(u.sent[i], v.sent[i]))
    && (forall at :: at in v.decrypted ==> at in u.decrypted)
  }

  ghost predicate SameWorld(u: World, v: World) {
    && SameSide(u.host.side, v.host.side) && SameSide(u.guest.side, v.guest.side)
    && u.host.app.counter == v.host.app.counter && u.guest.app.counter == v.guest.app.counter
    && u.nextKey == v.nextKey
  }

  /** The sender is still on the replaced chain, or on the right one. */
  ghost predicate Sending(u: Ratchet, v: Ratchet, m: Mark) {
    && m.pk <= u.pk
    && (if u.pk == m.pk then m.sendIdx <= u.sendIdx && v.send == ChainAt(m.base, u.sendIdx - m.sendIdx)
        else v.send == u.send)
  }

  ghost predicate Sealed(a: Envelope, b: Envelope, m: Mark) {
    && m.pk <= a.pk
    && (if a.pk == m.pk then m.sendIdx <= a.n && b.c.key == MessageKeyAt(m.base, a.n - m.sendIdx)
        else b.c.key == a.c.key)
  }

  /** Since the reconnect the receiver has taken a DH step to a key it may now hear on. */
  predicate Stepped(last: KeyId, m: Mark) {
    m.pk < last || (last == m.pk && !m.known)
  }

  /** What was buffered since the reconnect comes from the replaced chain. */
  ghost predicate AllReplaced(skipped: seq<Skipped>, m: Mark) {
    forall x :: x in skipped && m.recvIdx <= x.n ==> x.key == MessageKeyAt(m.base, x.n - m.recvIdx)
  }

  /** The receiver is on the replaced chain. */
  ghost predicate Replaced(v: Ratchet, m: Mark) {
    && m.recvIdx <= v.recvIdx
    && v.recv == ChainAt(m.base, v.recvIdx - m.recvIdx)
    && AllReplaced(v.skipped, m)
  }

  ghost predicate Hearing(u: Ratchet, v: Ratchet, m: Mark) {
    && (m.known ==> m.pk <= u.last && m.recvIdx <= m.sendIdx)
    && (u.last == m.pk && m.known ==> Replaced(v, m))
    && (Stepped(u.last, m) ==> v.recv == u.recv && v.skipped == u.skipped && Base(u.recv).ChainOf?)
  }

  ghost predicate Along(us: Side, ur: Side, vs: Side, vr: Side, m: Mark) {
    && m.base.InitChain?
    && Sending(us.ratchet, vs.ratchet, m)
    && Hearing(ur.ratchet, vr.ratchet, m)
    && |us.sent| == |vs.sent|
    && forall i :: ur.boundary <= i < |us.sent| ==> Sealed(us.sent[i].envelope, vs.sent[i].envelope, m)
  }

  ghost predicate Reachable(u: World) {
    Synced(u) && InReach(u.host.side, u.guest.side) && InReach(u.guest.side, u.host.side)
  }

  /** Both sides and both directions, seen from receiver `r`. */
  ghost predicate Pair(us: Side, ur: Side, vs: Side, vr: Side, m: Mark, back: Mark) {
    && SameSide(us, vs) && SameSide(ur, vr)
    && Along(us, ur, vs, vr, m) && Along(ur, us, vr, vs, back)
  }

  /** `v` is where the kem run stands, `u` where the dh run does. */
  ghost predicate Beside(u: World, v: World, ms: Marks) {
    && Reachable(u) && SameWorld(u, v)
    && Along(u.guest.side, u.host.side, v.guest.side, v.host.side, ms.toHost)
    && Along(u.host.side, u.guest.side, v.host.side, v.guest.side, ms.toGuest)
  }

  // ---- Looking a key up takes the same turns in both ----

  lemma {:induction false} FindSame(a: seq<Skipped>, b: seq<Skipped>, pk: KeyId, n: int)
    requires SameShape(a, b)
    ensures Find(a, pk, n).None? <==> Find(b, pk, n).None?
    ensures SameShape(Remove(a, pk, n), Remove(b, pk, n))
  {
    if a != [] {
      FindSame(a[1..], b[1..], pk, n);
    }
  }

  lemma TakeKeySame(u: Ratchet, v: Ratchet, pk: KeyId, n: int)
    requires SameRatchet(u, v)
    ensures var (u', a), (v', b) := TakeKey(u, pk, n), TakeKey(v, pk, n);
      SameRatchet(u', v') && (if a.Granted? then b.Granted? else b == a)
  {
    if n < u.recvIdx {
      FindSame(u.skipped, v.skipped, pk, n);
    } else if n - u.recvIdx <= MAX_SKIP {
      assert SameShape(SkipRange(pk, u.recv, u.recvIdx, n), SkipRange(pk, v.recv, v.recvIdx, n));
    }
  }

  /** On the replaced chain the key for an index is counted from where the receiver stood at the reconnect. */
  lemma TakeReplaced(v: Ratchet, m: Mark, n: int)
    requires Replaced(v, m) && m.recvIdx <= n
    ensures var (v', res) := TakeKey(v, v.last, n);
      Replaced(v', m) && (res.Granted? ==> res.key == MessageKeyAt(m.base, n - m.recvIdx))
  {
    if n < v.recvIdx {
      FindFinds(v.skipped, v.last, n);
      RemoveIsPart(v.skipped, v.last, n);
    } else if n - v.recvIdx <= MAX_SKIP {
      ChainAtPlus(m.base, v.recvIdx - m.recvIdx, n - v.recvIdx);
      ChainAtPlus(m.base, v.recvIdx - m.recvIdx, n - v.recvIdx + 1);
      SkipReplaced(v, m, n);
    }
  }

  lemma {:induction false} RemoveIsPart(skipped: seq<Skipped>, pk: KeyId, n: int)
    ensures forall x :: x in Remove(skipped, pk, n) ==> x in skipped
  {
    if skipped != [] {
      RemoveIsPart(skipped[1..], pk, n);
    }
  }

  lemma SkipReplaced(v: Ratchet, m: Mark, n: nat)
    requires Replaced(v, m) && v.recvIdx <= n
    ensures AllReplaced(Window(v.skipped + SkipRange(v.last, v.recv, v.recvIdx, n), MAX_SKIPPED_KEYS), m)
  {
    var range := SkipRange(v.last, v.recv, v.recvIdx, n);
    forall x | x in Window(v.skipped + range, MAX_SKIPPED_KEYS) && m.recvIdx <= x.n
      ensures x.key == MessageKeyAt(m.base, x.n - m.recvIdx)
    {
      WindowIsPart(v.skipped + range, MAX_SKIPPED_KEYS, x);
      if x !in v.skipped {
        var i :| 0 <= i < |range| && range[i] == x;
        ChainAtPlus(m.base, v.recvIdx - m.recvIdx, i);
      }
    }
  }

  lemma WindowIsPart<T>(s: seq<T>, k: nat, x: T)
    requires x in Window(s, k)
    ensures x in s
  {
  }

  // ---- One arrival in both runs ----

  /** The envelope carries the last-seen key: both look the key up, the kem run perhaps on the replaced chain. */
  lemma HearKnown(u: Ratchet, v: Ratchet, m: Mark, e: Envelope, f: Envelope)
    requires SameRatchet(u, v) && RatchetOk(u) && Hearing(u, v, m) && Sealed(e, f, m) && m.base.InitChain?
    requires f == e.(c := f.c) && e.pk == u.last && Open(TakeKey(u, e.pk, e.n).1, e.c) != Rejected(BadCiphertext)
    ensures var (u', a), (v', b) := TakeKey(u, e.pk, e.n), TakeKey(v, f.pk, f.n);
      && SameRatchet(u', v') && Hearing(u', v', m)
      && Open(b, f.c) == Expected(Open(a, e.c), f.c.plain, m, f)
  {
    TakeKeySame(u, v, e.pk, e.n);
    TakeKeyOk(u, e.n);
    if e.pk == m.pk && m.known {
      TakeReplaced(v, m, e.n);
      SameOffset(m, e.n);
    } else {
      SteppedHears(u, v, m, e, f);
    }
  }

  /** The outcome in the kem run, given the one in the dh run. */
  function Expected(dh: Outcome, plain: Payload, m: Mark, e: Envelope): Outcome {
    if dh.Rejected? then dh else if Survives(m, e) then Opened(plain) else Rejected(BadCiphertext)
  }

  lemma SameOffset(m: Mark, n: int)
    requires m.base.InitChain? && m.recvIdx <= m.sendIdx <= n
    ensures MessageKeyAt(m.base, n - m.recvIdx) == MessageKeyAt(m.base, n - m.sendIdx) <==> m.recvIdx == m.sendIdx
  {
    if MessageKeyAt(m.base, n - m.recvIdx) == MessageKeyAt(m.base, n - m.sendIdx) {
      MessageKeyAtInjective(m.base, n - m.recvIdx, m.base, n - m.sendIdx);
    }
  }

  lemma SteppedHears(u: Ratchet, v: Ratchet, m: Mark, e: Envelope, f: Envelope)
    requires SameRatchet(u, v) && RatchetOk(u) && Hearing(u, v, m) && Sealed(e, f, m) && m.base.InitChain?
    requires f == e.(c := f.c) && e.pk == u.last && Stepped(u.last, m)
    requires Open(TakeKey(u, e.pk, e.n).1, e.c) != Rejected(BadCiphertext)
    ensures var (u', a), (v', b) := TakeKey(u, e.pk, e.n), TakeKey(v, f.pk, f.n);
      && Hearing(u', v', m)
      && Open(b, f.c) == Expected(Open(a, e.c), f.c.plain, m, f)
  {
    TakeKeyOk(u, e.n);
    var (u', a) := TakeKey(u, e.pk, e.n);
    var (v', b) := TakeKey(v, f.pk, f.n);
    assert a == b && v'.recv == u'.recv && v'.skipped == u'.skipped;
    if a.Granted? && e.pk == m.pk {
      ChainAtBase(u.recv);
      if MessageKeyAt(Base(u.recv), e.n) == f.c.key {
        MessageKeyAtInjective(Base(u.recv), e.n, m.base, e.n - m.sendIdx);
      }
    }
  }

  /**
    After the nonce check and a possible DH step both are under the envelope's key; a step makes the two
    ratchets equal.
  */
  lemma SynchroniseBeside(u: Ratchet, v: Ratchet, m: Mark, e: Envelope, f: Envelope, newKey: KeyId)
    requires SameRatchet(u, v) && RatchetOk(u) && Hearing(u, v, m) && Sealed(e, f, m)
    requires f == e.(c := f.c) && e.c.nonce == f.c.nonce && u.last <= e.pk
    ensures var u2, v2 := Synchronise(NoteNonce(u, e.c), e.pk, newKey), Synchronise(NoteNonce(v, f.c), f.pk, newKey);
      && SameRatchet(u2, v2) && RatchetOk(u2) && Hearing(u2, v2, m) && u2.last == e.pk
      && (if e.pk == u.last then u2.pk == u.pk && u2.send == u.send && v2.send == v.send && u2.sendIdx == u.sendIdx
          else u2.pk == newKey && v2.send == u2.send)
  {
  }

  lemma DecryptBeside(u: Ratchet, v: Ratchet, m: Mark, e: Envelope, f: Envelope, newKey: KeyId)
    requires SameRatchet(u, v) && RatchetOk(u) && Hearing(u, v, m) && Sealed(e, f, m) && m.base.InitChain?
    requires f == e.(c := e.c.(key := f.c.key)) && u.last <= e.pk && u.pk < newKey
    requires Decrypt(u, e, newKey).1 != Rejected(BadCiphertext)
    ensures SameRatchet(Decrypt(u, e, newKey).0, Decrypt(v, f, newKey).0)
    ensures Hearing(Decrypt(u, e, newKey).0, Decrypt(v, f, newKey).0, m)
    ensures Decrypt(v, f, newKey).1 == Expected(Decrypt(u, e, newKey).1, f.c.plain, m, f)
    ensures var u', v' := Decrypt(u, e, newKey).0, Decrypt(v, f, newKey).0;
      if u'.pk == newKey then v'.send == u'.send
      else u'.pk == u.pk && u'.sendIdx == u.sendIdx && v'.send == v.send && u'.send == u.send
  {
    if !IsReplay(u, e.c) {
      SynchroniseBeside(u, v, m, e, f, newKey);
      var u2, v2 := Synchronise(NoteNonce(u, e.c), e.pk, newKey), Synchronise(NoteNonce(v, f.c), f.pk, newKey);
      HearKnown(u2, v2, m, e, f);
      TakeKeySame(u2, v2, e.pk, e.n);
      TakeKeyOk(u2, e.n);
    }
  }

  /** Both directions of one arrival at `r`. */
  lemma ArriveBeside(us: Side, ur: Side, vs: Side, vr: Side, m: Mark, back: Mark, at: nat, newKey: KeyId)
    requires SameSide(us, vs) && SameSide(ur, vr) && RatchetOk(ur.ratchet) && Channel(us, ur)
    requires Along(us, ur, vs, vr, m) && Along(ur, us, vr, vs, back)
    requires Deliverable(us, ur, at) && ur.ratchet.pk < newKey && back.pk < newKey
    requires Decrypt(ur.ratchet, us.sent[at].envelope, newKey).1 != Rejected(BadCiphertext)
    ensures var e, f := us.sent[at].envelope, vs.sent[at].envelope;
      && SameSide(Arrive(ur, e, at, newKey), Arrive(vr, f, at, newKey))
      && Along(us, Arrive(ur, e, at, newKey), vs, Arrive(vr, f, at, newKey), m)
      && Along(Arrive(ur, e, at, newKey), us, Arrive(vr, f, at, newKey), vs, back)
      && Decrypt(vr.ratchet, f, newKey).1 == Expected(Decrypt(ur.ratchet, e, newKey).1, f.c.plain, m, f)
  {
    var e, f := us.sent[at].envelope, vs.sent[at].envelope;
    assert SameWire(us.sent[at], vs.sent[at]);
    DeliveredKey(us, ur, at);
    DecryptBeside(ur.ratchet, vr.ratchet, m, e, f, newKey);
  }

  lemma DeliverableSame(us: Side, ur: Side, vs: Side, vr: Side, at: nat)
    requires SameSide(us, vs) && SameSide(ur, vr)
    ensures Deliverable(us, ur, at) <==> Deliverable(vs, vr, at)
  {
  }

  /** Sending, from the peer whose ratchets `u` and `v` are. */
  lemma EmitBeside(us: Side, ur: Side, vs: Side, vr: Side, m: Mark, back: Mark, plain: Payload, nonce: Nonce,
                   wired: bool)
    requires SameSide(us, vs) && SameSide(ur, vr) && RatchetOk(us.ratchet)
    requires Along(us, ur, vs, vr, m) && Along(ur, us, vr, vs, back)
    ensures SameSide(Emit(us, plain, nonce, wired), Emit(vs, plain, nonce, wired))
    ensures Along(Emit(us, plain, nonce, wired), ur, Emit(vs, plain, nonce, wired), vr, m)
    ensures Along(ur, Emit(us, plain, nonce, wired), vr, Emit(vs, plain, nonce, wired), back)
  {
  }

  // ---- Whole runs ----

  /** The marks of the latest reconnect. */
  function MarksNext(v: World, ms: Marks, ev: KemEvent): Marks {
    if ev.FullReconnect? then MarksAt(v, ev.shared) else ms
  }

  ghost function MarksRun(v: World, ms: Marks, evs: seq<KemEvent>): Marks
    requires KemAdmissible(v, evs)
    decreases |evs|
  {
    if evs == [] then ms else MarksRun(KemNext(v, evs[0]), MarksNext(v, ms, evs[0]), evs[1..])
  }

  lemma EmitInReach(s: Side, r: Side, plain: Payload, nonce: Nonce, wired: bool)
    requires InReach(s, r) && InReach(r, s)
    ensures InReach(Emit(s, plain, nonce, wired), r) && InReach(r, Emit(s, plain, nonce, wired))
  {
  }

  lemma ReachableSent(u: World, ev: Event)
    requires Reachable(u) && (ev.SendChat? || ev.SendControl?)
    ensures Reachable(Next(u, ev))
  {
    SendKeepsSync(u, Leader(u), ev);
    SentInReach(u, ev);
  }

  lemma SentInReach(u: World, ev: Event)
    requires InReach(u.host.side, u.guest.side) && InReach(u.guest.side, u.host.side)
    requires ev.SendChat? || ev.SendControl?
    ensures var u' := Next(u, ev);
      InReach(u'.host.side, u'.guest.side) && InReach(u'.guest.side, u'.host.side)
  {
    var plain := SendEmits(u, ev);
    EmitInReach(Get(u, ev.from).side, Get(u, Other(ev.from)).side, plain, ev.nonce, ev.wired);
  }

  lemma NeverUndecipherable(u: World, to: Role, at: nat)
    requires Synced(u) && Enabled(u, Deliver(to, at))
    ensures Result(u, to, at) != Rejected(BadCiphertext)
  {
    NextKeepsSync(u, Deliver(to, at), Leader(u));
  }

  lemma ArriveInReachOther(s: Side, r: Side, e: Envelope, at: nat, newKey: KeyId)
    requires InReach(r, s) && s.ratchet.last != newKey
    ensures InReach(Arrive(r, e, at, newKey), s)
  {
  }

  lemma ReachableDelivered(u: World, to: Role, at: nat)
    requires Reachable(u) && Enabled(u, Deliver(to, at))
    ensures Reachable(Next(u, Deliver(to, at)))
  {
    var s, r := Get(u, Other(to)).side, Get(u, to).side;
    NextKeepsSync(u, Deliver(to, at), Leader(u));
    ArriveStaysInReach(s, r, at, u.nextKey);
    ArriveInReachOther(s, r, s.sent[at].envelope, at, u.nextKey);
  }

  lemma ReachableRelinked(u: World)
    requires Reachable(u)
    ensures Reachable(RelinkBoth(u))
  {
    var h, g := u.host.side, u.guest.side;
    var h', g' := Relink(h, |g.sent|), Relink(g, |h.sent|);
    if SyncedBy(u, Host) {
      RelinkKeepsLinked(h, g, u.nextKey, |g.sent|);
      RelinkKeepsLinked(h', g, u.nextKey, |h.sent|);
    } else {
      RelinkKeepsLinked(g, h, u.nextKey, |h.sent|);
      RelinkKeepsLinked(g', h, u.nextKey, |g.sent|);
    }
  }

  /** A reconnect starts the comparison afresh, whatever the keys were before it. */
  lemma ReconnectBeside(u: World, v: World, shared: Key)
    requires Reachable(u) && SameWorld(u, v)
    ensures Beside(RelinkBoth(u), RekeyBoth(v, shared), MarksAt(v, shared))
  {
    ReachableRelinked(u);
    RekeyDirection(u.guest.side, u.host.side, v.guest.side, v.host.side, Guest, shared);
    RekeyDirection(u.host.side, u.guest.side, v.host.side, v.guest.side, Host, shared);
  }

  lemma RekeyDirection(us: Side, ur: Side, vs: Side, vr: Side, from: Role, shared: Key)
    requires SameSide(us, vs) && SameSide(ur, vr) && RatchetOk(ur.ratchet) && InReach(us, ur)
    requires ur.ratchet.last <= us.ratchet.pk
    ensures Along(Relink(us, |ur.sent|), Relink(ur, |us.sent|),
                      Rekey(vs, from, shared, |vr.sent|), Rekey(vr, Other(from), shared, |vs.sent|),
                      MarkAt(vs, vr, SymmetricChain(from, shared)))
    ensures SameSide(Relink(us, |ur.sent|), Rekey(vs, from, shared, |vr.sent|))
  {
  }

  lemma DeliverBeside(u: World, v: World, ms: Marks, to: Role, at: nat)
    requires Beside(u, v, ms)
    ensures Enabled(u, Deliver(to, at)) <==> Enabled(v, Deliver(to, at))
    ensures Enabled(v, Deliver(to, at)) ==>
      && Beside(Next(u, Deliver(to, at)), Next(v, Deliver(to, at)), ms)
      && var f := Get(v, Other(to)).side.sent[at].envelope;
        Result(v, to, at) == Expected(Result(u, to, at), f.c.plain, MarkTo(ms, to), f)
  {
    DeliverableSame(Get(u, Other(to)).side, Get(u, to).side, Get(v, Other(to)).side, Get(v, to).side, at);
    if Enabled(u, Deliver(to, at)) {
      ReachableDelivered(u, to, at);
      NeverUndecipherable(u, to, at);
      HearBeside(u, v, ms, to, at);
    }
  }

  lemma HearBeside(u: World, v: World, ms: Marks, to: Role, at: nat)
    requires Beside(u, v, ms) && Enabled(u, Deliver(to, at)) && Enabled(v, Deliver(to, at))
    requires Result(u, to, at) != Rejected(BadCiphertext) && Reachable(Next(u, Deliver(to, at)))
    ensures Beside(Next(u, Deliver(to, at)), Next(v, Deliver(to, at)), ms)
    ensures var f := Get(v, Other(to)).side.sent[at].envelope;
      Result(v, to, at) == Expected(Result(u, to, at), f.c.plain, MarkTo(ms, to), f)
  {
    KeysInOrder(u, v, ms, to);
    ArriveBeside(Get(u, Other(to)).side, Get(u, to).side, Get(v, Other(to)).side, Get(v, to).side,
                 MarkTo(ms, to), MarkTo(ms, Other(to)), at, u.nextKey);
    HeardPair(u, v, ms, to, at);
  }

  /** From the two arrivals to the two worlds. */
  lemma HeardPair(u: World, v: World, ms: Marks, to: Role, at: nat)
    requires SameWorld(u, v) && Enabled(u, Deliver(to, at)) && Enabled(v, Deliver(to, at))
    requires Reachable(Next(u, Deliver(to, at)))
    requires var us, ur, vs, vr := Get(u, Other(to)).side, Get(u, to).side, Get(v, Other(to)).side, Get(v, to).side;
      Pair(us, Arrive(ur, us.sent[at].envelope, at, u.nextKey), vs, Arrive(vr, vs.sent[at].envelope, at, u.nextKey),
           MarkTo(ms, to), MarkTo(ms, Other(to)))
    ensures Beside(Next(u, Deliver(to, at)), Next(v, Deliver(to, at)), ms)
  {
    HearKeepsCounter(Get(u, to), Get(u, Other(to)).side.sent[at].envelope, at, u.nextKey);
    HearKeepsCounter(Get(v, to), Get(v, Other(to)).side.sent[at].envelope, at, v.nextKey);
    Assemble(Next(u, Deliver(to, at)), Next(v, Deliver(to, at)), ms, to);
  }

  lemma HearKeepsCounter(p: Peer, e: Envelope, at: nat, newKey: KeyId)
    ensures Hear(p, e, at, newKey).app.counter == p.app.counter
    ensures Hear(p, e, at, newKey).side == Arrive(p.side, e, at, newKey)
  {
  }

  lemma Assemble(u: World, v: World, ms: Marks, to: Role)
    requires Reachable(u)
    requires Pair(Get(u, Other(to)).side, Get(u, to).side, Get(v, Other(to)).side, Get(v, to).side,
                  MarkTo(ms, to), MarkTo(ms, Other(to)))
    requires u.host.app.counter == v.host.app.counter && u.guest.app.counter == v.guest.app.counter
    requires u.nextKey == v.nextKey
    ensures Beside(u, v, ms)
  {
  }

  lemma KeysInOrder(u: World, v: World, ms: Marks, to: Role)
    requires Beside(u, v, ms)
    ensures var s, r := Get(u, Other(to)).side, Get(u, to).side;
      && RatchetOk(r.ratchet) && RatchetOk(s.ratchet) && Channel(s, r)
      && Pair(s, r, Get(v, Other(to)).side, Get(v, to).side, MarkTo(ms, to), MarkTo(ms, Other(to)))
      && r.ratchet.pk < u.nextKey && MarkTo(ms, Other(to)).pk < u.nextKey
  {
  }

  /** The payload a send would encrypt. */
  function PayloadOf(w: World, ev: Event): Payload
    requires ev.SendChat? || ev.SendControl?
  {
    if ev.SendControl? then Control(ev.action, ev.title)
    else Chat(Message(ev.id, ev.text, ev.sender, ev.timestamp, Get(w, ev.from).app.counter + 1))
  }

  /** Whether the send gets as far as encrypting. */
  predicate Encrypts(ev: Event) {
    ev.SendControl? || (ev.SendChat? && ValidText(ev.text))
  }

  lemma SendIs(w: World, ev: Event)
    requires ev.SendChat? || ev.SendControl?
    ensures Get(Next(w, ev), Other(ev.from)) == Get(w, Other(ev.from)) && Next(w, ev).nextKey == w.nextKey
    ensures Get(Next(w, ev), ev.from).side ==
      if Encrypts(ev) then Emit(Get(w, ev.from).side, PayloadOf(w, ev), ev.nonce, ev.wired) else Get(w, ev.from).side
    ensures Get(Next(w, ev), ev.from).app.counter == Get(w, ev.from).app.counter + if ev.SendChat? then 1 else 0
  {
  }

  lemma SendBeside(u: World, v: World, ms: Marks, ev: Event)
    requires Beside(u, v, ms) && (ev.SendChat? || ev.SendControl?)
    ensures Beside(Next(u, ev), Next(v, ev), ms)
  {
    ReachableSent(u, ev);
    SidesPair(u, v, ms, Other(ev.from));
    if Encrypts(ev) {
      SentPair(u, v, ms, ev);
    }
    SendAssembles(u, v, ms, ev);
  }

  lemma SidesPair(u: World, v: World, ms: Marks, to: Role)
    requires Beside(u, v, ms)
    ensures Pair(Get(u, Other(to)).side, Get(u, to).side, Get(v, Other(to)).side, Get(v, to).side,
                 MarkTo(ms, to), MarkTo(ms, Other(to)))
    ensures SameWorld(u, v)
  {
  }

  /** The sides after the send, and all else a comparison needs. */
  lemma SentSides(u: World, v: World, ms: Marks, ev: Event)
    requires SameWorld(u, v) && (ev.SendChat? || ev.SendControl?)
    requires if Encrypts(ev)
             then Pair(Emit(Get(u, ev.from).side, PayloadOf(u, ev), ev.nonce, ev.wired), Get(u, Other(ev.from)).side,
                       Emit(Get(v, ev.from).side, PayloadOf(v, ev), ev.nonce, ev.wired), Get(v, Other(ev.from)).side,
                       MarkTo(ms, Other(ev.from)), MarkTo(ms, ev.from))
             else Pair(Get(u, ev.from).side, Get(u, Other(ev.from)).side, Get(v, ev.from).side,
                       Get(v, Other(ev.from)).side,
                       MarkTo(ms, Other(ev.from)), MarkTo(ms, ev.from))
    ensures var u', v' := Next(u, ev), Next(v, ev);
      && Pair(Get(u', ev.from).side, Get(u', Other(ev.from)).side, Get(v', ev.from).side, Get(v', Other(ev.from)).side,
              MarkTo(ms, Other(ev.from)), MarkTo(ms, ev.from))
      && u'.host.app.counter == v'.host.app.counter && u'.guest.app.counter == v'.guest.app.counter
      && u'.nextKey == v'.nextKey
  {
    SendIs(u, ev);
    SendIs(v, ev);
  }

  lemma SendAssembles(u: World, v: World, ms: Marks, ev: Event)
    requires SameWorld(u, v) && (ev.SendChat? || ev.SendControl?) && Reachable(Next(u, ev))
    requires if Encrypts(ev)
             then Pair(Emit(Get(u, ev.from).side, PayloadOf(u, ev), ev.nonce, ev.wired), Get(u, Other(ev.from)).side,
                       Emit(Get(v, ev.from).side, PayloadOf(v, ev), ev.nonce, ev.wired), Get(v, Other(ev.from)).side,
                       MarkTo(ms, Other(ev.from)), MarkTo(ms, ev.from))
             else Pair(Get(u, ev.from).side, Get(u, Other(ev.from)).side, Get(v, ev.from).side,
                       Get(v, Other(ev.from)).side,
                       MarkTo(ms, Other(ev.from)), MarkTo(ms, ev.from))
    ensures Beside(Next(u, ev), Next(v, ev), ms)
  {
    SentSides(u, v, ms, ev);
    Assemble(Next(u, ev), Next(v, ev), ms, Other(ev.from));
  }

  lemma SentPair(u: World, v: World, ms: Marks, ev: Event)
    requires Reachable(u) && (ev.SendChat? || ev.SendControl?)
    requires Get(u, ev.from).app.counter == Get(v, ev.from).app.counter
    requires Pair(Get(u, ev.from).side, Get(u, Other(ev.from)).side, Get(v, ev.from).side, Get(v, Other(ev.from)).side,
                  MarkTo(ms, Other(ev.from)), MarkTo(ms, ev.from))
    ensures Pair(Emit(Get(u, ev.from).side, PayloadOf(u, ev), ev.nonce, ev.wired), Get(u, Other(ev.from)).side,
                 Emit(Get(v, ev.from).side, PayloadOf(v, ev), ev.nonce, ev.wired), Get(v, Other(ev.from)).side,
                 MarkTo(ms, Other(ev.from)), MarkTo(ms, ev.from))
  {
    var from := ev.from;
    assert PayloadOf(u, ev) == PayloadOf(v, ev);
    EmitBeside(Get(u, from).side, Get(u, Other(from)).side, Get(v, from).side, Get(v, Other(from)).side,
               MarkTo(ms, Other(from)), MarkTo(ms, from), PayloadOf(u, ev), ev.nonce, ev.wired);
  }

  lemma NextBeside(u: World, v: World, ms: Marks, ev: KemEvent)
    requires Beside(u, v, ms)
    ensures KemEnabled(u, ev) <==> KemEnabled(v, ev)
    ensures KemEnabled(v, ev) ==> Beside(DhNext(u, ev), KemNext(v, ev), MarksNext(v, ms, ev))
  {
    match ev
    case FullReconnect(shared) => ReconnectBeside(u, v, shared);
    case Plain(Deliver(to, at)) => DeliverBeside(u, v, ms, to, at);
    case Plain(Reconnect(_)) =>
    case Plain(e) => SendBeside(u, v, ms, e);
  }

  lemma {:induction false} RunBeside(u: World, v: World, ms: Marks, evs: seq<KemEvent>)
    requires Beside(u, v, ms)
    ensures DhAdmissible(u, evs) <==> KemAdmissible(v, evs)
    ensures KemAdmissible(v, evs) ==> Beside(DhRun(u, evs), KemRun(v, evs), MarksRun(v, ms, evs))
    decreases |evs|
  {
    if evs != [] {
      NextBeside(u, v, ms, evs[0]);
      if KemEnabled(v, evs[0]) {
        RunBeside(DhNext(u, evs[0]), KemNext(v, evs[0]), MarksNext(v, ms, evs[0]), evs[1..]);
      }
    }
  }

  /**
    After a kem-mode reconnect, in every run, further reconnects included: the same deliveries are possible as
    if the reconnects had been dh-mode ones; one that would have been rejected is rejected in the same way; and
    one that would have opened opens if and only if the envelope survives the latest re-keying. Otherwise it is
    rejected as an undecipherable one.
  */
  lemma ExactlySurvivorsOpen(w: World, shared: Key, evs: seq<KemEvent>, to: Role, at: nat)
    requires Reachable(w) && KemAdmissible(RekeyBoth(w, shared), evs)
    ensures DhAdmissible(RelinkBoth(w), evs)
    ensures var dh, kem := DhRun(RelinkBoth(w), evs), KemRun(RekeyBoth(w, shared), evs);
      && (Enabled(kem, Deliver(to, at)) <==> Enabled(dh, Deliver(to, at)))
      && (Enabled(kem, Deliver(to, at)) ==>
            var e := Get(kem, Other(to)).side.sent[at].envelope;
            var m := MarkTo(MarksRun(RekeyBoth(w, shared), MarksAt(w, shared), evs), to);
            Result(kem, to, at) == Expected(Result(dh, to, at), e.c.plain, m, e))
  {
    RunAfterReconnect(w, shared, evs);
    DeliverBeside(DhRun(RelinkBoth(w), evs), KemRun(RekeyBoth(w, shared), evs),
                  MarksRun(RekeyBoth(w, shared), MarksAt(w, shared), evs), to, at);
  }

  lemma RunAfterReconnect(w: World, shared: Key, evs: seq<KemEvent>)
    requires Reachable(w) && KemAdmissible(RekeyBoth(w, shared), evs)
    ensures DhAdmissible(RelinkBoth(w), evs)
    ensures Beside(DhRun(RelinkBoth(w), evs), KemRun(RekeyBoth(w, shared), evs),
                   MarksRun(RekeyBoth(w, shared), MarksAt(w, shared), evs))
  {
    ReconnectBeside(w, w, shared);
    RunBeside(RelinkBoth(w), RekeyBoth(w, shared), MarksAt(w, shared), evs);
  }

  // ---- What follows ----

  /**
    The marks a reconnect leaves: only what the peer that is behind sends can survive under its old key, and only
    if all of it had been heard.
  */
  lemma MarksOfSynced(w: World, ahead: Role, shared: Key)
    requires SyncedBy(w, ahead)
    ensures var ms := MarksAt(w, shared);
      && !MarkTo(ms, Other(ahead)).known
      && MarkTo(ms, ahead).known
      && MarkTo(ms, Other(ahead)).pk == Get(w, ahead).side.ratchet.pk
      && MarkTo(ms, ahead).pk == Get(w, Other(ahead)).side.ratchet.pk
      && MarkTo(ms, ahead).sendIdx == Get(w, Other(ahead)).side.ratchet.sendIdx
      && MarkTo(ms, ahead).recvIdx == Get(w, ahead).side.ratchet.recvIdx
  {
  }

  /**
    In particular the peer that was ahead is not heard at all until it takes a DH step: whatever it sends under
    the ratchet key it had at the reconnect is rejected, as undecipherable where it would have opened.
  */
  lemma LeaderUnheard(w: World, ahead: Role, shared: Key, evs: seq<KemEvent>, at: nat)
    requires SyncedBy(w, ahead) && Reachable(w)
    requires (forall i :: 0 <= i < |evs| ==> evs[i].Plain?) && KemAdmissible(RekeyBoth(w, shared), evs)
    requires var kem := KemRun(RekeyBoth(w, shared), evs);
      && Enabled(kem, Deliver(Other(ahead), at))
      && Get(kem, ahead).side.sent[at].envelope.pk == Get(w, ahead).side.ratchet.pk
    ensures DhAdmissible(RelinkBoth(w), evs) && Enabled(DhRun(RelinkBoth(w), evs), Deliver(Other(ahead), at))
    ensures var dh := Result(DhRun(RelinkBoth(w), evs), Other(ahead), at);
      Result(KemRun(RekeyBoth(w, shared), evs), Other(ahead), at) == if dh.Opened? then Rejected(BadCiphertext) else dh
  {
    MarksOfSynced(w, ahead, shared);
    MarksStay(RekeyBoth(w, shared), MarksAt(w, shared), evs);
    ExactlySurvivorsOpen(w, shared, evs, Other(ahead), at);
  }

  /** After a kem-mode reconnect the peers are never in sync, whatever they were before. */
  lemma RekeyBreaksSync(w: World, shared: Key)
    ensures !Synced(RekeyBoth(w, shared))
  {
  }

  /** An envelope of a replaced chain under a ratchet key the receiver has not seen. */
  lemma StrangeChainRejected(r: Ratchet, e: Envelope, newKey: KeyId)
    requires r.nonces == [] && e.pk != r.last && 0 <= e.n
    requires e.c.key.MessageKey? && Base(e.c.key.chain).InitChain?
    ensures Decrypt(r, e, newKey).1 == Rejected(if e.n <= MAX_SKIP then BadCiphertext else TooManySkipped)
  {
    if e.n <= MAX_SKIP {
      BaseOfChainAt(ChainOf(r.root, DhOut(r.pk, e.pk)), e.n);
    }
  }

  /** The same envelope, had it been sealed on the right chain, opens. */
  lemma NewKeyTaken(r: Ratchet, e: Envelope, newKey: KeyId)
    requires r.nonces == [] && e.pk != r.last && 0 <= e.n <= MAX_SKIP
    ensures Decrypt(r, e, newKey).1 == Opened(e.c.plain) || Decrypt(r, e, newKey).1 == Rejected(BadCiphertext)
  {
  }

  /**
    The failure itself, at every point of every run: right after a kem-mode reconnect the peer that is ahead sends
    a chat. It can be delivered, it would have opened after a dh-mode reconnect, and it is rejected. (More than
    100 envelopes under one ratchet key of which the other has seen none are too many in either mode.)
  */
  lemma LeadersFirstMessageLost(w: World, ahead: Role, shared: Key, chat: Event)
    requires SyncedBy(w, ahead) && Reachable(w)
    requires chat.SendChat? && chat.from == ahead && ValidText(chat.text) && chat.wired
    ensures var dh, kem := Next(RelinkBoth(w), chat), Next(RekeyBoth(w, shared), chat);
      var to, at, n := Other(ahead), |Get(w, ahead).side.sent|, Get(w, ahead).side.ratchet.sendIdx;
      && Enabled(dh, Deliver(to, at)) && Enabled(kem, Deliver(to, at))
      && (n <= MAX_SKIP ==> Result(dh, to, at).Opened? && Result(kem, to, at) == Rejected(BadCiphertext))
      && (n > MAX_SKIP ==> Result(kem, to, at) == Rejected(TooManySkipped))
  {
    LeaderDeliverable(w, ahead, shared, chat);
    LeaderLost(w, ahead, shared, chat);
    if Get(w, ahead).side.ratchet.sendIdx <= MAX_SKIP {
      LeaderWouldBeHeard(w, ahead, chat);
    }
  }

  lemma LeaderLost(w: World, ahead: Role, shared: Key, chat: Event)
    requires SyncedBy(w, ahead)
    requires chat.SendChat? && chat.from == ahead && ValidText(chat.text) && chat.wired
    requires Enabled(Next(RekeyBoth(w, shared), chat), Deliver(Other(ahead), |Get(w, ahead).side.sent|))
    ensures Result(Next(RekeyBoth(w, shared), chat), Other(ahead), |Get(w, ahead).side.sent|) ==
            Rejected(if Get(w, ahead).side.ratchet.sendIdx <= MAX_SKIP then BadCiphertext else TooManySkipped)
  {
    LeaderSends(RekeyBoth(w, shared), ahead, chat);
    var kem := Next(RekeyBoth(w, shared), chat);
    StrangeChainRejected(Get(kem, Other(ahead)).side.ratchet,
                         Get(kem, ahead).side.sent[|Get(w, ahead).side.sent|].envelope, kem.nextKey);
  }

  lemma LeaderWouldBeHeard(w: World, ahead: Role, chat: Event)
    requires SyncedBy(w, ahead) && Reachable(w) && Get(w, ahead).side.ratchet.sendIdx <= MAX_SKIP
    requires chat.SendChat? && chat.from == ahead && ValidText(chat.text) && chat.wired
    requires Enabled(Next(RelinkBoth(w), chat), Deliver(Other(ahead), |Get(w, ahead).side.sent|))
    ensures Result(Next(RelinkBoth(w), chat), Other(ahead), |Get(w, ahead).side.sent|).Opened?
  {
    LeaderSends(RelinkBoth(w), ahead, chat);
    var dh := Next(RelinkBoth(w), chat);
    var at := |Get(w, ahead).side.sent|;
    NewKeyTaken(Get(dh, Other(ahead)).side.ratchet, Get(dh, ahead).side.sent[at].envelope, dh.nextKey);
    ReachableRelinked(w);
    ReachableSent(RelinkBoth(w), chat);
    NeverUndecipherable(dh, Other(ahead), at);
  }

  lemma LeaderSends(v: World, ahead: Role, chat: Event)
    requires chat.SendChat? && chat.from == ahead && ValidText(chat.text) && chat.wired
    ensures Get(Next(v, chat), Other(ahead)) == Get(v, Other(ahead))
    ensures var s, s' := Get(v, ahead).side, Get(Next(v, chat), ahead).side;
      && |s'.sent| == |s.sent| + 1 && s'.sent[..|s.sent|] == s.sent && s'.sent[|s.sent|].wired
      && s'.sent[|s.sent|].envelope.pk == s.ratchet.pk && s'.sent[|s.sent|].envelope.n == s.ratchet.sendIdx
      && s'.sent[|s.sent|].envelope.c.key == MessageKey(s.ratchet.send)
  {
  }

  lemma LeaderDeliverable(w: World, ahead: Role, shared: Key, chat: Event)
    requires SyncedBy(w, ahead) && chat.SendChat? && chat.from == ahead && ValidText(chat.text) && chat.wired
    ensures Enabled(Next(RelinkBoth(w), chat), Deliver(Other(ahead), |Get(w, ahead).side.sent|))
    ensures Enabled(Next(RekeyBoth(w, shared), chat), Deliver(Other(ahead), |Get(w, ahead).side.sent|))
  {
    var s, r := Get(w, ahead).side, Get(w, Other(ahead)).side;
    LeaderSends(RelinkBoth(w), ahead, chat);
    LeaderSends(RekeyBoth(w, shared), ahead, chat);
    forall j | 0 <= j < |r.arrived|
      ensures r.arrived[j] < |s.sent| && s.sent[r.arrived[j]].envelope.pk <= s.ratchet.pk
    {
      assert Readable(s.ratchet, r.ratchet, s.sent[r.arrived[j]].envelope);
    }
    var dh, kem := Get(Next(RelinkBoth(w), chat), ahead).side, Get(Next(RekeyBoth(w, shared), chat), ahead).side;
    assert forall i :: 0 <= i < |s.sent| ==> dh.sent[i] == s.sent[i] && kem.sent[i] == s.sent[i];
  }

  lemma {:induction false} MarksStay(v: World, ms: Marks, evs: seq<KemEvent>)
    requires KemAdmissible(v, evs) && forall i :: 0 <= i < |evs| ==> evs[i].Plain?
    ensures MarksRun(v, ms, evs) == ms
    decreases |evs|
  {
    if evs != [] {
      MarksStay(KemNext(v, evs[0]), ms, evs[1..]);
    }
  }

  /**
    The recovery: an envelope under a ratchet key made after the latest reconnect opens exactly as if the
    reconnect had been a dh-mode one, so two DH steps bring both peers back in touch.
  */
  lemma NewKeysAreHeard(w: World, shared: Key, evs: seq<KemEvent>, to: Role, at: nat)
    requires Reachable(w) && KemAdmissible(RekeyBoth(w, shared), evs)
    requires Enabled(KemRun(RekeyBoth(w, shared), evs), Deliver(to, at))
    requires MarkTo(MarksRun(RekeyBoth(w, shared), MarksAt(w, shared), evs), to).pk
             < Get(KemRun(RekeyBoth(w, shared), evs), Other(to)).side.sent[at].envelope.pk
    ensures DhAdmissible(RelinkBoth(w), evs) && Enabled(DhRun(RelinkBoth(w), evs), Deliver(to, at))
    ensures Result(KemRun(RekeyBoth(w, shared), evs), to, at) == Result(DhRun(RelinkBoth(w), evs), to, at)
  {
    RunAfterReconnect(w, shared, evs);
    NewKeyBeside(DhRun(RelinkBoth(w), evs), KemRun(RekeyBoth(w, shared), evs),
                 MarksRun(RekeyBoth(w, shared), MarksAt(w, shared), evs), to, at);
  }

  lemma NewKeyBeside(u: World, v: World, ms: Marks, to: Role, at: nat)
    requires Beside(u, v, ms) && Enabled(v, Deliver(to, at))
    requires MarkTo(ms, to).pk < Get(v, Other(to)).side.sent[at].envelope.pk
    ensures Enabled(u, Deliver(to, at)) && Result(v, to, at) == Result(u, to, at)
  {
    DeliverBeside(u, v, ms, to, at);
    SamePlain(u, v, to, at);
  }

  /** What opens in the dh run is the plaintext that was sealed in the kem run. */
  lemma SamePlain(u: World, v: World, to: Role, at: nat)
    requires SameWorld(u, v) && Enabled(u, Deliver(to, at)) && Enabled(v, Deliver(to, at))
    ensures Result(u, to, at).Opened? ==> Result(u, to, at).plain == Get(v, Other(to)).side.sent[at].envelope.c.plain
  {
  }

  /** A kem session is never unfaithful: a delivery throws or gives exactly what was encrypted, once per envelope. */
  lemma KemIsFaithful(w: World, shared: Key, evs: seq<KemEvent>, to: Role, at: nat)
    requires Reachable(w) && KemAdmissible(RekeyBoth(w, shared), evs)
    requires Enabled(KemRun(RekeyBoth(w, shared), evs), Deliver(to, at))
    ensures var kem := KemRun(RekeyBoth(w, shared), evs);
      Result(kem, to, at).Opened? ==>
        && Result(kem, to, at).plain == Get(kem, Other(to)).side.sent[at].envelope.c.plain
        && at !in Get(kem, to).side.decrypted
  {
    RunAfterReconnect(w, shared, evs);
    FaithfulBeside(DhRun(RelinkBoth(w), evs), KemRun(RekeyBoth(w, shared), evs),
                   MarksRun(RekeyBoth(w, shared), MarksAt(w, shared), evs), to, at);
  }

  lemma FaithfulBeside(u: World, v: World, ms: Marks, to: Role, at: nat)
    requires Beside(u, v, ms) && Enabled(v, Deliver(to, at))
    ensures Result(v, to, at).Opened? ==>
      && Result(v, to, at).plain == Get(v, Other(to)).side.sent[at].envelope.c.plain
      && at !in Get(v, to).side.decrypted
  {
    DeliverBeside(u, v, ms, to, at);
    OpenedIsSealed(Get(v, to).side.ratchet, Get(v, Other(to)).side.sent[at].envelope, v.nextKey);
    OpensOnce(u, to, at);
  }

  lemma OpensOnce(u: World, to: Role, at: nat)
    requires Synced(u) && Enabled(u, Deliver(to, at))
    ensures Result(u, to, at).Opened? ==> at !in Get(u, to).side.decrypted
  {
    NextKeepsSync(u, Deliver(to, at), Leader(u));
  }

  lemma OpenedIsSealed(r: Ratchet, e: Envelope, newKey: KeyId)
    ensures Decrypt(r, e, newKey).1.Opened? ==> Decrypt(r, e, newKey).1.plain == e.c.plain
  {
  }

  // ---- The logs ----

  /** Re-keying costs messages but never corrupts a log. */
  lemma {:induction false} KemRunKeepsHonest(v: World, evs: seq<KemEvent>)
    requires HonestLogs(v) && KemAdmissible(v, evs)
    ensures HonestLogs(KemRun(v, evs))
    decreases |evs|
  {
    if evs != [] {
      if evs[0].Plain? {
        NextKeepsHonest(v, evs[0].event);
      }
      KemRunKeepsHonest(KemNext(v, evs[0]), evs[1..]);
    }
  }

  /** In every kem-mode run a received log is a subsequence of the other's own, with strictly rising counters. */
  lemma KemConversation(v: World, evs: seq<KemEvent>, to: Role)
    requires HonestLogs(v) && KemAdmissible(v, evs)
    ensures var now := KemRun(v, evs);
      var own, theirs := Picked(Get(now, Other(to)).app.messages, true), Picked(Get(now, to).app.messages, false);
      Subsequence(theirs, own) && Rising(theirs)
  {
    KemRunKeepsHonest(v, evs);
    LossyConversation(KemRun(v, evs), [], to);
  }

  /** And the own log stays what went out. */
  lemma {:induction false} KemRunKeepsOwnLogs(v: World, evs: seq<KemEvent>)
    requires OwnLogs(v) && KemAdmissible(v, evs)
    ensures OwnLogs(KemRun(v, evs))
    decreases |evs|
  {
    if evs != [] {
      if evs[0].Plain? {
        NextKeepsOwnLogs(v, evs[0].event);
      }
      KemRunKeepsOwnLogs(KemNext(v, evs[0]), evs[1..]);
    }
  }

  // ---- What the new chains hang on ----

  /**
    The message keys of a replaced chain come from the new handshake key alone, which the session keeps: without
    a chain key they are derivable if and only if that handshake key is.
  */
  lemma ReplacedChainsHangOnSharedKey(known: set<Key>, privs: set<KeyId>, from: Role, shared: Key, n: nat)
    requires forall j :: 0 <= j <= n ==> ChainAt(SymmetricChain(from, shared), j) !in known
    requires MessageKeyAt(SymmetricChain(from, shared), n) !in known
    ensures Derivable(known, privs, MessageKeyAt(SymmetricChain(from, shared), n)) <==> Derivable(known, privs, shared)
  {
    var base := SymmetricChain(from, shared);
    assert base == ChainAt(base, 0);
    if Derivable(known, privs, shared) {
      ChainDerivable(known, privs, base, n);
    } else {
      ChainUnderivable(known, privs, base, n);
    }
  }
}
