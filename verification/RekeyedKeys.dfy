/**
  Keys over whole sessions in kem mode: with a new handshake key for every reconnect no message key is used
  twice, and a captured state gives away nothing already sent
  (src/core/services/SessionManager.js:679-690, 715-725, 1053-1063).
*/
module RekeyedKeys {
  import opened Keys
  import opened Payload
  import opened DoubleRatchet
  import opened TwoParty
  import opened Lineage
  import opened Rekeying

  /** A chain that was set by a kem-mode reconnect, for what `from` sends, with one of the handshake keys in `used`. */
  ghost predicate ReplacedBy(chain: Key, from: Role, used: set<Key>) {
    exists shared :: shared in used && Base(chain) == SymmetricChain(from, shared)
  }

  /** The key of the kem run is that of the dh run, or comes from a replaced chain. */
  ghost predicate KeyKind(a: Key, b: Key, from: Role, used: set<Key>) {
    b == a || (b.MessageKey? && ReplacedBy(b.chain, from, used))
  }

  ghost predicate ChainKind(a: Key, b: Key, from: Role, used: set<Key>) {
    b == a || ReplacedBy(b, from, used)
  }

  /** What `from` has sealed: its keys are of a known kind, pairwise different, and behind its present send chain. */
  ghost predicate SealedOnce(us: Side, vs: Side, from: Role, used: set<Key>) {
    && |us.sent| == |vs.sent|
    && ChainKind(us.ratchet.send, vs.ratchet.send, from, used)
    && (forall i :: 0 <= i < |vs.sent| ==> KeyKind(us.sent[i].envelope.c.key, vs.sent[i].envelope.c.key, from, used))
    && (forall i :: 0 <= i < |vs.sent| ==> Behind(vs.sent[i].envelope.c.key, vs.ratchet.send))
    && (forall i, j :: 0 <= i < j < |vs.sent| ==> vs.sent[i].envelope.c.key != vs.sent[j].envelope.c.key)
  }

  ghost predicate Behind(key: Key, send: Key) {
    key.MessageKey? && (Base(key.chain) == Base(send) ==> Depth(key.chain) < Depth(send))
  }

  lemma EmitSealsOnce(us: Side, vs: Side, from: Role, used: set<Key>, plain: Payload, nonce: Nonce, wired: bool)
    requires SealedOnce(us, vs, from, used)
    ensures SealedOnce(Emit(us, plain, nonce, wired), Emit(vs, plain, nonce, wired), from, used)
  {
  }

  /** A reconnect with a new handshake key puts everything sealed so far behind. */
  lemma RekeySealsOnce(us: Side, vs: Side, other: Side, nextKey: KeyId, origin: Key, from: Role, used: set<Key>,
                       shared: Key,
                       b: nat, b': nat)
    requires SealedOnce(us, vs, from, used) && Descends(us, other, nextKey, origin) && shared !in used
    ensures SealedOnce(Relink(us, b), Rekey(vs, from, shared, b'), from, used + {shared})
  {
  }

  /** Receiving: the send chain stays, or a DH step starts one under a key pair no envelope was sealed under. */
  lemma ArriveSealsOnce(us: Side, vs: Side, us': Side, vs': Side, other: Side, nextKey: KeyId, origin: Key,
                        from: Role, used: set<Key>)
    requires SealedOnce(us, vs, from, used) && Descends(us, other, nextKey, origin)
    requires us'.sent == us.sent && vs'.sent == vs.sent
    requires || (us'.ratchet.send == us.ratchet.send && vs'.ratchet.send == vs.ratchet.send)
             || (&& vs'.ratchet.send == us'.ratchet.send && us'.ratchet.send.ChainOf?
                 && Owner(us'.ratchet.send) == nextKey)
    ensures SealedOnce(us', vs', from, used)
  {
  }

  /** In a run without kem-mode reconnects every side has sealed once. */
  lemma StartSealedOnce(s: Side, other: Side, nextKey: KeyId, origin: Key, from: Role)
    requires Descends(s, other, nextKey, origin) && Channel(s, other) && RatchetOk(s.ratchet)
    ensures SealedOnce(s, s, from, {})
  {
  }

  // ---- Whole runs ----

  ghost predicate AllSealedOnce(u: World, v: World, used: set<Key>) {
    && SealedOnce(u.host.side, v.host.side, Host, used)
    && SealedOnce(u.guest.side, v.guest.side, Guest, used)
  }

  /** Every reconnect brings a handshake key not seen before. */
  ghost predicate NewSecrets(evs: seq<KemEvent>, used: set<Key>)
    decreases |evs|
  {
    evs == [] ||
    (if evs[0].FullReconnect? then evs[0].shared !in used && NewSecrets(evs[1..], used + {evs[0].shared})
     else NewSecrets(evs[1..], used))
  }

  function UsedNext(used: set<Key>, ev: KemEvent): set<Key> {
    if ev.FullReconnect? then used + {ev.shared} else used
  }

  ghost function UsedAfter(used: set<Key>, evs: seq<KemEvent>): set<Key>
    decreases |evs|
  {
    if evs == [] then used else UsedAfter(UsedNext(used, evs[0]), evs[1..])
  }

  /** A DH step starts a chain that is named by the key pair just made. */
  lemma StepOwner(r: Ratchet, e: Envelope, newKey: KeyId)
    requires r.pk < newKey && e.pk < newKey && Decrypt(r, e, newKey).0.pk == newKey
    ensures Decrypt(r, e, newKey).0.send.ChainOf? && Owner(Decrypt(r, e, newKey).0.send) == newKey
  {
  }

  lemma ArriveKeepsSealed(us: Side, ur: Side, vs: Side, vr: Side, m: Mark, at: nat, newKey: KeyId, origin: Key,
                          role: Role, used: set<Key>)
    requires SameSide(us, vs) && SameSide(ur, vr) && RatchetOk(ur.ratchet) && Channel(us, ur)
    requires Along(us, ur, vs, vr, m) && Deliverable(us, ur, at)
    requires ur.ratchet.pk < newKey && us.sent[at].envelope.pk < newKey
    requires Decrypt(ur.ratchet, us.sent[at].envelope, newKey).1 != Rejected(BadCiphertext)
    requires SealedOnce(ur, vr, role, used) && Descends(ur, us, newKey, origin)
    ensures SealedOnce(Arrive(ur, us.sent[at].envelope, at, newKey), Arrive(vr, vs.sent[at].envelope, at, newKey),
                       role, used)
  {
    var e, f := us.sent[at].envelope, vs.sent[at].envelope;
    assert SameWire(us.sent[at], vs.sent[at]);
    DeliveredKey(us, ur, at);
    DecryptBeside(ur.ratchet, vr.ratchet, m, e, f, newKey);
    if Decrypt(ur.ratchet, e, newKey).0.pk == newKey {
      StepOwner(ur.ratchet, e, newKey);
    }
    ArriveSealsOnce(ur, vr, Arrive(ur, e, at, newKey), Arrive(vr, f, at, newKey), us, newKey, origin, role, used);
  }

  lemma DeliverKeepsSealed(u: World, v: World, ms: Marks, origin: Key, used: set<Key>, to: Role, at: nat)
    requires Beside(u, v, ms) && Traceable(u, origin) && AllSealedOnce(u, v, used)
    requires Enabled(u, Deliver(to, at)) && Enabled(v, Deliver(to, at))
    ensures AllSealedOnce(Next(u, Deliver(to, at)), Next(v, Deliver(to, at)), used)
  {
    KeysInOrder(u, v, ms, to);
    NeverUndecipherable(u, to, at);
    assert Get(u, Other(to)).side.sent[at].envelope.pk in Get(u, Other(to)).side.keys;
    ArriveKeepsSealed(Get(u, Other(to)).side, Get(u, to).side, Get(v, Other(to)).side, Get(v, to).side, MarkTo(ms, to),
                      at,
                      u.nextKey, origin, to, used);
  }

  lemma SendKeepsSealed(u: World, v: World, used: set<Key>, ev: Event)
    requires SameWorld(u, v) && AllSealedOnce(u, v, used) && (ev.SendChat? || ev.SendControl?)
    ensures AllSealedOnce(Next(u, ev), Next(v, ev), used)
  {
    SendIs(u, ev);
    SendIs(v, ev);
    EmitSealsOnce(Get(u, ev.from).side, Get(v, ev.from).side, ev.from, used, PayloadOf(u, ev), ev.nonce, ev.wired);
  }

  lemma ReconnectKeepsSealed(u: World, v: World, origin: Key, used: set<Key>, shared: Key)
    requires Traceable(u, origin) && AllSealedOnce(u, v, used) && shared !in used
    ensures AllSealedOnce(RelinkBoth(u), RekeyBoth(v, shared), used + {shared})
    ensures Traceable(RelinkBoth(u), origin)
  {
    var h, g := u.host.side, u.guest.side;
    RekeySealsOnce(h, v.host.side, g, u.nextKey, origin, Host, used, shared, |g.sent|, |v.guest.side.sent|);
    RekeySealsOnce(g, v.guest.side, h, u.nextKey, origin, Guest, used, shared, |h.sent|, |v.host.side.sent|);
  }

  lemma NextKeepsSealed(u: World, v: World, ms: Marks, origin: Key, used: set<Key>, ev: KemEvent)
    requires Beside(u, v, ms) && Traceable(u, origin) && AllSealedOnce(u, v, used)
    requires KemEnabled(u, ev) && KemEnabled(v, ev) && (ev.FullReconnect? ==> ev.shared !in used)
    ensures AllSealedOnce(DhNext(u, ev), KemNext(v, ev), UsedNext(used, ev)) && Traceable(DhNext(u, ev), origin)
  {
    match ev
    case FullReconnect(shared) => ReconnectKeepsSealed(u, v, origin, used, shared);
    case Plain(e) =>
      NextKeepsTrace(u, e, origin);
      if e.Deliver? {
        DeliverKeepsSealed(u, v, ms, origin, used, e.to, e.at);
      } else {
        SendKeepsSealed(u, v, used, e);
      }
  }

  lemma {:induction false} RunKeepsSealed(u: World, v: World, ms: Marks, origin: Key, used: set<Key>,
                                          evs: seq<KemEvent>)
    requires Beside(u, v, ms) && Traceable(u, origin) && AllSealedOnce(u, v, used)
    requires KemAdmissible(v, evs) && NewSecrets(evs, used)
    ensures DhAdmissible(u, evs)
    ensures AllSealedOnce(DhRun(u, evs), KemRun(v, evs), UsedAfter(used, evs)) && Traceable(DhRun(u, evs), origin)
    decreases |evs|
  {
    if evs != [] {
      NextBeside(u, v, ms, evs[0]);
      NextKeepsSealed(u, v, ms, origin, used, evs[0]);
      RunKeepsSealed(DhNext(u, evs[0]), KemNext(v, evs[0]), MarksNext(v, ms, evs[0]), origin, UsedNext(used, evs[0]),
                     evs[1..]);
    }
  }

  lemma SealedAfterReconnect(w: World, origin: Key, shared: Key, evs: seq<KemEvent>)
    requires Reachable(w) && Traceable(w, origin)
    requires KemAdmissible(RekeyBoth(w, shared), evs) && NewSecrets(evs, {shared})
    ensures DhAdmissible(RelinkBoth(w), evs)
    ensures AllSealedOnce(DhRun(RelinkBoth(w), evs), KemRun(RekeyBoth(w, shared), evs), UsedAfter({shared}, evs))
    ensures Traceable(DhRun(RelinkBoth(w), evs), origin)
  {
    StartAllSealedOnce(w, origin);
    ReconnectKeepsSealed(w, w, origin, {}, shared);
    assert {} + {shared} == {shared};
    ReconnectBeside(w, w, shared);
    RunKeepsSealed(RelinkBoth(w), RekeyBoth(w, shared), MarksAt(w, shared), origin, {shared}, evs);
  }

  lemma StartAllSealedOnce(w: World, origin: Key)
    requires Reachable(w) && Traceable(w, origin)
    ensures AllSealedOnce(w, w, {}) && SameWorld(w, w)
  {
    StartSealedOnce(w.host.side, w.guest.side, w.nextKey, origin, Host);
    StartSealedOnce(w.guest.side, w.host.side, w.nextKey, origin, Guest);
  }

  /**
    Over a whole kem-mode session with a new handshake key for every reconnect: no two envelopes at all, of
    either peer, sealed before or after any reconnect, were encrypted with the same message key.
  */
  lemma KemKeysAreOneTime(w: World, origin: Key, shared: Key, evs: seq<KemEvent>, role: Role)
    requires Reachable(w) && Traceable(w, origin)
    requires KemAdmissible(RekeyBoth(w, shared), evs) && NewSecrets(evs, {shared})
    ensures var now := KemRun(RekeyBoth(w, shared), evs);
      OneTime(Get(now, role).side.sent, Get(now, Other(role)).side.sent)
  {
    SealedAfterReconnect(w, origin, shared, evs);
    SealedIsOneTime(DhRun(RelinkBoth(w), evs), KemRun(RekeyBoth(w, shared), evs), origin, UsedAfter({shared}, evs),
                    role);
  }

  ghost predicate OneTime(mine: seq<Sent>, theirs: seq<Sent>) {
    && (forall i, j :: 0 <= i < j < |mine| ==> mine[i].envelope.c.key != mine[j].envelope.c.key)
    && (forall i, j :: 0 <= i < |mine| && 0 <= j < |theirs| ==> mine[i].envelope.c.key != theirs[j].envelope.c.key)
  }

  lemma SealedIsOneTime(u: World, v: World, origin: Key, used: set<Key>, role: Role)
    requires Traceable(u, origin) && AllSealedOnce(u, v, used)
    ensures OneTime(Get(v, role).side.sent, Get(v, Other(role)).side.sent)
  {
  }
}
