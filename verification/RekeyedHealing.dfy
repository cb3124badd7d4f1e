/**
  Post-compromise security in kem mode: what a state captured at any point of a session is still worth later,
  when reconnects replace chains before and after the capture
  (src/core/services/SessionManager.js:679-690, 715-725, 1018-1051).
*/
module RekeyedHealing {
  import opened Keys
  import opened DoubleRatchet
  import opened TwoParty
  import opened Lineage
  import opened Secrecy
  import opened Healing
  import opened Rekeying
  import opened RekeyedKeys
  import opened RekeyedSecrecy

  /** A message key of a chain set by a reconnect after the capture: its handshake key is none of those used before. */
  ghost predicate NewlyKeyed(k: Key, from: Role, used: set<Key>) {
    k.MessageKey? && exists shared :: shared !in used && Base(k.chain) == SymmetricChain(from, shared)
  }

  /** Out of reach are the keys from two roots past the capture on, and those of chains replaced since. */
  ghost predicate EnvelopesRecovered(captured: Ratchet, s: Side, from: Role, used: set<Key>) {
    forall i :: 0 <= i < |s.sent| ==>
      EpochBeyond(captured, s.sent[i].envelope) || NewlyKeyed(s.sent[i].envelope.c.key, from, used) ==>
        OutOfReach(captured, s.sent[i].envelope.c.key)
  }

  /** And, once the captured peer has another ratchet key, its root and its send chain. */
  ghost predicate Recovered(captured: Ratchet, now: World, victim: Role, used: set<Key>) {
    && VictimHealed(captured, Get(now, victim).side)
    && EnvelopesRecovered(captured, now.host.side, Host, used)
    && EnvelopesRecovered(captured, now.guest.side, Guest, used)
  }

  // ---- The captured state ----

  /** `v` was captured in the kem run, when `u` stood beside it and the handshake keys in `used` had been used. */
  ghost predicate Taken(u: Side, v: Side, role: Role, used: set<Key>, identity: KeyId) {
    && RatchetOk(u.ratchet) && RatchetTraced(u.ratchet) && SameRatchet(u.ratchet, v.ratchet)
    && SealedOnce(u, v, role, used) && HeardKinds(u.ratchet, v.ratchet, Other(role), used)
    && u.ratchet.pk != identity
  }

  lemma CapturedHealthy(r: Ratchet, x: Key)
    requires RatchetOk(r) && RatchetTraced(r) && x in Captured(r)
    ensures !Replacing(x)
  {
    CapturedKinds(r, x);
    BaseOfBase(r.recv);
  }

  /** What was captured of replaced chains belongs to handshake keys used before. */
  lemma CapturedUsed(u: Side, v: Side, role: Role, used: set<Key>, identity: KeyId, x: Key)
    requires Taken(u, v, role, used, identity) && x in Captured(v.ratchet) && Replacing(x)
    ensures Base(ChainOfKey(x)).shared in used
  {
    if x in Captured(u.ratchet) {
      CapturedHealthy(u.ratchet, x);
    } else if x != v.ratchet.root && x != v.ratchet.send && x != v.ratchet.recv {
      var i :| 0 <= i < |v.ratchet.skipped| && v.ratchet.skipped[i].key == x;
      assert KeyKind(u.ratchet.skipped[i].key, x, Other(role), used);
      assert u.ratchet.skipped[i].key in Captured(u.ratchet);
    }
  }

  /** A chain of a handshake key that came later is out of reach. */
  lemma NewChainOutOfReach(u: Side, v: Side, role: Role, used: set<Key>, identity: KeyId, from: Role, shared: Key,
                           n: nat)
    requires Taken(u, v, role, used, identity) && shared !in used && shared.Kem? && shared.opener == identity
    ensures OutOfReach(v.ratchet, MessageKeyAt(SymmetricChain(from, shared), n))
    ensures OutOfReach(v.ratchet, ChainAt(SymmetricChain(from, shared), n))
  {
    var base := SymmetricChain(from, shared);
    forall j | 0 <= j <= n
      ensures ChainAt(base, j) !in Captured(v.ratchet) && MessageKeyAt(base, j) !in Captured(v.ratchet)
    {
      BaseOfChainAt(base, j);
      if ChainAt(base, j) in Captured(v.ratchet) {
        CapturedUsed(u, v, role, used, identity, ChainAt(base, j));
      }
      if MessageKeyAt(base, j) in Captured(v.ratchet) {
        CapturedUsed(u, v, role, used, identity, MessageKeyAt(base, j));
      }
    }
    SharedNotTaken(u, v, role, used, identity, shared);
    assert base == ChainAt(base, 0);
    ChainUnderivable(Captured(v.ratchet), {v.ratchet.pk}, base, n);
  }

  lemma SharedNotTaken(u: Side, v: Side, role: Role, used: set<Key>, identity: KeyId, shared: Key)
    requires Taken(u, v, role, used, identity) && shared.Kem? && shared.opener == identity
    ensures !Derivable(Captured(v.ratchet), {v.ratchet.pk}, shared)
  {
    if shared in Captured(v.ratchet) {
      CapturedKind(u, v, role, used, shared);
      SecretNotCaptured(u.ratchet, shared);
    }
  }

  // ---- What comes later ----

  /** A later side of either peer: nothing sealed beyond the capture can be read. */
  lemma SideRecovers(u: Side, v: Side, role: Role, used: set<Key>, identity: KeyId,
                     us: Side, vs: Side, other: Side, nextKey: KeyId, origin: Key, from: Role, later: set<Key>)
    requires Taken(u, v, role, used, identity)
    requires SideHealed(u.ratchet, us) && Descends(us, other, nextKey, origin) && SealedOnce(us, vs, from, later)
    requires forall s :: s in later ==> s.Kem? && s.opener == identity
    ensures EnvelopesRecovered(v.ratchet, vs, from, used)
  {
    forall i | 0 <= i < |vs.sent| &&
        (EpochBeyond(v.ratchet, vs.sent[i].envelope) || NewlyKeyed(vs.sent[i].envelope.c.key, from, used))
      ensures OutOfReach(v.ratchet, vs.sent[i].envelope.c.key)
    {
      var a, k := us.sent[i].envelope.c.key, vs.sent[i].envelope.c.key;
      assert KeyKind(a, k, from, later);
      CleanSealed(us, other, nextKey, origin, i);
      CleanNotReplacing(a);
      if k == a {
        assert EpochBeyond(u.ratchet, us.sent[i].envelope);
        CleanStaysSecret(u, v, role, used, k);
      } else {
        var shared :| shared in later && Base(k.chain) == SymmetricChain(from, shared);
        ChainAtBase(k.chain);
        NewChainOutOfReach(u, v, role, used, identity, from, shared, Depth(k.chain));
      }
    }
  }

  /** Once the captured peer has moved on, it sends on no chain of a handshake key used before. */
  ghost predicate SendMoved(captured: Ratchet, s: Side, role: Role, used: set<Key>) {
    s.ratchet.pk != captured.pk ==> !ReplacedBy(s.ratchet.send, role, used)
  }

  /** The captured peer itself. */
  lemma VictimRecovers(u: Side, v: Side, role: Role, used: set<Key>, identity: KeyId,
                       us: Side, vs: Side, later: set<Key>)
    requires Taken(u, v, role, used, identity)
    requires VictimHealed(u.ratchet, us) && RatchetTraced(us.ratchet) && Clean(us.ratchet.root)
    requires Clean(us.ratchet.send)
    requires SameRatchet(us.ratchet, vs.ratchet) && SealedOnce(us, vs, role, later)
    requires SendMoved(v.ratchet, vs, role, used)
    requires forall s :: s in later ==> s.Kem? && s.opener == identity
    ensures VictimHealed(v.ratchet, vs)
  {
    if vs.ratchet.pk != v.ratchet.pk {
      CleanStaysSecret(u, v, role, used, us.ratchet.root);
      if vs.ratchet.send == us.ratchet.send {
        CleanStaysSecret(u, v, role, used, us.ratchet.send);
      } else {
        var shared :| shared in later && Base(vs.ratchet.send) == SymmetricChain(role, shared);
        ChainAtBase(vs.ratchet.send);
        NewChainOutOfReach(u, v, role, used, identity, role, shared, Depth(vs.ratchet.send));
      }
    }
  }

  // ---- Whole runs ----

  lemma DhNextKeepsHealed(captured: Ratchet, u: World, victim: Role, origin: Key, ev: KemEvent)
    requires RatchetOk(captured) && RatchetTraced(captured)
    requires Reachable(u) && Traceable(u, origin) && Healed(captured, u, victim) && KemEnabled(u, ev)
    ensures Healed(captured, DhNext(u, ev), victim)
  {
    match ev
    case FullReconnect(_) =>
      ReceivingKeepsHealed(captured, u.host.side, DhNext(u, ev).host.side);
      ReceivingKeepsHealed(captured, u.guest.side, DhNext(u, ev).guest.side);
    case Plain(e) => NextKeepsHealed(captured, u, victim, origin, e);
  }

  /** Decryption leaves key pair and send chain alone or replaces both. */
  lemma DecryptMovesSend(r: Ratchet, e: Envelope, newKey: KeyId)
    ensures var x := Decrypt(r, e, newKey).0;
      (x.pk == r.pk && x.send == r.send) || (x.pk == newKey && x.send.ChainOf?)
  {
  }

  lemma KemNextKeepsMoved(captured: Ratchet, v: World, victim: Role, used: set<Key>, ev: KemEvent)
    requires SendMoved(captured, Get(v, victim).side, victim, used) && KemEnabled(v, ev)
    requires ev.FullReconnect? ==> ev.shared !in used
    ensures SendMoved(captured, Get(KemNext(v, ev), victim).side, victim, used)
  {
    match ev
    case FullReconnect(shared) => assert Base(SymmetricChain(victim, shared)) == SymmetricChain(victim, shared);
    case Plain(Deliver(to, at)) =>
      if to == victim {
        DecryptMovesSend(Get(v, to).side.ratchet, Get(v, Other(to)).side.sent[at].envelope, v.nextKey);
      }
    case Plain(Reconnect(_)) =>
    case Plain(e) => SendIs(v, e);
  }

  /** What is kept from the capture on. */
  ghost predicate Mending(cu: Ratchet, cv: Ratchet, victim: Role, before: set<Key>, u: World, v: World,
                          used: set<Key>) {
    Healed(cu, u, victim) && SendMoved(cv, Get(v, victim).side, victim, before) && before <= used
  }

  lemma {:induction false} RunKeepsMending(cu: Ratchet, cv: Ratchet, victim: Role, before: set<Key>, u: World, v: World,
                                           ms: Marks, origin: Key, used: set<Key>, identity: KeyId, evs: seq<KemEvent>)
    requires RatchetOk(cu) && RatchetTraced(cu)
    requires Watched(u, v, ms, origin, used, identity) && Mending(cu, cv, victim, before, u, v, used)
    requires KemAdmissible(v, evs) && GoodSecrets(evs, used, identity)
    ensures DhAdmissible(u, evs)
    ensures Mending(cu, cv, victim, before, DhRun(u, evs), KemRun(v, evs), UsedAfter(used, evs))
    decreases |evs|
  {
    if evs != [] {
      NextKeepsWatched(u, v, ms, origin, used, identity, evs[0]);
      DhNextKeepsHealed(cu, u, victim, origin, evs[0]);
      KemNextKeepsMoved(cv, v, victim, before, evs[0]);
      RunKeepsMending(cu, cv, victim, before, DhNext(u, evs[0]), KemNext(v, evs[0]), MarksNext(v, ms, evs[0]), origin,
                      UsedNext(used, evs[0]), identity, evs[1..]);
    }
  }

  /** From what was kept to what is out of reach. */
  lemma RecoveredNow(cu: Side, cv: Side, victim: Role, before: set<Key>, u: World, v: World, ms: Marks, origin: Key,
                     used: set<Key>, identity: KeyId)
    requires Taken(cu, cv, victim, before, identity)
    requires Watched(u, v, ms, origin, used, identity) && Mending(cu.ratchet, cv.ratchet, victim, before, u, v, used)
    ensures Recovered(cv.ratchet, v, victim, before)
  {
    SidesRecover(cu, cv, victim, before, u, v, origin, used, identity);
    VictimHeals(cu.ratchet, u, victim);
    CleanState(Get(u, victim).side, Get(u, Other(victim)).side, u.nextKey, origin);
    VictimRecovers(cu, cv, victim, before, identity, Get(u, victim).side, Get(v, victim).side, used);
  }

  lemma SidesRecover(cu: Side, cv: Side, victim: Role, before: set<Key>, u: World, v: World, origin: Key,
                     used: set<Key>, identity: KeyId)
    requires Taken(cu, cv, victim, before, identity)
    requires Traceable(u, origin) && WatchedKeys(u, v, used, identity) && Healed(cu.ratchet, u, victim)
    ensures EnvelopesRecovered(cv.ratchet, v.host.side, Host, before)
    ensures EnvelopesRecovered(cv.ratchet, v.guest.side, Guest, before)
  {
    SideRecovers(cu, cv, victim, before, identity, u.host.side, v.host.side, u.guest.side, u.nextKey, origin, Host,
                 used);
    SideRecovers(cu, cv, victim, before, identity, u.guest.side, v.guest.side, u.host.side, u.nextKey, origin, Guest,
                 used);
  }

  /** The root and the send chain of a dh run come from no replaced chain. */
  lemma CleanState(s: Side, other: Side, nextKey: KeyId, origin: Key)
    requires Descends(s, other, nextKey, origin)
    ensures Clean(s.ratchet.root) && Clean(s.ratchet.send)
  {
    CleanRoot(s.ratchet.root);
    CleanBase(s.ratchet.send);
  }

  lemma TakenFromWatched(u: World, v: World, ms: Marks, origin: Key, used: set<Key>, identity: KeyId, victim: Role)
    requires Watched(u, v, ms, origin, used, identity)
    ensures Taken(Get(u, victim).side, Get(v, victim).side, victim, used, identity)
    ensures Mending(Get(u, victim).side.ratchet, Get(v, victim).side.ratchet, victim, used, u, v, used)
  {
    NothingBeyondYet(u, victim, origin);
  }

  lemma RecoversFromWatched(u: World, v: World, ms: Marks, origin: Key, used: set<Key>, identity: KeyId, victim: Role,
                            evs: seq<KemEvent>)
    requires Watched(u, v, ms, origin, used, identity) && KemAdmissible(v, evs) && GoodSecrets(evs, used, identity)
    ensures Recovered(Get(v, victim).side.ratchet, KemRun(v, evs), victim, used)
  {
    TakenFromWatched(u, v, ms, origin, used, identity, victim);
    var cu, cv := Get(u, victim).side, Get(v, victim).side;
    RunKeepsMending(cu.ratchet, cv.ratchet, victim, used, u, v, ms, origin, used, identity, evs);
    RunKeepsWatched(u, v, ms, origin, used, identity, evs);
    RecoveredNow(cu, cv, victim, used, DhRun(u, evs), KemRun(v, evs), MarksRun(v, ms, evs), origin,
                 UsedAfter(used, evs), identity);
  }

  /**
    Healing in kem mode: capture one peer's whole ratchet state at any moment of a session that has been
    reconnected, and let it go on in any way. Once that peer has another ratchet key, its root and its send chain
    can no longer be derived; neither can the key of any envelope from two roots past the captured one on, nor
    any key of a chain that a reconnect has set since.
  */
  lemma KemCompromiseHeals(w: World, origin: Key, shared: Key, identity: KeyId, before: seq<KemEvent>,
                           after: seq<KemEvent>,
                           victim: Role)
    requires Reachable(w) && Traceable(w, origin) && BothHang(w) && NoRatchetKey(w, identity)
    requires shared.Kem? && shared.opener == identity
    requires KemAdmissible(RekeyBoth(w, shared), before) && GoodSecrets(before, {shared}, identity)
    requires KemAdmissible(KemRun(RekeyBoth(w, shared), before), after)
    requires GoodSecrets(after, UsedAfter({shared}, before), identity)
    ensures var capture := KemRun(RekeyBoth(w, shared), before);
      Recovered(Get(capture, victim).side.ratchet, KemRun(capture, after), victim, UsedAfter({shared}, before))
  {
    ReconnectStartsWatch(w, origin, shared, identity);
    RunKeepsWatched(RelinkBoth(w), RekeyBoth(w, shared), MarksAt(w, shared), origin, {shared}, identity, before);
    RecoversFromWatched(DhRun(RelinkBoth(w), before), KemRun(RekeyBoth(w, shared), before),
                        MarksRun(RekeyBoth(w, shared), MarksAt(w, shared), before), origin, UsedAfter({shared}, before),
                        identity, victim, after);
  }

  /** The same for a capture before the first reconnect: every chain that reconnects set is out of reach. */
  lemma CaptureBeforeReconnect(w: World, origin: Key, shared: Key, identity: KeyId, evs: seq<KemEvent>, victim: Role)
    requires Reachable(w) && Traceable(w, origin) && BothHang(w) && NoRatchetKey(w, identity)
    requires shared.Kem? && shared.opener == identity
    requires KemAdmissible(RekeyBoth(w, shared), evs) && GoodSecrets(evs, {shared}, identity)
    ensures Recovered(Get(w, victim).side.ratchet, KemRun(RekeyBoth(w, shared), evs), victim, {})
  {
    var c := Get(w, victim).side;
    StartAllSealedOnce(w, origin);
    assert Taken(c, c, victim, {}, identity);
    NothingBeyondYet(w, victim, origin);
    DhNextKeepsHealed(c.ratchet, w, victim, origin, FullReconnect(shared));
    ReconnectStartsWatch(w, origin, shared, identity);
    var u, v, ms := RelinkBoth(w), RekeyBoth(w, shared), MarksAt(w, shared);
    RunKeepsMending(c.ratchet, c.ratchet, victim, {}, u, v, ms, origin, {shared}, identity, evs);
    RunKeepsWatched(u, v, ms, origin, {shared}, identity, evs);
    RecoveredNow(c, c, victim, {}, DhRun(u, evs), KemRun(v, evs), MarksRun(v, ms, evs), origin,
                 UsedAfter({shared}, evs), identity);
  }
}
