/**
  Forward secrecy over whole sessions in kem mode: what a captured ratchet state gives away when chains have
  been replaced by those of a new handshake key
  (src/core/services/SessionManager.js:679-690, 715-725, 1053-1063).
*/
module RekeyedSecrecy {
  import opened Keys
  import opened DoubleRatchet
  import opened TwoParty
  import opened Lineage
  import opened Secrecy
  import opened Rekeying
  import opened RekeyedKeys

  // ---- Keys of replaced chains do not help with others ----

  function ChainOfKey(k: Key): Key {
    if k.MessageKey? then k.chain else k
  }

  /** A chain key or message key of a chain set by a kem-mode reconnect. */
  predicate Replacing(k: Key) {
    Base(ChainOfKey(k)).InitChain? && Base(ChainOfKey(k)).dh == NoKey
  }

  /** Nothing in the key was derived on a replaced chain. */
  predicate Clean(k: Key) {
    match k
    case InitRoot(shared, dh) => Clean(shared) && Clean(dh)
    case InitChain(_, shared, dh) => dh != NoKey && Clean(shared) && Clean(dh)
    case RootOf(root, dh) => Clean(root) && Clean(dh)
    case ChainOf(root, dh) => Clean(root) && Clean(dh)
    case NextChain(chain) => Clean(chain)
    case MessageKey(chain) => Clean(chain)
    case _ => true
  }

  lemma {:induction false} CleanBase(chain: Key)
    ensures Clean(Base(chain)) <==> Clean(chain)
  {
    if chain.NextChain? {
      CleanBase(chain.chain);
    }
  }

  lemma {:induction false} ReplacingDoesNotHelp(known: set<Key>, more: set<Key>, privs: set<KeyId>, k: Key)
    requires Clean(k) && (forall x :: x in more ==> x in known || Replacing(x))
    requires Derivable(more, privs, k)
    ensures Derivable(known, privs, k)
  {
    if k in more {
      CleanBase(ChainOfKey(k));
    } else {
      match k
      case InitRoot(shared, dh) =>
        ReplacingDoesNotHelp(known, more, privs, shared);
        ReplacingDoesNotHelp(known, more, privs, dh);
      case InitChain(_, shared, dh) =>
        ReplacingDoesNotHelp(known, more, privs, shared);
        ReplacingDoesNotHelp(known, more, privs, dh);
      case RootOf(root, dh) =>
        ReplacingDoesNotHelp(known, more, privs, root);
        ReplacingDoesNotHelp(known, more, privs, dh);
      case ChainOf(root, dh) =>
        ReplacingDoesNotHelp(known, more, privs, root);
        ReplacingDoesNotHelp(known, more, privs, dh);
      case NextChain(chain) => ReplacingDoesNotHelp(known, more, privs, chain);
      case MessageKey(chain) => ReplacingDoesNotHelp(known, more, privs, chain);
      case _ =>
    }
  }

  lemma {:induction false} CleanRoot(root: Key)
    requires IsRoot(root) && Origin(root).InitRoot? && Clean(Origin(root).shared)
    ensures Clean(root)
  {
    if root.RootOf? {
      CleanRoot(root.root);
    }
  }

  /** Every key of a dh run is clean. */
  lemma CleanSealed(s: Side, other: Side, nextKey: KeyId, origin: Key, i: nat)
    requires Descends(s, other, nextKey, origin) && i < |s.sent|
    ensures Clean(s.sent[i].envelope.c.key)
  {
    var base := Base(s.sent[i].envelope.c.key.chain);
    assert Traced(s.ratchet, s.sent[i].envelope);
    if base.ChainOf? {
      AncestorIsShallower(base.root, s.ratchet.root);
      CleanRoot(base.root);
    }
    CleanBase(s.sent[i].envelope.c.key.chain);
  }

  // ---- What a peer holds to receive with ----

  ghost predicate SkippedKinds(a: seq<Skipped>, b: seq<Skipped>, from: Role, used: set<Key>) {
    && SameShape(a, b)
    && forall i :: 0 <= i < |a| ==> KeyKind(a[i].key, b[i].key, from, used)
  }

  /** Its receive chain and buffered keys are those of the dh run or come from replaced chains of the other peer. */
  ghost predicate HeardKinds(u: Ratchet, v: Ratchet, from: Role, used: set<Key>) {
    ChainKind(u.recv, v.recv, from, used) && SkippedKinds(u.skipped, v.skipped, from, used)
  }

  lemma {:induction false} RemoveKinds(a: seq<Skipped>, b: seq<Skipped>, pk: KeyId, n: int, from: Role, used: set<Key>)
    requires SkippedKinds(a, b, from, used)
    ensures SkippedKinds(Remove(a, pk, n), Remove(b, pk, n), from, used)
  {
    if a != [] {
      RemoveKinds(a[1..], b[1..], pk, n, from, used);
    }
  }

  lemma ChainAtKind(a: Key, b: Key, n: nat, from: Role, used: set<Key>)
    requires ChainKind(a, b, from, used)
    ensures ChainKind(ChainAt(a, n), ChainAt(b, n), from, used)
    ensures KeyKind(MessageKeyAt(a, n), MessageKeyAt(b, n), from, used)
  {
  }

  lemma TakeKeyKinds(u: Ratchet, v: Ratchet, pk: KeyId, n: int, from: Role, used: set<Key>)
    requires SameRatchet(u, v) && HeardKinds(u, v, from, used)
    ensures HeardKinds(TakeKey(u, pk, n).0, TakeKey(v, pk, n).0, from, used)
  {
    TakeKeySame(u, v, pk, n);
    if n < u.recvIdx {
      RemoveKinds(u.skipped, v.skipped, pk, n, from, used);
    } else if n - u.recvIdx <= MAX_SKIP {
      ChainAtKind(u.recv, v.recv, n - u.recvIdx + 1, from, used);
      SkipRangeKinds(u, v, pk, n, from, used);
    }
  }

  lemma SkipRangeKinds(u: Ratchet, v: Ratchet, pk: KeyId, n: nat, from: Role, used: set<Key>)
    requires SameRatchet(u, v) && HeardKinds(u, v, from, used) && u.recvIdx <= n
    ensures SkippedKinds(Window(u.skipped + SkipRange(pk, u.recv, u.recvIdx, n), MAX_SKIPPED_KEYS),
                         Window(v.skipped + SkipRange(pk, v.recv, v.recvIdx, n), MAX_SKIPPED_KEYS), from, used)
  {
    var a, b := SkipRange(pk, u.recv, u.recvIdx, n), SkipRange(pk, v.recv, v.recvIdx, n);
    forall i | 0 <= i < |a|
      ensures KeyKind(a[i].key, b[i].key, from, used)
    {
      ChainAtKind(u.recv, v.recv, i, from, used);
    }
    assert SkippedKinds(u.skipped + a, v.skipped + b, from, used);
  }

  lemma DecryptKinds(u: Ratchet, v: Ratchet, e: Envelope, f: Envelope, newKey: KeyId, from: Role, used: set<Key>)
    requires SameRatchet(u, v) && HeardKinds(u, v, from, used) && f == e.(c := e.c.(key := f.c.key))
    ensures HeardKinds(Decrypt(u, e, newKey).0, Decrypt(v, f, newKey).0, from, used)
  {
    if !IsReplay(u, e.c) {
      var u2, v2 := Synchronise(NoteNonce(u, e.c), e.pk, newKey), Synchronise(NoteNonce(v, f.c), f.pk, newKey);
      assert SameRatchet(u2, v2) && HeardKinds(u2, v2, from, used);
      TakeKeyKinds(u2, v2, e.pk, e.n, from, used);
    }
  }

  lemma RekeyKinds(u: Side, v: Side, role: Role, used: set<Key>, shared: Key, b: nat, b': nat)
    requires HeardKinds(u.ratchet, v.ratchet, Other(role), used)
    ensures HeardKinds(Relink(u, b).ratchet, Rekey(v, role, shared, b').ratchet, Other(role), used + {shared})
  {
  }

  // ---- A captured state ----

  /** Everything captured in the kem run is captured in the dh run or belongs to a replaced chain. */
  lemma CapturedKind(us: Side, vs: Side, role: Role, used: set<Key>, x: Key)
    requires SameRatchet(us.ratchet, vs.ratchet) && SealedOnce(us, vs, role, used)
    requires HeardKinds(us.ratchet, vs.ratchet, Other(role), used) && x in Captured(vs.ratchet)
    ensures x in Captured(us.ratchet) || Replacing(x)
  {
  }

  /** The handshake keys of the reconnects are out of reach of whoever holds this peer's ratchet state. */
  ghost predicate Guarded(used: set<Key>, pk: KeyId) {
    forall shared :: shared in used ==> shared.Kem? && shared.opener != pk
  }

  /** No captured key lies on the way to a key sealed on a replaced chain. */
  lemma ReplacedNotCaptured(us: Side, vs: Side, other: Side, nextKey: KeyId, origin: Key, role: Role, used: set<Key>,
                            i: nat,
                            shared: Key, j: nat)
    requires RatchetOk(us.ratchet) && Descends(us, other, nextKey, origin)
    requires SameRatchet(us.ratchet, vs.ratchet) && SealedOnce(us, vs, role, used)
    requires HeardKinds(us.ratchet, vs.ratchet, Other(role), used) && i < |vs.sent|
    requires var k := vs.sent[i].envelope.c.key;
      k.MessageKey? && Base(k.chain) == SymmetricChain(role, shared) && j <= Depth(k.chain)
    ensures ChainAt(SymmetricChain(role, shared), j) !in Captured(vs.ratchet)
    ensures vs.sent[i].envelope.c.key !in Captured(vs.ratchet)
  {
    var k, base := vs.sent[i].envelope.c.key, SymmetricChain(role, shared);
    BaseOfChainAt(base, j);
    assert Behind(k, vs.ratchet.send);
    RecvNotOwn(us.ratchet, vs.ratchet, role, used, shared);
    SkippedNotOwn(us.ratchet, vs.ratchet, role, used, shared);
  }

  /** What a peer receives on is never a chain it sends on. */
  lemma RecvNotOwn(u: Ratchet, v: Ratchet, role: Role, used: set<Key>, shared: Key)
    requires RatchetTraced(u) && HeardKinds(u, v, Other(role), used)
    ensures Base(v.recv) != SymmetricChain(role, shared)
  {
  }

  lemma SkippedNotOwn(u: Ratchet, v: Ratchet, role: Role, used: set<Key>, shared: Key)
    requires RatchetOk(u) && RatchetTraced(u) && HeardKinds(u, v, Other(role), used)
    ensures forall i :: 0 <= i < |v.skipped| ==>
      v.skipped[i].key.MessageKey? && Base(v.skipped[i].key.chain) != SymmetricChain(role, shared)
  {
    forall i | 0 <= i < |v.skipped|
      ensures v.skipped[i].key.MessageKey? && Base(v.skipped[i].key.chain) != SymmetricChain(role, shared)
    {
      assert KeyKind(u.skipped[i].key, v.skipped[i].key, Other(role), used);
      BaseOfChainAt(Base(u.recv), u.skipped[i].n);
      BaseOfBase(u.recv);
    }
  }

  lemma SecretNotHeld(us: Side, vs: Side, other: Side, nextKey: KeyId, origin: Key, role: Role, used: set<Key>,
                      shared: Key)
    requires RatchetOk(us.ratchet) && Descends(us, other, nextKey, origin) && shared.Kem?
    requires SameRatchet(us.ratchet, vs.ratchet) && SealedOnce(us, vs, role, used)
    requires HeardKinds(us.ratchet, vs.ratchet, Other(role), used)
    ensures shared !in Captured(vs.ratchet)
  {
  }

  /** From a captured state of a kem session the key of no envelope the peer has sealed can be derived. */
  lemma SealedIsSecret(us: Side, vs: Side, other: Side, nextKey: KeyId, origin: Key, role: Role, used: set<Key>, i: nat)
    requires RatchetOk(us.ratchet) && Descends(us, other, nextKey, origin) && Channel(us, other)
    requires SameRatchet(us.ratchet, vs.ratchet) && SealedOnce(us, vs, role, used) && Guarded(used, vs.ratchet.pk)
    requires HeardKinds(us.ratchet, vs.ratchet, Other(role), used) && i < |vs.sent|
    ensures !Derivable(Captured(vs.ratchet), {vs.ratchet.pk}, vs.sent[i].envelope.c.key)
  {
    var a, k := us.sent[i].envelope.c.key, vs.sent[i].envelope.c.key;
    assert KeyKind(a, k, role, used);
    if k == a {
      SentKeyUnderivable(us, other, nextKey, origin, i);
      CleanSealed(us, other, nextKey, origin, i);
      CleanStaysSecret(us, vs, role, used, k);
    } else {
      var shared :| shared in used && Base(k.chain) == SymmetricChain(role, shared);
      var base := SymmetricChain(role, shared);
      forall j | 0 <= j <= Depth(k.chain)
        ensures ChainAt(base, j) !in Captured(vs.ratchet)
      {
        ReplacedNotCaptured(us, vs, other, nextKey, origin, role, used, i, shared, j);
      }
      ReplacedNotCaptured(us, vs, other, nextKey, origin, role, used, i, shared, 0);
      SecretNotHeld(us, vs, other, nextKey, origin, role, used, shared);
      ChainAtBase(k.chain);
      ReplacedChainsHangOnSharedKey(Captured(vs.ratchet), {vs.ratchet.pk}, role, shared, Depth(k.chain));
    }
  }

  // ---- Whole runs ----

  ghost predicate AllHeard(u: World, v: World, used: set<Key>) {
    && HeardKinds(u.host.side.ratchet, v.host.side.ratchet, Guest, used)
    && HeardKinds(u.guest.side.ratchet, v.guest.side.ratchet, Host, used)
  }

  /** `identity` is a key pair made before, and not among the ratchet keys of either peer. */
  ghost predicate NoRatchetKey(u: World, identity: KeyId) {
    identity < u.nextKey && identity !in u.host.side.keys && identity !in u.guest.side.keys
  }

  lemma DeliverKeepsHeard(u: World, v: World, used: set<Key>, to: Role, at: nat)
    requires SameWorld(u, v) && AllHeard(u, v, used) && Enabled(u, Deliver(to, at)) && Enabled(v, Deliver(to, at))
    ensures AllHeard(Next(u, Deliver(to, at)), Next(v, Deliver(to, at)), used)
  {
    assert SameWire(Get(u, Other(to)).side.sent[at], Get(v, Other(to)).side.sent[at]);
    DecryptKinds(Get(u, to).side.ratchet, Get(v, to).side.ratchet, Get(u, Other(to)).side.sent[at].envelope,
                 Get(v, Other(to)).side.sent[at].envelope, u.nextKey, Other(to), used);
  }

  lemma NextKeepsHeard(u: World, v: World, used: set<Key>, ev: KemEvent)
    requires SameWorld(u, v) && AllHeard(u, v, used) && KemEnabled(u, ev) && KemEnabled(v, ev)
    ensures AllHeard(DhNext(u, ev), KemNext(v, ev), UsedNext(used, ev))
  {
    match ev
    case FullReconnect(shared) =>
      var uh, ug, vh, vg := u.host.side, u.guest.side, v.host.side, v.guest.side;
      RekeyKinds(uh, vh, Host, used, shared, |ug.sent|, |vg.sent|);
      RekeyKinds(ug, vg, Guest, used, shared, |uh.sent|, |vh.sent|);
    case Plain(Deliver(to, at)) => DeliverKeepsHeard(u, v, used, to, at);
    case Plain(Reconnect(_)) =>
    case Plain(e) =>
      SendIs(u, e);
      SendIs(v, e);
  }

  lemma NextKeepsIdentity(u: World, identity: KeyId, ev: KemEvent)
    requires NoRatchetKey(u, identity) && KemEnabled(u, ev)
    requires u.host.side.ratchet.pk in u.host.side.keys && u.guest.side.ratchet.pk in u.guest.side.keys
    ensures NoRatchetKey(DhNext(u, ev), identity)
  {
  }

  lemma DhNextKeepsHang(u: World, origin: Key, ev: KemEvent)
    requires Reachable(u) && Traceable(u, origin) && BothHang(u) && KemEnabled(u, ev)
    ensures BothHang(DhNext(u, ev))
  {
    match ev
    case FullReconnect(_) =>
    case Plain(e) => NextKeepsHang(u, origin, e);
  }

  // ---- Keys already used are gone ----

  /** A used key of a replaced chain is neither ahead on the receive chain nor in the buffer. */
  ghost predicate Gone(k: Key, r: Ratchet) {
    Replacing(k) ==> Behind(k, r.recv) && forall i :: 0 <= i < |r.skipped| ==> r.skipped[i].key != k
  }

  /** No two buffered keys of replaced chains are equal. */
  ghost predicate AllDiffer(skipped: seq<Skipped>) {
    forall i, j :: 0 <= i < j < |skipped| && Replacing(skipped[i].key) ==> skipped[i].key != skipped[j].key
  }

  ghost predicate Tidy(r: Ratchet) {
    AllDiffer(r.skipped) && forall i :: 0 <= i < |r.skipped| ==> Behind(r.skipped[i].key, r.recv)
  }

  /** Removal cuts out one entry, the one that was found, or none. */
  lemma {:induction false} RemoveCutsFound(skipped: seq<Skipped>, pk: KeyId, n: int) returns (at: nat)
    ensures Find(skipped, pk, n).None? ==> Remove(skipped, pk, n) == skipped
    ensures Find(skipped, pk, n).Some? ==>
      && at < |skipped| && Find(skipped, pk, n).value == skipped[at].key
      && Remove(skipped, pk, n) == skipped[..at] + skipped[at + 1..]
  {
    at := 0;
    if skipped != [] && !(skipped[0].pk == pk && skipped[0].n == n) {
      var later := RemoveCutsFound(skipped[1..], pk, n);
      at := later + 1;
      if Find(skipped, pk, n).Some? {
        CutLater(skipped, later);
      }
    }
  }

  lemma CutLater(skipped: seq<Skipped>, later: nat)
    requires later + 1 < |skipped|
    ensures [skipped[0]] + (skipped[1..][..later] + skipped[1..][later + 1..])
            == skipped[..later + 1] + skipped[later + 2..]
  {
  }

  lemma TakeBufferedTidies(r: Ratchet, pk: KeyId, n: int)
    requires Tidy(r) && n < r.recvIdx
    ensures Tidy(TakeKey(r, pk, n).0)
    ensures TakeKey(r, pk, n).1.Granted? ==> Gone(TakeKey(r, pk, n).1.key, TakeKey(r, pk, n).0)
    ensures forall k :: Gone(k, r) ==> Gone(k, TakeKey(r, pk, n).0)
  {
    var at := RemoveCutsFound(r.skipped, pk, n);
    if Find(r.skipped, pk, n).Some? {
      var left := r.skipped[..at] + r.skipped[at + 1..];
      assert forall i :: 0 <= i < |left| ==> left[i] == r.skipped[if i < at then i else i + 1];
      assert Behind(r.skipped[at].key, r.recv);
    }
  }

  /** The keys a gap leaves behind lie between the old and the new end of the chain. */
  lemma RangeKeys(pk: KeyId, recv: Key, from: nat, n: nat, i: nat)
    requires from <= n && i < n - from
    ensures var k := SkipRange(pk, recv, from, n)[i].key;
      k.MessageKey? && Base(k.chain) == Base(recv) && Depth(k.chain) == Depth(recv) + i
  {
    BaseOfChainAt(recv, i);
  }

  lemma SkipKeepsDiffering(r: Ratchet, pk: KeyId, n: nat)
    requires Tidy(r) && r.recvIdx <= n
    ensures AllDiffer(r.skipped + SkipRange(pk, r.recv, r.recvIdx, n))
  {
    var range := SkipRange(pk, r.recv, r.recvIdx, n);
    var all := r.skipped + range;
    forall i, j | 0 <= i < j < |all| && Replacing(all[i].key)
      ensures all[i].key != all[j].key
    {
      if j >= |r.skipped| {
        RangeKeys(pk, r.recv, r.recvIdx, n, j - |r.skipped|);
        if i >= |r.skipped| {
          RangeKeys(pk, r.recv, r.recvIdx, n, i - |r.skipped|);
        } else {
          assert Behind(r.skipped[i].key, r.recv);
        }
      }
    }
  }

  /** A key that is behind the chain is behind it still, and none of those the gap leaves. */
  lemma GoneStays(k: Key, r: Ratchet, pk: KeyId, n: nat)
    requires Gone(k, r) && r.recvIdx <= n
    ensures Replacing(k) ==> Behind(k, ChainAt(r.recv, n - r.recvIdx + 1))
    ensures Replacing(k) ==> forall i :: 0 <= i < n - r.recvIdx ==> SkipRange(pk, r.recv, r.recvIdx, n)[i].key != k
  {
    BaseOfChainAt(r.recv, n - r.recvIdx + 1);
    BaseOfChainAt(r.recv, 0);
    forall i | 0 <= i < n - r.recvIdx && Replacing(k)
      ensures SkipRange(pk, r.recv, r.recvIdx, n)[i].key != k
    {
      RangeKeys(pk, r.recv, r.recvIdx, n, i);
    }
  }

  lemma TakeAheadGone(r: Ratchet, pk: KeyId, n: int, k: Key)
    requires r.recvIdx <= n <= r.recvIdx + MAX_SKIP && Gone(k, r)
    ensures Gone(k, TakeKey(r, pk, n).0)
  {
    var all := r.skipped + SkipRange(pk, r.recv, r.recvIdx, n);
    var r' := TakeKey(r, pk, n).0;
    GoneStays(k, r, pk, n);
    assert forall i :: 0 <= i < |r'.skipped| ==> r'.skipped[i] == all[|all| - |r'.skipped| + i];
  }

  /** The key handed out is behind the new end of the chain, and was not buffered. */
  lemma GrantedIsGone(r: Ratchet, pk: KeyId, n: int)
    requires Tidy(r) && r.recvIdx <= n <= r.recvIdx + MAX_SKIP
    ensures Gone(TakeKey(r, pk, n).1.key, TakeKey(r, pk, n).0)
  {
    var gap := n - r.recvIdx;
    var all := r.skipped + SkipRange(pk, r.recv, r.recvIdx, n);
    var r' := TakeKey(r, pk, n).0;
    var k := MessageKeyAt(r.recv, gap);
    BaseOfChainAt(r.recv, gap);
    BaseOfChainAt(r.recv, gap + 1);
    forall i | 0 <= i < |all|
      ensures all[i].key != k
    {
      if i < |r.skipped| {
        assert Behind(r.skipped[i].key, r.recv);
      } else {
        RangeKeys(pk, r.recv, r.recvIdx, n, i - |r.skipped|);
      }
    }
    assert forall i :: 0 <= i < |r'.skipped| ==> r'.skipped[i] == all[|all| - |r'.skipped| + i];
  }

  lemma TakeAheadTidies(r: Ratchet, pk: KeyId, n: int)
    requires Tidy(r) && r.recvIdx <= n <= r.recvIdx + MAX_SKIP
    ensures Tidy(TakeKey(r, pk, n).0)
  {
    var range := SkipRange(pk, r.recv, r.recvIdx, n);
    var all := r.skipped + range;
    var r' := TakeKey(r, pk, n).0;
    SkipKeepsDiffering(r, pk, n);
    BaseOfChainAt(r.recv, n - r.recvIdx + 1);
    forall i | 0 <= i < |all|
      ensures Behind(all[i].key, r'.recv)
    {
      if i < |r.skipped| {
        assert Behind(r.skipped[i].key, r.recv);
      } else {
        RangeKeys(pk, r.recv, r.recvIdx, n, i - |r.skipped|);
      }
    }
    assert forall i :: 0 <= i < |r'.skipped| ==> r'.skipped[i] == all[|all| - |r'.skipped| + i];
  }

  lemma TakeKeyTidies(r: Ratchet, pk: KeyId, n: int)
    requires Tidy(r)
    ensures Tidy(TakeKey(r, pk, n).0)
    ensures TakeKey(r, pk, n).1.Granted? ==> Gone(TakeKey(r, pk, n).1.key, TakeKey(r, pk, n).0)
    ensures forall k :: Gone(k, r) ==> Gone(k, TakeKey(r, pk, n).0)
  {
    if n < r.recvIdx {
      TakeBufferedTidies(r, pk, n);
    } else if n - r.recvIdx <= MAX_SKIP {
      TakeAheadTidies(r, pk, n);
      GrantedIsGone(r, pk, n);
      forall k | Gone(k, r)
        ensures Gone(k, TakeKey(r, pk, n).0)
      {
        TakeAheadGone(r, pk, n, k);
      }
    }
  }

  /** Decryption uses up the key that opens the envelope; a DH step leaves nothing of replaced chains behind. */
  lemma DecryptTidies(r: Ratchet, e: Envelope, newKey: KeyId)
    requires Tidy(r)
    ensures Tidy(Decrypt(r, e, newKey).0)
    ensures Decrypt(r, e, newKey).1.Opened? ==> Gone(e.c.key, Decrypt(r, e, newKey).0)
    ensures forall k :: Gone(k, r) && (Replacing(k) ==> k.MessageKey?) ==> Gone(k, Decrypt(r, e, newKey).0)
  {
    if !IsReplay(r, e.c) {
      TakeKeyTidies(Synchronise(NoteNonce(r, e.c), e.pk, newKey), e.pk, e.n);
    }
  }

  ghost predicate OpenedGone(vs: Side, vr: Side) {
    && Tidy(vr.ratchet)
    && forall k :: 0 <= k < |vr.decrypted| ==>
         vr.decrypted[k] < |vs.sent| && Gone(vs.sent[vr.decrypted[k]].envelope.c.key, vr.ratchet)
  }

  ghost predicate AllGone(v: World) {
    OpenedGone(v.host.side, v.guest.side) && OpenedGone(v.guest.side, v.host.side)
  }

  lemma ArriveKeepsGone(us: Side, vs: Side, vr: Side, from: Role, used: set<Key>, at: nat, newKey: KeyId)
    requires OpenedGone(vs, vr) && SealedOnce(us, vs, from, used) && at < |vs.sent|
    ensures OpenedGone(vs, Arrive(vr, vs.sent[at].envelope, at, newKey))
  {
    var f := vs.sent[at].envelope;
    var vr' := Arrive(vr, f, at, newKey);
    DecryptTidies(vr.ratchet, f, newKey);
    forall k | 0 <= k < |vr'.decrypted|
      ensures vr'.decrypted[k] < |vs.sent| && Gone(vs.sent[vr'.decrypted[k]].envelope.c.key, vr'.ratchet)
    {
      if k < |vr.decrypted| {
        assert Gone(vs.sent[vr.decrypted[k]].envelope.c.key, vr.ratchet);
        assert Behind(vs.sent[vr.decrypted[k]].envelope.c.key, vs.ratchet.send);
      }
    }
  }

  /** A key of a dh run comes from no replaced chain. */
  lemma CleanNotReplacing(k: Key)
    requires Clean(k)
    ensures !Replacing(k)
  {
    CleanBase(ChainOfKey(k));
  }

  lemma RekeyKeepsGone(us: Side, ur: Side, vs: Side, vr: Side, nextKey: KeyId, origin: Key, from: Role, used: set<Key>,
                       shared: Key, b: nat, b': nat)
    requires OpenedGone(vs, vr) && SealedOnce(us, vs, from, used) && Descends(us, ur, nextKey, origin)
    requires RatchetOk(ur.ratchet) && Descends(ur, us, nextKey, origin)
    requires HeardKinds(ur.ratchet, vr.ratchet, from, used) && shared !in used
    ensures OpenedGone(Rekey(vs, from, shared, b), Rekey(vr, Other(from), shared, b'))
  {
    var chain := SymmetricChain(from, shared);
    assert Base(chain) == chain;
    forall i | 0 <= i < |vr.ratchet.skipped|
      ensures Behind(vr.ratchet.skipped[i].key, chain)
    {
      assert KeyKind(ur.ratchet.skipped[i].key, vr.ratchet.skipped[i].key, from, used);
      BaseOfChainAt(Base(ur.ratchet.recv), ur.ratchet.skipped[i].n);
      BaseOfBase(ur.ratchet.recv);
    }
    forall k | 0 <= k < |vr.decrypted|
      ensures Gone(vs.sent[vr.decrypted[k]].envelope.c.key, Rekey(vr, Other(from), shared, b').ratchet)
    {
      var at := vr.decrypted[k];
      assert KeyKind(us.sent[at].envelope.c.key, vs.sent[at].envelope.c.key, from, used);
      assert Gone(vs.sent[at].envelope.c.key, vr.ratchet) && Behind(vs.sent[at].envelope.c.key, vs.ratchet.send);
      CleanSealed(us, ur, nextKey, origin, at);
      CleanNotReplacing(us.sent[at].envelope.c.key);
    }
  }

  /** The same for a run before its first reconnect: nothing comes from a replaced chain. */
  lemma StartGone(s: Side, r: Side, nextKey: KeyId, origin: Key)
    requires Descends(s, r, nextKey, origin) && Descends(r, s, nextKey, origin) && RatchetOk(r.ratchet) && Channel(s, r)
    ensures OpenedGone(s, r)
  {
    ChainAtBase(r.ratchet.recv);
    BaseOfBase(r.ratchet.recv);
    forall i | 0 <= i < |r.ratchet.skipped|
      ensures Behind(r.ratchet.skipped[i].key, r.ratchet.recv) && !Replacing(r.ratchet.skipped[i].key)
    {
      BaseOfChainAt(Base(r.ratchet.recv), r.ratchet.skipped[i].n);
    }
    forall k | 0 <= k < |r.decrypted|
      ensures !Replacing(s.sent[r.decrypted[k]].envelope.c.key)
    {
      CleanSealed(s, r, nextKey, origin, r.decrypted[k]);
      CleanNotReplacing(s.sent[r.decrypted[k]].envelope.c.key);
    }
  }

  /** No captured key lies on the way to an opened envelope's key of a replaced chain. */
  lemma OpenedReplacedNotCaptured(ur: Side, vr: Side, other: Side, nextKey: KeyId, origin: Key, from: Role,
                                  used: set<Key>,
                                  k: Key, shared: Key, j: nat)
    requires RatchetOk(ur.ratchet) && Descends(ur, other, nextKey, origin)
    requires SameRatchet(ur.ratchet, vr.ratchet) && SealedOnce(ur, vr, Other(from), used)
    requires HeardKinds(ur.ratchet, vr.ratchet, from, used) && Tidy(vr.ratchet) && Gone(k, vr.ratchet)
    requires k.MessageKey? && Base(k.chain) == SymmetricChain(from, shared) && j <= Depth(k.chain)
    ensures ChainAt(SymmetricChain(from, shared), j) !in Captured(vr.ratchet)
    ensures k !in Captured(vr.ratchet)
  {
    var base := SymmetricChain(from, shared);
    BaseOfChainAt(base, j);
    assert Replacing(k);
    SendNotTheirs(ur, vr, from, used, shared);
    forall i | 0 <= i < |vr.ratchet.skipped|
      ensures vr.ratchet.skipped[i].key.MessageKey?
    {
      assert Behind(vr.ratchet.skipped[i].key, vr.ratchet.recv);
    }
  }

  lemma SendNotTheirs(ur: Side, vr: Side, from: Role, used: set<Key>, shared: Key)
    requires RatchetTraced(ur.ratchet) && SealedOnce(ur, vr, Other(from), used)
    ensures Base(vr.ratchet.send) != SymmetricChain(from, shared)
  {
  }

  lemma OpenedIsSecretNow(us: Side, ur: Side, vs: Side, vr: Side, nextKey: KeyId, origin: Key, from: Role,
                          used: set<Key>, k: nat)
    requires RatchetOk(ur.ratchet) && Descends(us, ur, nextKey, origin) && Descends(ur, us, nextKey, origin)
    requires Channel(us, ur) && OpenedHang(us, ur) && SameSide(ur, vr)
    requires SealedOnce(us, vs, from, used) && SealedOnce(ur, vr, Other(from), used)
    requires HeardKinds(ur.ratchet, vr.ratchet, from, used) && OpenedGone(vs, vr) && Guarded(used, vr.ratchet.pk)
    requires k < |vr.decrypted|
    ensures !Derivable(Captured(vr.ratchet), {vr.ratchet.pk}, vs.sent[vr.decrypted[k]].envelope.c.key)
  {
    var at := vr.decrypted[k];
    var a, key := us.sent[at].envelope.c.key, vs.sent[at].envelope.c.key;
    assert KeyKind(a, key, from, used);
    if key == a {
      assert at in ur.decrypted;
      var l :| 0 <= l < |ur.decrypted| && ur.decrypted[l] == at;
      OpenedKeyUnderivable(us, ur, nextKey, origin, l);
      CleanSealed(us, ur, nextKey, origin, at);
      CleanStaysSecret(ur, vr, Other(from), used, key);
    } else {
      var shared :| shared in used && Base(key.chain) == SymmetricChain(from, shared);
      assert Gone(key, vr.ratchet);
      forall j | 0 <= j <= Depth(key.chain)
        ensures ChainAt(SymmetricChain(from, shared), j) !in Captured(vr.ratchet)
      {
        OpenedReplacedNotCaptured(ur, vr, us, nextKey, origin, from, used, key, shared, j);
      }
      OpenedReplacedNotCaptured(ur, vr, us, nextKey, origin, from, used, key, shared, 0);
      SecretNotHeld(ur, vr, us, nextKey, origin, Other(from), used, shared);
      ChainAtBase(key.chain);
      ReplacedChainsHangOnSharedKey(Captured(vr.ratchet), {vr.ratchet.pk}, from, shared, Depth(key.chain));
    }
  }

  /** A clean key that the dh run's state does not give away is not given away by the kem run's. */
  lemma CleanStaysSecret(us: Side, vs: Side, role: Role, used: set<Key>, k: Key)
    requires SameRatchet(us.ratchet, vs.ratchet) && SealedOnce(us, vs, role, used)
    requires HeardKinds(us.ratchet, vs.ratchet, Other(role), used)
    requires Clean(k) && !Derivable(Captured(us.ratchet), {us.ratchet.pk}, k)
    ensures !Derivable(Captured(vs.ratchet), {vs.ratchet.pk}, k)
  {
    if Derivable(Captured(vs.ratchet), {vs.ratchet.pk}, k) {
      forall x | x in Captured(vs.ratchet)
        ensures x in Captured(us.ratchet) || Replacing(x)
      {
        CapturedKind(us, vs, role, used, x);
      }
      ReplacingDoesNotHelp(Captured(us.ratchet), Captured(vs.ratchet), {vs.ratchet.pk}, k);
    }
  }

  // ---- All of it, over every run ----

  /** What is kept along a kem run `v` and the dh run `u` beside it. */
  ghost predicate Watched(u: World, v: World, ms: Marks, origin: Key, used: set<Key>, identity: KeyId) {
    && Beside(u, v, ms) && Traceable(u, origin) && BothHang(u) && NoRatchetKey(u, identity)
    && WatchedKeys(u, v, used, identity)
  }

  ghost predicate WatchedKeys(u: World, v: World, used: set<Key>, identity: KeyId) {
    && AllSealedOnce(u, v, used) && AllHeard(u, v, used) && AllGone(v)
    && forall s :: s in used ==> s.Kem? && s.opener == identity
  }

  lemma DeliverKeepsGone(u: World, v: World, used: set<Key>, to: Role, at: nat)
    requires AllSealedOnce(u, v, used) && AllGone(v) && Enabled(v, Deliver(to, at))
    ensures AllGone(Next(v, Deliver(to, at)))
  {
    ArriveKeepsGone(Get(u, Other(to)).side, Get(v, Other(to)).side, Get(v, to).side, Other(to), used, at, v.nextKey);
  }

  lemma SendKeepsGone(v: World, ev: Event)
    requires AllGone(v) && (ev.SendChat? || ev.SendControl?)
    ensures AllGone(Next(v, ev))
  {
    SendIs(v, ev);
  }

  lemma ReconnectKeepsGone(u: World, v: World, origin: Key, used: set<Key>, shared: Key)
    requires Reachable(u) && Traceable(u, origin) && AllSealedOnce(u, v, used) && AllHeard(u, v, used) && AllGone(v)
    requires shared !in used
    ensures AllGone(RekeyBoth(v, shared))
  {
    var uh, ug, vh, vg := u.host.side, u.guest.side, v.host.side, v.guest.side;
    RekeyKeepsGone(uh, ug, vh, vg, u.nextKey, origin, Host, used, shared, |vg.sent|, |vh.sent|);
    RekeyKeepsGone(ug, uh, vg, vh, u.nextKey, origin, Guest, used, shared, |vh.sent|, |vg.sent|);
  }

  lemma NextKeepsGone(u: World, v: World, origin: Key, used: set<Key>, ev: KemEvent)
    requires Reachable(u) && Traceable(u, origin) && AllSealedOnce(u, v, used) && AllHeard(u, v, used) && AllGone(v)
    requires KemEnabled(v, ev) && (ev.FullReconnect? ==> ev.shared !in used)
    ensures AllGone(KemNext(v, ev))
  {
    match ev
    case FullReconnect(shared) => ReconnectKeepsGone(u, v, origin, used, shared);
    case Plain(Deliver(to, at)) => DeliverKeepsGone(u, v, used, to, at);
    case Plain(Reconnect(_)) =>
    case Plain(e) => SendKeepsGone(v, e);
  }

  /** The reconnect brings a handshake key not used before, encapsulated for `identity`. */
  ghost predicate GoodSecret(ev: KemEvent, used: set<Key>, identity: KeyId) {
    ev.FullReconnect? ==> ev.shared !in used && ev.shared.Kem? && ev.shared.opener == identity
  }

  ghost predicate GoodSecrets(evs: seq<KemEvent>, used: set<Key>, identity: KeyId)
    decreases |evs|
  {
    evs == [] || (GoodSecret(evs[0], used, identity) && GoodSecrets(evs[1..], UsedNext(used, evs[0]), identity))
  }

  lemma NextKeepsWatched(u: World, v: World, ms: Marks, origin: Key, used: set<Key>, identity: KeyId, ev: KemEvent)
    requires Watched(u, v, ms, origin, used, identity) && KemEnabled(v, ev) && GoodSecret(ev, used, identity)
    ensures KemEnabled(u, ev)
    ensures Watched(DhNext(u, ev), KemNext(v, ev), MarksNext(v, ms, ev), origin, UsedNext(used, ev), identity)
  {
    NextBeside(u, v, ms, ev);
    NextKeepsIdentity(u, identity, ev);
    DhNextKeepsHang(u, origin, ev);
    NextKeepsWatchedKeys(u, v, ms, origin, used, identity, ev);
  }

  lemma NextKeepsWatchedKeys(u: World, v: World, ms: Marks, origin: Key, used: set<Key>, identity: KeyId, ev: KemEvent)
    requires Beside(u, v, ms) && Traceable(u, origin) && WatchedKeys(u, v, used, identity)
    requires KemEnabled(u, ev) && KemEnabled(v, ev) && GoodSecret(ev, used, identity)
    ensures WatchedKeys(DhNext(u, ev), KemNext(v, ev), UsedNext(used, ev), identity) && Traceable(DhNext(u, ev), origin)
  {
    NextKeepsSealed(u, v, ms, origin, used, ev);
    NextKeepsHeard(u, v, used, ev);
    NextKeepsGone(u, v, origin, used, ev);
  }

  lemma {:induction false} RunKeepsWatched(u: World, v: World, ms: Marks, origin: Key, used: set<Key>, identity: KeyId,
                                           evs: seq<KemEvent>)
    requires Watched(u, v, ms, origin, used, identity) && KemAdmissible(v, evs) && GoodSecrets(evs, used, identity)
    ensures DhAdmissible(u, evs)
    ensures Watched(DhRun(u, evs), KemRun(v, evs), MarksRun(v, ms, evs), origin, UsedAfter(used, evs), identity)
    decreases |evs|
  {
    if evs != [] {
      NextKeepsWatched(u, v, ms, origin, used, identity, evs[0]);
      RunKeepsWatched(DhNext(u, evs[0]), KemNext(v, evs[0]), MarksNext(v, ms, evs[0]), origin, UsedNext(used, evs[0]),
                      identity, evs[1..]);
    }
  }

  /** The state before the first reconnect, and what the reconnect makes of it. */
  lemma ReconnectStartsWatch(w: World, origin: Key, shared: Key, identity: KeyId)
    requires Reachable(w) && Traceable(w, origin) && BothHang(w) && NoRatchetKey(w, identity)
    requires shared.Kem? && shared.opener == identity
    ensures Watched(RelinkBoth(w), RekeyBoth(w, shared), MarksAt(w, shared), origin, {shared}, identity)
  {
    StartAllSealedOnce(w, origin);
    ReconnectBeside(w, w, shared);
    DhNextKeepsHang(w, origin, FullReconnect(shared));
    ReconnectStartsWatchedKeys(w, origin, shared, identity);
  }

  lemma ReconnectStartsWatchedKeys(w: World, origin: Key, shared: Key, identity: KeyId)
    requires Reachable(w) && Traceable(w, origin) && shared.Kem? && shared.opener == identity
    ensures WatchedKeys(RelinkBoth(w), RekeyBoth(w, shared), {shared}, identity) && Traceable(RelinkBoth(w), origin)
  {
    StartAllSealedOnce(w, origin);
    StartAllGone(w, origin);
    ReconnectKeepsSealed(w, w, origin, {}, shared);
    NextKeepsHeard(w, w, {}, FullReconnect(shared));
    ReconnectKeepsGone(w, w, origin, {}, shared);
    assert {} + {shared} == {shared};
  }

  lemma StartAllGone(w: World, origin: Key)
    requires Reachable(w) && Traceable(w, origin)
    ensures AllGone(w)
  {
    StartGone(w.host.side, w.guest.side, w.nextKey, origin);
    StartGone(w.guest.side, w.host.side, w.nextKey, origin);
  }

  /** Neither sealed nor opened envelopes are given away by the state of `role`. */
  ghost predicate KeepsSecrets(v: World, role: Role) {
    var s, o := Get(v, role).side, Get(v, Other(role)).side;
    && (forall i :: 0 <= i < |s.sent| ==> !Derivable(Captured(s.ratchet), {s.ratchet.pk}, s.sent[i].envelope.c.key))
    && (forall k :: 0 <= k < |s.decrypted| && s.decrypted[k] < |o.sent| ==>
          !Derivable(Captured(s.ratchet), {s.ratchet.pk}, o.sent[s.decrypted[k]].envelope.c.key))
  }

  lemma WatchedKeepsSecrets(u: World, v: World, ms: Marks, origin: Key, used: set<Key>, identity: KeyId, role: Role)
    requires Watched(u, v, ms, origin, used, identity)
    ensures KeepsSecrets(v, role)
  {
    var us, uo, vs, vo := Get(u, role).side, Get(u, Other(role)).side, Get(v, role).side, Get(v, Other(role)).side;
    forall i | 0 <= i < |vs.sent|
      ensures !Derivable(Captured(vs.ratchet), {vs.ratchet.pk}, vs.sent[i].envelope.c.key)
    {
      SealedIsSecret(us, vs, uo, u.nextKey, origin, role, used, i);
    }
    forall k | 0 <= k < |vs.decrypted|
      ensures vs.decrypted[k] < |vo.sent|
      ensures !Derivable(Captured(vs.ratchet), {vs.ratchet.pk}, vo.sent[vs.decrypted[k]].envelope.c.key)
    {
      OpenedIsSecretNow(uo, us, vo, vs, u.nextKey, origin, Other(role), used, k);
    }
  }

  /**
    Forward secrecy in kem mode: after reconnects with new handshake keys for the host's identity key, at any
    point of any run, a peer's ratchet state and ratchet private key give away the key of no envelope it has
    sealed or opened, on whichever chain.
  */
  lemma KemForwardSecrecy(w: World, origin: Key, shared: Key, identity: KeyId, evs: seq<KemEvent>, role: Role)
    requires Reachable(w) && Traceable(w, origin) && BothHang(w) && NoRatchetKey(w, identity)
    requires shared.Kem? && shared.opener == identity && GoodSecrets(evs, {shared}, identity)
    requires KemAdmissible(RekeyBoth(w, shared), evs)
    ensures KeepsSecrets(KemRun(RekeyBoth(w, shared), evs), role)
  {
    ReconnectStartsWatch(w, origin, shared, identity);
    RunKeepsWatched(RelinkBoth(w), RekeyBoth(w, shared), MarksAt(w, shared), origin, {shared}, identity, evs);
    WatchedKeepsSecrets(DhRun(RelinkBoth(w), evs), KemRun(RekeyBoth(w, shared), evs),
                        MarksRun(RekeyBoth(w, shared), MarksAt(w, shared), evs), origin, UsedAfter({shared}, evs),
                        identity, role);
  }

  lemma {:induction false} RunKeepsIdentity(w: World, origin: Key, identity: KeyId, evs: seq<Event>)
    requires Synced(w) && Traceable(w, origin) && NoRatchetKey(w, identity) && Admissible(w, evs)
    ensures NoRatchetKey(Run(w, evs), identity)
    decreases |evs|
  {
    if evs != [] {
      NextKeepsSync(w, evs[0], Leader(w));
      NextKeepsTrace(w, evs[0], origin);
      EventKeepsIdentity(w, identity, evs[0]);
      RunKeepsIdentity(Next(w, evs[0]), origin, identity, evs[1..]);
    }
  }

  lemma EventKeepsIdentity(w: World, identity: KeyId, ev: Event)
    requires NoRatchetKey(w, identity) && Enabled(w, ev)
    requires w.host.side.ratchet.pk in w.host.side.keys && w.guest.side.ratchet.pk in w.guest.side.keys
    ensures NoRatchetKey(Next(w, ev), identity)
  {
  }
}
