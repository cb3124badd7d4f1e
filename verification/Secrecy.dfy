/**
  What a captured ratchet state gives away: forward secrecy and healing, against an attacker who can
  apply every derivation of the protocol (src/core/services/SessionManager.js:1019-1051).
*/
module Secrecy {
  import opened Keys
  import opened DoubleRatchet
  import opened TwoParty
  import opened Lineage

  // ---- The attacker ----

  /**
    What follows from known keys and known private keys; public keys are public. Derivations only build
    larger terms, so recursion on the term covers every way to reach it.
  */
  ghost predicate Derivable(known: set<Key>, privs: set<KeyId>, k: Key) {
    || k in known
    || (match k
        case NoKey => true
        case Dh(lo, hi) => lo in privs || hi in privs
        case Kem(secret, recipient, opener) => opener in privs
        case InitRoot(shared, dh) => Derivable(known, privs, shared) && Derivable(known, privs, dh)
        case InitChain(dir, shared, dh) => Derivable(known, privs, shared) && Derivable(known, privs, dh)
        case RootOf(root, dh) => Derivable(known, privs, root) && Derivable(known, privs, dh)
        case ChainOf(root, dh) => Derivable(known, privs, root) && Derivable(known, privs, dh)
        case NextChain(chain) => Derivable(known, privs, chain)
        case MessageKey(chain) => Derivable(known, privs, chain))
  }

  /** A set of keys that contains the known ones and is closed under every function of the crypto adapter. */
  ghost predicate ClosedUnderDerivation(s: iset<Key>, known: set<Key>, privs: set<KeyId>) {
    && NoKey in s
    && (forall k :: k in known ==> k in s)
    && (forall p, q {:trigger DhOut(p, q)} :: p in privs ==> DhOut(p, q) in s)
    && (forall secret, recipient, p {:trigger Kem(secret, recipient, p)} ::
          p in privs ==> Kem(secret, recipient, p) in s)
    && (forall shared, dh {:trigger InitRoot(shared, dh)} :: shared in s && dh in s ==> InitRoot(shared, dh) in s)
    && (forall dir, shared, dh {:trigger InitChain(dir, shared, dh)} ::
          shared in s && dh in s ==> InitChain(dir, shared, dh) in s)
    && (forall root, dh {:trigger RootOf(root, dh)} :: root in s && dh in s ==> RootOf(root, dh) in s)
    && (forall root, dh {:trigger ChainOf(root, dh)} :: root in s && dh in s ==> ChainOf(root, dh) in s)
    && (forall chain {:trigger NextChain(chain)} :: chain in s ==> NextChain(chain) in s)
    && (forall chain {:trigger MessageKey(chain)} :: chain in s ==> MessageKey(chain) in s)
  }

  /** A key is in order when it names the two key pairs the way DhOut does; all keys of a run are. */
  ghost predicate Normal(k: Key) {
    match k
    case Dh(lo, hi) => lo <= hi
    case InitRoot(shared, dh) => Normal(shared) && Normal(dh)
    case InitChain(_, shared, dh) => Normal(shared) && Normal(dh)
    case RootOf(root, dh) => Normal(root) && Normal(dh)
    case ChainOf(root, dh) => Normal(root) && Normal(dh)
    case NextChain(chain) => Normal(chain)
    case MessageKey(chain) => Normal(chain)
    case _ => true
  }

  lemma {:induction false} DerivableIsInEveryClosure(s: iset<Key>, known: set<Key>, privs: set<KeyId>, k: Key)
    requires ClosedUnderDerivation(s, known, privs) && Normal(k) && Derivable(known, privs, k)
    ensures k in s
  {
    if k !in known {
      match k
      case Dh(lo, hi) => assert k == DhOut(lo, hi) == DhOut(hi, lo);
      case InitRoot(shared, dh) =>
        DerivableIsInEveryClosure(s, known, privs, shared);
        DerivableIsInEveryClosure(s, known, privs, dh);
      case InitChain(dir, shared, dh) =>
        DerivableIsInEveryClosure(s, known, privs, shared);
        DerivableIsInEveryClosure(s, known, privs, dh);
      case RootOf(root, dh) =>
        DerivableIsInEveryClosure(s, known, privs, root);
        DerivableIsInEveryClosure(s, known, privs, dh);
      case ChainOf(root, dh) =>
        DerivableIsInEveryClosure(s, known, privs, root);
        DerivableIsInEveryClosure(s, known, privs, dh);
      case NextChain(chain) => DerivableIsInEveryClosure(s, known, privs, chain);
      case MessageKey(chain) => DerivableIsInEveryClosure(s, known, privs, chain);
      case _ =>
    }
  }

  /** `Derivable` is exactly the least set closed under the adapter's functions. */
  lemma DerivableIsLeastClosure(known: set<Key>, privs: set<KeyId>, k: Key)
    requires Normal(k)
    ensures Derivable(known, privs, k) <==>
            forall s: iset<Key> :: ClosedUnderDerivation(s, known, privs) ==> k in s
  {
    var all := iset x: Key | Derivable(known, privs, x);
    assert ClosedUnderDerivation(all, known, privs);
    if Derivable(known, privs, k) {
      forall s: iset<Key> | ClosedUnderDerivation(s, known, privs)
        ensures k in s
      {
        DerivableIsInEveryClosure(s, known, privs, k);
      }
    }
  }

  /** Everything key-like in a ratchet state: root, both chains and the buffered message keys. */
  ghost function Captured(r: Ratchet): set<Key> {
    {r.root, r.send, r.recv} + (set i | 0 <= i < |r.skipped| :: r.skipped[i].key)
  }

  // ---- What a captured state does not contain ----

  lemma {:induction false} AncestorIsShallower(r: Key, root: Key)
    requires Ancestor(r, root)
    ensures RootDepth(r) < RootDepth(root)
    ensures IsRoot(root) ==> IsRoot(r)
    ensures Origin(r) == Origin(root)
  {
    if r != root.root {
      AncestorIsShallower(r, root.root);
    }
  }

  lemma {:induction false} AncestorTransitive(q: Key, r: Key, root: Key)
    requires Ancestor(q, r) && Ancestor(r, root)
    ensures Ancestor(q, root)
  {
    if r != root.root {
      AncestorTransitive(q, r, root.root);
    }
  }

  /** The kinds of key a captured state consists of. */
  ghost predicate StateKey(r: Ratchet, k: Key) {
    || k == r.root
    || k == r.send
    || k == r.recv
    || (k.MessageKey? && Base(k.chain) == Base(r.recv))
  }

  lemma CapturedKinds(r: Ratchet, k: Key)
    requires RatchetOk(r) && k in Captured(r)
    ensures StateKey(r, k)
  {
    if k != r.root && k != r.send && k != r.recv {
      var i :| 0 <= i < |r.skipped| && r.skipped[i].key == k;
      BaseOfChainAt(Base(r.recv), r.skipped[i].n);
      ChainAtBase(r.recv);
      BaseOfBase(r.recv);
    }
  }

  lemma StateChain(chain: Key, root: Key)
    requires HangsOff(Base(chain), root) || Twins(Base(chain), root)
    ensures chain.NextChain? || chain.ChainOf? || chain.InitChain?
  {
  }

  /** A root other than the captured one is not in the captured state. */
  lemma OtherRootNotCaptured(r: Ratchet, k: Key)
    requires RatchetOk(r) && RatchetTraced(r)
    requires (k.InitRoot? || k.RootOf?) && k != r.root
    ensures k !in Captured(r)
  {
  }

  lemma SecretNotCaptured(r: Ratchet, k: Key)
    requires RatchetOk(r) && RatchetTraced(r)
    requires k.Dh? || k.Kem?
    ensures k !in Captured(r)
  {
  }

  // ---- Forward secrecy ----

  lemma {:induction false} RootUnderivable(known: set<Key>, privs: set<KeyId>, r: Key, origin: Key)
    requires IsRoot(r) && IsOrigin(origin) && Origin(r) == origin
    requires forall x :: x == r || Ancestor(x, r) ==> x !in known
    requires !Derivable(known, privs, origin.shared) || !Derivable(known, privs, origin.dh)
    ensures !Derivable(known, privs, r)
  {
    if r.RootOf? {
      RootUnderivable(known, privs, r.root, origin);
    }
  }

  lemma {:induction false} ChainUnderivable(known: set<Key>, privs: set<KeyId>, base: Key, n: nat)
    requires !Derivable(known, privs, base)
    requires forall j :: 0 <= j <= n ==> ChainAt(base, j) !in known
    ensures !Derivable(known, privs, ChainAt(base, n))
  {
    if n > 0 {
      ChainUnderivable(known, privs, base, n - 1);
    }
  }

  lemma {:induction false} ChainDerivable(known: set<Key>, privs: set<KeyId>, base: Key, n: nat)
    requires Derivable(known, privs, base)
    ensures Derivable(known, privs, ChainAt(base, n))
  {
    if n > 0 {
      ChainDerivable(known, privs, base, n - 1);
    }
  }

  /** The start of any chain of a peer's past hangs off roots that its state no longer contains. */
  lemma PastBaseUnderivable(r: Ratchet, origin: Key, extra: set<Key>, privs: set<KeyId>, base: Key)
    requires RatchetOk(r) && RatchetTraced(r) && HangsOff(base, r.root)
    requires IsOrigin(origin) && Origin(r.root) == origin
    requires forall k :: k in extra ==> k.Dh? || k.Kem?
    requires base !in Captured(r)
    requires var known := Captured(r) + extra;
      !Derivable(known, privs, origin.shared) || !Derivable(known, privs, origin.dh)
    ensures !Derivable(Captured(r) + extra, privs, base)
  {
    if base.ChainOf? {
      AncestorIsShallower(base.root, r.root);
      forall x | x == base.root || Ancestor(x, base.root)
        ensures x !in Captured(r) + extra
      {
        if x != base.root {
          AncestorTransitive(x, base.root, r.root);
        }
        AncestorIsShallower(x, r.root);
        OtherRootNotCaptured(r, x);
      }
      RootUnderivable(Captured(r) + extra, privs, base.root, origin);
    }
  }

  /** No key on the way to a past envelope's message key is part of the captured state. */
  lemma PastChainNotCaptured(r: Ratchet, e: Envelope, j: nat)
    requires RatchetOk(r) && RatchetTraced(r) && Traced(r, e)
    requires e.pk != r.last && (e.pk == r.pk ==> e.n < r.sendIdx)
    requires j <= e.n
    ensures ChainAt(Base(e.c.key.chain), j) !in Captured(r)
    ensures e.c.key !in Captured(r)
  {
    var base := Base(e.c.key.chain);
    ChainAtBase(e.c.key.chain);
    BaseOfChainAt(base, j);
    if ChainAt(base, j) in Captured(r) {
      CapturedKinds(r, ChainAt(base, j));
      assert false;
    }
    if e.c.key in Captured(r) {
      CapturedKinds(r, e.c.key);
      StateChain(r.send, r.root);
      StateChain(r.recv, r.root);
      assert false;
    }
  }

  lemma PastKeyUnderivable(s: Side, other: Side, nextKey: KeyId, origin: Key, extra: set<Key>, i: nat)
    requires RatchetOk(s.ratchet) && Descends(s, other, nextKey, origin) && Channel(s, other) && i < |s.sent|
    requires extra <= {origin.shared}
    requires var known := Captured(s.ratchet) + extra;
      !Derivable(known, {s.ratchet.pk}, origin.shared) || !Derivable(known, {s.ratchet.pk}, origin.dh)
    ensures !Derivable(Captured(s.ratchet) + extra, {s.ratchet.pk}, s.sent[i].envelope.c.key)
  {
    var r, e := s.ratchet, s.sent[i].envelope;
    var known := Captured(r) + extra;
    assert Readable(r, other.ratchet, e) && Traced(r, e);
    var base := Base(e.c.key.chain);
    ChainAtBase(e.c.key.chain);
    forall j | 0 <= j <= e.n
      ensures ChainAt(base, j) !in known
    {
      PastChainNotCaptured(r, e, j);
      BaseOfChainAt(base, j);
    }
    PastChainNotCaptured(r, e, 0);
    assert ChainAt(base, 0) == base;
    PastBaseUnderivable(r, origin, extra, {r.pk}, base);
    ChainUnderivable(known, {r.pk}, base, e.n);
  }

  lemma SentKeyUnderivable(s: Side, other: Side, nextKey: KeyId, origin: Key, i: nat)
    requires RatchetOk(s.ratchet) && Descends(s, other, nextKey, origin) && Channel(s, other) && i < |s.sent|
    ensures !Derivable(Captured(s.ratchet), {s.ratchet.pk}, s.sent[i].envelope.c.key)
  {
    SecretNotCaptured(s.ratchet, origin.shared);
    assert Captured(s.ratchet) + {} == Captured(s.ratchet);
    PastKeyUnderivable(s, other, nextKey, origin, {}, i);
  }

  /**
    Forward secrecy: from everything in a peer's ratchet state, its ratchet private key included, the key of
    no envelope it ever encrypted can be derived.
  */
  lemma ForwardSecrecy(w: World, evs: seq<Event>, origin: Key, role: Role, i: nat)
    requires Synced(w) && Traceable(w, origin) && Admissible(w, evs)
    requires i < |Get(Run(w, evs), role).side.sent|
    ensures var s := Get(Run(w, evs), role).side;
      !Derivable(Captured(s.ratchet), {s.ratchet.pk}, s.sent[i].envelope.c.key)
  {
    RunKeepsTrace(w, evs, origin);
    var s, other := Get(Run(w, evs), role).side, Get(Run(w, evs), Other(role)).side;
    SentKeyUnderivable(s, other, Run(w, evs).nextKey, origin, i);
  }

  /**
    The session keeps the handshake key as well. With it captured too, past envelopes are still out of reach
    exactly when the peer has left its initial root, that is, always for the guest and after the first
    DH step for the host.
  */
  lemma ForwardSecrecyWithHandshakeKey(w: World, evs: seq<Event>, origin: Key, role: Role, i: nat)
    requires Synced(w) && Traceable(w, origin) && Admissible(w, evs)
    requires i < |Get(Run(w, evs), role).side.sent|
    ensures var s := Get(Run(w, evs), role).side;
      Derivable(Captured(s.ratchet) + {origin.shared}, {s.ratchet.pk}, s.sent[i].envelope.c.key)
      <==> s.ratchet.root.InitRoot?
  {
    RunKeepsTrace(w, evs, origin);
    var s, other := Get(Run(w, evs), role).side, Get(Run(w, evs), Other(role)).side;
    if s.ratchet.root.InitRoot? {
      InitialKeyDerivable(s, other, Run(w, evs).nextKey, origin, i);
    } else {
      SecretNotCaptured(s.ratchet, origin.dh);
      PastKeyUnderivable(s, other, Run(w, evs).nextKey, origin, {origin.shared}, i);
    }
  }

  lemma InitialKeyDerivable(s: Side, other: Side, nextKey: KeyId, origin: Key, i: nat)
    requires Descends(s, other, nextKey, origin) && i < |s.sent| && s.ratchet.root.InitRoot?
    ensures Derivable(Captured(s.ratchet) + {origin.shared}, {s.ratchet.pk}, s.sent[i].envelope.c.key)
  {
    var e := s.sent[i].envelope;
    assert Traced(s.ratchet, e);
    ChainAtBase(e.c.key.chain);
    var base := Base(e.c.key.chain);
    assert base.InitChain? && base.shared == origin.shared && base.dh == origin.dh;
    assert Base(s.ratchet.send).dh == origin.dh;
    assert Derivable(Captured(s.ratchet) + {origin.shared}, {s.ratchet.pk}, origin.dh);
    ChainDerivable(Captured(s.ratchet) + {origin.shared}, {s.ratchet.pk}, Base(e.c.key.chain), e.n);
  }

  // ---- Envelopes already opened ----

  /** Every opened envelope was sealed on a chain of the receiver's past or present roots. */
  ghost predicate OpenedHang(s: Side, r: Side) {
    forall k :: 0 <= k < |r.decrypted| ==>
      r.decrypted[k] < |s.sent| && OpenedBase(s.sent[r.decrypted[k]].envelope, r.ratchet.root)
  }

  ghost predicate OpenedBase(e: Envelope, root: Key) {
    e.c.key.MessageKey? && HangsOff(Base(e.c.key.chain), root)
  }

  ghost predicate BothHang(w: World) {
    OpenedHang(w.host.side, w.guest.side) && OpenedHang(w.guest.side, w.host.side)
  }

  /** A new root keeps the old ones among its ancestors. */
  lemma ArriveGrowsRoot(r: Ratchet, e: Envelope, newKey: KeyId, f: Envelope)
    requires OpenedBase(f, r.root)
    ensures OpenedBase(f, Decrypt(r, e, newKey).0.root)
  {
    var base, received := Base(f.c.key.chain), DhOut(r.pk, e.pk);
    HangsOffLater(base, r.root, received);
    HangsOffLater(base, RootOf(r.root, received), DhOut(newKey, e.pk));
  }

  lemma HangsOffLater(base: Key, root: Key, dh: Key)
    requires HangsOff(base, root)
    ensures HangsOff(base, RootOf(root, dh))
  {
  }

  /** The key that opens an envelope is on the receive chain, which hangs off the root. */
  lemma OpenedNowHangs(r: Ratchet, e: Envelope, newKey: KeyId)
    requires RatchetOk(r) && RatchetTraced(r) && (e.pk == r.last || r.pk < e.pk < newKey)
    requires Decrypt(r, e, newKey).1.Opened?
    ensures OpenedBase(e, Decrypt(r, e, newKey).0.root)
  {
    var r1 := NoteNonce(r, e.c);
    var r2 := Synchronise(r1, e.pk, newKey);
    SynchroniseOk(r1, e.pk, newKey);
    if e.pk != r.last {
      StepTraced(r1, e.pk, newKey);
    }
    TakeKeyOk(r2, e.n);
    BaseOfChainAt(Base(r2.recv), e.n);
    BaseOfBase(r2.recv);
  }

  lemma ArriveKeepsHang(s: Side, r: Side, at: nat, newKey: KeyId)
    requires OpenedHang(s, r) && RatchetOk(r.ratchet) && RatchetTraced(r.ratchet) && at < |s.sent|
    requires s.sent[at].envelope.pk == r.ratchet.last || r.ratchet.pk < s.sent[at].envelope.pk < newKey
    ensures OpenedHang(s, Arrive(r, s.sent[at].envelope, at, newKey))
  {
    var e := s.sent[at].envelope;
    var r' := Arrive(r, e, at, newKey);
    forall k | 0 <= k < |r'.decrypted|
      ensures r'.decrypted[k] < |s.sent| && OpenedBase(s.sent[r'.decrypted[k]].envelope, r'.ratchet.root)
    {
      if k < |r.decrypted| {
        ArriveGrowsRoot(r.ratchet, e, newKey, s.sent[r.decrypted[k]].envelope);
      } else {
        OpenedNowHangs(r.ratchet, e, newKey);
      }
    }
  }

  lemma SendKeepsHang(w: World, ev: Event)
    requires BothHang(w) && (ev.SendChat? || ev.SendControl?)
    ensures BothHang(Next(w, ev))
  {
  }

  lemma DeliverKeepsHang(w: World, origin: Key, to: Role, at: nat)
    requires Synced(w) && Traceable(w, origin) && BothHang(w) && Enabled(w, Deliver(to, at))
    ensures BothHang(Next(w, Deliver(to, at)))
  {
    var r, s := Get(w, to).side, Get(w, Other(to)).side;
    DeliveredKey(s, r, at);
    assert s.sent[at].envelope.pk in s.keys;
    ArriveKeepsHang(s, r, at, w.nextKey);
  }

  lemma NextKeepsHang(w: World, origin: Key, ev: Event)
    requires Synced(w) && Traceable(w, origin) && BothHang(w) && Enabled(w, ev)
    ensures BothHang(Next(w, ev))
  {
    match ev
    case Deliver(to, at) => DeliverKeepsHang(w, origin, to, at);
    case Reconnect(_) =>
    case _ => SendKeepsHang(w, ev);
  }

  lemma {:induction false} RunKeepsHang(w: World, evs: seq<Event>, origin: Key)
    requires Synced(w) && Traceable(w, origin) && BothHang(w) && Admissible(w, evs)
    ensures BothHang(Run(w, evs))
    decreases |evs|
  {
    if evs != [] {
      NextKeepsSync(w, evs[0], Leader(w));
      NextKeepsTrace(w, evs[0], origin);
      NextKeepsHang(w, origin, evs[0]);
      RunKeepsHang(Next(w, evs[0]), evs[1..], origin);
    }
  }

  /** No key on the way to an opened envelope's message key is part of the receiver's state any more. */
  lemma OpenedChainNotCaptured(r: Ratchet, e: Envelope, j: nat)
    requires RatchetOk(r) && RatchetTraced(r) && OpenedBase(e, r.root) && Spent(r, e)
    requires Depth(e.c.key.chain) == e.n && Owner(Base(e.c.key.chain)) == e.pk && e.pk != r.pk
    requires j <= e.n
    ensures ChainAt(Base(e.c.key.chain), j) !in Captured(r)
    ensures e.c.key !in Captured(r)
  {
    var base := Base(e.c.key.chain);
    ChainAtBase(e.c.key.chain);
    BaseOfChainAt(base, j);
    if ChainAt(base, j) in Captured(r) {
      CapturedKinds(r, ChainAt(base, j));
      assert false;
    }
    if e.c.key in Captured(r) {
      StateChain(r.send, r.root);
      StateChain(r.recv, r.root);
      var i :| 0 <= i < |r.skipped| && r.skipped[i].key == e.c.key;
      BaseOfChainAt(Base(r.recv), r.skipped[i].n);
      ChainAtBase(r.recv);
      assert false;
    }
  }

  lemma OpenedKeyUnderivable(s: Side, r: Side, nextKey: KeyId, origin: Key, k: nat)
    requires RatchetOk(r.ratchet) && Descends(r, s, nextKey, origin) && Descends(s, r, nextKey, origin)
    requires Channel(s, r) && OpenedHang(s, r) && k < |r.decrypted|
    ensures !Derivable(Captured(r.ratchet), {r.ratchet.pk}, s.sent[r.decrypted[k]].envelope.c.key)
  {
    var x, e := r.ratchet, s.sent[r.decrypted[k]].envelope;
    var base := Base(e.c.key.chain);
    assert Traced(s.ratchet, e) && Spent(x, e);
    ChainAtBase(e.c.key.chain);
    forall j | 0 <= j <= e.n
      ensures ChainAt(base, j) !in Captured(x)
    {
      OpenedChainNotCaptured(x, e, j);
    }
    OpenedChainNotCaptured(x, e, 0);
    assert ChainAt(base, 0) == base && Captured(x) + {} == Captured(x);
    SecretNotCaptured(x, origin.shared);
    PastBaseUnderivable(x, origin, {}, {x.pk}, base);
    ChainUnderivable(Captured(x), {x.pk}, base, e.n);
  }

  /**
    The other half of forward secrecy: a peer's ratchet state gives away the key of no envelope it has opened,
    of any epoch. (The keys of those it has yet to open are in its receive chain and buffer, by design.)
  */
  lemma OpenedStaySecret(w: World, evs: seq<Event>, origin: Key, role: Role, k: nat)
    requires Synced(w) && Traceable(w, origin) && BothHang(w) && Admissible(w, evs)
    requires k < |Get(Run(w, evs), role).side.decrypted|
    ensures var r, s := Get(Run(w, evs), role).side, Get(Run(w, evs), Other(role)).side;
      && r.decrypted[k] < |s.sent|
      && !Derivable(Captured(r.ratchet), {r.ratchet.pk}, s.sent[r.decrypted[k]].envelope.c.key)
  {
    RunKeepsTrace(w, evs, origin);
    RunKeepsHang(w, evs, origin);
    var r, s := Get(Run(w, evs), role).side, Get(Run(w, evs), Other(role)).side;
    OpenedKeyUnderivable(s, r, Run(w, evs).nextKey, origin, k);
  }
}
