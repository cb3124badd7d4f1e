/**
  Where every key of a run comes from: each root is a step of the one before, each chain hangs off a root
  and is named by the newest key pair that went into it. From this it follows that no encryption key is
  ever used twice (src/core/services/SessionManager.js:1031-1063).
*/
module Lineage {
  import opened Keys
  import opened Payload
  import opened DoubleRatchet
  import opened TwoParty

  /** The root agreed in the handshake, from which a root was stepped. */
  function Origin(root: Key): Key {
    if root.RootOf? then Origin(root.root) else root
  }

  function RootDepth(root: Key): nat {
    if root.RootOf? then 1 + RootDepth(root.root) else 0
  }

  /** `r` is one of the roots that `root` was stepped from. */
  ghost predicate Ancestor(r: Key, root: Key) {
    root.RootOf? && (r == root.root || Ancestor(r, root.root))
  }

  ghost predicate IsRoot(root: Key) {
    (root.RootOf? && root.dh.Dh? && IsRoot(root.root)) || (root.InitRoot? && root.dh.Dh?)
  }

  /** A chain start that belongs to `root` or to a root before it. */
  ghost predicate HangsOff(base: Key, root: Key) {
    || (base.ChainOf? && base.dh.Dh? && Ancestor(base.root, root))
    || (base.InitChain? && base.dh.Dh? && Origin(root) == InitRoot(base.shared, base.dh))
  }

  /**
    The key pair of the peer that sends on a chain. After a step it is the newer of the two; of the two
    initial chains the host's uses the older pair and the guest's the newer one.
  */
  function Owner(base: Key): KeyId {
    if base.ChainOf? && base.dh.Dh? then base.dh.hi
    else if base.InitChain? && base.dh.Dh? then (if base.dir == HostToGuest then base.dh.lo else base.dh.hi)
    else 0
  }

  /** The chain a peer sends on was made in the same step as its root. */
  ghost predicate Twins(send: Key, root: Key) {
    || (root.RootOf? && send == ChainOf(root.root, root.dh))
    || (root.InitRoot? && send.InitChain? && InitRoot(send.shared, send.dh) == root)
  }

  ghost predicate Traced(r: Ratchet, e: Envelope) {
    && e.c.key.MessageKey?
    && var chain := e.c.key.chain;
      && Depth(chain) == e.n
      && Owner(Base(chain)) == e.pk
      && HangsOff(Base(chain), r.root)
  }

  ghost predicate RatchetTraced(r: Ratchet) {
    && IsRoot(r.root)
    && Twins(Base(r.send), r.root) && Base(r.send).dh.Dh?
    && HangsOff(Base(r.recv), r.root)
    && Owner(Base(r.send)) == r.pk && Owner(Base(r.recv)) == r.last
  }

  ghost predicate IsOrigin(origin: Key) {
    origin.InitRoot? && origin.dh.Dh?
  }

  /** The handshake key was agreed with key pairs that are not ratchet keys. */
  ghost predicate Unrelated(shared: Key, keys: set<KeyId>, nextKey: KeyId) {
    || (shared.Dh? && shared.lo !in keys && shared.hi !in keys && shared.lo < nextKey && shared.hi < nextKey)
    || (shared.Kem? && shared.opener !in keys && shared.opener < nextKey)
  }

  /** `s` is one side of a run that began with the root `origin`; `other` is its peer. */
  ghost predicate Descends(s: Side, other: Side, nextKey: KeyId, origin: Key) {
    && IsOrigin(origin) && Unrelated(origin.shared, s.keys + other.keys, nextKey)
    && origin.dh.lo in s.keys + other.keys && origin.dh.hi in s.keys + other.keys
    && RatchetTraced(s.ratchet) && Origin(s.ratchet.root) == origin
    && s.ratchet.pk in s.keys && s.ratchet.last in other.keys
    && s.keys !! other.keys
    && (forall k :: k in s.keys + other.keys ==> k < nextKey)
    && (forall i :: 0 <= i < |s.sent| ==>
          s.sent[i].envelope.pk in s.keys && Traced(s.ratchet, s.sent[i].envelope))
    && (s.ratchet.pk == origin.dh.lo || s.ratchet.pk == origin.dh.hi ==> s.ratchet.root.InitRoot?)
  }

  ghost predicate Traceable(w: World, origin: Key) {
    && Descends(w.host.side, w.guest.side, w.nextKey, origin)
    && Descends(w.guest.side, w.host.side, w.nextKey, origin)
  }

  // ---- Every event keeps it ----

  lemma EmitKeepsLineage(s: Side, other: Side, nextKey: KeyId, origin: Key, plain: Payload, nonce: Nonce, wired: bool)
    requires Descends(s, other, nextKey, origin) && RatchetOk(s.ratchet)
    ensures Descends(Emit(s, plain, nonce, wired), other, nextKey, origin)
  {
  }

  lemma TracedLater(r: Ratchet, remote: KeyId, newKey: KeyId, e: Envelope)
    requires Traced(r, e)
    ensures Traced(DhStep(r, remote, newKey), e)
  {
  }

  lemma StepTraced(r: Ratchet, remote: KeyId, newKey: KeyId)
    requires RatchetTraced(r) && r.pk < remote < newKey
    ensures RatchetTraced(DhStep(r, remote, newKey))
    ensures Origin(DhStep(r, remote, newKey).root) == Origin(r.root)
  {
  }

  lemma StepKeepsLineage(s: Side, other: Side, remote: KeyId, nextKey: KeyId, origin: Key)
    requires Descends(s, other, nextKey, origin)
    requires remote in other.keys && s.ratchet.pk < remote
    ensures Descends(s.(ratchet := DhStep(s.ratchet, remote, nextKey), keys := s.keys + {nextKey}),
                    other, nextKey + 1, origin)
  {
    StepTraced(s.ratchet, remote, nextKey);
    forall i | 0 <= i < |s.sent|
      ensures Traced(DhStep(s.ratchet, remote, nextKey), s.sent[i].envelope)
    {
      TracedLater(s.ratchet, remote, nextKey, s.sent[i].envelope);
    }
  }

  lemma ReceivingKeepsLineage(s: Side, other: Side, x: Ratchet, nextKey: KeyId, origin: Key)
    requires Descends(s, other, nextKey, origin) && OnlyReceived(s.ratchet, x)
    ensures Descends(s.(ratchet := x), other, nextKey, origin)
  {
  }

  /** The other side of a delivery sees only a new key pair. */
  lemma OtherKeepsLineage(s: Side, other: Side, other': Side, nextKey: KeyId, origin: Key)
    requires Descends(s, other, nextKey, origin)
    requires other.keys <= other'.keys <= other.keys + {nextKey}
    ensures Descends(s, other', nextKey + 1, origin)
  {
  }

  /** A delivery, to whichever peer. */
  lemma ArriveKeepsLineage(s: Side, other: Side, e: Envelope, at: nat, nextKey: KeyId, origin: Key)
    requires Descends(s, other, nextKey, origin) && Descends(other, s, nextKey, origin) && RatchetOk(s.ratchet)
    requires e.pk in other.keys
    requires e.pk == s.ratchet.last || s.ratchet.pk < e.pk
    ensures Descends(Arrive(s, e, at, nextKey), other, nextKey + 1, origin)
    ensures Descends(other, Arrive(s, e, at, nextKey), nextKey + 1, origin)
  {
    var s' := Arrive(s, e, at, nextKey);
    OtherKeepsLineage(other, s, s', nextKey, origin);
    if !IsReplay(s.ratchet, e.c) {
      var r1 := NoteNonce(s.ratchet, e.c);
      ReceivingKeepsLineage(s, other, r1, nextKey, origin);
      var s2 := s.(ratchet := r1);
      SynchroniseOk(r1, e.pk, nextKey);
      if e.pk != r1.last {
        StepKeepsLineage(s2, other, e.pk, nextKey, origin);
        s2 := s2.(ratchet := DhStep(r1, e.pk, nextKey), keys := s.keys + {nextKey});
      }
      TakeKeyOk(s2.ratchet, e.n);
      ReceivingKeepsLineage(s2, other, s'.ratchet, if e.pk != r1.last then nextKey + 1 else nextKey, origin);
    }
  }

  lemma NextKeepsTrace(w: World, ev: Event, origin: Key)
    requires Synced(w) && Traceable(w, origin) && Enabled(w, ev)
    ensures Traceable(Next(w, ev), origin)
  {
    match ev
    case Deliver(to, at) => DeliverKeepsTrace(w, to, at, origin);
    case Reconnect(who) =>
      var s, t := Get(w, who).side, Get(w, Other(who)).side;
      ReceivingKeepsLineage(s, t, s.ratchet.(nonces := []), w.nextKey, origin);
    case _ => SendKeepsTrace(w, ev, origin);
  }

  lemma SendKeepsTrace(w: World, ev: Event, origin: Key)
    requires Synced(w) && Traceable(w, origin) && (ev.SendChat? || ev.SendControl?)
    ensures Traceable(Next(w, ev), origin)
  {
    var plain := SendEmits(w, ev);
    EmitKeepsLineage(Get(w, ev.from).side, Get(w, Other(ev.from)).side, w.nextKey, origin, plain, ev.nonce, ev.wired);
  }

  lemma DeliverKeepsTrace(w: World, to: Role, at: nat, origin: Key)
    requires Synced(w) && Traceable(w, origin) && Enabled(w, Deliver(to, at))
    ensures Traceable(Next(w, Deliver(to, at)), origin)
  {
    var r, s := Get(w, to).side, Get(w, Other(to)).side;
    DeliveredKey(s, r, at);
    ArriveKeepsLineage(r, s, s.sent[at].envelope, at, w.nextKey, origin);
  }

  lemma {:induction false} RunKeepsTrace(w: World, evs: seq<Event>, origin: Key)
    requires Synced(w) && Traceable(w, origin) && Admissible(w, evs)
    ensures Synced(Run(w, evs)) && Traceable(Run(w, evs), origin)
    decreases |evs|
  {
    if evs != [] {
      NextKeepsSync(w, evs[0], Leader(w));
      NextKeepsTrace(w, evs[0], origin);
      RunKeepsTrace(Next(w, evs[0]), evs[1..], origin);
    }
  }

  // ---- Encryption keys are one-time ----

  lemma OwnKeysDiffer(s: Side, r: Side, i: nat, j: nat)
    requires Channel(s, r) && i < j < |s.sent|
    requires Traced(s.ratchet, s.sent[i].envelope) && Traced(s.ratchet, s.sent[j].envelope)
    ensures var e, f := s.sent[i].envelope, s.sent[j].envelope;
      (e.pk, e.n) != (f.pk, f.n) && e.c.key != f.c.key
  {
    assert Before(s.sent[i].envelope, s.sent[j].envelope);
  }

  /**
    Over a whole run, sends that failed included: no two envelopes of a peer share ratchet key and index,
    and no two envelopes at all, of either peer, were encrypted with the same message key.
  */
  lemma KeysAreOneTime(w: World, evs: seq<Event>, origin: Key, role: Role)
    requires Synced(w) && Traceable(w, origin) && Admissible(w, evs)
    ensures var now := Run(w, evs);
      var mine, theirs := Get(now, role).side.sent, Get(now, Other(role)).side.sent;
      && (forall i, j :: 0 <= i < j < |mine| ==>
            && (mine[i].envelope.pk, mine[i].envelope.n) != (mine[j].envelope.pk, mine[j].envelope.n)
            && mine[i].envelope.c.key != mine[j].envelope.c.key)
      && (forall i, j :: 0 <= i < |mine| && 0 <= j < |theirs| ==> mine[i].envelope.c.key != theirs[j].envelope.c.key)
  {
    RunKeepsTrace(w, evs, origin);
    var now := Run(w, evs);
    var s, t := Get(now, role).side, Get(now, Other(role)).side;
    forall i, j | 0 <= i < j < |s.sent|
      ensures (s.sent[i].envelope.pk, s.sent[i].envelope.n) != (s.sent[j].envelope.pk, s.sent[j].envelope.n)
      ensures s.sent[i].envelope.c.key != s.sent[j].envelope.c.key
    {
      OwnKeysDiffer(s, t, i, j);
    }
    forall i, j | 0 <= i < |s.sent| && 0 <= j < |t.sent|
      ensures s.sent[i].envelope.c.key != t.sent[j].envelope.c.key
    {
      assert Traced(s.ratchet, s.sent[i].envelope) && Traced(t.ratchet, t.sent[j].envelope);
    }
  }
}
