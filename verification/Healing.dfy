/**
  Post-compromise security: what a captured state is still worth after the next DH steps
  (src/core/services/SessionManager.js:1018-1051).
*/
module Healing {
  import opened Keys
  import opened Payload
  import opened DoubleRatchet
  import opened TwoParty
  import opened Lineage
  import opened Secrecy

  /** A root deeper than the captured one, and any chain hanging off the captured root or a deeper one, is new. */
  lemma DeeperIsNew(r: Ratchet, k: Key)
    requires RatchetOk(r) && RatchetTraced(r)
    requires (k.RootOf? && RootDepth(k) > RootDepth(r.root)) ||
             (Base(k).ChainOf? && RootDepth(Base(k).root) >= RootDepth(r.root)) ||
             (k.MessageKey? && Base(k.chain).ChainOf? && RootDepth(Base(k.chain).root) >= RootDepth(r.root))
    ensures k !in Captured(r)
  {
    if k in Captured(r) {
      CapturedKinds(r, k);
      StateChain(r.send, r.root);
      StateChain(r.recv, r.root);
      if Base(r.recv).ChainOf? {
        AncestorIsShallower(Base(r.recv).root, r.root);
      }
      assert false;
    }
  }

  /** If a new chain start is out of reach, so are all its message keys. */
  lemma NewChainUnderivable(r: Ratchet, privs: set<KeyId>, base: Key, n: nat)
    requires RatchetOk(r) && RatchetTraced(r)
    requires base.ChainOf? && RootDepth(base.root) >= RootDepth(r.root)
    requires !Derivable(Captured(r), privs, base)
    ensures !Derivable(Captured(r), privs, ChainAt(base, n))
    ensures !Derivable(Captured(r), privs, MessageKeyAt(base, n))
  {
    forall j | 0 <= j <= n
      ensures ChainAt(base, j) !in Captured(r)
    {
      BaseOfChainAt(base, j);
      DeeperIsNew(r, ChainAt(base, j));
    }
    ChainUnderivable(Captured(r), privs, base, n);
    BaseOfChainAt(base, n);
    DeeperIsNew(r, MessageKeyAt(base, n));
  }

  /**
    One DH step after everything was captured. The new root and the new send chain heal exactly when neither
    the remote key pair nor the freshly generated one is compromised. The new receive chain does not heal:
    it comes from the captured root and the captured private key.
  */
  lemma StepHeals(r: Ratchet, privs: set<KeyId>, remote: KeyId, newKey: KeyId)
    requires RatchetOk(r) && RatchetTraced(r) && r.pk in privs
    ensures var x := DhStep(r, remote, newKey);
      && (Derivable(Captured(r), privs, x.root) <==> remote in privs || newKey in privs)
      && (Derivable(Captured(r), privs, x.send) <==> remote in privs || newKey in privs)
      && Derivable(Captured(r), privs, x.recv)
  {
    var x := DhStep(r, remote, newKey);
    var sent := DhOut(newKey, remote);
    SecretNotCaptured(r, sent);
    DeeperIsNew(r, x.root);
    DeeperIsNew(r, x.send);
    assert Derivable(Captured(r), privs, r.root) && Derivable(Captured(r), privs, DhOut(r.pk, remote));
    assert Derivable(Captured(r), privs, RootOf(r.root, DhOut(r.pk, remote)));
  }

  /** Chain keys alone are worth nothing after a step: all three new secrets are out of reach. */
  lemma ChainKeysAloneAreWorthNothing(r: Ratchet, remote: KeyId, newKey: KeyId)
    requires RatchetOk(r) && RatchetTraced(r)
    ensures var x := DhStep(r, remote, newKey);
      && !Derivable({r.send, r.recv}, {}, x.root)
      && !Derivable({r.send, r.recv}, {}, x.send)
      && !Derivable({r.send, r.recv}, {}, x.recv)
  {
    var x := DhStep(r, remote, newKey);
    DeeperIsNew(r, x.root);
    DeeperIsNew(r, x.send);
    DeeperIsNew(r, x.recv);
    SecretNotCaptured(r, DhOut(newKey, remote));
    SecretNotCaptured(r, DhOut(r.pk, remote));
  }

  // ---- Whole runs after a capture ----

  /** Two roots or more beyond the captured one. */
  ghost predicate Beyond(captured: Ratchet, root: Key) {
    RootDepth(root) >= RootDepth(captured.root) + 2
  }

  ghost predicate OutOfReach(captured: Ratchet, k: Key) {
    !Derivable(Captured(captured), {captured.pk}, k)
  }

  /** Everything a side made beyond the captured root is out of reach: its root, its send chain, its envelopes' keys. */
  ghost predicate SideHealed(captured: Ratchet, s: Side) {
    && (Beyond(captured, s.ratchet.root) ==>
          OutOfReach(captured, s.ratchet.root) && OutOfReach(captured, Base(s.ratchet.send)))
    && (forall i :: 0 <= i < |s.sent| && EpochBeyond(captured, s.sent[i].envelope) ==>
          OutOfReach(captured, s.sent[i].envelope.c.key))
  }

  /** The envelope was encrypted on a chain made together with a root beyond the captured one. */
  ghost predicate EpochBeyond(captured: Ratchet, e: Envelope) {
    && e.c.key.MessageKey?
    && Base(e.c.key.chain).ChainOf?
    && Beyond(captured, RootOf(Base(e.c.key.chain).root, Base(e.c.key.chain).dh))
  }

  /** The captured peer: still where it was, or already stepped beyond. */
  ghost predicate VictimMoved(captured: Ratchet, s: Side) {
    if s.ratchet.pk == captured.pk then s.ratchet.root == captured.root else Beyond(captured, s.ratchet.root)
  }

  ghost predicate Healed(captured: Ratchet, w: World, victim: Role) {
    && SideHealed(captured, w.host.side) && SideHealed(captured, w.guest.side)
    && VictimMoved(captured, Get(w, victim).side)
    && captured.pk in Get(w, victim).side.keys
  }

  lemma EmitKeepsHealed(captured: Ratchet, s: Side, plain: Payload, nonce: Nonce, wired: bool)
    requires RatchetOk(captured) && RatchetTraced(captured)
    requires SideHealed(captured, s) && RatchetOk(s.ratchet) && RatchetTraced(s.ratchet)
    ensures SideHealed(captured, Emit(s, plain, nonce, wired))
  {
    var s' := Emit(s, plain, nonce, wired);
    var base := Base(s.ratchet.send);
    ChainAtBase(s.ratchet.send);
    if s.ratchet.root.RootOf? && Beyond(captured, s.ratchet.root) {
      NewChainUnderivable(captured, {captured.pk}, base, s.ratchet.sendIdx);
    }
    assert forall i :: 0 <= i < |s.sent| ==> s'.sent[i] == s.sent[i];
  }

  lemma ReceivingKeepsHealed(captured: Ratchet, s: Side, s': Side)
    requires SideHealed(captured, s)
    requires s'.sent == s.sent && s'.ratchet.root == s.ratchet.root && s'.ratchet.send == s.ratchet.send
    ensures SideHealed(captured, s')
  {
  }

  /**
    The step of the peer that was behind. Its new root hangs off the leader's, so it is out of reach if that
    one is; and if the leader is only one root beyond the capture, the leader is not the captured peer, so
    the DH output of its key with the fresh one is unknown.
  */
  lemma StepKeepsHealed(captured: Ratchet, a: Side, b: Side, nextKey: KeyId)
    requires RatchetOk(captured) && RatchetTraced(captured)
    requires SideHealed(captured, a) && SideHealed(captured, b)
    requires Ahead(a.ratchet, b.ratchet)
    requires RootDepth(a.ratchet.root) == RootDepth(captured.root) + 1 ==> a.ratchet.pk != captured.pk
    requires nextKey != captured.pk
    ensures SideHealed(captured, b.(ratchet := DhStep(b.ratchet, a.ratchet.pk, nextKey)))
  {
    var x := DhStep(b.ratchet, a.ratchet.pk, nextKey);
    var sent := DhOut(nextKey, a.ratchet.pk);
    assert x.root == RootOf(a.ratchet.root, sent) && x.send == ChainOf(a.ratchet.root, sent);
    if Beyond(captured, x.root) {
      DeeperIsNew(captured, x.root);
      DeeperIsNew(captured, x.send);
      SecretNotCaptured(captured, sent);
    }
  }

  lemma ArriveKeepsHealed(captured: Ratchet, s: Side, r: Side, at: nat, nextKey: KeyId)
    requires RatchetOk(captured) && RatchetTraced(captured)
    requires SideHealed(captured, s) && SideHealed(captured, r)
    requires RatchetOk(r.ratchet) && at < |s.sent| && nextKey != captured.pk
    requires var e := s.sent[at].envelope;
      e.pk != r.ratchet.last ==>
        && e.pk == s.ratchet.pk && Ahead(s.ratchet, r.ratchet)
        && (RootDepth(s.ratchet.root) == RootDepth(captured.root) + 1 ==> s.ratchet.pk != captured.pk)
    ensures SideHealed(captured, Arrive(r, s.sent[at].envelope, at, nextKey))
  {
    var e := s.sent[at].envelope;
    var r' := Arrive(r, e, at, nextKey);
    if IsReplay(r.ratchet, e.c) || e.pk == r.ratchet.last {
      if !IsReplay(r.ratchet, e.c) {
        TakeKeyOk(NoteNonce(r.ratchet, e.c), e.n);
      }
      ReceivingKeepsHealed(captured, r, r');
    } else {
      var r1 := r.(ratchet := NoteNonce(r.ratchet, e.c));
      StepKeepsHealed(captured, s, r1, nextKey);
      var r2 := r1.(ratchet := DhStep(r1.ratchet, e.pk, nextKey));
      DhStepOk(r1.ratchet, e.pk, nextKey);
      TakeKeyOk(r2.ratchet, e.n);
      ReceivingKeepsHealed(captured, r2, r');
    }
  }

  lemma DeliverKeepsHealed(captured: Ratchet, w: World, victim: Role, origin: Key, to: Role, at: nat)
    requires RatchetOk(captured) && RatchetTraced(captured)
    requires Synced(w) && Traceable(w, origin) && Healed(captured, w, victim) && Enabled(w, Deliver(to, at))
    ensures Healed(captured, Next(w, Deliver(to, at)), victim)
  {
    var s, r := Get(w, Other(to)).side, Get(w, to).side;
    DeliveredKey(s, r, at);
    assert captured.pk < w.nextKey;
    var e := s.sent[at].envelope;
    ArriveKeepsHealed(captured, s, r, at, w.nextKey);
    ArriveMoves(captured, w, victim, to, at);
  }

  /** Whatever arrives, the captured peer stays where it was or takes a whole DH step. */
  lemma ArriveMoves(captured: Ratchet, w: World, victim: Role, to: Role, at: nat)
    requires Synced(w) && Enabled(w, Deliver(to, at)) && captured.pk < w.nextKey
    requires VictimMoved(captured, Get(w, victim).side)
    ensures VictimMoved(captured, Get(Next(w, Deliver(to, at)), victim).side)
  {
    if to == victim {
      DecryptMoves(Get(w, to).side.ratchet, Get(w, Other(to)).side.sent[at].envelope, w.nextKey);
    }
  }

  lemma DecryptMoves(r: Ratchet, e: Envelope, newKey: KeyId)
    ensures var x := Decrypt(r, e, newKey).0;
      || (x.pk == r.pk && x.root == r.root)
      || (x.pk == newKey && RootDepth(x.root) == RootDepth(r.root) + 2)
  {
  }

  lemma SendKeepsHealed(captured: Ratchet, w: World, victim: Role, origin: Key, ev: Event)
    requires RatchetOk(captured) && RatchetTraced(captured)
    requires Synced(w) && Traceable(w, origin) && Healed(captured, w, victim) && (ev.SendChat? || ev.SendControl?)
    ensures Healed(captured, Next(w, ev), victim)
  {
    var plain := SendEmits(w, ev);
    EmitKeepsHealed(captured, Get(w, ev.from).side, plain, ev.nonce, ev.wired);
  }

  lemma NextKeepsHealed(captured: Ratchet, w: World, victim: Role, origin: Key, ev: Event)
    requires RatchetOk(captured) && RatchetTraced(captured)
    requires Synced(w) && Traceable(w, origin) && Healed(captured, w, victim) && Enabled(w, ev)
    ensures Healed(captured, Next(w, ev), victim)
  {
    match ev
    case Deliver(to, at) => DeliverKeepsHealed(captured, w, victim, origin, to, at);
    case Reconnect(who) =>
      ReceivingKeepsHealed(captured, Get(w, who).side, Get(Next(w, ev), who).side);
    case _ => SendKeepsHealed(captured, w, victim, origin, ev);
  }

  lemma {:induction false} RunKeepsHealed(captured: Ratchet, w: World, victim: Role, origin: Key, evs: seq<Event>)
    requires RatchetOk(captured) && RatchetTraced(captured)
    requires Synced(w) && Traceable(w, origin) && Healed(captured, w, victim) && Admissible(w, evs)
    ensures Healed(captured, Run(w, evs), victim)
    decreases |evs|
  {
    if evs != [] {
      NextKeepsSync(w, evs[0], Leader(w));
      NextKeepsTrace(w, evs[0], origin);
      NextKeepsHealed(captured, w, victim, origin, evs[0]);
      RunKeepsHealed(captured, Next(w, evs[0]), victim, origin, evs[1..]);
    }
  }

  /** At the moment of the capture nothing is two roots beyond it, so nothing has been claimed yet. */
  lemma NothingBeyondYet(w: World, victim: Role, origin: Key)
    requires Synced(w) && Traceable(w, origin)
    ensures Healed(Get(w, victim).side.ratchet, w, victim)
  {
    var captured := Get(w, victim).side.ratchet;
    forall role: Role, i | 0 <= i < |Get(w, role).side.sent|
      ensures !EpochBeyond(captured, Get(w, role).side.sent[i].envelope)
    {
      var s := Get(w, role).side;
      var e := s.sent[i].envelope;
      assert Traced(s.ratchet, e);
      if Base(e.c.key.chain).ChainOf? {
        AncestorIsShallower(Base(e.c.key.chain).root, s.ratchet.root);
      }
    }
  }

  /**
    Healing over every run: capture one peer's whole ratchet state at any moment, and let the run go on in
    any way. Once that peer has generated another ratchet key, its root and its send chain can no longer be
    derived, and neither can the key of any envelope, of either peer, encrypted in an epoch
    two roots or more past the captured one. (The chain of the very next root is the one StepHeals shows lost.)
  */
  lemma CompromiseHeals(w: World, victim: Role, origin: Key, evs: seq<Event>)
    requires Synced(w) && Traceable(w, origin) && Admissible(w, evs)
    ensures var captured, now := Get(w, victim).side.ratchet, Run(w, evs);
      && VictimHealed(captured, Get(now, victim).side)
      && EnvelopesHealed(captured, now.host.side) && EnvelopesHealed(captured, now.guest.side)
  {
    NothingBeyondYet(w, victim, origin);
    RunKeepsHealed(Get(w, victim).side.ratchet, w, victim, origin, evs);
    RunKeepsTrace(w, evs, origin);
    VictimHeals(Get(w, victim).side.ratchet, Run(w, evs), victim);
  }

  /** With a ratchet key of after the capture, the captured peer's root and send chain are out of reach. */
  ghost predicate VictimHealed(captured: Ratchet, s: Side) {
    s.ratchet.pk != captured.pk ==> OutOfReach(captured, s.ratchet.root) && OutOfReach(captured, s.ratchet.send)
  }

  /** So is the key of every envelope from two roots past the capture on. */
  ghost predicate EnvelopesHealed(captured: Ratchet, s: Side) {
    forall i :: 0 <= i < |s.sent| && EpochBeyond(captured, s.sent[i].envelope) ==>
      OutOfReach(captured, s.sent[i].envelope.c.key)
  }

  lemma VictimHeals(captured: Ratchet, now: World, victim: Role)
    requires RatchetOk(captured) && RatchetTraced(captured) && Healed(captured, now, victim)
    requires RatchetOk(Get(now, victim).side.ratchet) && RatchetTraced(Get(now, victim).side.ratchet)
    ensures VictimHealed(captured, Get(now, victim).side)
  {
    var r := Get(now, victim).side.ratchet;
    if r.pk != captured.pk {
      ChainAtBase(r.send);
      NewChainUnderivable(captured, {captured.pk}, Base(r.send), r.sendIdx);
    }
  }
}
