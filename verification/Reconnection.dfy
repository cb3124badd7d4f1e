/**
  A reconnect in dh mode against no reconnect at all: the run that goes on over the new transport is the run
  in which everything still under way was lost
  (src/core/services/SessionManager.js:624-734, 930-935, 976).
*/
module Reconnection {
  import opened Options
  import opened Keys
  import opened DoubleRatchet
  import opened TwoParty

  /** `b` is `a` without some of its oldest nonces, all of them from `gone`. */
  ghost predicate Forgot(a: seq<Nonce>, b: seq<Nonce>, gone: set<Nonce>) {
    && |b| <= |a|
    && a[|a| - |b|..] == b
    && forall i :: 0 <= i < |a| - |b| ==> a[i] in gone
  }

  ghost predicate ForgotNonces(a: Ratchet, b: Ratchet, gone: set<Nonce>) {
    a.(nonces := b.nonces) == b && Forgot(a.nonces, b.nonces, gone)
  }

  /** The same peer, but for what a reconnect resets. */
  ghost predicate SameButReset(a: Peer, b: Peer) {
    a.(side := a.side.(ratchet := a.side.ratchet.(nonces := b.side.ratchet.nonces), boundary := b.side.boundary)) == b
  }

  /**
    The worlds with (`b`) and without (`a`) a reconnect of `who` at the same point of a run. The one with it
    ignores everything below position `from`; `gone` are the nonces it has forgotten.
  */
  ghost predicate Parallel(a: World, b: World, who: Role, from: nat, gone: set<Nonce>) {
    && Get(a, Other(who)) == Get(b, Other(who)) && a.nextKey == b.nextKey && a.shared == b.shared
    && SameButReset(Get(a, who), Get(b, who))
    && Forgot(Get(a, who).side.ratchet.nonces, Get(b, who).side.ratchet.nonces, gone)
    && from <= |Get(a, Other(who)).side.sent|
    && Get(b, who).side.boundary == (if Get(a, who).side.boundary < from then from else Get(a, who).side.boundary)
    && Unused(Get(b, Other(who)).side.sent, Get(b, who).side.boundary, gone)
  }

  /** No envelope from position `boundary` on carries a nonce from `gone`. */
  ghost predicate Unused(sent: seq<Sent>, boundary: nat, gone: set<Nonce>) {
    forall i :: boundary <= i < |sent| ==>
      sent[i].envelope.c.nonce.Some? ==> sent[i].envelope.c.nonce.value !in gone
  }

  ghost predicate NewNonce(ev: Event, from: Role, gone: set<Nonce>) {
    (ev.SendChat? || ev.SendControl?) && ev.from == from ==> ev.nonce !in gone
  }

  ghost predicate NewNonces(evs: seq<Event>, from: Role, gone: set<Nonce>) {
    forall i :: 0 <= i < |evs| ==> NewNonce(evs[i], from, gone)
  }

  /** The nonce check comes out the same, and what is forgotten stays forgotten. */
  lemma NoteKeepsForgot(a: Ratchet, b: Ratchet, c: Ciphertext, gone: set<Nonce>)
    requires ForgotNonces(a, b, gone) && (c.nonce.Some? ==> c.nonce.value !in gone)
    ensures IsReplay(a, c) <==> IsReplay(b, c)
    ensures ForgotNonces(NoteNonce(a, c), NoteNonce(b, c), gone)
  {
  }

  /** Decryption looks at the nonces only for the replay check. */
  lemma DecryptKeepsForgot(a: Ratchet, b: Ratchet, e: Envelope, newKey: KeyId, gone: set<Nonce>)
    requires ForgotNonces(a, b, gone) && (e.c.nonce.Some? ==> e.c.nonce.value !in gone)
    ensures ForgotNonces(Decrypt(a, e, newKey).0, Decrypt(b, e, newKey).0, gone)
    ensures Decrypt(a, e, newKey).1 == Decrypt(b, e, newKey).1
  {
    NoteKeepsForgot(a, b, e.c, gone);
    if !IsReplay(a, e.c) {
      var a1, b1 := NoteNonce(a, e.c), NoteNonce(b, e.c);
      var a2, b2 := Synchronise(a1, e.pk, newKey), Synchronise(b1, e.pk, newKey);
      assert b2 == a2.(nonces := b1.nonces) && a2.nonces == a1.nonces;
    }
  }

  lemma HearKeepsParallel(a: Peer, b: Peer, e: Envelope, at: nat, newKey: KeyId, gone: set<Nonce>)
    requires SameButReset(a, b) && Forgot(a.side.ratchet.nonces, b.side.ratchet.nonces, gone)
    requires e.c.nonce.Some? ==> e.c.nonce.value !in gone
    ensures var a', b' := Hear(a, e, at, newKey), Hear(b, e, at, newKey);
      && SameButReset(a', b') && Forgot(a'.side.ratchet.nonces, b'.side.ratchet.nonces, gone)
      && a'.side.boundary == a.side.boundary && b'.side.boundary == b.side.boundary
  {
    DecryptKeepsForgot(a.side.ratchet, b.side.ratchet, e, newKey, gone);
  }

  /** The event delivers nothing to `who` that was under way before position `from`. */
  predicate Later(ev: Event, who: Role, from: nat) {
    ev.Deliver? && ev.to == who ==> from <= ev.at
  }

  ghost predicate AllLater(evs: seq<Event>, who: Role, from: nat) {
    forall i :: 0 <= i < |evs| ==> Later(evs[i], who, from)
  }

  /**
    An event is possible after the reconnect exactly if it is possible without, and no late delivery; the
    results are equal.
  */
  lemma NextKeepsParallel(a: World, b: World, who: Role, from: nat, gone: set<Nonce>, ev: Event)
    requires Parallel(a, b, who, from, gone) && NewNonce(ev, Other(who), gone)
    ensures Enabled(b, ev) <==> Enabled(a, ev) && Later(ev, who, from)
    ensures Enabled(b, ev) ==> Parallel(Next(a, ev), Next(b, ev), who, from, gone)
    ensures Enabled(b, ev) && ev.Deliver? ==> Result(a, ev.to, ev.at) == Result(b, ev.to, ev.at)
  {
    match ev
    case Deliver(to, at) =>
      if Enabled(b, ev) {
        DeliverKeepsParallel(a, b, who, from, gone, to, at);
      }
    case Reconnect(again) => RelinkKeepsParallel(a, b, who, from, gone, again);
    case _ => SendKeepsParallel(a, b, who, from, gone, ev);
  }

  lemma RelinkKeepsParallel(a: World, b: World, who: Role, from: nat, gone: set<Nonce>, again: Role)
    requires Parallel(a, b, who, from, gone)
    ensures Parallel(Next(a, Reconnect(again)), Next(b, Reconnect(again)), who, from, gone)
  {
  }

  lemma SendKeepsParallel(a: World, b: World, who: Role, from: nat, gone: set<Nonce>, ev: Event)
    requires Parallel(a, b, who, from, gone) && (ev.SendChat? || ev.SendControl?) && NewNonce(ev, Other(who), gone)
    ensures Parallel(Next(a, ev), Next(b, ev), who, from, gone)
  {
  }

  lemma DeliverKeepsParallel(a: World, b: World, who: Role, from: nat, gone: set<Nonce>, to: Role, at: nat)
    requires Parallel(a, b, who, from, gone) && Enabled(b, Deliver(to, at)) && Enabled(a, Deliver(to, at))
    ensures Parallel(Next(a, Deliver(to, at)), Next(b, Deliver(to, at)), who, from, gone)
    ensures Result(a, to, at) == Result(b, to, at)
  {
    var e := Get(b, Other(to)).side.sent[at].envelope;
    if to == who {
      HearKeepsParallel(Get(a, who), Get(b, who), e, at, b.nextKey, gone);
      DecryptKeepsForgot(Get(a, who).side.ratchet, Get(b, who).side.ratchet, e, b.nextKey, gone);
    }
  }

  /** What the decrypt calls of a run return, in order. */
  ghost function Results(w: World, evs: seq<Event>): seq<Outcome>
    requires Admissible(w, evs)
    decreases |evs|
  {
    if evs == [] then []
    else (if evs[0].Deliver? then [Result(w, evs[0].to, evs[0].at)] else []) + Results(Next(w, evs[0]), evs[1..])
  }

  lemma {:induction false} RunKeepsParallel(a: World, b: World, who: Role, from: nat, gone: set<Nonce>, evs: seq<Event>)
    requires Parallel(a, b, who, from, gone) && NewNonces(evs, Other(who), gone)
    ensures Admissible(b, evs) <==> Admissible(a, evs) && AllLater(evs, who, from)
    ensures Admissible(b, evs) ==> Parallel(Run(a, evs), Run(b, evs), who, from, gone)
    ensures Admissible(b, evs) ==> Results(a, evs) == Results(b, evs)
    decreases |evs|
  {
    if evs != [] {
      assert NewNonce(evs[0], Other(who), gone);
      NextKeepsParallel(a, b, who, from, gone, evs[0]);
      if Enabled(b, evs[0]) {
        RunKeepsParallel(Next(a, evs[0]), Next(b, evs[0]), who, from, gone, evs[1..]);
      }
      assert AllLater(evs, who, from) <==> Later(evs[0], who, from) && AllLater(evs[1..], who, from);
    }
  }

  /** What a peer ignores has been sent. */
  ghost predicate BoundariesPassed(w: World) {
    && w.host.side.boundary <= |w.guest.side.sent|
    && w.guest.side.boundary <= |w.host.side.sent|
  }

  lemma {:induction false} RunKeepsBoundaries(w: World, evs: seq<Event>)
    requires BoundariesPassed(w) && Admissible(w, evs)
    ensures BoundariesPassed(Run(w, evs))
    decreases |evs|
  {
    if evs != [] {
      RunKeepsBoundaries(Next(w, evs[0]), evs[1..]);
    }
  }

  /** The same two peers, but for what reconnects reset. */
  ghost predicate SameSession(v: World, w: World) {
    SameButReset(v.host, w.host) && SameButReset(v.guest, w.guest) && v.nextKey == w.nextKey
  }

  /**
    A reconnect is exactly a loss of what was under way: the runs possible after it are those possible without
    it that deliver nothing sent before, every call returns the same in both, and both peers end in the same
    state but for the nonce set (and the mark of the replaced transport). The other peer must not reuse a nonce
    that was still in the set: without the reconnect that envelope would have been rejected.
  */
  lemma ReconnectIsLoss(w: World, who: Role, evs: seq<Event>)
    requires BoundariesPassed(w)
    requires NewNonces(evs, Other(who), set x | x in Get(w, who).side.ratchet.nonces)
    ensures Admissible(Next(w, Reconnect(who)), evs) <==>
            Admissible(w, evs) && AllLater(evs, who, |Get(w, Other(who)).side.sent|)
    ensures Admissible(Next(w, Reconnect(who)), evs) ==>
      && Results(Next(w, Reconnect(who)), evs) == Results(w, evs)
      && SameSession(Run(w, evs), Run(Next(w, Reconnect(who)), evs))
  {
    var gone := set x | x in Get(w, who).side.ratchet.nonces;
    var from := |Get(w, Other(who)).side.sent|;
    assert Parallel(w, Next(w, Reconnect(who)), who, from, gone);
    RunKeepsParallel(w, Next(w, Reconnect(who)), who, from, gone, evs);
  }

  // ---- Any number of reconnects ----

  function Erased(evs: seq<Event>): seq<Event>
    decreases |evs|
  {
    if evs == [] then []
    else (if evs[0].Reconnect? then [] else [evs[0]]) + Erased(evs[1..])
  }

  /** `from` has not used the nonce, and the other peer does not remember it. */
  ghost predicate Free(w: World, from: Role, nonce: Nonce) {
    && (forall i :: 0 <= i < |Get(w, from).side.sent| ==> Get(w, from).side.sent[i].envelope.c.nonce != Some(nonce))
    && nonce !in Get(w, Other(from)).side.ratchet.nonces
  }

  predicate Sends(ev: Event) {
    ev.SendChat? || ev.SendControl?
  }

  /** No sender uses a nonce twice. */
  ghost predicate OwnNonces(w: World, evs: seq<Event>) {
    && (forall i :: 0 <= i < |evs| && Sends(evs[i]) ==> Free(w, evs[i].from, evs[i].nonce))
    && (forall i, j :: 0 <= i < j < |evs| && Sends(evs[i]) && Sends(evs[j]) && evs[i].from == evs[j].from ==>
          evs[i].nonce != evs[j].nonce)
  }

  lemma DecryptNonces(r: Ratchet, e: Envelope, newKey: KeyId, x: Nonce)
    requires x in Decrypt(r, e, newKey).0.nonces
    ensures x in r.nonces || e.c.nonce == Some(x)
  {
  }

  lemma FreeStays(w: World, ev: Event, from: Role, x: Nonce)
    requires Enabled(w, ev) && Free(w, from, x) && (Sends(ev) && ev.from == from ==> ev.nonce != x)
    ensures Free(Next(w, ev), from, x)
  {
    match ev
    case Deliver(to, at) =>
      var e := Get(w, Other(to)).side.sent[at].envelope;
      if to == Other(from) && x in Get(Next(w, ev), to).side.ratchet.nonces {
        DecryptNonces(Get(w, to).side.ratchet, e, w.nextKey, x);
      }
    case Reconnect(_) =>
    case _ => var plain := SendEmits(w, ev);
  }

  lemma OwnNoncesStay(w: World, evs: seq<Event>)
    requires evs != [] && Enabled(w, evs[0]) && OwnNonces(w, evs)
    ensures OwnNonces(Next(w, evs[0]), evs[1..])
  {
    forall i | 0 <= i < |evs[1..]| && Sends(evs[1..][i])
      ensures Free(Next(w, evs[0]), evs[1..][i].from, evs[1..][i].nonce)
    {
      assert evs[1..][i] == evs[i + 1];
      FreeStays(w, evs[0], evs[i + 1].from, evs[i + 1].nonce);
    }
  }

  lemma OwnNoncesAreNew(w: World, evs: seq<Event>, who: Role)
    requires OwnNonces(w, evs)
    ensures NewNonces(evs, Other(who), set x | x in Get(w, who).side.ratchet.nonces)
  {
  }

  /**
    Reconnects never matter, however many there are and of whichever peer: with all of them erased the run is
    still possible, every decrypt call returns the same, and both peers end in the same state.
  */
  lemma {:induction false} ReconnectsDoNotMatter(w: World, evs: seq<Event>)
    requires BoundariesPassed(w) && Admissible(w, evs) && OwnNonces(w, evs)
    ensures Admissible(w, Erased(evs))
    ensures Results(w, Erased(evs)) == Results(w, evs)
    ensures SameSession(Run(w, Erased(evs)), Run(w, evs))
    decreases |evs|
  {
    if evs != [] {
      var ev, rest := evs[0], evs[1..];
      if ev.Reconnect? {
        assert OwnNonces(w, rest) by { OwnNoncesTail(w, evs); }
        OwnNoncesAreNew(w, rest, ev.who);
        ReconnectIsLoss(w, ev.who, rest);
        ReconnectsDoNotMatter(w, rest);
        assert Erased(evs) == Erased(rest) && Results(w, evs) == Results(Next(w, ev), rest);
      } else {
        OwnNoncesStay(w, evs);
        ReconnectsDoNotMatter(Next(w, ev), rest);
        assert Erased(evs) == [ev] + Erased(rest) && Erased(evs)[1..] == Erased(rest);
      }
    }
  }

  lemma OwnNoncesTail(w: World, evs: seq<Event>)
    requires evs != [] && OwnNonces(w, evs)
    ensures OwnNonces(w, evs[1..])
  {
  }
}
