/**
  One receiving chain under any order, loss, duplication and forgery: the ratchet's index, skipped-key map and
  nonce set refine an ideal receiver that works on sets of indices, over whole sequences of envelopes
  (src/core/services/SessionManager.js, `_ratchetDecrypt`).
*/
module Receiver {
  import opened Keys
  import opened DoubleRatchet

  // ---- The ideal receiver ----

  /**
    `next` is the first index not passed yet. Of the passed ones, `open` were skipped and can still be asked
    for, `released` were handed out and `evicted` given up; `skipped` is all that was ever skipped, and `seen`
    every nonce ever accepted.
  */
  datatype Ideal = Ideal(
    next: nat, open: set<int>, released: set<int>, evicted: set<int>, skipped: set<int>, seen: seq<Nonce>)

  /** The start of an epoch: only the nonces are remembered. */
  function NewEpoch(seen: seq<Nonce>): Ideal {
    Ideal(0, {}, {}, {}, {}, seen)
  }

  function Span(lo: int, hi: int): (s: set<int>)
    ensures forall m :: m in s <==> lo <= m < hi
    decreases hi - lo
  {
    if lo >= hi then {} else Span(lo, hi - 1) + {hi - 1}
  }

  function Newer(s: set<int>, n: int): set<int> {
    set m | m in s && n < m
  }

  /** The indices with at least 200 newer ones standing beside them. */
  function TooOld(standing: set<int>): set<int> {
    set m | m in standing && |Newer(standing, m)| >= MAX_SKIPPED_KEYS
  }

  /** An index can be had if it stands open or lies at most 100 past the end. */
  predicate Grants(i: Ideal, n: int) {
    n in i.open || i.next <= n <= i.next + MAX_SKIP
  }

  function Ask(i: Ideal, n: int): Ideal {
    if !Grants(i, n) then i
    else if n in i.open then i.(open := i.open - {n}, released := i.released + {n})
    else
      var standing := i.open + Span(i.next, n);
      i.(next := n + 1, open := standing - TooOld(standing), released := i.released + {n},
         evicted := i.evicted + TooOld(standing), skipped := i.skipped + Span(i.next, n))
  }

  /** A nonce counts as used while it is among the last 500 accepted. */
  predicate Replayed(i: Ideal, c: Ciphertext) {
    c.nonce.Some? && c.nonce.value in Window(i.seen, MAX_NONCES)
  }

  function Saw(i: Ideal, c: Ciphertext): Ideal {
    if c.nonce.Some? then i.(seen := i.seen + [c.nonce.value]) else i
  }

  predicate Uses(i: Ideal, e: Envelope) {
    !Replayed(i, e.c) && Grants(i, e.n)
  }

  function Offer(i: Ideal, e: Envelope): Ideal {
    if Replayed(i, e.c) then i else Ask(Saw(i, e.c), e.n)
  }

  function OfferAll(i: Ideal, es: seq<Envelope>): Ideal
    decreases |es|
  {
    if es == [] then i else OfferAll(Offer(i, es[0]), es[1..])
  }

  /** The indices whose key the ideal receiver hands out, in order. */
  function HandedOut(i: Ideal, es: seq<Envelope>): seq<int>
    decreases |es|
  {
    if es == [] then []
    else (if Uses(i, es[0]) then [es[0].n] else []) + HandedOut(Offer(i, es[0]), es[1..])
  }

  ghost predicate Partition(released: set<int>, open: set<int>, evicted: set<int>, next: nat) {
    && (forall n :: n in released || n in open || n in evicted <==> 0 <= n < next)
    && released !! open && released !! evicted && open !! evicted
  }

  /**
    The passed indices are the disjoint union of released, open and evicted ones; at most 200 are open, all
    above every evicted one; and each evicted one has had 200 newer ones skipped.
  */
  ghost predicate Whole(i: Ideal) {
    && Partition(i.released, i.open, i.evicted, i.next)
    && |i.open| <= MAX_SKIPPED_KEYS
    && (forall n, m :: n in i.evicted && m in i.open ==> n < m)
    && i.open <= i.skipped && i.evicted <= i.skipped
    && (forall n :: n in i.skipped ==> 0 <= n < i.next)
    && (forall n :: n in i.evicted ==> |Newer(i.skipped, n)| >= MAX_SKIPPED_KEYS)
  }

  lemma SubsetSize(s: set<int>, t: set<int>)
    requires s <= t
    ensures |s| <= |t|
  {
    assert t == s + (t - s);
  }

  lemma NewerGrows(s: set<int>, t: set<int>, n: int)
    requires s <= t
    ensures |Newer(s, n)| <= |Newer(t, n)|
  {
    SubsetSize(Newer(s, n), Newer(t, n));
  }

  lemma {:induction false} HasSmallest(s: set<int>) returns (low: int)
    requires s != {}
    ensures low in s
    ensures forall m :: m in s ==> low <= m
    decreases |s|
  {
    assert exists x :: x in s by {
      assert (forall x :: x !in s) ==> s == {};
    }
    var x :| x in s;
    low := x;
    if s != {x} {
      assert s - {x} != {};
      var y := HasSmallest(s - {x});
      low := if x < y then x else y;
      assert forall m :: m in s ==> m == x || m in s - {x};
    }
  }

  /** What is not too old is at most 200, and newer than all that is. */
  lemma KeptIsNewest(standing: set<int>)
    ensures |standing - TooOld(standing)| <= MAX_SKIPPED_KEYS
    ensures forall n, m :: n in TooOld(standing) && m in standing - TooOld(standing) ==> n < m
  {
    var kept := standing - TooOld(standing);
    if kept != {} {
      var low := HasSmallest(kept);
      SubsetSize(kept - {low}, Newer(standing, low));
    }
    forall n, m | n in TooOld(standing) && m in kept
      ensures n < m
    {
      if m < n {
        SubsetSize(Newer(standing, n), Newer(standing, m));
      }
    }
  }

  lemma AskKeepsWhole(i: Ideal, n: int)
    requires Whole(i)
    ensures Whole(Ask(i, n))
  {
    if n in i.open {
      SubsetSize(i.open - {n}, i.open);
    } else if i.next <= n <= i.next + MAX_SKIP {
      PassKeepsWhole(i, n);
    }
  }

  lemma PassKeepsWhole(i: Ideal, n: int)
    requires Whole(i) && i.next <= n <= i.next + MAX_SKIP
    ensures Whole(Ask(i, n))
  {
    KeptIsNewest(i.open + Span(i.next, n));
    Repartition(i, n, TooOld(i.open + Span(i.next, n)));
    PassEvictsOld(i, n);
  }

  /** Passing up to `n`, which is handed out, with `gone` given up of what stands open then. */
  lemma Repartition(i: Ideal, n: int, gone: set<int>)
    requires Partition(i.released, i.open, i.evicted, i.next) && i.next <= n && gone <= i.open + Span(i.next, n)
    ensures Partition(i.released + {n}, i.open + Span(i.next, n) - gone, i.evicted + gone, n + 1)
  {
  }

  lemma PassEvictsOld(i: Ideal, n: int)
    requires Whole(i) && i.next <= n <= i.next + MAX_SKIP
    ensures var i' := Ask(i, n);
      && i'.open <= i'.skipped && i'.evicted <= i'.skipped
      && (forall m :: m in i'.skipped ==> 0 <= m < i'.next)
      && (forall m :: m in i'.evicted ==> |Newer(i'.skipped, m)| >= MAX_SKIPPED_KEYS)
  {
    var standing := i.open + Span(i.next, n);
    var i' := Ask(i, n);
    assert n !in i.open;
    assert standing <= i'.skipped;
    forall m | m in i'.evicted
      ensures |Newer(i'.skipped, m)| >= MAX_SKIPPED_KEYS
    {
      NewerGrows(if m in i.evicted then i.skipped else standing, i'.skipped, m);
    }
  }

  lemma {:induction false} OfferAllKeepsWhole(i: Ideal, es: seq<Envelope>)
    requires Whole(i)
    ensures Whole(OfferAll(i, es))
    decreases |es|
  {
    if es != [] {
      AskKeepsWhole(Saw(i, es[0].c), es[0].n);
      OfferAllKeepsWhole(Offer(i, es[0]), es[1..]);
    }
  }

  // ---- The ratchet refines it ----

  /** The ratchet's index, map and nonce set are those of the ideal receiver. */
  ghost predicate Mirrors(r: Ratchet, i: Ideal) {
    && RatchetOk(r)
    && r.recvIdx == i.next
    && (forall m :: m in i.open <==> Holds(r.skipped, m))
    && r.nonces == Window(i.seen, MAX_NONCES)
  }

  /** A call of `_ratchetDecrypt` that got as far as using a message key. */
  predicate UsedKey(out: Outcome) {
    out.Opened? || out.reason == BadCiphertext
  }

  function Indices(skipped: seq<Skipped>): set<int> {
    set k | 0 <= k < |skipped| :: skipped[k].n
  }

  lemma {:induction false} DistinctIndices(skipped: seq<Skipped>)
    requires forall j, k :: 0 <= j < k < |skipped| ==> skipped[j].n < skipped[k].n
    ensures |Indices(skipped)| == |skipped|
  {
    if skipped != [] {
      var most := skipped[..|skipped| - 1];
      DistinctIndices(most);
      assert Indices(skipped) == Indices(most) + {skipped[|skipped| - 1].n};
    }
  }

  lemma NewerCount(all: seq<Skipped>, standing: set<int>, j: nat)
    requires forall j, k :: 0 <= j < k < |all| ==> all[j].n < all[k].n
    requires forall m :: m in standing <==> Holds(all, m)
    requires j < |all|
    ensures |Newer(standing, all[j].n)| == |all| - 1 - j
  {
    var later := all[j + 1..];
    DistinctIndices(later);
    forall m | m in Newer(standing, all[j].n)
      ensures m in Indices(later)
    {
      var k :| 0 <= k < |all| && all[k].n == m;
      assert later[k - (j + 1)].n == m;
    }
    forall m | m in Indices(later)
      ensures m in Newer(standing, all[j].n)
    {
      var k :| 0 <= k < |later| && later[k].n == m;
      assert all[j + 1 + k].n == m;
    }
    assert Newer(standing, all[j].n) == Indices(later);
  }

  lemma SuffixHolds(all: seq<Skipped>, cut: nat, j: nat)
    requires cut <= |all| && j < |all|
    ensures cut <= j ==> Holds(all[cut..], all[j].n)
  {
  }

  /** Dropping the oldest entries of the map gives up exactly the indices that have 200 newer ones beside them. */
  lemma WindowKeepsNewest(all: seq<Skipped>, standing: set<int>, m: int)
    requires forall j, k :: 0 <= j < k < |all| ==> all[j].n < all[k].n
    requires forall m :: m in standing <==> Holds(all, m)
    ensures Holds(Window(all, MAX_SKIPPED_KEYS), m) <==> m in standing - TooOld(standing)
  {
    var kept := Window(all, MAX_SKIPPED_KEYS);
    var cut := |all| - |kept|;
    if Holds(kept, m) {
      var k :| 0 <= k < |kept| && kept[k].n == m;
      assert all[cut + k].n == m;
      NewerCount(all, standing, cut + k);
    } else if m in standing {
      var j :| 0 <= j < |all| && all[j].n == m;
      SuffixHolds(all, cut, j);
      NewerCount(all, standing, j);
    }
  }

  /** One request, whatever index is asked for: granted alike, with the true key, and a refusal changes nothing. */
  lemma TakeKeyRefines(r: Ratchet, i: Ideal, n: int)
    requires Mirrors(r, i)
    ensures var (r', res) := TakeKey(r, r.last, n);
      && (res.Granted? <==> Grants(i, n))
      && (res.Granted? ==> res.key == MessageKeyAt(Base(r.recv), n))
      && (res.Denied? ==> r' == r)
      && Mirrors(r', Ask(i, n))
  {
    TakeKeyOk(r, n);
    if n < r.recvIdx {
      TakeBuffered(r, n);
      assert n in i.open <==> Holds(r.skipped, n);
    } else if n <= r.recvIdx + MAX_SKIP {
      AheadRefines(r, i, n);
    }
  }

  lemma AheadRefines(r: Ratchet, i: Ideal, n: int)
    requires Mirrors(r, i) && i.next <= n <= i.next + MAX_SKIP
    ensures n !in i.open
    ensures Mirrors(TakeKey(r, r.last, n).0, Ask(i, n))
  {
    var all := r.skipped + SkipRange(r.last, r.recv, r.recvIdx, n);
    var standing := i.open + Span(i.next, n);
    AppendRange(r.skipped, r.last, r.recv, r.recvIdx, n);
    TakeKeyOk(r, n);
    forall m
      ensures m in Ask(i, n).open <==> Holds(TakeKey(r, r.last, n).0.skipped, m)
    {
      WindowKeepsNewest(all, standing, m);
    }
  }

  // ---- A whole epoch ----

  ghost predicate OneEpoch(pk: KeyId, es: seq<Envelope>) {
    forall k :: 0 <= k < |es| ==> es[k].pk == pk
  }

  /** The state after a sequence of envelopes of one epoch: no DH step happens, so no key is generated. */
  function AfterAll(r: Ratchet, es: seq<Envelope>): Ratchet
    decreases |es|
  {
    if es == [] then r else AfterAll(Decrypt(r, es[0], 0).0, es[1..])
  }

  /** The indices whose key was used, in order. */
  function UsedIndices(r: Ratchet, es: seq<Envelope>): seq<int>
    decreases |es|
  {
    if es == [] then []
    else
      var (r', out) := Decrypt(r, es[0], 0);
      (if UsedKey(out) then [es[0].n] else []) + UsedIndices(r', es[1..])
  }

  /** One envelope of the current epoch, honest or forged. */
  lemma DecryptRefines(r: Ratchet, i: Ideal, e: Envelope)
    requires Mirrors(r, i) && e.pk == r.last
    ensures var (r', out) := Decrypt(r, e, 0);
      && r'.last == r.last && Base(r'.recv) == Base(r.recv)
      && Mirrors(r', Offer(i, e))
      && (UsedKey(out) <==> Uses(i, e))
      && (out.Opened? <==> Uses(i, e) && e.c.key == MessageKeyAt(Base(r.recv), e.n))
  {
    if !IsReplay(r, e.c) {
      var r1 := NoteNonce(r, e.c);
      if e.c.nonce.Some? {
        WindowAppend(i.seen, [e.c.nonce.value], MAX_NONCES);
      }
      assert Mirrors(r1, Saw(i, e.c));
      TakeKeyRefines(r1, Saw(i, e.c), e.n);
      TakeKeyOk(r1, e.n);
    }
  }

  /** A DH step starts a new epoch of the ideal receiver as well. */
  lemma StepStartsEpoch(r: Ratchet, seen: seq<Nonce>, remote: KeyId, newKey: KeyId)
    requires r.nonces == Window(seen, MAX_NONCES)
    ensures Mirrors(DhStep(r, remote, newKey), NewEpoch(seen)) && Whole(NewEpoch(seen))
  {
  }

  /** Over any sequence of envelopes of an epoch the ratchet does exactly what the ideal receiver does. */
  lemma {:induction false} EpochRefines(r: Ratchet, i: Ideal, es: seq<Envelope>)
    requires Mirrors(r, i) && OneEpoch(r.last, es)
    ensures Mirrors(AfterAll(r, es), OfferAll(i, es))
    ensures UsedIndices(r, es) == HandedOut(i, es)
    decreases |es|
  {
    if es != [] {
      DecryptRefines(r, i, es[0]);
      EpochRefines(Decrypt(r, es[0], 0).0, Offer(i, es[0]), es[1..]);
    }
  }

  /**
    The indices below `receiveChainIndex` are at all times the disjoint union of those handed out, those
    buffered and those evicted; the evicted ones lie below all buffered ones.
  */
  lemma EpochAccounts(r: Ratchet, i: Ideal, es: seq<Envelope>)
    requires Mirrors(r, i) && Whole(i) && OneEpoch(r.last, es)
    ensures var r', i' := AfterAll(r, es), OfferAll(i, es);
      && (forall n :: 0 <= n < r'.recvIdx <==> n in i'.released || Holds(r'.skipped, n) || n in i'.evicted)
      && (forall n :: !(n in i'.released && Holds(r'.skipped, n)))
      && (forall n :: !(n in i'.evicted && Holds(r'.skipped, n)))
      && i'.released !! i'.evicted
      && (forall n, m :: n in i'.evicted && Holds(r'.skipped, m) ==> n < m)
      && |r'.skipped| <= MAX_SKIPPED_KEYS
  {
    EpochRefines(r, i, es);
    OfferAllKeepsWhole(i, es);
  }

  lemma {:induction false} HandedOutOnce(i: Ideal, es: seq<Envelope>)
    requires Whole(i)
    ensures forall k :: 0 <= k < |HandedOut(i, es)| ==> HandedOut(i, es)[k] !in i.released
    ensures forall j, k :: 0 <= j < k < |HandedOut(i, es)| ==> HandedOut(i, es)[j] != HandedOut(i, es)[k]
    decreases |es|
  {
    if es != [] {
      AskKeepsWhole(Saw(i, es[0].c), es[0].n);
      OfferReleases(i, es[0]);
      HandedOutOnce(Offer(i, es[0]), es[1..]);
      var rest := HandedOut(Offer(i, es[0]), es[1..]);
      assert HandedOut(i, es) == (if Uses(i, es[0]) then [es[0].n] else []) + rest;
    }
  }

  lemma OfferReleases(i: Ideal, e: Envelope)
    requires Partition(i.released, i.open, i.evicted, i.next)
    ensures Uses(i, e) ==> e.n !in i.released
    ensures Offer(i, e).released == i.released + if Uses(i, e) then {e.n} else {}
  {
  }

  /** No key is used twice, and none that was handed out before the sequence began. */
  lemma EachKeyAtMostOnce(r: Ratchet, i: Ideal, es: seq<Envelope>)
    requires Mirrors(r, i) && Whole(i) && OneEpoch(r.last, es)
    ensures forall k :: 0 <= k < |UsedIndices(r, es)| ==> UsedIndices(r, es)[k] !in i.released
    ensures forall j, k :: 0 <= j < k < |UsedIndices(r, es)| ==> UsedIndices(r, es)[j] != UsedIndices(r, es)[k]
  {
    EpochRefines(r, i, es);
    HandedOutOnce(i, es);
  }

  /** A skipped index stays recoverable until it is used or 200 newer indices have been skipped. */
  lemma SkippedStaysRecoverable(r: Ratchet, i: Ideal, e: Envelope)
    requires Mirrors(r, i) && Whole(i) && e.pk == r.last && !IsReplay(r, e.c)
    requires e.n in i.skipped && e.n !in i.released && |Newer(i.skipped, e.n)| < MAX_SKIPPED_KEYS
    requires e.c.key == MessageKeyAt(Base(r.recv), e.n)
    ensures Decrypt(r, e, 0).1 == Opened(e.c.plain)
  {
    assert e.n in i.open;
    DecryptRefines(r, i, e);
  }

  // ---- The nonce window, over any envelopes of any epoch ----

  /** All nonces accepted so far: a nonce is accepted unless it is among the last 500 accepted. */
  ghost function Accepted(seen: seq<Nonce>, es: seq<Envelope>): seq<Nonce>
    decreases |es|
  {
    if es == [] then seen
    else if es[0].c.nonce.None? || es[0].c.nonce.value in Window(seen, MAX_NONCES) then Accepted(seen, es[1..])
    else Accepted(seen + [es[0].c.nonce.value], es[1..])
  }

  ghost function DecryptAll(r: Ratchet, es: seq<Envelope>, newKey: KeyId): Ratchet
    decreases |es|
  {
    if es == [] then r else DecryptAll(Decrypt(r, es[0], newKey).0, es[1..], newKey + 1)
  }

  /** The nonce set is always the last min(500, k) of the k nonces accepted since the reset. */
  lemma {:induction false} NonceWindow(r: Ratchet, seen: seq<Nonce>, es: seq<Envelope>, newKey: KeyId)
    requires r.nonces == Window(seen, MAX_NONCES)
    ensures DecryptAll(r, es, newKey).nonces == Window(Accepted(seen, es), MAX_NONCES)
    decreases |es|
  {
    if es != [] {
      var c := es[0].c;
      var seen' := if c.nonce.None? || c.nonce.value in r.nonces then seen else seen + [c.nonce.value];
      if c.nonce.Some? {
        WindowAppend(seen, [c.nonce.value], MAX_NONCES);
      }
      NonceWindow(Decrypt(r, es[0], newKey).0, seen', es[1..], newKey + 1);
    }
  }
}
