/**
  The Double Ratchet state of one peer and what one call does to it, as functions on values
  (src/core/services/SessionManager.js, `_ratchetEncrypt`, `_ratchetDecrypt`, `_performDhRatchetStep`).
  The loops of the source are written here in closed form; SessionManager.dfy proves that the
  imperative methods compute these functions.
*/
module DoubleRatchet {
  import opened Options
  import opened Keys
  import opened Payload

  const MAX_SKIP := 100
  const MAX_SKIPPED_KEYS := 200
  const MAX_NONCES := 500

  /** The first 12 bytes of a ciphertext. */
  type Nonce = nat

  /** An entry of the skipped-key map, filed under `${pk}:${n}`. */
  datatype Skipped = Skipped(pk: KeyId, n: nat, key: Key)

  /** Symbolic AEAD: opens with the key it was sealed with. `nonce` is None when it has no 12-byte prefix. */
  datatype Ciphertext = Ciphertext(nonce: Option<Nonce>, key: Key, plain: Payload)

  /** The wire form {v: 2, pk, n, c}. */
  datatype Envelope = Envelope(pk: KeyId, n: int, c: Ciphertext)

  /**
    What arrives, by how much of its `pk` can be used: the text is not JSON, it is JSON but no ratchet key can
    be imported from it, or it names a key.
  */
  datatype Wire = NotJson | NotAKey(c: Ciphertext) | Keyed(envelope: Envelope)

  datatype Reason = DuplicateNonce | KeyNotFound | TooManySkipped | BadCiphertext | BadKey

  datatype Outcome = Opened(plain: Payload) | Rejected(reason: Reason)

  datatype KeyResult = Granted(key: Key) | Denied(reason: Reason)

  /** `skipped` and `nonces` are in insertion order, oldest first. */
  datatype Ratchet = Ratchet(
    root: Key, send: Key, sendIdx: nat, recv: Key, recvIdx: nat,
    pk: KeyId, last: KeyId, skipped: seq<Skipped>, nonces: seq<Nonce>)

  /** The newest `k` elements: what survives when the oldest is dropped whenever there are more than `k`. */
  function Window<T>(s: seq<T>, k: nat): seq<T> {
    if |s| <= k then s else s[|s| - k..]
  }

  /** Appending to a window and trimming is trimming once at the end. */
  lemma WindowAppend<T>(s: seq<T>, t: seq<T>, k: nat)
    ensures Window(Window(s, k) + t, k) == Window(s + t, k)
  {
  }

  function Find(skipped: seq<Skipped>, pk: KeyId, n: int): Option<Key> {
    if skipped == [] then None
    else if skipped[0].pk == pk && skipped[0].n == n then Some(skipped[0].key)
    else Find(skipped[1..], pk, n)
  }

  function Remove(skipped: seq<Skipped>, pk: KeyId, n: int): seq<Skipped> {
    if skipped == [] then []
    else if skipped[0].pk == pk && skipped[0].n == n then skipped[1..]
    else [skipped[0]] + Remove(skipped[1..], pk, n)
  }

  /** The keys of the indices from..to of a chain whose current key, at index `from`, is `chain`. */
  function SkipRange(pk: KeyId, chain: Key, from: nat, to: nat): seq<Skipped>
    requires from <= to
  {
    seq(to - from, i requires 0 <= i < to - from => Skipped(pk, from + i, MessageKeyAt(chain, i)))
  }

  /** `_performDhRatchetStep`: `newKey` is the id of the key pair it generates. */
  function DhStep(r: Ratchet, remote: KeyId, newKey: KeyId): Ratchet {
    var received := DhOut(r.pk, remote);
    var rootAfterRecv := RootOf(r.root, received);
    var sent := DhOut(newKey, remote);
    r.(root := RootOf(rootAfterRecv, sent),
       recv := ChainOf(r.root, received), recvIdx := 0,
       send := ChainOf(rootAfterRecv, sent), sendIdx := 0,
       pk := newKey, last := remote, skipped := [])
  }

  /** `_ratchetEncrypt` on its DH path. */
  function Encrypt(r: Ratchet, plain: Payload, nonce: Nonce): (Ratchet, Envelope) {
    (r.(send := NextChain(r.send), sendIdx := r.sendIdx + 1),
     Envelope(r.pk, r.sendIdx, Ciphertext(Some(nonce), MessageKey(r.send), plain)))
  }

  predicate IsReplay(r: Ratchet, c: Ciphertext) {
    c.nonce.Some? && c.nonce.value in r.nonces
  }

  function NoteNonce(r: Ratchet, c: Ciphertext): Ratchet {
    if c.nonce.None? then r
    else r.(nonces := Window(r.nonces + [c.nonce.value], MAX_NONCES))
  }

  /** The DH step is taken exactly for a ratchet key other than the last one seen. */
  function Synchronise(r: Ratchet, pk: KeyId, newKey: KeyId): Ratchet {
    if pk != r.last then DhStep(r, pk, newKey) else r
  }

  /** The message key for index `n`: from the buffer, or by advancing the chain past a gap. */
  function TakeKey(r: Ratchet, pk: KeyId, n: int): (Ratchet, KeyResult) {
    if n < r.recvIdx then
      match Find(r.skipped, pk, n)
      case None => (r, Denied(KeyNotFound))
      case Some(key) => (r.(skipped := Remove(r.skipped, pk, n)), Granted(key))
    else if n - r.recvIdx > MAX_SKIP then
      (r, Denied(TooManySkipped))
    else
      var gap := n - r.recvIdx;
      (r.(recv := ChainAt(r.recv, gap + 1), recvIdx := n + 1,
          skipped := Window(r.skipped + SkipRange(pk, r.recv, r.recvIdx, n), MAX_SKIPPED_KEYS)),
       Granted(MessageKeyAt(r.recv, gap)))
  }

  function Open(res: KeyResult, c: Ciphertext): Outcome {
    match res
    case Denied(reason) => Rejected(reason)
    case Granted(key) => if c.key == key then Opened(c.plain) else Rejected(BadCiphertext)
  }

  /** `_ratchetDecrypt` on a v2 envelope. */
  function Decrypt(r: Ratchet, e: Envelope, newKey: KeyId): (Ratchet, Outcome) {
    if IsReplay(r, e.c) then (r, Rejected(DuplicateNonce))
    else
      var (r', res) := TakeKey(Synchronise(NoteNonce(r, e.c), e.pk, newKey), e.pk, e.n);
      (r', Open(res, e.c))
  }

  /** The same for anything that arrives: text that is not JSON throws before the nonce check, a bad key after it. */
  function DecryptWire(r: Ratchet, wire: Wire, newKey: KeyId): (Ratchet, Outcome) {
    match wire
    case NotJson => (r, Rejected(BadKey))
    case NotAKey(c) => if IsReplay(r, c) then (r, Rejected(DuplicateNonce)) else (NoteNonce(r, c), Rejected(BadKey))
    case Keyed(e) => Decrypt(r, e, newKey)
  }

  // ---- What every state of an honest run satisfies ----

  /** Entries of one epoch in index order, each with the true key of its index on the chain from `base`. */
  ghost predicate TrueKeys(skipped: seq<Skipped>, pk: KeyId, base: Key, below: nat) {
    && (forall i :: 0 <= i < |skipped| ==>
      && skipped[i].pk == pk
      && skipped[i].n < below
      && skipped[i].key == MessageKeyAt(base, skipped[i].n))
    && (forall i, j :: 0 <= i < j < |skipped| ==> skipped[i].n < skipped[j].n)
  }

  ghost predicate Holds(skipped: seq<Skipped>, n: int) {
    exists i :: 0 <= i < |skipped| && skipped[i].n == n
  }

  /** The skipped-key map: current epoch only, and at most 200 entries. */
  ghost predicate BufferOk(r: Ratchet) {
    |r.skipped| <= MAX_SKIPPED_KEYS && TrueKeys(r.skipped, r.last, Base(r.recv), r.recvIdx)
  }

  ghost predicate RatchetOk(r: Ratchet) {
    && Depth(r.send) == r.sendIdx
    && Depth(r.recv) == r.recvIdx
    && BufferOk(r)
  }

  lemma {:induction false} FindFinds(skipped: seq<Skipped>, pk: KeyId, n: int)
    ensures Find(skipped, pk, n).None? <==>
            forall i :: 0 <= i < |skipped| ==> !(skipped[i].pk == pk && skipped[i].n == n)
    ensures Find(skipped, pk, n).Some? ==>
            exists i :: 0 <= i < |skipped| && skipped[i] == Skipped(pk, n, Find(skipped, pk, n).value)
  {
    if skipped != [] && !(skipped[0].pk == pk && skipped[0].n == n) {
      FindFinds(skipped[1..], pk, n);
      assert forall i :: 0 < i < |skipped| ==> skipped[i] == skipped[1..][i - 1];
      if Find(skipped, pk, n).Some? {
        var i :| 0 <= i < |skipped| - 1 && skipped[1..][i] == Skipped(pk, n, Find(skipped, pk, n).value);
        assert skipped[i + 1] == Skipped(pk, n, Find(skipped, pk, n).value);
      }
    }
  }

  /** Where the entry sits, removal cuts exactly it out. */
  lemma {:induction false} RemoveCuts(skipped: seq<Skipped>, pk: KeyId, n: int, at: nat)
    requires at < |skipped| && skipped[at].pk == pk && skipped[at].n == n
    requires forall i :: 0 <= i < at ==> skipped[i].n != n
    ensures Remove(skipped, pk, n) == skipped[..at] + skipped[at + 1..]
  {
    if at > 0 {
      RemoveCuts(skipped[1..], pk, n, at - 1);
      assert skipped[..at] == [skipped[0]] + skipped[1..][..at - 1];
      assert skipped[at + 1..] == skipped[1..][at..];
    }
  }

  /** Cutting one entry out leaves true keys, and only its index is gone. */
  lemma CutOne(skipped: seq<Skipped>, pk: KeyId, base: Key, below: nat, at: nat)
    requires TrueKeys(skipped, pk, base, below) && at < |skipped|
    ensures var left := skipped[..at] + skipped[at + 1..];
      && TrueKeys(left, pk, base, below)
      && !Holds(left, skipped[at].n)
      && forall m :: m != skipped[at].n ==> (Holds(skipped, m) <==> Holds(left, m))
  {
    var left := skipped[..at] + skipped[at + 1..];
    assert forall i :: 0 <= i < |left| ==> left[i] == skipped[if i < at then i else i + 1];
    forall m | m != skipped[at].n && Holds(skipped, m)
      ensures Holds(left, m)
    {
      var i :| 0 <= i < |skipped| && skipped[i].n == m;
      assert left[if i < at then i else i - 1].n == m;
    }
  }

  /** Dropping the oldest entries keeps the rest true. */
  lemma CutOldest(skipped: seq<Skipped>, pk: KeyId, base: Key, below: nat, cut: nat)
    requires TrueKeys(skipped, pk, base, below) && cut <= |skipped|
    ensures TrueKeys(skipped[cut..], pk, base, below)
    ensures forall m :: Holds(skipped[cut..], m) ==> Holds(skipped, m)
  {
  }

  /** The keys a gap leaves behind are the true keys of its indices, and come after everything buffered. */
  lemma AppendRange(skipped: seq<Skipped>, pk: KeyId, chain: Key, from: nat, to: nat)
    requires TrueKeys(skipped, pk, Base(chain), from) && Depth(chain) == from <= to
    ensures var all := skipped + SkipRange(pk, chain, from, to);
      && TrueKeys(all, pk, Base(chain), to)
      && forall m :: Holds(all, m) <==> Holds(skipped, m) || from <= m < to
  {
    var range := SkipRange(pk, chain, from, to);
    var all := skipped + range;
    forall i | 0 <= i < |range|
      ensures range[i] == Skipped(pk, from + i, MessageKeyAt(Base(chain), from + i))
    {
      ChainAtBase(chain);
      ChainAtPlus(Base(chain), from, i);
    }
    forall m | Holds(skipped, m) || from <= m < to
      ensures Holds(all, m)
    {
      if Holds(skipped, m) {
        var i :| 0 <= i < |skipped| && skipped[i].n == m;
        assert all[i].n == m;
      } else {
        assert all[|skipped| + (m - from)].n == m;
      }
    }
    forall m | Holds(all, m)
      ensures Holds(skipped, m) || from <= m < to
    {
      var i :| 0 <= i < |all| && all[i].n == m;
      if i < |skipped| {
        assert skipped[i].n == m;
      } else {
        assert range[i - |skipped|].n == m;
      }
    }
  }

  lemma DhStepOk(r: Ratchet, remote: KeyId, newKey: KeyId)
    ensures RatchetOk(DhStep(r, remote, newKey))
  {
  }

  /**
    Every request for a key, for any index at all, keeps the buffer invariant. If a key is granted it is
    the true key of that index, which is past afterwards and no longer buffered.
  */
  lemma TakeKeyOk(r: Ratchet, n: int)
    requires RatchetOk(r)
    ensures var (r', res) := TakeKey(r, r.last, n);
      && RatchetOk(r')
      && r' == r.(recv := r'.recv, recvIdx := r'.recvIdx, skipped := r'.skipped)
      && Base(r'.recv) == Base(r.recv)
      && r.recvIdx <= r'.recvIdx
      && (res.Denied? ==> r' == r)
      && (res.Granted? ==>
            0 <= n < r'.recvIdx && res.key == MessageKeyAt(Base(r.recv), n) && !Holds(r'.skipped, n))
      && (forall m :: Holds(r'.skipped, m) ==> Holds(r.skipped, m) || r.recvIdx <= m < n)
      && (res.Granted? <==> (n < r.recvIdx && Holds(r.skipped, n)) || r.recvIdx <= n <= r.recvIdx + MAX_SKIP)
      && (res.Granted? && n >= r.recvIdx ==> r'.recvIdx == n + 1)
      && (n < r.recvIdx ==> r'.recvIdx == r.recvIdx)
  {
    if n < r.recvIdx {
      TakeBuffered(r, n);
    } else if n - r.recvIdx <= MAX_SKIP {
      TakeAhead(r, n);
    }
  }

  lemma TakeBuffered(r: Ratchet, n: int)
    requires RatchetOk(r) && n < r.recvIdx
    ensures var (r', res) := TakeKey(r, r.last, n);
      && RatchetOk(r')
      && (res.Granted? <==> Holds(r.skipped, n))
      && (res.Denied? ==> r' == r)
      && (res.Granted? ==>
            && 0 <= n
            && res.key == MessageKeyAt(Base(r.recv), n)
            && !Holds(r'.skipped, n)
            && (forall m :: m != n ==> (Holds(r.skipped, m) <==> Holds(r'.skipped, m))))
  {
    FindFinds(r.skipped, r.last, n);
    if Find(r.skipped, r.last, n).Some? {
      var at :| 0 <= at < |r.skipped| && r.skipped[at] == Skipped(r.last, n, Find(r.skipped, r.last, n).value);
      RemoveCuts(r.skipped, r.last, n, at);
      CutOne(r.skipped, r.last, Base(r.recv), r.recvIdx, at);
    }
  }

  lemma TakeAhead(r: Ratchet, n: int)
    requires RatchetOk(r) && r.recvIdx <= n <= r.recvIdx + MAX_SKIP
    ensures var (r', res) := TakeKey(r, r.last, n);
      && RatchetOk(r')
      && Base(r'.recv) == Base(r.recv)
      && res == Granted(MessageKeyAt(Base(r.recv), n))
      && !Holds(r'.skipped, n)
      && (forall m :: Holds(r'.skipped, m) ==> Holds(r.skipped, m) || r.recvIdx <= m < n)
  {
    ChainAhead(r.recv, n - r.recvIdx);
    WindowOfRange(r.skipped, r.last, r.recv, r.recvIdx, n);
  }

  /** What the buffer holds after a gap. */
  lemma WindowOfRange(skipped: seq<Skipped>, pk: KeyId, chain: Key, from: nat, to: nat)
    requires TrueKeys(skipped, pk, Base(chain), from) && Depth(chain) == from <= to
    ensures var kept := Window(skipped + SkipRange(pk, chain, from, to), MAX_SKIPPED_KEYS);
      && |kept| <= MAX_SKIPPED_KEYS
      && TrueKeys(kept, pk, Base(chain), to)
      && !Holds(kept, to)
      && forall m :: Holds(kept, m) ==> Holds(skipped, m) || from <= m < to
  {
    var all := skipped + SkipRange(pk, chain, from, to);
    AppendRange(skipped, pk, chain, from, to);
    CutOldest(all, pk, Base(chain), to, if |all| <= MAX_SKIPPED_KEYS then 0 else |all| - MAX_SKIPPED_KEYS);
  }

  lemma ChainAhead(chain: Key, gap: nat)
    ensures Base(ChainAt(chain, gap + 1)) == Base(chain)
    ensures Depth(ChainAt(chain, gap + 1)) == Depth(chain) + gap + 1
    ensures MessageKeyAt(chain, gap) == MessageKeyAt(Base(chain), Depth(chain) + gap)
  {
    BaseOfChainAt(chain, gap + 1);
    ChainAtBase(chain);
    ChainAtPlus(Base(chain), Depth(chain), gap);
  }

  lemma BaseOfBase(chain: Key)
    ensures Base(Base(chain)) == Base(chain)
  {
  }

  /** After `Synchronise` the last-seen key is the envelope's, and the state is again well formed. */
  lemma SynchroniseOk(r: Ratchet, pk: KeyId, newKey: KeyId)
    requires RatchetOk(r)
    ensures RatchetOk(Synchronise(r, pk, newKey))
    ensures Synchronise(r, pk, newKey).last == pk
  {
  }

  /**
    Anything at all, forged or not: the state stays well formed. A call throws for a duplicate nonce exactly
    when it gets as far as the nonce check with a nonce of the window, and then nothing changes at all. For a
    key that cannot be used, and under the last-seen key for a missing key or a gap over 100, everything but
    the nonce window stays as it was.
  */
  lemma DecryptAny(r: Ratchet, wire: Wire, newKey: KeyId)
    requires RatchetOk(r)
    ensures var (r', out) := DecryptWire(r, wire, newKey);
      && RatchetOk(r')
      && (out == Rejected(DuplicateNonce) <==>
            (wire.NotAKey? && IsReplay(r, wire.c)) || (wire.Keyed? && IsReplay(r, wire.envelope.c)))
      && (out == Rejected(DuplicateNonce) || wire.NotJson? ==> r' == r)
      && (out == Rejected(BadKey) <==> wire.NotJson? || (wire.NotAKey? && !IsReplay(r, wire.c)))
      && (out == Rejected(BadKey) ==> r' == r.(nonces := r'.nonces))
      && (wire.Keyed? && wire.envelope.pk == r.last && out in {Rejected(KeyNotFound), Rejected(TooManySkipped)} ==>
            r' == r.(nonces := r'.nonces))
      && (wire.Keyed? && out != Rejected(DuplicateNonce) ==> r'.last == wire.envelope.pk)
      && (out.Opened? ==> wire.Keyed? && out.plain == wire.envelope.c.plain)
  {
    if wire.Keyed? && !IsReplay(r, wire.envelope.c) {
      var e := wire.envelope;
      var r1 := NoteNonce(r, e.c);
      SynchroniseOk(r1, e.pk, newKey);
      TakeKeyOk(Synchronise(r1, e.pk, newKey), e.n);
    }
  }

  /**
    Whatever comes in with a nonce, its second copy is rejected as a replay and changes nothing, even if the first
    could not be opened or named no usable key.
  */
  lemma SecondCopyRejected(r: Ratchet, wire: Wire, newKey: KeyId, nextKey: KeyId)
    requires (wire.NotAKey? && wire.c.nonce.Some?) || (wire.Keyed? && wire.envelope.c.nonce.Some?)
    ensures var r' := DecryptWire(r, wire, newKey).0;
      DecryptWire(r', wire, nextKey) == (r', Rejected(DuplicateNonce))
  {
    var c := if wire.Keyed? then wire.envelope.c else wire.c;
    if !IsReplay(r, c) {
      var nonces := NoteNonce(r, c).nonces;
      assert nonces[|nonces| - 1] == c.nonce.value;
      if wire.Keyed? {
        TakeKeyKeepsNonces(Synchronise(NoteNonce(r, c), wire.envelope.pk, newKey), wire.envelope.pk, wire.envelope.n);
      }
    }
  }

  lemma TakeKeyKeepsNonces(r: Ratchet, pk: KeyId, n: int)
    ensures TakeKey(r, pk, n).0.nonces == r.nonces
  {
  }
}
