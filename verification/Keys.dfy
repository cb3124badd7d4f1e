/**
  Symbolic keys.

  Every byte string the ratchet derives is a term of a free algebra, so two keys are equal exactly
  when they were derived in the same way from the same inputs. This states the usual assumptions on
  HKDF, HMAC and ECDH: no collisions, and a Diffie-Hellman output that both sides agree on.
*/
module Keys {
  /** A key pair. Ids are handed out in creation order, so of two keys the older has the smaller id. */
  type KeyId = nat

  datatype Direction = HostToGuest | GuestToHost

  datatype Key =
    | NoKey                                              // the field is null
    | Dh(lo: KeyId, hi: KeyId)                           // dhRatchetEcdh, deriveSharedKey
    | Kem(secret: nat, recipient: KeyId, opener: KeyId)  // what `opener` decapsulates from a ciphertext for `recipient`
    | InitRoot(shared: Key, dh: Key)                     // HKDF with info 'DR-init-root'
    | InitChain(dir: Direction, shared: Key, dh: Key)    // HKDF with info 'chain:host->guest' or 'chain:guest->host'
    | RootOf(root: Key, dh: Key)                         // first half of advanceRootChain
    | ChainOf(root: Key, dh: Key)                        // second half of advanceRootChain
    | NextChain(chain: Key)                              // HMAC(chain, 0x02)
    | MessageKey(chain: Key)                             // HMAC(chain, 0x01)

  /** ECDH of one private key with another's public key. */
  function DhOut(mine: KeyId, theirs: KeyId): Key {
    if mine <= theirs then Dh(mine, theirs) else Dh(theirs, mine)
  }

  /** The chain key reached from `base` after `n` calls of advanceChain. */
  function ChainAt(base: Key, n: nat): Key {
    if n == 0 then base else NextChain(ChainAt(base, n - 1))
  }

  /** The message key at index `n` of the chain that starts at `base`. */
  function MessageKeyAt(base: Key, n: nat): Key {
    MessageKey(ChainAt(base, n))
  }

  /** The start of a chain: what is left when every advance is undone. */
  function Base(chain: Key): Key {
    if chain.NextChain? then Base(chain.chain) else chain
  }

  /** How many times a chain key was advanced. */
  function Depth(chain: Key): nat {
    if chain.NextChain? then 1 + Depth(chain.chain) else 0
  }

  lemma {:induction false} ChainAtBase(chain: Key)
    ensures ChainAt(Base(chain), Depth(chain)) == chain
    ensures !Base(chain).NextChain?
  {
    if chain.NextChain? {
      ChainAtBase(chain.chain);
    }
  }

  lemma {:induction false} BaseOfChainAt(base: Key, n: nat)
    ensures Base(ChainAt(base, n)) == Base(base)
    ensures Depth(ChainAt(base, n)) == Depth(base) + n
  {
    if n > 0 {
      BaseOfChainAt(base, n - 1);
    }
  }

  lemma {:induction false} ChainAtPlus(base: Key, m: nat, n: nat)
    ensures ChainAt(ChainAt(base, m), n) == ChainAt(base, m + n)
  {
    if n > 0 {
      ChainAtPlus(base, m, n - 1);
    }
  }

  /** Message keys are pairwise distinct: the key names its chain and its index. */
  lemma MessageKeyAtInjective(base: Key, n: nat, base': Key, n': nat)
    requires !base.NextChain? && !base'.NextChain?
    requires MessageKeyAt(base, n) == MessageKeyAt(base', n')
    ensures base == base' && n == n'
  {
    BaseOfChainAt(base, n);
    BaseOfChainAt(base', n');
  }
}
