# A verified model of the peer-to-peer chat session

This project models one chat session of the repository, from the invite to the last message, and proves
what the two users may rely on. `dafny verify dfyconfig.toml` checks all of it.

## What is modelled

**The Double Ratchet run by two peers.** `DoubleRatchet.dfy` has one peer's ratchet state and what a call of
`_ratchetEncrypt`, `_ratchetDecrypt` or `_performDhRatchetStep` does to it, as functions on values, with the
two ways in which the code departs from Signal's "The Double Ratchet Algorithm" (sections 2.6 and 3.3 to 3.5):
headers carry no previous-chain length, and every DH step clears the skipped-key map. `Sessions.dfy` and
`SessionManager.dfy` have the session, the manager's entry and the manager's methods as classes that update
their fields in place, skip loop included; their contracts say that they compute those functions, and
`EndToEnd.dfy` calls them one after another for both peers.

**Keys** (`Keys.dfy`) are terms of a free algebra, the usual reading of HKDF and HMAC without collisions; a
Diffie-Hellman output is the same from both ends; sealing is symbolic and opens with the sealing key only. Key
pairs are numbered in the order they are generated, so an older ratchet key has the smaller number.

**The two-party system** (`TwoParty.dfy`) interleaves chat and control sends, failed sends, deliveries and
dh-mode reconnects of two peers. Its hypotheses: each encrypt, decrypt and handshake call is one atomic step;
delivered envelopes were made by the other peer; and no envelope with an older ratchet key arrives after
one with a newer key from the same peer, which the ordered data channel gives. Loss, duplication and, under one
ratchet key, reordering are allowed. A host's reconnect is a single event here: it switches transports in
`reconnectAsHost` and forgets its nonces in `finalizeReconnect`, and hears nothing between the two.

On these rest the main results. `Receiver.dfy`: one receiving chain refines an ideal receiver that works on
sets of indices, for any envelopes at all; `Delivery.dfy` follows it through every run and says exactly when a
delivery opens. `Lineage.dfy`: where every key comes from, and that none is used twice. `Secrecy.dfy` and
`Healing.dfy`: what a captured state gives away, against an attacker who can apply every derivation.
`Conversation.dfy` and `Titles.dfy`: the message logs and the title the users see. `Reconnection.dfy`: dh-mode reconnects as losses.
`Rekeying.dfy`: kem-mode reconnects, which replace the chain keys, compared event by event with dh-mode ones;
`RekeyedKeys.dfy`, `RekeyedSecrecy.dfy` and `RekeyedHealing.dfy`: one-time keys, forward secrecy and healing
across them.
`Guarantees.dfy`: all of it again from an honest exchange of codes on, with no hypothesis about the state.

The adapter decides the mode: `WebCryptoEcdhAesGcm.js` is dh mode, `HybridPqCryptoAdapter.js`, which the
application uses (`src/config/composition-root.js:89`), is kem mode. Every result about runs without a reconnect
holds in both; results about runs with `Reconnect` events are about dh mode, those in the four `Reke*.dfy` files about kem
mode.

**The supporting parts.** `Invite.dfy` and `Handshake.dfy`: the codes, the signed bytes and what both peers
derive. `Lifecycle.dfy`: the session status under every event of the manager. `RateLimiter.dfy`: the receive
limiter. `Base64Url.dfy`: RFC 4648 section 5 as the code does it, through the platform's forgiving `atob`.

## What the proofs found

- A kem-mode reconnect breaks the sync of the two ratchets: it replaces the chain keys and leaves root, indices
  and ratchet keys alone. Exactly those envelopes still open that carry a ratchet key made after the reconnect,
  or whose receiver had seen the key and stood level with the sender (`Rekeying.ExactlySurvivorsOpen`). So the
  peer that was one root ahead is not heard at all until it takes a DH step (`Rekeying.LeaderUnheard`, and
  `Guarantees.EveryKemReconnectLosesAMessage` for the first message after the first reconnect), which the
  other's next envelope under a new key makes it take (`Rekeying.NewKeysAreHeard`). Until then the message keys
  hang on the retained handshake key alone (`Rekeying.ReplacedChainsHangOnSharedKey`).
- A reconnect of a session older than its invite may be ends in EXPIRED, for good. `transition` exempts only
  the step out of DISCONNECTED from the expiry check, and the check is made again when the link comes up
  (`Lifecycle.ReconnectOnlyWithinLife`, with the instance `Lifecycle.LateReconnectExpires`). The comment at
  `src/core/domain/Session.js:87` reads as if established sessions were exempt.
- One DH step after a capture of the whole ratchet state heals the root and the send chain, but not the
  receive chain (`Healing.StepHeals`). What the comment at `src/core/services/SessionManager.js:1019-1022` says,
  that a captured chain key is worth nothing after the next step, is true of both chains
  (`Healing.ChainKeysAloneAreWorthNothing`).
- The handshake key that the session keeps undoes forward secrecy for exactly as long as a peer is on its
  initial root (`Secrecy.ForwardSecrecyWithHandshakeKey`).
- A gap of more than 10000 in the message counter is permanent (`Conversation.CounterGapIsPermanent`), and 10000
  refused texts in a row bring it about on a link that loses nothing (`Conversation.RefusedTextsCloseTheLog`).
- A title that is cleared is sent, but the other peer ignores an empty one (`Titles.NextTitleArrives`) and keeps
  showing the old.
- Pasting an answer once more takes a disconnected session back to CONNECTING as a reconnect would: `finalizeSession`
  checks no status of its own (`Lifecycle.StatusAfter`).
- A signed invite whose ratchet key is falsy without being null or absent fails its own signature check: the
  key is signed but not sent (`Invite.DecodedBytesAreTheSignedOnes`). No host makes such an invite.
- The limiter only drops messages beyond its limit: it does not close the channel, although the comment at
  `src/adapters/transport/WebRtcTransportAdapter.js:124` says so. Its windows start with a message and do not
  slide, so 60 messages can pass within 1 ms, and for every length one window more than fits (`RateLimiter.DeliveryBoundIsTight`).

## Model

| member | source | states |
|---|---|---|
| `Guarantees.EverySessionIsFaithful` | src/core/services/SessionManager.js:295-1134 | After any honest exchange of codes, in every run with losses, duplicates, reordering inside an epoch, failed sends and, in dh mode, reconnects: the peers are in sync, and every delivery throws or gives the exact plaintext, at most once per envelope |
| `Guarantees.EverySessionOpensExactly` | src/core/services/SessionManager.js:1073-1134 | In every such run a delivery opens if and only if its nonce is new, it was not opened before, its index was not given up and it is at most 100 ahead |
| `Guarantees.EverySessionKeepsItsLogs` | src/core/services/SessionManager.js:295-1134 | In every such run, failed sends included, a peer's own log is exactly the chats that went out, in order, and each received log is a subsequence of the other's own with strictly rising counters |
| `Guarantees.EverySessionKeepsItsTitle` | src/core/services/SessionManager.js:774-1167 | In every such run a peer shows the last title that was set here or opened in a title message, and it shows none that neither user set |
| `Guarantees.EverySessionIsForwardSecret` | src/core/services/SessionManager.js:295-1134 | At any point of any such run a captured ratchet state, private key included, reveals the key of no envelope the peer has sent and of none it has opened |
| `Guarantees.EverySessionHeals` | src/core/services/SessionManager.js:1018-1051 | After a full capture of a peer at any point of any such run, and any continuation: once the peer has another ratchet key its root and send chain are out of reach, and so are the keys from two roots past the capture on |
| `Guarantees.EveryKemSessionOpensExactly` | src/core/services/SessionManager.js:679-725 | In kem mode, after any run, a reconnect and any further run with reconnects: each delivery turns out as after dh-mode reconnects, except that it is rejected as undecipherable if it would have opened and its envelope does not survive the latest re-keying |
| `Guarantees.EveryKemReconnectLosesAMessage` | src/core/services/SessionManager.js:679-725 | The failure at its earliest input: an honest kem-mode exchange, one reconnect and the first chat of the guest, which is delivered and rejected as undecipherable |
| `Guarantees.EveryKemSessionKeepsItsLogs` | src/core/services/SessionManager.js:679-999 | In kem mode, over any run with any reconnects: own logs are exactly the chats that went out, received logs subsequences of them with rising counters |
| `Guarantees.EveryKemSessionIsForwardSecret` | src/core/services/SessionManager.js:679-725 | In kem mode, with a new handshake key for the host's identity key at every reconnect, a captured ratchet state reveals the key of no envelope the peer has sent or opened, on whichever chain |
| `Guarantees.EveryKemSessionHeals` | src/core/services/SessionManager.js:679-725 | The same in kem mode with reconnects before and after the capture; out of reach are also all keys of chains a reconnect has set since |
| `Guarantees.EveryKemSessionUsesKeysOnce` | src/core/services/SessionManager.js:679-725 | In kem mode, with a new handshake key at every reconnect, no message key is used twice by either peer, before or after any reconnect |
| `Guarantees.EveryLosslessSession` | src/core/services/SessionManager.js:738-1134 | After any honest exchange, over lossless FIFO channels: nothing is buffered and each received log is a prefix of the other's own, all of it once the channel is empty |
| `Guarantees.EveryLosslessDeliveryOpens` | src/core/services/SessionManager.js:1073-1134 | And decryption never throws: the next envelope under way is always accepted and opens to what was encrypted |
| `Guarantees.HonestExchangeOpens` | src/core/services/SessionManager.js:295-620 | An honest exchange opens a session if and only if it is in time: both codes are used while they are current, and the host finalizes within five minutes of creating the session |
| `EndToEnd.Establish` | src/core/services/SessionManager.js:295-620 | The methods themselves, called by both peers: `CreateSession`, `JoinSession` and `FinalizeSession` with untouched codes succeed if and only if the exchange is in time, and the two entries then hold a session that all these guarantees start from |
| `EndToEnd.Reconnect` | src/core/services/SessionManager.js:624-734 | The three calls of a reconnect succeed exactly if both statuses allow it; then the two entries are those of `RelinkBoth` in dh mode and of `RekeyBoth` in kem mode, under one new handshake key that both hold |
| `EndToEnd.Chat` | src/core/services/SessionManager.js:738-999 | `SendMessage` here and `OnMessage` there leave the two entries where a send and a delivery take the two-party system |
| `TwoParty.NextKeepsSync` | src/core/services/SessionManager.js:1024-1134 | Each event keeps the sync invariant (ahead's root is the step of the other's with the DH output of both current keys, and so on), and the lead moves exactly when a DH step is taken, to the peer that takes it |
| `TwoParty.ExactlyOneAhead` | src/core/services/SessionManager.js:1024-1051 | Of two peers in sync exactly one is ahead |
| `TwoParty.RunKeepsSync` | src/core/services/SessionManager.js:1024-1134 | Every reachable state is in sync |
| `TwoParty.EveryDeliveryIsFaithful` | src/core/services/SessionManager.js:1073-1134 | In every run each decrypt call throws or returns what was encrypted in that envelope, never for a wrong key, and no envelope opens twice |
| `TwoParty.StepSwapsRoles` | src/core/services/SessionManager.js:1024-1051 | A DH step on the other's current key turns the peer that was behind into the one that is exactly one root ahead, under a fresh key |
| `TwoParty.DeliverToAhead` | src/core/services/SessionManager.js:1073-1134 | A delivery to the peer ahead needs no DH step and keeps it ahead |
| `TwoParty.DeliverToBehind` | src/core/services/SessionManager.js:1073-1134 | A delivery to the peer behind swaps the roles exactly when the ratchet key is new and the nonce is not a replay |
| `TwoParty.RelinkKeepsLinked` | src/core/services/SessionManager.js:624-734 | A dh-mode reconnect of either peer keeps the sync invariant |
| `Rekeying.ExactlySurvivorsOpen` | src/core/services/SessionManager.js:679-725 | After a kem-mode reconnect, in every run with further ones: the same deliveries are possible as after dh-mode reconnects, a rejected one is rejected alike, and one that would have opened opens if and only if its ratchet key is newer than the latest reconnect or its receiver knew the key and stood level with the sender |
| `Rekeying.KemIsFaithful` | src/core/services/SessionManager.js:679-725 | Whatever opens after kem-mode reconnects is exactly what was encrypted, once per envelope |
| `Rekeying.LeaderUnheard` | src/core/services/SessionManager.js:679-725 | Whatever the peer that was ahead sends after a kem-mode reconnect under its old ratchet key is rejected: as undecipherable where it would have opened after a dh-mode reconnect, and otherwise alike |
| `Rekeying.LeadersFirstMessageLost` | src/core/services/SessionManager.js:679-725 | At any state of any run: right after a kem-mode reconnect the next chat of the peer ahead can be delivered and is rejected as undecipherable, where it would have opened after a dh-mode one; only after 100 envelopes under its key without an answer it is rejected as too far ahead instead |
| `Rekeying.RekeyBreaksSync` | src/core/services/SessionManager.js:679-725 | After a kem-mode reconnect the peers are never in sync |
| `Rekeying.NewKeysAreHeard` | src/core/services/SessionManager.js:679-725 | An envelope under a ratchet key made after the reconnect opens exactly as after a dh-mode one |
| `Rekeying.MarksOfSynced` | src/core/services/SessionManager.js:679-725 | Of two peers in sync the one behind has not seen the leader's key, the leader has seen the other's, so only that direction can survive |
| `Rekeying.ReconnectBeside` | src/core/services/SessionManager.js:679-725 | A kem-mode reconnect changes nothing that decides which turns decryption takes, whatever the keys were before it |
| `Rekeying.KemConversation` | src/core/services/SessionManager.js:975-999 | Re-keying never corrupts a log: received logs are subsequences with rising counters in every kem-mode run |
| `Rekeying.ReplacedChainsHangOnSharedKey` | src/adapters/crypto/WebCryptoEcdhAesGcm.js:202-225 | Without one of its chain keys, a key of a replaced chain is derivable if and only if the new handshake key is |
| `RekeyedKeys.KemKeysAreOneTime` | src/core/services/SessionManager.js:1053-1063 | Over a whole kem-mode session with a new handshake key for every reconnect no two envelopes of either peer share a message key |
| `RekeyedSecrecy.KemForwardSecrecy` | src/core/services/SessionManager.js:1053-1134 | After kem-mode reconnects, at any point of any run, a peer's ratchet state and private key give the key of no envelope it has sent or opened |
| `RekeyedHealing.KemCompromiseHeals` | src/core/services/SessionManager.js:1018-1051 | A state captured at any point of a reconnected kem session: once the victim has another ratchet key its root and send chain are out of reach, as is every key from two roots past the capture on and every key of a chain set since by a reconnect |
| `RekeyedHealing.CaptureBeforeReconnect` | src/core/services/SessionManager.js:1018-1051 | The same for a capture before the first reconnect |
| `RekeyedSecrecy.ReplacingDoesNotHelp` | src/adapters/crypto/WebCryptoEcdhAesGcm.js:202-243 | Knowing keys of replaced chains gives nobody a key that was not derived on one |
| `RekeyedSecrecy.DecryptTidies` | src/core/services/SessionManager.js:1108-1133 | The key that opens an envelope is afterwards neither buffered nor ahead on the receive chain |
| `Reconnection.ReconnectIsLoss` | src/core/services/SessionManager.js:624-734 | The runs possible after a dh-mode reconnect are exactly those possible without it that deliver nothing sent before; all decrypt calls return the same and both peers end in the same state but for the nonce set |
| `Reconnection.ReconnectsDoNotMatter` | src/core/services/SessionManager.js:624-734 | With all dh-mode reconnects erased, of either peer and however many, a run is still possible, its decrypt calls return the same and both peers end in the same state |
| `Reconnection.RunKeepsBoundaries` | src/core/services/SessionManager.js:930-976 | In every run what a peer ignores for its old transport is something the other has sent |
| `Reconnection.NextKeepsParallel` | src/core/services/SessionManager.js:930-976 | One event is possible with the reconnect exactly if it is without and is no late delivery; the result is the same and the same difference remains |
| `Delivery.ExactDelivery` | src/core/services/SessionManager.js:1073-1134 | From the handshake on, in every run, a delivery opens if and only if its nonce is not among the last 500, it was not opened before, its index was not given up for 200 newer ones and it is at most 100 past the end |
| `Delivery.RunKeepsTied` | src/core/services/SessionManager.js:1073-1134 | Over every run each ratchet follows its ideal receiver, and exactly the opened positions of the epoch are released |
| `Delivery.DecryptFollows` | src/core/services/SessionManager.js:1073-1134 | Any envelope of any epoch: a message key is used exactly when the ideal receiver grants it, which it keeps following |
| `Receiver.TakeKeyRefines` | src/core/services/SessionManager.js:1108-1133 | A key is granted exactly when the ideal receiver, which knows sets of indices only, grants it; it is the true key of its index, and a refusal changes nothing |
| `Receiver.DecryptRefines` | src/core/services/SessionManager.js:1073-1134 | One envelope of the epoch, honest or forged: it uses a key exactly when the ideal receiver does and opens exactly with the true key of its index |
| `Receiver.EpochRefines` | src/core/services/SessionManager.js:1073-1134 | Over any sequence of envelopes of an epoch the ratchet hands out exactly what the ideal receiver does, and mirrors it at the end |
| `Receiver.OfferAllKeepsWhole` | src/core/services/SessionManager.js:1108-1133 | The ideal receiver's released, open and evicted indices partition the passed ones; at most 200 are open, all above the evicted, and each evicted one has had 200 newer ones skipped |
| `Receiver.EpochAccounts` | src/core/services/SessionManager.js:1108-1133 | So under any order, loss, duplication and forgery the indices below `receiveChainIndex` are the disjoint union of released, buffered and evicted ones |
| `Receiver.WindowKeepsNewest` | src/core/services/SessionManager.js:1125-1127 | Dropping the oldest entries over 200 gives up exactly the indices that have 200 newer ones beside them |
| `Receiver.EachKeyAtMostOnce` | src/core/services/SessionManager.js:1108-1133 | No sequence of envelopes makes the receiver use one key twice |
| `Receiver.SkippedStaysRecoverable` | src/core/services/SessionManager.js:1117-1128 | A skipped index still opens as long as it was not used and fewer than 200 newer indices were skipped |
| `Receiver.StepStartsEpoch` | src/core/services/SessionManager.js:1043-1050 | A DH step starts a new epoch of the ideal receiver, in which all but the nonces is forgotten |
| `Receiver.NonceWindow` | src/core/services/SessionManager.js:1089-1099 | Over any envelopes of any epochs the nonce set is the last min(500, k) of the k nonces accepted since its reset |
| `DoubleRatchet.DecryptAny` | src/core/services/SessionManager.js:1073-1134 | For anything that arrives with the v2 form, its key unreadable, unusable or forged: the state stays well formed; a duplicate nonce and a key text that is not JSON change nothing; an unusable key, and under the last key a missing key or a gap over 100, leave all but the nonce window as it was |
| `DoubleRatchet.SecondCopyRejected` | src/core/services/SessionManager.js:1083-1099 | The second copy of anything with a nonce is rejected as a replay and changes nothing, even if the first could not be opened |
| `DoubleRatchet.TakeKeyOk` | src/core/services/SessionManager.js:1108-1133 | For any index: the key granted is the true one, granted exactly for a buffered index or one at most 100 ahead; it is past and unbuffered afterwards, and the map holds true keys only, at most 200 |
| `DoubleRatchet.AppendRange` | src/core/services/SessionManager.js:1120-1124 | A gap buffers exactly its indices, each with its true key, after all that was buffered |
| `Lineage.KeysAreOneTime` | src/core/services/SessionManager.js:1053-1063 | Over a whole run, failed sends included, no two envelopes of a peer share (pk, n) and no two envelopes of either peer share a message key |
| `Lineage.RunKeepsTrace` | src/core/services/SessionManager.js:1024-1063 | Every root, chain and message key of a run descends from the handshake root as named by its envelope |
| `Secrecy.DerivableIsLeastClosure` | src/adapters/crypto/WebCryptoEcdhAesGcm.js:202-323 | What the attacker can derive is exactly the least set closed under all functions of the crypto adapter |
| `Secrecy.ForwardSecrecy` | src/core/services/SessionManager.js:1053-1063 | At any point of any run a peer's root, chains, buffered keys and ratchet private key do not give the key of any envelope it has encrypted |
| `Secrecy.ForwardSecrecyWithHandshakeKey` | src/core/services/SessionManager.js:1031-1046 | With the retained handshake key captured too, they do so if and only if the peer is still on its initial root |
| `Secrecy.OpenedStaySecret` | src/core/services/SessionManager.js:1108-1133 | Nor do they give the key of any envelope the peer has opened, of any epoch |
| `Healing.StepHeals` | src/core/services/SessionManager.js:1018-1051 | After one DH step the new root and the new send chain are derivable if and only if the remote or the new key pair is compromised; the new receive chain always is |
| `Healing.ChainKeysAloneAreWorthNothing` | src/core/services/SessionManager.js:1018-1022 | From captured chain keys alone none of the three new secrets is derivable |
| `Healing.CompromiseHeals` | src/core/services/SessionManager.js:1018-1051 | Over every run after a full capture: once the victim has a new ratchet key its root and send chain are out of reach, and so is the key of every envelope of either peer from two roots past the captured one on |
| `Conversation.LosslessConversation` | src/core/services/SessionManager.js:738-999 | Over lossless FIFO channels, with chat and control on one ratchet, the skipped map stays empty and received logs are prefixes |
| `Conversation.LosslessDelivery` | src/core/services/SessionManager.js:1073-1134 | Over lossless FIFO channels decryption never throws |
| `Conversation.LossyConversation` | src/core/services/SessionManager.js:975-999 | With losses, duplicates, failed sends and reconnects: received logs are subsequences of the other's own log, with strictly rising counters |
| `Conversation.OwnLogIsWhatWentOut` | src/core/services/SessionManager.js:738-770 | Over every run, failed sends included, the own log is exactly the chats of the envelopes that went out, in order |
| `Conversation.FailedSendLeavesNoTrace` | src/core/services/SessionManager.js:756-765 | A send that throws in the transport costs a counter, an index and a message key, and neither log shows the message; a title stays set here |
| `Conversation.FailedSendNeverArrives` | src/core/services/SessionManager.js:753-757 | However the run goes on, the envelope of a failed send is never delivered |
| `Conversation.TextsRefused` | src/core/services/SessionManager.js:744-754 | Exactly texts of no or more than 10000 characters are refused before anything is encrypted; the counter goes up all the same |
| `ChatLog.ReceivedExactly` | src/core/services/SessionManager.js:975-999 | Every payload that opens: a chat is logged if and only if its text has 1 to 10000 characters and its counter is above the last accepted one by at most 10000, a title message sets a title that is not empty, and nothing else changes |
| `ChatLog.AnyPayloadsKeepLogSound` | src/core/domain/Session.js:110-117 | Whatever sequence of payloads opens, those of a lying peer included: every received entry is valid, counters rise by 1 to 10000 from entry to entry, and the own log stays as it is |
| `Titles.TitleIsTheLastOne` | src/core/services/SessionManager.js:774-1167 | Over every run the title is the last one set here or opened in a title message |
| `Titles.EveryTitleWasSet` | src/core/services/SessionManager.js:774-1167 | Over every run, a title that is shown was set by one of the two users |
| `Titles.NextTitleArrives` | src/core/services/SessionManager.js:1157-1163 | Over lossless FIFO channels the delivery of a title message sets exactly the title sent, unless it is empty, and no other delivery touches the title |
| `Titles.TitlesConverge` | src/core/services/SessionManager.js:774-1163 | When one peer alone sets titles, none empty, over such channels: the other shows the last of those that have arrived, and the same title once all is delivered |
| `Conversation.CounterGapIsPermanent` | src/core/domain/Session.js:110-117 | Valid messages arriving in order are all dropped if and only if the first is more than 10000 past the last accepted counter |
| `Conversation.RefusedTextsCloseTheLog` | src/core/services/SessionManager.js:738-754 | On a link that has lost nothing, the chat after k refused texts is delivered and decrypted, and dropped if and only if k is 10000 or more |
| `Keys.MessageKeyAtInjective` | src/adapters/crypto/WebCryptoEcdhAesGcm.js:227-243 | Message keys of different chains or indices differ |
| `SessionManager.Manager.PerformDhRatchetStep` | src/core/services/SessionManager.js:1024-1051 | The fields afterwards are the DH step of the fields before, with nothing else changed |
| `SessionManager.Manager.RatchetEncrypt` | src/core/services/SessionManager.js:1053-1063 | The envelope and the fields afterwards are those of `Encrypt` |
| `SessionManager.Manager.RatchetDecrypt` | src/core/services/SessionManager.js:1073-1134 | For anything with the v2 form the outcome and the fields afterwards are those of `DecryptWire`, on every rejection path too |
| `SessionManager.Manager.NoteFirstUse` | src/core/services/SessionManager.js:1089-1099 | The nonce check fails exactly on a replay; the set keeps its 500 newest |
| `SessionManager.Manager.ObtainKey` | src/core/services/SessionManager.js:1108-1133 | The lookup, the gap check and the advance compute `TakeKey` |
| `SessionManager.Manager.SkipTo` | src/core/services/SessionManager.js:1120-1128 | The skip loop, at most 100 turns, leaves the advanced chain and the newest 200 of the buffered and skipped keys |
| `SessionManager.Manager.SendMessage` | src/core/services/SessionManager.js:738-770 | Refused when not connected; otherwise the peer moves as `Say`: the counter goes up in any case and an invalid text stops there. The log gains the message exactly if the send succeeds; if it throws, the key is spent and the log is as before |
| `SessionManager.Manager.SendTitle` | src/core/services/SessionManager.js:774-792 | The title is set in any case; a control message goes over the ratchet exactly when connected, as `Tell` |
| `SessionManager.Manager.OnMessage` | src/core/services/SessionManager.js:975-999 | A stale transport is ignored with nothing changed; otherwise the peer moves as `Hear`, or, for an unusable ratchet key, only notes the nonce. The title changes exactly if a title message with a title opens, to that title |
| `SessionManager.Manager.OnStateChange` | src/core/services/SessionManager.js:930-972 | A stale transport is ignored; otherwise the status moves as `Handle` says: a live session whose link goes down is DISCONNECTED, and a waiting one whose link comes up is CONNECTED within its life time and EXPIRED after it |
| `SessionManager.Manager.Disconnect` | src/core/services/SessionManager.js:851-873 | The transport is gone and a live status becomes DISCONNECTED, whatever the closing transport reports |
| `SessionManager.Manager.ReconnectAsHost` | src/core/services/SessionManager.js:624-656 | A code for this session, a new transport and a status change; ratchet, nonces and log untouched |
| `SessionManager.Manager.ReconnectAsGuest` | src/core/services/SessionManager.js:658-706 | A code that cannot be read or is another session's changes nothing. In kem mode with a known host both chains are replaced by those of the encapsulated key, both directions as a guest has them, and the cipher text for the host goes into the answer; in dh mode, or with no host known, keys and indices stay and the cipher text is null |
| `SessionManager.Manager.RelinkedExactly` | src/core/services/SessionManager.js:651-700 | The status change of a reconnect: it returns exactly for a lost session, for a live one whose old transport reports its closing, and for a waiting one within its life time |
| `SessionManager.Manager.FinalizeReconnect` | src/core/services/SessionManager.js:708-734 | An unusable answer changes nothing; otherwise nonces are forgotten, and in kem mode with a cipher text both chains are replaced by those of the decapsulated key as a host has them |
| `SessionManager.Manager.CreateSession` | src/core/services/SessionManager.js:295-393 | The code is the encoding of the signed offer; the new entry has the host's keys, fingerprint and an awaiting session |
| `SessionManager.Manager.JoinSession` | src/core/services/SessionManager.js:395-550 | It fails exactly with the error of `ReadOffer`; otherwise handshake key and answer are the guest's, and with a ratchet key in the offer state and fingerprints are those of `Join`, without one both chains are symmetric |
| `SessionManager.Manager.StartGuestRatchet` | src/core/services/SessionManager.js:447-497 | The guest's ratchet after its two key pairs and its own root step is `GuestRatchet`; for an offer without a ratchet key only the symmetric chains are set, and for one that is falsy without being null nothing |
| `SessionManager.Manager.FinalizeSession` | src/core/services/SessionManager.js:552-620 | An answer that does not decode, is for another session (`WrongSession`) or has no usable public key changes nothing. Otherwise the host holds the concluded key and, with ratchet keys on both sides, `InitDhRatchet`, or symmetric chains without one; without a concluded key all derived keys stay, and keys that do not fit leave the status; it succeeds exactly when the keys fit and the status allows it |
| `SessionManager.Manager.StartHostRatchet` | src/core/services/SessionManager.js:588-612 | The host's ratchet is `InitDhRatchet` of its own and the answered key; without one only the symmetric chains are set, and an unusable key is refused |
| `SessionManager.Manager.SetRemote` | src/core/services/SessionManager.js:565-576 | A changed remote fingerprint resets its verification, an unchanged one does not |
| `Sessions.Session.constructor` | src/core/domain/Session.js:50-76 | A new session is CREATED, with no keys and all counters at zero |
| `Sessions.Session.Transition` | src/core/domain/Session.js:86-104 | The status afterwards and whether the call returned are those of `Attempt` |
| `Sessions.Session.NextMessageCounter` | src/core/domain/Session.js:106-108 | Counters are handed out one by one, from 1 |
| `Sessions.Session.ValidateReceivedCounter` | src/core/domain/Session.js:110-117 | Accepted exactly if positive, above the last accepted and at most 10000 above it; only then remembered |
| `Handshake.HonestHandshake` | src/core/services/SessionManager.js:295-620 | What an honest exchange that goes through leaves behind: the handshake key is the encapsulated one in kem mode and the DH output in dh mode, on both sides; the answer carries the guest's SDP and identity; fingerprints mirror each other; and the peers start in sync with the guest one root ahead on its second key while the answer carries the first |
| `Handshake.GoesThroughExactlyInTime` | src/core/services/SessionManager.js:295-620 | With untouched codes every check of create, join and finalize passes, the status transitions included, if and only if the exchange is in time |
| `Handshake.ConnectsExactlyWithinLife` | src/core/services/SessionManager.js:938-953 | After such an exchange each peer ends connected if and only if its link comes up within five minutes of the creation of the session, and expired otherwise |
| `Handshake.SameFingerprintSameInvite` | src/core/services/SessionManager.js:398-440 | For any code the guest accepts, signing key and signature stripped or replaced included: the fingerprint it shows is the one the host shows for itself if and only if the code carries the six fields the host signed |
| `Handshake.HonestReconnect` | src/core/services/SessionManager.js:679-725 | In an honest kem-mode reconnect the host takes from the answer the very handshake key the guest made |
| `Handshake.EstablishedStartsInSync` | src/adapters/crypto/WebCryptoEcdhAesGcm.js:292-323 | The states both roles derive satisfy every hypothesis of the theorems about runs |
| `Handshake.InviteArrives` | src/core/services/SessionManager.js:329-430 | The untouched invite passes every check of the guest exactly while it is current (five minutes, and from 30 s before it was made by a clock that is behind), and gives it the host's SDP, session id, time and keys |
| `Handshake.AlteredInviteIsRefused` | src/core/services/SessionManager.js:398-419 | An invite under the host's signing key that lacks one of the six fields the host signed is refused, as unsigned if the signature is gone and as forged otherwise |
| `Handshake.AnswerIsForOneSession` | src/core/services/SessionManager.js:556-559 | A host that reads the answer to another of its sessions refuses it as that, if it is current, and otherwise as too old or dated in the future |
| `Handshake.KemNeedsCipherText` | src/adapters/crypto/HybridPqCryptoAdapter.js:65-92 | In kem mode the host concludes a key exactly from a cipher text |
| `Handshake.KeysAgree` | src/adapters/crypto/HybridPqCryptoAdapter.js:69-92 | From the host's offer both modes give both peers the same handshake key |
| `Lifecycle.EveryChangeIsLegal` | src/core/domain/Session.js:16-104 | Over every run of the manager each status passed through is an edge of the table from the one before or a forced expiry, and a session becomes connected only within its life time |
| `Lifecycle.TrailIsHandle` | src/core/services/SessionManager.js:930-972 | The trail of an event runs from the old to the new status in legal steps, the manager's direct assignments included |
| `Lifecycle.StatusAfter` | src/core/services/SessionManager.js:851-972 | What every event makes of every status, in and past the life time |
| `Lifecycle.TransitionReturns` | src/core/domain/Session.js:25-104 | For every target status, exactly when `transition` returns and what it leaves otherwise |
| `Lifecycle.LostLinkStaysDown` | src/core/services/SessionManager.js:851-972 | Over every run: a live session whose link goes down, or that is disconnected, is DISCONNECTED at once, and before it is CONNECTED again there is a reconnect, or its answer pasted once more, and after that a link that comes up |
| `Lifecycle.DownUntilReconnected` | src/core/services/SessionManager.js:938-953 | No other run takes a disconnected session to CONNECTED |
| `Lifecycle.LinkUpConnects` | src/core/services/SessionManager.js:938-953 | No session becomes CONNECTED without a link that comes up |
| `Lifecycle.ExpiredIsFinal` | src/core/domain/Session.js:16-48 | No sequence of events leaves EXPIRED |
| `Lifecycle.ReconnectOnlyWithinLife` | src/core/domain/Session.js:86-97 | A reconnect ends connected if and only if the link comes up within the session's life time, and in EXPIRED otherwise |
| `Lifecycle.LateReconnectExpires` | src/core/domain/Session.js:86-97 | A session connected in time and reconnected after six minutes ends in EXPIRED |
| `RateLimiter.DataChannel.OnMessage` | src/adapters/transport/WebRtcTransportAdapter.js:119-135 | The handler's counters and deliveries are those of `Admit` |
| `RateLimiter.DeliveryBound` | src/adapters/transport/WebRtcTransportAdapter.js:117-135 | For any trace on a clock that never goes back, at most 30 * (ceil(L / 1000) + 1) messages are delivered in any L > 0 ms |
| `RateLimiter.DeliveryBoundIsTight` | src/adapters/transport/WebRtcTransportAdapter.js:117-135 | For every L > 0 the bound is reached |
| `RateLimiter.DeliveredInOrder` | src/adapters/transport/WebRtcTransportAdapter.js:119-135 | What is delivered is an in-order subsequence of the arrivals, none oversized |
| `RateLimiter.OversizedDoNotCount` | src/adapters/transport/WebRtcTransportAdapter.js:119-122 | For any trace, oversized messages cost the others nothing: what is delivered is the same without them |
| `RateLimiter.PoliteSenderLosesNothing` | src/adapters/transport/WebRtcTransportAdapter.js:117-135 | At most 30 arrivals in every 1000 ms and none oversized: nothing is lost |
| `Base64Url.EncodeBytes` | src/shared/encoding/base64url.js:6-16 | The loop over the byte array gives `Encode` of its contents |
| `Base64Url.DecodeText` | src/shared/encoding/base64url.js:18-27 | The loop fills a new array with `Decode` of the text, or the call throws |
| `Base64Url.Alphabet` | src/shared/encoding/base64url.js:6-16 | The digits are those of RFC 4648 tables 1 and 2 |
| `Base64Url.SameNumber` | src/shared/encoding/base64url.js:6-16 | Bytes and digits are the same big-endian number, spare bits low |
| `Base64Url.DecodeEncode` | src/shared/encoding/base64url.js:6-27 | Decoding an encoding gives the bytes back, for every byte sequence |
| `Base64Url.EncodedLength` | src/shared/encoding/base64url.js:6-16 | The length is ceil(4n / 3), never 1 modulo 4, all in the url alphabet |
| `Base64Url.EncodeInjective` | src/shared/encoding/base64url.js:6-16 | Different bytes have different encodings |
| `Base64Url.EncodeDecode` | src/shared/encoding/base64url.js:6-27 | Every url text whose length is not 1 modulo 4 decodes, and encodes back to itself if and only if the spare bits of its last digit are zero |
| `Invite.CanonicalBytesCoverAll` | src/adapters/signaling/ManualCodeSignalingAdapter.js:9-13 | Equal signed bytes if and only if all six covered fields are equal, absent and null ratchet key counting as one |
| `Invite.OfferRoundTrip` | src/adapters/signaling/ManualCodeSignalingAdapter.js:21-59 | A complete offer decodes exactly while its timestamp is acceptable, to the fields that went in, and is refused as badly dated or as too old otherwise |
| `Invite.DecodedBytesAreTheSignedOnes` | src/adapters/signaling/ManualCodeSignalingAdapter.js:9-59 | The guest recomputes the bytes the host signed if and only if the ratchet key is truthy, null or absent |
| `Invite.AcceptedInviteIsTheHosts` | src/core/services/SessionManager.js:398-419 | An accepted invite under the host's signing key carries the six fields the host signed, whatever happened to the code |
| `Invite.AnswerRoundTrip` | src/adapters/signaling/ManualCodeSignalingAdapter.js:61-90 | An answer decodes to itself for five minutes (30 s clock skew), and with the right error outside |
| `Invite.IncompleteCodes` | src/adapters/signaling/ManualCodeSignalingAdapter.js:33-77 | Codes that cannot be decoded or lack a required property are refused as that, whatever else they hold |
| `Invite.TimelessAnswer` | src/adapters/signaling/ManualCodeSignalingAdapter.js:77-89 | An answer without a time stamp never ages, and absent keys read as null |
| `Invite.ReconnectRoundTrip` | src/core/services/SessionManager.js:640-644 | Reconnect codes are read back as they were made by the session they are for, and refused by any other |
| `Invite.StringifyKeepsProperties` | src/shared/encoding/base64url.js:37-39 | Dropping undefined properties when writing JSON loses nothing that reading can see |

## Left out

- Interleaving at `await` points: each encrypt, decrypt and handshake call is one atomic step with one reading of the clock; the code does not serialise its handlers, so this is a hypothesis.
- Forged envelopes in the two-party system: state is committed before decryption succeeds, so only honest traffic keeps the sync invariant; `DoubleRatchet.DecryptAny` and `Receiver.dfy` cover arbitrary envelopes.
- Late delivery across epochs: an envelope with an older ratchet key makes the receiver step again, so it is outside the channel hypothesis.
- Half a kem-mode reconnect: if the answer never comes back only the guest has re-keyed, but then nothing can be sent until a later reconnect is completed, and both halves are one event.
- The symmetric fallback after the handshake and the old envelope format; only the setup of its chains is modelled.
- The branches for crypto adapters without ratchet or signing functions, and for a failure inside invite signing.
- Ratchet keys written by other programs: the last-seen key is compared as text, so honest keys are taken to have one text each.
- Numbers that are not integers (a fractional index or NaN, fractional counters and timestamps).
- Ratchet state across storage, persistence and secret wrapping: what is written does not contain all that would be read.
- Session lookup ("Session not found"), session deletion and the delete request and confirmation messages.
- Rehydration and `setError`, which set the status directly.
- The title that a new connection sends of its own accord is a `SendTitle` call like any other.
- JSON text, UTF-8 and the parsing of codes: a code is the object it was made from, or undecodable.
- Collisions: a fingerprint is taken to name its keys, though it is eight bytes of a hash.
- The insides of HKDF, HMAC, AES-GCM, ECDH, ECDSA and XWing, and the failures of their foreign calls on well-formed keys.
- ICE, SDP, TURN, the shared worker, the router, the user interface and the use-case classes.
