# xmpp-go, verified

A Dafny model of the parts of xmpp-go that hold state over many calls, with proofs about
every run of them. `dafny verify dfyconfig.toml` checks the whole project.

- **OMEMO** (`crypto/omemo`). Two Double Ratchets and the messages between them, in every
  interleaving of sends, deliveries in any order, losses, replays within the present chain
  and reloads; what a replay from an older chain destroys; one ratchet under arbitrary calls;
  the X3DH agreement that starts a session; the binary formats, octet by octet, and states cut
  short; one manager under every sequence of calls; two managers in conversation, among their
  other calls and restarts.
- **Plugin order** (`plugin/manager.go`). Kahn's algorithm over maps without an iteration
  order, and the life cycle it drives.
- **Message archive** (`storage/memory/memory.go`). Paging sessions over an archive that may
  grow while it is paged.
- **SCRAM** (`sasl/scram.go`, `cmd/xmppd/scram.go`). The client against a server that holds
  only the registered record, and the client under every sequence of calls.
- **Addresses and routing** (`jid/jid.go`, `cmd/xmppd/stream.go`). Printing and parsing of
  addresses, and the router's two indexes under every interleaving of connections.
- **Small cores.** The compare-and-swap state word (`session.go`), the acknowledgement queue
  with counters that wrap (`plugins/sm/sm.go`), the sliding-window limiter
  (`cmd/xmppd/registration.go`).

## How the source is modelled

Code that updates fields is a class whose methods are proved equal to functions on values
(`MutableRatchet.RatchetState` and `DoubleRatchet`, `ManagerObject.Manager` and
`OmemoManager`, `Scram.Mechanism` and the functions beside it); the theorems about runs are
about those functions. Loops stay loops. Go maps that are walked are walked in an arbitrary
order. A locked method is one atomic step. What is drawn at random (keys, nonces, resources)
and what the clock says is a parameter. A Go panic is the error `RuntimePanic`.

The octets of OMEMO are symbolic: an octet is a literal, or position `i` of the output of a
cryptographic operation, and operations are free constructors. Outputs are equal only for
equal operations and inputs, keep their length, and can be cut and joined as the source does.
Diffie-Hellman keeps its two private keys as an unordered pair. A 32-octet string of literals
stands for a point that X25519 or the Edwards map refuses. A symbolic octet has no known
numeric value and reads as 0 where the source reads a number. SCRAM takes HMAC, the hash,
PBKDF2 and base64 as functions of which only lengths, the base64 round trip and the absence
of commas in base64 are assumed.

Assumptions that hold by construction of these octets are stated as lemmas in `Octets`: AES-GCM
opens under the sealing key and nonce (`OpenSealed`) and under no other
(`OpensOnlyUnderSealingKey`), the private and the public half of an identity key convert to
one agreement key (`EdConversionsAgree`), and agreement commutes (`SharedSecretCommutes`).

## Where code and expectation differ

- A session's bytes of length 33 that announce pre-key data make loading panic, and nothing
  else does (`OmemoSession.DecodePanics`).
- A saved ratchet state that was cut short is refused, unless the cut is in the last message key,
  which then loads with zeros at its end, or in the number of stored keys and this number then
  reads as 0, which loses them all (`RatchetFormat.TruncationTheorem` has the exact conditions).
- A message delivered once more fails, as it should, but can use up the keys of others. One of
  the present chain uses up that of the message the receiver is at (`RatchetRuns.ReplayLosesOne`).
  One of an older chain loses a message of the present chain that is not passed over yet exactly
  when there is room to skip to the length its header names and the message's number is not below
  that length (`RatchetReplay.OldReplayTheorem`). With room it also ends the conversation: nothing
  that the peer seals from then on is opened unless its key was stored already
  (`RatchetReplay.NextChainLost`, `RatchetReplay.DivergenceTheorem`). Without room it is refused
  and nothing is lost (`RatchetReplay.RefusedReplay`). `RatchetReplayRun.OldReplayRun` is a run
  that leads there.
- Every key that a ratchet tries descends from the secret its session agreed on exactly when no
  header names the remote key it already has before it has a receiving chain
  (`RatchetKeyUse.OriginTheorem`). Such a header is tried with a key that anyone can compute, and
  what is sealed under that key opens (`RatchetKeyUse.AbsentChainOpens`).
- Every key that a ratchet seals under descends from that secret exactly when it does not encrypt
  before it has a sending chain (`RatchetKeyUse.SealingTheorem`). A first message without a key for
  the device leaves the responder with such a session, and its answer is sealed under a key that
  anyone can compute (`OmemoDelivery.UnreadFirstMessage`).
- A SCRAM challenge whose iteration count does not scan is answered exactly when the last
  challenge whose count did scan was, and then with that count (`ScramExchange.StaleTheorem`,
  `ScramExchange.StaleCount`).
- Every paging session over an archive ends exactly when the ids of all its messages but the last
  are distinct (`MessageArchive.EndsTheorem`). A caller's id may collide with one that the store
  assigned, and then a session may never end (`MessageArchive.CollidingIds`).
- Closing after a failed initialisation also closes plugins that were never initialised
  (`PluginManager.CloseTheorem`).
- An address with a bracketed domain does not always survive printing and parsing
  (`Addresses.ParseString` has the exact condition, `Addresses.BracketDomain` an input).
- Ending a session removes its address even when another session has taken it over
  (`RouterRuns.EndTheorem`, `RouterRuns.TakeoverRun`); `RouterRuns.ReachableTheorem` says
  exactly when a session is reached. A session that binds twice leaves its first entry behind when
  it ends; no other entry outlives its session (`RouterRuns.StaleEntryTheorem`).
- The acknowledgement queue is exact as long as fewer than 2^32 stanzas were acknowledged and
  never again afterwards, though it never loses one (`StreamManagement.QueueTheorem`). An
  acknowledgement between enqueueing and counting a stanza loses one exactly under the condition
  of `StreamManagement.ExposureTheorem`; `StreamManagement.UncountedStanzaIsLost` is a run.

## Model

| member | source | states |
|---|---|---|
| `MutableRatchet.RatchetState.RatchetEncrypt` | crypto/omemo/ratchet.go:83-105 | new state, header and nonce-prefixed ciphertext are those of the value model `Encrypt` |
| `MutableRatchet.RatchetState.RatchetDecrypt` | crypto/omemo/ratchet.go:108-135 | new state and answer are those of `Decrypt`, on every failure path too |
| `MutableRatchet.RatchetState.TrySkipped` | crypto/omemo/ratchet.go:137-149 | the stored key is gone whether or not it opens the data |
| `MutableRatchet.RatchetState.Skip` | crypto/omemo/ratchet.go:151-173 | the loop with its two limit checks, with the wrap of the bound, does what `SkipMessageKeys` says |
| `MutableRatchet.RatchetState.RatchetStep` | crypto/omemo/ratchet.go:175-215 | what is already replaced when the first or the second agreement fails, and the two root steps when both succeed |
| `MutableRatchet.RatchetState.MarshalBinary` | crypto/omemo/ratchet.go:226-270 | the bytes are the encoding of the state for some order of the skipped keys |
| `MutableRatchet.RatchetState.UnmarshalBinary` | crypto/omemo/ratchet.go:273-358 | success, failure and the loaded state are those of `Decode`, short reads included |
| `RatchetCodec.HeaderRoundTrip` | crypto/omemo/ratchet_header.go:18-39 | a header with a 32-octet key encodes to 40 octets that decode to it |
| `RatchetCodec.RatchetRoundTrip` | crypto/omemo/ratchet.go:226-382 | decoding undoes encoding for all optional fields, any number of skipped keys and any order of them |
| `RatchetFormat.HeaderLayout` | crypto/omemo/ratchet_header.go:18-28 | the key at 0, the number at 32 and the length of the previous chain at 36, the counters with their highest octet first |
| `RatchetFormat.RatchetLayout` | crypto/omemo/ratchet.go:226-270 | the position and the octets of every part of a saved state, for any order of the skipped keys |
| `RatchetFormat.TruncationTheorem` | crypto/omemo/ratchet.go:273-382 | for every proper prefix of every saved state: whether it loads, and what as |
| `Octets.DerivedOctets` | crypto/omemo/kdf.go:22-45 | which octet of which HMAC or HKDF output each octet of a message key, chain key and root key is |
| `RatchetRuns.DeliveryTheorem` | crypto/omemo/ratchet.go:34-215 | in every run, replays within the present chain included, a message whose key is not spent decrypts to its plaintext if and only if the keys to skip fit the limits, and otherwise fails with the limit error and stays deliverable |
| `RatchetRuns.ReceivingChainTheorem` | crypto/omemo/ratchet.go:108-215 | in every run a side's receiving chain is the peer's current or immediately previous sending chain, at the counters the states hold |
| `RatchetRuns.SkippedKeysTheorem` | crypto/omemo/ratchet.go:137-173 | in every run the store holds exactly the keys of messages sent, passed over and not spent, each under its own ratchet key and number |
| `RatchetRuns.ReplayLosesOne` | crypto/omemo/ratchet.go:108-149 | in every run a second delivery on the present chain fails, leaves the store alone and spends exactly the message the receiver is at, sent already or not |
| `RatchetReplay.OldReplayTheorem` | crypto/omemo/ratchet.go:108-215 | in every run, after a second delivery from an older chain, a message of the present chain not passed over yet is never tried again, over every further sequence of calls, if and only if there is room to leave the chain and its number is not below the length the old header names |
| `RatchetReplay.RefusedReplay` | crypto/omemo/ratchet.go:108-173 | in every run, without that room the replay fails with the limit error, keeps remote key and stored keys, and stores the key of every number it moves past |
| `RatchetReplay.NextChainLost` | crypto/omemo/ratchet.go:108-215 | in every run, with that room every message of the next chain that the peer already has is lost for good |
| `RatchetReplay.DivergenceTheorem` | crypto/omemo/ratchet.go:82-215 | in every run, with that room, whatever peer and receiver do from then on, with arbitrary headers and data, nothing that the peer seals is ever tried unless its key was stored at once |
| `RatchetReplayRun.OldReplayRun` | crypto/omemo/ratchet.go:34-215 | for all keys there is a run of a message, an answer and another message after which the first one can come again with room to leave the chain |
| `RatchetRuns.SentOpensLater` | crypto/omemo/ratchet.go:82-135 | a message sent at any point of a run opens to its plaintext after any further run in which it is still under way and fits |
| `RatchetRuns.SecondComesFirst` | crypto/omemo/ratchet.go:34-173 | for all keys and plaintexts there is a run in which the second message arrives first and opens |
| `RatchetRuns.LateFirst` | crypto/omemo/ratchet.go:10-173 | for all keys and every number there is a run in which the message with that number arrives first; it opens if and only if at most 1000 are skipped |
| `RatchetWorld.ReloadKeeps` | crypto/omemo/ratchet.go:226-382 | saving and loading a side in the middle of a run changes nothing |
| `RatchetKeyUse.NoKeyTwice` | crypto/omemo/ratchet.go:107-215 | over every sequence of encryptions, decryptions with arbitrary headers and data, and reloads, no message key is tried twice |
| `RatchetKeyUse.ReplayTheorem` | crypto/omemo/ratchet.go:107-149 | data that was decrypted once is never decrypted again, under whatever header |
| `RatchetKeyUse.OriginTheorem` | crypto/omemo/ratchet.go:108-215 | over every such sequence from a session's start, every key tried descends from the secret of the session if and only if no call names the remote key already held while there is no receiving chain |
| `RatchetKeyUse.AbsentChainOpens` | crypto/omemo/ratchet.go:108-135 | an initiator that has received nothing opens any plaintext sealed under the key of no chain, whatever the counters of the header |
| `RatchetKeyUse.SealingTheorem` | crypto/omemo/ratchet.go:82-105 | over every such sequence, every key sealed under descends from the secret if and only if no encryption comes before there is a sending chain |
| `RatchetKeyUse.SkipAtMost` | crypto/omemo/ratchet.go:151-173 | for all counters, also where the bound wraps, the loop runs at most 1000 times |
| `RatchetKeyUse.StoreGrowth` | crypto/omemo/ratchet.go:108-173 | a decryption leaves at most the larger of the previous number and 1000 stored keys, one more if it hits the limit |
| `RatchetKeyUse.StoreBoundTheorem` | crypto/omemo/ratchet.go:108-173 | a run with k limit failures never holds more than 1000 + k skipped keys |
| `RatchetKeyUse.TouchesReceiving` | crypto/omemo/ratchet.go:108-173 | decryption on the present chain, or where the limit forbids to leave it, keeps the sending side, the root and the remote key |
| `RatchetKeyUse.RefusedKeyLeaves` | crypto/omemo/ratchet.go:175-190 | a header key with which no agreement is possible fails, and what that leaves replaced and kept |
| `X3dh.GenerateBundle` | crypto/omemo/bundle.go:21-69 | an existing identity is reused, pre-keys are numbered from 1, and every key of the bundle is backed by a stored private key and a valid signature |
| `X3dh.AgreementTheorem` | crypto/omemo/x3dh.go:28-159 | initiator and responder compute the same secret for every backed bundle, with or without a one-time pre-key |
| `X3dh.SignatureTheorem` | crypto/omemo/x3dh.go:28-32 | for every bundle and draw, agreement succeeds only if the identity signed the signed pre-key; otherwise the signature error, or the panic on an identity key of the wrong length |
| `X3dh.SecretTheorem` | crypto/omemo/x3dh.go:28-101 | two agreements come to the same secret if and only if both identities, the ephemeral key, the signed and the one-time pre-key are the same |
| `OmemoSession.SessionsMeet` | crypto/omemo/session.go:23-67 | the two sessions of one agreement are the two ends of an initial world of the delivery theorem |
| `OmemoSession.SessionRoundTrip` | crypto/omemo/session.go:91-173 | loading undoes saving with or without pending pre-key data and pre-key id, in any order of skipped keys |
| `OmemoSession.SessionLayout` | crypto/omemo/session.go:91-128 | the position and the octets of every part of a saved session |
| `OmemoSession.DecodePanics` | crypto/omemo/session.go:131-173 | loading panics exactly on 33 octets whose last one announces pre-key data |
| `OmemoSession.DecodedSessionOk` | crypto/omemo/session.go:131-173 | whatever loads is a well-formed session |
| `OmemoSession.PendingTheorem` | crypto/omemo/session.go:70-88 | in every run of a session a message is marked as a pre-key message if and only if the session began as initiator and has decrypted nothing yet; pre-key data and identity are those of the start |
| `OmemoSession.SessionState.EncryptWith` | crypto/omemo/session.go:70-77 | a session encrypts as its ratchet does and says whether pre-key data is pending |
| `OmemoSession.SessionState.DecryptWith` | crypto/omemo/session.go:80-88 | a session decrypts as its ratchet does; pending pre-key data is dropped exactly on success |
| `OmemoSession.SessionState.MarshalBinary` | crypto/omemo/session.go:91-128 | the bytes are the encoding of the session for some order of the skipped keys |
| `ManagerObject.Manager.GetSession` | crypto/omemo/manager.go:187-234 | the cached, stored or newly agreed session, with what each case caches, saves and uses up, or the panic of loading the stored one |
| `ManagerObject.Manager.ProcessBundle` | crypto/omemo/manager.go:29-33 | the bundle is kept for the address and nothing else changes |
| `ManagerObject.Manager.Encrypt` | crypto/omemo/manager.go:41-115 | the loop over recipients stops at the first failure and leaves caches and store as `EncryptMessage` says; a successful call keeps every session in memory equal to its stored bytes decoded |
| `ManagerObject.Manager.Decrypt` | crypto/omemo/manager.go:118-185 | key lookup, session, ratchet, payload and save in that order, with the state each failure or panic leaves; a successful call keeps memory and bytes in step |
| `ManagerObject.Manager.DecryptFirst` | crypto/omemo/manager.go:315-428 | the responder's path: which pre-keys are looked up, consumed and saved, and when; a successful call keeps memory and bytes in step |
| `OmemoDelivery.FindsOwnKey` | crypto/omemo/manager.go:41-135 | with distinct device ids, the key a device finds is the one made by the session with it |
| `OmemoDelivery.EnvelopeOpens` | crypto/omemo/manager.go:41-185 | a device whose session opens what the sender's makes recovers the plaintext from the split key, tag and payload |
| `OmemoDelivery.EnvelopeTheorem` | crypto/omemo/manager.go:41-185 | the same at any later point of any run of the two sessions |
| `OmemoDelivery.FirstMessageTheorem` | crypto/omemo/manager.go:187-428 | from nothing but a published bundle, the first message for any number of distinct devices opens at the publisher |
| `OmemoDelivery.UnreadFirstMessage` | crypto/omemo/manager.go:349-383 | a first message without a key for the device fails and leaves its session cached; the next message to that sender carries its key sealed under the key of no chain |
| `OmemoLaws.PreKeyTheorem` | crypto/omemo/manager.go:315-360 | over every sequence of calls, successful or not, a one-time pre-key remains, unchanged, if and only if no first message named it to a device with an identity and the signed pre-key named; identity, device id and signed pre-keys never change |
| `OmemoLaws.OnceTheorem` | crypto/omemo/manager.go:315-360 | over every sequence of calls such a message is refused for want of the key if and only if the key was not there at first or an earlier call used it |
| `OmemoLaws.SessionTheorem` | crypto/omemo/manager.go:20-428 | over every sequence of calls of a new manager each session is with an identity that signed the pre-key of a bundle processed for that address, or that sent a first message from it, and this identity is on record |
| `OmemoLaws.MakingTheorem` | crypto/omemo/manager.go:41-428 | whatever the device, a call that makes a session begins it from a pre-key its identity signed and takes the one-time pre-key out of the bundle, or is a first message for a signed pre-key of the device |
| `OmemoLaws.UnsignedRefused` | crypto/omemo/manager.go:187-234 | a bundle whose identity did not sign its pre-key gives the signature error and changes nothing |
| `OmemoLaws.FailedReadTheorem` | crypto/omemo/manager.go:118-428 | a failed decryption leaves the stored sessions as they are |
| `OmemoLaws.PanicTheorem` | crypto/omemo/manager.go:187-258 | a stored session whose loading panics stops every call that needs it, and nothing changes |
| `OmemoLaws.WithoutSession` | crypto/omemo/manager.go:187-302 | without a session, plain decryption fails and changes nothing, and encryption says whether bundle or identity is missing |
| `OmemoLaws.FirstRefused` | crypto/omemo/manager.go:315-340 | a first message to a device without identity, or for a signed pre-key it does not have, changes nothing |
| `OmemoLaws.AuthenticTheorem` | crypto/omemo/manager.go:118-185 | whatever the device and the message, what decryption yields was sealed as a whole under 48 octets of key material that the session opened from the first key for the device |
| `OmemoDelivery.CoherenceTheorem` | crypto/omemo/manager.go:41-310 | after any run of successful calls every cached session equals what its stored bytes load to |
| `OmemoDelivery.RestartTheorem` | crypto/omemo/manager.go:20-310 | a new manager on the same store answers every further sequence of calls for those addresses identically |
| `OmemoConversation.ConversationTheorem` | crypto/omemo/manager.go:20-428 | in every conversation of two managers, among calls about other devices and restarts, each envelope for any number of recipients, read in any order and at most once, names the device that wrote it and opens to its plaintext if and only if the skipped keys fit |
| `OmemoConversation.TakenKeeps` | crypto/omemo/manager.go:20-428 | every call of either manager moves its session with the other as a step of the two ratchets or leaves it alone, and every envelope carries what the ratchet sent |
| `OmemoConversation.ApartKeeps` | crypto/omemo/manager.go:29-428 | a call about other devices, successful or not, leaves a session alone in memory and in the store |
| `OmemoConversation.ReopenTheorem` | crypto/omemo/manager.go:20-310 | after every run in which the skipped keys fitted, a device can be restarted on its store and the conversation goes on |
| `OmemoConversation.TalkBegins` | crypto/omemo/manager.go:187-428 | from nothing but a published bundle, the first envelope written and read puts two devices into such a conversation, with both sessions saved |
| `PluginManager.TopologicalSort` | plugin/manager.go:108-159 | for every iteration order: missing dependency, cycle (if and only if the graph has one), or a permutation with every dependency earlier |
| `DependencyGraph.StuckMeansCyclic` | plugin/manager.go:140-156 | names that all depend on one another without a way out contain a cycle |
| `DependencyGraph.OrderMeansAcyclic` | plugin/manager.go:108-159 | an order with every dependency earlier excludes cycles, self-dependencies included |
| `DependencyGraph.TransitiveEarlier` | plugin/manager.go:108-159 | in such an order everything a plugin depends on, however indirectly, is earlier |
| `PluginManager.LifecycleTheorem` | plugin/manager.go:52-91 | each plugin is initialised after all its transitive dependencies and closed before any of them |
| `PluginManager.Manager.Initialize` | plugin/manager.go:52-74 | which calls reach the plugins, up to the first that fails, whose error is returned, and that a refused order changes nothing |
| `PluginManager.Manager.Close` | plugin/manager.go:77-91 | all plugins are closed in reverse order and the first failure met is reported |
| `PluginManager.CloseTheorem` | plugin/manager.go:52-91 | closing calls exactly the initialised plugins if and only if none failed; otherwise also the one that failed and all later ones |
| `MessageArchive.Collect` | storage/memory/memory.go:365-391 | the one pass with its flag selects exactly the filtered part between the two ids |
| `MessageArchive.Store.QueryMessages` | storage/memory/memory.go:361-412 | the page, its completeness, first and last id for every query |
| `MessageArchive.Store.ArchiveMessage` | storage/memory/memory.go:345-359 | the copy appended with time and id filled in, other archives unchanged; assigned ids stay increasing numbers, and no message is without an id |
| `MessageArchive.NumberedIsDistinct` | storage/memory/memory.go:345-359 | ids that the store assigned are distinct and not empty |
| `MessageArchive.SelectedMeans` | storage/memory/memory.go:361-391 | the selection of every query over every archive, by positions and by the fields of the messages |
| `MessageArchive.PageTheorem` | storage/memory/memory.go:361-412 | one page is the first messages, up to the maximum or 100, of those in the range of ids with the correspondent asked for, not before the start and not after the end; completeness, first and last id and count |
| `MessageArchive.ShownTheorem` | storage/memory/memory.go:361-412 | a paging session shows exactly those messages, each once and in order |
| `MessageArchive.NextPage` | storage/memory/memory.go:361-412 | if the ids before the last message are distinct, asking again after a page's last message selects what the page left over |
| `MessageArchive.PagingTheorem` | storage/memory/memory.go:345-412 | under that condition the pages of a session together are the selection, in order, nothing lost or repeated, for every maximum, filter and end id; the session ends |
| `MessageArchive.FullPages` | storage/memory/memory.go:393-405 | exactly the last page is complete and every other one is full |
| `MessageArchive.FewPages` | storage/memory/memory.go:393-405 | a session takes no more pages than the selection fills, and one |
| `MessageArchive.EndsTheorem` | storage/memory/memory.go:345-412 | every session over an archive, for every maximum, filter, start and end, comes to a complete page if and only if the ids before the last message are distinct |
| `MessageArchive.CollidingIds` | storage/memory/memory.go:345-405 | with a given id equal to an assigned one, the archive has a session that never ends |
| `MessageArchive.GrowingPagingTheorem` | storage/memory/memory.go:345-412 | with messages arriving between the queries, a session that ends complete has shown the whole selection of the archive as it then is |
| `MessageArchive.GrowingShownTheorem` | storage/memory/memory.go:345-412 | the same said by positions and fields of the messages |
| `ScramMessages.ParseAttributes` | sasl/scram.go:186-194 | the loop yields the attributes of the comma-separated parts, the last of a name winning |
| `ScramMessages.ParsePrint` | sasl/scram.go:186-194 | parsing undoes printing for every list of fields without misplaced separators |
| `ScramMessages.ParseMeans` | sasl/scram.go:186-194 | what any text parses to: the value of a name is that of the last part between commas which is the name, an equals sign and a value |
| `ScramMessages.EscapeRoundTrip` | sasl/scram.go:196-200 | an escaped name has no comma and unescapes to the name |
| `Scram.XorBytes` | sasl/scram.go:214-220 | the loop computes the exclusive or, which undoes itself |
| `Scram.Mechanism.Start` | sasl/scram.go:81-96 | fields and reply, also where channel binding is missing |
| `Scram.Mechanism.Next` | sasl/scram.go:99-184 | fields and reply of both steps, with what each failing check leaves behind |
| `ScramExchange.FirstTheorem` | sasl/scram.go:81-96 | a server reads header, user name and nonce from the first message as the client meant them |
| `ScramExchange.ServerAccepts` | sasl/scram.go:110-160 | a proof made with the password verifies against the stored key, which was made by another function and holds no password |
| `ScramExchange.ExchangeTheorem` | cmd/xmppd/scram.go:13-30 | for every user, password, salt, count and nonces the exchange runs through, the server accepts the proof and the client the server's signature |
| `ScramExchange.CompletedTheorem` | sasl/scram.go:78-184 | over every sequence of calls a completed client got, for its last start, the challenge it answered and the last iteration count read by then, the signature under the ServerKey of its password |
| `ScramExchange.FinalTheorem` | sasl/scram.go:162-184 | in every run, for every final message: success if and only if it carries the signature for the last start, the answered challenge and the last count; otherwise its fault and an unchanged client |
| `ScramExchange.ChallengeAnswer` | sasl/scram.go:110-160 | a challenge is answered if and only if it extends the nonce, has salt and count, and the count then held is positive |
| `ScramExchange.AdvanceTheorem` | sasl/scram.go:81-108 | for every client and call: an answer without a fault advances the step, a fault does not; when a start fails |
| `ScramExchange.HeldCount` | sasl/scram.go:110-136 | over every sequence of calls the count a client holds is the last one that a challenge brought, or 0 |
| `ScramExchange.StaleTheorem` | sasl/scram.go:110-136 | over every sequence of calls a challenge whose count does not scan is answered if and only if the last challenge whose count did scan was, and then with that count |
| `ScramExchange.StaleCount` | sasl/scram.go:81-136 | a run in which an earlier count is used |
| `Text.ScanDigits` | sasl/scram.go:129-133 | scanning a printed count gives the count |
| `Text.ScanMeans` | sasl/scram.go:129-133 | what is scanned from any text of blanks, a sign, digits and a rest, with the 64-bit range |
| `Text.TrimMeans` | cmd/xmppd/stream.go:252-258 | trimming takes away the space at both ends and nothing else |
| `Addresses.Utf8Theorem` | jid/jid.go:214-246 | a string passes as UTF-8 if and only if it is the encoding of some Unicode scalar values |
| `Addresses.NewTheorem` | jid/jid.go:31-51 | exactly which parts make an address |
| `Addresses.ParseString` | jid/jid.go:31-141 | for every address New makes, Parse undoes String if and only if the domain has no slash and, without a local part, no at sign |
| `Addresses.BracketDomain` | jid/jid.go:229-246 | a bracketed domain for which it does not |
| `Addresses.StringInjective` | jid/jid.go:126-141 | such addresses that print alike are equal |
| `Addresses.StringParse` | jid/jid.go:54-80 | printing undoes parsing exactly when no part is empty next to its separator |
| `Addresses.EscapeRoundTrip` | jid/jid.go:178-212 | unescaping undoes escaping on every string |
| `Addresses.EscapedIsPlain` | jid/jid.go:178-207 | the escaped form has no separator and no other reserved character |
| `Addresses.EscapeIsHex` | jid/jid.go:178-189 | a character is written as a backslash and its two hexadecimal digits if it is reserved or a backslash, and as itself otherwise |
| `Addresses.UnescapeFirst` | jid/jid.go:191-212 | of any text, the first code is replaced by its character and unescaping goes on behind it |
| `Addresses.UnescapeNone` | jid/jid.go:191-212 | a text without a code is left alone |
| `Addresses.NameTheorem` | jid/jid.go:31-212 | any name in valid UTF-8 that fits becomes a local part once escaped, and comes back from the printed address if and only if the domain's separators allow it |
| `SessionRouter.RouterObject.Register` | cmd/xmppd/stream.go:39-53 | both indexes after a registration |
| `SessionRouter.RouterObject.Unregister` | cmd/xmppd/stream.go:55-71 | both indexes after a removal, the group gone with its last entry |
| `SessionRouter.RouterObject.Targets` | cmd/xmppd/stream.go:73-98 | the session of a full address, or those of a bare address once per entry in some order |
| `RouterRuns.IndexTheorem` | cmd/xmppd/stream.go:39-71 | in every interleaving the second index is the first one grouped by bare address, without empty groups |
| `RouterRuns.AuthTheorem` | cmd/xmppd/stream.go:231-279 | in every interleaving a connection is authenticated if and only if a request of it had its password accepted for a name that is not blank and makes an address; the first such request names its user |
| `RouterRuns.RefusedAuth` | cmd/xmppd/stream.go:231-274 | any other request, or a further one, changes nothing |
| `RouterRuns.SecureTheorem` | cmd/xmppd/stream.go:122-229 | in every interleaving a connection is marked secure if and only if it was opened so or upgraded |
| `RouterRuns.BareTheorem` | cmd/xmppd/stream.go:73-98 | in every interleaving a bare address reaches exactly the sessions that hold an address of that user |
| `RouterRuns.TargetsTheorem` | cmd/xmppd/stream.go:73-355 | in every interleaving a stanza reaches only authenticated, bound and ready sessions on which the password of the user its printed address names was accepted; that is the address itself if and only if it prints unambiguously |
| `RouterRuns.UnboundEndTheorem` | cmd/xmppd/stream.go:122-142 | the end of a session that has not bound changes neither index |
| `RouterRuns.ReachableTheorem` | cmd/xmppd/stream.go:39-355 | in every interleaving a bound session is reached at its address if and only if, since it last registered it, no other session registered or removed it |
| `RouterRuns.StaleEntryTheorem` | cmd/xmppd/stream.go:39-355 | in every interleaving the holder of an entry has ended if and only if it has removed an address, and that was another one it had bound |
| `RouterRuns.EndTheorem` | cmd/xmppd/stream.go:55-71 | the end of one session cuts off another exactly when both have the same address |
| `RouterRuns.TakeoverRun` | cmd/xmppd/stream.go:122-355 | a run that ends with a bound session that is not reached at its address |
| `RouterRuns.ReconnectRun` | cmd/xmppd/stream.go:122-355 | a run in which a user who reconnects under the address of an ended session is reached |
| `SessionFlags.FlagsTheorem` | session.go:187-200 | in every interleaving the word is the initial one with the flags of all calls whose swap succeeded, and no call fails more swaps than bits were unset when it began |
| `SessionFlags.NeverCleared` | session.go:192-200 | no flag is ever cleared |
| `StreamManagement.Plugin.Ack` | plugins/sm/sm.go:81-88 | which stanzas an acknowledgement drops, with the counters' wrap written out |
| `StreamManagement.QueueTheorem` | plugins/sm/sm.go:70-88 | in every run that acknowledges only when all enqueued stanzas are counted, the queue is a suffix with every unacknowledged stanza, and exactly those if and only if fewer than 2^32 were acknowledged |
| `StreamManagement.LossTheorem` | plugins/sm/sm.go:70-88 | in every run, with enqueueing, counting and acknowledgements in any order, the queue is a suffix, and no unacknowledged stanza is ever lost if and only if no acknowledgement meets an exact guard on the counters |
| `StreamManagement.ExposureTheorem` | plugins/sm/sm.go:70-88 | with fewer than 2^32 stanzas pending that guard is: a stanza is enqueued and not counted, the acknowledgement is not beyond the counter, and both are in one period of it |
| `StreamManagement.CountedFirstTheorem` | plugins/sm/sm.go:70-88 | with fewer than 2^32 pending, counting before enqueueing never loses a stanza |
| `StreamManagement.UncountedStanzaIsLost` | plugins/sm/sm.go:73-88 | a run in which a stanza that is enqueued and not yet counted is lost |
| `RateLimiter.Compact` | cmd/xmppd/registration.go:62-69 | the compaction in place leaves the plain filter of the entries at the front |
| `RateLimiter.Limiter.Allow` | cmd/xmppd/registration.go:56-77 | verdict and entries of the key, other keys unchanged |
| `RateLimiter.WindowTheorem` | cmd/xmppd/registration.go:56-77 | over every sequence of calls no interval of one window's length has more than `limit` admissions of a key |
| `RateLimiter.RefusalTheorem` | cmd/xmppd/registration.go:61-73 | a call is refused exactly when `limit` admissions of its key are younger than the window |

## Left out

- The insides of AES-GCM, HMAC, HKDF, PBKDF2, Ed25519, X25519, the Edwards map and base64: library code, assumed by its algebraic contract as described above.
- Failures of the random source and of the AES and HKDF constructors: no input reaches them.
- Aliasing of `*Session` and `*Bundle` pointers in the OMEMO manager: sessions and bundles are values in its maps, so a caller that keeps a pointer and changes it is not covered.
- ManagerObject.Manager.Encrypt: sessions hold fewer than 2^32 - 1 skipped keys, so that their number fits the 4-octet count of the format; private keys in the stores have 32 octets.
- RatchetRuns.DeliveryTheorem: counters stay below 2^32, drawn ratchet keys are new, and the responder sends only after it has received, as the ratchet itself demands; replays from older chains are in `RatchetReplay` instead.
- RatchetReplay.DivergenceTheorem: the peer never draws one of two private ratchet keys again that were drawn before; generated keys are new.
- X3dh.SecretTheorem: the drawn keys are not converted identity keys, which generated keys never are.
- OmemoLaws.SessionTheorem: the manager starts without sessions and bundles; after a restart the recorded identity of an address can be newer than that of its stored session.
- RatchetKeyUse.OriginTheorem: the secret has 32 octets and is not itself the message key of no chain, as the output of the agreement's HKDF never is.
- OmemoConversation.ConversationTheorem: a call that writes for the other device and fails at a later recipient, and a second agreement between the two, are not steps; a restart is one when the store has the session as the memory has it.
- MutableRatchet.RatchetState.UnmarshalBinary: says nothing of the partly overwritten receiver after a failure; the source always loads into a new value and drops it then.
- OmemoDelivery.CoherenceTheorem: is about what stored bytes load to; that this is so of the bytes is stated by the methods of `ManagerObject.Manager`.
- ScramExchange.ExchangeTheorem: nonces and the channel binding type have no comma, which base64 nonces never have and section 7 of RFC 5802 demands of the type.
- Text.ScanDigits: of the white space that fmt skips and strings.TrimSpace removes only the ASCII characters are modelled; the 64-bit `int` of Go is.
- The stream handlers are functions on the value of one connection, not methods of a session object; what they write to the peer is not modelled.
- RouterRuns.TargetsTheorem: the served domain has no '@' or '/', and addresses are those that New makes; which entries outlive their session is stated by `StaleEntryTheorem`.
- MessageArchive.PagingTheorem: ids are not empty, which the store sees to, and distinct before the last message, which is the exact condition of `EndsTheorem`.
- StreamManagement.ExposureTheorem: fewer than 2^32 stanzas are pending at each acknowledgement; `LossTheorem` has no such bound.
- The inner maps of the router and the entry slices of the limiter are values in an outer map, so sharing of their storage with a caller is not covered.
- XML, stream headers, transports, TLS and DNS: requests reach the model decoded.
- The SQL, MongoDB, Redis and file backends, the other stores of the memory backend, the registration form, `mux.go`, `middleware.go`, `negotiator.go` and the remaining plugins: they would only add easy members or depend on engines that are not visible.
