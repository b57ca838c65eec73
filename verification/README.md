# Resona protocols, modelled and proved in Dafny

Resona is a voice and chat server with a Go transport and server, a Rust client and a C
signal-processing core. This project models the parts whose correctness spans several
functions or several machines, and proves their properties for every input, every run and
every reachable state.

- **Noise UDP transport** (`ReplayWindow`, `ReplayBits`, `NoiseKeys`, `NoiseInvariants`,
  `NoiseConn`, `NoisePeers`, `NoiseStream`, `NoiseSafety`, `NoiseGrace`, `NoiseTiming`,
  `NoiseAnswers`, `NoiseExhaustion`). Two endpoints as a state machine
  over single steps: the send lock, the read loop's work after a decryption, key refresh,
  the stop-and-wait control stream. The network may deliver any packet ever sealed, any
  number of times, under any header, or one that nobody sealed. The theorems are about
  whole runs of both ends together.
- **Authoritative server** (`Resources`, `RecordSize`, `RecordLimit`, `ResourceStore`,
  `Governance`, `OrderOutcomes`, `ChannelEdits`, `ChannelOutcomes`, `Membership`,
  `MemberOutcomes`, `ChannelRace`, `ChannelSessions`, `Accounts`, `Logins`). One management record behind compare-and-swap
  and a cache that may skip revisions; roles, the owner claim and bans; channel edits;
  sessions in channels; two-phase channel deletion interleaved with everything else;
  logins as transactions on two tables.
- **Voice and chat to the client** (`VoiceWire`, `VoiceScope`, `VoiceWrap`,
  `ScopedMembership`, `ScopedRuns`, `VoiceRing`, `VoiceRingRuns`, `TokenBucket`, `ChatLog`, `ClientCache`,
  `ClientStay`, `ClientHole`).
- **FFT schedule** (`FftFactors`, `FftSchedule`, `FftReads`): the integer computations that the
  initialiser and the two passes carry out separately and must agree on.

`Common`, `BigEndian` and `Arithmetic` hold shared types and facts. Objects that the source updates in place
are classes whose methods are proved equal to specification functions; the invariants,
runs and round trips are then proved about those functions.

## How things are modelled

- A key is the side and generation that derive it. Decryption succeeds only on a packet
  sealed under exactly that key, nonce and header (ideal authenticated encryption). A nonce
  `epoch<<24 | counter` is the sum `epoch * 2^24 + counter`.
- The replay word is proved twice: `ReplayBits` on a `bv64`, and `ReplayWindow` on the set
  of its one bits, with the first refining the second. The connection object holds the first,
  the protocol proofs use the second.
- 32-bit epochs and sequence numbers wrap or are guarded exactly where the source does so.
- A text field of the record is its length in characters, in bytes and in bytes of JSON, and
  whether its format check accepts it. The stored size of a record is computed exactly from
  these, with times in nanoseconds of four-digit years.
- Every critical section that changes sessions publishes the states that have changed to a
  queue of 16 per session, in order, and closes the connection when it is full. A writer
  carries them to the client, which applies them in order or ends. The stop-and-wait stream is
  taken to hold fewer than a million states at a time; its receiver buffers far less.
- Blocking calls are split at every unlock. Clocks are parameters, tokens and times of the
  limiter are exact reals.
- Random identifiers of one kind are never drawn twice.
- The cache entry, the projected `config.Channels` and the revision it came from are separate
  variables; a store write is a read, a draft, a swap and an install, and everybody else may
  act in between. The outcome of each swap is reported; the source stops the server otherwise.
- Raw edits of the key by other programs that remove or add channels are not assumed away
  by the source, which fails closed on them; `ChannelRace` lets other writers commit any
  valid record that leaves the channel list alone.

## What the code does that its comments or callers might not expect

- The last control chunk number is retained, but the expected number then wraps to 0, so a
  retransmission of it is never answered (`NoiseSafety.DuplicateAcknowledged` gives the exact
  condition).
- Login and logout advance a session's epoch without the overflow guard that moves have.
  This does not break the scoping of voice, because clients refuse a smaller epoch and a zero
  one; it costs sessions. A login in the last epoch ends the session of its own client, and of
  everybody who is shown it (`ScopedMembership.LoginEndsOwnClient`,
  `ScopedMembership.LoginEndsViewers`, `VoiceWrap.WrapEndsSessions`).
- The field checks bound every part of the record, but not the whole: a record can be filled
  to 128 KiB by about a hundred long bans, after which orders are drafted and then refused
  (`RecordLimit.OrdersAreRefused`, reached by `RecordLimit.FullIsReached`). The contracts of
  the drafts give the exact condition.
- A login rotates the token before its critical section admits the session. When that finds
  the connection gone, the older session stays live with a dead proof (`Logins.AbandonedLogin`).
- A history page is applied even after live messages have pushed out the oldest cached ones,
  and can leave a hole (`ClientHole.LatePageLeavesHole`; `ClientStay.PageExactly` says when).
  Synchronising the chat again keeps the cache and sends a new initial page, which leaves a
  hole when more than a page was missed (`ClientHole.SecondReaderLeavesHole`,
  `ClientStay.RestartExactly`).
- Moves consult the cached record and snapshots project `config.Channels`, which is updated
  later. A client that is shown a member in a channel not listed refuses the state and ends:
  `ChannelRace.StateIsReadable` says exactly when, `ChannelRace.SnapshotMayLag` is a run.

## Model

| member | source | states |
|---|---|---|
| `ReplayWindow.SeenExactly` | internal/noiseudp/conn.go:38-46 | A counter is reported seen exactly when it is 0, out of range, already accepted, or 64 or more below the highest accepted. |
| `ReplayWindow.AddTracks` | internal/noiseudp/conn.go:48-54 | Recording a fresh counter, below or above the highest, leaves the window an exact picture of the accepted set. |
| `ReplayBits.SeenRefines` | internal/noiseudp/conn.go:44-46 | The query on the real 64-bit word answers as the set of positions does. |
| `ReplayBits.AddRefines` | internal/noiseudp/conn.go:48-54 | The update of the real 64-bit word, shifts past the top included, is the update of the set of positions. |
| `ReplayBits.WordSeenExactly` | internal/noiseudp/conn.go:38-54 | After any run of acceptances that the word itself allowed, the word is exact: seen means out of range, accepted, or 64 or more below the highest. |
| `ReplayBits.Register.Record` | internal/noiseudp/conn.go:48-54 | The in-place update of `highest` and `bits` changes their meaning by exactly one recorded counter. |
| `ReplayBits.Register.Query` | internal/noiseudp/conn.go:44-46 | The query on the two fields answers for the set they stand for. |
| `NoiseInvariants.NonceOrder` | internal/noiseudp/rekey.go:19-24 | Packet nonces order first by epoch and then by counter. |
| `NoiseInvariants.NonceInjective` | internal/noiseudp/rekey.go:19-24 | Two packets share a nonce only if they share epoch and counter. |
| `NoiseInvariants.NonceBound` | internal/noiseudp/rekey.go:9-19 | Every nonce of a sealed packet stays below 2^64 - 2^24. |
| `NoiseInvariants.SendKeeps` | internal/noiseudp/conn.go:171-205 | Whatever a send does (advance the epoch, announce it, seal, refuse) the sealed stream keeps strictly rising nonces and every epoch opens with the key update that names it. |
| `NoiseInvariants.PrepareKeeps` | internal/noiseudp/rekey.go:25-61 | Key preparation keeps the same stream invariant, through timeouts, exhaustion and retries. |
| `NoiseInvariants.DecryptKeeps` | internal/noiseudp/rekey.go:72-116 | One decryption keeps both windows exact for the acceptance log, across window hand-over, previous-key expiry and the step to the next key; it never accepts a logged (epoch, counter). |
| `NoiseInvariants.DecryptAuthentic` | internal/noiseudp/rekey.go:72-116 | What a decryption accepts was sealed by the peer under the epoch it is attributed to, with that counter and header. |
| `NoiseInvariants.RejectedChangesNothing` | internal/noiseudp/rekey.go:72-116 | A packet that does not authenticate changes no epoch, key or window other than dropping an expired previous key. |
| `NoiseInvariants.AcceptsExactly` | internal/noiseudp/rekey.go:72-116 | Exactly which genuine packets open, for packets of the receiver's epoch, the one after and any earlier one, although the header has one epoch bit. |
| `NoiseGrace.OvertakenOpens` | internal/noiseudp/rekey.go:91-116 | After a decryption that stepped from epoch e to the next at time t, a genuine packet of epoch e opens, at e and with its body, if and only if now < t + 3 s, its counter was not accepted under e, and it is less than 64 below every counter accepted under e. |
| `NoiseGrace.OvertakenInRuns` | internal/noiseudp/rekey.go:72-116 | The same over whole runs of two peers, whatever was handled since the step, for every packet of epoch e that the peer really sent, as long as the receiver's clock does not run backwards. |
| `NoiseGrace.OthersOpen` | internal/noiseudp/rekey.go:72-116 | A genuine packet of the receiver's own epoch opens exactly when it is fresh by the log, and one of the next epoch always opens and steps to it. |
| `NoiseTiming.KeysOnTime` | internal/noiseudp/rekey.go:25-61 | After any history of sends, maintenance and confirmations: a preparation fails exactly when the epoch's first packet was sent 30 s ago and nothing confirmed it; it starts and announces a new epoch exactly when the current one is confirmed and has sent half its numbers or is twelve hours old; it repeats an unconfirmed announcement exactly when the last one was sent five seconds ago; otherwise it does nothing. |
| `NoiseTiming.SendsOnTime` | internal/noiseudp/conn.go:171-205 | After any such history a send first does that and then seals exactly the packet asked for under the current key and next number, or fails because the numbers are used up; one over 1179 bytes does nothing. |
| `NoiseAnswers.AnswersExactly` | internal/noiseudp/conn.go:209-281 | Everything sent for a packet that opens, in order: the confirmation of a new epoch, and the confirmation, acknowledgement or pong that its kind, its body and the number of retained and unread chunks call for. |
| `NoiseAnswers.EffectsExactly` | internal/noiseudp/conn.go:218-281 | Which fault each kind and body raises, that exactly a confirmation of the current epoch confirms it, and that an acknowledgement is queued exactly while fewer than eight wait. |
| `NoiseAnswers.SendsAsked` | internal/noiseudp/conn.go:341-406 | An application packet, a maintenance call and a chunk in flight under its number each hand exactly that to the send path. |
| `BigEndian.BytesInOrder` | internal/noiseudp/conn.go:194-196 | Fields of two and four bytes are written most significant byte first. |
| `NoiseConn.Conn.constructor` | internal/noiseudp/conn.go:95-109 | A new connection has matching first and precomputed second keys, epoch 0 on both halves, confirmed, with empty 64-bit replay words; it has sealed and accepted nothing. |
| `NoiseConn.Conn.SendLocked` | internal/noiseudp/conn.go:183-205 | The in-place send consumes one counter and seals one packet, or refuses for budget or size and changes nothing, as the sender step of the run proofs. |
| `NoiseConn.Conn.PrepareKeysLocked` | internal/noiseudp/rekey.go:25-55 | The in-place key preparation is the sender step of the run proofs and leaves the receiving half alone. |
| `NoiseConn.Conn.Transmit` | internal/noiseudp/conn.go:171-182 | One public send is preparation followed by sealing, announcing first; everything the object ever sealed keeps strictly rising nonces and announced epochs, and the receiving half is left alone. |
| `NoiseConn.Conn.RefreshKeys` | internal/noiseudp/rekey.go:57-61 | The maintenance step keeps the same of everything ever sealed. |
| `NoiseConn.Conn.Confirmed` | internal/noiseudp/conn.go:230-239 | Only a confirmation of the current epoch confirms the sender, and the object stays valid. |
| `NoiseConn.Conn.DecryptPacket` | internal/noiseudp/rekey.go:72-116 | Whatever arrives, the keys and both 64-bit replay words stay exact for what the object ever accepted; what is accepted was sealed by the peer under the reported epoch and counter and was never accepted before; the sending half is left alone. Which packets open is NoiseGrace.OvertakenOpens and NoiseGrace.OthersOpen about the step it computes. |
| `NoiseStream.Control.OnChunk` | internal/noiseudp/conn.go:245-261 | With k chunks retained, chunk k + 1 is retained exactly while fewer than 32 wait, and exactly it and chunks 1 to k are answered, until the expected number wraps; the byte accounts are kept. |
| `NoiseStream.Control.Read` | internal/noiseudp/conn.go:311-339 | A read returns the first min(room, available) bytes of what is left of the current chunk, or of the next retained one, and keeps the rest; with room and anything retained but undelivered it returns at least one byte. |
| `NoiseStream.Control.StartChunk` | internal/noiseudp/conn.go:369-379 | A round of Write takes exactly the first min(1000, left) bytes as the next numbered chunk and keeps the rest, or refuses exactly when the 32-bit numbers are used up. |
| `NoiseStream.Control.AwaitAck` | internal/noiseudp/conn.go:388-426 | Only the acknowledgement of the chunk in flight completes it; a stale one is consumed without effect. |
| `NoiseSafety.EpochsStayClose` | internal/noiseudp/rekey.go:25-116 | In every run under loss, duplication, delay, reordering and tampering, rxEpoch <= txEpoch <= rxEpoch + 1 in both directions, a confirmed sender's epoch is the receiver's, and the receiver's precomputed key is the one after its own. |
| `NoiseSafety.NeverDesynchronised` | internal/noiseudp/rekey.go:72-116 | In every run a packet of the sender's current epoch opens, at its true epoch and with its true body, if and only if it is not already accepted and less than 64 below the highest counter. |
| `NoiseSafety.AcceptedAtMostOnce` | internal/noiseudp/rekey.go:77-116 | Over a whole run no (epoch, counter) is accepted twice and each accepted one was sent by the peer. |
| `NoiseSafety.NoncesNeverRepeat` | internal/noiseudp/conn.go:171-205 | Over a whole run the nonces of a direction strictly increase, stay below 2^64 - 2^24, and each epoch after 0 opens with its key update. |
| `NoiseSafety.HonestPeersAgree` | internal/noiseudp/conn.go:218-281 | In every run neither honest end fails with a bad key update, bad key confirmation, bad control chunk or unknown packet. |
| `NoiseSafety.StreamIsReliable` | internal/noiseudp/conn.go:245-268 | In every run the bytes read are a prefix of the bytes written, and once no chunk is in flight the peer has retained every chunk in order. |
| `NoiseSafety.TakeAckKeeps` | internal/noiseudp/conn.go:388-426 | Completing a chunk on an acknowledgement keeps the two ends' stream relation: whatever is completed is retained at the peer, so a stale acknowledgement completes nothing. |
| `NoiseSafety.DuplicateAcknowledged` | internal/noiseudp/conn.go:245-261 | A retransmitted chunk that is already retained is acknowledged again if and only if the last number of the 32-bit space has not been retained; the wrap of the expected number to 0 is where it stops. |
| `NoiseExhaustion.LastAckIsNeverRepeated` | internal/noiseudp/conn.go:245-261 | A run of two honest peers through the whole sequence space and all its key updates, after which the last chunk is retained, its acknowledgement lost, and the retransmission accepted but never answered. |
| `NoiseExhaustion.Reaches` | internal/noiseudp/conn.go:341-426 | For every k up to the last sequence number there is a run in which k chunks have been written, retained, acknowledged and read. |
| `NoiseSafety.ApplyKeeps` | internal/noiseudp/conn.go:209-426 | Every step of either endpoint, with any deliverable datagram, keeps the invariant that relates the two ends. |
| `Resources.CheckChannels` | internal/server/channels.go:25-42 | The loop with its seen map and text budget accepts exactly the lists of 1 to 64 well-formed channels with distinct IDs within the budget. |
| `Resources.CheckTransition` | internal/server/store.go:251-267 | The nested flag loops accept exactly the transitions that keep owner, default channel and ID sequence and bring back no ID below the old sequence. |
| `Resources.TransitionComposes` | internal/server/store.go:251-267 | Valid transitions compose, so revisions may be skipped. |
| `Resources.HistoryComposes` | internal/server/store.go:238-267 | Between any two revisions of a committed history, however far apart, the transition is valid and the revision number larger. |
| `Resources.OwnerAndDefaultFixed` | internal/server/store.go:251-260 | Over the whole history a set owner never changes, the account-identity flag is never taken back, the next ID never falls, and the default channel never changes and always exists. |
| `Resources.DeletedNeverReturns` | internal/server/store.go:257-266 | Over the whole history a deleted channel ID never returns. |
| `Resources.AlwaysWellFormed` | internal/server/store.go:186-236 | In every record of a history: 1 to 64 well-formed channels with distinct IDs below the next one and an open default, at most 64 distinct admins and 256 distinct bans of well-formed identities other than the owner, no claim beside an owner, within 128 KiB. |
| `ResourceStore.InstallAccepts` | internal/server/store.go:238-249 | Any two cached entries of one history are a valid transition apart in revision order, so installation never refuses a committed revision. |
| `ResourceStore.Store.Install` | internal/server/store.go:238-249 | Installing a committed revision always succeeds, never moves the cache back, and keeps it a committed entry. |
| `ResourceStore.Store.Update` | internal/server/store.go:279-336 | Which outcome each input gets: the deciding attempt is the first of three that no other writer overtakes, and it commits its draft of the record read right after it, or reports a stale named revision, a refused draft or an unfit one; three overtaken attempts are a conflict. Otherwise only the others' commits are left. |
| `ResourceStore.FateExactly` | internal/server/store.go:293-333 | An attempt goes through if and only if no revision or the last one is named, the draft is a valid record and transition, and nobody commits in between; each other fate has its own exact condition. |
| `ResourceStore.OthersCommit` | internal/server/store.go:308-333 | Other writers' records are committed in order, exactly those that are valid and follow the last one. |
| `ResourceStore.KeyValue.Update` | internal/server/store.go:326-333 | The compare-and-swap succeeds exactly against the last revision. |
| `ResourceStore.RevisionNamesEntry` | internal/server/store.go:293-295 | An unchanged revision means nothing was committed in between. |
| `Governance.PowersComeFromOwner` | internal/server/authorization.go:61-98 | Every change of admins or bans is an order of the current owner, and an owner appears only by an unexpired matching claim, which it consumes. |
| `Governance.UnownedStaysBare` | internal/server/ownership.go:67-80 | In every governed history a record without owner has no admins and no bans. |
| `Governance.ClaimAlwaysValid` | internal/server/ownership.go:67-80 | In every reachable record an accepted claim yields a record that passes validation and is a valid transition, with the claimant as owner and the code consumed. |
| `Governance.OneClaimOnly` | internal/server/ownership.go:67-80 | Once a record has an owner no later claim is accepted. |
| `OrderOutcomes.ClaimsExactly` | internal/server/ownership.go:32-80 | A code is provisioned for a day exactly for an unowned record without one or when replacing, and redeemed exactly by a well-formed identity with a match while it lasts and nobody owns the record. |
| `OrderOutcomes.RoleExactly` | internal/server/authorization.go:91-113 | A role change is drafted exactly for the unbanned owner, not about itself, not an admin role for somebody banned and not a 65th admin; it changes exactly that identity, and a list that gains an admin is in ascending order. |
| `OrderOutcomes.RoleTaken` | internal/server/authorization.go:107-107 | Taking a role away leaves the other admins in their order. |
| `OrderOutcomes.AtMostExactly` | internal/server/authorization.go:110-110 | The ascending order is by the first character that differs, a prefix first. |
| `OrderOutcomes.BanExactly` | internal/server/admin_members.go:30-55 | A ban is drafted exactly for the unbanned owner about somebody else, for a minute to a year with a valid reason while fewer than 256 others run; lifting needs only the first; the resulting list is the others' running bans and the new entry. |
| `OrderOutcomes.LiveBansJoin` | internal/server/admin_members.go:38-50 | What remains of the list is decided entry by entry, in order. |
| `OrderOutcomes.LiveBansOne` | internal/server/admin_members.go:38-50 | An entry remains exactly if it is about somebody else and still runs. |
| `OrderOutcomes.SettingsExactly` | internal/server/admin_settings.go:22-97 | Settings are drafted exactly for the unbanned owner when valid and not below the connected count; initial ones never overwrite; channels are drafted exactly for unbanned staff. |
| `MemberOutcomes.PolicyExactly` | internal/server/authorization.go:61-81 | Who is authorized for what, by object, act, target and the record's owner, admins and bans: staff moderates guests and members, the owner also admins, nobody the owner; roles, settings and bans are the owner's. |
| `Governance.RoleDraftValid` | internal/server/authorization.go:91-113 | Role changes draft a record that passes every field check and changes the admins by exactly that identity; validation refuses it if and only if the new list takes the record over 128 KiB, which it never does up to 16 bans. |
| `Governance.BanDraftValid` | internal/server/admin_members.go:30-55 | Ban changes draft a record that passes every field check, after which the identity is banned exactly if the ban was not lifted; validation refuses it if and only if the new entry does not fit into 128 KiB beside what is left; lifting always fits. |
| `RecordSize.FewBansFit` | internal/server/store.go:189-217 | A record that passes the field checks and has at most 16 bans is within the 128 KiB limit, whatever texts its channels and settings hold. |
| `RecordLimit.OrdersAreRefused` | internal/server/store.go:186-193 | A valid record of exactly 128 KiB, with 99 bans, at which a ban, a role and a channel are each drafted without an error and each refused. |
| `RecordLimit.FullIsReached` | internal/server/admin_members.go:30-55 | That record is the last of a governed history: a claim and 99 ban orders of the owner, each drafted from the record before it and each passing validation. |
| `ChannelEdits.Mutate` | internal/server/channels.go:90-185 | The edit loops (last match, occupancy over all sessions, slices changed in place) compute the draft or the error code that the ChannelOutcomes rows characterise. |
| `ChannelOutcomes.CreateExactly` | internal/server/channels.go:106-116 | An accepted creation appends one channel with the next ID and the given name, description, access and bitrate, 32000 for 0; each error code has its exact condition, the 16 KiB of all texts included. |
| `ChannelOutcomes.ChangeExactly` | internal/server/channels.go:117-132 | An accepted change keeps every other channel at its place and gives the named one exactly the given name and description, the given bitrate or its own for 0, the given access or its own; each error code has its exact condition. |
| `ChannelOutcomes.DeleteExactly` | internal/server/channels.go:133-147 | An accepted deletion keeps the rest in order; it fails exactly when there is no such channel, it is the default, or somebody is in it, and never for another reason. |
| `ChannelOutcomes.ReorderExactly` | internal/server/channels.go:148-174 | A reorder fails exactly when either channel is missing; otherwise the moved one stands right before the one asked for, or last, and nothing else changes. |
| `ChannelEdits.RemoveAt` | internal/server/channels.go:147-147 | Removing in place shifts the tail down by one and loses nothing else. |
| `ChannelEdits.InsertAt` | internal/server/channels.go:169-171 | The overlapping copy opens a gap in place: everything before stays, everything after moves up by one. |
| `ChannelEdits.ReorderPermutes` | internal/server/channels.go:148-174 | A reorder keeps the channels and their relative order, and puts the moved one right before the one asked for, or last. |
| `ChannelEdits.EditedIds` | internal/server/channels.go:104-186 | Exactly which IDs an accepted edit adds or removes; a deleted channel existed, was not the default, and had nobody in it. |
| `ChannelEdits.EditedValid` | internal/server/channels.go:177-186 | An accepted edit passes every field check and is a valid transition; validation refuses it if and only if the new channel list takes the record over 128 KiB, which it never does up to 16 bans. |
| `ChannelRace.NoOrphans` | internal/server/channels.go:90-196 | In every interleaving of an edit's fetch, check, swap, install and publication with moves, joins, logins, moderation, other writers and the informer, each session's channel is in the cached record and every later one, nobody is in a channel being deleted, and the informer never finds an occupied channel gone. |
| `ChannelRace.StepKeeps` | internal/server/channels.go:69-204 | Each single step of that interleaving keeps the invariant on history, cache, projection and sessions. |
| `ChannelRace.EditGoesThrough` | internal/server/channels.go:90-196 | An edit that names no revision or the last and that nobody overtakes ends with its draft committed, cached and shown, sessions enforced by it, and the lock free. |
| `ChannelRace.ShowsExactly` | internal/server/channels.go:187-197 | Showing an entry lists its channels, admits newcomers to its default channel and enforces access by it. |
| `ChannelRace.FetchExactly` | internal/server/store.go:286-295 | An attempt gives up exactly after three overtaken ones or when the named revision is not the last. |
| `ChannelRace.SwapExactly` | internal/server/store.go:326-333 | A swap goes through exactly when nothing was committed since the read, changes only the channels, and otherwise counts as an overtaken attempt. |
| `ChannelRace.WatchShows` | internal/server/server.go:491-530 | What the informer delivers is shown, or something newer that is cached, unless it was shown before. |
| `ChannelSessions.AlwaysRegular` | internal/server/channel_access.go:14-36 | In every such interleaving, whatever roles, bans and channels are committed and installed meanwhile, each temporary admission is 0 or the session's own channel and no account has two live sessions. |
| `ChannelSessions.StepHoused` | internal/server/channel_access.go:38-54 | As long as no other record is installed, no step puts a live session where it may not be, not even an informer that enforces by an older record. |
| `ChannelSessions.EnforcementHouses` | internal/server/channels.go:187-197 | A login, a logout, an enforcement, a publication or an informer that enforces by the cached record leaves every live session in an existing channel it may enter, whatever went before. |
| `ChannelSessions.HousedSinceEnforcement` | internal/server/channel_access.go:38-54 | In every run, from an enforcement by the cached record until something else is installed, every live session is in an existing channel it may enter. |
| `ScopedRuns.RunsTogether` | internal/server/server.go:534-577 | Every run of the channel race, with frames uploaded and states written, applied or republished after any of its steps, is a run of the voice scoping over the same sessions under the same IDs, publication included. |
| `ScopedRuns.FollowStep` | internal/server/channel_access.go:21-54 | Whatever one step of the race does to the sessions is at most one critical section of the scoping machine, with its broadcast. |
| `ChannelRace.SnapshotLists` | internal/server/server.go:454-486 | A snapshot projected from config.Channels lists a session's channel if and only if that channel is not one whose creation is committed but not yet published. |
| `ChannelRace.StateIsReadable` | client/src/wire.rs:145-175 | In every run, for any interest the server accepts, a live session's state passes the client's channel checks if and only if it shows nobody in a channel whose creation is committed but not yet published. |
| `ChannelRace.SnapshotMayLag` | internal/server/server.go:411-424 | A concrete run in which a session has moved into a channel that config.Channels does not list yet, so that its client refuses the state of that move whatever it watches. |
| `ChannelRace.WatchKeeps` | internal/server/server.go:491-530 | The informer's occupied-channel check passes, although sessions may move while retention is being configured between its two locked halves. |
| `Membership.EnforcedFate` | internal/server/channel_access.go:38-54 | Each session in an enforcement pass stays, goes to the default channel in its next epoch, or ends because no epoch is left; it stays exactly if it was removed or rightly housed. |
| `Membership.EnforcementSettles` | internal/server/channel_access.go:38-54 | An enforcement pass ends with every live session in an existing channel it may enter, whatever the record said before, and changes nothing when that already holds. |
| `Membership.EventRegular` | internal/server/server.go:411-424 | Join, self-move, moderated move, kick, mute, login, logout, enforcement and ban removal, under any record, with any channel being deleted and wherever sessions are, each keep: admission 0 or own channel, one live session per account. |
| `MemberOutcomes.SelfMoveExactly` | internal/server/server.go:411-424 | A session's own move: closed, wrong channel, not permitted, out of epochs or done, each exactly when, and then only that session is in the channel, in its next epoch and without admission. |
| `MemberOutcomes.PresenceExactly` | internal/server/server.go:248-290 | A newcomer is a muted guest in the home channel in epoch 1, a leaver alone goes, and setting voice sets exactly the two flags given. |
| `MemberOutcomes.KickExactly` | internal/server/admin_members.go:87-145 | A kick is refused exactly when the moderator acts for nobody, the session is not there, or the roles do not allow it; else it removes and silences exactly that session. |
| `MemberOutcomes.ModeratedMoveExactly` | internal/server/admin_members.go:87-145 | A moderated move likewise, with the exact condition for a temporary admission and the exact state of the moved session. |
| `MemberOutcomes.LoginExactly` | internal/server/accounts.go:168-195 | What a login does to every session: account, term, next 32-bit epoch and admission of its own, the end of the account's others, and enforcement of all. |
| `MemberOutcomes.LogoutExactly` | internal/server/accounts.go:119-135 | What a logout does to every session: a muted guest without admission in its next epoch, and enforcement of all. |
| `MemberOutcomes.PassesExactly` | internal/server/channel_access.go:38-54 | Enforcement leaves each session where it may be, sends it home in its next epoch, or ends it for want of one; a ban pass ends exactly the banned live sessions. |
| `Membership.EventKeeps` | internal/server/admin_members.go:120-143 | Under an unchanged record each of those events also keeps every live session in an existing channel it may enter. |
| `Membership.RunStaysOrderly` | internal/server/accounts.go:119-195 | All of this over every run of such events while the record is unchanged; ChannelSessions covers runs in which it changes. |
| `Membership.RestrictedEntry` | internal/server/admin_members.go:120-143 | An ordinary session enters a restricted channel only by a moderated move with a temporary admission, by somebody authorized over it whose own live session is there. |
| `Membership.AccountChangeEndsAdmission` | internal/server/accounts.go:119-135 | Logging out, or in as another account, ends a temporary admission and leaves no session in a restricted channel on the strength of one. |
| `ScopedMembership.EventsAreScoped` | internal/server/channel_access.go:21-36 | Whatever a membership event does to a session is a path of at most three steps that the voice scoping proof allows, so the two models speak of the same sessions. |
| `ScopedMembership.LoginEndsOwnClient` | internal/server/accounts.go:119-135 | The state published by a login or logout makes the session's own client, if that is up to date and the others listed are readable, end its session if and only if the epoch before the call was the last one. |
| `ScopedMembership.LoginEndsViewers` | internal/server/accounts.go:168-195 | It makes another client that is shown the session end too, if and only if the epoch before the call was the last one and enforcement did not move the session on in the same section. |
| `Membership.Room.EnforceAccess` | internal/server/channel_access.go:38-54 | The pass over the session map, in any order, is the enforcement of each session. |
| `Membership.Room.Login` | internal/server/accounts.go:168-195 | The login's critical section ends exactly the other live sessions of the account and then enforces access. |
| `Membership.Room.FindPresent` | internal/server/admin_members.go:127-138 | The search finds a presence exactly when an unexpired live session of the moderator is in the channel. |
| `Accounts.TransactKeeps` | internal/accounts/store.go:285-343 | Every transaction keeps: token rows carry their account's current version, at most one row per account, no two rows with one secret. |
| `Accounts.OneTokenEach` | internal/accounts/store.go:285-315 | In every run, whatever the order of verifications and issues, those three facts hold. |
| `Accounts.ValidExactly` | internal/accounts/store.go:333-343 | Over any run a login is valid later if and only if it was valid, nothing ended it in between (a new login, its revocation, a password change) and it has not expired. |
| `Accounts.NeverRevived` | internal/accounts/store.go:333-338 | Once a proof is invalid it is never valid again. |
| `Accounts.ValidAfter` | internal/accounts/store.go:333-408 | The same for one transaction, in both directions. |
| `Accounts.ReplaceExactly` | internal/accounts/store.go:380-408 | A password change commits exactly for the current version, stores the new hash under the next version, ends exactly that account's logins, and changes nothing else. |
| `Accounts.ProfileExactly` | internal/accounts/store.go:423-437 | A profile change commits exactly for the current version and changes the nickname only. |
| `Accounts.RegisterExactly` | internal/accounts/store.go:202-240 | A registration commits exactly for an unused ID and name below 10,000 accounts, and adds exactly that account in version 1. |
| `Accounts.IssueExactly` | internal/accounts/store.go:285-315 | An issue commits exactly for the current version when no other unexpired login has the ID or digest; it adds a login of 30 days and keeps exactly the other accounts' unexpired ones. |
| `Accounts.RevokeExactly` | internal/accounts/store.go:340-343 | A revocation deletes exactly that login, if it is the account's. |
| `Accounts.PasswordStands` | internal/accounts/store.go:250-276 | In every run an account's stored password is the one of its last committed change, and its name never changes. |
| `Accounts.StaleVerification` | internal/accounts/store.go:296-302 | Credentials verified before a password change cannot buy a login after it. |
| `Accounts.IssuedIsFound` | internal/accounts/store.go:285-331 | An issued secret finds exactly its own row, with the account's profile, is valid, and is the account's only login. |
| `Accounts.Store.IssueToken` | internal/accounts/store.go:285-315 | The transaction on the two tables commits as a whole or rolls back, and returns a valid proof exactly when it commits. |
| `Accounts.Store.Token` | internal/accounts/store.go:317-331 | A well-formed secret yields the proof of its live row, and none exactly when no live row has it. |
| `Accounts.Store.IsValid` | internal/accounts/store.go:333-338 | The validity query is the row's life, owner and version check. |
| `Accounts.Store.RevokeToken` | internal/accounts/store.go:340-343 | Revocation removes the named row only if it belongs to the account. |
| `Accounts.Store.ChangePassword` | internal/accounts/store.go:380-408 | A password change moves the version on and invalidates every login of the account at any time, or changes nothing because the version is stale. |
| `Logins.SessionProofs` | internal/server/accounts.go:157-207 | In every run, when no account command is in progress, a live session's proof is valid if and only if it has not expired and its account's token was not rotated since for a login that was never admitted; no account has two live sessions. |
| `Logins.LogoutInvalidates` | internal/server/accounts.go:119-135 | A logout revokes the session's own login at once and for good, touches no other login, and leaves the session a guest. |
| `Logins.PasswordChangeKeepsSession` | internal/server/accounts.go:157-207 | A password change stores the password, ends every login of the account, and gives the session that asked a valid one under the new version, while the account's other live sessions end. |
| `Logins.AbandonedLogin` | internal/server/accounts.go:168-172 | A run in which a login is verified and issued, its connection goes away before the critical section, and the account's older session stays live with an unexpired proof that is no longer valid. |
| `VoiceWire.DecodeEncoded` | internal/nativewire/wire.go:299-347 | Whatever encodes decodes to the fields that direction carries. |
| `VoiceWire.EncodeDecoded` | internal/nativewire/wire.go:299-347 | Whatever decodes is the one encoding of what it decodes to. |
| `VoiceWire.LayoutParts` | internal/nativewire/wire.go:311-325 | Which bytes hold which field: the end flag, the epoch, the sequence, the sender and its epoch, and the data. |
| `VoiceWire.EncodeVoice` | internal/nativewire/wire.go:299-325 | The buffer filled field by field is the packet layout, or none in exactly the refused cases. |
| `VoiceWire.UploadDecodes` | client/src/session.rs:553-573 | The server reads back exactly what the client framed, unless the epoch is 0. |
| `VoiceWire.ClientAgrees` | client/src/session.rs:1111-1124 | The client's own parse agrees with the server's decoder on every datagram, but for the zero checks of the two epochs. |
| `VoiceScope.VoiceIsScoped` | internal/server/server.go:615-658 | In every run, with any delay of frames and states and however often 32-bit epochs wrap, a client that has not ended accepts a frame only if sender and recipient were both in the channel the client now believes itself in, in this very stay, at the epochs in the frame, when the server relayed it, and only with the sequence, end and data of a frame that the sender uploaded in that epoch. |
| `VoiceScope.SectionKeeps` | internal/server/server.go:534-577 | A critical section that moves, logs in or out, mutes or removes any sessions and then broadcasts keeps every open line up to date: the states from the client's own to the newest published are in order and at most three epochs apart, or the full queue has closed the connection. |
| `VoiceScope.TakenFits` | client/src/session.rs:954-969 | A client that applies the next state and goes on has never crossed a wrapped epoch: the number of epochs its session has had and the epoch it shows still agree. |
| `VoiceScope.PathTurns` | internal/server/channel_access.go:21-36 | A critical section takes a session at most three epochs on, and to another channel only with a new one. |
| `VoiceWrap.OwnClientEnds` | client/src/session.rs:954-969 | After the unguarded epoch step, with a move in the same section or without, the session's up-to-date client refuses its state if and only if the step started from the last epoch. |
| `VoiceWrap.ViewerEnds` | client/src/wire.rs:126-176 | Another client that is shown the session refuses its own state if and only if the step started from the last epoch and no move followed, since a listed epoch of 0 is refused. |
| `VoiceWrap.WrapEndsSessions` | internal/server/accounts.go:129-131 | A run from the empty server in which one session logs in until its epoch wraps, every state delivered, after which its own client and the client of another session in the channel have both ended. |
| `VoiceScope.RelaysAreTrue` | internal/server/server.go:615-658 | A relay happens only between two live sessions of one channel, unmuted and undeafened, names their epochs of that moment, and decodes to the sequence, end and data that were uploaded. |
| `VoiceScope.UploadExactly` | internal/server/server.go:625-656 | A frame that the limiter lets through, from a live, unmuted session that names its own epoch, adds exactly one relay for each other live, undeafened, connected session of the channel; any other frame adds none. |
| `VoiceScope.PromptFramePlays` | client/src/session.rs:1111-1144 | A recipient whose client holds the state of the moment of the relay plays the frame as it was uploaded. |
| `VoiceScope.VoiceTargets` | internal/server/server.go:640-651 | The gathering loop finds exactly the sessions that hear the sender, each once, with its epoch, and the fixed 64 slots suffice. |
| `VoiceScope.RoomForAll` | internal/server/server.go:262-272 | In every run admission keeps the sessions within those slots. |
| `VoiceRing.Ring.Push` | internal/nativewire/voice_ring.go:27-45 | Push keeps the newest capacity packets in order, refuses exactly when closed, and wakes exactly on the empty-to-non-empty change. |
| `VoiceRing.Ring.TryPop` | internal/nativewire/voice_ring.go:54-69 | A locked round of pop stops exactly when the ring is closed or the consumer cancelled, otherwise takes the oldest packet, and waits exactly when there is none. |
| `VoiceRing.Ring.Close` | internal/nativewire/voice_ring.go:80-87 | Close abandons what is queued and leaves a wake token. |
| `VoiceRingRuns.NoLostWakeup` | internal/nativewire/voice_ring.go:27-87 | For every interleaving of producers, consumer and close, a waiting consumer with a non-empty or closed ring has a pending wake token. |
| `VoiceRingRuns.KeepsNewest` | internal/nativewire/voice_ring.go:27-77 | For every interleaving the open ring holds exactly the newest packets pushed after the last delivered one, and deliveries keep push order. |
| `VoiceRingRuns.StepsExactly` | internal/nativewire/voice_ring.go:27-87 | In every interleaving an open ring accepts each packet, a check takes the oldest queued one, which is the one pushed at the recorded position, stops or waits exactly when closed or empty, and a wait ends exactly on a token. |
| `TokenBucket.WindowBound` | internal/server/server.go:86-104 | In any window of any run with non-decreasing times, from an unused bucket or any sound one, grants are at most the largest burst plus the largest rate times the window, even when one bucket is called with different rates and bursts. |
| `TokenBucket.WindowIsDifference` | internal/server/server.go:91-104 | The grants of a window are those up to its end less those before its start. |
| `TokenBucket.HandshakeBound` | internal/noiseudp/handshake.go:357-363 | The handshake limiter, which starts full, admits at most 20 + 10 t in any window of t seconds of its life. |
| `TokenBucket.GrantedExactly` | internal/server/server.go:91-104 | A call is granted if and only if, counted from every call up to it, the grants so far and this one stay within burst plus rate times elapsed time: nothing is refused that the limit allows. |
| `TokenBucket.HandshakeExactly` | internal/noiseudp/handshake.go:357-363 | The handshake limiter refuses a call only if some window that ends with it would hold more than 20 + 10 t. |
| `TokenBucket.Bucket.Take` | internal/server/server.go:91-104 | The in-place take is the refill-and-grant step of the bound. |
| `ChatLog.PreviousIsLast` | internal/server/chat.go:165-206 | The lookup finds the newest retained message of the channel below the cursor, or none exactly when retention or the cursor leaves none. |
| `ChatLog.ReadPage` | internal/server/chat.go:208-232 | A page is the exact run of channel messages just below its cursor, each retained when read, within 20 messages and 48 KiB, with the cursor of its oldest; it has more exactly when an older one is still retained, and then it was full. Retention may advance during the read. |
| `ChatLog.PagesEnumerate` | internal/server/chat.go:208-232 | Pages chained by their cursors, over a growing log and rising retention, are together the newest run below the first cursor, each message once and in order; when a page says there is no more, everything retained has been delivered. |
| `ChatLog.CursorsFall` | internal/server/chat.go:208-232 | The cursor falls strictly from page to page. |
| `ChatLog.MoreMeansSome` | internal/server/chat.go:219-225 | A page that promises more is never empty, because one storable message always fits. |
| `ChatLog.BoundaryIsSeamless` | internal/server/chat.go:236-302 | Initial page plus live delivery from boundary + 1 is the newest run of the channel, without gap or repetition whatever was committed meanwhile, marked as history exactly up to the boundary. |
| `ChatLog.BoundaryIsNewest` | internal/server/chat.go:236-246 | The boundary is the newest sequence of the channel, or 0 exactly when there is none or retention took it. |
| `ChatLog.BoundaryWithRetention` | internal/server/chat.go:236-302 | If retention overtakes the consumer, the reader still sees nothing twice or out of order and everything that is left above the boundary. |
| `ClientCache.CacheStaysSound` | client/src/session.rs:1051-1106 | Under every sequence of frames from any server the cache is strictly ordered, of one epoch, and within 500 messages and 512 KiB. |
| `ClientCache.MessageKeeps` | client/src/session.rs:1051-1077 | A live message is ignored if foreign or known; otherwise the cache becomes a suffix of the ordered insertion, and history is limited exactly if something was dropped. |
| `ClientCache.EvictKeeps` | client/src/session.rs:1068-1074 | Dropping from the front leaves the newest run that fits and drops no more than it must. |
| `ClientCache.HistoryKeeps` | client/src/session.rs:784-835 | A page applies all or nothing: ignored, refused with history limited and all else unchanged, or every unknown message added with cursor and has-more taken over. |
| `ClientCache.PagingProgresses` | client/src/session.rs:784-835 | A matching page lowers the cursor strictly, or ends paging. |
| `ClientCache.ServerPageAccepted` | client/src/session.rs:784-806 | Every page the server can read from a log of storable messages passes all the client's checks. |
| `ClientCache.PagingExtendsTheRun` | client/src/session.rs:784-835 | When the cache holds the newest messages down to its cursor, a server page extends exactly that run downward, an empty one ends paging, and one that does not fit changes nothing but the limit flag. |
| `ClientStay.StayIsGapless` | client/src/session.rs:1051-1106 | Over a whole stay (initial pages that the page loop reads at their boundaries, their statuses, live messages, requested pages, any number of resynchronisations) the cache is one gapless run of the channel's log throughout if and only if every step is harmless: a delivery cached, adjacent or without room, a page that adds nothing, finds no room or does not start below the oldest cached message. |
| `ClientStay.StepExactly` | client/src/session.rs:1051-1106 | Each step from a gapless cache: the client never refuses the server's frame, and the cache stays gapless if and only if the step is harmless. |
| `ClientStay.DeliverExactly` | client/src/session.rs:1051-1077 | A message of the log leaves the cache without a gap if and only if it is cached or next to either end, or so old that it finds no room and is the one dropped. |
| `ClientStay.RestartExactly` | internal/server/chat.go:236-302 | After a resynchronisation over a cache no newer than the new page, the page's first message leaves no gap if and only if the page starts no later than the cache ends, which is impossible once more than 20 messages were missed. |
| `ClientStay.PageExactly` | client/src/session.rs:784-835 | A page for the current cursor leaves the cache without a gap if and only if it adds nothing, does not fit, or its cursor is not below the oldest cached message; a page that reaches into the cache adds exactly the part below it. |
| `ClientHole.LatePageLeavesHole` | client/src/session.rs:1066-1106 | A stay from an initial page of 20 messages that the page loop reads, filled by live messages to exactly 512 KiB, in which one more message pushes out the oldest while a requested page is on its way; the page still fits, and the cache ends with a hole. |
| `ClientHole.SecondReaderLeavesHole` | internal/server/chat.go:308-318 | A stay in which the chat fails after one message and is synchronised again 21 messages later: the first message of the second initial page leaves a hole. |
| `ClientCache.ChannelKept` | client/src/session.rs:954-1001 | The cache stays of one channel across a frame if and only if the frame is not a state of the same epoch that names another channel while messages are cached. |
| `ClientCache.Driver.OnMessage` | client/src/session.rs:1051-1077 | The in-place insertion and pop loop is the message step; the session ends exactly on a message of this epoch with another channel, a zero sequence or time, a malformed author or a field that is too long. |
| `ClientCache.Driver.OnState` | client/src/session.rs:954-969 | The in-place state change refuses exactly a malformed state, a smaller epoch or a stale watched revision, takes channel, epoch and revision over, and empties cache, status and limit exactly when the epoch is new. |
| `ClientCache.Driver.OnStatus` | client/src/session.rs:1079-1092 | A chat status is taken over exactly for the current stay and no older generation and otherwise changes nothing; the session ends exactly on an unknown status. |
| `ClientCache.Driver.OnHistory` | client/src/session.rs:784-835 | The in-place page application is the history step, or the invalid-state error in exactly its cases. |
| `FftFactors.Factorize` | native/speexdsp/smallft.c:51-78 | For every size from 2 the factor search terminates with factors whose product is the size, at most one 2, in front, then 4s, then odd primes in ascending order, and they fit the 32-slot table. |
| `FftFactors.TableSuffices` | native/speexdsp/smallft.c:63-65 | No int has more than 30 factors, so the table cannot overflow. |
| `FftFactors.ShiftUp` | native/speexdsp/smallft.c:69-73 | The loop that makes room for a late factor 2 moves the earlier factors up by one, in order. |
| `FftSchedule.BackwardPlan` | native/speexdsp/smallft.c:1156-1232 | The backward pass visits every stage with the planned radix, span, length and offset n - n/l1. |
| `FftSchedule.ForwardPlan` | native/speexdsp/smallft.c:575-634 | The forward pass, counting down, visits the same stages with the same offsets in reverse. |
| `FftSchedule.StartsChain` | native/speexdsp/smallft.c:86-107 | Each stage's span, radix and inner length multiply to the size, and its twiddle vectors end exactly where the next stage's begin, in bounds. |
| `FftSchedule.FillTwiddles` | native/speexdsp/smallft.c:79-107 | The initialiser writes every pair of every vector of every stage but the last, and later writes disturb no earlier one. |
| `FftSchedule.ReadsAreFilled` | native/speexdsp/smallft.c:86-107 | Every pair of every vector of every stage that has one is the pair the initialiser wrote for that stage, vector and position; the unfilled last stage has none. |
| `FftReads.StageReads` | native/speexdsp/smallft.c:593-620 | What a stage's butterflies read, in either pass and for any radix, is exactly the pairs of its ip - 1 vectors, and each is the one the initialiser wrote. |
| `FftReads.FixedReads` | native/speexdsp/smallft.c:1177-1206 | The pointers of radix 2, 3 and 4, one inner length apart, read exactly the pairs of their vectors. |
| `FftReads.GeneralReads` | native/speexdsp/smallft.c:307-341 | The running index of every other radix, in the forward and the backward form, reads exactly the pairs of all vectors. |

## Left out

- The Noise handshake, cookies, ciphers, signatures, OPAQUE and Argon2: taken as ideal or absent. Passwords are hashes that either match or do not.
- Protobuf and JSON encoding, request framing and state projection sizes: messages are datatypes.
- NATS, JetStream, SQLite and casbin internals: a revisioned register, an append-only log with oldest-first retention, two tables with atomic transactions, and the fixed policy table.
- Idle timeouts, retry timers and keepalive as liveness: a timer is a step that may happen at any time. That a retransmitted chunk is eventually acknowledged is not stated.
- Delivery order between a session's critical and chat queues: the writer's choice is nondeterministic.
- The Rust transport and the audio engine behind the client are not part of this model.
- Butterflies, the `na` buffer choice and every floating-point value of the FFT; twiddle entries are the multiples of 2 pi / n whose cosine or sine they hold.
- Sessions as shared objects: a session is a value in a map keyed by its ID, so aliasing of one peer object by several goroutines is represented by the atomic steps alone.
- Write as one call: its loop is StartChunk and AwaitAck, because it blocks between them; the run proofs interleave those steps with all others.
- NoiseSafety.StreamIsReliable: does not promise progress, because the network may lose every packet.
- ChannelRace.NoOrphans: does not cover programs that edit the channel list behind the server, because the source itself refuses to run on after one.
- ClientStay.StayIsGapless: assumes that retention does not overtake the live consumer, as ChatLog.BoundaryIsSeamless does, because the run it compares with is the channel's whole log.
- ClientStay.RestartExactly: is about a new page that starts within or after the cache, because one that starts before it is covered, with its room condition, by ClientStay.DeliverExactly.
- VoiceScope.VoiceIsScoped: leaves out the client's other reasons to end (ChannelRace.StateIsReadable, malformed frames), because they only take clients away.
- Logins.SessionProofs: leaves out the offline password reset, which runs while the server is stopped.
- ChannelRace.SnapshotLists: is about which channels the projection lists; ChannelRace.StateIsReadable adds the interest filter of each client.
- Membership.RestrictedEntry: does not cover a role taken away while the session is inside, because the next enforcement pass handles that (Membership.EnforcementSettles).
- Accounts.Store.IssueToken: reads the clock once where the source reads it twice inside one transaction, because both readings serve expiry and only their order could matter.
- ChatLog.BoundaryIsSeamless: assumes retention does not overtake the live consumer; ChatLog.BoundaryWithRetention covers the case that it does.
- ChatLog.ReadPage: ignores failed reads, because a failure abandons the page.
- Account names, profile text rules and the 10,000-row listing: easy members. Registration's uniqueness and limit are in the transaction.
- Member events, pokes, pending replies and credential storage of the client: they do not touch the chat cache.
- Administration pages, command line, updater, preferences and icon generation.
