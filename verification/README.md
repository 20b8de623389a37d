# Verified models of wanopt-proxy

wanopt-proxy carries TCP streams and UDP datagrams through one authenticated QUIC connection. This
project models the parts of it whose correctness rests on more than one function, and proves what they
promise for every input, every interleaving or every reachable state:

- the UDP NAT of the server: two tables, a token bucket, two queues, workers, one reply pump per flow, and
  a shutdown that waits for all of them;
- the adaptive block codec: a copy loop that chooses raw or DEFLATE per block, and its validating decoder;
- key rotation against live authentications, and the mutual handshake;
- the client: leases taken and given back by `OpenTCP` and its streams, waiting for a connection, and
  UDP sessions against shutdown;
- the wire formats: addresses, stream requests, the datagram envelope, SOCKS5 UDP packets (the address form
  of section 5 and the UDP header of section 7 of RFC 1928);
- egress: the destination policy, resolution, the race of two address families, and how a deadline is
  shared among addresses.

Check it with `dafny verify dfyconfig.toml`.

## How the code is represented

Functions that only compute are functions. Loops and objects that change step by step are methods and
classes, each proved against a function of the old state. Concurrent code is a state machine whose events
are what runs without interruption: a critical section, a channel operation, a check of a context, the
outcome of a socket or dial call, the exit of a goroutine. `Run(s, es, s')` says that the events `es` lead
from `s` to `s'`, and a state is reachable if some run leads to it from the initial one. History fields
(such as `place`, `admits` or `tries`) only record; a guard looks at one at most to name something new. Where a
result speaks of the steps of a run, the run comes with all its states as a trace; every run has one
(`NatTrace.TraceOf`) and every trace is a run (`NatTrace.PrefixRuns`).

| module | source |
|---|---|
| `Bytes`, `Address`, `Frame`, `WireLayout` | internal/protocol |
| `SocksUdp` | internal/proxy/socks_udp.go |
| `BlockFormat`, `AdaptivePlan`, `AdaptiveChoices`, `Compress`, `DecopyCuts` | internal/compress/compress.go |
| `NatTables`, `NatMachine`, `NatSafety`, `NatRate`, `NatBucket`, `NatAccounts`, `NatFates`, `NatTrace`, `NatLosses`, `NatRouting`, `NatBehind`, `NatHistory`, `NatOrder`, `NatCauses`, `NatDelivery`, `NatCounterexamples`, `NatClose` | internal/server/udp.go |
| `FlowKeys` | internal/server/udp.go, internal/protocol/address.go |
| `Credentials`, `AuthMachine`, `Revocation`, `RevocationExact`, `Handshake`, `HandshakeProgress` | internal/tunnel, internal/server/credentials.go, internal/server/server.go |
| `Admission`, `StreamMachine`, `StreamLeases`, `StreamProgress`, `Lifecycle`, `LifecycleProgress` | internal/admission/budget.go, internal/client/client.go |
| `Policy`, `Prefixes`, `PolicyMeaning`, `NameForms`, `Resolve`, `DialRace`, `RaceMachine`, `RaceSafety`, `RaceOutcome`, `DeadlineSplit` | internal/acl/acl.go |

Assumptions about what is not in the repository:

- Time in the NAT and in credential checks is a real number that never goes back; in the deadline split it
  is an integer of nanoseconds. The token count is a real number.
- DEFLATE is a pair of functions: inflating what was deflated gives the block back and consumes all of it,
  and deflated data is not empty.
- `net.ParseIP` is a function that accepts texts of at most 45 bytes and gives 16 bytes. It undoes
  `net.IP.String`, which prints both forms of an IPv4 address alike, in lower case and with no dot at the end.
  `strings.ToLower` is a function that leaves names without capitals alone and lower-cases host names letter by
  letter. A network rule is a network number with the mask of its prefix length, as `net.ParseCIDR` and
  `net.CIDRMask` make it.
- SHA-256 key identities and HMAC proofs are injective symbols, and only a holder of a key (or one to whom
  it leaked) can make a proof with it.
- DNS answers, dial outcomes, clock readings, arriving datagrams and read sizes are arbitrary.

## Where a promise fails

Five natural promises do not hold of the code as it stands. Each has a lemma with an input that breaks it
and one that says exactly when it holds.

- *A datagram received before authentication is never sent.* Receiving and gating are two steps, and
  authentication can complete in between (`NatCounterexamples.EarlyArrivalIsSent`). What is sent passed the gate
  authenticated (`NatHistory.SentHasHistory`), and what met the gate before authentication never is
  (`NatHistory.GatedOutForGood`, `NatFates.GateDecides`).
- *A datagram that leaves its queue before cancellation is accounted.* A worker drops it silently when it
  next finds the context cancelled or the NAT closed (`NatCounterexamples.DequeuedCanBeLost`); over a whole run
  a datagram ends unaccounted if and only if that happened to it (`NatLosses.AccountedUnlessLost`).
- *Different destinations have different flows.* A flow key is made of text, which a domain, an IPv4 address and
  an IPv6 address can share (`FlowKeys.AddressesCanShare`, `FlowKeys.SameKeyExactly`); they are then one
  destination to the policy (`FlowKeys.SameKeySamePolicy`).
- *`Resolve` lists no address twice.* Answers are told apart by their zone, which the listed address does not
  have (`Resolve.ZonesCanRepeat`, `Resolve.DuplicateFreeExactly`).
- *The timeouts granted for one list sum to at most the time left.* A dial that fails early leaves time that
  is granted again (`DeadlineSplit.SumCanExceed`, `DeadlineSplit.SumFitsExactly`). What is never exceeded is
  the time used so far plus the next grant (`DeadlineSplit.NeverOvercommits`).

Two more are to be read with care. A reload that returned speaks for its own snapshot: if a newer one was
stored meanwhile, the newer reload closes what it revokes (`Revocation.NoGap`,
`Revocation.ReloadRevokesAll`), and the older one only guarantees that the keys left open were acceptable at
some moment since its scan began (`Revocation.ScanRevokesDead`). And that client and server agree on
compression needs a server that sends what it decided (`StreamLeases.ModesAgree`); with any server at all a
stream is compressed only if it was asked for (`StreamLeases.NeverUnrequested`).

## Model

| member | source | states |
|---|---|---|
| `Address.DecodeUndoesEncode` | internal/protocol/address.go:71-85 | encoding a valid address and decoding it, whatever follows, gives its canonical form and consumes exactly the encoding |
| `Address.EncodeUndoesDecode` | internal/protocol/address.go:131-167 | the bytes consumed by a successful decode are the encoding of the valid canonical address returned |
| `Address.DecodeExact` | internal/protocol/address.go:131-203 | the slice decoder accepts exactly the encodings of valid canonical addresses |
| `Address.EncodePrefixFree` | internal/protocol/address.go:71-85 | encodings are self-delimiting: no encoding is a proper prefix of another |
| `Address.CanonSameWire` | internal/protocol/address.go:71-85 | the 4-byte and 16-byte forms of an address have the same wire bytes and validity |
| `Address.ValidHostIsShort` | internal/protocol/address.go:171-203 | a valid host fits its length byte, so the encoder's truncation to a byte never loses anything |
| `Address.ReadBody` | internal/protocol/address.go:88-121 | reading piece by piece takes the same fields as the slice decoder, and fails on end of input only with the reader drained |
| `Address.ReadAddress` | internal/protocol/address.go:88-127 | the streaming and the slice decoder agree on every byte string: same acceptance, same address, same bytes consumed |
| `WireLayout.AddressLayout` | internal/protocol/address.go:71-85 | the bytes of a valid address are its type (1, 3 or 4), the same address in 4 or 16 bytes or the counted name, and the port in network order |
| `WireLayout.UvarintExactly` | internal/protocol/frame.go:124-142 | a byte string spells a number iff it has 1 to 10 bytes, the top bit marks all but the last, the other bits make up the number from the lowest up, and it fits 64 bits |
| `WireLayout.EnvelopeLayout` | internal/protocol/frame.go:97-114 | the envelope is version 2, a spelling of the session, the address and the payload; 850 bytes of payload make at most 1119 |
| `WireLayout.RequestLayout` | internal/protocol/frame.go:47-61 | a stream request is version 2, the command, the flags and the address, in this order |
| `WireLayout.BlockLayout` | internal/compress/compress.go:121-133 | a block is its mode, its raw and its encoded length in network order, and its data |
| `WireLayout.BlockLegal` | internal/compress/compress.go:160-205 | a block is legal iff both lengths are 1 to 32768 and its data is the block (mode 0) or inflates to exactly it (mode 1) |
| `Frame.UvarintUndoesAppend` | internal/protocol/frame.go:107-114 | every 64-bit session id is read back from its varint whatever follows, in at most 10 bytes |
| `Frame.UvarintBounded` | internal/protocol/frame.go:124-142 | any varint accepted, canonical or not, has a 64-bit value whose shortest form is no longer than what was read |
| `Frame.EnvelopeFits` | internal/protocol/frame.go:97-114 | a valid address, any session id and at most 850 payload bytes encode to at most 1119 bytes, one below the limit |
| `Frame.DatagramRoundTrip` | internal/protocol/frame.go:107-142 | such a datagram decodes to the same session, address (up to the 4/16-byte form) and payload |
| `Frame.DatagramExact` | internal/protocol/frame.go:124-142 | the decoder accepts exactly version, some varint spelling of the session, a valid canonical address and a legal payload, within the size limit |
| `Frame.ReencodeStable` | internal/protocol/frame.go:107-142 | re-encoding an accepted datagram is never longer and decodes to the same value, even from a non-canonical varint |
| `Frame.RequestRoundTrip` | internal/protocol/frame.go:47-75 | a stream request is read back whatever payload follows it, and none of that payload is taken |
| `Frame.RequestSound` | internal/protocol/frame.go:62-75 | only encodings of valid requests are accepted |
| `Frame.ReadStreamRequest` | internal/protocol/frame.go:62-75 | the streaming reader accepts what the slice form accepts and leaves exactly the bytes after the request |
| `SocksUdp.SocksPacketExact` | internal/proxy/socks_udp.go:184-206 | parsing is the exact inverse of building: accepted iff built from a relayable packet, and that packet is returned |
| `SocksUdp.ParseSocksUdp` | internal/proxy/socks_udp.go:184-203 | the reader-based parser accepts and returns what the exact form says |
| `SocksUdp.SocksPacketCrossesTunnel` | internal/proxy/socks_udp.go:184-206 | any packet the local proxy accepts fits one tunnel datagram and rebuilds the very same bytes at the far end |
| `BlockFormat.FrameAtSound` | internal/compress/compress.go:160-214 | a frame the decoder reads is well formed and its bytes are its wire form |
| `BlockFormat.FrameAtComplete` | internal/compress/compress.go:160-214 | every well-formed frame is read back, whatever follows it |
| `BlockFormat.DecodableSound` | internal/compress/compress.go:160-214 | on arbitrary bytes, what the decoder reads is a well-formed prefix of them |
| `BlockFormat.DecodableLongest` | internal/compress/compress.go:160-214 | and the longest one: every sequence of well-formed frames at the front is read in full |
| `BlockFormat.StreamExact` | internal/compress/compress.go:160-214 | an input is a concatenation of well-formed frames in at most one way, the one the decoder finds |
| `BlockFormat.CutExact` | internal/compress/compress.go:160-214 | a cut of a valid stream is valid iff it falls on a frame boundary |
| `DecopyCuts.CutIsTruncated` | internal/compress/compress.go:160-214 | a valid stream cut inside a frame decodes to the whole frames before the cut and is then reported as truncated, never as malformed or complete |
| `AdaptivePlan.PlanMeaning` | internal/compress/compress.go:79-145 | whatever is chosen per block, the frames carry exactly the source in order, every block was either tried or not, and framing adds at most 5 bytes a block |
| `AdaptivePlan.RoundTrip` | internal/compress/compress.go:61-214 | for every chunking of the source, decoding the encoder's output reads back its frames, its source, and ends cleanly |
| `AdaptivePlan.AmortisedProbing` | internal/compress/compress.go:79-121 | failed attempts are at most two per success, three in hand, and one for each 262144 bytes sent without trying, at every point |
| `AdaptivePlan.BackoffBounded` | internal/compress/compress.go:79-121 | one back-off skips at most 262144 + 32767 bytes |
| `AdaptiveChoices.ChoiceExactly` | internal/compress/compress.go:79-121 | for every list of blocks: one is sent untried iff it is under 256 bytes or fewer than 262144 bytes lie between it and a block where three or more attempts had missed since one last saved; one that is tried is compressed iff that saves more than a tenth |
| `AdaptiveChoices.FramesExactly` | internal/compress/compress.go:79-121 | and the frames sent are those choices, block by block |
| `Compress.EncodeBlock` | internal/compress/compress.go:79-121 | the in-place frame buffer ends up holding the wire form of the frame the adaptive state calls for, with the next state and the choice made |
| `Compress.CopyBlock` | internal/compress/compress.go:122-145 | a block is written once and booked, and a failed write leaves the books closed without it |
| `Compress.CopyStep` | internal/compress/compress.go:71-156 | each turn of the loop serves one read and keeps the books balanced, or stops for one of the four reasons |
| `Compress.CopyObserved` | internal/compress/compress.go:61-156 | on every exit (end, read error, write error, no progress) output, total, callbacks and flushed counters are those of the blocks read |
| `Compress.FinishesInTime` | internal/compress/compress.go:71-78 | a source of L bytes is finished within 100·(L+1) reads, however they are chunked |
| `Compress.AccountsAgree` | internal/compress/compress.go:122-155 | returned total = payload callbacks = flushed input bytes = source bytes of fully written frames, with at most 5 bytes overhead a frame |
| `Compress.ReportedInPeriods` | internal/compress/compress.go:134-145 | the observer hears of at least 1 MiB and less than a block more each time, but for the last |
| `Compress.CopyThenDecode` | internal/compress/compress.go:61-214 | decoding what a copy wrote yields exactly the data of the reads it served, including data returned together with the end |
| `Compress.BrokenCopyDecodes` | internal/compress/compress.go:131-133 | after a failed write exactly the fully written blocks decode iff less than the whole last frame got through; otherwise the last block decodes too |
| `Compress.DecodeBlock` | internal/compress/compress.go:160-205 | one turn of the decoder accepts exactly the next well-formed frame and otherwise names the reason |
| `Compress.Decopy` | internal/compress/compress.go:160-214 | on arbitrary bytes the output is the decoding of the longest well-formed prefix the destination took |
| `Compress.DecopyExact` | internal/compress/compress.go:160-214 | it succeeds iff the input is a concatenation of well-formed frames, the source ended cleanly and every write was full |
| `Compress.DecopyOutput` | internal/compress/compress.go:160-214 | on success it has written what the frames carry, whichever way the input is taken apart |
| `NatTables.Defaults` | internal/server/udp.go:28-51 | whatever was configured, the limits in force are workable, and workable ones are kept |
| `NatTables.AdmitKeeps` | internal/server/udp.go:179-216 | the first critical section keeps the tables disjoint, within the limit, and the tokens within [0, R] |
| `NatTables.AdmitShape` | internal/server/udp.go:179-216 | only an admitted key becomes pending, and it was neither a flow nor pending in an open NAT |
| `NatTables.InstallKeeps` | internal/server/udp.go:221-252 | ending an admitted dial overwrites no flow and exceeds no limit |
| `NatTables.RetireKeeps` | internal/server/udp.go:276-286 | removing a flow keeps the tables valid |
| `NatTables.UdpNat.constructor` | internal/server/udp.go:89-101 | a new NAT is empty and open with a full bucket |
| `NatTables.UdpNat.AdmitSection` | internal/server/udp.go:179-216 | the object takes exactly the step the tables' function describes and stays valid |
| `NatTables.UdpNat.TakeToken` | internal/server/udp.go:203-214 | the bucket refills with time up to R and gives a token iff it holds a whole one |
| `NatTables.UdpNat.InstallSection` | internal/server/udp.go:221-252 | the pending mark goes and a flow appears iff there is a socket and the NAT is open |
| `NatTables.UdpNat.RetireSection` | internal/server/udp.go:276-286 | a pump removes its own flow and no other |
| `NatTables.UdpNat.CloseSection` | internal/server/udp.go:340-351 | closing marks the NAT and hands over exactly the sockets to close |
| `NatSafety.InvStep` | internal/server/udp.go:120-351 | every step of every goroutine keeps table bounds, dial ownership, pump ownership, the wait-group count and socket ownership |
| `NatSafety.NatBounded` | internal/server/udp.go:179-255 | in every reachable state flows and pending are disjoint and within MaxFlows, each pending key has exactly one worker and each flow exactly one live pump |
| `NatSafety.InsertNeverOverwrites` | internal/server/udp.go:221-255 | inserting a flow never overwrites one, and its pump is new |
| `NatSafety.NatDrains` | internal/server/udp.go:274-351 | once closed with the wait group at zero, tables, goroutines and sockets are gone and stay gone in every continuation |
| `NatSafety.CloseLeavesNothing` | internal/server/udp.go:340-351 | the same for the wait at the end of `close`, in any run from the start |
| `NatRate.RefillPaced` | internal/server/udp.go:203-208 | refilling keeps the admissions so far within what the bucket allows |
| `NatRate.SpendPaced` | internal/server/udp.go:209-215 | so does spending a token for one more admission |
| `NatRate.FlowCreationRate` | internal/server/udp.go:95-216 | over every run and every window of length d at most R + R·d new-flow dials are admitted |
| `NatBucket.EmptyExactly` | internal/server/udp.go:203-214 | the refilled bucket has no whole token iff one more admission would exceed R + R·(time since) for some earlier admission |
| `NatBucket.AdmissionExactly` | internal/server/udp.go:179-216 | over every run, a datagram without a flow is throttled iff that bound would be exceeded, counted from the times of the earlier admissions alone; below the flow limit it is otherwise always dialled for |
| `NatAccounts.AuthFirstStep` | internal/server/udp.go:120-178 | until authentication nothing is past the gate and only authentication drops are logged, whatever happens next |
| `NatAccounts.AccountsStep` | internal/server/udp.go:120-273 | every step keeps each datagram in exactly one place and logged at most once |
| `NatAccounts.ReachableSound` | internal/server/udp.go:120-376 | hence so in every reachable state |
| `NatFates.AccountedOnce` | internal/server/udp.go:120-273 | every datagram is accounted at most once, never while in flight, and exactly once when it is no longer in flight and the NAT was not cancelled |
| `NatFates.GateDecides` | internal/server/udp.go:355-376 | a datagram at the gate is finally accounted as unauthenticated iff the connection was not authenticated then |
| `NatFates.NothingBeforeAuth` | internal/server/udp.go:120-178 | before authentication nothing was queued, taken or sent |
| `NatLosses.AccountedUnlessLost` | internal/server/udp.go:120-273 | over every run, a datagram received and no longer in flight is accounted iff no step of the run lost it: no worker with it in hand found the context cancelled, or the NAT closed without a dial error to report |
| `NatLosses.GoneForGood` | internal/server/udp.go:120-273 | a datagram no longer in flight stays accounted, or unaccounted, in every continuation |
| `NatCounterexamples.DequeuedCanBeLost` | internal/server/udp.go:166-178 | a run in which a datagram taken from the queue before cancellation is not accounted, then or in any continuation |
| `NatCounterexamples.EarlyArrivalIsSent` | internal/server/udp.go:355-376 | for every configuration a run in which a datagram received before authentication is written and accounted as sent |
| `NatHistory.SentHasHistory` | internal/server/udp.go:120-376 | over every run, each account of a datagram as sent has behind it, in order: its receipt, the gate passed authenticated, the checks passed within the limit, and a successful write to the flow the table then held for its own key |
| `NatHistory.AccountsFit` | internal/server/udp.go:120-376 | over every run, each account is about a datagram received before and fits what was received: well-formed datagrams within the limits are never dropped as invalid or oversized, and no others get further |
| `NatHistory.GatedOutForGood` | internal/server/udp.go:355-376 | a datagram at the gate before authentication is in no worker's hands in any continuation, and its only account is the missing authentication |
| `NatBehind.BehindStep` | internal/server/udp.go:120-273 | whatever holds of all datagrams the receive loop enqueues holds of all that queues and workers hold |
| `NatCauses.EveryAccountHasItsCause` | internal/server/udp.go:120-273 | over every run, each account has its cause at the step that adds it: a full queue or another dial for the key, the flow limit reached, the rate exceeded, the context cancelled, a failed dial or write, and so on |
| `NatOrder.QueuesInOrder` | internal/server/udp.go:120-150 | in every reachable state both queues are within their bound and in the order of arrival |
| `NatOrder.TakenInOrder` | internal/server/udp.go:166-178 | over every run the admission workers together take datagrams in the order of arrival |
| `NatOrder.WrittenInOrder` | internal/server/udp.go:153-165 | over every run the datagrams of existing flows are written in the order of arrival |
| `NatOrder.NothingQueuedAfterCancel` | internal/server/udp.go:120-150 | what arrives after cancellation is in no queue and in no worker's hands in any continuation |
| `NatDelivery.FlowDelivers` | internal/server/udp.go:120-273 | from every reachable state in which the NAT is authenticated, not cancelled and has room in its packet queue, the next datagram of a flow with an open socket can be delivered |
| `NatDelivery.NewKeyDecides` | internal/server/udp.go:120-178 | likewise the next datagram of a key without a flow can get to the decision on it |
| `NatDelivery.NewFlowDelivers` | internal/server/udp.go:179-273 | and whenever that decision is to dial, a flow can be made that delivers it |
| `NatClose.CloseReturns` | internal/server/udp.go:340-351 | from a closed NAT no run has more than a fixed number of steps of its goroutines, and as long as the wait group is not at zero one of them has a step: the wait in `close` ends |
| `FlowKeys.SameKeyExactly` | internal/server/udp.go:103-103 | two datagrams share a flow key iff they have the same session, the same port and the same text of the host |
| `FlowKeys.AddressesCanShare` | internal/protocol/address.go:36-41 | the text of an IPv4 address as a domain, the address, and its IPv4-mapped IPv6 form are three valid addresses with one key |
| `FlowKeys.SameKeySamePolicy` | internal/server/udp.go:135-180 | whoever shares a key has the same canonical form and resolves alike under every policy, so the policy consulted when a flow was created speaks for all of them |
| `NatRouting.RoutedStep` | internal/server/udp.go:120-286 | every step keeps each queued or held datagram tied to a flow of its own key, or to one that is gone |
| `NatRouting.WritesReachOwnFlow` | internal/server/udp.go:256-273 | a successful write goes to the open socket of the flow the table now holds for the datagram's own session and destination |
| `Credentials.RotationBounded` | internal/tunnel/credentials.go:32-55 | after a rotation exactly the new key is accepted, and the previous one until it expires, within a week |
| `Credentials.ServerCredentials.Update` | internal/tunnel/credentials.go:32-44 | an update publishes a complete snapshot or changes nothing, and is refused exactly for unusable input |
| `Credentials.Server.RevokeUnauthorized` | internal/server/credentials.go:17-29 | run alone, it closes exactly the connections whose key is not accepted |
| `Credentials.Server.ReloadCredentials` | internal/server/credentials.go:10-16 | run alone, a refused reload changes nothing and a successful one leaves no connection under a key that is not accepted |
| `Revocation.InvStep` | internal/server/server.go:229-334 | every step of authentications, reloads and scans keeps the store/check ordering invariant |
| `Revocation.NoGap` | internal/server/credentials.go:10-29 | a published open connection under a key absent from the current snapshot is still to be visited by a scan begun after that snapshot was stored, or on its close list |
| `Revocation.ReloadRevokesAll` | internal/server/credentials.go:10-29 | once a scan begun at or after the store of the current snapshot is over, no connection is open under a key absent from it |
| `Revocation.ScanRevokesDead` | internal/server/credentials.go:17-29 | with other reloads and expiry running, a finished scan leaves open only keys acceptable at some moment since it began |
| `Revocation.PublishedOnce` | internal/server/server.go:326-334 | `authed` is closed at most once on a connection |
| `RevocationExact.SteadySurvive` | internal/server/credentials.go:17-29 | whoever a scan closes was authenticated under a key that was unacceptable at some moment since the scan began, in every run |
| `Handshake.ClientAgreement` | internal/tunnel/auth.go:25-46 | if `ClientAuth` succeeds with an unleaked key, a server connection of the same exporter selected that key, stored it and had closed `authed` |
| `Handshake.ServerAgreement` | internal/tunnel/credentials.go:58-80 | a published connection with an unleaked key was asked for by a client with that key and exporter |
| `Handshake.ProofAfterPublish` | internal/tunnel/credentials.go:58-80 | the server's proof is visible only after the key was stored and `authed` closed |
| `HandshakeProgress.SelectExactly` | internal/tunnel/credentials.go:58-80 | a client's proof of a key for this session is answered with that key iff it is not empty and the snapshot accepts it at that time, and no other proof ever is |
| `HandshakeProgress.HandshakeCompletes` | internal/tunnel/credentials.go:58-80 | from every reachable state where a connection has loaded the current snapshot and its client has sent the proof of an acceptable key, primary or previous, a run leads to the client accepting and the connection published under that key |
| `HandshakeProgress.HolderGetsIn` | internal/server/server.go:271-334 | the same from a connection that is only registered |
| `Admission.Budget.constructor` | internal/admission/budget.go:23-28 | a new budget has its limit and no lease out |
| `Admission.Budget.TryAcquire` | internal/admission/budget.go:29-39 | succeeds exactly while there is room, and then adds one new lease to those out |
| `Admission.Release` | internal/admission/budget.go:40-49 | on nil and any number of times: finds a token whenever it takes one and gives each lease back once |
| `StreamLeases.InvStep` | internal/client/client.go:347-444 | every step of `OpenTCP`, of stream release and of the server keeps who owns which lease |
| `StreamLeases.LeasesConserved` | internal/client/client.go:363-444 | each budget is in use exactly by the sessions that hold a lease of it, never beyond its limit |
| `StreamLeases.ReleaseNeverBlocks` | internal/client/client.go:347-444 | whenever a step gives a lease or slot back, on the client or on the server, there is one to take |
| `StreamLeases.ReleasedOnce` | internal/client/client.go:347-361 | a lease given back is never taken or given back again, over every continuation |
| `StreamLeases.AllReturned` | internal/client/client.go:347-444 | when every call ended or had its stream released, all budgets are empty again |
| `StreamLeases.CodecOutlivesIffCompressed` | internal/client/client.go:363-444 | a codec lease outlives `OpenTCP` iff the stream is compressed |
| `StreamLeases.ModesAgree` | internal/server/server.go:399-415 | both ends of every stream handed out use the same mode, whichever leases were available |
| `StreamLeases.NeverUnrequested` | internal/client/client.go:427-444 | with any server, a stream is compressed only if asked for with a codec lease in hand |
| `StreamProgress.CapacityExactly` | internal/client/client.go:363-426 | a call is admitted, queued, and asks for compression exactly while fewer leases are out than the limit (and it is wanted and supported), and so does the server |
| `StreamProgress.CompressedIsWanted` | internal/client/client.go:395-444 | in every reachable state a stream is compressed only if its caller wanted that and the client supports it, with an honest server only if the server does too |
| `StreamProgress.FlagsExactly` | internal/client/client.go:427-444 | with any server, a stream is handed out iff the reply has no flag, or the compression flag alone after a request that asked, and then in that mode |
| `StreamProgress.HonestReplyAccepted` | internal/server/server.go:399-415 | the reply of a server that sends what it decided always leads to a stream in that mode |
| `StreamProgress.CompressionCanBeHad` | internal/client/client.go:363-444 | when it is wanted, supported on both sides and within both capacities, a run leads to a compressed stream |
| `StreamProgress.CanGiveBack` | internal/client/client.go:347-444 | from every reachable state every call can be brought to an end in which it holds no lease and no slot |
| `Lifecycle.Slot.SetConn` | internal/client/client.go:288-294 | sets the connection and closes the current channel, which was open, leaving a new open one |
| `Lifecycle.Slot.ClearConn` | internal/client/client.go:295-301 | clears only its own connection and wakes nobody |
| `Lifecycle.Slot.Shutdown` | internal/client/client.go:132-138 | marks the client stopped and wakes everybody |
| `Lifecycle.Sessions.NewUdpSession` | internal/client/client.go:458-473 | refused exactly when stopped or full; otherwise a new session enters the table |
| `Lifecycle.Sessions.CloseSession` | internal/client/client.go:515-520 | the session leaves the table and is done |
| `Lifecycle.Sessions.Sweep` | internal/client/client.go:139-144 | stops every session in the table and empties it, so every one ever handed out is done |
| `Lifecycle.InvStep` | internal/client/client.go:132-323 | every step of `Run`, callers and sessions keeps the channel, connection and session invariants |
| `Lifecycle.BlockedOnCurrent` | internal/client/client.go:302-323 | a caller blocked on an unclosed channel is blocked on the current one |
| `Lifecycle.NextWakesAll` | internal/client/client.go:132-301 | the next connection or the shutdown wakes every blocked caller, and no channel is closed twice |
| `Lifecycle.WakeStays` | internal/client/client.go:302-323 | a wake-up lasts until the caller takes it or gives up |
| `Lifecycle.StoppedOnlyFails` | internal/client/client.go:302-323 | after shutdown no call of `getConn` gets a connection, even one that had read the state before |
| `Lifecycle.StoppedStep` | internal/client/client.go:302-323 | after shutdown each step of a pending call brings it nearer its failure |
| `Lifecycle.StoppedNotStuck` | internal/client/client.go:302-323 | and it always has a next step |
| `Lifecycle.NoSurvivor` | internal/client/client.go:132-144 | once shutdown is over no session is created, the table stays empty and every session ever handed out is done |
| `Lifecycle.SessionsBounded` | internal/client/client.go:458-473 | there are never more sessions than the limit |
| `LifecycleProgress.LiveIsGot` | internal/client/client.go:302-323 | a caller that looks while a connection is live gets that connection |
| `LifecycleProgress.BlockedGetsNext` | internal/client/client.go:288-323 | a blocked caller gets the next connection |
| `LifecycleProgress.RefusedOnlyStopped` | internal/client/client.go:302-323 | no call of `getConn` fails as closed unless the client has stopped |
| `LifecycleProgress.GotIsAlive` | internal/client/client.go:302-323 | what a caller is handed was set by `Run` and was not known to be lost |
| `LifecycleProgress.RefusedExactly` | internal/client/client.go:458-473 | a session is refused only if the client has stopped or the table is full, and always when it is full |
| `LifecycleProgress.SessionOpens` | internal/client/client.go:458-473 | while the client runs and the table has room, a session can be opened |
| `LifecycleProgress.RoutedAreAlive` | internal/client/client.go:458-520 | in every reachable state no session in the table is done |
| `LifecycleProgress.ClosedForGood` | internal/client/client.go:515-520 | closing a session ends it in every continuation and leaves the others alone |
| `Policy.MatchAny` | internal/acl/acl.go:138-148 | true iff some rule matches |
| `Policy.NormalizedIdempotent` | internal/acl/acl.go:106-134 | normalising a normalised address changes nothing |
| `Policy.NumericLikeLiteral` | internal/acl/acl.go:106-134 | a host that is the text of an address normalises exactly like that address |
| `Policy.CanonicalStays` | internal/acl/acl.go:89-105 | a valid name is its own canonical form |
| `NameForms.CanonicalExactly` | internal/acl/acl.go:90-105 | a name is canonical iff it has 1 to 253 bytes and is words of 1 to 63 lower-case letters, digits, hyphens and underscores with dots between |
| `NameForms.WireHostExactly` | internal/protocol/address.go:171-203 | a name is valid on the wire iff, but for a final dot, the same holds with capitals allowed and no hyphen at either end of a word |
| `NameForms.WireNamesNormalise` | internal/acl/acl.go:106-134 | every name that is valid on the wire, with a port, has a canonical form: itself in lower case without a final dot, or the address it is the text of |
| `Prefixes.PrefixAgrees` | internal/acl/acl.go:138-148 | two addresses agree under the mask of a prefix length iff their big-endian numbers agree after division by two to the bits the prefix leaves |
| `PolicyMeaning.ContainsExactly` | internal/acl/acl.go:138-148 | a network rule contains exactly the addresses of its family that agree with it in its prefix, for every prefix length |
| `PolicyMeaning.MatchesExactly` | internal/acl/acl.go:138-148 | so does a match with a literal; a domain rule matches a name iff its labels end in those of the domain |
| `PolicyMeaning.SingleAddress` | internal/acl/acl.go:57-88 | a rule that is one address covers that address and nothing else |
| `PolicyMeaning.LiteralVerdict` | internal/acl/acl.go:149-206 | a literal is approved, alone, iff its port is open, no deny rule covers it and an allow rule does if there are any |
| `PolicyMeaning.NameVerdict` | internal/acl/acl.go:159-245 | an address of a looked-up name is approved iff it was an answer, the port is open, no deny rule covers the name or the address, and an allow rule covers one of them if there are any |
| `PolicyMeaning.DeniedNetworkStaysOut` | internal/acl/acl.go:159-245 | no address of a denied network is ever approved, whatever name leads to it and whatever allows that |
| `Resolve.Filter` | internal/acl/acl.go:222-240 | the loop with its `seen` set selects exactly the permitted first occurrences, in order |
| `Resolve.Resolve` | internal/acl/acl.go:194-245 | for every address, gate and lookup outcome the method answers as the declarative resolution does |
| `Resolve.KeptIsListed` | internal/acl/acl.go:222-240 | every kept answer is listed at the place its predecessors leave for it: order is preserved |
| `Resolve.ListedIsKept` | internal/acl/acl.go:222-240 | and every listed address is a kept answer |
| `Resolve.ListedExactly` | internal/acl/acl.go:222-240 | an address is listed iff it was looked up and the policy permits it |
| `Resolve.DuplicateFreeExactly` | internal/acl/acl.go:222-240 | the list has no duplicates iff no two permitted answers differ only in their zone |
| `Resolve.ZoneFreeIsDuplicateFree` | internal/acl/acl.go:222-240 | so never for a lookup without zones |
| `Resolve.ZonesCanRepeat` | internal/acl/acl.go:222-240 | one link-local address on two interfaces is listed twice |
| `Resolve.ApprovedIsVetted` | internal/acl/acl.go:159-245 | a success is never empty; each address in it is numeric and canonical, on a permitted port, and neither it nor the name is denied, whatever allowed them, and one of them is allowed |
| `Resolve.LiteralExactly` | internal/acl/acl.go:152-206 | a literal is approved, alone, iff `Allowed` says so |
| `Resolve.NumericResolvesLikeLiteral` | internal/acl/acl.go:106-206 | a numeric host in domain form resolves exactly like its literal, whatever DNS would say |
| `Resolve.ResolvesLikeCanonical` | internal/acl/acl.go:194-245 | resolving the canonical form gives the same answer |
| `Resolve.DenyOnlyRemoves` | internal/acl/acl.go:138-245 | adding a deny rule for hosts anywhere can only turn an answer into a denial or remove addresses from it, keeping their order |
| `Resolve.DenyPortOnlyRemoves` | internal/acl/acl.go:135-245 | adding a deny port denies that port and leaves every other answer as it was |
| `DialRace.Split` | internal/acl/acl.go:255-271 | a race happens iff tcp and two families; both lists are then non-empty and hold the addresses of their family in order |
| `DialRace.OfTypeSplits` | internal/acl/acl.go:258-268 | each address is in the two lists together as often as in the whole |
| `RaceMachine.InvStep` | internal/acl/acl.go:249-339 | every step of the two dialers, the timer, the context and the select loop keeps the race invariant |
| `RaceSafety.OnlyApprovedDialled` | internal/acl/acl.go:249-314 | in a race only addresses approved by `Resolve` are dialled, so each passed the policy |
| `RaceSafety.OneListDialsApproved` | internal/acl/acl.go:249-271 | the same without a race, as for every UDP dial and every list of one family |
| `RaceSafety.StartedOnce` | internal/acl/acl.go:286-313 | each list is started at most once, the second only after the timer or the first list's failure, and by then at once |
| `RaceSafety.ConnectionsAccounted` | internal/acl/acl.go:276-313 | an opened connection is at every moment in exactly one place: returned, closed, or on offer by its dialer |
| `RaceSafety.NothingLeaks` | internal/acl/acl.go:276-313 | when the dialers are done, it is the one returned or closed, never both |
| `RaceSafety.DialersFinish` | internal/acl/acl.go:276-339 | once `DialContext` has returned, a dialer always has a step, each counts down, and no other step sets it back |
| `RaceSafety.ErrorsAreEarned` | internal/acl/acl.go:292-313 | an error is returned only after the context ended or both lists failed: every address dialled in vain, or no time left for one |
| `RaceSafety.ReturnedWasDialled` | internal/acl/acl.go:292-313 | a returned connection was opened to an address of one of the lists and is open |
| `RaceOutcome.FailureIsComplete` | internal/acl/acl.go:286-339 | over every run, if the race fails with the caller's context alive, no address of either list answered and each list was dialled to its end, unless the run has a step at which that list had no time left |
| `RaceOutcome.OutOfTimeHappened` | internal/acl/acl.go:315-325 | a list's error is a lack of time only if the run has such a step of that list |
| `RaceOutcome.GoesOn` | internal/acl/acl.go:315-339 | a failed dial is followed by the next address, and the last one by the end of the list |
| `RaceOutcome.EveryAddressCanWin` | internal/acl/acl.go:249-339 | every address of both lists can be the one returned, however many before it are unreachable |
| `RaceOutcome.RaceEnds` | internal/acl/acl.go:286-313 | while the select loop waits some step can be taken, and each but the end of the context, which ends the wait, counts down |
| `DeadlineSplit.DialAddresses` | internal/acl/acl.go:315-339 | a prefix of the list is dialled, in order and with the timeouts of the split, and each way out means what it says |
| `DeadlineSplit.DialsBehave` | internal/acl/acl.go:315-339 | dials that end within their timeout are runs of the sharing model, with the same grants |
| `DeadlineSplit.GrantExactly` | internal/acl/acl.go:318-325 | the grant is the largest equal share that all addresses left can have, or 10 s if that is more |
| `DeadlineSplit.GrantsMonotone` | internal/acl/acl.go:318-325 | later attempts never get a smaller timeout than earlier ones, under truncating division |
| `DeadlineSplit.FairShare` | internal/acl/acl.go:318-325 | each attempt gets at least an equal share of the whole, up to the cap |
| `DeadlineSplit.NeverOvercommits` | internal/acl/acl.go:318-325 | time used so far plus the next grant fits in the time left at the start |
| `DeadlineSplit.SumCanExceed` | internal/acl/acl.go:318-325 | with two addresses and 10 ns left the grants can sum to 15 |
| `DeadlineSplit.SumFitsExactly` | internal/acl/acl.go:315-339 | the grants of every run sum to at most the time left iff there is at most one address, less than a nanosecond for each, or 10 s for each but for one nanosecond |

## Left out

- QUIC, HTTP/3, TLS, sockets, DNS, timers: library or operating system behaviour, represented by arbitrary step inputs.
- Reply pump contents (`pumpReplies` reads, idle timeout, `lastSeen`, downstream datagrams): a pump leaves its loop at any time in the model.
- Wrap-around of the client's 64-bit session counter.
- Encoder pool, `EncodeTime` and encoder errors other than a missed saving: they do not change what is sent.
- Buffer reuse inside `Decopy`: the decoder is modelled on values; the encoder's frame buffer is an array updated in place.
- 64-bit overflow of byte totals and durations.
- `ServerAuth` with a single key, `ParseAddress`, `WriteReply` and `ReadReply`: they would only add easier members of the same kind.
- Parsing of policy rules (`New`, `parseRules`): single-branch checks around library parsers.
- The release of the DNS slot and `Resolver` timeouts: a deferred receive after a successful send.
- Other gates of `serveHTTP`, the SOCKS5 and HTTP proxies, the relay, reconnect back-off and heartbeat timing.
- Configuration, metrics, logging, the decoy site, command-line programs, tools, scripts and experiments.
- NatRate.FlowCreationRate: states the bound over real-valued token counts, not over floating-point ones.
- Handshake.ClientAgreement: HMAC keys that differ only in trailing zero bytes are taken as different keys.
