# Verification of the amaran BLE integration

This project models the Bluetooth Mesh stack, the provisioning and repair protocol, and the
effect programs of the amaran BLE integration, and proves what they promise over whole runs.
`dafny verify dfyconfig.toml` checks all of it. Source paths below start at the repository's
root; the functions and classes named in comments are the repository's own.

## What is modelled

**Mesh transport** (`network.py`, `proxy.py`, `gatt.py`, `sequence.py`, `crypto.py`; Mesh
Profile 1.0.1, sections 3.4 to 3.6, 3.8.5 and 6.3).

- `Reassembly` specifies the segment reassembler as one table of slots, `ExactReassembly` proves
  what it returns, and `SegmentReassembler` is the class over three dictionaries that refines it.
- `LowerTransport`, `Network` and `Nonces` are the PDU codecs, with byte-exact layouts.
- `Sar` is the GATT framing machine as a class, its step function and the sender.
- `Proxy` specifies the inbound paths that share one replay list; `ProxyClient` is the class.
- `SegmentedTransfer` puts a sender, a receiver and a network between them, and proves what a
  returning `_send_segmented` means; `LateAcknowledgment` has the histories in which it means
  nothing, and the exact condition. `SegmentedSend` is the same method down to its PDUs and the
  awaits at which it can fail. `EndToEnd` composes every layer from opcode to dispatch.
- `Sequence` and `SequenceReservation` are the crash-safe allocator over two stores.

**Provisioning and repair** (`config_flow.py`, `pending.py`, `__init__.py`,
`reconfiguration.py`, `provisioning.py`). `Provisioning` is a step machine of physical fixtures,
the durable record, the config entry in memory and on disk, and a flow that can die at any step.
`ProvisioningRuns` has what a caller must check before entering it, and runs from a new
installation on which the promises fail. `ConcurrentFlows` is the machine with two flows on one
record. `ProvisioningFlow` is the flow's own code as methods
whose every execution is a run of that machine. `ProvisioningExchange` is the exchange of
section 5.4; `Pending` the record file.

**Programs and effects** (`device.py` and the codecs). `Bits` proves the field-packing law every
codec rests on. `ManualFx`, `PixelFx`, `Slots`, `SystemFx2` and `Telink` are codecs;
`PixelProgram` merges, judges, truncates and rebuilds multi-page programs. `Arbiter` and
`SteadyRequests` are the latest-wins slider requests. `Composition` is the Composition Data parser.

Cryptography enters as functions: AES-CCM by decrypt-of-encrypt being the identity under the same
key, nonce and MIC length, P-256 by both sides agreeing on the shared secret. Clock readings,
await outcomes, failed writes and crashes are arbitrary.

## Promises that hold under a condition

Where the code falls short of a promise on some inputs, the code is modelled as it is, and a
lemma gives the input or the exact condition.

- A segmented send may return undelivered when a message of no more segments was sent to that node
  under the same 13-bit SeqZero before and its acknowledgment arrives late
  (`LateAcknowledgment.LeftoverDeceives`). It never does if and only if every earlier message
  under that SeqZero had more segments (`LateAcknowledgment.TruthfulExactly`).
- A repair aimed at another physical fixture replaces the record's copy of the first one's
  DeviceKey (`ProvisioningRuns.RepairElsewhereStrands`). The exact condition, at the save and
  before entering the flow: `Provisioning.NeverStrandedExactly`, `ProvisioningRuns.CheckedIsAimed`
  and `ProvisioningRuns.UncheckedStrands`.
- That check is of no use to two flows under way on one record at once: one's save may take the
  DeviceKey of a fixture the other has just provisioned (`ConcurrentFlows.TwoRepairsStrand`). The
  exact moment is `ConcurrentFlows.SecondSaveExactly`; entered one at a time they are one machine
  (`ConcurrentFlows.ExclusiveIsOne`).
- A first setup that adopts a record repaired over another route starts at that route's address
  (`Provisioning.AdoptedAddress`, `ProvisioningRuns.AdoptedElsewhere`).
- Removing the last pending record is not read back, so a failure only logged goes unnoticed
  (`Pending.PendingStore.Remove`).
- Pages that arrive without a control page take the first report's playback
  (`PixelProgram.MergeOrderIndependent`).
- Dropping the precise tint flag, or setting a coarse tint, rounds a tint that is not a whole ten
  (`Telink.RewriteChangesOnly`); white points are stored in steps (`SystemFx2.RewriteChangesOnly`).
- `encode_opcode` accepts numbers that `decode_opcode` splits differently, such as 0x4000
  (`Network.OpcodeRoundTrip`).

## Model

| member | source | states |
|---|---|---|
| Reassembly.AtMostOnce | custom_components/amaran_ble/amaranble/network.py:467-611 | For any sequence of `add` and `completed_ack` calls with any clock readings, the SeqAuth values for which an upper PDU is returned strictly increase per (src, dst): an expired, superseded or completed transaction never delivers again |
| Reassembly.AddTableInv | custom_components/amaran_ble/amaranble/network.py:499-611 | Inductive invariant of `add`: per pair at most one pending transaction, its SeqAuth above every completed and discarded mark, its segments within range and never all there, tracked pairs and pending transactions within their limits; a refused segment leaves exactly the pruned state |
| Reassembly.PruneTableInv | custom_components/amaran_ble/amaranble/network.py:467-477 | Expiring transactions at any clock reading keeps that invariant and keeps every tracked pair tracked |
| Reassembly.RunInv | custom_components/amaran_ble/amaranble/network.py:437-611 | The invariant holds after every run of calls |
| Reassembly.SupersedeNeverRefused | custom_components/amaran_ble/amaranble/network.py:541-562 | A segment of a newer transaction than the pending one is always taken: superseding is never refused for capacity or for any other reason |
| Reassembly.DoRaisesMark | custom_components/amaran_ble/amaranble/network.py:467-611 | No call ever lowers a pair's high mark, and a delivery raises it to exactly the delivered SeqAuth |
| Reassembly.BitmapFull | custom_components/amaran_ble/amaranble/network.py:479-484 | The block bitmap of held indexes equals the full mask exactly when every index is held |
| Reassembly.BitsSet | custom_components/amaran_ble/amaranble/network.py:479-484 | ORing one more index into the bitmap gives the bitmap of the larger set |
| ExactReassembly.OrderIndependent | custom_components/amaran_ble/amaranble/network.py:499-611 | However the segments of a 1-384 byte upper PDU are ordered, repeated and interleaved with other pairs' traffic and acknowledgment look-ups, the call bringing the last missing index returns exactly that PDU, earlier ones return the bitmap so far, later repeats return the full acknowledgment and deliver nothing |
| ExactReassembly.RunProgress | custom_components/amaran_ble/amaranble/network.py:499-611 | After any such run the pair's slot holds exactly the chunks fed so far, or the completed record once all of them were |
| SegmentReassembler.SegmentReassembler.constructor | custom_components/amaran_ble/amaranble/network.py:440-465 | A new reassembler satisfies the invariant and tracks nothing |
| SegmentReassembler.SegmentReassembler.Prune | custom_components/amaran_ble/amaranble/network.py:467-477 | The loop over the pending dictionary discards exactly the expired transactions and raises exactly their pairs' discarded marks |
| SegmentReassembler.SegmentReassembler.CompletedAck | custom_components/amaran_ble/amaranble/network.py:486-497 | Returns the stored full acknowledgment of the pair's last completed transaction if and only if it has that SeqAuth, else nothing; changes no more than expiry does |
| SegmentReassembler.SegmentReassembler.BitmapOf | custom_components/amaran_ble/amaranble/network.py:479-484 | The accumulating loop computes the bitmap of the dictionary's indexes in whatever order it visits them |
| SegmentReassembler.SegmentReassembler.JoinPayloads | custom_components/amaran_ble/amaranble/network.py:594-594 | The joined payloads are those of indexes 0, 1, ... in order |
| SegmentReassembler.SegmentReassembler.Supersede | custom_components/amaran_ble/amaranble/network.py:541-552 | Says whether a newer transaction of the pair is pending; if none is, exactly the pair's older ones are dropped |
| SegmentReassembler.SegmentReassembler.Refused | custom_components/amaran_ble/amaranble/network.py:554-562 | Refuses a new transaction for exactly one of the two capacity limits, in the code's order of checks |
| SegmentReassembler.SegmentReassembler.OpenRecord | custom_components/amaran_ble/amaranble/network.py:541-579 | Finds or opens the transaction's record; on a refusal the pending dictionary is untouched, superseded transactions included |
| SegmentReassembler.SegmentReassembler.RecordSegment | custom_components/amaran_ble/amaranble/network.py:581-611 | Stores a segment, completes the transaction or refuses a changed payload, and touches no other pair |
| SegmentReassembler.SegmentReassembler.Add | custom_components/amaran_ble/amaranble/network.py:499-611 | The three-dictionary implementation refines the table specification: same result, same new state, for every segment and clock reading, and keeps the invariant |
| LowerTransport.ParseAccessSegment | custom_components/amaran_ble/amaranble/network.py:390-434 | An accepted segment has every field in range, a full payload unless it is the last, and a SeqAuth within 8191 below its SEQ |
| LowerTransport.SeqAuthRecovered | custom_components/amaran_ble/amaranble/network.py:417-423 | SEQ and the low 13 bits determine the transaction's SeqAuth if and only if SEQ is within 8191 above it |
| LowerTransport.SegmentRoundTrip | custom_components/amaran_ble/amaranble/network.py:291-316 | Parsing the i-th built segment of any 1-384 byte PDU returns its header fields, its SeqAuth and its own chunk |
| LowerTransport.ChunksJoin | custom_components/amaran_ble/amaranble/network.py:291-316 | The chunks of a PDU joined in order give back the PDU |
| LowerTransport.AckRoundTrip | custom_components/amaran_ble/amaranble/network.py:329-339 | A segment acknowledgment written by this stack parses to the same SeqZero and block bitmap |
| Nonces.LayoutInjective | custom_components/amaran_ble/amaranble/crypto.py:82-120 | Two in-range nonces have equal bytes only if they are the same kind of nonce with the same fields (section 3.8.5 of Mesh Profile 1.0.1) |
| Network.OpcodeRoundTrip | custom_components/amaran_ble/amaranble/network.py:617-639 | Decoding an encoded opcode followed by any parameters gives both back if and only if the opcode is a valid one, two- or three-byte opcode |
| Network.OpcodeExact | custom_components/amaran_ble/amaranble/network.py:617-639 | Whatever decodes is the encoding of what it decoded to: no access PDU has two readings |
| Network.MaskTwice | custom_components/amaran_ble/amaranble/network.py:164-170 | Obfuscation is its own inverse |
| Network.NetworkRoundTrip | custom_components/amaran_ble/amaranble/network.py:122-228 | Every network or proxy-configuration PDU that encodes decodes to the same message under the same keys and IV Index: obfuscation, nonce reconstruction and MIC length included |
| Sar.DeliveredWasFramed | custom_components/amaran_ble/amaranble/gatt.py:136-215 | In every session the supported frames received split into whole transfers, one for each delivered message in order, and the run still open; each transfer is one COMPLETE frame or the exact join of one FIRST, CONTINUATION*, LAST run of one type, and the open buffer is within the type's limit |
| Sar.SilentAfterFailure | custom_components/amaran_ble/amaranble/gatt.py:136-215 | After a protocol failure nothing is delivered and nothing changes until the transport is restarted |
| Sar.TransfersReceived | custom_components/amaran_ble/amaranble/gatt.py:136-184 | Any sequence of well-formed transfers fed frame by frame delivers exactly their messages and leaves the machine idle |
| Sar.SendsReceived | custom_components/amaran_ble/amaranble/gatt.py:107-184 | Feeding the writes of any list of `send` calls to the receiver delivers exactly that list |
| Sar.MeshGattTransport.constructor | custom_components/amaran_ble/amaranble/gatt.py:60-76 | A new transport is idle and has dispatched and written nothing |
| Sar.MeshGattTransport.Start | custom_components/amaran_ble/amaranble/gatt.py:89-93 | Starting clears the open run and the failure |
| Sar.MeshGattTransport.Stop | custom_components/amaran_ble/amaranble/gatt.py:95-105 | Stopping drops the open run but keeps a failure |
| Sar.MeshGattTransport.NotificationHandler | custom_components/amaran_ble/amaranble/gatt.py:136-184 | The handler's every branch is one step of the framing machine: same delivery, same buffer, same failure |
| Sar.MeshGattTransport.SarTimedOut | custom_components/amaran_ble/amaranble/gatt.py:193-195 | A framing timeout is a protocol failure that delivers nothing |
| Sar.MeshGattTransport.Send | custom_components/amaran_ble/amaranble/gatt.py:107-129 | Refuses exactly the unsupported types and oversized payloads before writing anything; otherwise writes the frames of that message in order, all of them or the prefix the link took |
| Sar.MeshGattTransport.Write | custom_components/amaran_ble/amaranble/gatt.py:131-134 | One write appends its bytes or fails with nothing written |
| Proxy.ReplaySafe | custom_components/amaran_ble/amaranble/proxy.py:400-536 | Over every run of inbound PDUs and BLE reconnects, the numbers recorded for one source strictly increase across all four kinds of acceptance (filter status, matched segment acknowledgment, unsegmented and segmented message), starting above what the retained replay list holds |
| Proxy.DispatchedWhenAccepted | custom_components/amaran_ble/amaranble/proxy.py:498-529 | Messages reach the listeners exactly as often, and from the same sources in the same order, as access acceptances are recorded |
| Proxy.HandleAdvances | custom_components/amaran_ble/amaranble/proxy.py:389-529 | One inbound PDU records at most one acceptance, of a number above the source's last, changes no other source's record and keeps the reassembler's invariant |
| Proxy.DispatchedWasDecrypted | custom_components/amaran_ble/amaranble/proxy.py:571-622 | Nothing is dispatched that was not authenticated: opcode and parameters are exactly the access PDU that the one candidate key decrypts, a DeviceKey for AKF 0 and the AppKey otherwise |
| ProxyClient.ProxyClient.constructor | custom_components/amaran_ble/amaranble/proxy.py:68-114 | A new session keeps the owner's replay list and reassembler and has no acknowledgment outstanding |
| ProxyClient.ProxyClient.ScheduleSegmentAck | custom_components/amaran_ble/amaranble/proxy.py:538-552 | An acknowledgment is scheduled only for segments addressed to this node |
| ProxyClient.ProxyClient.DecryptAndDispatch | custom_components/amaran_ble/amaranble/proxy.py:571-622 | Trying the candidate keys in order dispatches one message at most and reports whether it did |
| ProxyClient.ProxyClient.HandleProxyConfig | custom_components/amaran_ble/amaranble/proxy.py:400-418 | Method form of the filter-status step: whole new state, jobs and messages |
| ProxyClient.ProxyClient.HandleControl | custom_components/amaran_ble/amaranble/proxy.py:429-455 | Method form of the segment-acknowledgment step: only an outstanding transaction to that destination with bits in range is touched |
| ProxyClient.ProxyClient.HandleSegment | custom_components/amaran_ble/amaranble/proxy.py:457-520 | Method form of the segmented step, over the shared reassembler object |
| ProxyClient.ProxyClient.HandleAdded | custom_components/amaran_ble/amaranble/proxy.py:479-520 | What follows a taken segment: acknowledge, and dispatch a finished PDU unless its last SEQ is a replay |
| ProxyClient.ProxyClient.HandleUnsegmented | custom_components/amaran_ble/amaranble/proxy.py:521-529 | Method form of the unsegmented step |
| ProxyClient.ProxyClient.OnProxyPdu | custom_components/amaran_ble/amaranble/proxy.py:389-398 | Every inbound Proxy PDU does exactly what the step specification says: replay list, reassembler, outstanding acknowledgments, scheduled acknowledgments and dispatched messages |
| ProxyClient.ProxyClient.SendSegmented | custom_components/amaran_ble/amaranble/proxy.py:234-306 | Every ending of the method: a first number refused or a message that cannot be segmented leaves everything as it was with nothing written; otherwise the object, the ending and the network PDUs written are those of the sending specification, failures at any await included, and its own entry is removed whatever happened |
| ProxyClient.ProxyClient.SendAttempts | custom_components/amaran_ble/amaranble/proxy.py:258-304 | The four attempts over the changing `outstanding` set compute the specification's state, ending and PDUs |
| ProxyClient.ProxyClient.Transmit | custom_components/amaran_ble/amaranble/proxy.py:262-282 | One attempt writes the encodings of the outstanding segments in order, the first of all under the transaction's own number, up to the first await that raises |
| ProxyClient.ProxyClient.React | custom_components/amaran_ble/amaranble/proxy.py:286-303 | What the end of a wait comes to: go on as before, cancelled, done, or go on with exactly the indexes not yet acknowledged |
| SegmentedSend.AttemptsAreLoop | custom_components/amaran_ble/amaranble/proxy.py:234-306 | Unless one of its awaits raises, the method is the transfer's sending loop over what arrived: same state, same ending, and one encoded PDU for each index the loop transmits, in order |
| SegmentedSend.TransmittedIs | custom_components/amaran_ble/amaranble/proxy.py:262-282 | An attempt that fails has written a prefix of its outstanding segments, each a valid encoding of that segment |
| SegmentedSend.SentMeansReassembled | custom_components/amaran_ble/amaranble/proxy.py:234-306 | When the method itself returns to a unicast node, that node has reassembled the message, under the same condition on SeqZero |
| ProxyClient.ProxyClient.Await | custom_components/amaran_ble/amaranble/proxy.py:286-291 | While the sender waits, arriving PDUs act on the shared state one by one, in order |
| SegmentedTransfer.ReturnedMeansReassembled | custom_components/amaran_ble/amaranble/proxy.py:234-306 | Over a network that loses, repeats, delays and reorders segments and acknowledgments, with the receiver expiring or superseding the transaction at any moment, `_send_segmented` returns to a unicast node only if that node reassembled exactly the upper PDU that was sent, provided whatever the sender has sent to that node under the same SeqZero before had more segments |
| SegmentedTransfer.AcknowledgedWereHeld | custom_components/amaran_ble/amaranble/proxy.py:433-512 | Whatever the run, every bit the sender ends with as acknowledged is a segment the receiver's reassembler has taken since the transaction started, even once it has expired or been superseded |
| SegmentedTransfer.MineReceiving | custom_components/amaran_ble/amaranble/network.py:499-611 | Every answer the receiver gives to one of the transaction's segments names only segments it has held; it delivers exactly the sent PDU, when all of them were, and never once it has |
| SegmentedTransfer.ReturnedAfterHistory | custom_components/amaran_ble/amaranble/proxy.py:234-306 | The same from the peer's first day, after any delayed, repeated and reordered history of the sender's earlier transactions to it |
| SegmentedTransfer.HistoryIsPast | custom_components/amaran_ble/amaranble/proxy.py:457-520 | Whatever such a history has done, the peer's slot is older than the new transaction and remembers nothing else, and each acknowledgment it ever scheduled for the sender is for one of the earlier ones and has that one's last bit set |
| SegmentedTransfer.AckHasLast | custom_components/amaran_ble/amaranble/proxy.py:457-512 | A receiver acknowledges a segment only with the bit of its transaction's last segment set: it answers a repeat of a completed transaction, a completion, or the last segment, and nothing else |
| LateAcknowledgment.LeftoverDeceives | custom_components/amaran_ble/amaranble/proxy.py:433-454 | With an earlier message under the same SeqZero of no more segments the claim fails, with nothing forged: the message is received and acknowledged in full, and the later one returns on a late copy of that acknowledgment, at once if it has as many segments, and otherwise after sending again only the segments past the earlier message's, with nothing of it reassembled |
| LateAcknowledgment.TruthfulExactly | custom_components/amaran_ble/amaranble/proxy.py:234-306 | Over every history of earlier messages and every run of at most four attempts, a segmented send returns only when the peer has reassembled its message, if and only if every earlier message to that peer under the same SeqZero had more segments |
| SegmentedTransfer.AscendingExact | custom_components/amaran_ble/amaranble/proxy.py:262-266 | Each attempt sends exactly the outstanding indexes, each once, in ascending order |
| EndToEnd.LongMessageDelivered | custom_components/amaran_ble/amaranble/proxy.py:164-306 | Any valid opcode with parameters up to a 380-byte access PDU is encoded, encrypted, segmented, obfuscated and framed by one node; however its segments are ordered, repeated and mixed with other nodes' traffic of every kind, and under whichever numbers within 8191 of the first, the other node dispatches it exactly once, with the same opcode and parameters, if every segment arrives, and not at all otherwise |
| EndToEnd.ShortMessageDelivered | custom_components/amaran_ble/amaranble/proxy.py:195-232 | A message that fits one unsegmented PDU is dispatched exactly once, as sent, however often the PDU arrives and whatever other nodes send in between |
| EndToEnd.UnsegmentedDispatched | custom_components/amaran_ble/amaranble/proxy.py:521-529 | The network PDU of such a message fits the bearer; handling it dispatches the message unless its number has been heard, and remembers the number |
| Sequence.NeverReused | custom_components/amaran_ble/amaranble/sequence.py:36-98 | Over any run of boots, re-created entries, reconnects, failed or half-done dual-store saves and crashes, the numbers handed out strictly increase and stay at or below 0xFFFFFF |
| Sequence.NonceUnique | custom_components/amaran_ble/amaranble/crypto.py:93-120 | Hence, over that whole life, no two encryptions use the same nonce bytes, whichever mix of access messages, segments, acknowledgments and proxy configuration the numbers are spent on |
| Sequence.StepKeeps | custom_components/amaran_ble/amaranble/sequence.py:76-94 | Every step keeps all used numbers below what the stable store vouches for |
| Sequence.FirstBoot | custom_components/amaran_ble/amaranble/sequence.py:36-69 | A start without any store resumes on a block boundary at or above both one block and the entry's minimum, and less than a block beyond |
| Sequence.SaveCost | custom_components/amaran_ble/amaranble/sequence.py:76-94 | However its saves fail in between, n successful allocations since a boot cost exactly ceil(n / block size) verified saves |
| Sequence.RestartSkips | custom_components/amaran_ble/device.py:375-391 | Restarting from the stores a boot left, whichever saves failed or reached only one of them, resumes at or after the next unused number and skips at most one block |
| SequenceReservation.SequenceStores.Load | custom_components/amaran_ble/device.py:375-391 | The two stores merge to the larger high-water mark, and to nothing only when neither has one |
| SequenceReservation.SequenceStores.Save | custom_components/amaran_ble/device.py:394-410 | Stable store first: a failed first write leaves the compatibility store alone, and success means both hold the mark |
| SequenceReservation.SequenceReservation.Create | custom_components/amaran_ble/amaranble/sequence.py:36-69 | A reservation starts where the stores and the minimum say, with nothing reserved ahead |
| SequenceReservation.SequenceReservation.EnsureReserved | custom_components/amaran_ble/amaranble/sequence.py:76-94 | Refuses numbers outside the 24-bit space, saves only past the reservation, and raises the reservation only after a verified save |
| SequenceReservation.ProxySequence.constructor | custom_components/amaran_ble/amaranble/proxy.py:84-90 | A session starts at the number the last one reported |
| SequenceReservation.ProxySequence.NextSeq | custom_components/amaran_ble/amaranble/proxy.py:120-132 | One allocation is one step of the life-long machine: it hands out the current number only once it is durably reserved, and hands out nothing otherwise |
| Provisioning.NoStrandedFixture | custom_components/amaran_ble/config_flow.py:734-960 | In every run of provisioning, recovery and repair attempts, crashes between any two steps, failed saves, lost Provisioning Data, resets and adoptions elsewhere, the credentials a fixture holds or may still accept are the ones in the durable pending record, provided a DeviceKey is only replaced while no other fixture depends on it |
| Provisioning.NeverStrandedExactly | custom_components/amaran_ble/config_flow.py:899-929 | That proviso is exact: a run strands no fixture at any point if and only if it keeps it |
| Provisioning.MisaimedStrands | custom_components/amaran_ble/config_flow.py:899-929 | The pre-DATA save of a flow aimed at another physical fixture than one holding the record's keys strands the latter at once |
| ProvisioningRuns.CheckedIsAimed | custom_components/amaran_ble/config_flow.py:734-960 | A check before entering the flow suffices: if no fixture but its target depends on the record whenever a flow that may send is entered, every later replacing save is aimed right and no fixture is stranded at any point |
| ProvisioningRuns.UncheckedStrands | custom_components/amaran_ble/config_flow.py:899-929 | And it is needed: from any reachable state where it fails, entering the flow all the same can strand a fixture within the flow's own steps and one reset of its target |
| ProvisioningRuns.RepairElsewhereStrands | custom_components/amaran_ble/config_flow.py:761-831 | A run from a new installation that does: one fixture is set up, its entry's repair is pointed at another, and the pre-DATA save replaces the record's copy of the first one's DeviceKey before the entry was flushed |
| ProvisioningRuns.AdoptedElsewhere | custom_components/amaran_ble/config_flow.py:832-859 | A run from a new installation, every save aimed right, to an entry at another address than its record's: set up, repaired over another route, stopped before the entry was flushed, and set up again |
| ConcurrentFlows.ExclusiveIsOne | custom_components/amaran_ble/config_flow.py:734-960 | Two flows on one record, neither entered while the other is under way, are in every interleaving of their steps and the world's a run of the machine with one flow |
| ConcurrentFlows.ExclusiveSafe | custom_components/amaran_ble/config_flow.py:734-960 | So with sole ownership checked at every entry as well, they strand no fixture |
| ConcurrentFlows.SecondSaveExactly | custom_components/amaran_ble/config_flow.py:899-929 | While the other flow stands anywhere, a flow's pre-DATA save of a new DeviceKey leaves nothing stranded if and only if no fixture has, or may still accept, any credentials of the record's network |
| ConcurrentFlows.TwoRepairsStrand | custom_components/amaran_ble/pending.py:69-84 | A run from a new installation, sole ownership checked at each entry and every agreed key new, on which two repairs of one entry are entered before either has sent anything: the first provisions its fixture, and the second's save then takes that fixture's DeviceKey |
| Provisioning.StepKeeps | custom_components/amaran_ble/config_flow.py:640-715 | Every single step keeps the invariant behind it, committed records being ones some fixture accepted |
| Provisioning.VerifiedIsVouched | custom_components/amaran_ble/config_flow.py:593-637 | A Proxy proved by the record's NetKey holds the record's DeviceKey too, although the proof never shows it |
| Provisioning.RecoveryReaches | custom_components/amaran_ble/config_flow.py:832-859 | From any reachable state with no flow and no entry, the recovery flow on a fixture holding our keys ends with those keys, at the record's own address |
| Provisioning.Installed | custom_components/amaran_ble/config_flow.py:734-758 | A fresh installation, with fixtures unprovisioned or someone else's and no entry, satisfies every invariant the run theorems start from |
| Provisioning.SetupNeverStale | custom_components/amaran_ble/__init__.py:83-149 | After any history of crashes, lost entry writes, repairs and failed saves, setup never continues with a DeviceKey other than the one a fixture still provisioned in that subnet holds, whether the entry is kept at its record's address or has been adopted under another, and leaves the address as it is |
| Provisioning.RunHomed | custom_components/amaran_ble/config_flow.py:734-960 | Over every aimed run: a flow is a repair of the entry at the record's address or there is no entry, a flushed entry is the one in memory, and an entry under another address has the record's keys |
| Provisioning.SetupSafe | custom_components/amaran_ble/__init__.py:83-149 | The same of one setup from any state meeting the invariants |
| Provisioning.AddressStable | custom_components/amaran_ble/reconfiguration.py:150-172 | No sequence of repairs, setups and crashes changes a flushed entry's stable address |
| Provisioning.AdoptedAddress | custom_components/amaran_ble/config_flow.py:832-859 | A first setup that adopts a committed record starts at the record's own address if and only if the record's address field still is it; a repair over another route changes that field |
| ProvisioningFlow.CodeStrandsNothing | custom_components/amaran_ble/config_flow.py:734-960 | Every execution of the methods below, with any outcome of every await, is a run of the machine, so none of them strands a fixture under the same proviso |
| ProvisioningFlow.Home.Await | custom_components/amaran_ble/config_flow.py:734-960 | At any await the world may do anything to fixtures and links, or the process may die; otherwise the flow's own facts stand |
| ProvisioningFlow.Home.SavePending | custom_components/amaran_ble/pending.py:69-84 | Returns only with exactly that record durable; otherwise the flow ends with the old or the new record in place |
| ProvisioningFlow.Home.ProbeBearer | custom_components/amaran_ble/config_flow.py:544-590 | The probe's answer is the live fixture's, and the flow goes on as the machine decides |
| ProvisioningFlow.Home.VerifyProxyIdentity | custom_components/amaran_ble/config_flow.py:593-637 | Returns only if the live fixture belongs to the record's network |
| ProvisioningFlow.Home.RecoverPending | custom_components/amaran_ble/config_flow.py:640-715 | Ends with the record's data to recover, or with prepared data to provision again, the upgraded record durable first |
| ProvisioningFlow.Home.ResumeRepair | custom_components/amaran_ble/config_flow.py:761-831 | A repair over an existing record either returns the proved replacement credentials or goes on with the record durably downgraded |
| ProvisioningFlow.Home.BeginRepair | custom_components/amaran_ble/config_flow.py:860-878 | A repair without a record goes on only on a reset fixture, with the entry's data durable as uncommitted first |
| ProvisioningFlow.Home.Dial | custom_components/amaran_ble/config_flow.py:880-945 | The keys of the exchange are the prepared ones or new ones |
| ProvisioningFlow.Home.Provision | custom_components/amaran_ble/config_flow.py:931-960 | From the connection on: returns only when the machine is done with that data |
| ProvisioningFlow.Home.NegotiateKey | custom_components/amaran_ble/amaranble/provisioning.py:210-314 | The exchange reaches its hook only on an unprovisioned fixture, with the new DeviceKey to be saved |
| ProvisioningFlow.Home.Exchanged | custom_components/amaran_ble/config_flow.py:899-960 | Hook, Data, Complete and the committed save happen in that order or the flow ends |
| ProvisioningFlow.Home.SendProvisioningData | custom_components/amaran_ble/amaranble/provisioning.py:316-326 | Data is sent only with the record durable and only to the fixture it names |
| ProvisioningFlow.Home.Commit | custom_components/amaran_ble/config_flow.py:948-960 | The record is marked committed only after the fixture accepted it |
| ProvisioningFlow.Home.ProvisionFixture | custom_components/amaran_ble/config_flow.py:734-960 | The whole flow, every branch of fresh setup, recovery and repair, follows the machine from start to finish |
| ProvisioningFlow.Home.ReconcileCompletedRepair | custom_components/amaran_ble/__init__.py:83-149 | Setup goes on exactly when reconciliation allows, with the entry it decides; otherwise the entry is untouched, and the record is never changed |
| ProvisioningExchange.Agreement | custom_components/amaran_ble/amaranble/provisioning.py:198-333 | A node following section 5.4 of Mesh Profile 1.0.1 derives the same session and DeviceKey, its replies drive the exchange to Data, and its decryption of the Data PDU yields exactly the planned network data |
| ProvisioningExchange.Provisioner.constructor | custom_components/amaran_ble/amaranble/provisioning.py:112-117 | A new provisioner has sent and saved nothing |
| ProvisioningExchange.Provisioner.Expect | custom_components/amaran_ble/amaranble/provisioning.py:130-150 | Consumes one PDU of the expected type, or fails for a timeout, a node's failure report or any other PDU |
| ProvisioningExchange.Provisioner.Authenticate | custom_components/amaran_ble/amaranble/provisioning.py:210-309 | Succeeds only on replies whose confirmation is the commitment to the revealed random under the shared secret, with acceptable capabilities and no reflected key or confirmation; succeeds on every such list; sends no Data on any path |
| ProvisioningExchange.Provisioner.ProvisionExchange | custom_components/amaran_ble/amaranble/provisioning.py:198-333 | Data goes out, last and once, only after the confirmation check and after the durable hook returned with the DeviceKey both sides derive, and always then; success means Data was sent and Complete received, and reports what was saved |
| ProvisioningExchange.Provisioner.Send | custom_components/amaran_ble/amaranble/provisioning.py:127-128 | Sends exactly one PDU |
| Pending.PendingStore.constructor | custom_components/amaran_ble/pending.py:21-28 | An installation starts without a file |
| Pending.PendingStore.Get | custom_components/amaran_ble/pending.py:38-42 | Finds a record by address, whatever its letter case |
| Pending.PendingStore.Save | custom_components/amaran_ble/pending.py:69-84 | Returns only once the file holds the record; every other fixture's record is as it was, on every outcome |
| Pending.PendingStore.Remove | custom_components/amaran_ble/pending.py:87-101 | Returns only once the record is gone, except exactly when it was the last one and removing the file was lost unnoticed; every other record is as it was |
| Arbiter.LatestWins | custom_components/amaran_ble/device.py:587-625 | In every interleaving of register, lock, finish, cancel and invalidate: the only unfinished slider request not superseded is the pending one, its target is the fold of the patches since the slot was last empty, never holding both Kelvin and HS, and every transaction begun had the fold then due as its target |
| Arbiter.NothingStale | custom_components/amaran_ble/device.py:620-625 | No request registered before an OFF or effect selection starts a transaction after it |
| Arbiter.FoldIsLatest | custom_components/amaran_ble/device.py:587-618 | The fold's brightness is that of the last patch naming one, its colour that of the last patch naming Kelvin or HS (HS winning within a patch), and each is absent only if no patch named it |
| SteadyRequests.AmaranLight.constructor | custom_components/amaran_ble/device.py:585-585 | A new light has no request |
| SteadyRequests.AmaranLight.RegisterSteadyRequest | custom_components/amaran_ble/device.py:587-618 | Supersedes the pending request object and becomes the pending one, with the merged target: one step of the machine |
| SteadyRequests.AmaranLight.InvalidateSteadyRequests | custom_components/amaran_ble/device.py:620-625 | Supersedes the pending request and empties the slot |
| SteadyRequests.AmaranLight.Enter | custom_components/amaran_ble/device.py:2224-2226 | Under the lock a request runs exactly when it has not been superseded |
| SteadyRequests.AmaranLight.Leave | custom_components/amaran_ble/device.py:2247-2249 | Leaving empties the slot only if it is still this request's |
| SteadyRequests.AmaranLight.Cancelled | custom_components/amaran_ble/device.py:2241-2249 | A cancelled request is superseded and leaves nothing to merge into |
| Bits.ReadBack | custom_components/amaran_ble/amaranble/telink.py:154-175 | Packing any list of fitting, pairwise disjoint fields and reading one back returns its value; every codec below rests on it |
| Bits.TilingDetermines | custom_components/amaran_ble/amaranble/manualfx.py:216-230 | Fields that tile a range leave no bit unread: two packets agreeing on all of them agree on the range |
| Bits.FinalizeKeepsFields | custom_components/amaran_ble/amaranble/manualfx.py:210-213 | Writing the checksum byte changes no field above it |
| Bits.BuildPacket | custom_components/amaran_ble/amaranble/manualfx.py:216-226 | The accumulating loop yields the packed fields |
| Bits.WriteChecksum | custom_components/amaran_ble/amaranble/systemfx2.py:213-215 | Exactly byte 0 of the buffer changes, to the checksum of the other nine |
| Bits.BuildPayload | custom_components/amaran_ble/amaranble/pixelfx.py:179-191 | The payload is the packed fields with a valid checksum |
| ManualFx.Bijection | custom_components/amaran_ble/amaranble/manualfx.py:599-835 | For all four subtypes and every mode branch, a packet decodes to a message if and only if the message encodes to that packet: checksum, reserved and selector bits included |
| ManualFx.DecodeEncode | custom_components/amaran_ble/amaranble/manualfx.py:685-835 | Every well-formed message survives encoding and decoding |
| ManualFx.EncodeDecode | custom_components/amaran_ble/amaranble/manualfx.py:599-682 | Every accepted packet is the encoding of what it decodes to |
| ManualFx.Build | custom_components/amaran_ble/amaranble/manualfx.py:233-596 | The builders raise for exactly the messages with an out-of-range or missing selector field, and what they build of any other decodes to it |
| PixelFx.DecodeEncode | custom_components/amaran_ble/amaranble/pixelfx.py:631-873 | Every canonical page survives encoding and decoding |
| PixelFx.DecodedCanonical | custom_components/amaran_ble/amaranble/pixelfx.py:716-873 | Whatever decodes is canonical: only the fields its effect, page type and light mode use, each in range |
| PixelFx.ReportsSurviveRewriting | custom_components/amaran_ble/amaranble/pixelfx.py:631-873 | Re-encoding the decoded state of any accepted packet decodes to that state again |
| PixelFx.EncodePage | custom_components/amaran_ble/amaranble/pixelfx.py:631-713 | The builder raises for exactly the pages that lack a required field, and a page in the form reports give it decodes to itself |
| PixelProgram.MergeOrderIndependent | custom_components/amaran_ble/device.py:154-218 | Merging an effect's pages in two arrival orders gives the same program if and only if the control page is among them or the first reports agree on playback |
| PixelProgram.UpsertLookup | custom_components/amaran_ble/device.py:165-207 | Merging one page replaces the page with its key and no other |
| PixelProgram.RebuildPreserves | custom_components/amaran_ble/device.py:262-330 | From any valid state `_pixel_payloads` yields a complete program with its one control page last, which decodes to the source pages (the state's own, truncated, when complete; the defaults otherwise) with only playback and brightness changed |
| PixelProgram.SourceKeeps | custom_components/amaran_ble/device.py:262-330 | Of a complete state exactly the pages below the control's colour count, or of its group, are kept |
| PixelProgram.SourceComplete | custom_components/amaran_ble/device.py:221-259 | What is kept of a complete program is complete, with the same control page |
| Slots.SlotsRead | custom_components/amaran_ble/amaranble/systemfx2.py:898-958 | Reading every slot of a packed table back gives the stored values, name by name |
| SystemFx2.BuildPage | custom_components/amaran_ble/amaranble/systemfx2.py:404-697 | The builder raises for exactly the missing parameters, and an effect's own page decodes to what was stored of them |
| SystemFx2.PageRoundTrip | custom_components/amaran_ble/amaranble/systemfx2.py:961-1122 | Every encoded page of all 18 effects decodes to its effect, state, page number, colour mode and stored parameters |
| SystemFx2.SequenceRoundTrip | custom_components/amaran_ble/amaranble/systemfx2.py:700-895 | Decoding and merging the one or two pages of an effect gives every parameter of its colour mode |
| SystemFx2.MergeCommutes | custom_components/amaran_ble/amaranble/systemfx2.py:1125-1155 | Two complementary pages of one effect merge to the same whole state in either order |
| SystemFx2.RewriteChangesOnly | custom_components/amaran_ble/device.py:1022-1058 | For every generation-II effect and state the encoder can produce, the sequence rewritten with the on bit and any parameters changed decodes to the old state with just those changed if and only if every changed parameter lies within its slot's reach in whole steps; a parameter the effect does not have changes nothing |
| Telink.BuildEffect | custom_components/amaran_ble/amaranble/telink.py:441-705 | What the builder emits for any effect and arguments decodes to those arguments as clamped and rounded |
| Telink.RoundTrip | custom_components/amaran_ble/amaranble/telink.py:834-974 | Decoding any encoded first-generation effect gives its arguments as clamped and rounded by the app's rules |
| Telink.RewriteChangesOnly | custom_components/amaran_ble/device.py:984-1020 | For every effect, colour mode and state the encoder can produce, the rewritten packet decodes to the old state with just the asked changes, a colour-mode switch included, if and only if every value of the changed state fits its field, kelvin in tens and a coarse tint in whole tens; with a parameter the effect lacks nothing changes |
| Telink.ProducedRepresentable | custom_components/amaran_ble/amaranble/telink.py:441-705 | Every state the encoder produces is one it can produce again |
| Composition.Parse | custom_components/amaran_ble/amaranble/config_client.py:72-112 | Accepts a byte string if and only if it is the page-0 serialization of a list of elements, and returns exactly that list with element i at base + i; so every truncation that is not itself a serialization is rejected |
| Composition.ParseElement | custom_components/amaran_ble/amaranble/config_client.py:85-111 | Consumes exactly one element's bytes, or the rest is no sequence of whole elements |
| Composition.SerializeInjective | custom_components/amaran_ble/amaranble/config_client.py:72-112 | Two composition data with the same bytes are the same |

## Left out

- SegmentedTransfer.ReturnedMeansReassembled: the network delivers only PDUs their senders sent, the keys being secret; the peer runs this receiver with its own address as the destination.
- LateAcknowledgment.TruthfulExactly: the two ends share NetKey, IV Index and a key, and the sender has numbers left for one attempt of each message, without which the send raises.
- ProxyClient.ProxyClient.SendSegmented: what `_next_seq` hands out and whether a write comes back are inputs; the allocator is Sequence and the frames of one write are Sar.MeshGattTransport.Send.
- EndToEnd.LongMessageDelivered: there is room when the first segment arrives, and the segments arrive within the reassembly timeout; another PDU of the sender's own with a higher number would make the rest replays, so the other traffic is other nodes'.
- ExactReassembly.OrderIndependent: needs room in the table when the first segment arrives and no expiry while the transaction is open, as the code does; no other transaction of the same pair in between.
- Sequence.NeverReused: numbers that only the compatibility store vouches for, written by an older component after a rollback, are outside the invariant; proxy sessions follow one another; each allocated number is spent on one use.
- Provisioning.NoStrandedFixture: one record and its network; other records' networks are foreign; Provisioning Data still in flight dies when its link is lost or a new connection to that fixture opens; two flows at once are ConcurrentFlows.
- Provisioning.SetupNeverStale: generated NetKeys never repeat.
- ManualFx.Bijection: a message is one constructor per wire layout, so missing fields, unused fields and wrong Python types cannot be expressed.
- Telink.RoundTrip: arguments are integers, a green/magenta shift in its raw units; NaN and rounding of fractions are not modelled.
- SystemFx2.SequenceRoundTrip: covers the twelve effects with defaults; the six of generation III have none and are covered page by page.
- SystemFx2.RewriteChangesOnly: excludes a change of the colour mode, which no caller of `_effect2_payloads` can ask for.
- ProvisioningExchange.Agreement: assumes the two public keys and the two confirmations differ, since the code refuses equal ones as reflected.
- SegmentReassembler.SegmentReassembler: a pending record is a value in its dictionary, so aliasing of records is not captured; parsing is the caller's step, as in `_handle_network`.
- AES, CMAC, CCM and P-256 themselves: foreign library calls.
- Malformed pending records and keys, product IDs, entry removal and entries older than pending records.
- Proxy filter set-up, request matchers, listener callbacks and timeouts of single awaits.
- The Boost session, fan writes and report-confirmation loops: their outcomes depend on firmware replies.
- Partition, multi-pixel, steady-mode, motion and high-speed packets, and CCT, HSI, status and brightness packets: smaller copies of the packing law.
- Profiles, constants, brightness tables, the resolver, entities, forms and diagnostics: static data and user-interface plumbing.
