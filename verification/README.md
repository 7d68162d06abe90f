# Verified model of J2534_OIP_Wrapper

J2534_OIP_Wrapper lets a diagnostic program written against the J2534 PassThru API talk to CAN buses
over UDP (the Cannelloni protocol) and shows the traffic in an application. This project models its
four central mechanisms in Dafny and proves what they guarantee.

1. **The Cannelloni channel protocol** (`Channels`, `ChannelSafety`, `ChannelTheorems`, `ClientCalls`,
   `J2534CannelloniClient`). A map from ports to channel contexts is shared by API calls, which hold
   `globalMutex`, and by one receive thread per channel, which takes only the channel's queue mutex.
   `Channels` is a transition system whose actions are the steps no other thread can split; `Exec` runs
   any list of actions, so a statement about all lists is a statement about all interleavings.
   `PassThruClose` is three actions (request stop, join, erase) with receivers running in between. A
   receiver step whose context has been erased raises `fault`, which is proved never to happen.
   The class `J2534CannelloniClient` has the program's methods and loops. Its ghost field `trace` records
   every step of the object and of its receivers, and `Valid()` says that the object's state is the one
   the trace leads to. So every execution of the class is a run of the transition system, and all its
   theorems apply. Between the steps of a call the method `Interference` lets the network and the
   receivers do anything they can. Its field `records` holds what it has sent over the log pipe
   (`CallLog`), and `AtRest()` adds that these records account for everything read so far.
2. **The datagram codec** (`CanCodec`). The 13-byte-stride decoder of the receive thread and the
   variable-length encoder of `PassThruWriteMsgs`. The host is little-endian.
3. **CRC-32** (`CrcTheory`, `Crc32`). The table-driven loop over a signed 64-bit register, tied to the
   bit-serial definition of section 8 of RFC 1952 and to long division by the generator polynomial.
   Registers are bit strings; an int64_t is its 64 two's complement bits.
4. **The log pipe** (`PipeFraming`, `PipeServer`, `MessageList`, `ReadRecords`). Length-prefixed framing
   with one incremental parser per client, the mapping of message lists to CBOR trees and back, and the
   record that `PassThruReadMsgs` sends.

`EndToEnd` combines them: from one client's writes to another client's reads over a network that loses,
repeats and reorders, and from a client's reads to the list the application shows. `Bytes` and
`PassThru` hold the shared vocabulary.

## Properties worth knowing about the code

- One malformed datagram ends reception for the rest of the period (`MalformedEndsReception`), and a
  packet written for a message of fewer than 12 bytes is malformed for a receiver of the same program
  (`WriterToReceiver`). What a peer receives is therefore cut off at the first short message
  (`PeerReceives`).
- `PassThruClose` sends one zero byte to the local host at the target port to wake its own receiver up.
  With the default host that address is the peer. The byte is shorter than a header, so a peer that runs
  the same program and gets it stops receiving for the rest of its period (`WakeUpEndsReception`).
- `PassThruReadMsgs` returns STATUS_NOERROR on every known channel, with no messages too, because it
  overwrites the count before testing it; a read with a timeout does not wait for messages. It passes
  over a null buffer while it takes messages, and then builds its record from that buffer: the call
  faults exactly when the buffer is null and a message was taken.
- The tail of `PassThruWriteMsgs` has the same test and reports success. After a refused message it gets
  there with a record that has been freed, which is outside the model (see below).
- `PassThruSelect` resets its count before it looks at the clock, so a timeout yields ERR_TIMEOUT,
  although the comment at the return statement speaks of returning the count on timeout. The code 9
  that it returns for a timeout is also what it returns before the time is up in exactly two cases: nine
  listed entries are ready, or the threshold is zero and none is (`PassThruSelect`, `RepeatsCount`).
- A device that is reported available can be opened if and only if fewer than three channels are open;
  with a default port outside the three virtual devices it can be refused (`AvailableDeviceOpens`,
  `AvailableDeviceRefused`).
- A zero prefix in the bytes that reach the server is skipped, and a prefix of 2^31 or more stops its
  connection for good (`DrainStream`, `NegativeSizeIsFinal`). `ExPipeClient::send` writes neither: a map
  of seven entries is never empty, and the encoder reports sizes as a signed 32-bit number.
- The CRC detects every burst of 32 bits and misses exactly one 33-bit pattern (`BurstDetected`,
  `Burst33`).

## Model

| member | source | states |
|---|---|---|
| ChannelTheorems.FifoOpen | j2534_OverIP/j2534cannelloniclient.cpp:141-257 | In every interleaving, for an open channel, messages returned, then queued, then held by the receiver are exactly the messages of the longest well-formed prefix of the datagrams received, in order; received and still waiting datagrams are exactly those that arrived |
| ChannelTheorems.FifoClosed | j2534_OverIP/j2534cannelloniclient.cpp:412-454 | For a closed period the same equation holds with the messages discarded by the close in place of the queue, and its receiver has exited |
| ChannelTheorems.Deliver | j2534_OverIP/j2534cannelloniclient.cpp:147-239 | From every reachable state with a receiver in its loop and well-formed datagrams waiting, there is a run of the receiver after which returned and queued messages are all messages of all datagrams that arrived |
| ChannelTheorems.NoDanglingReceiver | j2534_OverIP/j2534cannelloniclient.cpp:396-448 | In every reachable state, in the middle of a close too, each running receiver's context is still the one in the map, and no receiver step has ever touched an erased context |
| ChannelTheorems.ClosedForGood | j2534_OverIP/j2534cannelloniclient.cpp:436-448 | After the erase nothing is received, pushed, popped or sent in the name of that period, whatever is opened later |
| ChannelTheorems.CloseThenOpen | j2534_OverIP/j2534cannelloniclient.h:51-62 | Erasing ends the period, and reopening the port starts with an empty queue, sequence number 0, no stop request and a new thread |
| ChannelTheorems.StopWithinThreeSteps | j2534_OverIP/j2534cannelloniclient.cpp:436-444 | Once its stop is requested a receiver takes at most three more effective steps in any interleaving |
| ChannelTheorems.ReceiverNeverStuck | j2534_OverIP/j2534cannelloniclient.cpp:147-239 | A receiver that has not exited always has an effective step, so the join inside close cannot block on it for ever |
| ChannelTheorems.ExitedIsSilent | j2534_OverIP/j2534cannelloniclient.cpp:162-197 | A receiver that has left its loop consumes nothing more for the rest of its period, in any continuation |
| ChannelTheorems.MalformedEndsReception | j2534_OverIP/j2534cannelloniclient.cpp:162-197 | After one malformed datagram the period consumes nothing more, however long the run goes on |
| ChannelTheorems.ExitReasons | j2534_OverIP/j2534cannelloniclient.cpp:147-197 | In every run, a receiver of an open channel that is out of its loop was told to stop or received a non-empty datagram shorter than 5 bytes, of another version, or too short for the frames it announces; an idle poll or an empty datagram never ends the loop |
| Channels.LoopEnders | j2534_OverIP/j2534cannelloniclient.cpp:158-197 | Exactly those datagrams end the loop, an empty one sends it back to the head and any other is taken in hand |
| Channels.FramesByBytes | j2534_OverIP/j2534cannelloniclient.cpp:199-234 | Any other datagram says, byte by byte: one message per announced frame at a stride of 13 bytes, with the id and as many data bytes as the frame's length counts |
| Channels.DecodeAllSplit | j2534_OverIP/j2534cannelloniclient.cpp:147-239 | A sequence of datagrams says what its datagrams say, in order, up to the first that ends the loop |
| Channels.ReceivablePacked | j2534_OverIP/j2534cannelloniclient.cpp:144-158 | A packed datagram fits the receive buffer if and only if it has at most 115 frames |
| ChannelTheorems.SequenceNumbers | j2534_OverIP/j2534cannelloniclient.cpp:706 | Over whole runs the k-th packet attempted in a period is the encoding of the k-th attempted message with sequence number k mod 256, independently of other channels |
| ChannelTheorems.DeviceBounds | j2534_OverIP/j2534cannelloniclient.cpp:286-332 | At most three channels, on the default port or the three virtual ports; the scan index stays within 0..3 and the devices listed since the last scan are a prefix of 20000, 20001, 20002 without repeats |
| ChannelTheorems.AvailableDeviceOpens | j2534_OverIP/j2534cannelloniclient.cpp:1490-1498 | A virtual device with no open channel can be opened if and only if fewer than three channels are open, which always holds when the default port is a virtual device |
| ChannelTheorems.AvailableDeviceRefused | j2534_OverIP/j2534cannelloniclient.cpp:304-316 | A concrete run with another default port after which a device reported available is refused |
| ChannelTheorems.RelyExec | j2534_OverIP/j2534cannelloniclient.cpp:203-233 | Whatever receivers and network do while a call holds the mutex, channels neither come nor go, queues only grow at the back, and sequence numbers and stop flags stand still |
| ChannelSafety.InvRun | j2534_OverIP/j2534cannelloniclient.cpp:141-494 | The protocol invariant behind these results holds after every interleaving from the initial state |
| ChannelSafety.ConsumeNext | j2534_OverIP/j2534cannelloniclient.cpp:158-197 | Receiving a datagram, good, empty or malformed, preserves the conservation equation of its channel |
| ChannelSafety.PushNext | j2534_OverIP/j2534cannelloniclient.cpp:203-235 | Pushing the frames in hand preserves it |
| ChannelSafety.PopNext | j2534_OverIP/j2534cannelloniclient.cpp:243-257 | Popping the front preserves it |
| J2534CannelloniClient.ChosenPort | j2534_OverIP/j2534cannelloniclient.cpp:286-296 | The first virtual device whose number occurs anywhere in the name, the default port if none does |
| J2534CannelloniClient.J2534CannelloniClient.TestStopRequested | j2534_OverIP/j2534cannelloniclient.cpp:147 | The thread leaves its loop if a stop was requested and waits otherwise, which is the protocol's stop test |
| J2534CannelloniClient.J2534CannelloniClient.PollSocket | j2534_OverIP/j2534cannelloniclient.cpp:149-197 | A ready socket gives its next datagram, and the thread leaves the loop, returns to its head or holds the datagram exactly as the size, version and count checks say; otherwise it returns to the loop head and nothing else changes |
| J2534CannelloniClient.J2534CannelloniClient.PushMessages | j2534_OverIP/j2534cannelloniclient.cpp:199-235 | The messages of the datagram in hand go to the back of the queue, and the thread returns to the loop head |
| J2534CannelloniClient.J2534CannelloniClient.DatagramArrives | j2534_OverIP/j2534cannelloniclient.cpp:149-158 | A datagram that reaches an open channel's socket waits behind those already there and is recorded as arrived |
| J2534CannelloniClient.J2534CannelloniClient.Follow | j2534_OverIP/j2534cannelloniclient.cpp:141-241 | Any given sequence of steps of network and receivers is performed as the protocol says |
| J2534CannelloniClient.J2534CannelloniClient.Interference | j2534_OverIP/j2534cannelloniclient.cpp:141-241 | Any interference is a run of environment actions and stays within the rely relation |
| J2534CannelloniClient.J2534CannelloniClient.PassThruOpen | j2534_OverIP/j2534cannelloniclient.cpp:259-410 | Exact status for each failure in the code's order; receivers of other channels keep running, and in the state the call finds a failed open takes no step and a successful one takes exactly the protocol's open step, which adds one fresh channel |
| J2534CannelloniClient.J2534CannelloniClient.JoinReceiver | j2534_OverIP/j2534cannelloniclient.cpp:443-444 | Terminates whatever interferes, provided the receiver is scheduled: the waiting loop lets it take a step on every pass; the thread has then exited and everything else is within the rely relation |
| J2534CannelloniClient.J2534CannelloniClient.PassThruClose | j2534_OverIP/j2534cannelloniclient.cpp:412-454 | The channel is gone and its receiver has exited; other channels keep period, flags and sequence numbers and their queues only grow; for an unknown device no step is taken |
| J2534CannelloniClient.J2534CannelloniClient.PassThruConnect | j2534_OverIP/j2534cannelloniclient.cpp:456-503 | Succeeds exactly on open devices, the channel id is then a live key, and only receivers and network have acted |
| J2534CannelloniClient.J2534CannelloniClient.PopParsedMsg | j2534_OverIP/j2534cannelloniclient.cpp:243-257 | Takes the front of the queue, or nothing if it is empty |
| J2534CannelloniClient.J2534CannelloniClient.TakeMessages | j2534_OverIP/j2534cannelloniclient.cpp:557-602 | Under interference the messages stored are the ones taken from the front of that queue, in order, the rest of the buffer is untouched and no other channel loses anything; for every clock, no message is taken after a look finds the time up, and fewer than asked for are taken only if the queue has run empty or the very next look finds the time up |
| ClientCalls.TookEnough | j2534_OverIP/j2534cannelloniclient.cpp:557-602 | A read whose looks at the clock are in time takes at least what was queued when it began, or all it was asked for |
| J2534CannelloniClient.J2534CannelloniClient.PassThruReadMsgs | j2534_OverIP/j2534cannelloniclient.cpp:524-616 | The whole call takes messages under the same guarantees, and the record it sends is that of exactly the messages taken, so that the client's records go on accounting for everything read; an unknown channel is refused with its own record and no step is taken; the call faults if and only if the buffer is null and a message was taken |
| J2534CannelloniClient.J2534CannelloniClient.NextPacket | j2534_OverIP/j2534cannelloniclient.cpp:692-720 | Builds the packet of the message with the channel's next sequence number, which is consumed |
| J2534CannelloniClient.J2534CannelloniClient.PassThruWriteMsgs | j2534_OverIP/j2534cannelloniclient.cpp:638-752 | Without a failing send the packets are those of the longest valid prefix and the count is its length; with one, the packets up to and including it are attempted, ERR_FAILED comes back and the count is untouched |
| J2534CannelloniClient.J2534CannelloniClient.PassThruScanForDevices | j2534_OverIP/j2534cannelloniclient.cpp:1441-1466 | Reports three devices and restarts the enumeration, whatever receivers do during the call; without an output it takes no step |
| J2534CannelloniClient.J2534CannelloniClient.PassThruGetNextDevice | j2534_OverIP/j2534cannelloniclient.cpp:1468-1512 | Lists the next virtual device, available exactly if its port is not in the channel map; otherwise takes no step; receivers keep running |
| J2534CannelloniClient.J2534CannelloniClient.PassThruGetNextCarDAQ | j2534_OverIP/j2534cannelloniclient.cpp:1365-1437 | Shares the same enumeration; a failed allocation does not advance it; receivers keep running |
| J2534CannelloniClient.J2534CannelloniClient.PollChannels | j2534_OverIP/j2534cannelloniclient.cpp:1553-1563 | For every behaviour of network and receivers between the looks, the count is the number of listed entries found non-empty, each at its own look |
| J2534CannelloniClient.J2534CannelloniClient.PollUntil | j2534_OverIP/j2534cannelloniclient.cpp:1537-1571 | For every clock and every behaviour of network and receivers: the loop ends with the first pass that finds the time up or sees the threshold met, with count 0 or with what that pass saw; at most ceil(Timeout/10) + 1 passes when each sleep takes 10 ms |
| J2534CannelloniClient.J2534CannelloniClient.PassThruSelect | j2534_OverIP/j2534cannelloniclient.cpp:1514-1581 | The result is the count if that is positive and 9 otherwise; ended in time, ready at the start of the last poll <= count <= ready at return and threshold <= count, and 9 comes back if and only if the count is nine or count and threshold are zero; with the time up 9 comes back; the pass that ends it is the first that can |
| ClientCalls.ReadyMonotonic | j2534_OverIP/j2534cannelloniclient.cpp:1553-1563 | Pushes by receivers can only increase the number of ready entries |
| ClientCalls.SeenBetween | j2534_OverIP/j2534cannelloniclient.cpp:1553-1563 | Whatever receivers push during a poll, it counts at least what was ready when it began and at most what is ready when it ends |
| ClientCalls.ProgressPop | j2534_OverIP/j2534cannelloniclient.cpp:564-576 | Each pop of a read extends what the call has taken by the front of the queue and touches nothing else |
| ClientCalls.ProgressSend | j2534_OverIP/j2534cannelloniclient.cpp:705-720 | Each send of a write extends the packets by one with the next number and touches nothing else |
| ClientCalls.ProgressRely | j2534_OverIP/j2534cannelloniclient.cpp:203-233 | What a read or write has done so far stays true under interference |
| ClientCalls.FailedAt | j2534_OverIP/j2534cannelloniclient.cpp:729-737 | A send that fails at message i after i good ones is the first failure, inside the valid prefix |
| ClientCalls.RepeatsCount | j2534_OverIP/j2534cannelloniclient.cpp:1554-1562 | A channel listed n times counts n times |
| CanCodec.PushFrames | j2534_OverIP/j2534cannelloniclient.cpp:199-234 | The loop over the receive buffer appends exactly the decoded frames of the received bytes |
| CanCodec.DecodedFrame | j2534_OverIP/j2534cannelloniclient.cpp:206-222 | A decoded message is a CAN message of 4 to 12 bytes: id and data as on the wire, zero after them |
| CanCodec.DecodeInvertsPacking | j2534_OverIP/j2534cannelloniclient.cpp:26-39 | A header with the right version and count, packed 13-byte frames and any trailing bytes decode to exactly the frames' messages in order |
| CanCodec.FrameLimit | j2534_OverIP/j2534cannelloniclient.cpp:144-197 | A datagram that fits the receive buffer carries at most 115 frames |
| CanCodec.BuildPacket | j2534_OverIP/j2534cannelloniclient.cpp:692-720 | The buffer filled piece by piece is the packet of the message |
| CanCodec.CopyInto | j2534_OverIP/j2534cannelloniclient.cpp:713-720 | Copies into place and leaves the rest of the buffer alone |
| CanCodec.WriterToReceiver | j2534_OverIP/j2534cannelloniclient.cpp:680-720 | A written packet is accepted by a receiver of the same version if and only if DataSize is 12, and then yields the same 12 bytes except that the id's top bit is set when CAN_29BIT_ID is |
| CanCodec.PacketBytes | j2534_OverIP/j2534cannelloniclient.cpp:692-720 | The packet of every writable message byte by byte: version, 0, number, count 1, id with the extended flag, length, and only the data bytes that count |
| CanCodec.PaddedPacket | j2534_OverIP/j2534cannelloniclient.cpp:692-720 | Padded with anything up to the stride, the packet of any writable message, short ones too, decodes to exactly the bytes written |
| CanCodec.ExtendedIsBit8 | j2534_OverIP/j2534cannelloniclient.cpp:697-700 | The extended flag is bit 8 of TxFlags whatever the other bits are |
| CanCodec.WritableExactly | j2534_OverIP/j2534cannelloniclient.cpp:680 | Accepted are protocols 5 and 0x8004 with 4 to 12 bytes, and nothing else |
| CanCodec.DecodedIsWritable | j2534_OverIP/j2534cannelloniclient.cpp:205-222 | Whatever was received can be written |
| CanCodec.OtherVersionRejects | j2534_OverIP/j2534cannelloniclient.cpp:181-185 | A receiver of another version accepts no written packet |
| CanCodec.InitPacket | j2534_OverIP/j2534cannelloniclient.cpp:384-390 | The init packet is accepted and carries no message |
| EndToEnd.PeerReceives | j2534_OverIP/j2534cannelloniclient.cpp:191-222 | The packets of any sequence of writes mean, for a receiver of the same version, the echoes of the messages up to the first short one |
| EndToEnd.TwoClients | j2534_OverIP/j2534cannelloniclient.cpp:147-239 | For any two runs and any period of the receiver, open or closed: if every datagram that arrived came from the other client, be it an init packet, a packet of any of its periods or the wake-up byte of a close, lost, repeated and reordered at will, then returned, then queued and held (or discarded by the close) messages are the echoes of the messages behind the datagrams received, up to the first short message or wake-up byte |
| EndToEnd.WakeUpEndsReception | j2534_OverIP/j2534cannelloniclient.cpp:438-441 | The byte that a close sends to the local host, when it reaches an open channel, ends that channel's reception for the rest of its period |
| EndToEnd.TwoClientsInOrder | j2534_OverIP/j2534cannelloniclient.cpp:384-390 | If they arrived in order from the beginning of a period, with or without its init packet, those are the echoes of that period's first messages |
| EndToEnd.EchoesPrefix | j2534_OverIP/j2534cannelloniclient.cpp:191-197 | The echoes are those of the longest prefix of full-size messages, one each |
| EndToEnd.ApplicationShowsReads | j2534_OverIP_App/exj2534readmsgslist.cpp:101-142 | Any stretch of messages returned in any run, logged as the client logs it, is read back by the application exactly |
| EndToEnd.ReadsOverPipe | j2534_OverIP_App/exj2534cannelloni.cpp:53-85 | Between any two calls of a client object, once the bytes of its connection have come in, in any chunks and among any other clients' events: in the one list that all clients write to, this client's part is exactly what all its reads returned, in order, and its records show for each period of a channel exactly what its readers got |
| EndToEnd.ScreenPart | j2534_OverIP_App/exmessagepreprocessor.cpp:31-43 | Each client's part of the shared list is what its own delivered records say, in order |
| CallLog.AccountRead | j2534_OverIP/j2534cannelloniclient.cpp:557-613 | Each read, with its record added, keeps the records a complete account of what readers got in every period |
| CallLog.AccountLogged | j2534_OverIP/j2534cannelloniclient.cpp:538-553 | The record of a refused read or of any other call keeps it too |
| ReadRecords.ReadsAreClean | j2534_OverIP/j2534cannelloniclient.cpp:204-233 | In every run a message that a reader got has 4 to 12 bytes and an array that is zero beyond them |
| ReadRecords.RefusedLogRead | j2534_OverIP/j2534cannelloniclient.cpp:538-553 | The record of a read from an unknown channel shows nothing |
| ReadRecords.ReadLogFields | j2534_OverIP/j2534cannelloniclient.cpp:531-613 | The record of a read field by field, by number |
| ReadRecords.RefusedLogFields | j2534_OverIP/j2534cannelloniclient.cpp:531-553 | The record of a refused read field by field, by number |
| ReadRecords.ReadRecordNumber | j2534_OverIP_App/exj2534cannelloni.cpp:60-80 | Function number 27, and no other, leads to the list of read messages |
| Crc32.ComputeCrc32 | j2534_OverIP/ExDbg.h:34-49 | For every string and for signed and unsigned char alike, the table-driven loop yields the bit-serial CRC with 32 zero bits above it |
| Crc32.BuildTable | j2534_OverIP/ExDbg.h:35-42 | Entry i is eight register steps from i, within 32 bits |
| Crc32.LookupStep | j2534_OverIP/ExDbg.h:45-47 | One lookup and shift is eight bit-serial steps with the byte's bits; sign extension does not reach the index |
| Crc32.PolynomialBits | j2534_OverIP/ExDbg.h:39 | The constant 0xEDB88320 is the reflected generator |
| Crc32.ConstantValues | j2534_OverIP/ExDbg.h:39-48 | The two constants have the values 0xEDB88320 and 0xFFFFFFFF |
| Crc32.ByteBitsMeaning | j2534_OverIP/ExDbg.h:45-46 | The bits that a character contributes are its binary digits, lowest first, for signed and unsigned char |
| Crc32.MessageBitAt | j2534_OverIP/ExDbg.h:45-46 | Bit 8 i + k of the message is the digit of weight 2^k of byte i |
| CrcTheory.CrcIsRemainder | j2534_OverIP/ExDbg.h:34-49 | The CRC is the complemented remainder of long division of the message, first 32 coefficients complemented, by the generator |
| CrcTheory.CrcAffine | j2534_OverIP/ExDbg.h:36-48 | CRC is affine over exclusive or of bit strings of equal length |
| Crc32.CrcAffineStrings | j2534_OverIP/ExDbg.h:36-48 | The same for strings of bytes |
| CrcTheory.FeedIsSteps | j2534_OverIP/ExDbg.h:38-40 | Up to 32 message bits act as one word added to the register before as many steps |
| CrcTheory.StepsClear | j2534_OverIP/ExDbg.h:39 | Register steps are injective: only the zero register leads to zero |
| CrcTheory.BurstDetected | j2534_OverIP/ExDbg.h:34-49 | Two messages that differ only within 32 consecutive bits have the same CRC exactly if they are equal |
| CrcTheory.Burst33 | j2534_OverIP/ExDbg.h:34-49 | Within 33 bits exactly one difference goes unnoticed: the generator itself |
| Crc32.PathBurstDetected | j2534_OverIP/ExDbg.h:34-49 | Two different strings that differ only within 32 consecutive bits get different identifiers |
| Crc32.SharpBurst | j2534_OverIP/ExDbg.h:34-49 | Every string of five bytes or more has a sibling with the same CRC that differs only within its first 33 bits |
| PipeFraming.ChunkIndependence | j2534_OverIP_App/expipeserver.cpp:73-88 | From every at-rest state, any cutting of a stream into chunks gives the same payloads and the same final state as the whole stream |
| PipeFraming.DrainExtend | j2534_OverIP_App/expipeserver.cpp:77-88 | Parsing what is there and then what comes later equals parsing everything at once |
| PipeFraming.RestStates | j2534_OverIP_App/expipeserver.cpp:77 | The parser rests exactly when it waits for a prefix, for the remainder of a payload, or has a negative size |
| PipeFraming.PrefixBytes | j2534_OverIP/expipeclient.cpp:123-124 | The size is sent lowest byte first |
| PipeFraming.PrefixSizeBytes | j2534_OverIP_App/expipeserver.cpp:79 | The size is read as a two's complement integer in that order |
| PipeFraming.NegativeSizeIsFinal | j2534_OverIP_App/expipeserver.cpp:77-84 | After a negative prefix no later input yields a payload; all of it is buffered |
| PipeFraming.DrainStream | j2534_OverIP/expipeclient.cpp:123-134 | What the server recovers from any sequence of frames, with empty and oversized payloads too |
| PipeFraming.RoundTrip | j2534_OverIP/expipeclient.cpp:114-137 | Sends delivered in arbitrary chunks are recovered exactly if and only if every payload is non-empty and shorter than 2^31 bytes; the connection then ends clean |
| PipeFraming.StreamInjective | j2534_OverIP/expipeclient.cpp:121-134 | Two different lists of such payloads never give the same stream |
| PipeFraming.ExPipeClient.Send | j2534_OverIP/expipeclient.cpp:114-141 | Writes prefix and body, and no body when the prefix did not get through |
| PipeServer.ExPipeServer.Parse | j2534_OverIP_App/expipeserver.cpp:77-143 | The inner loop consumes what can be consumed and delivers the payloads that are maps, in order |
| PipeServer.ExPipeServer.ProcessData | j2534_OverIP_App/expipeserver.cpp:67-145 | For any chunks the client's state and deliveries are those of its stream, all other clients are untouched, and the server's state stays the one its event history leads to |
| PipeServer.ExPipeServer.HandleSocketDisconnected | j2534_OverIP_App/expipeserver.cpp:58-65 | Forgets exactly that client's buffer and size and delivers nothing |
| PipeServer.ClientSessions | j2534_OverIP_App/expipeserver.cpp:58-88 | In every interleaving of chunks and disconnects, a client's payloads are those of its successive connections' byte streams, each read from its beginning, and its parser is where the present connection has brought it |
| PipeServer.SessionsNext | j2534_OverIP_App/expipeserver.cpp:58-76 | A client's chunk extends its present connection, its disconnect begins a new one, and other clients' events change nothing |
| PipeServer.OnlyMapsAt | j2534_OverIP_App/expipeserver.cpp:90-96 | A payload is kept if and only if it is a map, wherever it stands |
| PipeServer.ExPipeServer.DeliveredSessions | j2534_OverIP_App/expipeserver.cpp:90-140 | What the object has delivered for a client are the maps among those payloads, in order |
| PipeServer.ClientIsolation | j2534_OverIP_App/expipeserver.cpp:58-71 | A client's payloads are the same as on a server it has to itself |
| MessageList.MapPutPassThruMsg | j2534_OverIP/cbor_utils.cpp:39-77 | Appends one entry with the tree of the first msgs_count messages |
| MessageList.ExJ2534ReadMsgsList.ProcessPipeMessage | j2534_OverIP_App/exj2534readmsgslist.cpp:101-154 | Appends the messages of the record in order, nothing when the parameter is an integer |
| MessageList.ListRoundTrip | j2534_OverIP_App/exj2534readmsgslist.cpp:114-141 | Every list put into the tree comes back complete and in order, header fields equal, data equal up to DataSize and zero after it |
| MessageList.ReadAnyFields | j2534_OverIP_App/exj2534readmsgslist.cpp:119-138 | Any element is read by field numbers, with integers reduced to 32 bits and the data as they are, whatever DataSize says |
| MessageList.ReadAnyList | j2534_OverIP_App/exj2534readmsgslist.cpp:114-141 | Any list gives as many messages as it announces, none for a negative number, and blank ones where the array is too short |
| MessageList.TrimmedSame | j2534_OverIP_App/exj2534readmsgslist.cpp:120-138 | A message comes back unchanged if and only if its array is zero beyond DataSize |

## Left out

- Sockets, the registry, threads and clocks as such: they appear as steps of the environment, as flags that say what the operating system answered, as an input that gives what each look at the clock shows, and as the parameters version and default port.
- Datagrams whose frame length field exceeds 8: the decoder would read outside the frame struct; their absence is assumed of what arrives. Datagrams over 1500 bytes: recv reports an error for them, which is the idle poll.
- The address to which the wake-up byte of a close goes: where it reaches a channel it is an arrival like any other, and TwoClients covers it as one.
- The logging of every PassThru call over the pipe, apart from the record of a read, and all console output. The records of other calls are any trees with another function name.
- PassThruWriteMsgs after a refused message: lines 688-689 send and free the record, and lines 743-749 use and free it again. What that does to the process is not modelled; the contract speaks of result code, count and packets of a call that survives it and whose second record is still not taken for that of a read.
- J2534CannelloniClient.J2534CannelloniClient.JoinReceiver: fair scheduling of the joined thread is built into the waiting loop; a receiver that is never scheduled would block the close.
- J2534CannelloniClient.J2534CannelloniClient.PassThruReadMsgs: what the process is like after the fault on a null buffer; the contract says exactly when it happens.
- Byte-level CBOR, the envelope of a pipe message, its field checks and the choice of view by its type and data type: payloads are opaque, "is a map" is a predicate, and the end-to-end result holds for every encoding that can be undone.
- Cbor: trees are values; a subtree stored in another is not changed afterwards in the program either, so aliasing is not modelled.
- MessageList.Value: a lookup takes the first entry with the key; maps whose keys repeat are excluded from the round trip by its precondition on Param2.
- ExPipeClient.receive: it drops the length prefix when the body has not arrived and promises nothing about framing.
- EndToEnd.ReadsOverPipe: assumes that sends do not overlap. PassThruDisconnect (j2534_OverIP/j2534cannelloniclient.cpp:505), PassThruQueueMsgs (:618) and the unsupported functions send without holding globalMutex, and a send is two unlocked writes (j2534_OverIP/expipeclient.cpp:124-134), so two caller threads can mix prefix and body. Records of those functions do not occur in the object's list.
- EndToEnd.ScreenPart: assumes of every delivered record of a read that its data fit the arrays they are copied into; the program does not check.
- PipeFraming.RoundTrip: speaks of sends whose writes got through; a body that was cut short is described by Send only.
- PipeFraming.ExPipeClient.Send: takes any payload whose size fits the prefix; the program passes only encodings of one kind of map, which are neither empty nor of 2^31 bytes.
- scanIndex is static in the program; the model has one client object, so sharing it between objects is not covered.
- PassThruDisconnect, PassThruIoctl, version strings and the unsupported functions: constant answers.
- The application's views, the write list, JSON export and import.
- j2534dllwrapper, j2534emulator, j2534simplelogger, exj2534device and exj2534oipsocks: forwarding and stubs.
