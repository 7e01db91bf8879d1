# netmuxd: a verified model of its USB mux, bulk adapters, device manager and descriptor scanner

netmuxd lets several clients share one iOS device. Behind each device's single bulk-in/bulk-out pipe
it runs a *mux task* that emulates TCP: every client connection becomes a virtual TCP connection with
sequence numbers, acknowledgements and a window. This project models that task together with
everything that runs beside it, and proves what holds in every state it can reach.

What is modelled, file by file:

| file | models |
|---|---|
| `Prelude.dfy` | integer widths, wrapping and saturating arithmetic, byte strings |
| `Codec.dfy` | the mux header, the TCP header (layout of section 3.1 of RFC 9293, the window always in units of 256 bytes), the length-delimited frame reader |
| `Layout.dfy` | the bytes on the pipe one by one: frames, packets of the device, the handshake |
| `ConnSpec.dfy` | what one event does to one connection: the arms of the event loop and `handle_incoming` as functions, and the facts about `flush_pending` |
| `Lane.dfy`, `LaneProofs.dfy` | one connection with its client, pump task, forwarder task and the history of both byte streams; its invariant, kept by every step |
| `System.dfy`, `SystemProofs.dfy` | the whole mux: connection table, shared channels, the wire; its events and runs; the invariant of the whole |
| `MuxTheorems.dfy` | what follows for every reachable state, any device and any interleaving |
| `Departures.dfy` | what a connection leaves behind when it leaves the table, whichever event takes it out |
| `Stranding.dfy` | pumps that were paused when their connection left the table: when they sleep for ever, and when they must |
| `Frames.dfy`, `Windows.dfy` | what every frame says: where it goes, what it acknowledges, how much room it shows |
| `Effects.dfy` | what each event of the mux does, exactly, in the bits and numbers of the event |
| `Occurrences.dfy` | runs that reach the failures those theorems delimit |
| `PortReuse.dfy`, `ReuseProofs.dfy` | the mux without any guard on source ports, with every pump there ever was; what all its runs keep |
| `StalePumps.dfy`, `Mixing.dfy` | what the pump of a connection that has gone can still do, and exactly which Connects it threatens |
| `ReuseTheorems.dfy`, `ReuseRuns.dfy` | what early reuse of a port does to bytes, closes, pumps and replies; runs that reach it |
| `ReuseWindow.dfy`, `ReuseCredits.dfy` | the same for the receive window: every forwarder there ever was, and whom its drain reports credit |
| `MuxSpec.dfy`, `Refinement.dfy` | the mux task alone as a transition system, and the proof that the runs of `System` are its runs |
| `MuxTask.dfy` | the mux task in imperative form: connection objects, header counters, the event loop's arms, shutdown, each proved against `MuxSpec` |
| `BulkSpec.dfy`, `BulkIo.dfy` | the bulk writer and reader, as functions of the endpoint's answers and as classes |
| `BulkEffects.dfy` | what one poll of a bulk adapter does, by what the endpoint answers |
| `MuxIo.dfy` | the writer task, the reader task and the handshake over the bulk adapters |
| `EndToEnd.dfy` | from a client's writes to what the device parses out of its transfers |
| `FromDevice.dfy` | the way back: from the packets a device writes to what a client reads |
| `Registry.dfy`, `RegistryProofs.dfy`, `RegistryTheorems.dfy` | the device manager as a transition system, its invariants, and what holds in every reachable state |
| `RegistryEffects.dfy` | what each message to the manager does, exactly; whose USB handle a device has |
| `Manager.dfy` | the manager thread in imperative form, each message handler proved against `Registry`; the Connect arm of a client session |
| `Descriptors.dfy` | the one-pass scan of a USB configuration blob and the configuration loop |

How to read the mux model. A run is any finite sequence of events, each possible when it happens:
Connects, messages of the pumps, drain reports, packets of the device, shutdown, and single steps of
clients, pumps and forwarders. The device is arbitrary: any segment may arrive at any time. Where a
property needs a well-behaved device it says so through one of two history flags: `ackHonest`
(acknowledgements are monotone and never ahead of what was sent) and `winHonest` (the device stays
within the most generous right edge it was ever shown). The 32-bit fields wrap as in the program;
beside them the model counts without bound, and the theorems relate the two.

In those runs a Connect waits until nothing of the last connection on its port can act any more. The
runs of `PortReuse.dfy` drop that guard, and those of `ReuseWindow.dfy` add the forwarders to them:
pumps and forwarders are then named by the ordinal of their Connect, and what they send bears only
their port, as in the program.

The channel to the writer task may close at any moment: `ClosesAfter(n)` is a writer task that
accepts `n` more frames, so every send of every handler is considered as the first to fail. What
holds only while the channel is open says `CanSend`.

Where code and comment disagree the code is followed. The comment beside the pump's message channel
speaks of sending FIN or RST when a client closes; only RST is ever sent (`src/usb/mux.rs:248-250`).

## Model

| member | source | states |
|---|---|---|
| Codec.TcpRoundTrip | src/usb/mux.rs:737-792 | every TCP frame the mux task builds is well framed and parses back to the same ports, sequence and acknowledgement numbers, flags, scaled window and payload, with the header counters at their place |
| Codec.TcpFields | src/usb/mux.rs:646-658 | parse_tcp inverts the 20-byte header that send_tcp writes |
| Codec.HeaderFields | src/usb/mux.rs:760-792 | the 8- or 16-byte mux header carries protocol, true total length and, in version 2, both counters |
| Codec.ReadAllInverts | src/usb/mux.rs:660-693 | on any list of well-framed packets followed by any incomplete rest, repeated read_frame returns exactly the list and leaves exactly the rest |
| Codec.ReadAllSound | src/usb/mux.rs:660-693 | on any bytes whatever, the frames read and the unread rest are the bytes, every frame is well framed, and reading stops only where no complete packet starts |
| Codec.ReadFrameExact | src/usb/mux.rs:668-692 | one read_frame takes one well-framed packet and nothing of what follows |
| Layout.FrameBytes | src/usb/mux.rs:737-792 | every byte of a frame: protocol 6, true length, magic, counters, ports, numbers, data offset, flags, window, zero checksum and urgent pointer, payload; at most 49152 bytes |
| Layout.PacketBytes | src/usb/mux.rs:399-419 | any bytes from the device are too short, of another protocol, or a segment with its fields at their places |
| Layout.ReadFrameBytes | src/usb/mux.rs:660-693 | the second word of the stream is the length, accepted from 16 to 49152 |
| Layout.HandshakeBytes | src/usb/mux.rs:695-707 | the 20 bytes of VERSION and the 17 of SETUP |
| Layout.AnswerBytes | src/usb/mux.rs:202-219 | which answers to VERSION are accepted, byte by byte, and what is wrong with the others |
| ConnSpec.FlushSends | src/usb/mux.rs:709-727 | whether or not a send fails midway, a flush sends a prefix of the pending bytes, in order |
| ConnSpec.FlushNumbers | src/usb/mux.rs:724-727 | its segments are numbered without a gap from the connection's sequence number, mod 2^32 |
| ConnSpec.FlushStaysInWindow | src/usb/mux.rs:714-726 | every segment of a flush is nonempty, fits MAX_PAYLOAD and ends inside the window the device last advertised, whatever the device did before |
| ConnSpec.FlushMoves | src/usb/mux.rs:714-727 | a flush that succeeds changes nothing but the sequence number and the pending bytes, both by exactly the bytes sent |
| ConnSpec.FlushEnds | src/usb/mux.rs:714-723 | it never overruns the window and stops only with nothing pending or the window full |
| ConnSpec.FlushCount | src/usb/mux.rs:714-727 | it sends exactly as many bytes as are pending and fit |
| ConnSpec.FlushFills | src/usb/mux.rs:719-727 | every segment of a flush but the last carries 49116 bytes |
| ConnSpec.FlushFails | src/usb/mux.rs:725 | a flush fails only on a closed writer channel, never on the USB_MTU limit, and a failed one leaves all other fields alone |
| LaneProofs.DataStep | src/usb/mux.rs:300-312 | client data keeps the whole invariant of the connection: both byte streams, numbering, windows, pause flag, close |
| LaneProofs.CloseStep | src/usb/mux.rs:313-323 | so does the client's close |
| LaneProofs.DrainStep | src/usb/mux.rs:326-340 | so does a drain report |
| LaneProofs.SegmentStep | src/usb/mux.rs:452-576 | so does any segment of the device |
| LaneProofs.ShutdownStep | src/usb/mux.rs:371-378 | so does the reset at shutdown |
| LaneProofs.LocalStep | src/usb/mux.rs:473-510 | so does every step of the client, the pump and the forwarder |
| SystemProofs.RunKeeps | src/usb/mux.rs:255-369 | every run whose Connects find their port quiet keeps the invariant of the whole mux; ReuseProofs.RunKeeps and ReuseWindow.RunKeeps are for all other runs |
| MuxTheorems.OutboundIntegrity | src/usb/mux.rs:293-325 | in every run, over any interleaving, the data segments of a connection, then its pending bytes, then the messages under way, then what the pump has not read, are what the client wrote, in order; every segment after the SYN is numbered 1 plus the bytes before it, mod 2^32 |
| MuxTheorems.GracefulClose | src/usb/mux.rs:570-574 | a close that ends with an RST has put every byte the client ever wrote on the wire |
| MuxTheorems.ClosedLingersOnlyWithBytes | src/usb/mux.rs:313-323 | a closed connection still in the table has unsent bytes |
| Departures.DepartureLosesPending | src/usb/mux.rs:386-397 | whichever event takes a connection out of the table (client data or close, any segment, shutdown), with the writer open the bytes accepted and not on the wire are exactly the pending ones, which are those pending before the event unless it drained the stream; so nothing is lost if and only if the stream drained or nothing was pending |
| MuxTheorems.WorkConserving | src/usb/mux.rs:565-568 | between events a connected entry has nothing pending or a full window |
| MuxTheorems.InFlightIsExact | src/usb/mux.rs:714-719 | against honest acknowledgements, and past any number of wraps, the 32-bit subtraction gives the true bytes in flight, at most 65535 * 256 |
| MuxTheorems.ClientSendsInWindow | src/usb/mux.rs:299-325 | for any device at all, every payload that client data or a close sends ends inside the device's window |
| MuxTheorems.SegmentSendsInWindow | src/usb/mux.rs:452-454 | the same for what an incoming segment releases, against the window that segment brought |
| MuxTheorems.PendingBounded | src/usb/mux.rs:301-311 | pending bytes never exceed TX_HIGH_WATER + 66 * MAX_PAYLOAD |
| MuxTheorems.WakeupNotLost | src/usb/mux.rs:728-733 | a paused entry holds at least TX_LOW_WATER bytes, and a pump that waits while not paused can take its next step |
| Stranding.TeardownStrandsPump | src/usb/mux.rs:386-397 | teardown wakes nobody: whichever event takes a connection out of the table, some run strands its pump if and only if the pause flag was up before and the pump has yet to come to the pause test (at it, asleep behind it, or, while the mux task runs, with a chunk in hand or one it may still read); no run does if the flag was down or the pump has the end of the stream; at least TX_LOW_WATER accepted bytes are then unsent |
| Stranding.DozesOff | src/usb/mux.rs:475-478 | a paused pump whose connection has gone has at most three steps left in any run, reads nothing more, and is stranded exactly when they are used up; until then its next step is possible |
| Occurrences.StrandingHappens | src/usb/mux.rs:301-311 | runs in which a reset strands a pump and loses bytes, at once or one step later: 22 full chunks to a device with a closed window |
| MuxTheorems.StrandedForGood | src/usb/mux.rs:476-478 | a stranded pump stays so in every run that does not use its port anew |
| MuxTheorems.InboundIntegrity | src/usb/mux.rs:547-561 | while the forwarder lives, what the client received, the forwarder's hand and the delivery channel are all payload of the device, in order, and the acknowledgement sent is 1 plus its length, mod 2^32 |
| MuxTheorems.ReceiveWindowExact | src/usb/mux.rs:326-340 | against a device within the most generous right edge shown, rx_buffered counts exactly the bytes queued, in hand or in unprocessed drain reports, never exceeds RX_WINDOW, and no saturating operation clips |
| MuxTheorems.WindowUpdateNotLost | src/usb/mux.rs:329-339 | between events the last frame of a connected entry acknowledges everything taken and, if MAX_PAYLOAD bytes are free, shows at least that much window |
| Frames.FramesAreTrue | src/usb/mux.rs:737-758 | every frame after the SYN, whatever event sends it, bears its connection's ports, acknowledges every byte taken, shows window * 256 <= free < window * 256 + 256 of the 131072 bytes as they are at that moment, and is an ACK, or a bare RST after which the connection is gone |
| Frames.FramesGoWhereAsked | src/usb/mux.rs:264-281 | in every run each frame of the n-th Connect's connection goes to the port that Connect asked for |
| Windows.WindowNeverOverstated | src/usb/mux.rs:752-755 | in every state the last frame of every entry shows no more room than there is |
| Windows.UnderstatedIff | src/usb/mux.rs:326-340 | a last frame that shows all the room there is stays so through every event but a drain report that gives back as much as another 256 bytes without there being, for the first time, room for a full payload |
| Windows.UnderstatedHappens | src/usb/mux.rs:326-340 | a run after which it shows less: 300 bytes read by the client, and no frame says so |
| Effects.OddFlagsEnd | src/usb/mux.rs:531-545 | any flags but 0x10 end an established connection: it leaves, nothing is sent, the client gets nothing |
| Effects.AnswerDecides | src/usb/mux.rs:455-529 | flags 0x12 and no others establish a connection, with one bare ACK numbered 1 and the Connect answered; any others end it with the Connect failed and nothing sent |
| Effects.AckEffect | src/usb/mux.rs:547-575 | an ACK's payload goes to the client once and is acknowledged first; then exactly the unsent bytes go out that the new window has room for; the connection goes, with a bare RST, if and only if its client has closed and that was all |
| Effects.UndeliverableEnds | src/usb/mux.rs:547-558 | payload for a client that is gone: one bare RST, and the connection goes |
| Effects.StrangerEffect | src/usb/mux.rs:424-450 | a segment for an unknown port gets one RST back, ports exchanged, numbered 0, acknowledging its number, unless its RST bit is set |
| Effects.DataEffect | src/usb/mux.rs:299-312 | client data: what the window has room for goes out in order, the rest is pending, and the pump is paused if and only if more than 1048576 bytes are left or it was paused and at least 262144 are; with the writer gone the connection goes as soon as there is anything to send |
| Effects.CloseEffect | src/usb/mux.rs:313-323 | client close: the connection goes at once, with a bare RST, if and only if the window has room for all that is pending |
| Effects.StrayEffect | src/usb/mux.rs:294-298 | a message for a port without an established connection changes nothing |
| Effects.DrainEffect | src/usb/mux.rs:326-340 | a drain report frees that many bytes; one bare ACK goes out if and only if that makes room for 49116 bytes where there was none |
| Effects.ConnectEffect | src/usb/mux.rs:259-286 | a Connect sends one SYN numbered 0, window 512, from the next port to the one asked for, or fails |
| Effects.ShutdownEffect | src/usb/mux.rs:371-378 | shutdown sends every entry one RST with its own ports and numbers, and fails every Connect that waits |
| MuxTheorems.TableWellFormed | src/usb/mux.rs:386-397 | every entry is filed under its own port, is not dead, holds its reply exactly while connecting and its delivery channel exactly while connected |
| MuxTheorems.ConnectsConserved | src/usb/mux.rs:259-286 | Connects processed are replies given plus entries waiting, and no Connect is answered twice |
| MuxTheorems.ShutdownAnswersAll | src/usb/mux.rs:371-378 | after shutdown every Connect has been answered |
| MuxTheorems.SourcePorts | src/usb/mux.rs:260-261 | the n-th Connect uses port 1 + n mod 65535; it meets the latest user of that port if and only if a whole number of cycles lies between, so never with fewer than 65534 Connects in between |
| MuxTheorems.OverwriteLosesReply | src/usb/mux.rs:285 | the first time a port is reused too early, the accounting of Connects survives if and only if the overwritten entry was not itself waiting for its reply; for whole runs see ReuseTheorems.ConnectsAccounted |
| Occurrences.OverwriteHappens | src/usb/mux.rs:285 | a run in which that happens: 65535 Connects the device leaves unanswered |
| ReuseProofs.RunKeeps | src/usb/mux.rs:255-369 | with Connects that never wait for a port, every run keeps who is who, the pause flags, and the bytes, closes and replies of every connection there ever was |
| ReuseTheorems.BytesFromCyclesAgo | src/usb/mux.rs:260-295 | an entry acts on messages only of its own pump or of one whose connection came a whole number of 65535-port cycles earlier |
| Mixing.ForeignIff | src/usb/mux.rs:285-301 | a Connect exposes its connection to another client's bytes or close, in some run, if and only if an earlier connection on its port has left a message in the queue or a pump that has neither ended nor come to rest before a raised pause flag (and the writer takes a SYN and an ACK) |
| Mixing.UnthreatenedNeverMixes | src/usb/mux.rs:255-369 | in a run all of whose Connects find their port without such a message or pump, no connection ever acts on another's bytes or close |
| Mixing.FirstCycleUnthreatened | src/usb/mux.rs:260-261 | the first 65535 Connects all do |
| ReuseTheorems.TakenGoesOut | src/usb/mux.rs:300-325 | for every connection, present or gone: what its entry has taken, foreign bytes included, is on the wire as its payload or pending, in the order taken; it is closed if and only if it has taken a close, and drained only then |
| ReuseTheorems.CloseEnds | src/usb/mux.rs:313-323 | a close ends the connection it reaches, whoever's client it came from: at once if and only if all it has taken is then on the wire |
| StalePumps.GoneForGood | src/usb/mux.rs:386-397 | a connection without an entry never has one again, and takes and sends nothing more in any run |
| StalePumps.OrphanSendsIff | src/usb/mux.rs:473-495 | a pump whose connection has no entry any more can send again, in some run, if and only if it has not ended and does not stand or sleep before a raised pause flag |
| ReuseTheorems.OverwriteLosesPending | src/usb/mux.rs:285 | of what an overwritten entry had taken exactly its pending bytes never go out, in any run; its pump can send again if and only if it has not ended and is not at or asleep behind a raised pause flag; in the latter case it sleeps for good and at least TX_LOW_WATER bytes are lost |
| ReuseTheorems.ConnectsAccounted | src/usb/mux.rs:259-286 | over any run, every Connect processed has exactly one reply, or waits for it in the table, or was overwritten while it waited; the three never overlap and add up |
| ReuseTheorems.RepliesLostBy | src/usb/mux.rs:285 | no event but a Connect loses a reply, and it loses that of the entry on its port if that still waits and the SYN can be sent |
| ReuseRuns.ForeignBytesHappen | src/usb/mux.rs:473-495 | a run in which one client's bytes enter a later connection of another |
| ReuseRuns.ForeignCloseHappens | src/usb/mux.rs:479-482 | a run in which one client's close resets and removes a later connection of another, which has not closed |
| ReuseRuns.OverwrittenBytesHappen | src/usb/mux.rs:285 | a run whose next Connect overwrites an established entry with an unsent byte |
| ReuseRuns.OverwriteStrandsHappens | src/usb/mux.rs:476-478 | a run in which the overwritten entry's pump is paused and never runs again |
| ReuseWindow.WindowOffByForeignCredit | src/usb/mux.rs:326-340 | for any device and any run: while its forwarder lives, an established connection's rx_buffered never exceeds what is queued, in its forwarder's hand or in reports of its own, and falls short of it by no more than other connections' reports have credited it with, unless the count has hit 2^32; without such reports it is exact |
| ReuseCredits.CreditIff | src/usb/mux.rs:497-510 | a Connect exposes its connection to another's drain reports, in some run, if and only if a forwarder of an earlier connection on its port has chunks left to write or a report in the channel (and the writer takes a SYN and an ACK) |
| ReuseCredits.TidyRunsCountExactly | src/usb/mux.rs:326-340 | in a run all of whose Connects find nothing left over on their port, receive accounting is exact |
| ReuseCredits.OverstatedWindowHappens | src/usb/mux.rs:326-340 | a run in which a late report of one connection makes a later one show more window than it has |
| Refinement.StepRefines | src/usb/mux.rs:255-369 | every event of every run of the whole mux is, on the mux task's own state, the transition that the imperative task is proved to take |
| Refinement.DeliveryRefines | src/usb/mux.rs:549-552 | what that transition delivers is what joins the delivery channel |
| MuxTask.Link.SendRaw | src/usb/mux.rs:760-792 | oversized packets are refused and change nothing; others queue exactly one frame if the writer receives; the counters reset and wrap as coded |
| MuxTask.Link.SendTcp | src/usb/mux.rs:737-758 | queues a frame that the device parses as exactly this segment, numbered by the header counter, or nothing |
| MuxTask.Link.SendVersion | src/usb/mux.rs:695-707 | queues the VERSION frame in 8-byte framing, or nothing |
| MuxTask.Link.Accept | src/usb/mux.rs:202-224 | accepts exactly a well-formed answer with version 2 whose SETUP can be sent; then both handshake frames are logged and the counters reset |
| MuxTask.Link.FlushPending | src/usb/mux.rs:709-735 | the loop, with its pause flag and permit, is the flush function whose properties are proved above |
| MuxTask.Mux.Teardown | src/usb/mux.rs:386-397 | removes the entry and fails its Connect if that is still waiting |
| MuxTask.Mux.OnConnect | src/usb/mux.rs:259-286 | takes the Connect transition of MuxSpec on the whole state of the mux task |
| MuxTask.Mux.OnMessage | src/usb/mux.rs:293-325 | takes the transition for client data and client close |
| MuxTask.Mux.OnDrain | src/usb/mux.rs:326-340 | takes the transition for a drain report |
| MuxTask.Mux.OnPacket | src/usb/mux.rs:353-367 | notes the device's counter and takes the segment transition for TCP packets, none for others or for packets too short |
| MuxTask.Mux.KnownPort | src/usb/mux.rs:452-576 | the part of handle_incoming for a known port, including what is delivered |
| MuxTask.Mux.UnknownPort | src/usb/mux.rs:424-450 | a segment for an unknown port is answered with one RST that acknowledges its sequence number, unless it is an RST |
| MuxTask.Mux.Shutdown | src/usb/mux.rs:371-378 | takes the shutdown transition and empties the table, visiting every port once and none twice |
| BulkSpec.FlushSettles | src/usb/bulk_io.rs:162-179 | a flush poll, whatever it returns, does not change which transfers there will be; once it is done they have all been submitted and completed |
| BulkSpec.RepeatedFlush | src/usb/bulk_io.rs:162-179 | polling a flush any number of times sends at most the one zero-length packet that was owed |
| BulkSpec.CutsAtFrames | src/usb/bulk_io.rs:142-179 | for any nonempty frames, each written with write_all and flushed, cutting the packets at short and zero-length ones gives back the frames if and only if each fits one submission or submissions hold whole packets |
| BulkSpec.StopsBetweenFrames | src/usb/mux.rs:183-196 | wherever the writer is stopped, the device has cut off whole frames in order and holds the beginning of the next |
| BulkSpec.PollReads | src/usb/bulk_io.rs:66-96 | one read poll loses, invents and moves no byte; with room it never returns a zero-byte success; an error is reported only when everything before it has been read |
| BulkSpec.ReaderConserves | src/usb/bulk_io.rs:65-97 | over any run of polls with any buffer sizes, the bytes handed out and the undrained remainder are the data of the completed transfers, in order |
| BulkEffects.WritePollCases | src/usb/bulk_io.rs:129-160 | a write is accepted if and only if the endpoint is free, refused if and only if the transfer before it has failed, and waits otherwise |
| BulkEffects.FlushPollCases | src/usb/bulk_io.rs:162-179 | a flush is done, fails or waits by the answers to what is in flight and to the zero-length packet owed |
| BulkEffects.FrameIsOneTransfer | src/usb/bulk_io.rs:142-179 | a frame of up to 65536 bytes is one transfer, closed by a zero-length one if and only if it fills its last packet |
| BulkEffects.ReadPollCases | src/usb/bulk_io.rs:66-96 | a read hands out what is left of the last transfer; else the next answer decides: wait, error, pass over, or hand out and keep the rest |
| BulkIo.RoundUpIsLeast | src/usb/bulk_io.rs:40-43 | the transfer size is the least positive multiple of the packet size that holds what was asked for |
| BulkIo.BulkWriter.PollDrain | src/usb/bulk_io.rs:129-139 | at most one transfer is in flight, exactly when the flag says so |
| BulkIo.BulkWriter.PollWrite | src/usb/bulk_io.rs:143-160 | does what the write function says, and never polls an idle endpoint |
| BulkIo.BulkWriter.PollFlush | src/usb/bulk_io.rs:162-179 | the loop is the flush function whose properties are proved above |
| BulkIo.BulkReader.SubmitUntilTarget | src/usb/bulk_io.rs:58-62 | tops outstanding transfers up to the target, all of the rounded size |
| BulkIo.BulkReader.PollRead | src/usb/bulk_io.rs:66-96 | the loop is the read function whose properties are proved above, and outstanding transfers never exceed the target |
| MuxIo.WriterTask | src/usb/mux.rs:183-196 | submits exactly the transfers of the frames, as far as it gets |
| MuxIo.DeviceSeesSegments | src/usb/mux.rs:189-190 | one mux frame is one USB transfer: whatever the packet size, the device cuts the packets into the frames the mux task logged and parses the segments back in order |
| MuxIo.ReadExact | src/usb/mux.rs:664-666 | takes the next n bytes of the stream however they are spread over transfers, or fails if there will not be as many |
| MuxIo.ReadFrame | src/usb/mux.rs:660-693 | returns the next frame of the byte stream, or the error for an implausible length or an early end |
| MuxIo.Handshake | src/usb/mux.rs:198-224 | succeeds exactly if VERSION can be sent, a frame arrives, it accepts version 2 and SETUP can be sent; the reader then stands behind that frame |
| MuxIo.ReaderTask | src/usb/mux.rs:226-243 | hands up exactly the frames of the byte stream, then the first error, or as many as are taken before the run stops it or drops the channel |
| EndToEnd.DeviceParses | src/usb/mux.rs:183-196 | wherever the writer task has got to, the segments the device parses out of its cut transfers are a prefix of the wire |
| EndToEnd.DeviceReceivesClientBytes | src/usb/mux.rs:293-325 | while no port has been used twice, what the device parses from a port is a prefix of what that client wrote, and with the pending, queued and unread bytes all of it |
| FromDevice.ReadAllPrefix | src/usb/mux.rs:660-693 | of the well-framed packets a device has written, the reader gets those that have arrived complete, in order |
| FromDevice.ClientReceivesDeviceBytes | src/usb/mux.rs:497-564 | however the transfers cut the device's packets, what the client on a port has read is a prefix of the payload the device has sent to that port since it accepted the connection; with the forwarder's hand and the queue it is all of it once everything has been handled, while the connection is established |
| RegistryProofs.ListenersMirrorTable | src/manager.rs:146-148 | in every reachable state, past any wrap, what a registered listener has been sent replays to exactly the device table |
| RegistryProofs.BroadcastReaches | src/manager.rs:146-148 | a broadcast appends once to every registered channel that still receives, touches no other, and keeps exactly those |
| RegistryProofs.GoodNext | src/manager.rs:176-345 | every message keeps all invariants of the manager, short of a wrap of the id counter |
| RegistryTheorems.IdsNeverReused | src/manager.rs:194-206 | ids of listed and deferred devices are distinct and never used again after a removal, and every channel sees each id attached at most once and detached at most once, after that |
| RegistryTheorems.ShimPartition | src/main.rs:580-592 | with an upstream a Connect goes there exactly for ids below the base, and none of those is ever listed, deferred or announced here |
| RegistryTheorems.ConnectReachesDevice | src/main.rs:641-663 | a Connect for a listed device reaches its address or its mux task; it cannot be served exactly if the device is not on the network and has no handle |
| RegistryTheorems.NoDuplicates | src/manager.rs:183-185 | with heartbeat off no two entries share udid and connection type |
| RegistryTheorems.DuplicatesOnlyByDeferredAdd | src/manager.rs:262-266 | from a table without duplicates a message makes one if and only if it is a deferred add of a pair already listed |
| RegistryTheorems.DuplicatesHappen | src/manager.rs:208-218 | with heartbeat on two discoveries of one device do end up as two entries |
| RegistryTheorems.HandlesBelongToUsb | src/manager.rs:238-242 | every handle in the table belongs to a listed "USB" device |
| RegistryTheorems.HandlesConserved | src/manager.rs:290-295 | every handle taken in is held for one device, or was shut down, or was replaced, and none is dropped in another way |
| RegistryTheorems.SocketKilledIff | src/manager.rs:327-329 | a socket is killed if and only if its device is removed after it was opened; one opened after the removal waits for ever |
| RegistryTheorems.LateSocketHappens | src/manager.rs:327-329 | a run that leaves such a socket |
| RegistryTheorems.FailureRemovesOwnIff | src/manager.rs:321-326 | a failing heartbeat names only the udid: on any table, with or without duplicates, what it removes is sure to be its own entry if and only if that is still listed as a "Network" device and no other listed "Network" device has its udid |
| RegistryTheorems.FailureRemovesAnother | src/heartbeat.rs:120-135 | runs after which the failure of a heartbeat can remove another's entry: after the device has gone and come back, and while it is listed twice |
| RegistryTheorems.RequestsConserved | src/manager.rs:223-229 | every request to add a device has got one Result, or was dropped without one, or is still with its heartbeat task |
| RegistryTheorems.PlistsNeverFail | src/manager.rs:138-144 | every "Network" device that is or will be listed has the service name and address its plist insists on |
| RegistryEffects.NetworkEffect | src/manager.rs:177-230 | a network device is passed over if and only if it is listed under that type or has no pairing record; otherwise it gets the next id and index, its address and service, joins the table or waits for its heartbeat, and its requester is told 1 |
| RegistryEffects.UsbEffect | src/manager.rs:231-261 | a USB device that is listed gets the new handle and nothing else changes; a new one joins with its location, product and speed; either way a Connect for it goes through that handle |
| RegistryEffects.HeartbeatEffect | src/manager.rs:262-274 | a heartbeat that comes up lists its device as seen and answers 1; one that gives up lists nothing and answers 0 |
| RegistryEffects.RemoveEffect | src/manager.rs:275-298 | a removal takes out exactly the devices of that udid and, if named, that type, with their handles and sockets, one notice each |
| RegistryEffects.FailureEffect | src/manager.rs:321-326 | a failed heartbeat takes out one listed "Network" device of its udid with one notice, or changes nothing |
| RegistryEffects.SubscribeEffect | src/manager.rs:330-344 | a new listener is sent every listed device once and is registered if it receives or there was nothing to send |
| RegistryEffects.ConnectGoes | src/main.rs:580-663 | where a Connect goes, for every id, listed or not |
| RegistryEffects.BaseStays | src/manager.rs:160-164 | ids are counted from 1, with an upstream from 0x10000000 |
| RegistryEffects.NewestHandleWins | src/manager.rs:238-242 | over any run the handle of a listed device is the latest filed under it, and none that has been replaced is the latest of any |
| RegistryEffects.UsbByUdid | src/manager.rs:238-242 | a discovery leaves every handle the latest of its udid if and only if no other device of its udid has one |
| RegistryEffects.LatestDiscoveryWins | src/manager.rs:231-261 | in runs whose discoveries are all like that, the handle of a listed device is the one of the latest discovery of its udid |
| RegistryEffects.AloneWithoutHeartbeat | src/manager.rs:231-261 | with heartbeat off every run is |
| RegistryEffects.OldHandleHappens | src/manager.rs:231-261 | with heartbeat on a run in which it is not: a device added by hand twice as "USB" |
| Manager.Manager.Announce | src/manager.rs:146-148 | the retain loop is the broadcast |
| Manager.Manager.FindDeviceId | src/manager.rs:112-121 | finds a match exactly if there is one |
| Manager.Manager.DropEntry | src/manager.rs:123-136 | drops the entry, kills its sockets, hands over its handle |
| Manager.Manager.DiscoveredNetwork | src/manager.rs:177-230 | takes the transition of Registry for a network device, its requester's Result included |
| Manager.Manager.DiscoveredUsb | src/manager.rs:231-261 | takes the transition for a USB device, replacing the handle of one already listed |
| Manager.Manager.DeferredAdd | src/manager.rs:262-274 | takes the transition for a device whose heartbeat has come up, its requester's Result included |
| Manager.Manager.RemoveDevice | src/manager.rs:275-298 | removes exactly the entries selected, each once |
| Manager.Manager.HeartbeatFailed | src/manager.rs:321-326 | removes one matching "Network" entry if there is one |
| Manager.Manager.OpenSocket | src/manager.rs:327-329 | files the kill signal under the id, listed or not |
| Manager.Manager.Subscribe | src/manager.rs:330-344 | sends the table first and registers the listener unless a send failed |
| Manager.Manager.ListDevices | src/manager.rs:299-311 | lists every entry once |
| Manager.Manager.GetDeviceConnection | src/manager.rs:312-320 | answers with the entry's data and its handle, or nothing |
| Manager.Connect | src/main.rs:580-663 | asks upstream or the manager and dispatches on the connection type as the transition system says |
| Descriptors.DescsParse | src/daemon/libusbk_backend.rs:340-346 | a blob has exactly one parse into well-formed descriptors up to the first malformed one, and the walk finds it |
| Descriptors.ScanPicks | src/daemon/libusbk_backend.rs:348-390 | the one-pass scan with its carried state picks what the declarative reading picks: the first interface of the mux class with a bulk endpoint in each direction, and the last such endpoints |
| Descriptors.ScanUnique | src/daemon/libusbk_backend.rs:315-318 | that reading determines the answer |
| Descriptors.ScanConfigBlob | src/daemon/libusbk_backend.rs:319-391 | on any bytes the scan stays in bounds, ends, and gives that answer; none exactly if no interface is complete |
| Descriptors.ScanBytes | src/daemon/libusbk_backend.rs:348-390 | the answer byte by byte: there is one if and only if an interface of class 255, 254, 2 is followed, before any other, by a bulk endpoint in each direction; it names the first such interface, the last such endpoints and the OUT endpoint's packet size mod 2048 |
| Descriptors.FindMuxTarget | src/daemon/libusbk_backend.rs:276-313 | the highest configuration that has a target, or cannot be read, decides; one is scanned if and only if its header has 9 bytes, head[2] + 256 * head[3] is at least 9 and the full read has that many, exactly that prefix under the value head[5]; others are passed over |

## Left out

- Windows.WindowNeverOverstated: the last frame of an entry need not show all the room there is, because a drain report that opens no room for a full payload sends none (`Windows.UnderstatedIff`, `Windows.UnderstatedHappens`).
- SystemProofs.RunKeeps: its runs leave out a Connect that meets a port whose former pump, forwarder or entry can still act. The first 65535 Connects never do. `PortReuse.dfy` and `ReuseWindow.dfy` have no such guard and state what then holds, up to the shutdown of the mux task, without the limit of 64 on the channel of the pumps.
- MuxTheorems.OverwriteLosesReply: speaks of the first overwrite of a run and of its reply only; whole runs, the bytes and the pump are in `ReuseTheorems.dfy`.
- ReuseWindow.WindowOffByForeignCredit: does not bound a count that has hit 2^32, which takes a device that ignores the window.
- Scheduling and time: tasks are steps in any order; there is no claim that a step that can happen does, and the 50 ms diagnostic read after an implausible length is not part of this model.
- The forwarder writes a chunk and reports it in one step; partial writes to a client that goes away are not distinguished. The client's read side of the duplex pipe has no capacity limit, a client that does not read is one whose forwarder takes no step.
- Locks, atomics and the Notify are booleans: the pause flag, and whether a permit is stored.
- A listener's receiver, a writer task's endpoint and a heartbeat task fail only between messages of the manager, not within the sending of one.
- The bound of 16 on the command and packet channels. The minor version of the device's answer is only logged, and ignored here too.
- CONTROL packet texts, refusal reasons, error strings and logging.
- usize and u64 counters other than the manager's id counters are unbounded (bytes since the last flush, lengths of queues).
- The endpoints of nusb: a script of answers stands for them; a completed read is taken to fit its buffer.
- The plist encoding of devices, pairing records (a lookup succeeds or fails), heartbeats (a task that adds its device later or gives up), lockdown and mDNS.
- The rest of a client session in src/main.rs: only the routing of a Connect is modelled.
- `src/libusbk/io.rs`, `src/apple_mux/io.rs` and the writer of `src/daemon/nusb_backend.rs` repeat the shape of `src/usb/bulk_io.rs` over foreign calls.
- Drivers, foreign functions, configuration, upstream forwarding and the user interface.
