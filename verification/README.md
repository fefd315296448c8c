# async-sctp: a verified model

async-sctp is an asynchronous layer over kernel SCTP. It reassembles messages
from the reads of a socket, shares one socket between any number of receiving
and sending tasks, notices when an association ends, waits for the outcome of a
connect, and converts addresses and notifications between bytes and values.
This project models those parts in Dafny and proves what they promise, for all
inputs and over all interleavings of tasks, kernel and reactor.

`dafny verify dfyconfig.toml` checks everything.

## How it is laid out

| file | what it holds |
|---|---|
| `Wire.dfy`, `PrefixCodes.dfy` | bytes and byte order; self-delimiting codes in general |
| `Notifications.dfy` | parsing notifications, and which of them end an association |
| `Addresses.dfy` | socket addresses, packed arrays of them, binding a client |
| `Reassembling.dfy`, `Fragmentation.dfy` | the accumulator, and cutting messages into fragments and back |
| `SharedBuffer.dfy`, `Peeloff.dfy` | one buffer for many associations against one each; branching one off |
| `Reads.dfy`, `ReceiveCalls.dfy` | from flagged reads to messages; the receive loops as a single caller meets them |
| `Sockets.dfy` | kernel socket and cached readiness: the environment and its contracts |
| `Association.dfy` | `recv_msg` and `send_with` as steps of any number of concurrent calls |
| `AssociationProofs.dfy` | what every step keeps |
| `AssociationTheorems.dfy`, `ServerTheorems.dfy` | what is handed out, accepted and reported, over all runs |
| `CallResults.dfy` | which error each call is told, and why |
| `Wakeups.dfy` | who is woken over all runs, exactly when a call is not, and that every call returns after the end |
| `AssociationLimits.dfy` | runs that show where the wake-up results end |
| `Connecting.dfy` | `established` as steps, and the hand-over to an association |
| `SendPath.dfy`, `Descriptors.dfy` | send options and metadata; who closes a descriptor |

The concurrent parts are state machines: a run is a sequence of actions, each
made by the kernel, the reactor or one call, and the theorems are about the
state at the end of an arbitrary run. A call can be dropped only where the code
awaits. `Sockets.dfy` states what is assumed of the kernel and of tokio. Edges
that the kernel raised wait for the reactor, which either reports what they
said or asks the socket again (`repoll`, as epoll does); results hold for both
unless they say otherwise.

## What the proofs found

- Two receives at once can lose the wake-up at the end of an association. Any
  number of receives are woken, in every state of a run, if and only if no step
  of the run is one of two (`Wakeups.WokenUnlessSpoiled`): a receive that found
  nothing, and saw `ended` still open, clears the readiness after the last record
  was read (`AssociationLimits.TwoAtTheEndStrand`); or, where the reactor asks
  the socket again, a receive on an old guard reads the last record while the
  readiness is cleared and its edge still to come
  (`AssociationLimits.StaleGuardStrands`). What is lost stays lost
  (`Wakeups.LostForGood`). Receives made one at a time make neither step
  (`Wakeups.NoStrandedReceive`).
- A send that waits when the association is lost relies on the socket error, a
  hang-up, or writable left from before. If there is none of them
  (`AssociationLimits.SendStrandsWithoutError`), or another call takes the error
  before the reactor looks (`AssociationLimits.SendStrandsWithoutReceive`), it
  waits until a receive returns the notification and closes `ended`
  (`Wakeups.SilentUntilEnded`). The exact steps are in
  `Wakeups.SendsWokenUnlessSilenced`.
- A connect waits for readable only once. If the socket was readable before the
  outcome, a later refusal that does not hang up is not noticed
  (`Connecting.EarlyReadableStrands`). An end with neither a socket error nor a
  hang-up is not noticed either (`Connecting.EndWithoutErrorStrands`), but the
  source expects a refusal to set the error. The exact steps are in
  `Connecting.WokenUnlessMissed`.
- The association id reported for a failed send is the error field of the
  kernel's structure (`Notifications.ParseSendFailed`).
- A fragment that an association leaves unfinished on a one-to-many socket is
  put in front of the next association's message
  (`SharedBuffer.AbandonedFragmentLeaks`); the exact condition under which this
  does not happen is `SharedBuffer.ServerRefinesSeparate`, and whenever it does,
  some association's messages are corrupted (`SharedBuffer.EachKeyExactly`).
- Peeling off an association while the server holds a fragment of it tears the
  message apart: the rest comes out of the new socket without its beginning
  (`ServerTheorems.PeeloffOverRuns`), and the beginning stays in the server's
  buffer and is put in front of the next message it hands out, of another
  association (`ServerTheorems.PeeledFragmentLeaks`).
- A bind whose registration fails closes its descriptor twice
  (`Descriptors.BindImpl`); an accepted or peeled descriptor whose options cannot
  be set, or whose peer has an unknown address family, is never closed
  (`Descriptors.FromRawFd`, `Descriptors.AcceptOne`).

## Model

| member | source | states |
|---|---|---|
| Wakeups.WokenUnlessSpoiled | src/association.rs:313-351 | in every run with any number of receives and sends: every receive waiting for a record, the peer's shutdown or the end of the association is woken, in each state of the run, if and only if no step of it clears the readiness after the last record of an ended association was read, or reads that record on an old guard with the readiness cleared and its edge still to be asked about |
| Wakeups.LostForGood | src/association.rs:328-338 | once that wake-up is lost, whatever else happens short of the peer's shutdown or an edge raised for no reason, a waiting receive is never woken |
| Wakeups.NoStrandedReceive | src/association.rs:313-351 | in every run with any number of sends and receives made one at a time no such step occurs: no receive waits while its answer is decided, even when a send took the socket error, and once `ended` is closed every receive is woken at once |
| Wakeups.EndedReceiveReturns | src/association.rs:328-338 | after `ended` is closed in a run with receives made one at a time, in every continuation with any number of calls: a receive that has not returned has its next step enabled, has returned after at most three of its own steps whatever others do, and with an error unless it held an output before |
| Wakeups.EndedSendReturns | src/association.rs:249-284 | the same for sends, in every continuation with any number of calls |
| Wakeups.NoStrandedSend | src/association.rs:249-284 | in every run, any number of calls: room wakes a waiting send, and so does a hang-up; a loss with a socket error wakes it unless that error was taken before its edge was reported (never, if edges are reported as raised); otherwise `ended` is closed or the notification that closes it is unread or in hand |
| Wakeups.SendsWokenUnlessSilenced | src/association.rs:249-284 | in every run, any number of calls: a send waiting on an association that is over is woken, by error, writable, hang-up or `ended`, in each state, if and only if no step takes the last of these away: an end with no error, hang-up or writable left; a call that takes the error before the reactor asks for it; or a clear, after the end, of what a send was woken by before it |
| Wakeups.SilentUntilEnded | src/association.rs:249-258 | a send so silenced stays where it is, whatever any number of calls do short of an edge raised for no reason, until `ended` is closed |
| Wakeups.QueuedWakesReceives | src/association.rs:313-340 | in every run, any number of calls: while anything is queued, or the peer has shut down, the readable bit is set or an edge that sets it is on the way |
| Wakeups.WokenMeansEnabled | src/association.rs:249-258 | being woken, as used above, is that the wait of the call can go on once the reactor has got to its edges: for a receive by readable or a hang-up, for a send by writable, a hang-up or (on an association) an error, and otherwise only by `ended` |
| Wakeups.ClearsWhatItSaw | src/association.rs:274-281 | in every run a call that is told to wait clears exactly if no edge was reported since it was woken, and then nothing of what woke it is left; an old guard clears nothing |
| CallResults.ReceiveErrorExactly | src/association.rs:320-349 | in every run, any number of calls: a receive has returned an error if and only if a step gave it that very one: a read of an empty queue that found the socket error, or none and the peer shut down, or a look at `ended` that found it closed |
| CallResults.ErrorsAreReal | src/recv.rs:93-104 | in every run: an I/O error that a receive returns is one the association ended with or that was there from the start; PeerShutdown only if the peer shut down |
| CallResults.OneIsToldTheError | src/association.rs:330-332 | in every run the socket error is returned by at most one receive |
| CallResults.SendErrorExactly | src/association.rs:249-284 | in every run: a send has returned an error if and only if the kernel refused it with that error, or `ended` was closed while nothing made it try (NotConnected) |
| AssociationTheorems.Conservation | src/association.rs:313-351 | in every run with any number of concurrent and dropped receives: outputs in lock order, then what the buffer and the unread queue yield, are exactly what everything the kernel queued amounts to; and so byte for byte |
| AssociationTheorems.OneOutputPerCall | src/association.rs:320-349 | each output is held or returned by exactly the call the lock gave it to, and each call has at most one |
| AssociationTheorems.WholeMessagesInOrder | src/recv.rs:66-149 | if what the kernel queued is a cutting of messages, those handed out are the first of them, whole and in order, and all of them once the queue is empty |
| AssociationTheorems.EndedStays | src/association.rs:341-345 | `ended` never reopens |
| AssociationTheorems.EndIsSound | src/association.rs:328-349 | `ended` is closed, and NotConnected returned, only after every record ever queued was read, the last output being a notification that the association is over |
| AssociationTheorems.SendIsAtomic | src/association.rs:242-284 | the kernel accepted a call's message exactly once if the call returned its length, and never if it failed, was dropped or still waits; and what it accepted is, as it reads it, the data, options, time-to-live, stream and PPID that the call was started with, and on a one-to-many socket its association (src/server.rs:225-262) |
| AssociationProofs.RunKeepsAll | src/association.rs:242-351 | every run of any number of calls keeps the invariant that all of the above rest on |
| AssociationProofs.RegisteredIsUntouched | src/association.rs:103-112 | a socket from accept or peeloff, registered with whatever was queued by then, meets the condition under which all of the above holds |
| AssociationLimits.TwoAtTheEndStrand | src/association.rs:328-345 | from every state in which two receives are about to read and only the notification of the end is queued, a continuation leaves one waiting with `ended` closed, no bit set and no edge pending |
| AssociationLimits.TwoReceivesCanStrand | src/association.rs:328-345 | such states are reached from a fresh association, on either kind of reactor and for every notification of the end, with the socket error handed to a concurrent send, by a run with a step that spoils |
| AssociationLimits.StaleGuardStrands | src/association.rs:320-338 | from every state in which a receive has found nothing and is about to clear, the end has come since, and another receive is about to read on its old guard, a continuation leaves the first waiting for good; no clear comes between that read and the close of `ended` |
| AssociationLimits.StaleGuardCanStrand | src/association.rs:320-338 | such states are reached from a fresh association where the reactor asks the socket again |
| AssociationLimits.SendStrandsWithoutReceive | src/association.rs:249-258 | with no receive made and the socket asked again, a send can go on waiting after the loss because another took the error |
| AssociationLimits.SendStrandsWithoutError | src/association.rs:249-258 | with no receive made, a send goes on waiting after a loss that leaves neither a socket error nor a hang-up |
| ServerTheorems.SharedBufferOverRuns | src/server.rs:171-206 | in every run of a one-to-many socket the outputs are those of separate buffers per association or stream if and only if fragments did not mix up to the last message that ended, and if and only if each association's messages are the reassembly of its own records |
| SharedBuffer.ServerRefinesSeparate | src/recv.rs:124-149 | for every delivery trace: one shared buffer hands out what separate buffers would if and only if, up to the last end of a message, no data record comes while a message of another key is open; notifications may come anywhere |
| SharedBuffer.SeparateIsIndependent | src/recv.rs:124-149 | separate buffers hand out for each key exactly the reassembly of that key's records alone |
| SharedBuffer.EachKeyExactly | src/recv.rs:124-149 | one shared buffer gives every key the reassembly of its own records if and only if fragments do not mix: mixing always corrupts some key's messages |
| SharedBuffer.AbandonedFragmentLeaks | src/recv.rs:39-45 | a trace on which the two differ: an abandoned fragment ends up in the next association's message |
| SharedBuffer.InterleavedStreamsLeak | src/recv.rs:39-45 | the same between two streams of one association |
| ServerTheorems.PeeloffOverRuns | src/server.rs:266-272 | for every run of a server, a peeloff, and every later run of the server and of the new association, each with any number of calls: the server hands out no more of that association; if fragments did not mix before, what it handed out and what the new one hands out are together the association's messages if and only if the server held no fragment of it or none of its messages ends any more; the others get their own messages from the server if and only if fragments do not mix on it, which they do if it held such a fragment and hands out another message; no queued record is lost to either |
| ServerTheorems.PeeledFragmentLeaks | src/server.rs:266-272 | in every such run, a fragment held at the peeloff is put in front of the next message of the server, which is another association's, and some other association's messages are then not its own |
| ServerTheorems.PeeledFragmentCanLeak | src/server.rs:266-272 | such a run exists on either kind of reactor |
| Peeloff.PeeledExactly | src/association.rs:103-112 | the two parts are together the association's messages if and only if the server held no fragment of it or no message of it ends any more |
| Fragmentation.FragmentationRoundTrip | src/recv.rs:124-149 | records let out exactly the messages `ms` and leave the buffer empty if and only if their data is a cutting of `ms` into fragments of 1 to 65536 bytes; notifications among them surface in order |
| Fragmentation.DeliveredPrefix | src/recv.rs:124-149 | at every prefix of the records, what has been let out is a prefix of all that will be, messages and notifications each in order |
| Fragmentation.ChopCuts | src/recv.rs:32-35 | every non-empty message has a cutting into windows |
| Reassembling.Resume | src/recv.rs:12-18 | stopping anywhere and resuming from the buffer changes neither outputs nor buffer |
| Reassembling.NoticesTransparent | src/recv.rs:131-134 | notifications anywhere between fragments surface in order and leave buffer and messages as if they had not come |
| Reassembling.BytesConserved | src/recv.rs:136-148 | bytes let out and bytes buffered are the bytes that came in |
| Reads.MessagesFromReads | src/recv.rs:124-149 | for every list of reads that is message after message (bit 0x8000 clear, bit 0x80 on the last read of each): exactly those messages come out, whole and in order, each with the joined bytes, the stream, association and sender of its last read and the number its PPID is in network order |
| Reads.MessagesAmongNotices | src/recv.rs:124-149 | reads marked 0x8000 anywhere among them surface in order, parsed from their own bytes, and change nothing about the messages |
| Reassembling.Reassembly.PushChunk | src/recv.rs:124-149 | one chunk changes the buffer and lets out a step as the record it stands for does |
| Reassembling.Reassembly.RecvStep | src/recv.rs:66-119 | errors and a zero-length read leave the buffer alone; a read counts by its own bytes only, whatever earlier reads left in the scratch buffer |
| Reassembling.SenderIsDecoded | src/recv.rs:107-113 | a one-to-many record carries the address its sender was encoded with, and none exactly for an unknown family |
| ReceiveCalls.SctpAssociation.RecvMsg | src/association.rs:313-351 | terminates on a finite queue; returns the single output that the records it took amount to, or took everything and found none, and then comes to the socket error, else PeerShutdown, else NotConnected, else its wait, exactly as the socket and `ended` say; closes `ended` exactly on a notification of the end |
| ReceiveCalls.SctpAssociation.Recv | src/association.rs:299-306 | terminates; the records it took amount to the notifications it skipped and then its message, or there was no message and it comes to the same errors or wait |
| ReceiveCalls.SctpServer.Recv | src/server.rs:171-206 | as `recv_msg` without `ended`, with each error returned exactly for its reason; a message without a usable sender address is taken and reported as an error |
| ReceiveCalls.BytesDecideEnd | src/association.rs:341-345 | a read ends the association if and only if it is flagged as a notification and its bytes start with an association change of full length to state 1, 3 or 4 |
| Connecting.OutcomeIsSound | src/association.rs:461-520 | in every run, by what the socket held when it was asked: an I/O error if and only if the last question was for the socket error and found that one; Ok if and only if the last two found no error and then the socket writable; NotConnected if and only if they found no error and then an error or a hang-up; a failure only if the association is over, and a reported error is taken |
| Connecting.WaitsOnlyUndecided | src/association.rs:485-514 | in every run: a call that waits with the outcome decided is woken, unless the association ended without a hang-up and readable was used up, too early or by an end without a socket error |
| Connecting.WakesMeansEnabled | src/association.rs:490-506 | being woken is that one of the two waits can go on once the reactor has got to its edges |
| Connecting.PrefersWritable | src/association.rs:490-506 | the one wait for readable is used up only when the socket is readable and not writable |
| Connecting.WokenUnlessMissed | src/association.rs:485-514 | in every run: the call is woken in every state in which it waits with the outcome decided, if and only if no step of the run is a miss: an end, a poll or a clear that leaves it waiting for writable alone with nothing to report it |
| Connecting.NeverStranded | src/association.rs:477-484 | if nothing is readable before the outcome and a refusal sets the socket error or hangs up, the call never waits with the outcome decided |
| Connecting.EarlyReadableStrands | src/association.rs:487-506 | readable once before the outcome, and a refusal that is reported as error plus readable, without a hang-up, goes unnoticed |
| Connecting.EndWithoutErrorStrands | src/association.rs:461-505 | an end with neither a socket error nor a hang-up goes unnoticed |
| Connecting.WritableKept | src/association.rs:493-500 | in every run the writable bit is cleared only after a poll that saw nothing, and if the socket has become writable since, an edge that sets it again is on the way |
| Connecting.ReadableKept | src/association.rs:501-505 | over any run the readable bit is never cleared and no record is taken |
| Connecting.HandsOverIntact | src/association.rs:219-224 | the socket of a successful connect meets the condition under which every association result holds from the first send and receive on |
| Connecting.ConnectThenUse | src/association.rs:219-224 | from the connect through any later run: queued records wake receives, room wakes sends, and everything queued since the connect began is handed out exactly |
| Notifications.ParseAssocChange | src/notification.rs:99-113 | parsing inverts the encoder of `sctp_assoc_change`, whatever bytes follow, on either byte order; states 0 to 4 are CommUp, CommLost, Restart, ShutdownComp and CantStrAssoc, and any other is kept as its number |
| Notifications.ParseByOffset | src/notification.rs:90-135 | for every byte string: the kind of notification by length and type number, its fields by their offsets, and by its type alone what is too short or of another type |
| Notifications.ParseShutdown | src/notification.rs:114-123 | the same for `sctp_shutdown_event` |
| Notifications.ParseSendFailed | src/notification.rs:124-132 | the id reported is the error field; it is the association's exactly when the two agree |
| Notifications.EndsExactly | src/association.rs:391-401 | a byte string parses to a notification of the end if and only if it starts with an encoded association change to state 1, 3 or 4; that is, it has at least 20 bytes, type 0x8001 at offset 0 and one of these numbers at offset 8 |
| Notifications.EveryAssocChangeIsEncoded | src/notification.rs:99-113 | every buffer of full length with the association-change type is the encoding of some fields |
| Addresses.RawLayout | src/addr.rs:11-37 | byte by byte: family 2 or 10 in host order, port in network order, the address itself, zero padding, and flow information and scope of an IPv6 address in host order |
| Addresses.ToRaw | src/addr.rs:11-37 | fills a zeroed storage in place with the raw address and leaves the rest zero |
| Addresses.DecodeEncode | src/addr.rs:40-64 | reading back a raw address gives the address, whatever follows it |
| Addresses.EncodeDecode | src/addr.rs:40-64 | writing a decoded address restores its bytes, except the padding of IPv4 entries |
| Addresses.Pack | src/addr.rs:69-78 | the loop builds exactly the packed form |
| Addresses.ParseArray | src/addr.rs:85-106 | the loop yields exactly the walk and stays inside memory that the caller vouched for |
| Addresses.PackRoundTrip | src/addr.rs:69-106 | for every mixed list, parsing the packed bytes gives the list back and never leaves them |
| Addresses.ParsePacked | src/addr.rs:85-106 | a walk with a smaller count, with anything behind, gives exactly that prefix |
| Addresses.ParseStops | src/addr.rs:92-97 | a walk told of more entries stops at an entry of an unknown family, with everything before it |
| Addresses.PackedSplit | src/addr.rs:69-78 | packing distributes over concatenation |
| Addresses.PackedLength | src/addr.rs:69-78 | 16 bytes per IPv4 and 28 per IPv6 entry |
| Addresses.PackedPrefix | src/addr.rs:66-78 | packed bytes of one list start those of another only if the list starts the other |
| Addresses.PackedInjective | src/addr.rs:66-78 | different lists have different packed bytes |
| Addresses.BindLocal | src/association.rs:415-451 | whatever the kernel answers, success means that every local address, as the kernel decodes the bytes, is bound once and in order |
| SendPath.SinfoFlags | src/association.rs:85-97 | each option is set exactly by its own bit, no other bit is set, and every option can still be read back after narrowing to 16 bits (src/server.rs:235-242) |
| SendPath.KernelReadsCall | src/association.rs:260-273 | on either path and byte order the kernel finds exactly the data, stream, PPID, options (bits 0x0001, 0x0004, 0x0200 and no other) and time-to-live of the call, and on a one-to-many socket its association (src/server.rs:235-242) |
| SendPath.MetadataSurvives | src/association.rs:260-273 | stream and PPID given to `send_with` are what the receiver's info says, for any two byte orders |
| Descriptors.ConnectBound | src/association.rs:159-225 | for every answer of the kernel and every run of the wait, a dropped future included: the descriptor is closed exactly once, or open and owned by the caller, as soon as the call no longer waits; refused arguments (no peer address, two local ports) open nothing; the family is IPv6 if and only if some address is; a returned association starts on a socket to which all results about associations apply |
| Descriptors.BindImpl | src/server.rs:87-113 | the descriptor of a bind is closed once or owned by the caller if and only if it is not the registration that failed; then it is closed twice |
| Descriptors.FromRawFd | src/association.rs:103-112 | the descriptor is closed once or owned by the caller, or else left open with no owner, and the latter exactly if an option call fails |
| Descriptors.AcceptOne | src/listener.rs:150-152 | an accepted descriptor is closed once or owned by the caller if and only if the peer's family is known and no option call fails; otherwise it is left open with no owner |

## Left out

- The kernel's protocol (handshake, retransmission, congestion) and the foreign functions: replaced by the contracts stated in `Sockets.dfy`.
- Tokio's internals: only cached bits, epochs and the close of a semaphore are modelled; epochs do not wrap around. Of the closed bits that no guard clears, a hang-up is modelled; the other readings (the peer's shutdown with readable, an error alone or with writable) only add wake-ups, and the runs that show a call waiting for good do not meet them.
- `POLLNVAL` in `probe`: reported for a closed descriptor only, and the connect owns an open one.
- Wakeups.NoStrandedReceive: stated for receives made one at a time; `Wakeups.WokenUnlessSpoiled` is the exact result for any number.
- Connecting.NeverStranded: the socket error, the hang-up and the notification of a refusal appear in one step, as the source's comment describes them.
- ReceiveCalls.SctpAssociation.RecvMsg: speaks of one caller with no arrivals while it runs; concurrent callers are the subject of `Association.dfy`.
- `send_with` and `established` as loops: they are given as steps of a state machine on values, because what is promised of them is about interleavings; update in place is not captured there.
- Restarted associations and partial delivery that is aborted: the crate does not subscribe to the event that would announce the latter.
- SctpConfig, the PPID registry, Display implementations and the Python bindings: field setting, tables and glue.
- A message without a usable peer address in the runs of a one-to-many socket: returned as it is in `Association.dfy`; that the call reports it as an error is in `ReceiveCalls.SctpServer.Recv` only.
- The accept retry loop of the listener: only what becomes of its descriptor.
- Which errors the option calls, bind and listen return: only whether they fail, as an answer of the kernel.
- Time: INIT timeouts, time-to-live and fairness; progress is stated as "not waiting while decided" and as a bound on a call's own steps.
- Memory layout beyond field offsets: alignment of the casts to kernel structures.
