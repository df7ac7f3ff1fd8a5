# hrotti: routing, packets and session state, verified

hrotti is an MQTT 3.1 / 3.1.1 broker. This project models three parts of it in Dafny and proves what
they do on every input, every history and every run:

- **Routing.** The ten-level subscription table, the level walk that selects filters for a topic, the
  fold that gives each recipient one QoS, and retained messages. The simple specification is the
  broker's own recursive matcher.
- **The packet codec.** The Remaining Length field, packed header and flag bytes, length-prefixed
  fields, the list-valued packets, and framing of a byte stream by `ReadPacket`.
- **Session state.** Packet ids, the in-memory stores, one client's queues, and the whole broker as a
  step system in which frames, deliveries, sends, acknowledgements, connects and stops interleave. A
  delivery's walk, its row reads, and the look-up, connection test, store and send for each recipient
  are steps of their own, and so is a reply that waits for room.

| file | module | content |
|---|---|---|
| Levels.dfy | Levels | splitting at slashes, the matcher and its meaning |
| Qos.dfy | Qos | QoS arithmetic, the fold over one row and over many |
| Index.dfy | SubscriptionIndex | history, the table, the walk, the deliver list |
| Interleaved.dfy | Interleaved | delivery when the table changes between the reads |
| Messages.dfy, Retained.dfy | Messages, Retained | messages, setting and finding retained ones |
| Bytes.dfy, Length.dfy | Bytes, Length | readers, shifts and ors, Remaining Length |
| PacketBits.dfy, Packets.dfy, PacketIO.dfy | PacketBits, Packets, PacketIO | packets as values, and the packet objects' methods against them |
| Wire.dfy | Wire | the bytes of every packet and what is read from any bytes, in the standard's numbers |
| MessageIds.dfy, Persistence.dfy | MessageIds, Persistence | the id table and the stores |
| Session.dfy, ClientIO.dfy | Session, ClientIO | one client's steps as functions, and the client object's methods against them |
| Broker.dfy, BrokerSafety.dfy | Broker, BrokerSafety | the step system, which steps end the process, the invariant every other step keeps |
| BrokerAnswers.dfy | BrokerAnswers | what each step does, in plain terms: answers, stores, queues, connections, work for recipients |
| BrokerRuns.dfy, BrokerMoves.dfy | BrokerRuns, BrokerMoves | runs as the states they pass through, and what one step does to each part of a state |
| BrokerEnds.dfy | BrokerEnds | which events end a run, told from the events alone, and what holds in every run |
| BrokerStores.dfy | BrokerStores | which queued messages are stored, and which are not |
| BrokerDelivery.dfy, Conservation.dfy | BrokerDelivery, Conservation | what becomes of the work for one recipient, and of a whole deliver list |
| BrokerQueues.dfy | BrokerQueues | the order in which channels are emptied, and what a delivery sends, over runs |
| BrokerProgress.dfy | BrokerProgress | what is at work can go on, and comes to its end by its own steps |
| EndToEnd.dfy | EndToEnd | from the walk, or the search for retained messages, to the store |
| BrokerExamples.dfy | BrokerExamples | runs that show each exception happens |

Code that updates its state in place is a class whose methods are proved against functions of the old
state; what the code promises is proved about those functions. Ranging over a Go map is a loop that
picks an arbitrary remaining element. UUIDs are fresh numbers, and a string is its bytes as characters. Bytes are integers below 256; shifts and
ors are defined on integers and cut to the width Go gives them.

Where the code differs from its documentation, the model follows the code:

- The walk never looks for `#` at the sentinel level (broker/router.go:169-172), so `a/#` does not
  select `a`, although the matcher (broker/router.go:51-53) and section 4.7.1.2 of MQTT 3.1.1 say it does.
  `SelectionIsMatchButParent` gives the exact exception; `RepairedSelectionIsMatch` shows that looking there
  too makes walk and matcher equal. `Walk` carries both versions in the parameter `parentHash`.
- The comments at broker/client.go:301-302 say a PUBACK removes the PUBLISH from the outbound store. The
  deletion looks under the acknowledgement's own UUID, which `ReadPacket` has just drawn
  (packets/packets.go:134-168), so it removes nothing: `PubackDeletesExactly`, `PubackKeeps`,
  `NothingStoredIsLost`. A durable client that reconnects is sent everything again: `ReplayRepeatsEverything`.
- `Replace` (broker/memory_persistence.go:80-112) does not replace: the PUBREL joins the PUBLISH.
- What a peer or the timing can do ends the process. `InvStep` and `RunEndsExactly` say exactly when, whatever
  reply is still waiting (`FatalWithFullQueue`):
  - input: a SUBSCRIBE with a filter of more than nine levels, an UNSUBSCRIBE without topics, a PUBLISH whose
    payload length comes out negative (packets/publish.go:44-54), a connection whose first packet is not a
    CONNECT (broker/server.go:170-171);
  - a topic of more than nine levels whose tenth is the sentinel character, when a filter agrees with the
    nine before it (broker/router.go:174-176);
  - work for a recipient that has gone. `Stop` (broker/client.go:94-129) waits for the client's own
    goroutines only, not for those of a delivery (broker/router.go:206), of `FindRetained`
    (broker/router.go:125) or of the message with a generated client id (broker/server.go:229-235). They may find no client, no store (broker/memory_persistence.go:67), or a closed
    channel (broker/router.go:213): `StoppedBeforeLookUp`, `StoppedBeforeStore`, `StoppedBeforeSend`.
- A message can be queued without being stored: a durable client that reconnects clean between the two
  gets it from a store that is empty by then (`QueuedNotStored`). `QueuedIsStored` says exactly which queued
  messages are stored.
- A durable client that reconnects clean keeps its subscriptions: neither `InitClient`
  (broker/server.go:203-225) nor `Start` (broker/client.go:151-152) deletes them, although section 3.1.2.4 of
  MQTT 3.1.1 wants the old session discarded. `CleanSessionStartsWith` says which subscriptions a clean session
  starts with, `CleanSessionIsSubscribed` shows it happens.

## Model

| member | source | states |
|---|---|---|
| Levels.JoinSplit | broker/router.go:112-114 | Splitting a string at its slashes loses nothing: joining gives it back |
| Levels.SplitJoin | broker/router.go:112-114 | Splitting is the only way to write a string as slash-free levels |
| Levels.SplitInjective | broker/router.go:74 | Two strings have the same levels exactly when they are equal, which the key shortcut for retained messages rests on |
| Levels.SplitCharacters | broker/router.go:72-74 | Levels hold only characters of the string, and no slash |
| Levels.MatchMeaning | broker/router.go:43-67 | The recursive matcher accepts exactly when the levels agree up to the filter's first "#", or agree throughout at equal length; any topic, wildcards included |
| Levels.PlainRouteMatchesItself | broker/router.go:43-67 | A filter without wildcard levels matches only the topic with the same levels |
| Levels.PlainFilterMatchesItself | broker/router.go:72-86 | A filter text without "#" and "+" matches exactly the topic of the same text |
| Qos.FoldRow | broker/router.go:193-199 | The inner loop gives the merge of the row into the deliver list, whatever order the clients come in |
| Qos.FoldsOneMore | broker/router.go:192-200 | After one more row each client in some row is listed, and nobody else: at the message QoS or at its best QoS over the rows read, and at no more than either |
| Qos.FoldsUnique | broker/router.go:192-200 | That property fixes the deliver list |
| Qos.MergeAllFolds | broker/router.go:192-200 | Reading any sequence of rows yields that list |
| Qos.MergeAllOrderIndependent | broker/router.go:192-200 | Order and repetition of the rows do not matter |
| SubscriptionIndex.SubsMeaning | broker/router.go:118-144 | A subscription is held at a QoS exactly when the last operation that touched it added it at that QoS |
| SubscriptionIndex.AddedMeaning | broker/router.go:115-124 | A filter is in the table exactly when some operation added it; deletes never shrink the table |
| SubscriptionIndex.SubscriptionMap.AddSub | broker/router.go:109-124 | Keeps the table invariant and records the operation; fails exactly when the filter has more than nine levels, where the source indexes past its table |
| SubscriptionIndex.SubscriptionMap.RecordLevels | broker/router.go:119-124 | After the loop level i lists exactly the added filters under their i-th element, the new one included |
| SubscriptionIndex.SubscriptionMap.DeleteSub | broker/router.go:128-134 | Removes that client from that filter and nothing else |
| SubscriptionIndex.SubscriptionMap.DeleteSubAll | broker/router.go:136-144 | Removes that client from every filter and nobody else, whatever order the rows come in |
| SubscriptionIndex.SubscriptionMap.FirstLevel | broker/router.go:155-164 | Level 0 starts the live and "#" lists with exactly the right filters, for any topic |
| SubscriptionIndex.SubscriptionMap.NextLevel | broker/router.go:165-182 | Each live filter stays, turns into a "#" match or drops out at exactly the level that decides it; both lists stay exact, and duplicate-free unless the topic starts with a wildcard level |
| SubscriptionIndex.HashedIsNotLive | broker/router.go:165-182 | Unless the topic starts with a wildcard level, a filter decided by "#" is not live at any later level, so the two lists are disjoint |
| SubscriptionIndex.LeavesTableExactly | broker/router.go:165-186 | The walk runs past the ten-level table exactly for a topic whose tenth level is the sentinel character, when a stored filter of nine levels is live there |
| SubscriptionIndex.PlainTopicStays | broker/router.go:152-186 | A topic the standard allows never does, however many levels it has |
| SubscriptionIndex.NineLevelsLeave | broker/router.go:119-124 | Every stored filter of nine levels has a topic that does |
| SubscriptionIndex.SubscriptionMap.Walk | broker/router.go:146-187 | For any topic: fails exactly when it leaves the table, and otherwise returns exactly the added filters that its per-filter rule selects, each once unless the topic starts with a wildcard level |
| SubscriptionIndex.SelectionIsMatchButParent | broker/router.go:152-186 | That rule selects what the matcher accepts, except filters whose first "#" is directly below the topic's last level, and never those |
| SubscriptionIndex.RepairedSelectionIsMatch | broker/router.go:152-186 | If the walk also looked for "#" at the sentinel it would select exactly what the matcher accepts |
| SubscriptionIndex.ParentIsMissed | broker/router.go:169-172 | "a/#" and "a" are a case of the exception |
| SubscriptionIndex.ChosenByMatch | broker/router.go:152-192 | The set of selected filters, as written and repaired, in terms of the matcher |
| SubscriptionIndex.SubscriptionMap.DeliverList | broker/router.go:146-200 | For any topic that stays in the table the deliver list holds exactly the clients with a selected filter, each at the message QoS or at its best QoS over its selected filters, and at no more than either |
| SubscriptionIndex.FoldedRowsAreDeliverList | broker/router.go:192-200 | Folding the rows of the selected filters, read at one moment, gives that list |
| SubscriptionIndex.DeliverListUnique | broker/router.go:192-200 | There is only one such list, whatever order filters and clients are visited in |
| SubscriptionIndex.DeliverListMeaning | broker/router.go:146-200 | From history and matcher alone: the recipients are the clients holding an accepting filter; each QoS equals the message QoS or the best QoS held on those filters, and is at most both (section 3.3.5 of MQTT 3.1.1) |
| SubscriptionIndex.SubscriptionMap.AddSubscription | broker/subscriptions.go:6-17 | Adds each topic in order at its QoS and grants the QoS values asked for, in the order of the topics |
| SubscriptionIndex.AddOpsMeaning | broker/subscriptions.go:11-14 | The operations of a batch: the i-th adds the i-th topic at the i-th QoS |
| Interleaved.WalkLocked | broker/router.go:147-187 | The locked part leaves exactly the selected filters to be read, or fails where the walk does |
| Interleaved.ReadNext | broker/router.go:192-200 | One turn of the unlocked loop merges the row as the table holds it then |
| Interleaved.RunFolds | broker/router.go:187-200 | Whatever other goroutines do between the unlocked reads, the list is the fold of the rows as they were when read |
| Interleaved.ReadsInOrder | broker/router.go:192-193 | The reads follow the order the walk left, and none is skipped |
| Interleaved.ReadsAreMoments | broker/router.go:192-193 | Every row read is the row the table had at some moment of the run |
| Interleaved.KeptSubscriberIsDelivered | broker/router.go:187-200 | A client holding one selected filter at QoS q or better throughout is delivered, at q or better or else at the message QoS, and never above the message QoS |
| Interleaved.DeliveredHeldWhenRead | broker/router.go:187-200 | A client delivered held a selected filter, at exactly the QoS it gets, at the moment that row was read |
| Interleaved.QuietRunIsDeliverList | broker/router.go:187-200 | With nothing between the reads the result is the sequential deliver list |
| Retained.RetainedMeaning | broker/router.go:32-41 | A topic's retained message is the last one set for it, unless that one was empty |
| Retained.RetainedMap.SetRetained | broker/router.go:32-41 | An empty payload clears the topic, any other replaces its message |
| Retained.RetainedMap.FindRetained | broker/router.go:69-86 | By key or by scan, the list has exactly one fresh message for each retained topic the matcher accepts, with that topic and payload, at the retained QoS or the one asked for, whichever is lower |
| Bytes.FieldRoundTrip | packets/packets.go:229-253 | A length-prefixed field comes back exactly when its length fits sixteen bits, and leaves what follows |
| Bytes.FieldConsumes | packets/packets.go:217-247 | A non-empty field read from any buffer has consumed at least one byte |
| Bytes.Reader.Read | packets/packets.go:211-247 | A read takes what is there and leaves zeros for what is not |
| Length.EncodeLength | packets/packets.go:255-269 | The loop yields the base-128 digits of the length, continuation bits set |
| Length.DecodeLength | packets/packets.go:271-285 | Where it halts, the loop yields the accumulated value and leaves the bytes after the last digit |
| Length.DecodeLengthHaltsExactly | packets/packets.go:271-285 | The decoding loop halts exactly when the input is empty or a byte below 128 lies ahead |
| Length.LengthRoundTrip | packets/packets.go:255-285 | For every length a 64-bit int can hold, decoding the encoding gives the length modulo 2^32 and leaves the rest |
| Length.LengthIdentity | packets/packets.go:255-285 | Below 2^32 decoding inverts encoding |
| Length.FourBytesExactly | packets/packets.go:255-269 | One to four bytes exactly up to 268435455 (section 2.2.3 of MQTT 3.1.1) |
| Length.EncodingIsMinimal | packets/packets.go:255-285 | No byte string that decodes to the same length is shorter |
| PacketBits.HeaderRoundTrip | packets/packets.go:196-209 | The first byte keeps type, DUP, QoS and RETAIN exactly when type and QoS fit their bits |
| PacketBits.FlagsRoundTrip | packets/connect.go:45-76 | The CONNECT flags byte keeps every flag exactly when the will QoS is at most 3; the reserved bit is written 0 |
| Packets.ConnectRoundTrip | packets/connect.go:39-89 | CONNECT restores all flags and exactly the optional fields whose flags are set, for all lengths and flag combinations |
| Packets.PublishRoundTrip | packets/publish.go:27-55 | PUBLISH restores topic, id and payload, and the subtracted payload length is not negative |
| Packets.PairsRoundTrip | packets/subscribe.go:30-52 | SUBSCRIBE's counted-down length reaches 0 at the last pair, for lists of any length |
| Packets.SubscribeRoundTrip | packets/subscribe.go:26-53 | SUBSCRIBE restores id, topics and QoS values |
| Packets.FieldsRoundTrip | packets/unsubscribe.go:29-46 | UNSUBSCRIBE's loop recovers the topics before the first empty one |
| Packets.UnsubscribeRoundTrip | packets/unsubscribe.go:25-46 | UNSUBSCRIBE recovers all topics exactly when none is empty |
| Packets.BodyRoundTrip | packets/packets.go:76-96 | Every well-formed packet's body unpacks to the packet |
| Packets.ReadWritten | packets/packets.go:76-96 | ReadPacket takes exactly one packet off a stream that starts with its bytes |
| Packets.ReadWrittenExactly | packets/packets.go:76-96 | A written packet comes back, leaving what follows, exactly when it is well-formed |
| Packets.GotIsReadable | packets/packets.go:76-96 | Whatever the bytes, a packet that is read has fields and ids that fit sixteen bits, a QoS that fits two, and absent optional fields empty |
| Packets.ReadConsumes | packets/packets.go:76-96 | Reading a packet consumes at least one byte |
| Packets.StreamRoundTrip | packets/packets.go:76-96 | Any list of well-formed packets, written in a row, is read back in order to the last byte |
| Wire.PacketOnWire | packets/packets.go:196-201 | Every well-formed packet on the wire: 16 * type + 8 * DUP + 2 * QoS + RETAIN with the type number of its kind, then the length in base 128, then the fields in the standard's order, numbers and lengths high byte first, CONNECT's flags weighing 2, 4, 8, 32, 64 and 128 (sections 2.2 and 3.1 to 3.14 of MQTT 3.1.1) |
| Wire.LengthOnWire | packets/packets.go:255-269 | The length bytes, least significant first, add up to the length in base 128, and all but the last have their top bit set |
| Wire.LengthRead | packets/packets.go:271-285 | Any bytes of which all but the last have their top bit set, minimal or not, are read as their sum in base 128 modulo 4294967296, and no byte more is taken |
| Wire.FieldRead | packets/packets.go:229-247 | A field read from any buffer is as long as its first two bytes say, high byte first, holds what follows them, and zeros past the end |
| Wire.ReadOutcome | packets/packets.go:76-96 | What ReadPacket makes of any bytes: an error on no input, type 0 or 15, or fewer bytes than announced; a panic on a PUBLISH that announces less than its topic and id take; otherwise a packet, with what follows left |
| Wire.KindRead | packets/packets.go:134-168 | Which of the fourteen type numbers makes which kind of packet, and the header each bit of the first byte makes |
| Wire.PublishRead | packets/publish.go:44-55 | Topic, id and payload of a PUBLISH read from any bytes, at their places in the body |
| Wire.IdRead | packets/packets.go:217-227 | The id of a packet that is only an id is its first two bytes, high byte first |
| Wire.StandardSubscribe | packets/subscribe.go:43-53 | The bytes 82 06 00 01 00 01 61 00 are a SUBSCRIBE with id 1 to topic "a" at QoS 0 |
| PacketIO.Pack | packets/packets.go:196-201 | The header is the packed byte followed by the encoded length |
| PacketIO.ConnectPacket.Write | packets/connect.go:39-64 | Puts the packet's bytes on the wire and sets its remaining length |
| PacketIO.ConnectPacket.Unpack | packets/connect.go:66-89 | Sets exactly the fields the bytes prescribe, from any buffer |
| PacketIO.PublishPacket.Write | packets/publish.go:27-42 | Puts the packet's bytes on the wire and sets its remaining length |
| PacketIO.PublishPacket.Unpack | packets/publish.go:44-55 | Sets topic, id and payload; fails exactly when the payload length comes out negative |
| PacketIO.SubscribePacket.Write | packets/subscribe.go:26-41 | Writes id and pairs in order |
| PacketIO.SubscribePacket.Unpack | packets/subscribe.go:43-53 | Halts on every buffer and appends the pairs read |
| PacketIO.UnsubscribePacket.Write | packets/unsubscribe.go:25-38 | Writes id and topics in order |
| PacketIO.UnsubscribePacket.Unpack | packets/unsubscribe.go:40-46 | Halts on every buffer and appends the topics before the first empty string |
| PacketIO.ReadPacket | packets/packets.go:76-96 | On every input reads what the value-level ReadPacket reads, error, panic and endless-loop cases included |
| MessageIds.IssueMeaning | broker/messageids.go:39-49 | An issued id is the least free one in 1..65534; 0 is issued exactly when all are in use |
| MessageIds.MessageIDs.GetMsgID | broker/messageids.go:39-49 | The search loop issues that id and records it |
| MessageIds.MessageIDs.InUse | broker/messageids.go:51-55 | Tells whether the id is issued and not freed |
| MessageIds.MessageIDs.FreeID | broker/messageids.go:57-61 | Frees that id and no other |
| Persistence.MemoryPersistence.Open | broker/memory_persistence.go:30-38 | Gives the client two empty stores |
| Persistence.MemoryPersistence.Close | broker/memory_persistence.go:40-46 | Removes both stores of the client |
| Persistence.MemoryPersistence.Add | broker/memory_persistence.go:48-78 | Adds under a new UUID, leaves an existing entry alone, touches one store only |
| Persistence.MemoryPersistence.Delete | broker/memory_persistence.go:126-154 | Deletes under that UUID and reports whether there was an entry |
| Persistence.MemoryPersistence.GetAll | broker/memory_persistence.go:156-169 | Lists every outbound entry once, in any order |
| Persistence.MemoryPersistence.Exists | broker/memory_persistence.go:171-179 | Tells whether both stores exist |
| Session.HandKeeps | broker/router.go:206-218 | Handing over above QoS 0 adds exactly one entry, connected or not, queue full or not; queues stay bounded |
| Session.HandZeroKeeps | broker/router.go:220-225 | Handing over at QoS 0 leaves the store alone |
| Session.HandMeaning | broker/router.go:206-225 | A message handed to a connected client goes to the end of its queue if there is room and is dropped if not; above QoS 0 it is stored as well, connected or not |
| Session.SendKeeps | broker/client.go:406-415 | Sending keeps every store entry but for its id |
| Session.SendMeaning | broker/client.go:406-415 | The message in front is taken. At QoS 1 and 2 the least free id in 1..65534 goes into the table under the message's UUID and into the stored message, or 0 into the stored message if none is free; at any other QoS table and store stay |
| Session.PubackKeeps | broker/client.go:299-308 | A PUBACK read from the connection leaves the outbound store as it was |
| Session.PubackDeletesExactly | broker/client.go:299-308 | It would delete an entry exactly if it carried that entry's UUID and an id in use |
| Session.AckMeaning | broker/client.go:299-339 | PUBACK and PUBCOMP free the id they carry and no other; a PUBACK for an id in use deletes what is stored under its own UUID |
| Session.PubrecKeeps | broker/client.go:310-320 | A PUBREC adds a PUBREL under its own UUID, keeps the PUBLISH, and keeps the id in use |
| Session.PubrecMeaning | broker/client.go:310-320 | A PUBREC for an id in use puts a PUBREL with that id at the end of the priority queue if there is room, and into the store under its own UUID; any other does nothing |
| Session.PubcompKeeps | broker/client.go:332-339 | A PUBCOMP leaves the store alone |
| Session.ReplayKeeps | broker/client.go:157-171 | Replay queues only stored messages and keeps every entry but for its DUP flag |
| Session.ReplayMeaning | broker/client.go:157-171 | After replay the queue holds each stored message once, as a duplicate above QoS 0, the priority queue a PUBREL for each stored one, and the id table is empty |
| Session.StepIds | broker/client.go:299-339 | An id becomes used only by being issued while free, and free only by PUBACK or PUBCOMP carrying it |
| Session.IdsMeaning | broker/client.go:299-415 | Over every run an id is in use exactly when issued and not freed since |
| Session.IssuedIdsDiffer | broker/client.go:406-415 | Two sends carry the same id only if it was freed between them (section 2.3.1 of MQTT 3.1.1) |
| ClientIO.Client.Deliver | broker/router.go:203-226 | A connected client's queue ends in the message if it had room and is as it was if not, and above QoS 0 the store gains the message under its UUID: the hand-over step |
| ClientIO.Client.Send | broker/client.go:406-415 | The oldest message goes on the wire, at QoS 1 and 2 with the least free id, which the table and the stored message show too, and at any other QoS as it was |
| ClientIO.Client.ReceivePuback | broker/client.go:299-308 | Carries out the PUBACK step |
| ClientIO.Client.ReceivePubrec | broker/client.go:310-320 | For an id in use the priority queue ends in a PUBREL with that id if it had room: the PUBREC step, HandleFlow included |
| ClientIO.Client.ReceivePubcomp | broker/client.go:332-339 | Carries out the PUBCOMP step |
| ClientIO.Client.ReplayAll | broker/client.go:157-171 | The loop gets through exactly when messages and PUBRELs fit their channels, and then every entry has been marked and queued once |
| ClientIO.Client.MarkAndQueue | broker/client.go:158-170 | One turn marks the stored entry and queues it, unless its channel is full |
| ClientIO.Client.Replay | broker/client.go:151-172 | Resuming a session carries out the replay step, exactly when everything stored fits |
| Session.PersistKeeps | broker/router.go:211-217 | Storing for a recipient adds exactly one entry |
| Session.EnqueueKeeps | broker/router.go:212-215 | Queueing a stored message keeps the queue bounded and stored |
| BrokerSafety.InvTaskStep | broker/router.go:203-226 | A step for a recipient ends the process exactly when it meets no client, no store or a closed channel, and otherwise keeps the invariant |
| BrokerSafety.InvConnect | broker/server.go:200-242 | Connecting keeps the invariant, deliveries at work or not: new client, known client with a clean session, resumed client |
| BrokerSafety.InvCleanStop | broker/client.go:94-129 | So does the stop of a clean session |
| BrokerSafety.InvDurableStop | broker/client.go:94-129 | So does the stop of a durable one |
| BrokerSafety.InvStep | broker/client.go:205-418 | An enabled step ends the process exactly at fatal input, at a topic that leaves the table, or at work that meets nothing; every other step keeps the invariant |
| BrokerEnds.RunEndsExactly | broker/router.go:203-226 | Told from the events alone: an event that can come next ends the process exactly when it is fatal input, a topic that leaves the table of filters subscribed so far, or work for a recipient that was gone when looked up, has no session left, or has stopped since |
| BrokerEnds.KnownExactly | broker/client.go:117-126 | Every state knows exactly the clients that the connects and stops so far leave there, each with both stores |
| BrokerEnds.GoneMeaning | broker/client.go:117-126 | A client id is gone exactly when it never connected, or its last connection was clean and has stopped |
| BrokerEnds.LateIsMeetsNothing | broker/router.go:203-226 | What the goroutine at work knows of its client agrees with the connects and stops since its look-up |
| BrokerEnds.NothingIsMissing | broker/router.go:202-226 | In every state of a run each subscriber is a known client with both stores, and no queue exceeds its depth |
| BrokerEnds.CleanSessionStartsWith | broker/server.go:203-225 | A clean session starts with exactly the subscriptions of the durable session before it, and with none if there was none |
| BrokerEnds.FrameEnabled | broker/client.go:252-365 | Every frame can be handled as soon as the last reply has been got rid of |
| BrokerEnds.FatalFrames | packets/publish.go:44-55 | The frames that end the process, in terms of the packet in them |
| BrokerAnswers.PublishAnswered | broker/client.go:274-297 | A PUBLISH at QoS 1 appends PUBACK and one at QoS 2 PUBREC, under its own id, if there is room, and at QoS 0 and 3 nothing; above QoS 0 the inbound store gains exactly this message; it is retained if it says so; nothing else changes |
| BrokerAnswers.PubrecAnswered | broker/client.go:310-320 | A PUBREC for an id in use appends PUBREL under that id and stores it; any other does nothing |
| BrokerAnswers.PubrelAnswered | broker/client.go:324-328 | A PUBREL appends PUBCOMP under its id, and both stores stay as they are |
| BrokerAnswers.AckHandled | broker/client.go:299-339 | A PUBACK or PUBCOMP frees its id and changes nothing else |
| BrokerAnswers.SubscribeHandled | broker/client.go:343-350 | A SUBSCRIBE adds every filter at its QoS, in order, starts a search for each, and leaves a SUBACK with its id that grants the QoS values asked for |
| BrokerAnswers.UnsubscribeHandled | broker/client.go:352-358 | An UNSUBSCRIBE removes the first of its topics and no other, and leaves an UNSUBACK with its id |
| BrokerAnswers.ReplyQueued | broker/client.go:350-363 | The reply left to be sent goes to the end of the priority queue |
| BrokerAnswers.MessageSent | broker/client.go:406-415 | In the broker too the message in front is sent, under the least free id at QoS 1 and 2 |
| BrokerAnswers.TakenOver | broker/server.go:202-224 | A clean connection of a known client keeps its Client object and packet ids and starts with empty queues and stores |
| BrokerAnswers.Admitted | broker/server.go:226-241 | An unknown client starts with empty ids, queues and stores; a generated client id is on its way to it as a QoS 1 message |
| BrokerAnswers.Resumed | broker/client.go:151-172 | A durable connection of a known client starts with an empty id table and everything stored in its queues, once each, marked as duplicates |
| BrokerAnswers.Stopped | broker/client.go:94-129 | The stop of a clean session forgets client, stores and subscriptions, that of a durable one empties the queues only |
| BrokerAnswers.Dispatched | broker/router.go:203-208 | Exactly the clients listed get work, with the message's topic and payload at the listed QoS |
| BrokerAnswers.Searched | broker/router.go:69-88 | Each retained topic found is handed out with its retained topic and payload at the lower QoS |
| BrokerAnswers.CheckedAtZero | broker/router.go:220-225 | A recipient at QoS 0 is sent the topic and payload at QoS 0 if its Client object is connected, and nothing otherwise |
| BrokerAnswers.PersistedFor | broker/router.go:207-217 | The outbound store gains exactly the message, which is sent afterwards if the client was connected when tested |
| BrokerAnswers.EnqueuedFor | broker/router.go:212-215 | The message goes to the end of the recipient's queue if there is room and is dropped if not |
| BrokerAnswers.FrameMeaning | broker/client.go:252-365 | What each type number in a frame's first byte is handled as, with the fields of the packet in it |
| BrokerAnswers.FirstFrameMeaning | broker/server.go:170-171 | A connection survives its first packet exactly if that has type 1 or its length never ends |
| BrokerMoves.UndisturbedIsHand | broker/router.go:206-225 | The steps for one recipient, undisturbed, are the hand-over that the client object carries out |
| BrokerStores.QueuedIsStored | broker/router.go:88-98 | In every state of a run a queued message above QoS 0 is in its client's outbound store if and only if it is no generated client id and its store was not emptied while it was on its way; otherwise it is in nobody's store |
| BrokerStores.LooseNowhereStep | broker/server.go:203-226 | A message that goes without its store, at whatever step, is in no client's store afterwards |
| BrokerQueues.FirstInFirstOut | broker/client.go:387-414 | Over any run between two connections or stops of a client, what was in its queue followed by what entered is what was sent followed by what is left, in that order; the same for the priority queue |
| BrokerQueues.SentAsPublished | broker/router.go:203-226 | Whenever a delivery sends to a recipient, it sends the topic and payload it was started with, at the listed QoS, not as a duplicate, not as retained, and without an id |
| BrokerQueues.ZeroFate | broker/router.go:220-225 | A recipient at QoS 0 that is owed nothing any more was sent the message or found not connected |
| BrokerProgress.TaskFinishes | broker/router.go:203-226 | From any state, four of its own steps at most bring the work for a recipient to its end, unless one of them ends the process as stated |
| BrokerProgress.TaskGoesOn | broker/router.go:203-226 | In every state exactly one of those steps can come next |
| BrokerProgress.GatherFinishes | broker/router.go:192-203 | From any state a delivery's own steps, one for each row left and one more, bring it to its end |
| BrokerProgress.ConnectsExactly | broker/server.go:200-242 | A client without a connection can connect clean at any time, and resume a session exactly if everything stored fits the new channels |
| BrokerProgress.RoomCanBeMade | broker/client.go:387-416 | A full channel of a connected client can always be sent from, after which it has room |
| BrokerProgress.WaitsForRoomOnly | broker/client.go:350-363 | A reply or greeting for a connected client waits for room and for nothing else |
| BrokerDelivery.StoreStep | broker/client.go:205-418 | No step short of discarding the session takes an entry out of the outbound store; new messages come only from the delivery at work |
| BrokerDelivery.InboundStep | broker/client.go:369-381 | Nor out of the inbound store: the broker's own acknowledgements delete nothing |
| BrokerDelivery.TaskStored | broker/router.go:207-217 | Storing for one recipient adds exactly the delivery's message, as a new entry |
| BrokerDelivery.TaskFate | broker/router.go:203-226 | In any run a recipient's message is owed until its one storing step; from then on the store holds exactly one entry for it until the session is discarded, and none after that |
| Conservation.DeliveryConserved | broker/router.go:203-226 | In any run, once a recipient above QoS 0 is owed nothing, it was stored for once, and has exactly one entry of the delivery if and only if its session was not discarded since |
| Conservation.OthersSpared | broker/router.go:203-226 | Whoever is not on the list above QoS 0 never has an entry of the delivery |
| Conservation.FoundConserved | broker/router.go:87-106 | The same for each retained message found for a new subscription |
| Conservation.FoundMeaning | broker/router.go:69-86 | The search finds the retained topics the matcher accepts, each once, at the retained QoS or the one asked for, and at no more than either |
| Conservation.NothingStoredIsLost | broker/client.go:299-339 | No run short of a discarded session loses a stored entry, acknowledgements included |
| Conservation.ReplayRepeatsEverything | broker/client.go:151-172 | A durable client that reconnects is sent every message ever stored for it, acknowledged or not, as a duplicate |
| EndToEnd.MovesRun | broker/router.go:187-200 | While a delivery gathers its list, a run of the broker is an interleaved delivery |
| EndToEnd.ListedHeldWhenRead | broker/router.go:192-200 | Whoever is on the list held a selected filter, at exactly the QoS listed, when its row was read |
| EndToEnd.KeptSubscriberIsStored | broker/router.go:146-227 | From walk to store: a client that holds one selected filter while the list is gathered is stored for once, at its QoS or better or else at the message QoS, and has exactly one entry if and only if its session was not discarded since, whatever others do and wherever the client itself goes offline and back |
| EndToEnd.StoredHeldWhenRead | broker/router.go:146-227 | Whoever has an entry of the delivery held a selected filter above QoS 0 when its row was read |
| EndToEnd.RetainedAt | broker/router.go:32-41 | In every state of a run the retained messages are those the PUBLISH packets so far left there |
| EndToEnd.RetainedIsStored | broker/router.go:69-107 | From PUBLISH to store: for each topic the matcher accepts whose last retained message was not empty, a new subscription above QoS 0 is stored for once, at the lower QoS, and has exactly one entry if and only if its session was not discarded since |
| BrokerExamples.StoppedBeforeLookUp | broker/router.go:204-209 | For any client id and filter: a clean session that stops before the look-up ends the process |
| BrokerExamples.StoppedBeforeStore | broker/memory_persistence.go:66-68 | So does one that stops between look-up and store |
| BrokerExamples.StoppedBeforeSend | broker/client.go:106-108 | So does a durable one that stops between store and send |
| BrokerExamples.QueuedNotStored | broker/server.go:203-226 | A clean reconnection between store and send leaves the message queued and not stored |
| BrokerExamples.CleanSessionIsSubscribed | broker/server.go:203-225 | A clean reconnection of a durable client is still subscribed |
| BrokerExamples.FatalWithFullQueue | broker/client.go:343-359 | A fatal SUBSCRIBE or UNSUBSCRIBE ends the process even when its reply would have had to wait |
| BrokerExamples.MalformedPublishIsFatal | packets/publish.go:44-55 | The frame 30 00 ends the process |
| BrokerExamples.SilentConnectionIsFatal | broker/server.go:170-171 | So does a connection closed before its first packet |

## Left out

- SelectionIsMatchButParent: topics with wildcard or NUL levels, which the standard forbids (sections 1.5.3 and 4.7.1 of MQTT 3.1.1), and filters with NUL levels; the walk itself is specified for every topic.
- DecodeLength: the method asks for input on which the length loop halts, since it cannot be proved to end elsewhere; DecodeLengthHaltsExactly says which inputs those are, and ReadPacket answers Hangs on the others.
- LengthRead: numbers of more than 613566756 bytes, at which the shift count itself wraps around.
- RunEndsExactly: assumes one live connection per client id. Connecting, stopping and handling one packet up to its reply are a step each, so what other goroutines do between the parts of one of them is not captured.
- FindRetained in the broker's steps: one search reads the retained messages at one moment, and each message found looks up its client for itself.
- Walk in the broker's steps: any topic may be published at any time; it is not tied to the PUBLISH or the will that causes it. Nor is Connect tied to the bytes of its CONNECT.
- Two goroutines at work in one Go map at the same instant, which the runtime may answer by ending the process: the model reads a row, and changes it, at one moment.
- The shared message objects between queue and store are values; the id and DUP updates are made in both places, other aliasing is not captured.
- The broker-wide steps of broker/server.go and of connecting and stopping are modelled on values, as a step system; the sharing of one Client object between goroutines is not captured.
- StopForTakeover and two connections under one client id.
- Liveness: that the goroutines are scheduled is not assumed, so only what can happen is proved (BrokerProgress). A client that stops while a reply waits for room may never finish stopping, and a resumed client whose stored messages exceed the queue never finishes connecting.
- Validate of CONNECT, String and Details: direct branches on fields.
- AddBatch of the stores: not called.
- Locks as such: each locked operation is one step.
- Keep-alive timing, sockets, listeners, HTTP, websockets, logging, configuration and the plugins.
- Topics starting with "$" and the retain flag on retained deliveries: the broker does nothing about them.
