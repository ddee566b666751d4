# A verified model of the Zenbook A14 drivers

Dafny 4.11. `dafny verify dfyconfig.toml` checks everything.

The project models four parts of the repository and proves what they are relied on for.

**The SSC human-presence client** (`kernel/aos/`). `Bytes`, `Varint`, `Fields`, `Request` and `Report`
are the wire codec: the loops of the source, over byte arrays and moving cursors, are proved against
what the bytes mean (sums of 7-bit groups, little-endian numbers, lists of fields), and these meanings
against each other: round trips, locality, composition. The format is the one of the Protocol Buffers
Encoding specification, sections "Base 128 Varints" and "Message Structure".

`HpdState` says what each section under the state lock does to the driver's fields. `HpdDevice` is the
driver object with those sections and the report parser as methods, and `HpdReports` says what a report
does to its fields, message by message. `HpdClient` runs the operations that
hold `op_lock` (connect, discover, enable, disconnect) as straight-line methods, with the sections of all
other threads running between their accesses; initialising, releasing and sending have the handle as a
precondition. `Lifecycle` interleaves everything: the ordered workqueue, suspend, resume and remove, the
service lookup, the report callback and any number of user threads, one step for each lock section, lock
operation, library call or unlocked access. Calls end as they like and received bytes are arbitrary.
`LifecycleSafety` holds the invariant, `LifecycleProof` its preservation, `LifecycleTheorems` what it
means for every run, `LifecycleProgress` the absence of deadlock and livelock, `LifecycleService` that no request for a
connection is lost, `LifecycleLoss` a service that is, `LifecycleEvents` that flags and writes follow what
happened, and `LifecycleAck` and `LifecycleRace` whose acknowledgement an attempt accepts.

**The EC fan driver** (`asus_zenbook_a14_ec.c`). `Mailbox` is the controller behind its three window
registers: every transfer may fail with or without its effect, three attempts are made, and a triggered
command completes at any time. The settled registers (those after the command in flight) are what the
compound operations are specified by, and any sequence of `ec_lock` sections is a register history.
`FanModes` says what each `mode_lock` section does, given how its accesses end; `FanDevice` is the driver
on top of the mailbox, other mailbox users included; `FanRuns` adds time, the safety monitor, suspend,
resume and shutdown.

**The raw HID command attribute** (`hid_asus_ec.c`). `HidText` has the tokenizer and the printer, an
independent word-by-word reading, and the round trips.

**The power-profiles bridge** (`scripts/asus-zenbook-a14-ppd-bridge.py`). `ProfileHolds` has the service
object, its calls as functions, and holds defined from the call history alone.

Where the code does less than one would expect, the model keeps the code, shows a run or an input, and
says exactly when the code does meet the expectation:

- a report body taken for a frame: `Report.FramingAmbiguityExample`, `Report.FramingUnambiguous`;
- an acknowledgement not received since the handshake was sent: `LifecycleRace.EarlierAckAccepted`, `LifecycleAck.AnswersItsHandshake`;
- a service that is there and has no client: `LifecycleLoss.ReturningServiceIsLost`, `LifecycleService.ServiceIsServed`;
- a PWM nobody wrote: `Mailbox.ClearingCanZeroPwm`, `Mailbox.ClearingBringsNothingNew`;
- a tick that is put off: `FanRuns.WritesPostponeTicks`, `FanRuns.MonitorChanges`, `FanRuns.DueWithinPeriod`;
- manual mode after a shutdown: `FanRuns.ManualAfterShutdown`, `FanRuns.AfterShutdown`;
- words that the scanner joins: `HidText.OtherSpaceJoinsWords`, `HidText.FieldsAreWords`;
- refused holds that stay and sets that fail: `ProfileHolds.RefusedHoldStays`, `ProfileHolds.SetTakesEffect`.

Faults of the lifecycle (`Lifecycle.Fault`) are recorded in the state when they happen and never removed,
so that a run without faults is a run in which none ever happened.

## Model

| member | source | states |
|---|---|---|
| Bytes.PutLe16 | kernel/aos/qcom_ssc_hpd_protocol.c:9-13 | stores the two low bytes of the value, least significant first, and nothing else |
| Bytes.PutLe32 | kernel/aos/qcom_ssc_hpd_protocol.c:15-21 | stores the four-byte little-endian field and nothing else |
| Bytes.PutLe64 | kernel/aos/qcom_ssc_hpd_protocol.c:23-29 | the shifting loop stores the eight-byte little-endian field and nothing else |
| Bytes.GetLe32 | kernel/aos/qcom_ssc_hpd_protocol.c:31-35 | returns the number the four bytes stand for |
| Bytes.GetLe64 | kernel/aos/qcom_ssc_hpd_protocol.c:37-45 | the accumulating loop returns the number the eight bytes stand for |
| Bytes.LeRoundTrip | kernel/aos/qcom_ssc_hpd_protocol.c:9-45 | reading a little-endian field gives the value written, cut to the width |
| Bytes.FromLeRoundTrip | kernel/aos/qcom_ssc_hpd_protocol.c:9-45 | writing back what was read restores the bytes: with the row above, the writers and readers are mutual inverses |
| Varint.PutVarint | kernel/aos/qcom_ssc_hpd_protocol.c:47-63 | writes the shortest encoding, returns its length or 0 when it does not fit, and never writes past the capacity |
| Varint.GetVarint | kernel/aos/qcom_ssc_hpd_protocol.c:65-82 | the loop that ors shifted 7-bit groups into a 64-bit word decodes exactly what the group sum says, cursor included |
| Varint.DecodeEncode | kernel/aos/qcom_ssc_hpd_protocol.c:47-82 | for every u64, with any bytes before and after, reading back gives the value and consumes exactly the 1 to 10 bytes written |
| Varint.ReencodeNeverLonger | kernel/aos/qcom_ssc_hpd_protocol.c:65-82 | a decoded value is the sum of the groups modulo 2^64, of a tenth byte only the lowest bit counts, and encoding it again never takes more bytes than were consumed |
| Fields.PbNext | kernel/aos/qcom_ssc_hpd_protocol.c:92-140 | the cursor-moving reader returns exactly the field, end or error of the specification |
| Fields.NextAdvances | kernel/aos/qcom_ssc_hpd_protocol.c:98-139 | a field that was read strictly advances the cursor, stays inside the buffer, and its data is the slice that ends at the cursor |
| Fields.NextOfWrite | kernel/aos/qcom_ssc_hpd_protocol.c:92-140 | every field the format can carry reads back as itself wherever it stands, and nothing else is consumed |
| Fields.ParseOfWriteAll | kernel/aos/qcom_ssc_hpd_protocol.c:92-140 | a message written field by field parses to exactly those fields and ends clean |
| Fields.ParseAppend | kernel/aos/qcom_ssc_hpd_protocol.c:92-140 | a well-formed buffer followed by any bytes parses to its own fields and then those of the rest |
| Fields.ParsePrefix | kernel/aos/qcom_ssc_hpd_protocol.c:92-140 | whatever follows, fields already read are read again first |
| Fields.Canonical | kernel/aos/qcom_ssc_hpd_protocol.c:92-140 | writing back the fields of any buffer gives a clean message with the same fields that is never longer |
| Fields.NumberAliases | kernel/aos/qcom_ssc_hpd_protocol.c:104 | the field number keeps 32 bits of the tag: a tag that carries more reads as the small number |
| Request.BuildClientRequest | kernel/aos/qcom_ssc_hpd_protocol.c:142-178 | builds exactly the framed envelope when the SUID is valid, the capacity at least 40 and large enough, and the payload at most 900 bytes, else returns 0; nothing past the capacity is written |
| Request.WriteHeader | kernel/aos/qcom_ssc_hpd_protocol.c:152-169 | writes exactly the envelope up to the payload tag and leaves the rest of the buffer alone |
| Request.WritePayload | kernel/aos/qcom_ssc_hpd_protocol.c:170-175 | writes the payload behind its length, or reports that it does not fit |
| Request.FrameRoundTrip | kernel/aos/qcom_ssc_hpd_protocol.c:142-178 | the u16 prefix equals the body length, and the body parses to fields 1, 2, 3, 4 in order and gives back both SUID halves, the message id, 08 01 10 00 and the payload |
| Request.BuildSuidRequest | kernel/aos/qcom_ssc_hpd_protocol.c:180-213 | through the 160-byte scratch buffer builds exactly the discovery frame for names of 1 to 120 bytes, else returns 0 |
| Request.SuidPayloadRoundTrip | kernel/aos/qcom_ssc_hpd_protocol.c:191-209 | parsing a SUID request recovers the name and the two trailing flags through both nesting levels |
| Request.SuidPayloadLengths | kernel/aos/qcom_ssc_hpd_protocol.c:191-209 | for 1 to 120 bytes the hard-coded inner length is right, both inner varints take one byte, 160 bytes suffice, and the payload length takes two bytes exactly at 120 |
| Request.BuildHandshakeRequest | kernel/aos/qcom_ssc_hpd_protocol.c:215-233 | builds the 48-byte handshake frame for a valid SUID, or returns 0 |
| Request.BuildHpdRequest | kernel/aos/qcom_ssc_hpd_protocol.c:235-249 | builds the 40-byte configuration frame with the 1.5 m threshold, or returns 0 |
| Request.HandshakeFrame | kernel/aos/PROTOCOL.md:79-87 | the handshake frame of any SUID is the documented one around the two halves of the SUID |
| Request.ConfigurationFrame | kernel/aos/qcom_ssc_hpd_protocol.c:235-249 | the configuration frame of any SUID byte by byte, with the bits of 1.5 as its payload |
| Request.SuidRequestFrame | kernel/aos/qcom_ssc_hpd_protocol.c:180-213 | the discovery frame for any name of up to 119 bytes, byte by byte, to the service whose SUID is all 0xab |
| Report.DispatchAppend | kernel/aos/qcom_ssc_hpd_protocol.c:363-394 | events of a well-formed body followed by any bytes are its events and then those of the rest |
| Report.DispatchPrefix | kernel/aos/qcom_ssc_hpd_protocol.c:363-394 | a malformed or truncated tail never suppresses an earlier event |
| Report.FramingUnambiguous | kernel/aos/qcom_ssc_hpd_protocol.c:369-372 | a body and the same body behind its length prefix dispatch the same events exactly when the first two bytes do not read as the length of the rest, or dropping them loses nothing; a second byte of 4 or more suffices up to 1024 bytes |
| Report.FramingAmbiguityExample | kernel/aos/qcom_ssc_hpd_protocol.c:369-372 | the condition can fail: a 276-byte body that loses its event when taken for a frame |
| Report.DispatchOfWrite | kernel/aos/qcom_ssc_hpd_protocol.c:374-393 | events written one after the other are dispatched as they were written |
| Report.LastCounts | kernel/aos/qcom_ssc_hpd_protocol.c:376-389 | of several ids, and of several payloads, in one event the last counts |
| Report.FoundSuidIsValid | kernel/aos/qcom_ssc_hpd_protocol.c:275-279 | a discovery event acts only with a SUID that is not all zero |
| Report.SuidEventRoundTrip | kernel/aos/qcom_ssc_hpd_protocol.c:251-297 | a discovery answer reaches the slot of the sensor it names with the SUID it carries |
| Report.SuidAnswer | kernel/aos/qcom_ssc_hpd_protocol.c:251-297 | a well-formed discovery answer is taken exactly when its name is one of the three sensors and its SUID not zero |
| Report.SensorNames | kernel/aos/qcom_ssc_hpd.c:200-209 | the three names are spelled as the driver spells them |
| Report.AckAccepted | kernel/aos/qcom_ssc_hpd_protocol.c:310-318 | every acknowledgement is taken as one, and stores a zero error exactly when its first number has zero low 32 bits |
| Report.AckEventRoundTrip | kernel/aos/qcom_ssc_hpd_protocol.c:310-318 | an acknowledgement written with any other fields around its number stores that number cut to a signed 32-bit error |
| Report.PresenceEventRoundTrip | kernel/aos/qcom_ssc_hpd_protocol.c:322-345 | a written 1 becomes presence, a 2 absence, and any other number changes nothing |
| HpdState.ReportKeeps | kernel/aos/qcom_ssc_hpd_protocol.c:278-292 | a report keeps valid slots valid, completes a discovery only by filling its slot with a valid SUID, and touches no lifecycle flag |
| HpdReports.ReportStores | kernel/aos/qcom_ssc_hpd_protocol.c:251-394 | after a report of any messages, framed or not, each slot, completion, error and the reading are the last ones told, and what was not told is as before |
| HpdReports.OneReported | kernel/aos/qcom_ssc_hpd_protocol.c:251-361 | a report of one message changes exactly what it tells: 1 stores presence 1 and 2 stores presence 0, both valid, any other number nothing; an acknowledgement stores its number as a signed 32-bit error, or -74 without one; an answer fills the slot of the sensor it names; a garbled answer, a zero SUID, an unknown name or id change nothing |
| HpdState.RemovalIsFinal | kernel/aos/qcom_ssc_hpd.c:358-366 | after the section of remove no sequence of sections of any thread, resumes included, lets the driver run, connect or reconnect |
| HpdDevice.SscHpd.ClearForDisconnect | kernel/aos/qcom_ssc_hpd.c:137-147 | the section resets exactly the fields of a disconnect, field by field, and says whether a client is to be released |
| HpdDevice.SscHpd.CheckConnect | kernel/aos/qcom_ssc_hpd.c:172-179 | a connection is due exactly when the service is present, no client exists, and the driver is neither suspended nor removed |
| HpdDevice.SscHpd.NewServer | kernel/aos/qcom_ssc_hpd.c:232-241 | marks the service present and asks for a connection exactly when the driver runs |
| HpdDevice.SscHpd.DelServer | kernel/aos/qcom_ssc_hpd.c:252-257 | marks the service absent and asks for a disconnection exactly when the driver runs |
| HpdDevice.SscHpd.BeginAttempt | kernel/aos/qcom_ssc_hpd_transport.c:217-229 | the gate of an attempt; past it the acknowledgement is re-armed and the error pending |
| HpdDevice.SscHpd.ParseSuidPayload | kernel/aos/qcom_ssc_hpd_protocol.c:251-297 | updates the object as the specified effect of the payload, name buffer and partial fields included |
| HpdDevice.SscHpd.ScanSuidEvent | kernel/aos/qcom_ssc_hpd_protocol.c:254-278 | the loop over the fields of a discovery answer computes the name buffer, the SUID and whether the end was clean |
| HpdDevice.SscHpd.ScanSuid | kernel/aos/qcom_ssc_hpd_protocol.c:266-274 | the inner loop keeps the last of each SUID half |
| HpdDevice.SscHpd.FindNumber | kernel/aos/qcom_ssc_hpd_protocol.c:312-317 | the loop finds the first varint field numbered 1 |
| HpdDevice.SscHpd.ParseEventField | kernel/aos/qcom_ssc_hpd_protocol.c:376-389 | the loop keeps the last message id and the last payload |
| HpdDevice.SscHpd.ParseEvent | kernel/aos/qcom_ssc_hpd_protocol.c:299-361 | the fields follow the effect of the event, which HpdReports.OneReported pins field by field |
| HpdDevice.SscHpd.ParseReport | kernel/aos/qcom_ssc_hpd_protocol.c:363-394 | the doubly nested loop terminates and leaves the fields as the events of the report, in order, leave them; HpdReports.ReportStores says what that is |
| HpdDevice.SscHpd.ParseBody | kernel/aos/qcom_ssc_hpd_protocol.c:374-393 | the outer loop applies the events of all fields in order |
| HpdDevice.SscHpd.ReportCallback | kernel/aos/qcom_ssc_hpd_transport.c:156-166 | drops empty and oversized reports; after the report of any messages the fields hold the last word on each, so presence 1 for a number 1 and presence 0 for a number 2 |
| HpdClient.SscClient.SendControl | kernel/aos/qcom_ssc_hpd_transport.c:68-154 | refuses exactly when not connected or the length is out of range; otherwise makes its calls up to the first that fails, on a live client and with exactly the given bytes; the result is the one its calls tell, success exactly for a good reply |
| HpdClient.SscClient.DiscoverSuid | kernel/aos/qcom_ssc_hpd_transport.c:186-208 | under arbitrary interference the calls are those of the discovery frame, and after a good reply one wait; the result is the one they tell, and success means a valid slot; the missing-device and builder errors never occur |
| HpdClient.SscClient.EnableHpd | kernel/aos/qcom_ssc_hpd_transport.c:210-270 | succeeds exactly when events are enabled afterwards; a ready client makes the calls of an attempt with two valid SUIDs and returns the result they tell; otherwise no call is made |
| HpdClient.ActivationTakes | kernel/aos/qcom_ssc_hpd_transport.c:231-262 | an attempt tells success exactly when both replies were good, the acknowledgement came and a zero error was read after it; its calls are then these ten in order: allocation, transaction, handshake frame, good reply, completed wait, zero error, allocation, transaction, configuration frame, good reply |
| HpdClient.SscClient.Handshake | kernel/aos/qcom_ssc_hpd_transport.c:231-248 | makes the calls of the handshake frame of a valid SUID, and after a good reply waits and reads the error; the result is the one they tell |
| HpdClient.SscClient.SendInit | kernel/aos/qcom_ssc_hpd_transport.c:231-238 | sends the handshake frame of a valid SUID, never has the builder refuse, and keeps the client ready |
| HpdClient.SscClient.AwaitAck | kernel/aos/qcom_ssc_hpd_transport.c:239-248 | waits once; a wait ends well exactly when the acknowledgement is complete, and only then the error is read; success exactly for a zero error |
| HpdClient.SscClient.Configure | kernel/aos/qcom_ssc_hpd_transport.c:250-257 | sends the configuration frame of a valid SUID, never has the builder refuse, and keeps the client ready |
| HpdClient.SscClient.DisconnectClient | kernel/aos/qcom_ssc_hpd.c:132-152 | releases the handle once, exactly when it is live, makes no other call, and ends with no client and events off |
| HpdClient.SscClient.DiscoverAll | kernel/aos/qcom_ssc_hpd.c:200-211 | the calls are those of the discoveries of camera_handshake, human_presence_detect and camera_face_detect, in this order, whatever each comes to; each result is the one its own calls tell, and each one reported as done filled its slot for good |
| HpdClient.SscClient.ConnectWork | kernel/aos/qcom_ssc_hpd.c:163-224 | makes no call unless a connection was due; otherwise opens the client, joins the service and makes all three discoveries, or releases the client that could not join; results are those the calls tell, the client ends live exactly when connected, and only a dead handle is opened and only a live one released |
| LifecycleProof.StepKeeps | kernel/aos/qcom_ssc_hpd.c:29-371 | every step of every thread keeps the whole invariant: locks, handle, slots, stopping and history |
| LifecycleProof.RunKeeps | kernel/aos/qcom_ssc_hpd.c:29-371 | every state of every run, with any number of user threads, satisfies the invariant |
| LifecycleTheorems.HandleOwnership | kernel/aos/qcom_ssc_hpd.c:132-224 | no run initialises a live handle, releases a dead one or sends on a client that is not live and connected; the flag stands for a live client, exactly so when op_lock is free; -ENODEV and builder refusals are unreachable |
| LifecycleTheorems.NoOrphan | kernel/aos/qcom_ssc_hpd.c:132-184 | a live client whose service is gone has a disconnect pending, running, about to be queued, or owed by suspend or remove: when none is on its way no client survives the loss |
| LifecycleTheorems.SuspendedIsDead | kernel/aos/qcom_ssc_hpd.c:322-352 | in every reachable state with the suspend flag set, outside the stretch of a suspend or remove up to its disconnect, there is no live client, also while a resume waits to clear the flag |
| LifecycleTheorems.SuspendQuiesces | kernel/aos/qcom_ssc_hpd.c:322-352 | from the return of suspend until a resume clears the flag no state has a live client, whatever runs in between: late-queued connect work, a further suspend, a remove |
| LifecycleTheorems.OnlyResumeClears | kernel/aos/qcom_ssc_hpd.c:339-348 | the flag is cleared by the section of resume and by nothing else |
| LifecycleTheorems.RemoveQuiesces | kernel/aos/qcom_ssc_hpd.c:358-371 | after the disconnect of remove no later state has a live client or a live lookup |
| LifecycleTheorems.ConfigurationIsGated | kernel/aos/qcom_ssc_hpd_transport.c:216-257 | every configuration sent follows, in its session and attempt, a handshake sent and an acknowledgement stored with no error after the attempt was marked, also with the two-step unlocked store of the error |
| LifecycleAck.AnswersItsHandshake | kernel/aos/qcom_ssc_hpd_transport.c:227-248 | an attempt about to send its handshake can come to its configuration with no zero-error acknowledgement received from then on exactly when such an error is stored at that moment, or was received and is still to be stored |
| LifecycleAck.StoredSinceHandshake | kernel/aos/qcom_ssc_hpd_transport.c:227-248 | it can come there with no zero error stored since exactly when one is stored at that moment |
| LifecycleRace.EarlierAckAccepted | kernel/aos/qcom_ssc_hpd_transport.c:227-248 | such a run: the callback of an acknowledgement received before any attempt stores its zero error between the mark and the handshake of the first one |
| LifecycleTheorems.EnabledMeansConfigured | kernel/aos/qcom_ssc_hpd_transport.c:218-262 | when events are enabled the client is live and connected with both SUIDs, and a gated configuration was sent in the session that is still open |
| LifecycleEvents.EnabledMeansAnswered | kernel/aos/qcom_ssc_hpd_transport.c:231-262 | when events are enabled the last attempt had its handshake answered well, found its acknowledgement complete and had its configuration answered well |
| LifecycleTheorems.FailedActivationRecycles | kernel/aos/qcom_ssc_hpd.c:84-107 | when no operation runs and no user still has its disconnect to make, a session in which an activation was attempted has events enabled: a failed one has been released |
| LifecycleService.NoRequestLost | kernel/aos/qcom_ssc_hpd.c:29-371 | in every run, while the service is present and the driver neither suspended nor removed, a connection asked for by an arrival, a resume or a disconnect of a user, and not looked into since, is on its way: queued, picked, about to be queued, or a thread is on its way to read the flags; at rest every request was looked into |
| LifecycleService.StepServes | kernel/aos/qcom_ssc_hpd.c:29-371 | every step of every thread keeps what NoRequestLost, AllSearched and ServiceIsServed rest on |
| LifecycleService.AllSearched | kernel/aos/qcom_ssc_hpd.c:194-211 | in every run, whenever no operation runs and the client is connected, each of the three discoveries has come to its request since it was connected |
| LifecycleService.ServiceIsServed | kernel/aos/qcom_ssc_hpd.c:29-371 | in every run, at rest with the service present and the driver neither suspended nor removed, there is a live client exactly when neither the last connection failed nor the worker ran a disconnect after it |
| LifecycleLoss.ReturningServiceIsLost | kernel/aos/qcom_ssc_hpd.c:155-262 | the second case is reached in a run without a failed call: the service arrives, leaves and comes back before the worker runs, which then connects and disconnects, in the order queued |
| LifecycleEvents.FlagsSayWhatHappened | kernel/aos/qcom_ssc_hpd.c:226-371 | in every run the service flag stands for its last event, the suspend flag for the last call of suspend or resume or a removal, and the shutdown flag for a removal, from the section of the thread that was told on |
| LifecycleEvents.WritesAreCarriedOut | kernel/aos/qcom_ssc_hpd.c:74-109 | in every run a disable that returned has disconnected the client, and an enable that returned has succeeded or disconnected it |
| LifecycleEvents.PendingMeansQueued | kernel/aos/qcom_ssc_hpd.c:29-371 | in every run a work item is pending exactly when it was queued and neither picked nor cancelled since |
| LifecycleProgress.HolderSteps | kernel/aos/qcom_ssc_hpd.c:132-224 | whoever holds the state lock can step: it is never held across a wait, a release or a cancellation |
| LifecycleProgress.CallbackSteps | kernel/aos/qcom_ssc_hpd_transport.c:156-166 | a running report callback is never blocked by op_lock |
| LifecycleProgress.NoDeadlock | kernel/aos/qcom_ssc_hpd.c:132-371 | every reachable state rests or has an enabled step of the driver |
| LifecycleProgress.DriverSettles | kernel/aos/qcom_ssc_hpd.c:132-371 | left alone the driver makes no more steps than a distance computed from its state |
| LifecycleProgress.MaximalRunRests | kernel/aos/qcom_ssc_hpd.c:132-371 | a run of the driver that cannot be extended has reached rest, where no client has outlived its service, a suspend or a removal |
| Mailbox.EcDevice.WriteByte | asus_zenbook_a14_ec.c:148-167 | at most three attempts, repeated exactly while a transfer asks for it, that each may fail with or without effect: the register holds the new value, or on failure perhaps the old; a repeated trigger runs no other command |
| Mailbox.EcDevice.ReadByte | asus_zenbook_a14_ec.c:169-194 | the same attempts; a value that was read is what the register held, before or after a command that completed meanwhile |
| Mailbox.Retrigger | asus_zenbook_a14_ec.c:148-167 | triggering a completed command again changes nothing, so retrying a trigger that had taken effect is harmless |
| Mailbox.EcDevice.Settle | asus_zenbook_a14_ec.c:216-233 | success means that the window is idle and the command in flight, if any, has completed; it fails only when a transfer did, or when BUSY read as set at last |
| Mailbox.EcDevice.CompoundRead | asus_zenbook_a14_ec.c:235-258 | never changes a settled register, success or not; success gives the register value; write minors are refused without a transfer, and others fail only when a transfer did or BUSY stayed set; no command in flight is disturbed |
| Mailbox.EcDevice.CompoundWrite | asus_zenbook_a14_ec.c:260-278 | success carries out exactly this command after any one left in flight; failure carries it out or not, and comes only of a failed transfer or of BUSY staying set; no command in flight is disturbed |
| Mailbox.EcDevice.SetFanMode | asus_zenbook_a14_ec.c:300-304 | the mode section as seen from outside |
| Mailbox.EcDevice.SetFanPwm | asus_zenbook_a14_ec.c:306-319 | a successful write changes the PWM of this fan only; a failed one leaves each cell as it was or as it would have become |
| Mailbox.EcDevice.ReadReg | asus_zenbook_a14_ec.c:280-288 | the register read section as seen from outside |
| Mailbox.EcDevice.ReadFanReg | asus_zenbook_a14_ec.c:331-345 | a successful read returns the register of the requested fan and changes no PWM and no mode |
| Mailbox.EcDevice.MailboxQuiesce | asus_zenbook_a14_ec.c:347-353 | zeroes DATA and then BUSY, the second whether or not the first succeeds; a command in flight may run as it was, run with its data zeroed, or never run; nothing else changes |
| Mailbox.Linearizable | asus_zenbook_a14_ec.c:216-353 | for any sequence of sections by any callers and any failures every cell holds, and settles to, a value the history allows, and a successful read returns one |
| Mailbox.ReadsLastWrite | asus_zenbook_a14_ec.c:306-345 | after a successful write to a cell and before the next write to it, a successful read returns exactly that value, whatever other sections and clearings ran in between |
| Mailbox.ClearingKeepsCells | asus_zenbook_a14_ec.c:347-353 | clearing leaves every cell as it was, whatever becomes of the command in flight, exactly when no write to a cell is in flight, or one of a zero to a cell that is zero; the deciding outcomes are reached |
| Mailbox.ClearingBringsNothingNew | asus_zenbook_a14_ec.c:347-353 | clearing brings up no value that a cell neither held nor would have settled to exactly when no write to a cell is in flight, or it writes zero, or its cell is zero; the deciding outcome is reached |
| Mailbox.ClearingCanZeroPwm | asus_zenbook_a14_ec.c:306-353 | after a PWM section that failed with its write triggered, clearing can leave a PWM that no caller wrote |
| Mailbox.ClearingQuiet | asus_zenbook_a14_ec.c:347-353 | clearing changes no cell but the one that the command in flight writes |
| FanModes.Highest | asus_zenbook_a14_ec.c:385-396 | the highest reading: an upper bound that some zone attains |
| FanModes.Temperature | asus_zenbook_a14_ec.c:401 | a reading that bounds all others, or the no-data error; always the error when nothing could be read |
| FanModes.Clamped | asus_zenbook_a14_ec.c:857-859 | a default in range is kept, one below becomes the floor and one above 255 |
| FanModes.ApplyKeeps | asus_zenbook_a14_ec.c:493-531 | success selects profile and cap, restarts the failure count and arms the monitor exactly for manual mode outside shutdown; failure never starts manual mode and keeps the profile |
| FanModes.TickKeeps | asus_zenbook_a14_ec.c:533-570 | falling back ends automatic, balanced and uncapped if the mode write succeeds; otherwise nothing re-arms |
| FanModes.WriteKeeps | asus_zenbook_a14_ec.c:844-888 | success selects custom or balanced without a cap and arms the monitor in manual mode; the failure count is never touched |
| FanModes.WriteSucceeds | asus_zenbook_a14_ec.c:844-888 | a direct write succeeds exactly when its value is one the attribute takes and every access it leads to does; enabling automatic control outside manual mode always succeeds |
| FanDevice.AsusEc.LeaveManual | asus_zenbook_a14_ec.c:463-473 | in manual mode exactly one access, the write of automatic mode, and outside it none; success in manual mode leaves the controller in automatic mode |
| FanDevice.AsusEc.SetFanMode | asus_zenbook_a14_ec.c:300-304 | one access to the bus, recorded with how it ended; success leaves the mode written with no write in flight, also after other callers |
| FanDevice.AsusEc.SetPwm | asus_zenbook_a14_ec.c:306-319 | one access to the bus, recorded with how it ended; success leaves this fan at the value and every other cell as it was, also after other callers |
| FanDevice.AsusEc.EnterManual | asus_zenbook_a14_ec.c:475-491 | the accesses are the mode, each fan until one fails, and the way back unless both succeeded; success leaves the controller in manual mode with both fans at the PWM, whatever other callers did in between; every PWM command is in range and given in manual mode |
| FanDevice.AsusEc.ApplyProfile | asus_zenbook_a14_ec.c:493-531 | the accesses are those of the profile and the fields follow how they ended, and the controller the profile; a controller in manual mode that the driver does not drive means that a mode write has failed since probe |
| FanDevice.AsusEc.MaxTemp | asus_zenbook_a14_ec.c:385-402 | the highest of the zones and the controller sensor, which is read once, or the no-data error |
| FanDevice.AsusEc.SafetyWork | asus_zenbook_a14_ec.c:533-570 | a tick that acts reads the controller sensor; exactly when it must fall back it makes one more access, the write of automatic mode, and the fields follow how that ended; one that succeeds leaves the controller in automatic mode; a tick that does not act makes no access |
| FanDevice.AsusEc.HwmonWrite | asus_zenbook_a14_ec.c:844-888 | the accesses are those the value leads to and the fields follow how they ended; a stored PWM is the PWM of that fan, an enabled manual mode has both fans at the clamped default |
| FanDevice.AsusEc.QuiesceSection | asus_zenbook_a14_ec.c:953-958 | exactly one access, the write of automatic mode; the driver stops driving in any case, and success leaves the controller in automatic mode |
| FanDevice.Probe | asus_zenbook_a14_ec.c:993-1011 | a controller left in manual mode is restored to automatic mode; probing fails exactly when the last transfer gave an access up |
| FanRuns.EveryRun | asus_zenbook_a14_ec.c:463-570 | in every run manual mode is watched by a monitor armed for at most 2000 ms or a waiting tick, unless suspend or shutdown cancelled it or its last fallback failed; the failure counter is the streak of failed ticks; a cap means the quiet profile under automatic control |
| FanRuns.StepKeeps | asus_zenbook_a14_ec.c:463-570 | every section, tick, suspend, resume and shutdown step keeps what EveryRun states |
| FanRuns.TickDecides | asus_zenbook_a14_ec.c:533-570 | a tick falls back exactly at or above the trip point, or when this reading failed and the streak of failed readings since the last good one or applied profile is at least three in its 32-bit count, with the outcome stated for both ends of the mode write |
| FanRuns.MonitorChanges | asus_zenbook_a14_ec.c:493-531 | any step re-arms the monitor for its full period, disarms it, or leaves it to time, as its arguments and the ends of its accesses tell |
| FanRuns.DueWithinPeriod | asus_zenbook_a14_ec.c:523-530 | through any steps that neither re-arm nor disarm it an armed monitor counts down: it is due exactly when the time left has passed, at most 2000 ms |
| FanRuns.WritesPostponeTicks | asus_zenbook_a14_ec.c:883-885 | direct writes that keep coming postpone the tick for any length of time |
| FanRuns.ManualChanges | asus_zenbook_a14_ec.c:463-531 | after any step manual mode is on exactly when the step starts it, or it was on and the step does not stop it, both told by the arguments of the step and how its accesses end |
| FanRuns.AfterShutdown | asus_zenbook_a14_ec.c:950-960 | from the section of a removal or shutdown on, in every run: manual mode is on exactly when a later step started it and none after that stopped it, it is never on exactly when none starts it, and no tick looks at the temperature |
| FanRuns.ManualAfterShutdown | asus_zenbook_a14_ec.c:511-529 | such a run: after a shutdown a profile starts manual mode, unwatched |
| FanRuns.ResumeRestores | asus_zenbook_a14_ec.c:1067-1095 | a sleep of any length with nothing else in between: a resume whose accesses succeed brings back the profile, its cap and its mode, watched when manual, whether or not suspend could leave manual mode; a custom profile becomes balanced |
| HidText.HidCmdStore | hid_asus_ec.c:193-219 | the tokenizer loops terminate, never pass index 64, and build exactly the specified report or -EINVAL |
| HidText.SscanfHex | hid_asus_ec.c:211 | the scanner: space, then at most two characters, a 0x prefix using up the field |
| HidText.BlankCharacters | hid_asus_ec.c:207-217 | the blanks are space, tab and newline |
| HidText.CommandOfFields | hid_asus_ec.c:206-219 | every text is accepted exactly when it holds a field and each of the first 63 is a byte, with those values; when no word starts with space other than blanks, the same by its words |
| HidText.CapitalsDoNotMatter | hid_asus_ec.c:206-217 | texts that differ only in which letters are capitals are the same command |
| HidText.NumbersAreFields | hid_asus_ec.c:206-217 | for any text and limit the scanner reads field by field; later fields are not looked at |
| HidText.FieldsAreWords | hid_asus_ec.c:207-211 | the fields are the blank-separated words exactly when no word starts with other space |
| HidText.OtherSpaceJoinsWords | hid_asus_ec.c:211 | other white space is skipped inside a field, even across a blank |
| HidText.CommandOfSpelled | hid_asus_ec.c:206-219 | bytes in any accepted spelling with blanks between build exactly the report that carries the first 63 |
| HidText.NumbersOfSpelled | hid_asus_ec.c:206-217 | for any limit, spelled bytes read back exactly |
| HidText.CommandOfResponse | hid_asus_ec.c:193-245 | feeding the printed response back builds the report id followed by the first 63 response bytes |
| HidText.HidCmdShow | hid_asus_ec.c:232-245 | prints every byte in two digits, a space between, a newline last |
| ProfileHolds.HoldsRefineHistory | scripts/asus-zenbook-a14-ppd-bridge.py:147-336 | in every run, however its writes end, the holds are exactly the grants that no release by their owner, departure, restore or set has ended; a set ends none that come after the first hold whose cookie is beyond 32 bits |
| ProfileHolds.CookiesNeverRepeat | scripts/asus-zenbook-a14-ppd-bridge.py:292-293 | two grants have different cookies, the later the larger |
| ProfileHolds.DriverProfile | scripts/asus-zenbook-a14-ppd-bridge.py:109-132 | in every run whose writes succeed and in which no set raises the driver was last told quiet if a call for a power-saver hold was granted and nothing has ended it, else performance if one for a performance hold was, else its name for the profile last set or the initial one |
| ProfileHolds.Refusals | scripts/asus-zenbook-a14-ppd-bridge.py:79-84 | a hold is refused exactly when it names neither power-saver nor performance, a set exactly for another interface, for a property that cannot be set, or for a profile that is none of the three names; what is refused changes nothing |
| ProfileHolds.FewGrants | scripts/asus-zenbook-a14-ppd-bridge.py:139-161 | no set raises in a run of fewer than 2^32 grants |
| ProfileHolds.DriverFollows | scripts/asus-zenbook-a14-ppd-bridge.py:126-132 | while no set raises, after every call the driver profile is the effective one unless the last write failed |
| ProfileHolds.OutOfStep | scripts/asus-zenbook-a14-ppd-bridge.py:126-161 | in any run the driver falls out of step only by a set that raises, and stays so only through calls that write nothing |
| ProfileHolds.RefusedHoldStays | scripts/asus-zenbook-a14-ppd-bridge.py:288-302 | a hold is reported exactly when its write succeeded and its cookie fits 32 bits, but it is kept in any case |
| ProfileHolds.SetTakesEffect | scripts/asus-zenbook-a14-ppd-bridge.py:147-161 | a set raises exactly when it meets a hold beyond 32 bits, and then keeps the holds after it and both profiles; otherwise it drops every hold, and takes the profile exactly when there was no hold or the first write succeeded |
| ProfileHolds.BatteryFlag | scripts/asus-zenbook-a14-ppd-bridge.py:267-270 | the battery flag is the one last set, a text being true when not empty, and no other call touches it |
| ProfileHolds.PowerProfilesBridge.HoldProfile | scripts/asus-zenbook-a14-ppd-bridge.py:288-302 | refuses every name but power-saver and performance, else adds a hold of that name under the next cookie and writes the effective profile |
| ProfileHolds.PowerProfilesBridge.ReleaseProfile | scripts/asus-zenbook-a14-ppd-bridge.py:310-319 | removes the hold only for its owner |
| ProfileHolds.PowerProfilesBridge.Set | scripts/asus-zenbook-a14-ppd-bridge.py:253-274 | the checks, the battery flag, the dropping of holds and the two writes in order |
| ProfileHolds.PowerProfilesBridge.ReleaseHolds | scripts/asus-zenbook-a14-ppd-bridge.py:139-161 | drops exactly the holds of one owner, or all, oldest first, and writes when there were any; the signal of a hold beyond 32 bits ends the loop after it was dropped |
| ProfileHolds.PowerProfilesBridge.NameOwnerChanged | scripts/asus-zenbook-a14-ppd-bridge.py:163-165 | releases the holds of an owner that left |
| ProfileHolds.PowerProfilesBridge.RestoreBalanced | scripts/asus-zenbook-a14-ppd-bridge.py:332-338 | drops every hold and goes back to balanced, also when the write fails |

## Left out

- Lifecycle: the interleaving model is a step relation on values, because its threads have no order; its effects on the driver's fields are the functions that the methods of `HpdDevice.SscHpd` are proved against. Torn reads of a SUID and weak memory are not modelled: each lock section and each unlocked access is one step.
- Lifecycle: the workqueue runs one item at a time, but picks pending items in any order; the kernel runs them first in, first out. What holds in every order holds in that one, and the run of `LifecycleLoss.ReturningServiceIsLost` keeps to it.
- Lifecycle: one service at a time, as the driver stores one address; the address itself does not matter to any property and is left out.
- Lifecycle: releasing a QMI handle waits for its running callback, and cancelling a work item waits for its execution; this is what the kernel's functions are documented to do, and is assumed. Work queued after remove destroyed the workqueue, and `iio` reads and writes after that, are not modelled.
- LifecycleTheorems.ConfigurationIsGated: does not say that the acknowledgement was received since this attempt's handshake was sent, because the code does not ensure it; `LifecycleAck.AnswersItsHandshake` says exactly when it was. A late answer to another attempt of the same session cannot be told apart, as reports carry no request.
- ProfileHolds.DriverProfile: runs in which a set raises are left to `ProfileHolds.OutOfStep` and `ProfileHolds.SetTakesEffect`: the driver then keeps its profile until the next write.
- HpdClient.SscClient.ConnectWork: does not say that a present service leads to a connection, because the code does not promise it: a failed connection is retried only by a later arrival, resume or user write. `LifecycleService.ServiceIsServed` says when a client is missing.
- HpdClient.SscClient.SendControl: allocation, the transaction and the decoded reply end arbitrarily; the element tables and the message lengths of the QMI layer belong to a library that is not part of this model.
- HpdDevice.SscHpd.NewServer: the address of the service is not kept, as no property depends on it.
- HpdDevice.SscHpd.ParseEvent: the IIO event that is pushed with a presence change is left out.
- Report.SuidEventRoundTrip: one datatype field per event. The name buffer is not cleared between copies, which `HpdDevice.SscHpd.ParseSuidPayload` does model, but the round trip does not use.
- Fields.PbNext: where the cursor stands after a malformed field is not part of the result; no caller reads it.
- Mailbox.EcDevice.ReadFanReg: the tachometer and the temperature are constant; a value that changes while it is read is not modelled.
- Mailbox.EcDevice.Settle: the deadline is an arbitrary number of polls, at least one.
- Mailbox: the controller itself is an assumption: a non-zero BUSY runs the command in REGSEL and DATA once, at any later time, and clears BUSY; selecting a fan beyond the second makes PWM accesses do nothing.
- FanModes: frequency requests are assumed to succeed, as one cap for all CPUs.
- FanRuns: the freezing of the workqueue during suspend and the latency of the scheduler are not modelled; a due tick may start at any later time.
- FanDevice.AsusEc.HwmonWrite: the arguments are those of the PWM attributes; reading attributes and their visibility would only add one-branch facts.
- HidText.HidCmdStore: the two HID requests and the stored response are left out; the text is a C string, without its NUL.
- ProfileHolds: D-Bus marshalling, signals, the state file and the properties that only read are left out; a failed write leaves the driver's profile unknown.
- Probing and its error unwinding, module parameters beyond their values, machine checks, the keyboard backlight, hotkeys, the desktop patches, firmware lists, shell scripts and packaging are left out: they would add only easy members, or need the semantics of other systems.
