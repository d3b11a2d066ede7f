# pynbp: Numeric Broadcast Protocol broadcaster, modelled in Dafny

`pynbp` streams KPI (key performance indicator) readings to one consumer using
the HP Tuners / TrackAddict Numeric Broadcast Protocol. A producer queues
timestamped payloads. A broadcaster thread merges each payload into its
running state and, at most once per `min_update_interval`, writes a regular
text packet to a serial port (`PyNBP`) or to one TCP client (`WifiPyNBP`). The
socket variant also answers a client's `!ALL` request with a full packet at any
time, whatever the rate gate says.

This project models that core as pure functions over immutable data:

- `Nbp` (nbp.dfy): the records `NbpKPI` and `NbpPayload`, the packet kinds, the
  settings, the rate gate, and the faults that end a thread.
- `StateTracker` (tracker.dfy): the merge loop that folds a payload into the
  `kpis` dict, the `updatelist` pending list and `packettime`. The dict is a
  key list in first-insertion order plus a map.
- `Sequences` (sequences.dfy): duplicate-free, first-seen-ordered lists.
- `Encoder` (encoder.dfy): `metadata()` and `_genpacket()`.
- `Decoder` (decoder.dfy): a packet reader. It is the encoder's inverse: it
  is proved to recover the packet's inputs whenever no field holds a character
  the line format uses as a delimiter (a comma in the protocol version, a
  double quote in a name or unit, a newline anywhere).
- `Decimal` (decimal.dfy): `{:.6f}` of a timestamp held in microseconds.
- `Text` (text.dfy): Python's `str.strip()`, and the line splitting the packet reader uses.
- `Serial` (serial.dfy) and `Socket` (socket.dfy): one loop iteration of
  `PyNBP.run` and `WifiPyNBP.run` as a step function. Each I/O call's outcome is
  an input. A run over a list of inputs logs every packet written.
- `Scenarios` (scenarios.dfy): worked examples, proved on concrete values.
- `Wrappers` (wrappers.dfy): the `Option` and `Result` types.

Time is an integer count of microseconds everywhere: payload timestamps, clock
readings, `last_update_time` and `min_update_interval` (default 200000). A KPI's
value is the text `str(value)` prints.

Two behaviours of the code worth knowing:

- `_genpacket` raises `ValueError` for a packet type other than ALL, UPDATE or
  METADATA (pynbp/__init__.py:60-61). The serial loop lets it escape, and the
  thread ends (`Serial.InvalidKindHalts`). In the socket loop it is raised
  inside the `try` of lines 201-213, whose `except Exception` handler closes
  the client connection and lets the thread go on (`Socket.SendFailureDropsClient`).
- In the socket loop the answer to a client's `!ALL` request is guarded only
  against `BlockingIOError` (pynbp/__init__.py:190-200). Any other send or
  receive error there ends the thread (`Socket.AnswerRequest`). Only the
  regular send of lines 201-212 is covered by the broad handler.

## Model

| member | source | states |
|---|---|---|
| Nbp.ParseKind | pynbp/__init__.py:60-62 | a packet-type text names a kind exactly when it is "ALL", "UPDATE" or "METADATA" |
| Nbp.KindName | pynbp/__init__.py:65-66 | definition: the packet-type text written into the header for each kind; ParseKind reads each one back |
| Decimal.NatText | pynbp/__init__.py:65-66 | the whole-seconds part of the timestamp is decimal text with no leading zero that reads back as the number |
| Decimal.FixedDigits | pynbp/__init__.py:65-66 | the fractional part of the timestamp is exactly the requested number of digits, zero-padded on the left, and reads back as the number |
| Decimal.FormatMicros | pynbp/__init__.py:65-66 | the `{:.6f}` timestamp text uses only digits, '-' and '.' |
| Decimal.UnsignedRoundTrip | pynbp/__init__.py:65-66 | the text of a non-negative timestamp, whole seconds then a dot then six digits, parses back to the same microsecond count |
| Decimal.FormatMicrosRoundTrip | pynbp/__init__.py:65-66 | the `{:.6f}` text of any timestamp, negative ones included, parses back to the same microsecond count |
| Text.Strip | pynbp/__init__.py:193 | `strip()` leaves text that neither starts nor ends with Python whitespace and is no longer than the input |
| Text.StripPadded | pynbp/__init__.py:193-195 | `strip()` of any whitespace padding around a text with non-blank ends gives back exactly that text |
| Sequences.AppendIfAbsent | pynbp/__init__.py:109-110 | definition: the `not in` check followed by `append`, adding a name only when absent; pinned by Sequences.AppendNewGrows and Sequences.AppendNewDistinct |
| Sequences.AppendNew | pynbp/__init__.py:108-110 | definition: the pending-list half of the merge loop, one AppendIfAbsent per payload KPI in order; pinned by Sequences.AppendNewGrows, Sequences.AppendNewDistinct and Sequences.AppendNewFirstSeen |
| Sequences.AppendNewGrows | pynbp/__init__.py:108-111 | appending unseen names keeps the old list as a prefix and adds exactly the names not already present |
| Sequences.AppendNewDistinct | pynbp/__init__.py:108-110 | the `not in` check keeps a duplicate-free list duplicate-free |
| Sequences.AppendNewFirstSeen | pynbp/__init__.py:108-110 | the added names are ordered by where each first occurs in the payload |
| StateTracker.Upsert | pynbp/__init__.py:108-111 | one loop pass keeps the state well formed and adds a new name at the end of the dict's key order only |
| StateTracker.ApplyKpis | pynbp/__init__.py:108-111 | the merge loop keeps the state well formed, leaves the timestamp alone, grows pending list and key order by the unseen names, and stores every listed name |
| StateTracker.UnmentionedKept | pynbp/__init__.py:108-111 | a name the payload does not mention keeps its stored KPI |
| StateTracker.LastWriteWins | pynbp/__init__.py:111 | a name's stored KPI is the last KPI of that name in the payload |
| StateTracker.Apply | pynbp/__init__.py:106-111 | absorbing a payload keeps the state well formed and sets the packet time to the payload's timestamp |
| StateTracker.ApplyMerges | pynbp/__init__.py:106-111 | after a payload: keys only grow and old keys keep their positions; last write wins; unmentioned entries are unchanged; the pending list stays duplicate-free and within the table, keeps its old names first and appends new ones in first-seen order |
| StateTracker.ApplyKpisAppend | pynbp/__init__.py:108-111 | running the merge loop over two KPI lists one after the other equals running it over the joined list |
| StateTracker.ApplyAll | pynbp/__init__.py:103-111 | definition: the merge done for each dequeued payload in turn; pinned by StateTracker.ApplyAllIsOneMerge and StateTracker.ReplayFromFresh |
| StateTracker.ApplyAllIsOneMerge | pynbp/__init__.py:103-111 | absorbing payloads one at a time equals one merge over all their KPIs, stamped with the last payload's time |
| StateTracker.ReplayFromFresh | pynbp/__init__.py:42-46 | from a new broadcaster, the table holds exactly the names seen, each with its last KPI, and pending list and key order are both the names in first-seen order |
| Encoder.MetadataPacket | pynbp/__init__.py:53-57 | definition: `@NAME:`, the device name and a blank line; read back by Decoder.MetadataRoundTrip and fixed on a concrete name by Scenarios.MetadataForX |
| Encoder.HeaderText | pynbp/__init__.py:65-66 | definition: `*`, protocol version, kind name and the `{:.6f}` packet time, comma-separated; read back by Decoder.HeaderRoundTrip and free of newlines by Decoder.HeaderNoNewline |
| Encoder.KpiText | pynbp/__init__.py:74-78 | definition: the quoted name, the quoted unit when there is one, a colon and the value; read back by Decoder.KpiLineRoundTrip |
| Encoder.Body | pynbp/__init__.py:73-79 | definition: one newline-terminated KpiText per listed KPI; split into lines by Decoder.BodyIsJoin and read back by Decoder.KpiLinesRoundTrip |
| Encoder.Packet | pynbp/__init__.py:65-82 | definition: header line, one KPI line per selected KPI, `#` and a blank line; read back by Decoder.SnapshotRoundTrip and framed by Decoder.SnapshotLines |
| Decoder.HeaderNoNewline | pynbp/__init__.py:65-66 | the header line holds no newline when the protocol version holds none |
| Decoder.SnapshotLines | pynbp/__init__.py:65-82 | an ALL/UPDATE packet is its header, its KPI lines, `#` and an empty line, each ended by a newline |
| Decoder.SnapshotLinesSafe | pynbp/__init__.py:65-82 | under the field conditions, none of those lines holds a newline of its own, so splitting the packet at newlines recovers them |
| Encoder.Selected | pynbp/__init__.py:68-71 | UPDATE with names pending lists exactly the pending KPIs in pending order; ALL, or UPDATE with nothing pending, lists every stored KPI in key order |
| Encoder.AllListsEveryKpiOnce | pynbp/__init__.py:71 | an ALL packet lists each stored KPI exactly once, under its own name, in key order |
| Encoder.GenPacket | pynbp/__init__.py:59-66 | an unrecognised kind is refused with InvalidPacketKind; METADATA gives `@NAME:<device>` and a blank line whatever the KPI state; ALL and UPDATE give a `*` header packet |
| Decoder.MetadataRoundTrip | pynbp/__init__.py:53-57 | reading a METADATA packet gives back the device name |
| Decoder.HeaderRoundTrip | pynbp/__init__.py:65-66 | the header line reads back as protocol version, kind and timestamp when the version holds no comma |
| Decoder.KpiLineRoundTrip | pynbp/__init__.py:73-78 | a KPI line reads back as the same KPI, with or without a unit part, when name and unit hold no double quote or newline and the value no newline |
| Decoder.KpiLinesRoundTrip | pynbp/__init__.py:73-78 | the body lines read back as the same KPI list in the same order, when every KPI's name and unit hold no double quote or newline and its value no newline |
| Decoder.SnapshotRoundTrip | pynbp/__init__.py:65-82 | an ALL/UPDATE packet reads back as version, kind, packet time and the selected KPIs, when the version holds no comma or newline and every stored KPI meets the field conditions above |
| Decoder.GenPacketRoundTrip | pynbp/__init__.py:59-82 | every packet `_genpacket` produces from delimiter-free fields (as for SnapshotRoundTrip) reads back as what it was built from |
| Serial.Step | pynbp/__init__.py:99-141 | the payload is always merged; a write happens only when the rate gate is open, then nothing is pending and the time is recorded; without a write, pending list and emission time are untouched |
| Serial.AfterMerge | pynbp/__init__.py:113-141 | the same guarantees, stated for the state right after merging |
| Nbp.Due | pynbp/__init__.py:127-128 | definition: the rate gate, open unless less than the minimum interval has passed since the last emission; its effect is pinned by Serial.GateShut, Serial.RunSteps and Scenarios.RateGateTwoOfThree |
| Serial.StepCorrected | pynbp/__init__.py:113-122 | with no connection and a failed open, the corrected step only merges and waits, and never fails for lack of a port |
| Serial.AfterMergeCorrected | pynbp/__init__.py:113-122 | the corrected connection check, stated for the state right after merging |
| Serial.AfterMergeConsistent | pynbp/__init__.py:113-141 | after merging, `connected` stays true exactly while an open port is held |
| Serial.AfterMergeCorrectedConsistent | pynbp/__init__.py:113-122 | the corrected connection check keeps the same link between `connected` and the open port |
| Serial.StepConsistent | pynbp/__init__.py:113-141 | a step keeps `connected` true exactly while an open port is held |
| Serial.FirstOpenFailureHalts | pynbp/__init__.py:100-122 | when the very first open fails, the step fails reading `is_open` of no port |
| Serial.CorrectedAgreesOncePortExists | pynbp/__init__.py:113-122 | once a port object exists, or the open succeeds, the corrected and written steps agree |
| Serial.WriteOutcomes | pynbp/__init__.py:127-141 | with the port and the gate open: a delivered write sends the payload kind's packet, clears pending and records the time; a timeout closes the port and keeps pending; another error ends the thread |
| Serial.InvalidKindHalts | pynbp/__init__.py:127-130 | an unrecognised packet type that reaches generation ends the serial thread |
| Serial.GateShut | pynbp/__init__.py:127-128 | inside the minimum interval nothing is written, and pending list, emission time and connection are kept |
| Serial.ReopenClosedPort | pynbp/__init__.py:113-122 | after a close, a successful open resumes normal operation, and a failed one only merges and waits |
| Serial.RunSteps | pynbp/__init__.py:103-136 | over any run, consecutive writes are at least the minimum interval apart, and so is the first from the previous emission time |
| Socket.AnswerRequest | pynbp/__init__.py:190-200 | an ALL packet goes out exactly when the client sent `!ALL` (whitespace trimmed) and the send went through; a receive error, or a failed answer send, ends the thread |
| Socket.Step | pynbp/__init__.py:159-217 | the payload is always merged; a regular send happens only when the rate gate is open, then nothing is pending and the time is recorded; otherwise pending list and emission time are untouched |
| Socket.AfterMerge | pynbp/__init__.py:177-217 | the same guarantees, stated for the state right after merging |
| Socket.RequestsAll | pynbp/__init__.py:192-195 | definition: non-empty received data that strips to `!ALL`; its effect is pinned by Socket.AnswerRequest and Scenarios.RequestWithNewline |
| Socket.RequestBypassesGate | pynbp/__init__.py:191-204 | `!ALL` is answered with the merged state's ALL packet even while the gate is shut, clearing nothing |
| Socket.RequestThenRegularSend | pynbp/__init__.py:191-212 | when the gate is open, the regular packet follows the answer, is built from the same merged state, and only it clears pending |
| Socket.RegularSend | pynbp/__init__.py:201-212 | with the gate open and no request, a delivered send carries the packet of the payload's kind built from the merged state, clears the pending list and records the time |
| Socket.SendFailureDropsClient | pynbp/__init__.py:201-217 | a failed regular send, or an unrecognised packet type, closes the connection and keeps pending list and emission time |
| Socket.NoClientOnlyMerges | pynbp/__init__.py:177-189 | with no client and no accepted connection, the step only merges |
| Socket.AcceptedClientServed | pynbp/__init__.py:177-183 | a newly accepted client is served as if it had been connected all along |
| Socket.StepLog | pynbp/__init__.py:197-212 | of a step's sends, only the regular one counts as a regular emission |
| Socket.Regular | pynbp/__init__.py:197-212 | the regular emissions are exactly the log's entries that were not answers to requests |
| Socket.RegularAppend | pynbp/__init__.py:197-212 | the regular emissions of a joined log are those of each part, joined |
| Socket.RunSteps | pynbp/__init__.py:167-212 | over any run, consecutive regular sends are at least the minimum interval apart, while request answers may come at any time |
| Scenarios.DuplicateNameUpdateBody | pynbp/__init__.py:68-80 | one UPDATE payload with RPM 4500, RPM 4600 and AFR 14.7 gives the body `"RPM","rpm":4600` then `"AFR":14.7` |
| Scenarios.RpmAfrMerge | pynbp/__init__.py:106-111 | a fresh broadcaster given RPM 4500, RPM 4600 and AFR 14.7 at 1 s stores RPM 4600 and AFR 14.7, with pending list and key order RPM then AFR |
| Scenarios.RpmAfrLines | pynbp/__init__.py:73-79 | the body for RPM 4600 (unit rpm) then AFR 14.7 (no unit) is exactly the two expected lines |
| Scenarios.RpmPending | pynbp/__init__.py:108-110 | a fresh broadcaster given one RPM KPI has exactly RPM pending |
| Scenarios.OneSecondText | pynbp/__init__.py:65-66 | a packet time of one second is printed `1.000000` |
| Scenarios.DuplicateNameUpdatePacket | pynbp/__init__.py:59-82 | with the default settings, that payload's UPDATE packet is exactly `*NBP1,UPDATE,1.000000`, the two KPI lines, `#` and a blank line |
| Scenarios.MetadataForX | pynbp/__init__.py:57 | the METADATA packet of a device named X is exactly `@NAME:X` and a blank line |
| Scenarios.RequestWithNewline | pynbp/__init__.py:193-195 | the client line `!ALL` with its newline counts as a full-packet request |
| Scenarios.RateGateTwoOfThree | pynbp/__init__.py:127-136 | with a 0.2 s interval, payloads at 1.00 s, 1.05 s and 1.25 s cause exactly two writes, at 1.00 s and 1.25 s |
| Scenarios.ReconnectResumes | pynbp/__init__.py:177-217 | after a failed send drops the client, the next accepted client gets a packet and the kept update is then cleared |

## Findings

| source | as written | input that shows it | evidently intended | confidence | as-written member | corrected member |
|---|---|---|---|---|---|---|
| pynbp/__init__.py:121 | the skip test for a missing connection reads `serport.is_open` while `serport` is still `None` | the first payload arrives and opening the device fails (`serial_for_url` raises `SerialException`): `AttributeError` ends the thread | skip the iteration and wait for the device, as the log message "waiting for connection" says | high (not executed) | Serial.FirstOpenFailureHalts | Serial.StepCorrected |

`Serial.Step` and the lemmas about it model the loop as written.
`Serial.StepCorrected` skips the iteration whenever no open port is held.
`Serial.CorrectedAgreesOncePortExists` shows that the two differ only before
the first successful open.

## Left out

- Threads and the blocking `nbpqueue.get()`: a step takes the dequeued payload as an argument, and a run takes a list of them.
- pyserial and `socket` calls are not modelled. Their outcomes are step inputs: whether the open or accept succeeded, what `recv` returned, and how each write or `sendall` ended. `bind` and `listen` happen once before the loop; their failures and those of `settimeout` are not modelled.
- The diagnostic read of `serport.in_waiting` bytes (pynbp/__init__.py:124-125) only logs. Its failures are not modelled.
- An `accept` failure other than `socket.timeout` would end the socket thread. It is not modelled: `acceptSucceeds` is a plain yes/no.
- An open failure other than `SerialException` (such as the `ValueError` `serial_for_url` raises for an unknown URL protocol) would end the serial thread. It is not modelled: `openSucceeds` is a plain yes/no.
- Received bytes are taken as already decoded text. A `UnicodeDecodeError` from `decode()`, and the 1024-byte `recv` limit, are not modelled.
- Logging, including the module-level `FileHandler` setup (pynbp/__init__.py:25-30): it has no effect on behaviour.
- `time.time()` is read twice per send, once for the gate and once to record the time. The model uses one clock reading per step for both.
- Floating point: timestamps and intervals are whole microseconds, so `{:.6f}` rounding of finer fractions is not modelled. KPI values are the opaque text of `str(value)`.
- `str.encode` and `bytes.decode` of packets: packets are modelled as strings.
- Decoder.KpiLineRoundTrip: holds only when the name and unit have no double quote or newline and the value has no newline; a name such as `a"b` gives the line `"a"b":1`, which does not read back.
- Decoder.KpiLinesRoundTrip: holds under the same field conditions for every KPI in the list.
- Decoder.SnapshotRoundTrip: holds under the same conditions as GenPacketRoundTrip below.
- Decoder.GenPacketRoundTrip: holds only when the protocol version has no comma or newline, names and units have no double quote or newline, and values have no newline. The protocol has no escaping, so other packets are ambiguous.
- A partial `sendall` that then fails is modelled as nothing delivered.
