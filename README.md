# ISI decoders for Wireshark, modelled in Dafny

This project models the Wireshark plugin that decodes ISI. ISI is the
intra-system interface Nokia phones use between their modem and application
processors, carried over PhoNet. The plugin does three things:

- It reads the eight-byte PhoNet/ISI header of every frame.
- It derives the payload length from the header and clamps it to the bytes
  the frame actually holds.
- It cuts the payload out and hands it to a resource decoder chosen by the
  resource byte, using the "isi.resource" dissector table.

Each resource decoder reads the command byte at offset 0 and then does three
things: it adds header fields, sets the COL_INFO summary and raises expert
warnings for messages it does not support. Some messages carry sub-blocks.
For those, the decoder asks a sub-block walker to feed each sub-block to a
per-resource reader. Messages with command 0xF0 are "common messages". Most
resources hand them to a decoder shared by all resources; SIM, SMS, SS and
GSS decode them inline.

What a decoder does to Wireshark is modelled as a log of events
(`Wire.Event`). The log is appended to an output object (`Wire.Output`). An
event is one of:

- a tree item with its offset and width;
- a string item with the bytes it copied;
- a COL_INFO or COL_PROTOCOL update;
- an expert warning;
- a sub-block walk;
- a hand-over to the raw data dissector.

A read of a byte past the end of the buffer makes Wireshark throw and skip
the rest of the decoder. It appears as a final `Truncated(offset)` event.

Every decoder has two halves:

- a function `Events(tvb, hasTree)`, which states the whole log it appends;
- a method `Dissect`, which appends the command field and then each case's
  items as one block (the loops of the name-service entries and the CommMgr
  resources append one round at a time) and is proved to append exactly
  `Events`.

Lemmas then state what each case of the source's switch shows. The frame
decoder applies the same split twice:

- `Isi.Head` and `Isi.FrameHead` cover the header;
- `Isi.DissectFrame` and `Isi.FrameEvents` cover the whole frame.

The resource table is a class, `Isi.Registry`, whose map the handoff
function fills.

Modules follow the source files:

| module | file |
|---|---|
| `Wire` | shared vocabulary |
| `IsiCommon` | `dissect_isi_common` |
| `Isi` | packet-isi.c |
| `Sim`, `Network`, `Ss`, `Gss`, `Sms`, `Mtc`, `NameService`, `RadioSettings`, `PhoneInfo`, `Call`, `Light`, `Gpds`, `Pipe`, `Selftest`, `CommMgr` | one isi-*.c file each |

The model keeps some behaviour of the code exactly as it is written:

- The name-service entry loop advances its counter and decrements the count
  in the same step, so a count of c lists ⌈c/2⌉ entries. The entries all sit
  at the same offset and share the same field offsets.
- The frame length is computed in a 16-bit unsigned variable, so a declared
  value below 3 wraps round to 65533-65535.
- `tvb->length - 8` is unsigned, so a frame of 5 to 7 bytes never raises the
  "Broken Length" warning.
- The GPDS, Pipe, Selftest and CommMgr decoders are registered by handoff
  functions that `proto_reg_handoff_isi` never calls. Their payloads
  therefore reach the raw data dissector.

## Model

| member | source | states |
|---|---|---|
| Wire.PrefixedString | src/isi-gpds.c:684-687 | a length-prefixed string is one item: a Text of exactly the length byte's count, copied from the byte after it, or a truncation at the length byte or at the string when either lies past the end |
| Wire.AddPrefixedString | src/isi-phoneinfo.c:311-314 | appends exactly the item PrefixedString describes |
| IsiCommon.SubCommandName | src/packet-isi.c:504-577 | a common sub-command keeps the default name "unknown common command" if and only if it is not one of 0x01-0x09 or 0x0C-0x17 |
| IsiCommon.Events | src/packet-isi.c:503-580 | the sub-command is read at 1 before any item (a payload under 2 bytes stops there); otherwise the comcmd field comes first, the summary "<resource> Common Message: <name>" last, and there are 4 events for 0x13 and 2 for every other code; no warning |
| IsiCommon.Dissect | src/packet-isi.c:503-580 | appends exactly IsiCommon.Events |
| IsiCommon.VersionFields | src/packet-isi.c:557-561 | ISI Version Get Response adds the major and minor version bytes at 2 and 3 between the comcmd field and the summary |
| IsiCommon.UnknownSubCommand | src/packet-isi.c:574-579 | an unnamed sub-command shows the comcmd field and the default summary and raises no warning |
| IsiCommon.ColumnText | src/packet-isi.c:579 | whatever COL_INFO held before, it ends as "<resource> Common Message: <name>" |
| Isi.IdsDistinct | src/packet-isi.c:355-368 | no two resource decoders claim the same resource id |
| Isi.HandedFromCalls | src/packet-isi.c:355-368 | the handoff table binds each handed-off decoder under its own id and binds no other decoder |
| Isi.HandoffIdempotent | src/packet-isi.c:347-374 | running the handoffs a second time leaves the table exactly as the first run left it |
| Isi.HandedIds | src/packet-isi.c:355-368 | the handoffs bind exactly the ids 0x09, 0x0A, 0x06, 0x32, 0x02, 0x15, 0xDB, 0xB4, 0x1B, 0x01 and 0x3A |
| Isi.HandedBindings | src/packet-isi.c:355-368 | every id in the table maps to the decoder that claims that id |
| Isi.UnboundIds | src/packet-isi.c:355-368 | the GPDS, Pipe, Selftest and CommMgr ids are not in the handoff table |
| Isi.Registry.constructor | src/packet-isi.c:429 | register_dissector_table creates an empty table |
| Isi.Registry.Add | src/isi-sim.c:160-167 | dissector_add binds the decoder's id to it, replacing any earlier binding, and changes nothing else |
| Isi.Registry.Handoff | src/packet-isi.c:347-374 | the new table is the old table overridden by the eleven bindings, in call order |
| Isi.DissectWith | src/packet-isi.c:498 | a bound decoder appends exactly its own Events, with a tree |
| Isi.Dispatch | src/packet-isi.c:497-499 | a bound resource gives its decoder's events for the payload; an unbound one gives a single raw-data hand-over of the payload's length |
| Isi.DeclaredValue | src/packet-isi.c:482 | the big-endian 16-bit value at offset 3 lies below 65536 |
| Isi.DeclaredLength | src/packet-isi.c:482 | the length is the declared value minus 3 when that is at least 3, and wraps round to the value plus 65533 otherwise; it always fits in 16 bits |
| Isi.Available | src/packet-isi.c:487 | the unsigned count of bytes after the header is the real count for frames of 8 bytes or more and at least 2^32 - 8 for shorter ones |
| Isi.Decimal | src/packet-isi.c:488 | %d prints at least one character and only decimal digits |
| Isi.DecimalRoundTrip | src/packet-isi.c:488 | the printed digits denote exactly the number printed |
| Isi.FrameHead | src/packet-isi.c:459-490 | every frame starts with the ISI protocol column and a cleared summary; without a tree that is all |
| Isi.Sliced | src/packet-isi.c:465-495 | a payload is handed on if and only if there is a tree and the frame holds the 8-byte header |
| Isi.Head | src/packet-isi.c:459-495 | appends exactly FrameHead and returns exactly the hand-over Sliced describes |
| Isi.DissectFrame | src/packet-isi.c:448-501 | appends exactly FrameEvents over the registry's current table |
| Isi.NoTree | src/packet-isi.c:459-465 | without a tree a frame shows only the protocol column and the cleared summary and nothing is handed on; with a tree those two come first |
| Isi.HeaderOrder | src/packet-isi.c:474-480 | with a tree the seven header items follow, in order (rdev, sdev, res, the two-byte len at 3, robj, sobj, id), before any byte is read |
| Isi.LengthWraps | src/packet-isi.c:482 | declared values 0, 1 and 2 give payload lengths 65533, 65534 and 65535 |
| Isi.Clamp | src/packet-isi.c:487-490 | a declared length above the bytes available raises exactly one "Broken Length (L > A)" warning and becomes that count; otherwise no warning and the length is kept; the payload never runs past the frame |
| Isi.ShortFrame | src/packet-isi.c:482-495 | a frame of 5 to 7 bytes shows the header items, raises no length warning, and stops at the payload slice |
| Isi.PayloadSlice | src/packet-isi.c:495 | the payload handed on is the resource byte with bytes [8, 8 + length) of the frame, where length is the declared length or the bytes available, whichever is smaller |
| Isi.Dispatched | src/packet-isi.c:497-499 | after the header, a frame's events come from the decoder bound to byte 2, or from the raw data dissector when none is bound |
| Isi.UnboundResources | src/packet-isi.c:355-368 | after the handoffs, GPDS (0x31), Pipe (0xD9), Selftest (0x35) and CommMgr (0x10) payloads get only the raw-data hand-over |
| Isi.UsbEvents | src/packet-isi.c:332-342 | an empty buffer fails at the first read and is not accepted |
| Isi.DissectUsb | src/packet-isi.c:332-342 | returns the acceptance and appends exactly the events UsbEvents states |
| Isi.UsbStrip | src/packet-isi.c:335-341 | a buffer is accepted if and only if its first byte is 0x1B; an accepted buffer is decoded as a frame from offset 1, and a refused one adds nothing |
| Sim.Events | src/isi-sim.c:190-377 | nothing without a tree; otherwise the message id field comes first, and an empty payload stops at the read of byte 0 |
| Sim.Dissect | src/isi-sim.c:190-377 | appends exactly Sim.Events |
| Sim.NetworkInfoRequest | src/isi-sim.c:204-216 | the service type at 1, with a summary naming the home PLMN read when byte 1 is 0x2F |
| Sim.NetworkInfoResponse | src/isi-sim.c:217-234 | service type and cause; the country code (two bytes at 3) and operator (at 5) only when byte 1 is 0x2F |
| Sim.ServiceProviderNameResponse | src/isi-sim.c:265-278 | cause and secondary cause, summarised as an invalid location whatever byte 1 holds |
| Sim.CommonMessage | src/isi-sim.c:355-371 | 0xF0 is decoded inline: cause, secondary cause, then a summary chosen by byte 1 |
| Sim.UnknownCommands | src/isi-sim.c:372-374 | other commands give "Unknown type" without reading byte 1, and no warning |
| Sim.OneByteMessage | src/isi-sim.c:204-371 | a one-byte message of a known command stops at the read of byte 1 and never shows "Unknown type" |
| Sim.NeverWarns | src/isi-sim.c:190-377 | the SIM decoder raises no warning for any payload |
| Sim.PrefixQuiet | src/isi-sim.c:190-377 | the items before byte 1 is read hold no warning |
| Sim.TailQuiet | src/isi-sim.c:190-377 | the items after byte 1 is read hold no warning |
| Network.AsciiOfUtf16 | src/isi-network.c:447-458 | the result is len characters followed by a NUL, where character i is byte 2i + 1 of the input |
| Network.Utf16ToAscii | src/isi-network.c:447-458 | the loop fills a fresh array of len + 1 bytes with exactly AsciiOfUtf16 |
| Network.Utf16Be | src/isi-network.c:447-458 | big-endian UTF-16 of 8-bit characters is twice as long as the characters |
| Network.AsciiOfUtf16Be | src/isi-network.c:447-458 | utf16_to_ascii undoes the big-endian encoding: the characters come back followed by the NUL |
| Network.ModemCurrentCellInfo | src/isi-network.c:472-487 | fourteen items; EGPRS and DTM support share byte 17 |
| Network.RatInfo | src/isi-network.c:510-514 | the extension length at 3 is read before any item (a sub-block of 3 bytes or fewer stops there); otherwise the RAT name at 2 and that many info bytes at 4 |
| Network.GsmRegNetworkInfo | src/isi-network.c:525-532 | the length at 5 is read first; the operator name of that many UTF-16 units at 6 is shown as its 8-bit characters, or the read stops at 6 when it runs past the end |
| Network.AddRatInfo | src/isi-network.c:510-514 | appends exactly RatInfo |
| Network.AddGsmRegNetworkInfo | src/isi-network.c:525-532 | appends exactly GsmRegNetworkInfo |
| Network.Subpacket | src/isi-network.c:534-593 | appends exactly the reader's events for the sub-block type |
| Network.UnsupportedSubpacket | src/isi-network.c:588-590 | a type without a reader gives exactly one "unsupported packet" warning |
| Network.SupportedSubpacketQuiet | src/isi-network.c:536-545 | the ten readers never warn |
| Network.GsmRegInfo | src/isi-network.c:505-508 | NET_GSM_REG_INFO puts the LAC at offset 0, not 2, and the cell id at 4 |
| Network.OperatorName | src/isi-network.c:525-532 | for an operator name sent as big-endian UTF-16, the bytes of the string item are exactly the name's characters |
| Network.Events | src/isi-network.c:595-828 | nothing without a tree; otherwise the command field comes first, and an empty payload stops at the read of byte 0 |
| Network.Dissect | src/isi-network.c:595-828 | appends exactly Network.Events |
| Network.RssiGetRequest | src/isi-network.c:653-658 | NET_RSSI_GET_REQ shows the CS and measurement type and walks sub-blocks from offset 7 |
| Network.WalkFromThree | src/isi-network.c:595-818 | every other command with sub-blocks walks them from offset 3, as its last step |
| Network.LastItemWalks | src/isi-network.c:595-818 | those commands' items end with the walk from 3 |
| Network.SummaryOnlyCommands | src/isi-network.c:595-818 | listed commands without a decoder show only their summary and raise no warning |
| Network.NoItems | src/isi-network.c:595-818 | those commands add no item after their summary |
| Network.UnknownCommands | src/isi-network.c:822-824 | an unlisted code gives "unknown Network packet" and exactly one warning |
| Network.ListedItemsQuiet | src/isi-network.c:595-821 | the items every listed command adds after its summary hold no warning |
| Network.WarnsIffUnlisted | src/isi-network.c:595-828 | a message raises a warning if and only if its command is neither listed nor the common message 0xF0 |
| Network.CommonMessage | src/isi-network.c:819-820 | 0xF0 goes to the common decoder under the name "Network" |
| Ss.Events | src/isi-ss.c:110-252 | nothing without a tree; otherwise the message id field comes first, and an empty payload stops at the read of byte 0 |
| Ss.Dissect | src/isi-ss.c:110-252 | appends exactly Ss.Events |
| Ss.ServiceRequest | src/isi-ss.c:123-138 | SS_SERVICE_REQ shows the operation at 1, which also picks the summary |
| Ss.UssdSendRequest | src/isi-ss.c:165-180 | USSD type, sub-block count and first sub-block id at 1, 2 and 3 |
| Ss.SummaryOnly | src/isi-ss.c:139-246 | the other known commands show only their summary, whatever byte 1 holds |
| Ss.TruncatedCode | src/isi-ss.c:123-246 | a known command whose byte 1 is missing stops at that read, after its earlier items |
| Ss.UnknownCommands | src/isi-ss.c:247-249 | other commands give "Unknown type" without reading byte 1, and no warning |
| Ss.NeverWarns | src/isi-ss.c:110-252 | the SS decoder raises no warning for any payload |
| Gss.Events | src/isi-gss.c:98-186 | nothing without a tree; otherwise the message id field comes first, and an empty payload stops at the read of byte 0 |
| Gss.Dissect | src/isi-gss.c:98-186 | appends exactly Gss.Events |
| Gss.ServiceRequest | src/isi-gss.c:111-129 | GSS_CS_SERVICE_REQ shows the operation at 1; a radio access type read (0x9C) adds the sub-block count at 2 |
| Gss.ServiceFailResponse | src/isi-gss.c:143-156 | operation at 1 and cause at 2 |
| Gss.CommonMessage | src/isi-gss.c:157-180 | 0xF0 is decoded inline: the message id at 1 and a summary naming four sub-codes |
| Gss.UnknownCommands | src/isi-gss.c:181-183 | other commands give "Unknown type" without reading byte 1, and no warning |
| Gss.NeverWarns | src/isi-gss.c:98-186 | the GSS decoder raises no warning for any payload |
| Sms.Events | src/isi-sms.c:188-328 | nothing without a tree; otherwise the message id field comes first, and an empty payload stops at the read of byte 0 |
| Sms.Dissect | src/isi-sms.c:188-328 | appends exactly Sms.Events |
| Sms.PointToPointRoutingRequest | src/isi-sms.c:217-233 | routing command at 1 and sub-block count at 2 |
| Sms.CellBroadcastRoutingRequest | src/isi-sms.c:247-267 | command at 1 and mode at 2; byte 1 picks Release, Set or the generic summary |
| Sms.SendStatusIndication | src/isi-sms.c:282-299 | send status at 1 and route at 3; nothing at 2 |
| Sms.CommonMessage | src/isi-sms.c:300-322 | 0xF0 is decoded inline: the common message id at 1 and a summary naming four sub-codes |
| Sms.UnknownCommands | src/isi-sms.c:323-325 | other commands give "Unknown type" without reading byte 1, and no warning |
| Sms.NeverWarns | src/isi-sms.c:188-328 | the SMS decoder raises no warning for any payload |
| Mtc.Events | src/isi-mtc.c:174-240 | nothing without a tree; otherwise the command field comes first, and an empty payload stops at the read of byte 0 |
| Mtc.Dissect | src/isi-mtc.c:174-240 | appends exactly Mtc.Events |
| Mtc.KnownCommands | src/isi-mtc.c:187-229 | each known command ends with its summary, and its fields lie within bytes 1 and 2 |
| Mtc.StateQueryResponse | src/isi-mtc.c:198-202 | MTC_STATE_QUERY_RESP shows current state at 1 and target state at 2 |
| Mtc.RequestResponseSummaries | src/isi-mtc.c:187-216 | state, state query, power off and startup sync requests share their summary with their responses |
| Mtc.UnknownCommands | src/isi-mtc.c:234-237 | other commands give "unknown MTC packet" and exactly one warning |
| Mtc.CommonMessage | src/isi-mtc.c:230-233 | 0xF0 sets a local summary and then runs the common decoder for "MTC", whose summary is what COL_INFO ends with |
| NameService.EntryItems | src/isi-nameservice.c:100-105 | one entry is its "Entry <number>" item over 8 bytes at the given offset, then name, device, object and flags at 3, 8, 9 and 10 |
| NameService.Blocks | src/isi-nameservice.c:98-109 | k entries make 5k items |
| NameService.BlockAt | src/isi-nameservice.c:98-109 | block i of the entries is entry first + i + 1 at the same offset with the same fixed fields |
| NameService.EntriesAreBlocks | src/isi-nameservice.c:98-109 | from round nr on, the loop lists ⌈(count - nr)/2⌉ entries numbered from nr + 1 |
| NameService.EntryCount | src/isi-nameservice.c:98-109 | a count of c lists ⌈c/2⌉ entries numbered 1, 2, ... in order, each with the same fixed fields |
| NameService.NameEntries | src/isi-nameservice.c:98-109 | the loop appends exactly the entries the loop specification lists for count |
| NameService.Events | src/isi-nameservice.c:111-174 | nothing without a tree; otherwise the command field comes first, and an empty payload stops at the read of byte 0 |
| NameService.Dissect | src/isi-nameservice.c:111-174 | appends exactly NameService.Events |
| NameService.QueryRequest | src/isi-nameservice.c:124-128 | PNS_NAME_QUERY_REQ shows the 4-byte name at 3 and 4-byte bitmask at 8, and no entries |
| NameService.AddRequest | src/isi-nameservice.c:147-150 | PNS_NAME_ADD_REQ runs the loop with count 1: one entry, numbered 1, at offset 5 |
| NameService.Responses | src/isi-nameservice.c:151-162 | the add and remove responses show their own summary ("Nameservice Add Response", "Nameservice Remove Response") and the reason byte at 1 |
| NameService.RemoveRequest | src/isi-nameservice.c:157-160 | PNS_NAME_REMOVE_REQ shows "Nameservice Remove Request" and the 4-byte name at 3, and no entries |
| NameService.Indications | src/isi-nameservice.c:129-146 | the query response and the add and remove indications show their own summary and list ⌈matches/2⌉ entries after the two match counts |
| NameService.CommonMessage | src/isi-nameservice.c:164-166 | 0xF0 goes to the common decoder under the name "Nameservice" |
| NameService.UnknownCommands | src/isi-nameservice.c:168-171 | other commands give "unknown Nameservice packet" and exactly one warning |
| NameService.EntriesQuiet | src/isi-nameservice.c:98-109 | the entry loop adds no warning, whatever its count |
| NameService.ListedQuiet | src/isi-nameservice.c:123-162 | every command with a case of its own decodes without a warning, the entry loop included |
| NameService.WarnsIffUnlisted | src/isi-nameservice.c:123-172 | a message raises a warning if and only if its command is neither listed nor the common message 0xF0 |
| RadioSettings.Events | src/isi-radiosettings.c:60-79 | nothing without a tree; otherwise the command field comes first, and an empty payload stops at the read of byte 0 |
| RadioSettings.Dissect | src/isi-radiosettings.c:60-79 | appends exactly RadioSettings.Events |
| RadioSettings.AlwaysUnsupported | src/isi-radiosettings.c:73-76 | every message with a command byte is "unknown Radio Settings packet" with exactly one warning |
| RadioSettings.EmptyPayload | src/isi-radiosettings.c:60-79 | an empty payload stops at the read of the command byte, before any summary or warning |
| PhoneInfo.Subpacket | src/isi-phoneinfo.c:378-456 | appends exactly the reader's events for the sub-block type |
| PhoneInfo.StringSubblocks | src/isi-phoneinfo.c:380-381 | IMEI and software version blocks are one string item of the length at 3, copied from 4 |
| PhoneInfo.DspCoreVersion | src/isi-phoneinfo.c:382-386 | the DSP core version block shows the two-byte target at 2, the product at 4, then the string whose length is at 5 |
| PhoneInfo.DspCoreVersionTruncated | src/isi-phoneinfo.c:382-386 | a DSP core version block of 5 bytes or fewer still shows its two fields, then stops at the length read |
| PhoneInfo.UnsupportedSubpacket | src/isi-phoneinfo.c:388-454 | every other type gives exactly one "unsupported subblock" warning |
| PhoneInfo.VariantSubpacket | src/isi-phoneinfo.c:317-376 | appends exactly the variant reader's single warning |
| PhoneInfo.VariantsAlwaysWarn | src/isi-phoneinfo.c:317-376 | the warranty, product type, product info and Bluetooth readers give exactly one warning for every type |
| PhoneInfo.Events | src/isi-phoneinfo.c:458-554 | nothing without a tree; otherwise the command field comes first, and an empty payload stops at the read of byte 0 |
| PhoneInfo.Dissect | src/isi-phoneinfo.c:458-554 | appends exactly PhoneInfo.Events |
| PhoneInfo.ReadResponses | src/isi-phoneinfo.c:475-498 | the three read responses show the status at 1 and walk sub-blocks from 3 |
| PhoneInfo.VersionReadRequest | src/isi-phoneinfo.c:480-484 | INFO_VERSION_READ_REQ shows the two-byte target at 1 and the four-byte target2 at 3 |
| PhoneInfo.UnknownCommands | src/isi-phoneinfo.c:504-551 | listed but undecoded and unknown commands alike give "unknown PhoneInfo packet" and exactly one warning |
| PhoneInfo.CommonMessage | src/isi-phoneinfo.c:500-502 | 0xF0 goes to the common decoder under the name "PhoneInfo" |
| PhoneInfo.ListedQuiet | src/isi-phoneinfo.c:470-498 | every command with a case of its own decodes without a warning |
| PhoneInfo.WarnsIffUnlisted | src/isi-phoneinfo.c:470-552 | a message raises a warning if and only if its command is neither listed nor the common message 0xF0 |
| Call.Subblock | src/isi-call.c:323-415 | appends exactly the reader's items for the sub-block type |
| Call.SubblockQuiet | src/isi-call.c:323-415 | the call sub-block reader never warns, and types other than 0x1C and 0x08 add nothing |
| Call.Events | src/isi-call.c:417-686 | nothing without a tree; otherwise the command field comes first, and an empty payload stops at the read of byte 0 |
| Call.Dissect | src/isi-call.c:417-686 | appends exactly Call.Events |
| Call.StatusRequest | src/isi-call.c:466-470 | CALL_STATUS_REQ shows the call id at 1, then walks sub-blocks from 3 |
| Call.StatusResponse | src/isi-call.c:471-474 | CALL_STATUS_RESP walks sub-blocks from 3 and shows no other field |
| Call.SummaryOnlyCommands | src/isi-call.c:417-676 | every other listed command shows only its summary and raises no warning |
| Call.UnhandledCommands | src/isi-call.c:680-683 | unlisted codes give "unhandled Call packet" and exactly one warning |
| Call.CommonMessage | src/isi-call.c:677-679 | 0xF0 goes to the common decoder under the name "Call" |
| Light.Events | src/isi-light.c:118-137 | nothing without a tree; otherwise the command field comes first, and an empty payload stops at the read of byte 0 |
| Light.Dissect | src/isi-light.c:118-137 | appends exactly Light.Events |
| Light.AlwaysUnsupported | src/isi-light.c:131-134 | every message with a command byte is "unknown Light packet" with exactly one warning |
| Light.EmptyPayload | src/isi-light.c:118-137 | an empty payload stops at the read of the command byte, before any summary or warning |
| Gpds.Qos99NegInfo | src/isi-gpds.c:661-674 | twelve items: six one-byte fields from offset 2, then six two-byte fields from 8 |
| Gpds.QosNegInfo | src/isi-gpds.c:676-682 | five one-byte fields at offsets 2 to 6 |
| Gpds.SharedRel5QosInfo | src/isi-gpds.c:693-696 | two fields, at offsets 2 and 3 |
| Gpds.Subblock | src/isi-gpds.c:699-767 | appends exactly the reader's items for the sub-block type |
| Gpds.UnsupportedSubblock | src/isi-gpds.c:763-765 | a type without a reader gives exactly one "unsupported subblock" warning |
| Gpds.SupportedSubblockQuiet | src/isi-gpds.c:701-709 | the types with a reader never warn, and the DNS address request (0x90) is read as empty |
| Gpds.QosSubblocks | src/isi-gpds.c:701-709 | 0x08 and 0xE4 share the QoS99 reader; 0x03 and 0xF8 use the QoS and Release 5 readers |
| Gpds.SubblockStrings | src/isi-gpds.c:684-709 | the PDP, PDNS and SDNS address blocks are strings with their length at 3, and the APN block has its length at 2 |
| Gpds.Events | src/isi-gpds.c:769-962 | nothing without a tree; otherwise the command field comes first, and an empty payload stops at the read of byte 0 |
| Gpds.Dissect | src/isi-gpds.c:769-962 | appends exactly Gpds.Events |
| Gpds.ContextConfigureRequest | src/isi-gpds.c:806-813 | cid, PDP type, context type and primary cid, then sub-blocks from 7 |
| Gpds.StatusResponse | src/isi-gpds.c:843-852 | the byte counters are four bytes wide at 3 and 7, followed by transfer status and cause |
| Gpds.ContextStatusIndication | src/isi-gpds.c:870-875 | the context id is read at offset 2 and never at 1 |
| Gpds.CommonMessage | src/isi-gpds.c:895-897 | 0xF0 goes to the common decoder under the name "GPDS" |
| Gpds.UnhandledCommands | src/isi-gpds.c:898-959 | listed but undecoded and unknown commands give "unhandled GPDS packet" and exactly one warning |
| Gpds.ListedQuiet | src/isi-gpds.c:781-894 | every command with a case of its own decodes without a warning |
| Gpds.WarnsIffUnlisted | src/isi-gpds.c:781-959 | a message raises a warning if and only if its command is neither decoded nor the common message 0xF0 |
| Pipe.Subblock | src/isi-pipe.c:213-225 | appends exactly the reader's single warning |
| Pipe.SubblockAlwaysWarns | src/isi-pipe.c:213-225 | the pipe sub-block reader decodes nothing and gives exactly one warning for every type |
| Pipe.HandleAndErrors | src/isi-pipe.c:252-268 | four one-byte fields at offsets 1 to 4 |
| Pipe.Events | src/isi-pipe.c:227-341 | nothing without a tree; otherwise the command field comes first, and an empty payload stops at the read of byte 0 |
| Pipe.Dissect | src/isi-pipe.c:227-341 | appends exactly Pipe.Events |
| Pipe.CreateRequest | src/isi-pipe.c:240-251 | PNS_PIPE_CREATE_REQ shows eight one-byte fields at 1-5 and 7-9, skipping 6, then walks sub-blocks from 11 |
| Pipe.WalkOffsets | src/isi-pipe.c:273-306 | the PEP connect request and response walk from offset 7, and PIPE_CREATED_IND from 3 |
| Pipe.Responses | src/isi-pipe.c:252-268 | the create and enable responses show handle, error and the two PEP errors at 1 to 4 |
| Pipe.UnhandledCommands | src/isi-pipe.c:315-338 | listed but undecoded and unknown commands give "unhandled Pipe packet" and exactly one warning |
| Pipe.CommonMessage | src/isi-pipe.c:312-314 | 0xF0 goes to the common decoder under the name "PIPE" |
| Pipe.ListedQuiet | src/isi-pipe.c:239-311 | every command with a case of its own decodes without a warning |
| Pipe.WarnsIffUnlisted | src/isi-pipe.c:239-338 | a message raises a warning if and only if its command is neither decoded nor the common message 0xF0 |
| Selftest.Subblock | src/isi-selftest.c:292-306 | appends exactly the reader's items for the sub-block type |
| Selftest.SubblockResult | src/isi-selftest.c:287-306 | only the result sub-block is decoded (test id at 2, status at 3, no warning); every other type warns exactly once |
| Selftest.Events | src/isi-selftest.c:308-383 | nothing without a tree; otherwise the command field comes first, and an empty payload stops at the read of byte 0 |
| Selftest.Dissect | src/isi-selftest.c:308-383 | appends exactly Selftest.Events |
| Selftest.RunAndResults | src/isi-selftest.c:321-340 | run and results-get requests show the test type at 1 and responses the status, and all four walk from 3 |
| Selftest.NamedButUnsupported | src/isi-selftest.c:341-372 | commands 0x04-0x0B keep their own summary and still warn exactly once |
| Selftest.UnhandledCommands | src/isi-selftest.c:377-380 | codes past 0x0B, 0xF0 aside, give "unhandled Selftest packet" and exactly one warning |
| Selftest.CommonMessage | src/isi-selftest.c:374-376 | 0xF0 goes to the common decoder under the name "Selftest" |
| CommMgr.ResourceItems | src/isi-commgr.c:72-74 | cnt items, where item f is the resource byte at offset 2 + f |
| CommMgr.Resources | src/isi-commgr.c:67-75 | the count at 1 is read before any item (a payload under 2 bytes stops there); otherwise the count field, then that many resource items |
| CommMgr.ShowResources | src/isi-commgr.c:67-75 | the loop appends exactly Resources |
| CommMgr.ResourceOffsets | src/isi-commgr.c:67-75 | the resource items cover exactly the bytes 2 to 1 + count, in order |
| CommMgr.Events | src/isi-commgr.c:77-113 | nothing without a tree; otherwise the command field comes first, and an empty payload stops at the read of byte 0 |
| CommMgr.Dissect | src/isi-commgr.c:77-113 | appends exactly CommMgr.Events |
| CommMgr.Indication | src/isi-commgr.c:90-105 | each indication shows its summary, the count at 1, then that many resource items from 2, and no warning |
| CommMgr.DistinctNames | src/isi-commgr.c:90-105 | the four indications have four different summaries |
| CommMgr.UnknownCommands | src/isi-commgr.c:107-110 | other commands give "unknown Indication packet" and exactly one warning without reading byte 1 |

## Left out

- The sub-block walker `dissect_isi_subpacket` is not part of this model. Only its prototype (src/packet-isi.h) is available. A walk appears as one `Walk(offset, reader)` event, and the readers are modelled as separate members.
- The SIM authentication and GPS decoders, whose handoffs `proto_reg_handoff_isi` also calls, are not part of this model.
- The registration functions, header-field arrays and value_string tables are not modelled. Items are named by their field and never rendered.
- The "Payload" and top-level protocol tree items and the subtrees are not modelled. Only the items added inside them are.
- The COL_DEF_SRC and COL_DEF_DST device names are not modelled, because they only look up a string table.
- The capture hookup is not modelled: the `sll.ltype` registration, the heuristic `usb.bulk` registration and the `initialized` flags.
- Wireshark's exception on a short buffer is modelled only for the reads a decoder makes with `tvb_get_*`. Items added with `proto_tree_add_item` past the end are modelled as added; Wireshark's own bounds check on them is left out.
- Memory handling is not modelled (`tvb_memdup`, `g_malloc` and freeing). Only the bytes copied and the NUL terminator are.
- The four PhoneInfo variant readers are modelled, but no code path calls them in the source.
- NameService.Events: for the query response and the two indications, the source passes the registered field id `hf_isi_nameservice_matches` as the entry loop's count, not a value read from the message. That id is fixed at field registration, which is not modelled, so it is the opaque parameter `matchesId`.
- Isi.DecoderEvents: resource decoders are always given a tree, as the frame decoder only dispatches under `if(tree)`.
- Isi.UsbEvents: the empty buffer's exception is modelled as a refusal with a truncation event, not as an exception leaving the heuristic dissector.
- Isi.Clamp: stated only for frames shorter than 2^32 bytes, where `tvb->length - 8` does not wrap a second time.
- Isi.PayloadSlice: stated only for frames shorter than 2^32 bytes, for the same reason.
- Gpds.CommandEvents: covers every command but 0xF0, which `Gpds.Events` sends to the common decoder.
- Network.OperatorName: the string item is modelled as the bytes utf16_to_ascii produced. Wireshark shows a NUL-terminated string, so a name containing a 0 byte is displayed only up to that byte; the model does not capture this cut.
- The helper functions, predicates and lemmas with no row (`Isi.OverrideStep`, a map identity the proof of `Isi.Registry.Handoff` uses, `Decoded`, `CommandName`, `CommandItems`, `Prefix`, `Tail`, `SubblockEvents` and the `Wire` log helpers, among them `Wire.QuietWarnings`) are the definitions the rows' contracts are stated over.
