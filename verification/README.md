# Verification of the messaging core

A Dafny 4.11 model of the hard core of the gateway framework, with proofs about it. It covers

- long messages: splitting, the two concatenation headers (3GPP TS 23.040, sections 9.2.3.24.1 and
  9.2.3.24.8) with their two parsers, reference numbers, and the merger with its lazy cleanup;
- the byte-stream framers of the client, the server and the codecs;
- the CMPP 2.0 and 3.0 codec for Submit, Deliver, their responses and delivery receipts, from the
  padded fields through header, registry and version dispatch to the unified model and back;
- the textual SMGP receipt;
- the sliding window and the client's response registry as concurrent protocols;
- the smooth rate limiter, connection eviction and round-robin selection.

Code that changes state is modelled by classes and methods, each proved against a specification
function; the laws are lemmas about those functions. Tasks are interleaved steps, one per lock
section; the clock is a parameter. `dafny verify dfyconfig.toml` checks the project.

The main results, by module:

- `Pipeline.LongMessageEndToEnd` puts the first three parts together: split, encode, write, read in any
  pieces, frame, decode, merge.
- `MergerRuns.RunRefines` and `MessageDelivered` are about every run of the merger; `Reassembly` holds
  the board it refines, which knows no keys, lists or sorting.
- `Framing.ChunkingInvariance`, `ScanConserves` and `StrictAgrees` are about every byte stream.
- `CmppLaws` holds the round trips, each with the exact condition, `CmppRelay` what a PDU loses on its
  way up to the unified model and down again, and `CmppLayout` the bodies byte by byte.
- `WindowProtocol.NoLostWakeup`, `WindowConserves` and the lemmas at the end of `ClientInflight` are
  about every interleaving.
- `RateLimiter.SlidingWindowBound`, `IdleThenServed`, `SteadyRateGranted`, `ChangeOfRate` and
  `ChangeOfRateDoubles`, `Pool.EvictionExact` and `RoundRobinFair`.

Some natural claims are false of the code. Each is kept as the code has it, with an input or a run that
shows it fails and the exact condition under which it holds:

- Splitting more than 255 payloads loses the tail, or everything: the total is cast to a byte
  (`Split.SplitIsPartitionIff`, `WrappedTotalLosesEverything`).
- A CMPP 3.0 receipt is read at the CMPP 2.0 offsets (`CmppReport.V30ReportRoundTrip`).
- A frame with the id of a request can be handled between the window's admission and the registration
  of the response channel; the waiter is then forgotten (`ClientInflight.EarlyFrameStrandsWaiter`,
  `ForgottenForGood`), and this is the only way (`UnresolvedExplained`).
- A send under way while the connection goes down can register after the drain, although the
  documentation says that all requests in flight fail at once (`ClientInflight.DisconnectStrandsSender`);
  they do exactly when no sender is under way (`DrainEndsAllIff`).
- A change of rate can double the burst (`RateLimiter.ChangeOfRateDoubles`), and does no harm exactly
  when the last reservation lay in the past or the clocks agreed (`ChangeOfRate`).
- The rotation over connections leaves one out when the 64-bit cursor wraps around and their number
  does not divide 2^64 (`Pool.RotationComplete`).
- The generic receipt reader searches the binary message id too (`SmgpReport.MisleadingMessageId`,
  `ReceiptTextAgrees`).
- A Submit whose extras ask for CMPP 2.0 is written in that layout even on a CMPP 3.0 connection, and does
  not arrive (`CmppLaws.SubmitArrives`).
- The documentation gives the UCS-2 segment limit in characters; the code counts bytes, and so does
  the model (`Split.MaxPerSegment`).

## Model

| member | source | states |
|---|---|---|
| Pipeline.LongMessageEndToEnd | examples/cmpp_server/src/main.rs:376-426 | a content of more than one and at most 255 payloads, split, sent segment by segment in CMPP Submits of either version with whatever extras, encoding and addresses CMPP can send at all, written among other well-framed PDUs, read in any pieces, framed, decoded and merged under the first destination, in any order with repeats, by a merger that other connections use too, within the time-to-live: no output for it before the last missing segment, then exactly the content |
| Pipeline.ClientMessageArrives | examples/cmpp_client/src/main.rs:155-204 | the example client's long message, sent segment by segment in order, comes whole out of a new server, for every content, account, phone number, encoding, version and cutting of the bytes into reads |
| Pipeline.FrameSurvivesWire | examples/cmpp_client/src/main.rs:176-197 | each frame of the splitter is rebuilt byte for byte from the decoded Submit, for the receiver addressed first, under any sequence number, in both versions; its PDU is one frame of the byte stream |
| Pipeline.PhoneSeparates | examples/cmpp_server/src/main.rs:376-381 | different phone numbers are different senders to the merger |
| Pipeline.FramerReadsHeader | crates/rsms-connector/src/client.rs:108-129 | the framers of client and server read from every encoded PDU its command number and the sequence number it was given |
| Pipeline.ClientSubmitSendable | examples/cmpp_client/src/main.rs:129-150 | the example client's own Submit, default extras and all, is sendable in either version exactly when account and phone fit their fields and header and content the length byte |
| Pipeline.ShortMessageSurvivesWire | crates/rsms-longmsg/src/split.rs:64-73 | a content that fits one segment becomes one frame without header, and is decoded unchanged exactly when no header is announced or none can be seen in it |
| Pipeline.ArrivalCarries | examples/cmpp_server/src/main.rs:412-426 | the PDU of a segment leads to an event of the right bucket that carries the segment's number and, under the header, its slice of the content |
| Pipeline.SegmentsAssemble | crates/rsms-longmsg/src/merge.rs:127-132 | the slices in ascending order are the content up to the corresponding boundary |
| Udh.ParsersAgree | crates/rsms-longmsg/src/frame.rs:160-203 | Concat::from_udh and UdhParser::extract_udh accept the same byte strings, read the same header and cut at the same place |
| Udh.PrefixRoundTrip | crates/rsms-model/src/types.rs:139-155 | both parsers read back the printed prefix in front of any payload, and stripping leaves the payload |
| Udh.CanonicalPrefix | crates/rsms-model/src/types.rs:160-189 | the canonical prefix is never longer than the header it was read from, and equals it exactly when re-printing changes nothing |
| Split.LongMessageSplitter.Split | crates/rsms-longmsg/src/split.rs:57-114 | the loop returns Segmentation for the generator's reference and takes one reference exactly when the content needs segments |
| Split.SplitIsPartitionIff | crates/rsms-longmsg/src/split.rs:57-114 | the stripped payloads concatenate to the content exactly when it has at most 255 payloads; beyond that the u8 total has wrapped |
| Split.SegmentsWellFormed | crates/rsms-longmsg/src/split.rs:83-111 | segments are numbered 1..total under one reference with minimal total, each at most the alphabet's limit and all but the last at it, the header width subtracted being the one written |
| Split.SegmentCount | crates/rsms-longmsg/src/split.rs:57-92 | in numbers: 153 bytes of 7-bit text, 67 of UCS-2 or 134 of binary data travel in one segment unchanged; otherwise a segment holds 6 or 7 bytes less and there are as few as will do |
| Split.FrameBytes | crates/rsms-longmsg/src/split.rs:116-153 | the hand-written header bytes are the unified model's prefix, and both parsers recover the frame's own fields |
| Split.WrappedTotalLosesEverything | crates/rsms-longmsg/src/split.rs:84-84 | a binary content of 256 payloads is split into no frame at all |
| ReferenceId.SeedsDistinct | crates/rsms-longmsg/src/reference_id.rs:59-75 | any two of 65536 consecutive seeds differ in their low 16 bits, for every time base and counter value, across wrap-arounds |
| ReferenceId.SeedsFullPeriod | crates/rsms-longmsg/src/reference_id.rs:59-75 | among 65536 consecutive seeds every reference occurs |
| ReferenceId.ReferencesRepeatEvery65536 | crates/rsms-longmsg/src/reference_id.rs:33-35 | two references of one generator agree exactly when the calls lie a multiple of 65536 apart |
| Merge.LongMessageMerger.Add | crates/rsms-longmsg/src/merge.rs:90-136 | the map of entries, each with its own bitmap, moves from one abstract store to the next as AddFrame says, with the same answer |
| Merge.LongMessageMerger.Cleanup | crates/rsms-longmsg/src/merge.rs:75-79 | exactly the entries not older than the time-to-live stay, untouched |
| Merge.PendingEntry.AddFrame | crates/rsms-longmsg/src/merge.rs:28-35 | a number already received changes nothing; a new one is recorded and its frame appended |
| Merge.JoinAll | crates/rsms-longmsg/src/merge.rs:127-132 | the loop concatenates the stripped payloads in order |
| Reassembly.KeyInjective | crates/rsms-longmsg/src/merge.rs:101-104 | frames share a bucket only if sender, reference and total agree, even when the sender contains the separator |
| Reassembly.StepRefines | crates/rsms-longmsg/src/merge.rs:90-136 | one add_frame, on any frame, refines the board that keeps the first payload per number and hands over the ascending concatenation when total numbers have arrived |
| Reassembly.SortedFramesAssemble | crates/rsms-longmsg/src/merge.rs:121-132 | sorting the stored frames and joining what is stripped from them is the ascending assembly by number |
| MergerRuns.RunRefines | crates/rsms-longmsg/src/merge.rs:90-136 | every run of add_frame on arbitrary frames gives the board's answers and ends in a store that represents the board |
| MergerRuns.StoredGroupsInProgress | crates/rsms-longmsg/src/merge.rs:110-135 | in every run a stored group has at least one and fewer than total distinct numbers, and its frames are one for each number in its bitmap |
| MergerRuns.WholeFrameReturned | crates/rsms-longmsg/src/merge.rs:90-99 | a frame that is a whole message comes back at once, and only expired groups can go |
| MergerRuns.LoneSegment | crates/rsms-longmsg/src/merge.rs:110-135 | a segment that needs no other comes back at once without its header, and nothing of it is kept |
| MergerRuns.RepeatIgnored | crates/rsms-longmsg/src/merge.rs:112-116 | a number received already changes nothing in a group that has not expired, and yields nothing |
| MergerRuns.NewNumberAdded | crates/rsms-longmsg/src/merge.rs:110-119 | a new number is appended to its group, and every other group that has not expired stays as it is |
| MergerRuns.LazyCleanupBound | crates/rsms-longmsg/src/merge.rs:97-99 | after any call of any run with a fixed time-to-live and a clock that does not go back, every stored group is younger than twice the time-to-live |
| MergerRuns.LazyCleanupBoundIsTight | crates/rsms-longmsg/src/merge.rs:97-99 | a group can be one tick short of twice the time-to-live old |
| MergerRuns.MessageDelivered | crates/rsms-longmsg/src/merge.rs:90-136 | segments of one group in any order, repeated and interleaved with anything, within the time-to-live: silence until the last missing number, then the ascending concatenation |
| Framing.DecodeFrames | crates/rsms-connector/src/client.rs:131-154 | the client's loop pushes the frames of Scan with their identifiers and keeps its leftover |
| Framing.DecodeFramesDrain | crates/rsms-connector/src/connection.rs:522-565 | the server's loop pushes the frames of Scan from length 4 on, zeros for identifiers a frame is too short for, and keeps its leftover |
| Framing.StrictDecoder.DecodeFrames | crates/rsms-codec-cmpp/src/frame.rs:23-48 | a strict codec loop returns the frames and the leftover, or the first bad length with the bytes from there on |
| Framing.ScanConserves | crates/rsms-connector/src/client.rs:131-154 | on every stream the frames, the skipped bytes and the leftover are the stream in order; frames are well formed and the leftover is shorter than the largest frame |
| Framing.ChunkingInvariance | crates/rsms-connector/src/client.rs:131-154 | however a stream is cut into reads, frames, skipped bytes and leftover are those of one read |
| Framing.LeftoverIsStuck | crates/rsms-connector/src/connection.rs:522-565 | decoding a leftover again yields nothing and keeps it |
| Framing.StrictAgrees | crates/rsms-codec-cmpp/src/frame.rs:30-48 | a strict decoder succeeds exactly when a resynchronising one skips nothing, with the same frames and leftover |
| Framing.StrictChunkingInvariance | crates/rsms-codec-cmpp/src/frame.rs:30-48 | a strict decoder's frames and leftover, or the bad length it reports, do not depend on the reads |
| Framing.DecodersAgreeOnWellFramed | crates/rsms-connector/src/connection.rs:522-565 | on well-formed frames client, server and strict decoders return exactly those frames and keep nothing, under any reads |
| Framing.HeadersAgree | crates/rsms-connector/src/client.rs:108-129 | client and server read the same identifiers from every frame long enough for a header |
| Wire.BytesMut.EncodePstring | crates/rsms-core/src/pstring.rs:4-22 | a value that fits is written and padded with zero bytes, any other leaves the buffer alone |
| Wire.Cursor.DecodePstring | crates/rsms-core/src/pstring.rs:24-36 | reads exactly the width and drops the trailing zero bytes, or fails when too little is left |
| Wire.TrimPad | crates/rsms-core/src/pstring.rs:24-36 | a padded text reads back exactly when it does not end in a zero byte |
| Wire.TrimFits | crates/rsms-core/src/pstring.rs:24-36 | what is read from a field fits it, and padding it gives the field back |
| CmppSubmit.SubmitEncode | crates/rsms-codec-cmpp/src/datatypes/submit.rs:83-170 | writes the body, or reports the first field that does not fit |
| CmppSubmit.SubmitDecode | crates/rsms-codec-cmpp/src/datatypes/submit.rs:200-269 | reads the body by its table of offsets, destinations and content included, or reports it incomplete |
| CmppSubmit.SubmitRoundTrip | crates/rsms-codec-cmpp/src/datatypes/submit.rs:82-274 | a printable CMPP 3.0 Submit reads back exactly when every text fits without a trailing zero byte and the destination count is true |
| CmppSubmit.SubmitAtFits | crates/rsms-codec-cmpp/src/datatypes/submit.rs:200-269 | whatever is decoded fits the fields it is printed to |
| CmppV20.SubmitV20Encode | crates/rsms-codec-cmpp/src/datatypes/v20.rs:95-133 | writes the CMPP 2.0 body, or the error of the first field that does not fit |
| CmppV20.SubmitV20Decode | crates/rsms-codec-cmpp/src/datatypes/v20.rs:135-208 | reads the CMPP 2.0 body by its table of offsets, or reports it incomplete |
| CmppV20.SubmitV20RoundTrip | crates/rsms-codec-cmpp/src/datatypes/v20.rs:95-208 | the same round trip for CMPP 2.0, with 21-byte terminals and the reserved bytes |
| CmppV20.DeliverV20Encode | crates/rsms-codec-cmpp/src/datatypes/v20.rs:371-396 | writes the CMPP 2.0 Deliver, or the error of the first field that does not fit |
| CmppV20.DeliverV20Decode | crates/rsms-codec-cmpp/src/datatypes/v20.rs:291-337 | reads the CMPP 2.0 Deliver by its table of offsets, or reports it incomplete |
| CmppV20.DeliverV20RoundTrip | crates/rsms-codec-cmpp/src/datatypes/v20.rs:291-396 | a printable CMPP 2.0 Deliver reads back exactly when its texts fit without a trailing zero byte |
| CmppDeliver.DeliverEncode | crates/rsms-codec-cmpp/src/datatypes/deliver.rs:49-92 | writes the CMPP 3.0 Deliver, or reports the first field that does not fit |
| CmppDeliver.DeliverDecode | crates/rsms-codec-cmpp/src/datatypes/deliver.rs:100-139 | reads the CMPP 3.0 Deliver by its table of offsets, or reports it incomplete |
| CmppDeliver.DeliverRoundTrip | crates/rsms-codec-cmpp/src/datatypes/deliver.rs:48-144 | a printable CMPP 3.0 Deliver reads back exactly when its texts fit without a trailing zero byte |
| CmppResp.RespRoundTrip | crates/rsms-codec-cmpp/src/datatypes/submit.rs:287-381 | the wide response always survives, the narrow one exactly when the result fits a byte |
| CmppReport.ToFixedBytes | crates/rsms-codec-cmpp/src/datatypes/deliver.rs:319-334 | the fields one after the other, each cut or padded to its width |
| CmppReport.V20ReportRoundTrip | crates/rsms-codec-cmpp/src/datatypes/deliver.rs:272-347 | a 60-byte receipt is recovered exactly when a state is given and its texts are plain |
| CmppReport.V30ReportRoundTrip | crates/rsms-codec-cmpp/src/datatypes/deliver.rs:272-341 | a 71-byte receipt, read at the CMPP 2.0 offsets, is recovered exactly when in addition the terminal fits 21 bytes and the sequence number is zero |
| CmppReport.LongTerminalIsCut | crates/rsms-codec-cmpp/src/datatypes/deliver.rs:290-299 | a 22-byte terminal is not recovered from a 71-byte receipt |
| CmppReport.StateSurvives | crates/rsms-codec-cmpp/src/datatypes/deliver.rs:272-334 | a state comes back from the seven bytes of its field exactly when it is one of the six or a foreign code that fits them |
| Status.StatCodeRoundTrip | crates/rsms-model/src/types.rs:69-94 | a state is recovered from its code exactly when it is one of the six or carries a foreign code in canonical form |
| CmppLayout.StateSpelled | crates/rsms-model/src/types.rs:69-94 | the seven letters that stand for each of the six states, both ways |
| CmppCodec.HeaderDecode | crates/rsms-codec-cmpp/src/codec.rs:28-58 | the header's three numbers, or the error of a short buffer, an unknown command or a length out of bounds, in that order |
| CmppCodec.HeaderDecides | crates/rsms-codec-cmpp/src/codec.rs:28-58 | a header is accepted exactly when it is there, names a command and announces 12 to 65536 bytes; otherwise the first of these is reported |
| CmppCodec.VersionNegotiated | crates/rsms-codec-cmpp/src/datatypes/command_id.rs:74-84 | each version's byte names it, 0 and 1 mean CMPP 2.0, and any other byte, or none, CMPP 3.0 |
| CmppCodec.ToPduBytes | crates/rsms-codec-cmpp/src/codec.rs:190-205 | reserving, writing and patching give the frame with its true length; the panic on an encoding error is the error returned |
| CmppCodec.RegistryComplete | crates/rsms-codec-cmpp/src/registry.rs:58-88 | after all registrations each version's registry knows every command and holds that version's decoder for it, the later registrations having replaced the earlier |
| CmppCodec.PduRegistry.RegisterAllPdus | crates/rsms-codec-cmpp/src/registry.rs:58-88 | the entries after the registrations in their order |
| CmppCodec.PduRegistry.Dispatch | crates/rsms-codec-cmpp/src/registry.rs:49-56 | a body is decoded by the decoder of the registry's version for the header's command |
| CmppCodec.DecodeMessageWithVersion | crates/rsms-codec-cmpp/src/message.rs:154-249 | header, registry and body decoder in sequence, an unknown version byte meaning CMPP 3.0 |
| CmppCodec.MessageEncode | crates/rsms-codec-cmpp/src/message.rs:254-342 | CMPP 2.0 responses are written narrow, everything else through the PDU's own encoder |
| CmppCodec.FrameReads | crates/rsms-codec-cmpp/src/codec.rs:28-65 | a frame's header reads back and its body stands behind it |
| CmppCodec.TruncatedRefused | crates/rsms-codec-cmpp/src/datatypes/submit.rs:200-206 | a frame shorter than its header announces is refused, a Submit or Deliver as incomplete |
| CmppCodec.MessageRoundTrip | crates/rsms-codec-cmpp/src/message.rs:154-342 | an encodable message is decoded again by a connection of its version exactly when it fits the wire |
| CmppCodec.FittingMessageIsFrame | crates/rsms-codec-cmpp/src/codec.rs:190-205 | every message that fits the wire is encoded into one frame: its length stands in front, between 12 and 65536 |
| CmppCodec.DecodedFits | crates/rsms-codec-cmpp/src/message.rs:154-249 | every decoded message is of the connection's version and fits the wire |
| CmppCodec.VersionsNeverMix | crates/rsms-codec-cmpp/src/datatypes/submit.rs:300-371 | a response frame of one version is rejected by the other for its length |
| CmppAdapter.EncodeWithVersion | crates/rsms-codec-cmpp/src/adapter.rs:499-513 | translation and message encoder in sequence |
| CmppAdapter.DecodeWithVersion | crates/rsms-codec-cmpp/src/adapter.rs:486-493 | message decoder and translation in sequence |
| CmppAdapter.EncodingRoundTrip | crates/rsms-codec-cmpp/src/adapter.rs:23-40 | every format byte survives, and an encoding survives exactly when CMPP tells it apart from the others |
| CmppAdapter.UdhRoundTrip | crates/rsms-codec-cmpp/src/adapter.rs:44-63 | splitting undoes joining whenever the flag and the content are consistent |
| CmppAdapter.SplitShrinks | crates/rsms-codec-cmpp/src/adapter.rs:44-51 | what is split off never grows when it is joined again |
| CmppLaws.SubmitRoundTrips | crates/rsms-codec-cmpp/src/adapter.rs:65-132 | decoding what was encoded gives a unified Submit back, in either version, exactly when it is well formed |
| CmppLaws.SubmitArrives | crates/rsms-codec-cmpp/src/adapter.rs:275-342 | any unified Submit at all arrives as what CMPP makes of it, in bare numbers, a known encoding, the version's fields and no parameters, exactly when that fits and its extras do not ask for the other version's layout |
| CmppLaws.Gsm7ArrivesAsAscii | crates/rsms-codec-cmpp/src/adapter.rs:32-40 | 7-bit text is sent in the bytes of ASCII and arrives as ASCII |
| CmppLaws.SubmitCanonical | crates/rsms-codec-cmpp/src/adapter.rs:275-342 | re-encoding a decoded Submit succeeds, keeps header and content within 255 bytes, changes only the header flag of the unified message, and is then stable |
| CmppLaws.DeliverRoundTrips | crates/rsms-codec-cmpp/src/adapter.rs:382-410 | decoding what was encoded gives a mobile-originated Deliver back, in either version, exactly when it is well formed |
| CmppLaws.DeliverArrives | crates/rsms-codec-cmpp/src/adapter.rs:382-410 | any mobile-originated Deliver arrives as what CMPP makes of it exactly when that fits, unless its extras ask for the other version's layout |
| CmppLaws.ExtrasChooseVersion | crates/rsms-codec-cmpp/src/adapter.rs:288-300 | extras of CMPP 2.0 choose its layout for Submit and Deliver, whatever the connection |
| CmppLaws.DeliverCanonical | crates/rsms-codec-cmpp/src/adapter.rs:134-208 | re-encoding a decoded Deliver succeeds and decodes to the same message |
| CmppLaws.ReportRoundTrips | crates/rsms-codec-cmpp/src/adapter.rs:411-455 | decoding what was encoded gives a report back exactly when its receipt has the version's length and says what the report says |
| CmppLaws.ReportCanonical | crates/rsms-codec-cmpp/src/adapter.rs:134-208 | re-encoding a decoded report succeeds, replaces receipts of another length, and from then on gives the same bytes |
| CmppLaws.ReportMadeAnew | crates/rsms-codec-cmpp/src/adapter.rs:411-455 | a report whose receipt is made anew, as one from another protocol, arrives with its two addresses, with the first eight bytes of its binary id, padded, and with its own state exactly when that is one of the six or a foreign code that fits; the receipt names the source as the terminal |
| CmppLaws.SubmitRespRoundTrips | crates/rsms-codec-cmpp/src/adapter.rs:343-354 | a Submit response survives exactly when its id is eight binary bytes and, in CMPP 2.0, its status fits a byte |
| CmppLaws.DeliverRespAccepts | crates/rsms-codec-cmpp/src/adapter.rs:355-380 | the responses to Deliver and to a report are zero id and result zero in the width of the version, and read as such |
| CmppLaws.EncodedHeader | crates/rsms-codec-cmpp/src/adapter.rs:275-455 | whatever is encoded has its true length, its command number and the sequence number asked for in its header |
| CmppRelay.RelayOnTheWire | crates/rsms-codec-cmpp/src/adapter.rs:65-132 | on the wire, a Submit or mobile-originated Deliver that is decoded and encoded again reads as the one that came except for the named fields: delivery flag, header and its flag, the reserved bytes of CMPP 2.0, and all that a Deliver has besides addresses, format and content |
| CmppRelay.RelayUnchangedIff | crates/rsms-codec-cmpp/src/adapter.rs:44-63 | exactly those Submits pass unchanged whose delivery flag is 0 or 1, whose header, if one is seen, is in the shortest form under the flag 1, and whose reserved bytes are zero |
| CmppRelay.RelaySettles | crates/rsms-codec-cmpp/src/adapter.rs:275-342 | one hop settles a message: the next ones change nothing but the sequence number |
| CmppLayout.SubmitLayout | crates/rsms-codec-cmpp/src/datatypes/submit.rs:83-170 | the CMPP 3.0 Submit byte by byte: at which offset and width each field stands |
| CmppLayout.SubmitV20Layout | crates/rsms-codec-cmpp/src/datatypes/v20.rs:95-133 | the CMPP 2.0 Submit byte by byte |
| CmppLayout.DeliverLayout | crates/rsms-codec-cmpp/src/datatypes/deliver.rs:49-92 | the CMPP 3.0 Deliver byte by byte |
| CmppLayout.DeliverV20Layout | crates/rsms-codec-cmpp/src/datatypes/v20.rs:371-396 | the CMPP 2.0 Deliver byte by byte |
| CmppLayout.RespLayout | crates/rsms-codec-cmpp/src/datatypes/submit.rs:287-381 | the two widths of a response byte by byte |
| CmppLayout.SubmitFields | crates/rsms-codec-cmpp/src/adapter.rs:275-342 | which field of a sendable unified Submit becomes which field on a CMPP 3.0 connection, one by one, format numbers and header included |
| CmppLayout.SubmitV20Fields | crates/rsms-codec-cmpp/src/adapter.rs:275-342 | the same on a CMPP 2.0 connection, with zeros in the reserved bytes |
| CmppLayout.DeliverFields | crates/rsms-codec-cmpp/src/adapter.rs:382-410 | a well-formed unified Deliver becomes its addresses, format, header and content, and zeros for everything else |
| SmgpReport.ToBytes | crates/rsms-codec-smgp/src/datatypes/deliver.rs:216-262 | keys, fields and separators in order, cut or filled with spaces to 122 bytes |
| SmgpReport.ReceiptRoundTrip | crates/rsms-codec-smgp/src/datatypes/deliver.rs:167-262 | for fields of the stated widths free of spaces and colons and any ten bytes of message id, the receipt is recovered exactly when its text is stable under the two trims |
| SmgpReport.StatFound | crates/rsms-codec-smgp/src/datatypes/deliver.rs:206-214 | in a receipt of the stated widths the key is found where the printer put it, whatever its message id and its text contain |
| SmgpReport.ReceiptTextIs | crates/rsms-model/src/types.rs:98-110 | without the key a receipt text says nothing; otherwise the code starts behind the first key and ends before white space |
| SmgpReport.ReceiptTextAgrees | crates/rsms-model/src/types.rs:98-110 | for a state without white space, the generic receipt reader finds the same state exactly unless the message id contains the key; and even then, if the key ends the id or white space follows it and the state is the unknown one |
| SmgpReport.MisleadingMessageId | crates/rsms-model/src/types.rs:98-110 | a message id that spells the key out misleads the generic reader but not the parser |
| Window.Window.TryOffer | crates/rsms-window/src/window.rs:201-217 | a key is admitted exactly when it is not live and there is room, and then the map has that entry more; a live key is a duplicate, any other finds the window full, and both change nothing |
| Window.Window.ExpireTick | crates/rsms-window/src/window.rs:318-342 | removes exactly the entries older than their timeout, lists each once, and answers whether any was removed |
| WindowProtocol.NoLostWakeup | crates/rsms-window/src/window.rs:219-283 | in every interleaving a refused offer that has not been notified since faces a full window or a remover that is about to notify |
| WindowProtocol.WindowConserves | crates/rsms-window/src/window.rs:201-342 | in every interleaving the window keeps its size, admits no live key, and admissions are completions, failures, cancellations, expiries and what is pending |
| WindowProtocol.OfferDecided | crates/rsms-window/src/window.rs:219-237 | in every run a registered offer whose key is free is admitted when it tries and there is room; a live key is turned away, and only a full window makes it wait |
| WindowProtocol.RemovalAdmitsWaiter | crates/rsms-window/src/window.rs:219-283 | a completion, failure or cancellation lets a waiting offer in: the remover notifies, the offer wakes, tries again and is admitted |
| WindowProtocol.TimerTriesAgain | crates/rsms-window/src/window.rs:239-249 | when the timer fires first the offer tries once more for the same key, and is admitted if there is room |
| WindowProtocol.LateRegistrationLosesWakeup | crates/rsms-window/src/window.rs:222-226 | why the order matters: in the variant that registers after the attempt, a run leaves an offer in front of an empty window, not notified and with nobody left to notify it, so that only its timer ends the wait |
| ClientInflight.Channels.DrainAll | crates/rsms-connector/src/client.rs:386-393 | the loop empties the map and closes every channel that was in it, as the drain step of the protocol says |
| ClientInflight.WaitersParted | crates/rsms-connector/src/client.rs:429-486 | in every interleaving a registered waiter is pending or resolved, never both, and an answer carries its own sequence id |
| ClientInflight.ResolvedOnce | crates/rsms-connector/src/client.rs:788-800 | what a waiter has received never changes, however the run goes on |
| ClientInflight.AnswerReachesWaiter | crates/rsms-connector/src/client.rs:796-800 | in every run, when the reader has completed the id of a pending waiter, its next step resolves that waiter, and nobody else, with the answer |
| ClientInflight.EarlyMeansNoChannel | crates/rsms-connector/src/client.rs:796-800 | in every run a frame is passed over only when no channel stands under its id, and then nobody is resolved |
| ClientInflight.AnsweredRequest | crates/rsms-connector/src/client.rs:429-486 | a request that is sent, answered and read leaves window, channels and senders as they were and its waiter with the frame of its own id |
| ClientInflight.FailedWrite | crates/rsms-connector/src/client.rs:475-482 | a failed write takes window entry and channel back and resolves the waiter as withdrawn |
| ClientInflight.RefusedOffer | crates/rsms-connector/src/client.rs:453-461 | a refused offer leaves nothing behind |
| ClientInflight.WindowBounded | crates/rsms-connector/src/client.rs:453-461 | in every run at most the window's size of requests are in it |
| ClientInflight.DrainClosesPending | crates/rsms-connector/src/client.rs:382-394 | the drain closes exactly the pending channels and touches neither window nor senders |
| ClientInflight.UnresolvedExplained | crates/rsms-connector/src/client.rs:788-800 | in every interleaving an unresolved waiter's id is in the window, or has expired, or is in the reader's or its own sender's hand, exactly unless a frame with that id was handled before the waiter registered |
| ClientInflight.EarlyFrameStrandsWaiter | crates/rsms-connector/src/client.rs:453-466 | a run in which that happens, the send succeeds, and the waiter's id has left the window without expiring and is in nobody's hand |
| ClientInflight.ForgottenForGood | crates/rsms-connector/src/client.rs:453-486 | however the run goes on, such a waiter stays pending, unless the connection is drained or its own sender withdraws it after a failed write |
| ClientInflight.DisconnectLeavesStraddlers | crates/rsms-connector/src/client.rs:382-394 | after a drain only senders that were between the check and the registration can still be pending |
| ClientInflight.DrainEndsAllIff | crates/rsms-connector/src/client.rs:382-394 | with a window that holds anything at all, the drain of a disconnected client ends all waiting, in every continuation in which the connection is not marked ready again, exactly when at that moment no sender is between the check and the registration |
| ClientInflight.DisconnectStrandsSender | crates/rsms-connector/src/client.rs:437-466 | a run in which such a sender is left pending on a dead connection |
| RateLimiter.Inner.TryAcquire | crates/rsms-ratelimit/src/smooth_rate_limiter.rs:74-80 | grants exactly when the reservation has nothing to wait for, and leaves the reserved state |
| RateLimiter.Inner.ReserveAndGetWaitLength | crates/rsms-ratelimit/src/smooth_rate_limiter.rs:109-136 | the new state and the wait, field by field |
| RateLimiter.SlidingWindowBound | crates/rsms-ratelimit/src/smooth_rate_limiter.rs:99-136 | in every run without a change of rate, any interval sees at most max_qps grants and one for each interval length it lasts |
| RateLimiter.OneCall | crates/rsms-ratelimit/src/smooth_rate_limiter.rs:99-136 | one call, in numbers: with a whole permit in hand it is granted and spends it; otherwise it waits for what is missing behind what has been promised, and the next free time is when it ends |
| RateLimiter.IdleThenServed | crates/rsms-ratelimit/src/smooth_rate_limiter.rs:99-136 | after an idle time, of any number of calls at once exactly as many are granted as there are whole permits: what was in store and what the time has earned, up to the maximum |
| RateLimiter.IdleThenRefused | crates/rsms-ratelimit/src/smooth_rate_limiter.rs:99-136 | and the n-th caller beyond them is told to wait for what n exceeds the permits by |
| RateLimiter.CallsInDebt | crates/rsms-ratelimit/src/smooth_rate_limiter.rs:109-136 | with nothing in store before the next free time nothing is granted, and the n-th caller waits until then and n intervals more |
| RateLimiter.SteadyRateGranted | crates/rsms-ratelimit/src/smooth_rate_limiter.rs:99-136 | a new limiter grants every call of any run whose calls are at least an interval apart |
| RateLimiter.IntervalIs | crates/rsms-ratelimit/src/smooth_rate_limiter.rs:29-43 | the interval is the largest whole number of microseconds of which a second holds as many as allowed |
| RateLimiter.BurstExact | crates/rsms-ratelimit/src/smooth_rate_limiter.rs:29-43 | of any number of calls at once a new limiter grants exactly the first max_qps |
| RateLimiter.ZeroMeansOne | crates/rsms-ratelimit/src/smooth_rate_limiter.rs:29-43 | a limit of zero counts as one, any other as what it says |
| RateLimiter.GrantedIff | crates/rsms-ratelimit/src/smooth_rate_limiter.rs:109-136 | a call is granted exactly when a whole permit is in store once the clock has been caught up |
| RateLimiter.DoubleBurstBound | crates/rsms-ratelimit/src/smooth_rate_limiter.rs:89-136 | from any sane state, so also after a change of rate, any interval sees at most two bursts and what it earns |
| RateLimiter.ChangeOfRate | crates/rsms-ratelimit/src/smooth_rate_limiter.rs:89-96 | after a change of rate the bound holds in every run exactly when the last reservation lay in the past or the two clocks agreed |
| RateLimiter.ChangeOfRateDoubles | crates/rsms-ratelimit/src/smooth_rate_limiter.rs:89-96 | the bound is reached: a limiter for one request per second, asked three times and then set to any rate, grants two full bursts of the new rate within as short a time as one likes |
| Pool.AccountConnections.EvictExcessConnections | crates/rsms-connector/src/pool.rs:161-218 | closes and removes the first of the sorted list, as many as are too many, in that order; with no limit, or within it, nothing happens |
| Pool.EvictionExact | crates/rsms-connector/src/pool.rs:161-218 | with unique ids and a limit, as many stay as it allows, those who go and stay are all there were; no ready connection goes while one that is not stays, and among those alike nobody goes who was active less recently than one who stays |
| Pool.RetainExact | crates/rsms-connector/src/pool.rs:124-126 | removing an id removes everybody with it and nobody else, however often they are listed |
| Pool.AccountConnections.FetchAvailableConnection | crates/rsms-connector/src/pool.rs:240-258 | the first connection from the cursor on that is ready, logged in and writable, and none only if there is none or the cursor visibly wraps around; the cursor advances by one unless there are no connections |
| Pool.ConnectionPool.Fetch | crates/rsms-connector/src/pool.rs:61-76 | the first connection from the cursor on that is ready and logged in, and none only if there is none or the cursor visibly wraps around; the cursor advances by one unless there are no connections |
| Pool.ScanCompleteIff | crates/rsms-connector/src/pool.rs:248-257 | the rotated scan finds an eligible connection whenever there is one, whatever counts as eligible, exactly when the 64-bit cursor does not visibly wrap around on the way |
| Pool.RoundRobinFair | crates/rsms-connector/src/pool.rs:247-255 | with all n eligible, n calls in a row return each connection exactly when the cursor does not visibly wrap around |
| Pool.RotationComplete | crates/rsms-connector/src/pool.rs:67-69 | the n places from a cursor value on are all different exactly when the cursor does not wrap around or n divides 2^64 |

## Left out

- CmppLaws.SubmitRoundTrips: strings are byte sequences; the lossy UTF-8 conversion of fields that are not ASCII is not modelled.
- CmppCodec.ToPduBytes: an encoding error is returned where the program panics.
- CmppCodec.DecodeMessageWithVersion: the bodies of Connect, Query, Cancel, Terminate, ActiveTest and their responses are passed through unread; they are fixed-width cases of what is shown for the others.
- CmppCodec.MessageEncode: the bodies of session and query messages, the narrow ConnectResp among them, are not modelled, and an error is returned where the program panics.
- CmppCodec.MessageRoundTrip: session and query messages are left out, for the same reason.
- CmppAdapter.EncodeWithVersion: session messages are refused, since their bodies are not modelled; the dialects of the other protocols are one value, which CMPP treats alike.
- CmppAdapter.DecodeWithVersion: session and query messages become one value that names their command.
- CmppRelay.RelayOnTheWire: Delivers that are reports; `CmppLaws.ReportCanonical` and `ReportMadeAnew` say what becomes of them.
- Pipeline.LongMessageEndToEnd: a character of a phone number is a byte, and the server's other handlers are not modelled.
- SmgpReport.ReceiptRoundTrip: the check that the text after the message id is UTF-8 is not modelled, and white space is that of ASCII.
- Merge.LongMessageMerger.Add: the clock is read once per call; the program reads it up to three times.
- Window.Window.ExpireTick: the order in which a hash map lists its keys is left open, and the event channel is not modelled.
- WindowProtocol.NoLostWakeup: safety only; that a wait ends, and that expiry happens, is not stated. An expiry step may take any pending key, and a timer may fire at any moment.
- ClientInflight.UnresolvedExplained: senders run to completion; a caller that drops send_request half-way is not modelled, and sequence ids are taken to be unique per connection, as the program asks of its callers.
- RateLimiter.SlidingWindowBound: times and permits are exact reals, without the rounding of f64 and Duration; acquire, which reserves again on every turn of its loop, gives no guarantee worth stating.
- Pool.EvictionExact: eviction runs alone; connections that come or go between its lock sections are not modelled.
- Pool.RotationComplete: the sum of cursor and index wraps around at 2^64, as in a release build; a debug build would panic there.
- Pool.AccountConnections.EvictExcessConnections: a connection is what the pool reads of it, so closing is recorded by its id.
- UdhHeader::to_bytes and from_bytes, missing_count, set_ttl and the other accessors of the long-message crate.
- The SGIP and SMPP codecs, SMGP bodies and TLVs, MD5 authentication, the transaction manager.
- Sockets, tasks, timers, metrics, session states, heartbeats, configuration and handlers.
