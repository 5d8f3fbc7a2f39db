# Flight-controller settings registry, MSP mode boxes and VTX control

This project is a Dafny model of three parts of the OpenDrone flight-controller firmware, with proofs about the model.

- **Settings registry** (`src/main/fc/settings.c`). The firmware keeps a flat table of setting descriptors that is generated at build time. Each descriptor stores its name compactly, as dictionary indices. The model covers:
  - decoding those names in both encodings: byte-indexed and base-128 varints;
  - the command line's name search and its two match tests;
  - the size of a value;
  - finding a descriptor's parameter group by the running total of each group's entry count;
  - the offset of a value in its group for the current profile, and its live and shadow addresses;
  - a setting's minimum and maximum.
- **MSP mode boxes** (`src/main/fc/fc_msp_box.c`). These are the static table of flight-mode boxes, the finders over it, and `initActiveBoxIds`, which lists the boxes the build and configuration offer. The model also covers the MSP_BOXNAMES and MSP_BOXIDS replies, the MSP_STATUS mode flags and the sensor-status word.
- **VTX control** (`src/main/io/vtx_control.c`). This covers:
  - stepping the video transmitter's band and channel;
  - switching the channel from an RC range;
  - cycling band, channel and power;
  - the arming latch that freezes all of these once the craft has been armed.

Layout:

| file | module | contents |
|---|---|---|
| `common.dfy` | `Common` | `byte`, `u16`, NUL-free `CString`, `Option`, truncation to `uint8_t`/`uint16_t`, powers of two |
| `name_codec.dfy` | `NameCodec` | Name bytes to dictionary indices, for both encodings, with an encoder and the round trip |
| `name_words.dfy` | `NameWords` | Indices to words up to the NULL entry, joining the words with `_`, and splitting a name back into words |
| `name_buffer.dfy` | `NameBuffer` | `strcpy`, `strlen` and `setting_get_name` as array-writing methods |
| `settings.dfy` | `Settings` | The generated tables as a value (`Tables`), plus find, match, size, group, offset, pointer and bounds |
| `stream_buffer.dfy` | `StreamBuffer` | The reply stream `sbuf_t`: the bytes written so far and the room left |
| `msp_box.dfy` | `MspBox` | The box table and finders, class `BoxRegistry` (the `activeBoxIds` array and its count), the replies, the mode flags and the sensor status |
| `vtx_control.dfy` | `VtxControl` | Class `VtxController` (the `locked` and `lastIndex` statics), the stepping methods, and the pure cycle functions |

How the source maps to the model:

- **Static state becomes classes.** State that C updates in place is a class:
  - `BoxRegistry` holds `activeBoxIds` as an `array<byte>` together with its count;
  - `VtxController` holds the two statics;
  - `Stream` holds the reply buffer.
- **Loops become methods with loops.** Every array-writing or searching loop is such a method, proved equal to a specification function:
  - the finders;
  - both serialisers;
  - `packBoxModeFlags`;
  - `setting_find` and `setting_get_pgn`;
  - the name decoder;
  - the channel-activation search.
- **Loop-free computation becomes functions.** This covers the cycle functions, the sensor word, value sizes, offsets and bounds.

Environment inputs:

- **Parameters.** What the firmware reads from its environment is a parameter, either a value or an `Option` for a getter that can fail:
  - the generated settings tables and the parameter-group registry;
  - the sensors detected, the features enabled and the build options;
  - the flight modes and RC switches;
  - `ARMED`;
  - the VTX driver's band, channel, power and capability.
- **Commands.** A setter call on the VTX driver is the `VtxCommand` that the operation returns.

## Model

| member | source | states |
|---|---|---|
| NameCodec.Step | src/main/fc/settings.c:20-33 | One encoded byte completes at most one dictionary index, and never takes back an index already completed. |
| NameCodec.RunAppend | src/main/fc/settings.c:19-50 | Decoding two byte strings one after the other is decoding their concatenation, so the decoder is a left fold over the bytes. |
| NameCodec.ByteIndicesAreBytes | src/main/fc/settings.c:20-21 | In the byte-indexed encoding, the indices are exactly the encoded bytes. |
| NameCodec.AccumulatorBelowShift | src/main/fc/settings.c:24-32 | The partial varint stays below 2^shift. Each new 7-bit group therefore lands on clear bits, so the C `\|=` adds. |
| NameCodec.UnfinishedVarintEmitsNothing | src/main/fc/settings.c:25-30 | Trailing bytes with the continuation bit set complete no index. |
| NameCodec.DecodeEncodeIndex | src/main/fc/settings.c:24-32 | Decoding the base-128 encoding of `n` from any partial state completes the index `acc + n * 2^shift` and resets the accumulator. |
| NameCodec.DecodeEncodeIndices | src/main/fc/settings.c:19-50 | Decoding the encoding of any encodable index sequence gives back exactly that sequence, in either encoding. |
| NameCodec.DecodeEncodeFirst | src/main/fc/settings.c:19-50 | Decoding one encoded index yields that index, whatever bytes follow it. |
| NameWords.Words | src/main/fc/settings.c:34-38 | The words of a name are the dictionary entries of its indices, up to the first NULL entry, which is reported. |
| NameWords.WordsUpTo | src/main/fc/settings.c:34-38 | Any word list that matches the indices and ends at a NULL entry is the list `Words` computes. |
| NameWords.SplitJoin | src/main/fc/settings.c:39-44 | Splitting a joined name at `_` gives back its words, when the words are non-empty and contain no `_`. |
| NameWords.NameRoundTrip | src/main/fc/settings.c:12-52 | Encoding a word list plus the NULL sentinel, with any padding after it, decodes to the words joined by `_`. |
| NameWords.SentinelFirstIsEmpty | src/main/fc/settings.c:34-38 | A name whose first index is the sentinel decodes to the empty string. |
| NameWords.ResolvableBySentinel | src/main/fc/settings.c:34-38 | A name is decodable when its indices stay in the dictionary up to a NULL entry. |
| NameBuffer.StrCpy | src/main/fc/settings.c:43 | After `strcpy`, the word and its terminator are at `at`, and nothing else in the buffer changes. |
| NameBuffer.StrLen | src/main/fc/settings.c:44 | `strlen` returns the position of the first NUL. |
| NameBuffer.CStrOfTerminated | src/main/fc/settings.c:51 | A buffer that holds a word followed by NUL reads back as that word. |
| NameBuffer.AppendWord | src/main/fc/settings.c:39-44 | Writing `_` (when the name is non-empty) and then the word makes the buffer spell the longer joined name. The position moves to its end, and nothing past the name's final length changes. |
| NameBuffer.DecodeByte | src/main/fc/settings.c:20-33 | The C decoder's locals `n` and `shift` track the decoder state. It reports a completed index exactly when the state completes one. |
| NameBuffer.EmitIndex | src/main/fc/settings.c:34-44 | It stops exactly at a NULL dictionary entry. Otherwise it appends that entry's word to the buffer. |
| NameBuffer.WriteWords | src/main/fc/settings.c:19-50 | The loop writes the decoded name at the start of the buffer and returns its length. Nothing past the name is touched. |
| NameBuffer.GetName | src/main/fc/settings.c:12-52 | `setting_get_name` writes the decoded name followed by NUL, and leaves the rest of the buffer unchanged. |
| Settings.FirstNamed | src/main/fc/settings.c:66-77 | Returns the least index whose decoded name equals the query, or reports that no name equals it. |
| Settings.Find | src/main/fc/settings.c:66-77 | The search loop returns exactly the first setting whose name is the query (`FirstNamed`), or none. |
| Settings.FindOwnName | src/main/fc/settings.c:66-77 | With unique names, looking a setting up by its own name finds that setting. |
| Settings.OccursIff | src/main/fc/settings.c:57 | The model of `strstr(...) != NULL` holds exactly when the needle is a slice of the name at some position. |
| Settings.NameContains | src/main/fc/settings.c:54-58 | Writes the setting's name into the buffer, and answers whether the command-line text occurs in it (case-sensitive). |
| Settings.StrNCaseEqIff | src/main/fc/settings.c:63 | `sl_strncasecmp(a, b, strlen(b)) == 0` holds exactly when `a` is at least as long as `b` and starts with `b`, ignoring ASCII case. |
| Settings.NameExactMatch | src/main/fc/settings.c:60-64 | Writes the name, and answers true exactly when the given length is the name's length and the command line starts with the name, ignoring case. |
| Settings.ValueSize | src/main/fc/settings.c:79-96 | Every type has a size of 1, 2 or 4 bytes; the switch covers all types, so the `return 0` after it never happens. |
| Settings.ValueSizeHoldsType | src/main/fc/settings.c:79-96 | The size returned for each integer type spans exactly that type's values: 2^(8·size) of them. A float takes 32 bits. |
| Settings.OwnerFrom | src/main/fc/settings.c:98-109 | The group found is the first whose `uint16_t` running total exceeds the position. When none is found, no total exceeds it. |
| Settings.PgnOf | src/main/fc/settings.c:98-109 | There is no group exactly when no `uint16_t` running total of the counts exceeds the setting's position; a group found is one of `settingsPgn`. |
| Settings.GetPgn | src/main/fc/settings.c:98-109 | The search loop returns the owning group's pgn (`PgnOf`), or the not-found value when no total exceeds the position. |
| Settings.AccIsTotal | src/main/fc/settings.c:100-106 | While the counts sum below 2^16, the `uint16_t` accumulator equals the true running total. |
| Settings.GroupCoverage | src/main/fc/settings.c:102-107 | Every position below the total lands in exactly one group: the one whose range of running totals contains it. |
| Settings.EverySettingHasGroup | src/main/fc/settings.c:98-109 | When the group counts sum to the table length, every setting has a group. |
| Settings.ValueOffset | src/main/fc/settings.c:111-122 | The offset is the descriptor's offset plus one structure per preceding profile, truncated to 16 bits, for all three sections (a MASTER structure counting as size 0). |
| Settings.OffsetStepsByStructSize | src/main/fc/settings.c:111-122 | The next profile's offset is one structure further on (modulo 2^16). A master value's offset is the descriptor's own offset. |
| Settings.OffsetWithoutWrap | src/main/fc/settings.c:111-122 | Without 16-bit wrap-around, the offset is `offset + sizeof(struct) * profile`. |
| Settings.ValuePointer | src/main/fc/settings.c:124-128 | The live address lies within the 2^16 bytes a `uint16_t` offset reaches from the owning group's base address. |
| Settings.CopyPointer | src/main/fc/settings.c:130-134 | The shadow address lies within 2^16 bytes of the owning group's shadow base. |
| Settings.NextProfileAddress | src/main/fc/settings.c:124-134 | Without wrap-around, both pointers move by one structure size per profile. |
| Settings.GetMin | src/main/fc/settings.c:136-142 | A LOOKUP setting's minimum is its first ordinal, 0; a numeric setting's minimum is an entry of `settingMinMaxTable`. |
| Settings.GetMax | src/main/fc/settings.c:144-150 | A LOOKUP setting's maximum is its last ordinal, one below the number of labels; a numeric setting's maximum is an entry of the same `settingMinMaxTable`. |
| Settings.LookupBoundsAreOrdinals | src/main/fc/settings.c:136-150 | For a LOOKUP setting, a value lies between min and max exactly when it is an ordinal of its lookup table. |
| MspBox.TableShape | src/main/fc/fc_msp_box.c:41-76 | The table has 33 entries and, with the box ids numbered in table order, is indexed by box id. Exactly the first 32 are named, permanent ids rise along the table, and the sentinel has permanent id 0xFF. |
| MspBox.PermanentIdsAscend | src/main/fc/fc_msp_box.c:41-76 | In a table whose permanent ids rise, an earlier entry has a smaller permanent id. |
| MspBox.BoxWithId | src/main/fc/fc_msp_box.c:83-92 | Returns the first entry carrying the id, or none when no entry carries it. |
| MspBox.FindBoxByActiveBoxId | src/main/fc/fc_msp_box.c:83-92 | The search loop returns exactly `BoxWithId`. |
| MspBox.FindByIdIsIndex | src/main/fc/fc_msp_box.c:83-92 | In a table indexed by box id, the search for id `i` finds entry `i`, and finds nothing past the table. |
| MspBox.EntryOf | src/main/fc/fc_msp_box.c:83-92 | When every box id below 32 labels one of the first 32 entries, the search for such an id finds one of those entries, and it carries that id. |
| MspBox.BoxWithPermanentId | src/main/fc/fc_msp_box.c:94-103 | Returns the first entry carrying the permanent id, or none when no entry carries it. |
| MspBox.FindBoxByPermanentId | src/main/fc/fc_msp_box.c:94-103 | The search loop returns exactly `BoxWithPermanentId`. |
| MspBox.FindByPermanentIdRoundTrip | src/main/fc/fc_msp_box.c:94-103 | When permanent ids rise, searching for an entry's permanent id finds that entry. |
| MspBox.BoxesIsBoxTable | src/main/fc/fc_msp_box.c:41-76 | The `boxes` constant has the shape the replies rely on: 33 entries, every box id below 32 labelling one of the 32 named entries, permanent ids rising. |
| MspBox.BuildOrderIsPermutation | src/main/fc/fc_msp_box.c:151-244 | The order in which `initActiveBoxIds` considers boxes lists each of the 32 box ids exactly once. |
| MspBox.AttitudeCandidates | src/main/fc/fc_msp_box.c:151-160 | ARM is always offered. ANGLE and HORIZON are offered with an accelerometer, and TURN ASSIST with an accelerometer in builds that have it. |
| MspBox.HeadingCandidates | src/main/fc/fc_msp_box.c:162-171 | AIR MODE is offered unless the airmode feature is on, and HEADING HOLD always. HEADFREE and HEADADJ are offered with an accelerometer or a magnetometer. |
| MspBox.AltitudeCandidates | src/main/fc/fc_msp_box.c:173-180 | CAMSTAB is offered with servo tilt. NAV ALTHOLD and SURFACE are offered in GPS builds with a barometer, or on a fixed wing with GPS. |
| MspBox.PositionCandidates | src/main/fc/fc_msp_box.c:182-188 | The five navigation boxes are offered in GPS builds when GPS, magnetometer and accelerometer are present, or on a fixed wing with accelerometer and GPS. |
| MspBox.AirplaneCandidates | src/main/fc/fc_msp_box.c:191-210 | On a fixed wing, MANUAL and AUTOTRIM are offered. NAV LAUNCH is offered when the launch feature is off, and AUTO TUNE in builds with fixed-wing autotune. FLAPERON is offered in servo builds when flaperons are available. |
| MspBox.AuxiliaryCandidates | src/main/fc/fc_msp_box.c:212-224 | BEEPER and OSD SW are always offered. LIGHTS is offered in lights builds, and LEDLOW in LED-strip builds with the feature on. |
| MspBox.SafetyCandidates | src/main/fc/fc_msp_box.c:226-238 | TELEMETRY is offered with the feature and the switch setting in telemetry builds, and BLACKBOX with the feature in blackbox builds. KILLSWITCH and FAILSAFE are always offered. |
| MspBox.CameraCandidates | src/main/fc/fc_msp_box.c:240-244 | The three camera-control boxes are offered in RC-device builds. |
| MspBox.CandidatesFollowBuildOrder | src/main/fc/fc_msp_box.c:151-244 | The builder considers the 32 boxes in its fixed order, each with its condition as stated by `Wanted`. |
| MspBox.ChosenAt | src/main/fc/fc_msp_box.c:145-245 | When the boxes considered are distinct, a considered box ends up in the list exactly when its condition holds. |
| MspBox.ChosenDistinct | src/main/fc/fc_msp_box.c:145-245 | When the boxes considered are distinct, the list has no repeats and is no longer than the boxes considered. |
| MspBox.ActiveBoxMembership | src/main/fc/fc_msp_box.c:145-245 | A box id is in the active list exactly when the build and configuration want it. |
| MspBox.ActiveBoxListShape | src/main/fc/fc_msp_box.c:145-245 | The active list starts with ARM, has no repeats, holds at most 32 ids, and all of them are below 32, so it fits `activeBoxIds`. |
| MspBox.MandatoryBoxes | src/main/fc/fc_msp_box.c:151-238 | ARM, HEADING HOLD, BEEPER, OSD SW, KILLSWITCH and FAILSAFE are offered in every build and configuration. |
| MspBox.BoxRegistry.constructor | src/main/fc/fc_msp_box.c:79-81 | Static storage starts with a 32-entry array and a count of zero. |
| MspBox.BoxRegistry.Append | src/main/fc/fc_msp_box.c:151 | `activeBoxIds[activeBoxIdCount++] = id` appends the id to the active ids and keeps the builder's invariant. |
| MspBox.BoxRegistry.OfferAttitudeBoxes | src/main/fc/fc_msp_box.c:151-160 | Appends exactly the boxes of this segment whose condition holds. |
| MspBox.BoxRegistry.OfferHeadingBoxes | src/main/fc/fc_msp_box.c:162-171 | Appends exactly the boxes of this segment whose condition holds. |
| MspBox.BoxRegistry.OfferAltitudeBoxes | src/main/fc/fc_msp_box.c:173-180 | Appends exactly the boxes of this segment whose condition holds. |
| MspBox.BoxRegistry.OfferPositionBoxes | src/main/fc/fc_msp_box.c:182-188 | Appends exactly the boxes of this segment whose condition holds. |
| MspBox.BoxRegistry.OfferAirplaneBoxes | src/main/fc/fc_msp_box.c:191-210 | Appends exactly the boxes of this segment whose condition holds. |
| MspBox.BoxRegistry.OfferAuxiliaryBoxes | src/main/fc/fc_msp_box.c:212-224 | Appends exactly the boxes of this segment whose condition holds. |
| MspBox.BoxRegistry.OfferSafetyBoxes | src/main/fc/fc_msp_box.c:226-238 | Appends exactly the boxes of this segment whose condition holds. |
| MspBox.BoxRegistry.OfferCameraBoxes | src/main/fc/fc_msp_box.c:240-244 | Appends exactly the boxes of this segment whose condition holds. |
| MspBox.BoxRegistry.OfferFlightBoxes | src/main/fc/fc_msp_box.c:151-188 | The first four segments append, in order, exactly the wanted boxes among ARM and the attitude, heading and navigation boxes. |
| MspBox.BoxRegistry.OfferOtherBoxes | src/main/fc/fc_msp_box.c:191-244 | The last four segments append, in order, exactly the wanted boxes among the airplane, auxiliary, safety and camera boxes. |
| MspBox.BoxRegistry.Built | src/main/fc/fc_msp_box.c:145-245 | Once every candidate has been dealt with, the filled part of the array is the active list, and every id in it is below 32. |
| MspBox.BoxRegistry.InitActiveBoxIds | src/main/fc/fc_msp_box.c:145-245 | The active ids become exactly `ActiveBoxList` for the build and configuration. The rest of the array holds 0xFF. |
| MspBox.NameBytes | src/main/fc/fc_msp_box.c:125-126 | A name is sent as one byte per character. |
| MspBox.NamesReplyAppend | src/main/fc/fc_msp_box.c:121-129 | The names reply for two id lists one after the other is the two replies concatenated. |
| MspBox.NamesReplyStep | src/main/fc/fc_msp_box.c:121-129 | Each step of the loop adds one id's entry to the reply, and no prefix's reply is longer than the whole reply. |
| MspBox.NamedEntry | src/main/fc/fc_msp_box.c:123-128 | A box id whose entry is named contributes that entry's name followed by `;`. |
| MspBox.SuffixAt | src/main/fc/fc_msp_box.c:127 | Returns the first `;` at or after a position, or the end when there is none. |
| MspBox.SplitEntry | src/main/fc/fc_msp_box.c:126-127 | A configurator splitting at `;` reads a name without `;` back whole. |
| MspBox.PlainNameBytes | src/main/fc/fc_msp_box.c:125-126 | A 7-bit name without `;` produces no `;` byte. |
| MspBox.TableNamesArePlain | src/main/fc/fc_msp_box.c:42-74 | No box name in the table contains `;`, and all are 7-bit. |
| MspBox.NamesReplyRoundTrip | src/main/fc/fc_msp_box.c:121-129 | Splitting the MSP_BOXNAMES reply at `;` gives back, in order, the names of the entries the ids label, whatever the numbering of the ids within the table. |
| MspBox.BoxReplyIds | src/main/fc/fc_msp_box.c:134-143 | The MSP_BOXIDS reply has one byte per id: the permanent id of the entry that id labels. |
| MspBox.BoxReplyRoundTrip | src/main/fc/fc_msp_box.c:134-143 | Each byte of the MSP_BOXIDS reply maps back, through `findBoxByPermanentId`, to the entry `findBoxByActiveBoxId` found for that id. |
| MspBox.ActiveNamesReadBack | src/main/fc/fc_msp_box.c:105-132 | Over the real table, splitting the names reply for the active list gives the name of each active box's entry, in order. |
| MspBox.ActiveIdsReadBack | src/main/fc/fc_msp_box.c:134-143 | Over the real table, the ids reply for the active list maps back to the active boxes' entries, in order. |
| StreamBuffer.Stream.WriteData | src/main/fc/fc_msp_box.c:126 | `sbufWriteData` appends the bytes after those already written and uses up that much room; it does not check for room, so its caller must leave it. |
| StreamBuffer.Stream.WriteU8 | src/main/fc/fc_msp_box.c:127 | `sbufWriteU8` appends one byte and uses up one byte of room, likewise unchecked. |
| MspBox.WriteBoxName | src/main/fc/fc_msp_box.c:122-128 | One pass of the write loop extends the stream by that id's names-reply entry, and uses up exactly that much room. |
| MspBox.WriteBoxId | src/main/fc/fc_msp_box.c:137-141 | One pass of the loop extends the stream by that id's permanent-id entry, or by nothing for an unknown id. |
| MspBox.BoxRegistry.MeasureBoxNamesReply | src/main/fc/fc_msp_box.c:107-114 | The first loop computes exactly the length of the reply the second loop writes. |
| MspBox.BoxRegistry.WriteBoxNames | src/main/fc/fc_msp_box.c:121-129 | The second loop appends exactly the MSP_BOXNAMES reply to the stream. |
| MspBox.BoxRegistry.SerializeBoxNamesReply | src/main/fc/fc_msp_box.c:105-132 | Returns true exactly when the reply fits in the room left. Then the reply is appended in full; otherwise the stream is untouched. |
| MspBox.BoxRegistry.SerializeBoxReply | src/main/fc/fc_msp_box.c:134-143 | Appends exactly the MSP_BOXIDS reply for the active ids. |
| MspBox.AttitudeMarksMeaning | src/main/fc/fc_msp_box.c:258-265 | After these eight marks, a box is marked exactly when it was marked before or is one of these boxes and its mode is on. |
| MspBox.AuxiliaryMarksMeaning | src/main/fc/fc_msp_box.c:266-273 | After these eight marks, a box is marked exactly when it was marked before or is one of these boxes and its mode is on. |
| MspBox.NavigationMarksMeaning | src/main/fc/fc_msp_box.c:274-285 | The same for these marks, with FLAPERON and TURN ASSIST only in builds that have them. |
| MspBox.AirplaneMarksMeaning | src/main/fc/fc_msp_box.c:286-293 | After these eight marks, a box is marked exactly when it was marked before or is one of these boxes and its mode is on. |
| MspBox.ModeMarksMeaning | src/main/fc/fc_msp_box.c:258-293 | After all 32 marks, a box is marked exactly when it is below 32 and its mode is on (`ModeActive`). |
| MspBox.CheckActiveBox | src/main/fc/fc_msp_box.c:247-248 | Sets the box's entry when the condition holds, and changes nothing else. |
| MspBox.MarkAttitudeModes | src/main/fc/fc_msp_box.c:258-265 | These marks on the array match `AttitudeModeMarks`. |
| MspBox.MarkAuxiliaryModes | src/main/fc/fc_msp_box.c:266-273 | These marks on the array match `AuxiliaryModeMarks`. |
| MspBox.MarkNavigationModes | src/main/fc/fc_msp_box.c:274-285 | These marks on the array match `NavigationModeMarks`. |
| MspBox.MarkAirplaneModes | src/main/fc/fc_msp_box.c:286-293 | These marks on the array match `AirplaneModeMarks`. |
| MspBox.ActiveModeBoxes | src/main/fc/fc_msp_box.c:252-293 | The local `activeBoxes` array holds, for every box id, whether its mode is on. |
| MspBox.BoxRegistry.PackBoxModeFlags | src/main/fc/fc_msp_box.c:250-301 | Flag `i` is set exactly when `i` is below the active count and the mode of the `i`-th active box is on. All other flags are clear. |
| MspBox.ArmFlagLeads | src/main/fc/fc_msp_box.c:151 | The first flag of MSP_STATUS is always the arming state, because ARM is always the first active box. |
| MspBox.PackSensorStatus | src/main/fc/fc_msp_box.c:303-321 | Bits 5 and 7 to 14 of the sensor word are always clear. |
| MspBox.SensorStatusRoundTrip | src/main/fc/fc_msp_box.c:303-321 | The sensor word encodes the six sensor flags and hardware health without loss: they can be read back from bits 0-4, 6 and 15. |
| VtxControl.Stepped | src/main/io/vtx_control.c:60 | A step of 0 keeps the value, a step of 1 adds one with 255 wrapping to 0, and a step of 0xFF (the `-1` of the decrement wrappers) subtracts one with 0 wrapping to 255. |
| VtxControl.SteppedUndone | src/main/io/vtx_control.c:64-82 | A `+1` step followed by a `-1` step (the byte 0xFF), or the reverse, gives back the band or channel. |
| VtxControl.VtxController.constructor | src/main/io/vtx_control.c:44 | The controller starts unlocked, with `lastIndex` at `(uint8_t)-1`. |
| VtxControl.VtxController.UpdateBandAndChannel | src/main/io/vtx_control.c:51-62 | Arming latches `locked`, and `locked` is never cleared. While locked, no command is sent. Otherwise the driver's band and channel (0 when the getter fails) move by the byte steps, modulo 256. |
| VtxControl.VtxController.IncrementBand | src/main/io/vtx_control.c:64-67 | Arming latches `locked`; while locked nothing is sent. Otherwise it sets the band one up modulo 256 and keeps the channel; when the getter fails it sends band 1, channel 0. |
| VtxControl.VtxController.DecrementBand | src/main/io/vtx_control.c:69-72 | Arming latches `locked`; while locked nothing is sent. Otherwise it sets the band one down modulo 256 and keeps the channel; when the getter fails it sends band 255, channel 0. |
| VtxControl.VtxController.IncrementChannel | src/main/io/vtx_control.c:74-77 | Arming latches `locked`; while locked nothing is sent. Otherwise it keeps the band and sets the channel one up modulo 256; when the getter fails it sends band 0, channel 1. |
| VtxControl.VtxController.DecrementChannel | src/main/io/vtx_control.c:79-82 | Arming latches `locked`; while locked nothing is sent. Otherwise it keeps the band and sets the channel one down modulo 256; when the getter fails it sends band 0, channel 255. |
| VtxControl.FirstActivated | src/main/io/vtx_control.c:93-103 | Returns the least index whose range is active and that differs from `lastIndex`, or reports that no index qualifies. |
| VtxControl.VtxController.UpdateActivatedChannel | src/main/io/vtx_control.c:84-105 | Arming latches `locked`. While unlocked, sends at most one command, for the `FirstActivated` condition, and records its index. Otherwise it sends nothing and `lastIndex` is unchanged. |
| VtxControl.SoleActivationAppliedOnce | src/main/io/vtx_control.c:91-103 | With a single active condition, the first call applies it and the next call sends nothing, so holding a switch does not resend the channel. |
| VtxControl.WrapFromOne | src/main/io/vtx_control.c:117-129 | A stepped band or channel past the count becomes 1, and one below 1 becomes the count. A value already in `[1, count]` is kept. For `count >= 1` the result lies in `[1, count]`. |
| VtxControl.CycleBandOrChannel | src/main/io/vtx_control.c:107-132 | No command when either getter fails. Otherwise it sets band and channel, each in `[1, count]` whenever its count is at least 1. |
| VtxControl.WrapFromZero | src/main/io/vtx_control.c:144-149 | A stepped power index at or past the count becomes 0, and one in range is kept. For `count >= 1` the result is below the count. |
| VtxControl.CyclePower | src/main/io/vtx_control.c:134-152 | No command when either getter fails. Otherwise it sets a power index below the power count when the count is at least 1. |
| VtxControl.CycleUpClimbs | src/main/io/vtx_control.c:117-122 | Below the count, each `+1` cycle step adds one. |
| VtxControl.CycleUpSplits | src/main/io/vtx_control.c:117-122 | `a + b` cycle steps are `a` steps followed by `b` steps. |
| VtxControl.CycleUpReturns | src/main/io/vtx_control.c:117-129 | Stepping a band or channel up `count` times returns it to where it started, so the `+1` cycle visits every value. |
| VtxControl.PowerStepIsShiftedCycle | src/main/io/vtx_control.c:144-149 | A `+1` power step is the 1-based cycle step shifted down by one, so power levels cycle the same way. |

## Left out

- I/O and foreign calls. Several calls are inputs instead:
  - the VTX driver's getters (`vtxCommonGet...`) and setters;
  - `isRangeActive`, `ARMING_FLAG`, `FLIGHT_MODE`, `IS_RC_MODE_ACTIVE`, `sensors`, `feature`;
  - `telemetryConfig`, `isHardwareHealthy`, `pgFind` and `getConfigProfile`.

  Their answers are parameters of the operations, as values or, for getters that can fail, `Option`s. Setter calls are the `VtxCommand` an operation returns.
- Generated code, which is not part of this model:
  - The tables generated into `settings_generated.c` and `settings_generated.h` are the parameter `Tables`: `settingNamesWords`, `settingsTable`, the pgn counts and pgns, `settingMinMaxTable` and `settingLookupTables`.
  - `SETTING_ENCODED_NAME_MAX_BYTES` is the length of each descriptor's encoded name.
  - `SETTING_ENCODED_NAME_USES_BYTE_INDEXING` is the `NameEncoding` parameter.
  - `sizeof(pidProfile_t)` and `sizeof(controlRateConfig_t)` are `ProfileLayout`.
- Headers, which are not part of this model:
  - `rc_modes.h` is not part of this model. `CHECKBOX_ITEM_COUNT` is taken to be 32, and the `BOX...` ids to be numbered 0-31 in the order of the `boxes` table. This numbering is an assumption: fc_msp_box.c:41 fixes only the table's size. Only the `boxes` constant and the lemmas about it (`TableShape`, `BoxesIsBoxTable`) depend on it. The reply theorems assume only `IdsLabelEntries`: every id below 32 labels one of the first 32 entries, wherever it sits among them.
  - `vtx_control.h` is not part of this model. `MAX_CHANNEL_ACTIVATION_CONDITION_COUNT` is the length of the condition sequence, required below 256 because the loop's index is a `uint8_t`.
- Preprocessor options. The `#ifdef` build options are booleans in `BuildOptions`. The whole of `vtx_control.c` is modelled as if `VTX_CONTROL` and `VTX_COMMON` are defined.
- Pointers and memory. A box is returned as its table index, not as a pointer. The value and copy pointers are plain numbers, with `pgFind` a map.
- Settings.ValuePointer and Settings.CopyPointer require the group to be found and registered (`Locatable`). The C code dereferences `pgFind`'s result without a NULL check, so with no group it has no defined result to model.
- `Settings.ValueSize`: the unreachable `return 0` after the exhaustive switch has no counterpart, because the type is an exhaustive datatype.
- `Settings.ValueOffset`: the unreachable `return 0` after the exhaustive switch (settings.c:121) has no counterpart, for the same reason.
- `Settings.GetMax`: for a LOOKUP table with no labels the result is the integer -1. The C code converts `valueCount - 1` to `setting_max_t`, whose width is declared in `settings.h`, which is not part of this model.
- `Settings.PgnOf` and `Settings.GetPgn`: when no group's running total exceeds the position, the C code returns `-1` converted to `pgn_t` (settings.c:108). A caller cannot tell that value from a real pgn equal to it. The model returns `None` instead, and `None` stands for that converted value. The width of `pgn_t` is not part of this model.
- `NameBuffer.GetName` / `Settings.NameFits`: the encoded name and the decoded name are both required to be shorter than 256 bytes. The C byte counter `ii` and write position `bpos` are `uint8_t` (settings.c:14, 19) and would wrap past 255. The model does not describe that wrap-around.
- `NameCodec.Step` and `NameCodec.AddGroup` keep the varint shift as an unbounded number. The C `shift` is a `uint8_t` (settings.c:17) shifted into an `int` (settings.c:27): shifts of 32 and more are undefined, and the counter wraps at 256. An encoded `uint16_t` index needs at most three bytes, so a well-formed name never shifts past 14.
- Settings.NameExactMatch: the case-insensitive comparison folds ASCII letters only (`Lower`), taken as what `sl_tolower` does. `string_light.c` is not part of this model.
- `MspBox.NameEntry`: an entry found without a name contributes nothing. In C this would be `strlen(NULL)`, but no active id reaches the sentinel entry, since all are below 32.
- `MspBox.NameBytes`: names are converted to bytes character by character, truncated to 8 bits. The table's names are 7-bit, as `TableNamesArePlain` states.
- `MspBox.BoxRegistry.SerializeBoxReply` requires one byte of room per active id. The C routine does not check for room, and neither does `sbufWriteU8`, which the model states as the stream writes' preconditions.
- `MspBox.BoxRegistry.SerializeBoxNamesReply` is split into `MeasureBoxNamesReply` and `WriteBoxNames`, the two loops of the C function. The model takes the table as a parameter with the table's shape (`BoxTable`); at every call it is the `boxes` constant.
- `MspBox.BoxRegistry.PackBoxModeFlags`: the `boxBitmask_t` bitmask is an array of booleans, one per bit, and `bitArraySet` sets one entry.
- `MspBox.PackSensorStatus` works on a `bv16`. C's `<<` binds tighter than `|`; the Dafny brackets every shift to keep that grouping.
- `VtxControl.VtxController.UpdateBandAndChannel`: the C code ignores the getter's result. When the getter fails, the locals keep their initial 0, taking the driver to leave them untouched when it fails.
- `VtxControl.WrapFromZero`: the `newPower < 0` branch is kept, but a sum of two unsigned bytes never takes it. Likewise, `WrapFromOne` falls below 1 only for a channel or band of 0 stepped by 0.
- `vtxControlInit` does nothing and has no counterpart.
- Concurrency: none of the routines is re-entrant or shared between tasks. They are modelled as ordinary sequential calls.
- Behaviour of the code that the model keeps as written:
  - Dictionary indices start at 0: the decoded index itself selects the word (settings.c:34).
  - `setting_name_contains` uses `strstr`, which is case-sensitive (settings.c:57).
  - `setting_name_exact_match` also requires the given length to equal the name's length (settings.c:63).
  - Both bounds of a numeric setting come from the one `settingMinMaxTable` (settings.c:141, 149).
