# MCAN protocol layer, modelled in Dafny

MCAN is a message layer over a CAN-FD peripheral. Each frame's 29-bit
extended identifier (ISO 11898-1) carries five fields: a 15-bit time stamp,
a 3-bit priority, a 4-bit receiving device, a 4-bit sending device and a
3-bit message type. This project models:

- the identifier codec;
- the peripheral configuration: interface selection, initialisation and the
  acceptance filter;
- starting reception;
- the transmit path, with its fixed CAN-FD header;
- the RX FIFO 0 receive callback;
- the console's `ConsoleLog` formatter.

Every FDCAN driver call is foreign code. The model records which call is
made with which descriptor, and takes each call's outcome (HAL_OK or not) as
a boolean input. `ConsoleLog`'s `HAL_UART_Transmit` is different: it is not
recorded as a call, and its outcome is not an input. The model gives back the
50 characters sent, and `ConsoleLog` returns true whatever the UART does.
The model does not run anything.

Modules, one per source concept:

- `McanTypes` (`mcan_types.dfy`): the enumerations and records of `mcan.h`.
  A C enumeration can hold any integer, so each enumeration has its codes and
  a partial inverse from 32-bit words back to names. The identifier record
  appears twice. `McanId` holds named constants, as an application fills it.
  `RawId` holds the 32-bit words the record actually stores.
- `McanCodec` (`mcan_codec.dfy`): the field masks and two codecs.
  `DecodeAsWritten` and `EncodeAsWritten` follow the source exactly.
  `Decode` and `Encode` are the corrected pair. `MCAN_TX` and the receive
  callback take the codec as a parameter (`AsWritten` or `Corrected`), so
  both the source's end-to-end behaviour and the intended one are stated.
- `FdcanHal` (`fdcan_hal.dfy`): the driver records: filter descriptor, TX
  header, received frame, and the calls themselves.
- `Mcan` (`mcan.dfy`): `_MCAN_ConfigInterface`, `_MCAN_ConfigFilter`,
  `MCAN_PeriphConfig`, `MCAN_StartRX_IT`, `MCAN_TX` and
  `HAL_FDCAN_RxFifo0Callback`.
- `Console` (`console.dfy`): `ConsoleLog`, together with the source's
  length guard and the buffer writes it allows.
- `Options` (`options.dfy`): an optional value.

## Model

| member | source | states |
|---|---|---|
| `McanTypes.InterfaceFromCode` | common/mcan/mcan.h:9-12 | a value names an interface exactly when it is 0 (FDCAN1_PERIPH) or 1 (FDCAN2_PERIPH), and the name found has that code |
| `McanTypes.TypeFromCode` | common/mcan/mcan.h:14-20 | a value names a message type exactly when it is below 5, and the name found has that code |
| `McanTypes.DevFromCode` | common/mcan/mcan.h:22-29 | a value names a device exactly when it is below 6; ALL_DEVICES is the ordinal 5, not a mask of the others |
| `McanTypes.PriFromCode` | common/mcan/mcan.h:31-36 | a value names a priority exactly when it is below 4, and the name found has that code |
| `McanTypes.CodesRoundTrip` | common/mcan/mcan.h:9-36 | every named interface, type, device and priority comes back from its code |
| `McanTypes.UrgencyOrder` | common/mcan/mcan.h:31-36 | urgency (lower code first) is a strict total order, with EMERGENCY above all others and DEBUG below all others |
| `McanTypes.FromRawToRaw` | common/mcan/mcan.h:38-44 | the names in an identifier record can be read back from the words it stores |
| `McanTypes.ToRawFromRaw` | common/mcan/mcan.h:38-44 | a record of words reads back as names exactly when each word is a code of its enumeration, and the names convert back to the same words |
| `McanCodec.MasksPartitionIdentifier` | common/mcan/mcan.c:8-14 | the five field masks are pairwise disjoint, and together they cover exactly bits 0 to 28 (0x1FFFFFFF) |
| `McanCodec.JoinDeterminesRecord` | common/mcan/mcan.c:8-14 | two records whose fields lie in their own masks are equal when their fields OR to the same word |
| `McanCodec.DecodeAsWritten` | common/mcan/mcan.c:98-105 | each decoded field lies inside its own mask, unshifted; the fields OR to the identifier's low 29 bits, so bits 29 to 31 are dropped and nothing else is lost |
| `McanCodec.EncodeAsWritten` | common/mcan/mcan.c:107-115 | starting from 0 and keeping only the running bits inside the next mask at each step, the encoding comes out as the type field ORed with the tx-device bits that fall in the type slot |
| `McanCodec.EncodeAsWrittenRoundTrip` | common/mcan/mcan.c:98-115 | as written, encoding a decoded identifier keeps only its type bits, so the intended round trip to `id & 0x1FFFFFFF` holds exactly when bits 0 to 25 are clear |
| `McanCodec.EncodeAsWrittenCounterexample` | common/mcan/mcan.c:98-115 | identifier 1 decodes to time stamp 1 and encodes back to 0 |
| `McanCodec.DecodeAsWrittenOfEncode` | common/mcan/mcan.c:98-115 | as written, a record whose fields lie in their masks survives encoding then decoding exactly when all of its fields except the type are 0 |
| `McanCodec.OrdinalsCollapseToType` | common/mcan/mcan.c:107-115 | as written, a record of named constants encodes to the type's code and nothing else; decoding that word gives the type's code as a time stamp and 0 in every other field |
| `McanCodec.DemoIdentifierCollapses` | DemoNucleoH503/main.c:60-66 | the demonstration identifier (LOG, ALL_DEVICES twice, MCAN_DEBUG, stamp 0) goes out as 4, and decodes as COMMAND from POWER to POWER at EMERGENCY with stamp 4 |
| `McanCodec.Truncate` | common/mcan/mcan.h:43 | cutting a record to its slot widths gives a record that fits, and leaves unchanged exactly the records that already fit; the 32-bit time stamp keeps its low 15 bits |
| `McanCodec.Decode` | common/mcan/mcan.c:98-105 | corrected decoder: every field comes out shifted down, small enough for its slot |
| `McanCodec.Encode` | common/mcan/mcan.c:107-115 | corrected encoder: the result is a valid 29-bit extended identifier, with no bit above bit 28 |
| `McanCodec.EncodeDecode` | common/mcan/mcan.c:98-115 | corrected codec: encoding a decoded identifier gives back its 29 bits, for every word |
| `McanCodec.DecodeEncode` | common/mcan/mcan.c:98-115 | corrected codec: decoding an encoded record gives back each field cut to its slot; the record comes back unchanged exactly when it fits |
| `McanCodec.ToRawFits` | common/mcan/mcan.c:9-13 | every named type, device and priority fits its 3- or 4-bit slot, so a record of named constants fits exactly when its time stamp is below 2^15 |
| `McanCodec.TruncateToRaw` | common/mcan/mcan.h:43 | cutting a record of named constants to its slots changes only its time stamp |
| `McanCodec.LogicalRoundTrip` | common/mcan/mcan.c:98-115 | corrected codec: a record of named constants survives encoding, decoding and reading the names back, with its time stamp cut to 15 bits; it comes back unchanged exactly when the stamp is below 2^15 |
| `Mcan.SelectInstanceMatchesInterface` | common/mcan/mcan.c:32-49 | FDCAN1_PERIPH selects FDCAN1, FDCAN2_PERIPH selects FDCAN2, and every other value falls back to FDCAN1, so FDCAN2 is chosen for exactly one value |
| `Mcan.FixedFilter` | common/mcan/mcan.c:78-88 | the filter descriptor does not depend on its argument: an extended-ID mask filter at index 0, matches to RX FIFO 0, ID and mask both 0x01, accepting an identifier exactly when bit 0 (the low bit of the time stamp) is set |
| `Mcan.FixedFilterIgnoresDevices` | common/mcan/mcan.c:80-88 | identifiers that differ only in their device fields are accepted or rejected alike |
| `Mcan.PeriphConfig` | common/mcan/mcan.c:122-136 | the selected peripheral is initialised first; if that fails the result is false and the initialisation is the only call made; the result is true exactly when both steps succeed |
| `Mcan.StartRxIt` | common/mcan/mcan.c:143-156 | the peripheral is started first; if that fails the result is false and the start is the only call made, otherwise new-message notification is requested; the result is true exactly when both steps succeed |
| `Mcan.Transmit` | common/mcan/mcan.c:164-190 | one frame is submitted, carrying the message's payload; with the source's codec its identifier is the type field plus the tx-device bits in the type slot; with the corrected codec it is a valid 29-bit word that decodes back to the message's record cut to its slots; the header is extended ID, data frame, a DLC of 64 bytes (the payload's size), ESI active, BRS on, FD format, no TX events and marker 0; the result is true exactly when the FIFO accepts the frame |
| `Mcan.RxFifo0Callback` | common/mcan/mcan.c:193-215 | without the new-message interrupt nothing happens; otherwise the calls are read, re-arm (whatever the read gave), then the handler exactly once with the decoded buffer; a failed read decodes the zeroed header to all-zero fields and keeps the old payload; a successful read stores the frame's bytes over the payload's prefix, and a record that (source's codec) keeps each field in place inside its mask and ORs back to the frame's 29 bits, or (corrected codec) fits its slots and re-encodes to the frame's 29 bits |
| `Mcan.RxCallbackIgnoresNotifyResult` | common/mcan/mcan.c:205-209 | the outcome of re-arming the notification changes nothing the callback does |
| `Mcan.TransmitThenReceive` | common/mcan/mcan.c:164-215 | with the corrected codec, a frame submitted by the transmit path and then read by the callback hands the handler the sent payload and the sent record cut to its slots; that is the sent message itself exactly when its record fits |
| `Mcan.TransmitThenReceiveAsWritten` | common/mcan/mcan.c:164-215 | with the source's codec, a message of named constants sent and read back reaches the handler with its payload intact, the type's code as the time stamp and every other field 0; only the all-zero record (COMMAND, POWER, POWER, EMERGENCY, stamp 0) arrives as sent |
| `McanCodec.DecodeWith` | common/mcan/mcan.c:98-105 | both codecs decode the zeroed header to the all-zero record; the source's leaves fields in place in their masks, ORing to the word's 29 bits; the corrected one gives a fitting record that encodes back to those 29 bits |
| `Console.LogPriFromCode` | common/console/console.h:11-17 | a value names a log priority exactly when it is below 4, and the name found has that code |
| `Console.Tag` | common/console/console.c:36-50 | each of the four tags is exactly CONSOLE_PRI_MAX_CHAR (10) characters wide |
| `Console.TagField` | common/console/console.c:31-51 | after memset and the switch, the first 10 characters are the tag, or NULs for a priority with no case |
| `Console.ParseTagField` | common/console/console.c:34-51 | the tags are distinct and none is blank, so the priority, or the lack of one, can be read back from the first 10 characters |
| `Console.CStringAtReadsBack` | common/console/console.c:55 | a text written at an index and followed by a NUL reads back as that text |
| `Console.GuardKeepsWritesInBounds` | common/console/console.c:23-28 | the corrected guard accepts a message exactly when every write (memset, tag and NUL, message and NUL) lands inside the 50-character buffer |
| `Console.AsWrittenGuardOverrun` | common/console/console.c:23-55 | a 40-character message passes the source's guard, and its NUL lands at index 50, one past the end |
| `Console.AsWrittenGuardWraps` | common/console/console.c:23-28 | a 65526-character message makes the 16-bit totalLen wrap to 0 and passes the source's guard, writing far outside the buffer |
| `Console.AsWrittenGuardOverrunsOnlyAtForty` | common/console/console.c:23-55 | below the wrap-around, the 40-character message is the only one the source's guard accepts whose writes leave the buffer |
| `Console.ConsoleLog` | common/console/console.c:20-62 | for a message with no NUL and no '%', an over-long message is refused, with nothing written and nothing sent; otherwise the buffer is cleared, the tag (or nothing) goes at 0 to 9 and the message from index 10, NULs fill the rest, the full 50 characters are sent whatever the message's length, and the result is true; the priority and the message can both be read back from what was sent |

## Findings

| source | as written | input that shows it | evidently intended | confidence | as-written member | corrected member |
|---|---|---|---|---|---|---|
| common/mcan/mcan.c:109-114 | each encoding step keeps `*uIdentifier & mask`, the running bits that fall inside the next field's mask, before ORing that field in; the masks are disjoint, so every earlier field is lost | identifier 0x00000001: decoded, it has time stamp 1; encoded again, it gives 0 | clear the slot instead (`& ~mask`), so that encoding inverts decoding on the 29 identifier bits | not executed | `McanCodec.EncodeAsWrittenRoundTrip` | `McanCodec.EncodeDecode` |
| common/mcan/mcan.c:98-114 | fields are masked in place and never shifted, but callers store enumeration codes (0 to 5) in them | the identifier of DemoNucleoH503/main.c:60-66 (LOG, ALL_DEVICES, ALL_DEVICES, MCAN_DEBUG, stamp 0) goes out as 4 and decodes as COMMAND from POWER at EMERGENCY with stamp 4 | shift each field into its slot on encoding, and back down on decoding | not executed | `McanCodec.OrdinalsCollapseToType` | `McanCodec.LogicalRoundTrip` |
| common/console/console.c:25 | the message is refused only when `totalLen > CONSOLE_MAX_CHAR` | a 40-character message: totalLen is 50, the message passes, and vsprintf writes its NUL at index 50 of a 50-character buffer | refuse when `totalLen >= CONSOLE_MAX_CHAR`, leaving room for the NUL | not executed | `Console.AsWrittenGuardOverrun` | `Console.GuardKeepsWritesInBounds` |
| common/console/console.c:23 | `totalLen` is a `uint16_t`, so `strlen(message) + 10` wraps modulo 2^16 | a 65526-character message: totalLen is 0, the message passes, and 65527 characters are written from index 10 | compute the length at full width | not executed | `Console.AsWrittenGuardWraps` | `Console.ConsoleLog` |

## Source inconsistencies

The files do not compile as they stand. The model takes the evident intended
binding in each case:

- `_MCAN_Conv_Uint32_To_ID` and `_MCAN_Conv_ID_To_Uint32` use a field
  `MCAN_MES_STAMP` (mcan.c:100, mcan.c:110). The record declares it as
  `MCAN_TIME_STAMP` (mcan.h:43). The model calls it `timeStamp`.
- `MCAN_TX` calls `_MCAN_Conv_ID_Uint32` (mcan.c:168). The function defined
  is `_MCAN_Conv_ID_To_Uint32`.
- The receive buffer is registered by `MCAN_RegisterRX` (mcan.c:138), but the
  header and the demonstration call it `MCAN_RegisterRX_Buf` (mcan.h:56).
- The handler is defined as `MCAN_Rx_Handler` (mcan.c:159) but declared as
  `MCAN_RX_Handler` (mcan.h:58).
- `MCAN_PeriphConfig` takes a `uint32_t uFilter` (mcan.c:122), but the
  header declares an `MCAN_DEV currentDevice` (mcan.h:54). Neither reaches
  the filter.
- The handle `_hfdcan` (mcan.c:16) is never assigned, so its first use
  (mcan.c:51) dereferences a null pointer. The model assumes it points to a
  handle.
- The initialisation requests `FDCAN_FRAME_FD_NO_BRS` (mcan.c:53), while
  every transmitted header asks for `FDCAN_BRS_ON` (mcan.c:177).

The filter is constant. The codec is the one the findings describe. The
callback hands each frame straight to the handler. These files hold no
receive queue, transmit lock or heartbeat.

## Left out

- The driver calls `HAL_FDCAN_Init`, `HAL_FDCAN_ConfigFilter`,
  `HAL_FDCAN_Start`, `HAL_FDCAN_ActivateNotification`,
  `HAL_FDCAN_AddMessageToTxFifoQ`, `HAL_FDCAN_GetRxMessage` and
  `HAL_UART_Transmit` are foreign code. Each FDCAN call is a recorded call
  with a boolean outcome. The UART transmission is the `uart` output of
  `Console.ConsoleLog`, and its outcome is ignored, as at console.c:59-61. A failed `HAL_FDCAN_GetRxMessage` is taken to leave the
  header and the payload untouched.
- The bit-timing, clock and mode settings (mcan.c:52-68) are hardware
  configuration with no behaviour to state, so only the selected instance
  is recorded. Among them, `ExtFiltersNbr = 0` (mcan.c:67) may mean that the
  peripheral never consults the programmed filter. `Mcan.FixedFilter`
  states only what the descriptor itself accepts.
- The acceptance rule assumed for a mask filter (FilterID1 is the identifier
  to look for, FilterID2 the mask that must agree, as the comments at
  mcan.c:86-87 say) is the peripheral's own behaviour. It is not part of
  these files.
- Fields of enumeration type are taken to be 32 bits wide. A compiler that
  stores these enumerations in fewer bits would cut the decoded bits
  further.
- `MCAN_RegisterRX` (mcan.c:138-141) only stores a pointer. The model
  passes the registered buffer to the callback explicitly.
- `MCAN_Rx_Handler` (mcan.c:159-162) is the application's weak callback.
  It appears as the recorded handler call. The callback ignores its
  return value.
- `ConsoleRegisterHandle` (console.c:15-18) only stores the UART handle.
- `MCAN_GetFDCAN_Handle` and `MCAN_IncTimeStamp` are declared (mcan.h:62-63)
  but defined in none of the source files.
- Sharing the registered receive buffer between the interrupt and thread
  contexts is concurrency, and is not modelled.
- `Console.ConsoleLog`: the variadic `vsprintf` expansion is not modelled.
  The message is a `Console.LogText`, with no NUL and no '%', so `vsprintf`
  copies it literally. Messages with format directives are outside the
  model.
- `Mcan.TransmitThenReceive`: it states the round trip for the corrected
  codec only. With the source's codec the round trip does not hold; what
  arrives then is stated by `Mcan.TransmitThenReceiveAsWritten`.
- `Console.ConsoleLog`: it uses the corrected length guard. The source's
  guard is stated by `Console.AsWrittenGuardOverrun` and
  `Console.AsWrittenGuardWraps`.
