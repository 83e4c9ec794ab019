# WxBeacon2 advertisement decoding, in Dafny

This project models the core of `go-wxbeacon2`, a Go listener for OMRON
WxBeacon2 environmental sensors, and proves properties of that model. The
sensors broadcast their readings in the manufacturer-specific data of BLE
advertisements. The model covers three parts:

- **Payload** (`payload.dfy`): `parseIM` and `parseEP`, which read a sequence
  byte, little-endian 16-bit words and a battery byte at fixed offsets and
  scale them into a motion (IM) or environmental (EP) reading. Physical
  values are exact reals. As a reference for the decoders, the model adds the
  beacon side: a `Frame` of raw fields and its 22-byte `Encode`. It proves
  that decoding an encoded frame gives the frame's values, scaled. It also
  proves that every buffer of 22 bytes or more is such an encoding, and states
  the decoders' value for every such buffer (`ParseIMValue`, `ParseEPValue`).
- **WxBeacon2** (`wxbeacon2.go`, `wxbeacon2.dfy`): the `Device` handle built
  by `NewDevice`, whose target id is upper-cased. The model also covers the
  per-advertisement decision of `onPeriphDiscovered`: ignore, deliver one
  reading, or `log.Fatalf`. It covers the two-state lifecycle of
  `WaitForReceiveData` and `Stop`, where the gatt device is either set or
  unset, and the adapter-state reaction of `onStateChanged`.
- **SequenceDedup** (`cmd/main.go`, `dedup.dfy`): the single `seqno` cell of the
  sample listener. It is modelled as a class whose `Deliver` method compares
  and updates the cell. The method is proved against a pure function,
  `Processed`, which gives the processed/suppressed flags of a whole run of
  deliveries.

Behaviour of the code worth noting:

- The battery byte is zero-extended (wxbeacon2.go:103, 124), so 0x9C
  decodes to 2.56 V and the voltage stays in [1.00, 3.55] V.
- The decoders check neither the company identifier nor the payload length
  (wxbeacon2.go:86-127, 151-155); they never read bytes 0 and 1.
- An unknown advertised name for the target device ends the process with
  `log.Fatalf` (wxbeacon2.go:157). This is the `Fatal` outcome.
- An empty target id never starts listening: `WaitForReceiveData` returns
  early (wxbeacon2.go:171), and `onPeriphDiscovered` matches only an empty
  peripheral id (wxbeacon2.go:142).
- The deduplication cell is one cell for all devices (cmd/main.go:24, 33).

## Model

| member | source | states |
|---|---|---|
| Payload.LittleEndianUint16 | wxbeacon2.go:92-101 | the word's low byte is the first byte and its high byte the second (little-endian) |
| Payload.ToInt16 | wxbeacon2.go:92 | the signed value has the same 16 bits as the word (equal modulo 2^16, in int16 range) and is negative exactly when the top bit is set |
| Payload.FromInt16 | wxbeacon2.go:92 | the two's-complement word of a signed value converts back to that value |
| Payload.ParseIM | wxbeacon2.go:86-106 | the IM reading copies rssi and device id, takes the sequence from byte 2, and has every scaled field in its range, including battery in [1.00, 3.55] V |
| Payload.ParseEP | wxbeacon2.go:108-127 | the EP reading copies rssi and device id, takes the sequence from byte 2, and keeps the common fields, discomfort index and heat stroke in range |
| Payload.FrameOf | wxbeacon2.go:91-103 | the raw fields read from a payload re-encode to exactly its first 22 bytes |
| Payload.FrameOfEncode | wxbeacon2.go:91-103 | reading the raw fields back from an encoded frame gives that frame |
| Payload.ParseIMDecodesFrame | wxbeacon2.go:89-103 | on an encoded frame plus any tail, parseIM gives: temperature as signed word / 100; humidity, UV and noise / 100; pressure / 10; raw light and accelerations X/Y/Z; battery (b + 100) / 100 |
| Payload.ParseEPDecodesFrame | wxbeacon2.go:111-124 | on an encoded frame plus any tail, parseEP gives the same common fields plus the words at 15 and 17 divided by 100 |
| Payload.ParseIMValue | wxbeacon2.go:86-106 | for every buffer of at least 22 bytes, parseIM gives the scaled values of the frame in its first 22 bytes |
| Payload.ParseEPValue | wxbeacon2.go:108-127 | for every buffer of at least 22 bytes, parseEP gives the scaled common values of that frame and the words at 15 and 17 divided by 100 |
| Payload.ParseReadsFrameOnly | wxbeacon2.go:86-127 | payloads with the same first 22 bytes have the same raw frame |
| Payload.ParseIMReadsOnly | wxbeacon2.go:86-106 | parseIM depends only on bytes 2..21; the company id and trailing bytes make no difference |
| Payload.ParseEPReadsOnly | wxbeacon2.go:108-127 | parseEP depends only on bytes 2..18 and 21; it never reads bytes 19..20 |
| Payload.ParsersAgreeOnCommon | wxbeacon2.go:89-124 | both decoders compute identical common fields for the same buffer |
| Payload.TemperatureSign | wxbeacon2.go:92 | the temperature is negative exactly when byte 4 has its high bit set |
| Payload.TemperatureExample | wxbeacon2.go:92 | bytes 0x88 0x13 decode to 50.00 in both variants |
| Payload.BatteryExamples | wxbeacon2.go:103 | battery byte 0x00 gives 1.00 V and 0x9C gives 2.56 V (zero-extended) |
| Payload.EndToEndExample | wxbeacon2.go:111-116 | a sample EP payload gives sequence 42, 50.00 degrees, 200.00 % and 100 lux |
| WxBeacon2.UpperChar | wxbeacon2.go:142 | the result is never a lower-case letter, and a character changes only when it is a lower-case letter, into its upper-case letter |
| WxBeacon2.ToUpper | wxbeacon2.go:164 | the upper-cased string has the same length and upper-cases each character in place |
| WxBeacon2.ToUpperIdempotent | wxbeacon2.go:164 | upper-casing an already upper-cased id changes nothing |
| WxBeacon2.Device.NewDevice | wxbeacon2.go:161-167 | the stored target is the upper-cased id, the callback is kept, and no gatt device is set |
| WxBeacon2.Device.OnPeriphDiscovered | wxbeacon2.go:140-159 | ignored exactly when the upper-cased id is not the target or the callback is nil; otherwise "EP" delivers parseEP, "IM" delivers parseIM, and any other name is fatal with that name |
| WxBeacon2.MatchIsCaseInsensitive | wxbeacon2.go:142-155 | ids equal up to letter case get the same outcome; a delivered reading carries the peripheral's id as given |
| WxBeacon2.SampleAddressUpperCase | wxbeacon2.go:164 | "aa:bb:cc:dd:ee:ff" upper-cases to "AA:BB:CC:DD:EE:FF", which upper-casing keeps |
| WxBeacon2.NewDeviceMatchesEitherCase | wxbeacon2.go:142 | a device built for "aa:bb:cc:dd:ee:ff" accepts that address in lower and upper case |
| WxBeacon2.EmptyTargetMatchesNoAddress | wxbeacon2.go:142-145 | with an empty target, every peripheral with a non-empty id is ignored |
| WxBeacon2.WaitForReceiveData | wxbeacon2.go:169-186 | nil receiver, empty target or nil callback: returns nil and changes nothing; otherwise a gatt.NewDevice error is returned as is, and success sets the device |
| WxBeacon2.Stop | wxbeacon2.go:188-198 | nil receiver: nil; no device: "device not initialized"; otherwise returns the device's stop error and clears the device |
| WxBeacon2.StopTwice | wxbeacon2.go:192-196 | after a successful Stop, a second Stop reports "device not initialized" |
| WxBeacon2.EmptyTargetNeverListens | wxbeacon2.go:171 | a device built with an empty target never gets a gatt device, even when gatt.NewDevice would succeed |
| WxBeacon2.OnStateChanged | wxbeacon2.go:129-138 | powered-on and only powered-on scans, with no service filter and duplicates allowed; every other state stops scanning |
| SequenceDedup.Processed | cmd/main.go:24-42 | a run of deliveries yields one processed flag per delivery |
| SequenceDedup.ProcessedAppend | cmd/main.go:33-41 | one more delivery is processed exactly when it differs from the value the cell holds after the run |
| SequenceDedup.ProcessedIffChanged | cmd/main.go:33-41 | a delivery is processed exactly when its sequence differs from the previous delivery's, or from the initial cell value for the first |
| SequenceDedup.RepeatIsSuppressed | cmd/main.go:33 | of two consecutive deliveries with equal sequence, the second is not processed |
| SequenceDedup.FirstDelivery | cmd/main.go:24-33 | the cell starts at 0, so a first delivery is processed exactly when its sequence is not 0 |
| SequenceDedup.WrapIsProcessed | cmd/main.go:33-41 | the wrap 255 to 0 is processed |
| SequenceDedup.SharedAcrossDevices | cmd/main.go:24-41 | two devices alternating different sequences are all processed; a second device repeating the first's sequence is suppressed |
| SequenceDedup.SequenceCell.constructor | cmd/main.go:24 | the cell starts at 0 with no deliveries |
| SequenceDedup.SequenceCell.Deliver | cmd/main.go:30-42 | processed exactly when the sequence differs from the cell; the log branch follows slog.LogValuer; the cell ends holding the sequence; history and flags grow by one, matching Processed |

## Left out

- `WxIMData.String` and `WxEPData.String` (wxbeacon2.go:41-82): text rendering of float64 values with `%g`.
- float64 arithmetic: scaled values are exact reals, so the rounding of `float64(x) / 100` is not modelled.
- The gatt library (`gatt.NewDevice`, `Handle`, `Init`, `Scan`, `StopScanning`, `device.Stop`) is a foreign BLE stack. The gatt device is an `initialised` flag, its errors are parameters, and scan control is an `Action` value. The registration of the handlers in `WaitForReceiveData` is not modelled.
- WxBeacon2.Device.NewDevice: the callback is modelled only by whether it is nil; what the callback does with a reading is outside the model.
- WxBeacon2.ToUpper: it models `strings.ToUpper` for ASCII letters only. Go's version also maps non-ASCII letters, which never occur in a MAC address.
- WxBeacon2.UpperChar: `IsLower` covers only ASCII a-z, while Go's `unicode.ToUpper` also maps non-ASCII letters.
- Payload.ParseIM: requires at least 22 bytes. On a shorter buffer Go panics with an index out of range; the model does not represent that panic.
- Payload.ParseEP: requires at least 22 bytes. On a shorter buffer Go panics with an index out of range; the model does not represent that panic.
- WxBeacon2.Device.OnPeriphDiscovered: requires at least 22 bytes whenever a decoder is reached. The Go panic on a shorter payload is not represented.
- `log.Fatalf` ends the process. Here it is the `Fatal` outcome value.
- In cmd/main.go: the mutex and the goroutine per delivery are left out, because they are concurrency; deliveries are taken one at a time. The `slog` output, signal handling, `context`, the gatt set-up in `main` and `main`'s own copy of `onStateChanged` are left out too.
- SequenceDedup.SequenceCell.Deliver: the sequence is taken as a plain 8-bit input, because `HandleWxBeacon2`, `WxData` and `WxDataSequence` are not part of this model.
