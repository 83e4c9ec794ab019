/**
 * The listener side of wxbeacon2.go: the device handle built by NewDevice,
 * the decision taken for each discovered peripheral (onPeriphDiscovered),
 * the two-state lifecycle (WaitForReceiveData, Stop) and the reaction to
 * adapter state changes (onStateChanged).
 *
 * The BLE stack is not modelled: a gatt device is an "initialised" flag,
 * its errors are parameters, and its scan control is an Action value.
 */
module WxBeacon2 {
  import opened Payload

  datatype Option<T> = None | Some(value: T)

  /* ---------- strings.ToUpper, on ASCII ---------- */

  predicate IsLower(c: char)
  {
    'a' <= c <= 'z'
  }

  /** Upper-cases one ASCII letter; every other character is kept. */
  function UpperChar(c: char): (u: char)
    ensures !IsLower(u)
    ensures u != c ==> IsLower(c) && u as int + 0x20 == c as int
  {
    if IsLower(c) then (c as int - 0x20) as char else c
  }

  /** strings.ToUpper: the same string with every lower-case letter upper-cased. */
  function ToUpper(s: string): (r: string)
    ensures |r| == |s|
    ensures forall i :: 0 <= i < |s| ==> r[i] == UpperChar(s[i])
  {
    if s == [] then [] else [UpperChar(s[0])] + ToUpper(s[1..])
  }

  /** Upper-casing twice is upper-casing once: a target that NewDevice has
      already normalised is left as it is. */
  lemma ToUpperIdempotent(s: string)
    ensures ToUpper(ToUpper(s)) == ToUpper(s)
  {
  }

  /* ---------- the discovery decision ---------- */

  /** What the BLE stack hands over about a peripheral: p.ID() and p.Name(). */
  datatype Peripheral = Peripheral(id: string, name: string)

  /** The outcome of onPeriphDiscovered: nothing, exactly one callback with
      the decoded reading, or log.Fatalf with the unknown name. */
  datatype Discovery = Ignored | Delivered(data: WxData) | Fatal(name: string)

  /** Errors that WaitForReceiveData and Stop return. */
  datatype Error = NotInitialized | GattError(message: string)

  /** The Device struct. The callback is modelled only by whether it is nil;
      the gatt device only by whether it is set. */
  class Device {
    var hasCallback: bool
    var initialised: bool
    var targetDeviceId: string

    /** NewDevice: the target id is stored upper-cased and no gatt device is set. */
    constructor NewDevice(deviceId: string, hasCallback: bool)
      ensures targetDeviceId == ToUpper(deviceId)
      ensures this.hasCallback == hasCallback
      ensures !initialised
    {
      targetDeviceId := ToUpper(deviceId);
      this.hasCallback := hasCallback;
      initialised := false;
    }

    /** The peripheral is the target (compared case-insensitively) and a
        callback is set, so the name decides what happens. */
    predicate Accepts(p: Peripheral)
      reads this
    {
      ToUpper(p.id) == targetDeviceId && hasCallback
    }

    /** onPeriphDiscovered. The decoders are reached without any length
        check, so the payload must be long enough whenever they are. */
    function OnPeriphDiscovered(p: Peripheral, manufacturerData: seq<Byte>, rssi: int): (d: Discovery)
      reads this
      requires Accepts(p) && (p.name == "EP" || p.name == "IM") ==> |manufacturerData| >= 22
      ensures !Accepts(p) <==> d == Ignored
      ensures d.Fatal? <==> Accepts(p) && p.name != "EP" && p.name != "IM"
      ensures d.Fatal? ==> d.name == p.name
      ensures d.Delivered? <==> Accepts(p) && (p.name == "EP" || p.name == "IM")
      ensures d.Delivered? && p.name == "EP" ==> d.data == ParseEP(p.id, rssi, manufacturerData)
      ensures d.Delivered? && p.name == "IM" ==> d.data == ParseIM(p.id, rssi, manufacturerData)
    {
      if ToUpper(p.id) != targetDeviceId then Ignored
      else if !hasCallback then Ignored
      else if p.name == "EP" then Delivered(ParseEP(p.id, rssi, manufacturerData))
      else if p.name == "IM" then Delivered(ParseIM(p.id, rssi, manufacturerData))
      else Fatal(p.name)
    }
  }

  /** Two ids that differ only in letter case get the same treatment; the
      delivered reading carries the id as the peripheral gave it. */
  lemma MatchIsCaseInsensitive(dev: Device, p: Peripheral, q: Peripheral, data: seq<Byte>, rssi: int)
    requires ToUpper(p.id) == ToUpper(q.id) && p.name == q.name
    requires dev.Accepts(p) && (p.name == "EP" || p.name == "IM") ==> |data| >= 22
    ensures dev.OnPeriphDiscovered(p, data, rssi).Ignored? == dev.OnPeriphDiscovered(q, data, rssi).Ignored?
    ensures dev.OnPeriphDiscovered(p, data, rssi).Fatal? == dev.OnPeriphDiscovered(q, data, rssi).Fatal?
    ensures var dp, dq := dev.OnPeriphDiscovered(p, data, rssi), dev.OnPeriphDiscovered(q, data, rssi);
      dp.Delivered? ==>
        && dq.Delivered?
        && dp.data.common.deviceId == p.id && dq.data.common.deviceId == q.id
        && dp.data.(common := dp.data.common.(deviceId := q.id)) == dq.data
  {
  }

  /** The sample address upper-cases to its upper-case spelling, which
      upper-casing leaves alone. */
  lemma SampleAddressUpperCase(lower: string, upper: string)
    requires lower == "aa:bb:cc:dd:ee:ff" && upper == "AA:BB:CC:DD:EE:FF"
    ensures ToUpper(lower) == upper && ToUpper(upper) == upper
  {
  }

  /** A device built for "aa:bb:cc:dd:ee:ff" accepts that address written in
      lower and in upper case. */
  lemma NewDeviceMatchesEitherCase(dev: Device, name: string, lower: string, upper: string)
    requires lower == "aa:bb:cc:dd:ee:ff" && upper == "AA:BB:CC:DD:EE:FF"
    requires dev.targetDeviceId == ToUpper(lower) && dev.hasCallback
    ensures dev.Accepts(Peripheral(lower, name))
    ensures dev.Accepts(Peripheral(upper, name))
  {
    SampleAddressUpperCase(lower, upper);
  }

  /** An empty target matches only a peripheral whose id is empty too. */
  lemma EmptyTargetMatchesNoAddress(dev: Device, p: Peripheral, data: seq<Byte>, rssi: int)
    requires dev.targetDeviceId == "" && p.id != ""
    ensures dev.OnPeriphDiscovered(p, data, rssi) == Ignored
  {
  }

  /* ---------- lifecycle ---------- */

  /** The receiver is set up enough for WaitForReceiveData to start listening. */
  predicate WillListen(dev: Device?)
    reads dev
  {
    dev != null && dev.targetDeviceId != "" && dev.hasCallback
  }

  /** WaitForReceiveData. A nil receiver, an empty target or a nil callback
      return nil without touching anything; otherwise the gatt device is
      created (newDeviceError is the error gatt.NewDevice would return) and,
      when that succeeds, stored. */
  method WaitForReceiveData(dev: Device?, newDeviceError: Option<string>) returns (err: Option<Error>)
    modifies dev
    ensures dev != null ==> dev.targetDeviceId == old(dev.targetDeviceId) && dev.hasCallback == old(dev.hasCallback)
    ensures !old(WillListen(dev)) ==> err == None && (dev != null ==> dev.initialised == old(dev.initialised))
    ensures old(WillListen(dev)) && newDeviceError.Some? ==>
      err == Some(GattError(newDeviceError.value)) && dev.initialised == old(dev.initialised)
    ensures old(WillListen(dev)) && newDeviceError.None? ==> err == None && dev.initialised
  {
    if dev == null || dev.targetDeviceId == "" || !dev.hasCallback {
      return None;
    }
    if newDeviceError.Some? {
      return Some(GattError(newDeviceError.value));
    }
    dev.initialised := true;
    err := None;
  }

  /** Stop. A nil receiver returns nil; a device with no gatt device returns
      "device not initialized"; otherwise the gatt device is stopped
      (stopError is what its Stop returns) and cleared either way. */
  method Stop(dev: Device?, stopError: Option<string>) returns (err: Option<Error>)
    modifies dev
    ensures dev == null ==> err == None
    ensures dev != null ==> !dev.initialised
    ensures dev != null ==> dev.targetDeviceId == old(dev.targetDeviceId) && dev.hasCallback == old(dev.hasCallback)
    ensures dev != null && !old(dev.initialised) ==> err == Some(NotInitialized)
    ensures dev != null && old(dev.initialised) ==>
      err == (if stopError.Some? then Some(GattError(stopError.value)) else None)
  {
    if dev == null {
      return None;
    }
    if !dev.initialised {
      return Some(NotInitialized);
    }
    err := if stopError.Some? then Some(GattError(stopError.value)) else None;
    dev.initialised := false;
  }

  /** Stopping twice: the second Stop reports "device not initialized". */
  method StopTwice(dev: Device, stopError: Option<string>) returns (first: Option<Error>, second: Option<Error>)
    requires dev.initialised
    modifies dev
    ensures first != Some(NotInitialized)
    ensures second == Some(NotInitialized)
    ensures !dev.initialised
  {
    first := Stop(dev, stopError);
    second := Stop(dev, stopError);
  }

  /** A device constructed with an empty target never gets a gatt device. */
  method EmptyTargetNeverListens(hasCallback: bool, newDeviceError: Option<string>) returns (err: Option<Error>, dev: Device)
    ensures err == None && !dev.initialised
  {
    dev := new Device.NewDevice("", hasCallback);
    err := WaitForReceiveData(dev, newDeviceError);
  }

  /* ---------- adapter state ---------- */

  /** The adapter states gatt reports. */
  datatype State = Unknown | Resetting | Unsupported | Unauthorized | PoweredOff | PoweredOn

  /** What onStateChanged asks of the gatt device. */
  datatype Action = Scan(serviceUuids: seq<string>, allowDuplicates: bool) | StopScanning

  /** onStateChanged: power-on starts an unfiltered scan that reports
      duplicates; every other state stops scanning. */
  function OnStateChanged(s: State): (a: Action)
    ensures a.Scan? <==> s == PoweredOn
    ensures a.Scan? ==> a.allowDuplicates && a.serviceUuids == []
  {
    match s
    case PoweredOn => Scan([], true)
    case _ => StopScanning
  }
}
