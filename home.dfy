/**
 * The two devices of the room, the MQTT topics they use, the reading store
 * (`deviceValues`), the classification of a reading into a state, the reply
 * texts of the two tools, and what an inbound message does to the store.
 */
module Home {
  import opened Optional
  import Decimal

  // Topics: the bridge publishes commands on the *_CTL topics and
  // subscribes to the reading topics.
  const LedCtlTopic := "esp32-solomon/LED_CTL"
  const DoorCtlTopic := "esp32-solomon/DOOR_CTL"
  const LedTopic := "esp32-solomon/LED"
  const DoorTopic := "esp32-solomon/DOOR"

  /** The reading that means "unknown"; also the payload of a refresh probe. */
  const UnknownReading := -1
  const ProbePayload := "-1"

  datatype Device = Light | Door

  function DeviceName(d: Device): string {
    match d
    case Light => "light"
    case Door => "door"
  }

  /** The keys of `deviceValues`: a tool argument names a device or nothing. */
  function LookupDevice(name: string): (r: Option<Device>)
    ensures r.Some? <==> name == "light" || name == "door"
    ensures r.Some? ==> DeviceName(r.value) == name
  {
    if name == "light" then Some(Light)
    else if name == "door" then Some(Door)
    else None
  }

  function CommandTopic(d: Device): string {
    match d
    case Light => LedCtlTopic
    case Door => DoorCtlTopic
  }

  function ReadingTopic(d: Device): string {
    match d
    case Light => LedTopic
    case Door => DoorTopic
  }

  /** `deviceValues`: one integer reading per device. */
  datatype Readings = Readings(light: int, door: int)

  /** Both readings start unknown. */
  const Startup := Readings(UnknownReading, UnknownReading)

  function Get(s: Readings, d: Device): int {
    match d
    case Light => s.light
    case Door => s.door
  }

  function Other(d: Device): Device {
    match d
    case Light => Door
    case Door => Light
  }

  function Put(s: Readings, d: Device, v: int): (r: Readings)
    ensures Get(r, d) == v && Get(r, Other(d)) == Get(s, Other(d))
  {
    match d
    case Light => s.(light := v)
    case Door => s.(door := v)
  }

  datatype State = On | Off | Open | Closed | Unknown

  /**
   * The state a reading denotes. A light is on at exactly 1 and off at
   * exactly 0, anything else is unknown; a door is open above 45, unknown
   * at exactly -1, and closed otherwise (0 and other negatives included).
   */
  function Classify(d: Device, v: int): (st: State)
    ensures d == Light ==> (st == On <==> v == 1)
    ensures d == Light ==> (st == Off <==> v == 0)
    ensures d == Light ==> (st == Unknown <==> v != 0 && v != 1)
    ensures d == Door ==> (st == Open <==> v > 45)
    ensures d == Door ==> (st == Unknown <==> v == UnknownReading)
    ensures d == Door ==> (st == Closed <==> v <= 45 && v != UnknownReading)
  {
    match d
    case Light => if v == 1 then On else if v == 0 then Off else Unknown
    case Door => if v > 45 then Open else if v == UnknownReading then Unknown else Closed
  }

  /**
   * What a tool answers. `Report(d, Unknown)` is the answer given when the
   * retries are used up.
   */
  datatype Reply =
    | NotConnected
    | InvalidDevice
    | Report(dev: Device, state: State)
    | InvalidAction(device: string, action: string)

  /** The words the tools return for each answer. */
  function Text(r: Reply): string {
    match r
    case NotConnected => "Not connected to the server"
    case InvalidDevice => "Invalid device"
    case Report(d, st) =>
      (match st
       case On => "light is on"
       case Off => "light is off"
       case Open => "door is open"
       case Closed => "door is closed"
       case Unknown =>
         if d == Light then "Unknown light state after multiple retries, please check manually."
         else "Unknown door state after multiple retries, please check manually.")
    case InvalidAction(device, action) => "Invalid action '" + action + "' for device '" + device + "'"
  }

  /** One outbound `client.publish(topic, payload)`. */
  datatype Publish = Publish(topic: string, payload: string)

  function Probe(d: Device): Publish { Publish(CommandTopic(d), ProbePayload) }

  /**
   * The device/action pairs `deviceControl` accepts and the payload each
   * publishes: light on "1", light off "0", door open "80", door close "2".
   */
  function Command(device: string, action: string): Option<(Device, string)>
  {
    if device == "light" && (action == "on" || action == "off") then
      Some((Light, if action == "on" then "1" else "0"))
    else if device == "door" && (action == "open" || action == "close") then
      Some((Door, if action == "open" then "80" else "2"))
    else None
  }

  /**
   * Exactly the four pairs are accepted; each commands the device it names,
   * with a payload other than the refresh probe.
   */
  lemma CommandPairs(device: string, action: string)
    ensures Command(device, action).Some? <==>
      || (device == "light" && (action == "on" || action == "off"))
      || (device == "door" && (action == "open" || action == "close"))
    ensures Command(device, action).Some? ==>
      && LookupDevice(device) == Some(Command(device, action).value.0)
      && Command(device, action).value.1 != ProbePayload
  {
  }

  /** One MQTT message arriving on a subscribed topic; the payload is already text. */
  datatype Inbound = Inbound(topic: string, payload: string)

  /**
   * `on_message`: the store after the message, or `None` when decoding the
   * payload of a reading topic raises `ValueError` (before the store is written).
   */
  function Deliver(s: Readings, m: Inbound): Option<Readings> {
    if m.topic == LedTopic then
      match Decimal.Parse(m.payload)
      case None => None
      case Some(v) => Some(s.(light := v))
    else if m.topic == DoorTopic then
      match Decimal.Parse(m.payload)
      case None => None
      case Some(v) => Some(s.(door := v))
    else Some(s)
  }

  /**
   * A message on a device's reading topic writes exactly that device's entry,
   * or raises when its payload is not an integer; any other topic changes nothing.
   */
  lemma DeliverEffect(s: Readings, m: Inbound)
    ensures m.topic != LedTopic && m.topic != DoorTopic ==> Deliver(s, m) == Some(s)
    ensures forall d: Device :: m.topic == ReadingTopic(d) ==>
      Deliver(s, m) == match Decimal.Parse(m.payload)
                       case None => None
                       case Some(v) => Some(Put(s, d, v))
  {
  }

  /** A device reporting reading `v` as its decimal text sets exactly its own entry to `v`. */
  lemma DeliverReport(s: Readings, d: Device, v: int)
    ensures Deliver(s, Inbound(ReadingTopic(d), Decimal.Show(v))) == Some(Put(s, d, v))
  {
    Decimal.ParseShow(v);
  }

  /**
   * Messages delivered one after another, as the network thread runs
   * `on_message` for each; an exception escaping the callback ends delivery.
   */
  function Absorb(s: Readings, ms: seq<Inbound>): Readings
    decreases |ms|
  {
    if ms == [] then s
    else match Deliver(s, ms[0])
      case None => s
      case Some(s') => Absorb(s', ms[1..])
  }

  /** A single message that decodes is delivered in full. */
  lemma AbsorbOne(s: Readings, m: Inbound)
    requires Deliver(s, m).Some?
    ensures Absorb(s, [m]) == Deliver(s, m).value
  {
    assert [m][1..] == [];
  }

  predicate Silent(d: Device, ms: seq<Inbound>) {
    forall i :: 0 <= i < |ms| ==> ms[i].topic != ReadingTopic(d)
  }

  /**
   * No message on `d`'s reading topic would make `d` known: each one either
   * fails to decode or decodes to a reading that still classifies as unknown.
   */
  predicate StaysUnknown(d: Device, ms: seq<Inbound>) {
    forall i :: 0 <= i < |ms| && ms[i].topic == ReadingTopic(d) ==>
      match Decimal.Parse(ms[i].payload)
      case None => true
      case Some(v) => Classify(d, v) == Unknown
  }

  /** An unknown reading stays unknown through messages that bring no known reading of it. */
  lemma {:induction false} AbsorbKeepsUnknown(s: Readings, d: Device, ms: seq<Inbound>)
    requires Classify(d, Get(s, d)) == Unknown
    requires StaysUnknown(d, ms)
    ensures Classify(d, Get(Absorb(s, ms), d)) == Unknown
    decreases |ms|
  {
    if ms != [] {
      DeliverEffect(s, ms[0]);
      match Deliver(s, ms[0])
      case None =>
      case Some(s') =>
        assert StaysUnknown(d, ms[1..]) by {
          forall i | 0 <= i < |ms| - 1 && ms[1..][i].topic == ReadingTopic(d)
            ensures match Decimal.Parse(ms[1..][i].payload)
                    case None => true
                    case Some(v) => Classify(d, v) == Unknown
          {
            assert ms[1..][i] == ms[i + 1];
          }
        }
        assert Classify(d, Get(s', d)) == Unknown by {
          if ms[0].topic == ReadingTopic(d) {
            assert Get(s', d) == Decimal.Parse(ms[0].payload).value;
          } else if ms[0].topic == ReadingTopic(Other(d)) {
            assert Get(s', d) == Get(s, d);
          }
        }
        AbsorbKeepsUnknown(s', d, ms[1..]);
    }
  }

  /** Only a message on a device's own reading topic can change its reading. */
  lemma {:induction false} AbsorbSilent(s: Readings, d: Device, ms: seq<Inbound>)
    requires Silent(d, ms)
    ensures Get(Absorb(s, ms), d) == Get(s, d)
    decreases |ms|
  {
    if ms != [] {
      match Deliver(s, ms[0])
      case None =>
      case Some(s') =>
        assert Silent(d, ms[1..]) by {
          forall i | 0 <= i < |ms| - 1 ensures ms[1..][i].topic != ReadingTopic(d) {
            assert ms[1..][i] == ms[i + 1];
          }
        }
        assert Get(s', d) == Get(s, d) by {
          assert ms[0].topic != ReadingTopic(d);
        }
        AbsorbSilent(s', d, ms[1..]);
    }
  }
}
