/** The device-state model of the smart-home dashboard: devices, rooms and the
    home layout, and the partial device record that edits are made of. */
module Types {

  datatype Option<+T> = None | Some(value: T) {
    /** The carried value, or `default` when absent. */
    function GetOr(default: T): T {
      match this
      case Some(v) => v
      case None => default
    }
  }

  /** The closed set of device kinds. */
  datatype DeviceType = Light | Camera | Switch | Thermostat | Speaker | TV

  /** The string value each kind carries in a layout. */
  function TypeName(t: DeviceType): string {
    match t
    case Light => "light"
    case Camera => "camera"
    case Switch => "switch"
    case Thermostat => "thermostat"
    case Speaker => "speaker"
    case TV => "tv"
  }

  /** Reads a kind back from its string value; any other string is no kind. */
  function ParseType(s: string): (r: Option<DeviceType>)
    ensures r.Some? ==> TypeName(r.value) == s
    ensures r.None? ==> forall t :: TypeName(t) != s
  {
    if s == "light" then Some(Light)
    else if s == "camera" then Some(Camera)
    else if s == "switch" then Some(Switch)
    else if s == "thermostat" then Some(Thermostat)
    else if s == "speaker" then Some(Speaker)
    else if s == "tv" then Some(TV)
    else None
  }

  /** Every kind has its own string value: parsing the value gives the kind back. */
  lemma TypeNameRoundTrip(t: DeviceType)
    ensures ParseType(TypeName(t)) == Some(t)
  {
  }

  /** A device's state: a string ('on', 'off', or e.g. a TV channel) or a number
      (a thermostat's set point). */
  datatype State = Text(text: string) | Number(value: int)

  const On: State := Text("on")
  const Off: State := Text("off")

  /** A device. `brightness` and `color` are optional and meant for lights only. */
  datatype Device = Device(
    id: string,
    name: string,
    deviceType: DeviceType,
    state: State,
    brightness: Option<int>,
    color: Option<string>)

  datatype GridPosition = GridPosition(row: int, col: int)
  datatype GridSpan = GridSpan(rowSpan: int, colSpan: int)

  /** A room: its name, its place on the grid and its ordered device list. */
  datatype Room = Room(
    name: string,
    gridPosition: GridPosition,
    gridSpan: GridSpan,
    devices: seq<Device>)

  /** A layout is an ordered, possibly empty, sequence of rooms. */
  datatype HomeLayout = HomeLayout(rooms: seq<Room>)

  /** A partial device record: a field that is `Some` overwrites the device's
      own field when merged, a field that is `None` is absent. */
  datatype DeviceUpdate = DeviceUpdate(
    id: Option<string>,
    name: Option<string>,
    deviceType: Option<DeviceType>,
    state: Option<State>,
    brightness: Option<int>,
    color: Option<string>)
  {
    /** The record has no field at all (`Object.keys(u).length == 0`). */
    predicate IsEmpty() {
      id.None? && name.None? && deviceType.None? && state.None? && brightness.None? && color.None?
    }
  }

  const NoUpdate: DeviceUpdate := DeviceUpdate(None, None, None, None, None, None)

  predicate IsHexDigit(c: char) {
    '0' <= c <= '9' || 'A' <= c <= 'F' || 'a' <= c <= 'f'
  }

  /** A colour written `#RRGGBB`. */
  predicate IsHexColor(s: string) {
    |s| == 7 && s[0] == '#' && forall i :: 1 <= i < 7 ==> IsHexDigit(s[i])
  }

  /** The documented shape of a device: brightness and colour only on lights,
      brightness within 0..100, colour a hex string. */
  predicate ValidDevice(d: Device) {
    && (d.deviceType != Light ==> d.brightness.None? && d.color.None?)
    && (d.brightness.Some? ==> 0 <= d.brightness.value <= 100)
    && (d.color.Some? ==> IsHexColor(d.color.value))
  }
}
