/** The voice/text command interpreter of the dashboard: a command string and
    the current layout give the next layout and whether any rule fired.

    Each device is addressed by its identifier "<room name> <device name>",
    lower-cased; a device whose identifier occurs in the command is targeted,
    and three rules then write into a partial record in a fixed order (power,
    brightness, colour), later writes overwriting earlier ones. The command
    itself is used as given: it is not lower-cased. */
module VoiceCommand {
  import opened Types
  import opened TextMatch
  import Dashboard

  const MinBrightness: int := 0
  const MaxBrightness: int := 100

  /** `/(?:brightness to|set to|dim to) (\d+)/` */
  const BrightnessPattern: Pattern := Pattern(["brightness to", "set to", "dim to"], Digit)

  /** `/(?:color to|change to|set to) (\w+)/` */
  const ColorPattern: Pattern := Pattern(["color to", "change to", "set to"], Word)

  /** The fixed colour names and the hex value each one sets. */
  const Palette: map<string, string> := map[
    "red" := "#FF4136", "blue" := "#0074D9", "green" := "#2ECC40",
    "yellow" := "#FFDC00", "orange" := "#FF851B", "purple" := "#B10DC9",
    "white" := "#FFFFFF", "pink" := "#F012BE", "cyan" := "#39CCCC"]

  function Min(a: int, b: int): int { if a <= b then a else b }
  function Max(a: int, b: int): int { if a >= b then a else b }

  /** `Math.max(0, Math.min(100, n))` */
  function Clamp(n: int): (r: int)
    ensures MinBrightness <= r <= MaxBrightness
    ensures MinBrightness <= n <= MaxBrightness ==> r == n
    ensures n > MaxBrightness ==> r == MaxBrightness
    ensures n < MinBrightness ==> r == MinBrightness
  {
    Max(MinBrightness, Min(MaxBrightness, n))
  }

  /** The matching key of a device: "<room name> <device name>", lower-cased. */
  function Identifier(roomName: string, deviceName: string): (r: string)
    ensures |r| == |roomName| + 1 + |deviceName| && r[|roomName|] == ' '
    ensures forall i :: 0 <= i < |r| ==> !('A' <= r[i] <= 'Z')
    ensures forall i :: 0 <= i < |roomName| ==> r[i] == LowerChar(roomName[i])
    ensures forall i :: 0 <= i < |deviceName| ==> r[|roomName| + 1 + i] == LowerChar(deviceName[i])
  {
    Lower(roomName + " " + deviceName)
  }

  /** The command addresses the device: its identifier occurs in the command. */
  predicate Targets(command: string, roomName: string, d: Device)
    ensures Targets(command, roomName, d) ==> |roomName| + 1 + |d.name| <= |command|
  {
    Contains(command, Identifier(roomName, d.name))
  }

  /** The power rule: a prefix test on the whole command, the same for every
      targeted device. */
  function PowerState(command: string): (r: Option<State>)
    ensures r.Some? <==> StartsWith(command, "turn on") || StartsWith(command, "turn off")
    ensures r == Some(On) <==> StartsWith(command, "turn on")
    ensures r == Some(Off) <==> StartsWith(command, "turn off") && !StartsWith(command, "turn on")
  {
    if StartsWith(command, "turn on") then Some(On)
    else if StartsWith(command, "turn off") then Some(Off)
    else None
  }

  /** The brightness rule's value: for a light, the clamped value of the digits
      the leftmost brightness match captures. */
  function BrightnessLevel(command: string, d: Device): (r: Option<int>)
    ensures r.Some? <==> d.deviceType == Light && Capture(command, BrightnessPattern).Some?
    ensures r.Some? ==> MinBrightness <= r.value <= MaxBrightness
  {
    if d.deviceType != Light then None
    else
      match Capture(command, BrightnessPattern)
      case Some(digits) => Some(Clamp(DecimalValue(digits)))
      case None => None
  }

  /** The colour rule's value: for a light, the palette entry of the word the
      leftmost colour match captures, lower-cased; nothing for a word outside
      the palette. */
  function ColorValue(command: string, d: Device): (r: Option<string>)
    ensures r.Some? ==> d.deviceType == Light && r.value in Palette.Values
  {
    if d.deviceType != Light then None
    else
      match Capture(command, ColorPattern)
      case Some(word) => if Lower(word) in Palette then Some(Palette[Lower(word)]) else None
      case None => None
  }

  /** The state a targeted device is left with, read off by priority: the last
      rule that writes the state wins. The brightness and colour rules look at
      the device's state before the command, not at what the power rule wrote. */
  function FinalState(command: string, d: Device): (r: Option<State>)
    ensures r.Some? ==> r.value == On || r.value == Off
    ensures ColorValue(command, d).Some? && d.state == Off ==> r == Some(On)
    ensures BrightnessLevel(command, d) == Some(0) && !(ColorValue(command, d).Some? && d.state == Off) ==> r == Some(Off)
    ensures BrightnessLevel(command, d).None? && ColorValue(command, d).None? ==> r == PowerState(command)
    ensures d.deviceType != Light ==> r == PowerState(command)
  {
    var level := BrightnessLevel(command, d);
    if ColorValue(command, d).Some? && d.state == Off then Some(On)
    else if level.Some? && level.value > 0 && d.state == Off then Some(On)
    else if level == Some(0) then Some(Off)
    else PowerState(command)
  }

  /** The partial record the three rules leave for a device: each field holds
      the value of the last rule that wrote it, or is absent. */
  function RuleUpdate(command: string, roomName: string, d: Device): (u: DeviceUpdate)
    ensures u.id.None? && u.name.None? && u.deviceType.None?
    ensures d.deviceType != Light ==> u.brightness.None? && u.color.None?
    ensures !u.IsEmpty() <==>
      Targets(command, roomName, d)
      && (PowerState(command).Some? || BrightnessLevel(command, d).Some? || ColorValue(command, d).Some?)
  {
    if !Targets(command, roomName, d) then NoUpdate
    else DeviceUpdate(None, None, None, FinalState(command, d), BrightnessLevel(command, d), ColorValue(command, d))
  }

  /** One device's share of the command: the device afterwards (the record
      merged in when it has a field, the device itself otherwise) and whether
      a rule fired for it. */
  function InterpretDevice(command: string, roomName: string, d: Device): (r: (Device, bool))
    ensures r.0.id == d.id && r.0.name == d.name && r.0.deviceType == d.deviceType
    ensures r.1 <==>
      Targets(command, roomName, d)
      && (PowerState(command).Some? || BrightnessLevel(command, d).Some? || ColorValue(command, d).Some?)
    ensures !r.1 ==> r.0 == d
    ensures d.deviceType != Light ==> r.0.brightness == d.brightness && r.0.color == d.color
  {
    var u := RuleUpdate(command, roomName, d);
    (if u.IsEmpty() then d else Dashboard.Merge(d, u), !u.IsEmpty())
  }

  /** The inner `map` over one room's devices, with the fired flags or-ed;
      written from the last device back, like `InterpretRooms`. */
  function InterpretDevices(command: string, roomName: string, ds: seq<Device>): (r: (seq<Device>, bool))
    ensures |r.0| == |ds|
    ensures forall j :: 0 <= j < |ds| ==> r.0[j] == InterpretDevice(command, roomName, ds[j]).0
    ensures r.1 <==> exists j :: 0 <= j < |ds| && InterpretDevice(command, roomName, ds[j]).1
  {
    if ds == [] then ([], false)
    else
      var init := InterpretDevices(command, roomName, ds[..|ds| - 1]);
      var last := InterpretDevice(command, roomName, ds[|ds| - 1]);
      assert forall j :: 0 <= j < |ds| - 1 ==> ds[j] == ds[..|ds| - 1][j];
      (init.0 + [last.0], init.1 || last.1)
  }

  /** A room rebuilt with its devices interpreted; its other fields are kept. */
  function InterpretRoom(command: string, room: Room): (r: (Room, bool))
    ensures r.0.name == room.name && r.0.gridPosition == room.gridPosition && r.0.gridSpan == room.gridSpan
    ensures |r.0.devices| == |room.devices|
    ensures forall j :: 0 <= j < |room.devices| ==> r.0.devices[j] == InterpretDevice(command, room.name, room.devices[j]).0
    ensures r.1 <==> exists j :: 0 <= j < |room.devices| && InterpretDevice(command, room.name, room.devices[j]).1
  {
    var devices := InterpretDevices(command, room.name, room.devices);
    (room.(devices := devices.0), devices.1)
  }

  /** The outer `map` over the rooms, with the fired flags or-ed; written
      from the last room back so that the handler's loop, which runs front to
      back, extends it one room at a time. */
  function InterpretRooms(command: string, rooms: seq<Room>): (r: (seq<Room>, bool))
    ensures |r.0| == |rooms|
    ensures forall i :: 0 <= i < |rooms| ==> r.0[i] == InterpretRoom(command, rooms[i]).0
    ensures r.1 <==> exists i :: 0 <= i < |rooms| && InterpretRoom(command, rooms[i]).1
  {
    if rooms == [] then ([], false)
    else
      var init := InterpretRooms(command, rooms[..|rooms| - 1]);
      var last := InterpretRoom(command, rooms[|rooms| - 1]);
      assert forall i :: 0 <= i < |rooms| - 1 ==> rooms[i] == rooms[..|rooms| - 1][i];
      (init.0 + [last.0], init.1 || last.1)
  }

  /** The whole handler: the layout held afterwards and whether the command was
      processed. A missing layout ignores the command; a command no rule fired
      for keeps the layout that was held. */
  function Interpret(command: string, homeLayout: Option<HomeLayout>): (r: (Option<HomeLayout>, bool))
    ensures homeLayout.None? ==> r == (None, false)
    ensures !r.1 ==> r.0 == homeLayout
    ensures r.1 ==> r.0.Some? && |r.0.value.rooms| == |homeLayout.value.rooms|
  {
    match homeLayout
    case None => (None, false)
    case Some(layout) =>
      var rooms := InterpretRooms(command, layout.rooms);
      if rooms.1 then (Some(HomeLayout(rooms.0)), true) else (homeLayout, false)
  }

  /** The rule evaluation for one device as the handler performs it: a partial
      record written field by field, the power rule first, then brightness,
      then colour, each firing rule raising the flag. */
  method EvaluateDevice(command: string, roomName: string, device: Device) returns (result: Device, fired: bool)
    ensures (result, fired) == InterpretDevice(command, roomName, device)
  {
    var newDeviceState := NoUpdate;
    fired := false;
    var deviceIdentifier := Identifier(roomName, device.name);
    if Contains(command, deviceIdentifier) {
      if StartsWith(command, "turn on") {
        fired := true;
        newDeviceState := newDeviceState.(state := Some(On));
      } else if StartsWith(command, "turn off") {
        fired := true;
        newDeviceState := newDeviceState.(state := Some(Off));
      }
      assert newDeviceState == NoUpdate.(state := PowerState(command));
      assert fired == PowerState(command).Some?;

      var brightnessMatch := Capture(command, BrightnessPattern);
      if device.deviceType == Light && brightnessMatch.Some? {
        fired := true;
        var newBrightness := Clamp(DecimalValue(brightnessMatch.value));
        newDeviceState := newDeviceState.(brightness := Some(newBrightness));
        if newBrightness > 0 && device.state == Off {
          newDeviceState := newDeviceState.(state := Some(On));
        } else if newBrightness == 0 {
          newDeviceState := newDeviceState.(state := Some(Off));
        }
      }
      ghost var level := BrightnessLevel(command, device);
      assert newDeviceState.brightness == level;
      assert newDeviceState.color.None?;
      assert newDeviceState.state ==
        if level.Some? && level.value > 0 && device.state == Off then Some(On)
        else if level == Some(0) then Some(Off)
        else PowerState(command);
      assert fired == (PowerState(command).Some? || level.Some?);

      var colorMatch := Capture(command, ColorPattern);
      if device.deviceType == Light && colorMatch.Some? {
        var colorName := Lower(colorMatch.value);
        if colorName in Palette {
          fired := true;
          newDeviceState := newDeviceState.(color := Some(Palette[colorName]));
          if device.state == Off {
            newDeviceState := newDeviceState.(state := Some(On));
          }
        }
      }
      ghost var color := ColorValue(command, device);
      assert newDeviceState.color == color;
      assert newDeviceState.state == FinalState(command, device);
      assert newDeviceState == DeviceUpdate(None, None, None, FinalState(command, device), level, color);
    }
    assert newDeviceState == RuleUpdate(command, roomName, device);
    result := if !newDeviceState.IsEmpty() then Dashboard.Merge(device, newDeviceState) else device;
  }

  /** The inner `map` of the handler: every device of one room evaluated in
      order, the rebuilt room and whether any rule fired in it. */
  method EvaluateRoom(command: string, room: Room) returns (newRoom: Room, fired: bool)
    ensures (newRoom, fired) == InterpretRoom(command, room)
  {
    var newDevices: seq<Device> := [];
    fired := false;
    for j := 0 to |room.devices|
      invariant (newDevices, fired) == InterpretDevices(command, room.name, room.devices[..j])
    {
      var device, deviceFired := EvaluateDevice(command, room.name, room.devices[j]);
      assert room.devices[..j + 1][..j] == room.devices[..j];
      fired := fired || deviceFired;
      newDevices := newDevices + [device];
    }
    assert room.devices[..|room.devices|] == room.devices;
    newRoom := room.(devices := newDevices);
  }

  /** The outer `map` of the handler: every room evaluated in order, the
      rebuilt rooms and whether any rule fired in any of them. */
  method EvaluateRooms(command: string, rooms: seq<Room>) returns (newRooms: seq<Room>, commandProcessed: bool)
    ensures (newRooms, commandProcessed) == InterpretRooms(command, rooms)
  {
    commandProcessed := false;
    newRooms := [];
    for i := 0 to |rooms|
      invariant (newRooms, commandProcessed) == InterpretRooms(command, rooms[..i])
    {
      var room, fired := EvaluateRoom(command, rooms[i]);
      assert rooms[..i + 1][..i] == rooms[..i];
      commandProcessed := commandProcessed || fired;
      newRooms := newRooms + [room];
    }
    assert rooms[..|rooms|] == rooms;
  }

  /** The handler: a missing layout ignores the command; otherwise the rooms
      are rebuilt and the new layout is published only when the
      `commandProcessed` flag is raised. */
  method HandleVoiceCommand(command: string, homeLayout: Option<HomeLayout>)
    returns (next: Option<HomeLayout>, commandProcessed: bool)
    ensures (next, commandProcessed) == Interpret(command, homeLayout)
  {
    if homeLayout.None? {
      return homeLayout, false;
    }
    var newRooms;
    newRooms, commandProcessed := EvaluateRooms(command, homeLayout.value.rooms);
    if commandProcessed {
      next := Some(HomeLayout(newRooms));
    } else {
      next := homeLayout;
    }
  }
}
