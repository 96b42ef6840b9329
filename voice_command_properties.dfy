/** Properties of the voice-command interpreter: what each rule does to a
    targeted device, what the traversal over rooms and devices preserves, and
    how the interpreter's edits relate to the dashboard's merge. */
module VoiceCommandProperties {
  import opened Types
  import opened TextMatch
  import opened VoiceCommand
  import Dashboard

  /** A command that contains no device's identifier fires no rule, and the
      rooms it computes are the rooms that were there. */
  lemma {:induction false} NoIdentifierNoChange(command: string, layout: HomeLayout)
    requires forall i, j :: 0 <= i < |layout.rooms| && 0 <= j < |layout.rooms[i].devices| ==>
      !Contains(command, Identifier(layout.rooms[i].name, layout.rooms[i].devices[j].name))
    ensures InterpretRooms(command, layout.rooms) == (layout.rooms, false)
    ensures Interpret(command, Some(layout)) == (Some(layout), false)
  {
    var rooms := layout.rooms;
    forall i | 0 <= i < |rooms|
      ensures InterpretRoom(command, rooms[i]) == (rooms[i], false)
    {
      var ds := rooms[i].devices;
      forall j | 0 <= j < |ds|
        ensures InterpretDevice(command, rooms[i].name, ds[j]) == (ds[j], false)
      {
        assert !Targets(command, rooms[i].name, layout.rooms[i].devices[j]);
      }
      assert InterpretDevices(command, rooms[i].name, ds).0 == ds;
    }
    assert InterpretRooms(command, rooms).0 == rooms;
  }

  /** "turn on" and "turn off" cannot both start a command. */
  lemma TurnOnExcludesTurnOff(command: string)
    ensures !(StartsWith(command, "turn on") && StartsWith(command, "turn off"))
  {
    if StartsWith(command, "turn on") {
      assert command[6] == "turn on"[6] == 'n';
    }
  }

  /** The power rule: a command starting with "turn on" or "turn off" fires
      for every targeted device, of any type. A non-light takes exactly the
      power rule's state. A light ends 'on' after "turn on" unless the
      brightness rule set level 0, and ends 'off' after "turn off" unless it
      was off before (then a later rule may switch it on). */
  lemma PowerRule(command: string, roomName: string, d: Device)
    requires Targets(command, roomName, d)
    ensures var (after, fired) := InterpretDevice(command, roomName, d);
      && (StartsWith(command, "turn on") || StartsWith(command, "turn off") ==> fired)
      && (d.deviceType != Light ==> after.state == PowerState(command).GetOr(d.state))
      && (StartsWith(command, "turn on") ==> after.state == On || BrightnessLevel(command, d) == Some(0))
      && (StartsWith(command, "turn off") ==> after.state == Off || d.state == Off)
  {
    TurnOnExcludesTurnOff(command);
  }

  /** The brightness rule: a targeted light gets the clamped value of the
      digits of the leftmost "brightness to N", "set to N" or "dim to N", and
      keeps its brightness when there is no such phrase. */
  lemma BrightnessRule(command: string, roomName: string, d: Device)
    requires Targets(command, roomName, d) && d.deviceType == Light
    ensures var (after, fired) := InterpretDevice(command, roomName, d);
      match Capture(command, BrightnessPattern)
      case Some(digits) =>
        && fired
        && after.brightness == Some(Clamp(DecimalValue(digits)))
        && MinBrightness <= after.brightness.value <= MaxBrightness
      case None => after.brightness == d.brightness
  {
  }

  /** How the brightness rule moves the state: level 0 turns the light off
      (unless the colour rule then turns a light that was off back on), a
      positive level turns on a light that was off, and a positive level on a
      light that was not off leaves the state to the power rule. */
  lemma BrightnessSwitchesState(command: string, roomName: string, d: Device, level: int)
    requires Targets(command, roomName, d) && BrightnessLevel(command, d) == Some(level)
    ensures var after := InterpretDevice(command, roomName, d).0;
      && (level == 0 && !(ColorValue(command, d).Some? && d.state == Off) ==> after.state == Off)
      && (level > 0 && d.state == Off ==> after.state == On)
      && (level > 0 && d.state != Off ==> after.state == PowerState(command).GetOr(d.state))
  {
  }

  /** The colour rule: for a targeted light, a captured word whose lower-case
      form is in the palette sets exactly that palette colour and switches a
      light that was off on (a light that was on keeps the power rule's state
      when no brightness phrase is present); any other word, or no colour
      phrase at all, leaves the colour as it was. */
  lemma ColorRule(command: string, roomName: string, d: Device)
    requires Targets(command, roomName, d) && d.deviceType == Light
    ensures var (after, fired) := InterpretDevice(command, roomName, d);
      match Capture(command, ColorPattern)
      case None => after.color == d.color
      case Some(word) =>
        && (Lower(word) in Palette ==>
              && fired
              && after.color == Some(Palette[Lower(word)])
              && (d.state == Off ==> after.state == On)
              && (d.state != Off && BrightnessLevel(command, d).None? ==> after.state == PowerState(command).GetOr(d.state)))
        && (Lower(word) !in Palette ==> after.color == d.color)
  {
  }

  /** The brightness phrases begin with 'b', 's' or 'd'. */
  lemma BrightnessInitials()
    ensures forall a :: a in BrightnessPattern.alternatives ==> |a| > 0 && (a[0] == 'b' || a[0] == 's' || a[0] == 'd')
  {
  }

  /** The colour phrases begin with 'c' or 's'. */
  lemma ColorInitials()
    ensures forall a :: a in ColorPattern.alternatives ==> |a| > 0 && (a[0] == 'c' || a[0] == 's')
  {
  }

  /** The brightness capture of a command made of a prefix without the
      letters 'b', 's' and 'd', one of the brightness phrases, a space and a
      maximal run of digits is that run. */
  lemma BrightnessCaptureAfterPrefix(command: string, prefix: string, m: nat, digits: string, rest: string)
    requires m < |BrightnessPattern.alternatives|
    requires command == prefix + BrightnessPattern.alternatives[m] + " " + digits + rest
    requires 'b' !in prefix && 's' !in prefix && 'd' !in prefix
    requires |digits| > 0 && forall c :: c in digits ==> IsDigit(c)
    requires rest == [] || !IsDigit(rest[0])
    requires forall j :: 0 <= j < m ==> !AltMatches(command, |prefix|, BrightnessPattern.alternatives[j], Digit)
    ensures Capture(command, BrightnessPattern) == Some(digits)
  {
    BrightnessInitials();
    CaptureAfterPrefix(command, BrightnessPattern, prefix, m, digits, rest);
  }

  /** The colour capture of a command made of a prefix without the letters
      'c' and 's', one of the colour phrases, a space and a maximal word is
      that word. */
  lemma ColorCaptureAfterPrefix(command: string, prefix: string, m: nat, word: string, rest: string)
    requires m < |ColorPattern.alternatives|
    requires command == prefix + ColorPattern.alternatives[m] + " " + word + rest
    requires 'c' !in prefix && 's' !in prefix
    requires |word| > 0 && forall c :: c in word ==> IsWordChar(c)
    requires rest == [] || !IsWordChar(rest[0])
    requires forall j :: 0 <= j < m ==> !AltMatches(command, |prefix|, ColorPattern.alternatives[j], Word)
    ensures Capture(command, ColorPattern) == Some(word)
  {
    ColorInitials();
    CaptureAfterPrefix(command, ColorPattern, prefix, m, word, rest);
  }

  /** A colour word outside the palette counts as no match: when neither the
      power nor the brightness rule applies, the device is untouched and the
      command is not processed on its account. */
  lemma UnknownColorIsNoMatch(command: string, roomName: string, d: Device, word: string)
    requires Capture(command, ColorPattern) == Some(word) && Lower(word) !in Palette
    requires PowerState(command).None? && Capture(command, BrightnessPattern).None?
    ensures InterpretDevice(command, roomName, d) == (d, false)
  {
  }

  /** The rules overwrite in order and test the state from before the command:
      "turn off" together with a positive brightness leaves a light that was
      off switched on. */
  lemma LaterRuleOverridesPower(command: string, roomName: string, d: Device)
    requires Targets(command, roomName, d) && StartsWith(command, "turn off")
    requires d.state == Off && BrightnessLevel(command, d).Some? && BrightnessLevel(command, d).value > 0
    ensures InterpretDevice(command, roomName, d).0.state == On
  {
  }

  /** A rule that fires counts even when it writes the value the device
      already has: "turn on" for a switch that is on leaves it equal to itself
      and still marks the command processed. */
  lemma FiredWithoutChange(command: string, roomName: string, d: Device)
    requires Targets(command, roomName, d) && StartsWith(command, "turn on")
    requires d.deviceType != Light && d.state == On
    ensures InterpretDevice(command, roomName, d) == (d, true)
  {
  }

  /** The interpreter's edit of a device is the dashboard's merge of the
      record the rules built, and that record never carries an id, a name or a
      type. */
  lemma InterpreterEditIsMerge(command: string, roomName: string, d: Device)
    ensures InterpretDevice(command, roomName, d).0 == Dashboard.Merge(d, RuleUpdate(command, roomName, d))
    ensures RuleUpdate(command, roomName, d).id.None?
  {
  }

  /** Every palette entry is a `#RRGGBB` colour. */
  lemma PaletteIsHex()
    ensures forall name :: name in Palette ==> IsHexColor(Palette[name])
  {
    forall v | v in Palette.Values ensures IsHexColor(v) {
      assert v in {"#FF4136", "#0074D9", "#2ECC40", "#FFDC00", "#FF851B", "#B10DC9", "#FFFFFF", "#F012BE", "#39CCCC"};
    }
    forall name | name in Palette ensures IsHexColor(Palette[name]) {
      assert Palette[name] in Palette.Values;
    }
  }

  /** Every palette name is lower-case, so a colour word is found whatever
      its letter case: "Blue" and "BLUE" select the same entry as "blue". */
  lemma PaletteNamesAreLowerCase()
    ensures forall name :: name in Palette ==> Lower(name) == name
  {
    forall name | name in Palette ensures Lower(name) == name {
      LowerKeepsLowerCase(name);
    }
  }

  /** A command targets a device exactly when it is the device's identifier
      with some text before and after it. */
  lemma TargetsIffIdentifierInside(command: string, roomName: string, d: Device)
    ensures Targets(command, roomName, d) <==>
      exists before, after :: command == before + Identifier(roomName, d.name) + after
  {
    ContainsIffSplit(command, Identifier(roomName, d.name));
  }

  /** The interpreter keeps a device within its documented shape: brightness
      and colour stay off non-lights, brightness stays in 0..100, colour stays
      a hex string. */
  lemma InterpretKeepsDeviceValid(command: string, roomName: string, d: Device)
    requires ValidDevice(d)
    ensures ValidDevice(InterpretDevice(command, roomName, d).0)
  {
    PaletteIsHex();
  }

  /** The rebuilt layout keeps every room (its name and grid placement) and
      every device's position, id, name and type. */
  lemma InterpretKeepsStructure(command: string, layout: HomeLayout, i: int, j: int)
    requires 0 <= i < |layout.rooms| && 0 <= j < |layout.rooms[i].devices|
    ensures var rooms := InterpretRooms(command, layout.rooms).0;
      && |rooms| == |layout.rooms|
      && rooms[i].name == layout.rooms[i].name
      && rooms[i].gridPosition == layout.rooms[i].gridPosition
      && rooms[i].gridSpan == layout.rooms[i].gridSpan
      && |rooms[i].devices| == |layout.rooms[i].devices|
      && rooms[i].devices[j].id == layout.rooms[i].devices[j].id
      && rooms[i].devices[j].name == layout.rooms[i].devices[j].name
      && rooms[i].devices[j].deviceType == layout.rooms[i].devices[j].deviceType
      && rooms[i].devices[j] == InterpretDevice(command, layout.rooms[i].name, layout.rooms[i].devices[j]).0
  {
  }

  /** A processed command names a device some rule fired for. */
  lemma FiringDeviceOfProcessed(command: string, layout: HomeLayout) returns (i: nat, j: nat)
    requires Interpret(command, Some(layout)).1
    ensures i < |layout.rooms| && j < |layout.rooms[i].devices|
    ensures InterpretDevice(command, layout.rooms[i].name, layout.rooms[i].devices[j]).1
  {
    var rooms := layout.rooms;
    assert InterpretRooms(command, rooms).1;
    i :| 0 <= i < |rooms| && InterpretRoom(command, rooms[i]).1;
    j :| 0 <= j < |rooms[i].devices| && InterpretDevice(command, rooms[i].name, rooms[i].devices[j]).1;
  }

  /** A rule firing for any one device marks the command processed. */
  lemma FiringDeviceProcesses(command: string, layout: HomeLayout, i: nat, j: nat)
    requires i < |layout.rooms| && j < |layout.rooms[i].devices|
    requires InterpretDevice(command, layout.rooms[i].name, layout.rooms[i].devices[j]).1
    ensures Interpret(command, Some(layout)).1
  {
    var room := layout.rooms[i];
    assert InterpretRoom(command, room).1;
    assert InterpretRooms(command, layout.rooms).1;
  }

  /** The command is processed exactly when some rule fired for some device of
      some room. */
  lemma ProcessedIffSomeRuleFired(command: string, layout: HomeLayout)
    ensures Interpret(command, Some(layout)).1 <==>
      exists i, j :: 0 <= i < |layout.rooms| && 0 <= j < |layout.rooms[i].devices|
        && InterpretDevice(command, layout.rooms[i].name, layout.rooms[i].devices[j]).1
  {
    if Interpret(command, Some(layout)).1 {
      var i, j := FiringDeviceOfProcessed(command, layout);
    }
    if exists i, j :: 0 <= i < |layout.rooms| && 0 <= j < |layout.rooms[i].devices|
        && InterpretDevice(command, layout.rooms[i].name, layout.rooms[i].devices[j]).1
    {
      var i, j :| 0 <= i < |layout.rooms| && 0 <= j < |layout.rooms[i].devices|
        && InterpretDevice(command, layout.rooms[i].name, layout.rooms[i].devices[j]).1;
      FiringDeviceProcesses(command, layout, i, j);
    }
  }

  /** A processed command publishes the layout of the rebuilt rooms. */
  lemma ProcessedPublishesRebuiltRooms(command: string, layout: HomeLayout)
    requires Interpret(command, Some(layout)).1
    ensures Interpret(command, Some(layout)).0 == Some(HomeLayout(InterpretRooms(command, layout.rooms).0))
  {
  }

  /** Every device of a layout is within its documented shape. */
  predicate ValidLayout(layout: HomeLayout) {
    forall i, j :: 0 <= i < |layout.rooms| && 0 <= j < |layout.rooms[i].devices| ==>
      ValidDevice(layout.rooms[i].devices[j])
  }

  /** Handling a command keeps a well-shaped layout well-shaped. */
  lemma InterpretKeepsLayoutValid(command: string, homeLayout: Option<HomeLayout>)
    requires homeLayout.Some? ==> ValidLayout(homeLayout.value)
    ensures var next := Interpret(command, homeLayout).0;
      next.Some? ==> ValidLayout(next.value)
  {
    if homeLayout.Some? {
      var layout := homeLayout.value;
      var rooms := InterpretRooms(command, layout.rooms).0;
      forall i, j | 0 <= i < |rooms| && 0 <= j < |rooms[i].devices|
        ensures ValidDevice(rooms[i].devices[j])
      {
        InterpretKeepsStructure(command, layout, i, j);
        InterpretKeepsDeviceValid(command, layout.rooms[i].name, layout.rooms[i].devices[j]);
      }
    }
  }
}
