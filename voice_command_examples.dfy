/** Worked commands against one-room layouts, each showing one behaviour of
    the interpreter: turning an off light on and blue, the leftmost "set to" shadowing a
    later colour phrase, and the command's letter case mattering.

    Each lemma takes the command as a parameter equal to the constant, and
    the command is written as the concatenation of the pieces the proofs find
    their matches at. */
module VoiceCommandExamples {
  import opened Types
  import opened TextMatch
  import opened VoiceCommand
  import opened VoiceCommandProperties

  const MainLight: Device := Device("lr-1", "Main Light", Light, Off, Some(100), Some("#FFFFFF"))
  const LivingRoom: Room := Room("Living Room", GridPosition(1, 1), GridSpan(1, 6), [MainLight])

  /** "turn on living room main light and set to blue", in the pieces the
      proofs below find their matches at. */
  const SceneCommand: string := "turn on " + "living room main light" + " and " + "set to " + "blue"

  /** The main light's identifier is its room and name, lower-cased. */
  lemma MainLightIdentifier()
    ensures Identifier("Living Room", "Main Light") == "living room main light"
  {
  }

  lemma SceneTargetsMainLight(c: string)
    requires c == SceneCommand
    ensures Targets(c, "Living Room", MainLight)
  {
    MainLightIdentifier();
    var a, b, r := "turn on ", "living room main light", " and " + "set to " + "blue";
    assert c == a + b + r;
    OccursInConcat(a, b, r);
  }

  /** The "d " ending "and" begins none of the brightness phrases. */
  lemma SceneBrightnessSkipsAnd(c: string)
    requires c == SceneCommand
    ensures Leftmost(c, 33, BrightnessPattern) == Leftmost(c, 34, BrightnessPattern)
  {
    assert c[33] == 'd' && c[34] == ' ';
    Mismatch(c, "brightness to" + " ", 33, 0);
    Mismatch(c, "set to" + " ", 33, 0);
    Mismatch(c, "dim to" + " ", 33, 1);
    SkipPosition(c, 33, BrightnessPattern);
  }

  /** "set to " occurs, but a letter follows it, not a digit. */
  lemma SceneBrightnessSkipsSetToBlue(c: string)
    requires c == SceneCommand
    ensures Leftmost(c, 35, BrightnessPattern) == Leftmost(c, 36, BrightnessPattern)
  {
    assert c[35] == 's' && c[42] == 'b';
    Mismatch(c, "brightness to" + " ", 35, 0);
    Mismatch(c, "dim to" + " ", 35, 0);
    SkipPosition(c, 35, BrightnessPattern);
  }

  /** "blue" is too short for "brightness to " and begins neither of the
      other two phrases. */
  lemma SceneBrightnessSkipsBlue(c: string)
    requires c == SceneCommand
    ensures Leftmost(c, 42, BrightnessPattern) == Leftmost(c, 43, BrightnessPattern)
  {
    assert c[42] == 'b' && |c| == 46;
    Mismatch(c, "set to" + " ", 42, 0);
    Mismatch(c, "dim to" + " ", 42, 0);
    SkipPosition(c, 42, BrightnessPattern);
  }

  /** The stretches of the command that hold none of the letters 'b', 's'
      and 'd' the brightness phrases begin with. */
  lemma SceneBrightnessGap(c: string, from: nat, to: nat)
    requires c == SceneCommand
    requires (from, to) in [(0, 33), (34, 35), (36, 42), (43, 46)]
    ensures Leftmost(c, from, BrightnessPattern) == Leftmost(c, to, BrightnessPattern)
  {
    SkipLetters(c, from, to, BrightnessPattern);
  }

  /** No "brightness to N", "set to N" or "dim to N" occurs in the command. */
  lemma SceneHasNoBrightness(c: string)
    requires c == SceneCommand
    ensures Capture(c, BrightnessPattern).None?
  {
    SceneBrightnessGap(c, 0, 33);
    SceneBrightnessSkipsAnd(c);
    SceneBrightnessGap(c, 34, 35);
    SceneBrightnessSkipsSetToBlue(c);
    SceneBrightnessGap(c, 36, 42);
    SceneBrightnessSkipsBlue(c);
    SceneBrightnessGap(c, 43, 46);
  }

  /** Where "set to " begins, the colour pattern's third phrase "set to" matches and the
      word run takes "blue" to the end. */
  lemma SceneColorSetToBlue(c: string)
    requires c == SceneCommand
    ensures MatchAt(c, 35, ColorPattern) == Some("blue")
  {
    assert c[35] == 's';
    Mismatch(c, "color to" + " ", 35, 0);
    Mismatch(c, "change to" + " ", 35, 0);
    var a, b, r := "turn on " + "living room main light" + " and ", "set to ", "blue";
    assert c == a + b + r;
    OccursInConcat(a, b, r);
    assert c[42..] == "blue";
    forall i | 42 <= i < |c| ensures InClass(c[i], Word) {
      assert c[i] == c[42..][i - 42];
    }
    RunUntil(c, 42, |c|, Word);
    var alts := ColorPattern.alternatives;
    assert alts[2..] == ["set to"] && "set to" + " " == b;
    assert c[42..|c|] == "blue";
    assert MatchAltsAt(c, 35, alts[2..], Word) == Some("blue");
    assert MatchAltsAt(c, 35, alts[1..], Word) == Some("blue");
  }

  /** The leftmost colour match is "set to blue". */
  lemma SceneColorIsBlue(c: string)
    requires c == SceneCommand
    ensures Capture(c, ColorPattern) == Some("blue")
  {
    SkipLetters(c, 0, 35, ColorPattern);
    SceneColorSetToBlue(c);
  }

  /** The command starts with "turn on". */
  lemma SceneTurnsOn(c: string)
    requires c == SceneCommand
    ensures PowerState(c) == Some(On)
  {
    assert c[..7] == "turn on";
  }

  /** A captured "blue" gives a light the palette's blue. */
  lemma CapturedBlue(c: string, d: Device)
    requires d.deviceType == Light && Capture(c, ColorPattern) == Some("blue")
    ensures ColorValue(c, d) == Some("#0074D9")
  {
    LowerKeepsLowerCase("blue");
  }

  /** The main light is switched on (it was off and a colour was set) and
      turned blue; its brightness is kept. */
  lemma SceneMainLight(c: string)
    requires c == SceneCommand
    ensures InterpretDevice(c, "Living Room", MainLight) == (MainLight.(state := On, color := Some("#0074D9")), true)
  {
    SceneTargetsMainLight(c);
    SceneTurnsOn(c);
    SceneHasNoBrightness(c);
    SceneColorIsBlue(c);
    CapturedBlue(c, MainLight);
    assert RuleUpdate(c, "Living Room", MainLight) == NoUpdate.(state := Some(On), color := Some("#0074D9"));
  }

  /** The living-room scenario: in a layout holding only the living room, the
      off main light is switched on and turned blue, its brightness is kept,
      and the command counts as processed. */
  lemma TurnOnAndSetToBlue(c: string)
    requires c == SceneCommand
    ensures Interpret(c, Some(HomeLayout([LivingRoom])))
      == (Some(HomeLayout([LivingRoom.(devices := [MainLight.(state := On, color := Some("#0074D9"))])])), true)
  {
    var after := MainLight.(state := On, color := Some("#0074D9"));
    SceneMainLight(c);
    var devices := InterpretDevices(c, LivingRoom.name, LivingRoom.devices);
    assert devices.0 == [after];
    assert devices.1;
    var rooms := InterpretRooms(c, [LivingRoom]);
    assert rooms.0 == [LivingRoom.(devices := [after])];
    assert rooms.1;
  }

  const HallLamp: Device := Device("h-1", "Lamp", Light, On, Some(20), Some("#FFFFFF"))
  const Hall: Room := Room("Hall", GridPosition(1, 1), GridSpan(1, 3), [HallLamp])

  /** "hall lamp set to 50 then color to red" */
  const ShadowCommand: string := "hall lamp " + "set to " + "50" + " then color to red"

  lemma ShadowTargetsLamp(c: string)
    requires c == ShadowCommand
    ensures Targets(c, "Hall", HallLamp)
  {
    assert Identifier("Hall", "Lamp") == "hall lamp";
    var a, r := "hall lamp", " " + "set to " + "50" + " then color to red";
    assert c == a + r;
    OccursInConcat([], a, r);
  }

  /** "set to " follows the lamp's identifier and the digits "50" follow it. */
  lemma ShadowSetToPhrase(c: string)
    requires c == ShadowCommand
    ensures OccursAt(c, "set to" + " ", 10)
    ensures c[17..19] == "50" && c[19] == ' '
  {
    var a, b, r := "hall lamp ", "set to ", "50" + " then color to red";
    assert c == a + b + r;
    OccursInConcat(a, b, r);
    assert "set to" + " " == b;
    var a', b', r' := "hall lamp " + "set to ", "50", " then color to red";
    assert c == a' + b' + r';
    OccursInConcat(a', b', r');
  }

  /** The brightness pattern first matches at "set to 50" and
      captures the digits "50". */
  lemma ShadowBrightness(c: string)
    requires c == ShadowCommand
    ensures Capture(c, BrightnessPattern) == Some("50")
  {
    ShadowSetToPhrase(c);
    assert c[17] == '5' && c[18] == '0';
    RunUntil(c, 17, 19, Digit);
    Mismatch(c, "brightness to" + " ", 10, 0);
    SkipLetters(c, 0, 10, BrightnessPattern);
    assert BrightnessPattern.alternatives[1..] == ["set to", "dim to"];
    assert MatchAt(c, 10, BrightnessPattern) == Some("50");
  }

  /** The colour pattern first matches at the same "set to 50": its `\w+`
      takes digits too, so it captures "50". */
  lemma ShadowColor(c: string)
    requires c == ShadowCommand
    ensures Capture(c, ColorPattern) == Some("50")
  {
    ShadowSetToPhrase(c);
    assert c[17] == '5' && c[18] == '0';
    RunUntil(c, 17, 19, Word);
    Mismatch(c, "color to" + " ", 10, 0);
    Mismatch(c, "change to" + " ", 10, 0);
    SkipLetters(c, 0, 10, ColorPattern);
    var alts := ColorPattern.alternatives;
    assert alts[2..] == ["set to"];
    assert MatchAltsAt(c, 10, alts[1..], Word) == Some("50");
  }

  /** A command whose first letter is not a lower-case 't' sets no power state. */
  lemma NoPowerWord(c: string)
    requires |c| > 0 && c[0] != 't'
    ensures PowerState(c).None?
  {
    Mismatch(c, "turn on", 0, 0);
    Mismatch(c, "turn off", 0, 0);
  }

  /** The brightness rule's level for the lamp is 50. */
  lemma ShadowLevel(c: string)
    requires c == ShadowCommand
    ensures BrightnessLevel(c, HallLamp) == Some(50)
  {
    ShadowBrightness(c);
    assert DecimalValue("50") == 50;
  }

  /** The colour rule gives nothing for the lamp: "50" is no palette name. */
  lemma ShadowNoColor(c: string)
    requires c == ShadowCommand
    ensures ColorValue(c, HallLamp).None?
  {
    ShadowColor(c);
    assert Lower("50") == "50";
  }

  /** The command starts with no power word. */
  lemma ShadowNoPower(c: string)
    requires c == ShadowCommand
    ensures PowerState(c).None?
  {
    assert c[0] == 'h';
    NoPowerWord(c);
  }

  /** The lamp takes brightness 50 and keeps its state and colour: the later
      "color to red" is never looked at. */
  lemma ShadowLamp(c: string)
    requires c == ShadowCommand
    ensures InterpretDevice(c, "Hall", HallLamp) == (HallLamp.(brightness := Some(50)), true)
  {
    ShadowTargetsLamp(c);
    ShadowLevel(c);
    ShadowNoColor(c);
    ShadowNoPower(c);
    assert RuleUpdate(c, "Hall", HallLamp) == NoUpdate.(brightness := Some(50));
  }

  /** A leftmost "set to 50" hides a later colour phrase: the lamp is dimmed to
      50 and keeps its white colour. */
  lemma SetToNumberHidesLaterColor(c: string)
    requires c == ShadowCommand
    ensures Interpret(c, Some(HomeLayout([Hall])))
      == (Some(HomeLayout([Hall.(devices := [HallLamp.(brightness := Some(50))])])), true)
  {
    var after := HallLamp.(brightness := Some(50));
    ShadowLamp(c);
    var devices := InterpretDevices(c, Hall.name, Hall.devices);
    assert devices.0 == [after];
    assert devices.1;
    var rooms := InterpretRooms(c, [Hall]);
    assert rooms.0 == [Hall.(devices := [after])];
    assert rooms.1;
  }

  /** "Turn on hall lamp" */
  const CapitalCommand: string := "Turn on " + "hall lamp"

  /** None of the letters the brightness and colour phrases begin with
      ('b', 's', 'd', 'c') occurs in the command. */
  lemma CapitalHasNoCaptures(c: string)
    requires c == CapitalCommand
    ensures Capture(c, BrightnessPattern).None? && Capture(c, ColorPattern).None?
  {
    CapitalSkipBrightness(c, 0, 8);
    CapitalSkipBrightness(c, 8, 17);
    CapitalSkipColor(c, 0, 8);
    CapitalSkipColor(c, 8, 17);
  }

  /** One stretch of the command holds none of 'b', 's' and 'd'. */
  lemma CapitalSkipBrightness(c: string, from: nat, to: nat)
    requires c == CapitalCommand && (from, to) in [(0, 8), (8, 17)]
    ensures Leftmost(c, from, BrightnessPattern) == Leftmost(c, to, BrightnessPattern)
  {
    SkipLetters(c, from, to, BrightnessPattern);
  }

  /** One stretch of the command holds none of 'c' and 's'. */
  lemma CapitalSkipColor(c: string, from: nat, to: nat)
    requires c == CapitalCommand && (from, to) in [(0, 8), (8, 17)]
    ensures Leftmost(c, from, ColorPattern) == Leftmost(c, to, ColorPattern)
  {
    SkipLetters(c, from, to, ColorPattern);
  }

  /** The command is compared as written: a capitalised "Turn on" is no power
      command, and nothing else in it matches, so the lamp is untouched and
      the command is not processed. */
  lemma CapitalisedTurnOnIsIgnored(c: string)
    requires c == CapitalCommand
    ensures Interpret(c, Some(HomeLayout([Hall]))) == (Some(HomeLayout([Hall])), false)
  {
    assert c[0] == 'T';
    NoPowerWord(c);
    CapitalHasNoCaptures(c);
    assert InterpretDevice(c, Hall.name, HallLamp) == (HallLamp, false);
    assert InterpretRooms(c, [Hall]).1 == InterpretRoom(c, Hall).1;
  }

  /** The lamp's identifier is "hall lamp". */
  lemma HallLampIdentifier()
    ensures Identifier("Hall", "Lamp") == "hall lamp"
  {
  }

  /** A command that begins with "hall lamp" targets the lamp. */
  lemma HallLampFirst(c: string, rest: string)
    requires c == "hall lamp" + rest
    ensures Targets(c, "Hall", HallLamp)
  {
    HallLampIdentifier();
    OccursInConcat([], "hall lamp", rest);
  }

  /** "hall lamp brightness to 150" */
  const DimCommand: string := "hall lamp " + "brightness to" + " " + "150"

  /** The brightness phrase captures "150". */
  lemma DimCapture(c: string)
    requires c == DimCommand
    ensures Capture(c, BrightnessPattern) == Some("150")
  {
    var alts := BrightnessPattern.alternatives;
    assert alts[0] == "brightness to";
    BrightnessCaptureAfterPrefix(c, "hall lamp ", 0, "150", []);
  }

  /** A captured "150" gives a light the level 100. */
  lemma CapturedLevel150(c: string, d: Device)
    requires d.deviceType == Light && Capture(c, BrightnessPattern) == Some("150")
    ensures BrightnessLevel(c, d) == Some(100)
  {
    assert DecimalValue("150") == 150;
  }

  /** A level above 100 is clamped: the lamp's brightness becomes 100. */
  lemma BrightnessAboveRangeIsClamped(c: string)
    requires c == DimCommand
    ensures var (after, fired) := InterpretDevice(c, "Hall", HallLamp);
      fired && after.brightness == Some(100)
  {
    HallLampFirst(c, " " + "brightness to" + " " + "150");
    DimCapture(c);
    CapturedLevel150(c, HallLamp);
    BrightnessRule(c, "Hall", HallLamp);
  }

  /** "hall lamp color to red" */
  const RedCommand: string := "hall lamp " + "color to" + " " + "red"

  /** The colour phrase captures "red". */
  lemma RedCapture(c: string)
    requires c == RedCommand
    ensures Capture(c, ColorPattern) == Some("red")
  {
    var alts := ColorPattern.alternatives;
    assert alts[0] == "color to";
    ColorCaptureAfterPrefix(c, "hall lamp ", 0, "red", []);
  }

  /** A captured "red" gives a light the palette's red. */
  lemma CapturedRed(c: string, d: Device)
    requires d.deviceType == Light && Capture(c, ColorPattern) == Some("red")
    ensures ColorValue(c, d) == Some("#FF4136")
  {
    LowerKeepsLowerCase("red");
  }

  /** A palette word sets its colour: the lamp turns "#FF4136". */
  lemma ColorWordSetsPaletteColor(c: string)
    requires c == RedCommand
    ensures var (after, fired) := InterpretDevice(c, "Hall", HallLamp);
      fired && after.color == Some("#FF4136")
  {
    HallLampFirst(c, " " + "color to" + " " + "red");
    RedCapture(c);
    CapturedRed(c, HallLamp);
  }

  /** "hall lamp color to mauve" */
  const MauveCommand: string := "hall lamp " + "color to" + " " + "mauve"

  /** The colour phrase captures "mauve". */
  lemma MauveCapture(c: string)
    requires c == MauveCommand
    ensures Capture(c, ColorPattern) == Some("mauve")
  {
    var alts := ColorPattern.alternatives;
    assert alts[0] == "color to";
    ColorCaptureAfterPrefix(c, "hall lamp ", 0, "mauve", []);
  }

  /** No brightness phrase: the command holds none of 'b', 's' and 'd'. */
  lemma MauveHasNoBrightness(c: string)
    requires c == MauveCommand
    ensures Capture(c, BrightnessPattern).None?
  {
    SkipLetters(c, 0, |c|, BrightnessPattern);
  }

  /** The command starts with no power word. */
  lemma MauveHasNoPower(c: string)
    requires c == MauveCommand
    ensures PowerState(c).None?
  {
    assert c[0] == 'h';
    NoPowerWord(c);
  }

  /** "mauve" is no palette name. */
  lemma MauveIsNoPaletteName()
    ensures Lower("mauve") !in Palette
  {
    LowerKeepsLowerCase("mauve");
  }

  /** A captured word outside the palette, with no power word and no
      brightness phrase, leaves the hall as it was. */
  lemma UnknownWordLeavesHall(c: string, word: string)
    requires Capture(c, ColorPattern) == Some(word) && Lower(word) !in Palette
    requires PowerState(c).None? && Capture(c, BrightnessPattern).None?
    ensures Interpret(c, Some(HomeLayout([Hall]))) == (Some(HomeLayout([Hall])), false)
  {
    UnknownColorIsNoMatch(c, Hall.name, HallLamp, word);
    assert InterpretRooms(c, [Hall]).1 == InterpretRoom(c, Hall).1;
  }

  /** A word outside the palette is no match: the lamp is untouched and the
      command is not processed. */
  lemma UnknownColorWordIsIgnored(c: string)
    requires c == MauveCommand
    ensures Interpret(c, Some(HomeLayout([Hall]))) == (Some(HomeLayout([Hall])), false)
  {
    MauveCapture(c);
    MauveHasNoBrightness(c);
    MauveHasNoPower(c);
    MauveIsNoPaletteName();
    UnknownWordLeavesHall(c, "mauve");
  }
}
