/** The Gremlin: makes up one event per call, hands it to the device and to the recorder. */
module Gremlins {
  import opened Bytes
  import opened Streams
  import opened Events
  import opened Replay
  import opened EventPlayback
  import opened Random
  import opened KeyChoice

  // Cumulative percentages.
  const KEY_WITHOUT_FOCUS_CHANCE: nat := 10
  const KEY_WITH_FOCUS_CHANCE: nat := 40
  const PEN_DOWN_CHANCE: nat := 70 + KEY_WITHOUT_FOCUS_CHANCE
  const MENU_CHANCE: nat := PEN_DOWN_CHANCE + 4
  const FIND_CHANCE: nat := MENU_CHANCE + 2
  const KEYBOARD_CHANCE: nat := FIND_CHANCE + 1
  const LOW_BATTERY_CHANCE: nat := KEYBOARD_CHANCE + 2
  const APP_SWITCH_CHANCE: nat := LOW_BATTERY_CHANCE + 4
  const TYPE_QUOTE_CHANCE: nat := 10

  // Percentages of a pen movement.
  const PEN_MOVE_CHANCE: nat := 50
  const PEN_BIG_MOVE_CHANCE: nat := 5

  const NUM_OF_QUOTES: nat := 18
  const CHARS_TO_TYPE_SIZE: nat := 2048
  const COMMAND_KEY_MASK: uint16 := 0x0008
  const PAGE_UP: nat := 0x000B
  const PAGE_DOWN: nat := 0x000C
  const LOW_BATTERY: uint16 := 0x0101
  const MENU: uint16 := 0x0105
  const KEYBOARD: uint16 := 0x0109
  const FIND: uint16 := 0x010A

  datatype App = App(cardNo: uint16, dbID: uint32, executable: bool)

  type Text = seq<byte>

  /** What the emulated device and its ROM answer during one call. */
  datatype Rom = Rom(
    focusAtKey: bool,
    focusAtQuote: bool,
    asciiQuotes: seq<Text>,
    localQuotes: seq<Text>,
    spaceLeft: int,
    charStart: (Text, nat) -> nat,
    charSize: Text -> nat,
    charValue: Text -> uint16,
    penX: int16,
    penY: int16,
    penDraws: nat,
    apps: seq<App>,
    currentCardNo: uint16,
    currentDbID: uint32)

  /** The promises of the text calls and of the point maker. */
  ghost predicate WellBehaved(rom: Rom) {
    && |rom.asciiQuotes| == |rom.localQuotes| == NUM_OF_QUOTES
    && (forall q :: q in rom.asciiQuotes || q in rom.localQuotes ==> |q| < CHARS_TO_TYPE_SIZE)
    && (forall t :: t != [] ==> 1 <= rom.charSize(t) <= |t|)
    && (forall t, n :: rom.charStart(t, n) <= n)
    && rom.penX >= 0 && rom.penY >= 0
  }

  /** The extent of the display and the height of a line of text. */
  datatype Screen = Screen(width: int16, height: int16, lineHeight: int16)

  predicate Usable(s: Screen) {
    s.width >= 1 && s.height >= 1 && s.lineHeight >= 0
  }

  datatype Gremlin = Gremlin(
    seed: uint32,
    keyProbabilitiesSum: uint16,
    lastPointX: int16,
    lastPointY: int16,
    lastPenDown: bool,
    counter: uint32,
    until: uint32,
    inited: bool,
    catchUp: bool,
    needPenUp: bool,
    charsToType: Text)

  datatype Trail = Trail(recording: bool, bytes: seq<byte>, mask: seq<bool>, performed: seq<Event>)

  /** Events recorded and enabled - while recording is on - and performed. */
  function After(before: Trail, es: seq<Event>): Trail {
    var t := before.(performed := before.performed + Performed(es));
    if before.recording then t.(bytes := before.bytes + EncodeAll(es), mask := before.mask + Enabled(|es|)) else t
  }

  lemma AfterNothing(before: Trail)
    ensures After(before, []) == before
  {
  }

  lemma AfterOne(before: Trail, e: Event)
    ensures var t := before.(performed := before.performed + if IsPosted(e) then [e] else []);
            After(before, [e]) == if before.recording
                                  then t.(bytes := before.bytes + Encode(e), mask := before.mask + [true]) else t
  {
    hide Encode;
    EncodeSingle(e);
    assert Enabled(1) == [true];
    assert Performed([e]) == (if IsPosted(e) then [e] else []) + Performed([]);
  }

  lemma EncodeSingle(e: Event)
    ensures EncodeAll([e]) == Encode(e)
  {
    hide Encode;
    assert EncodeAll([e]) == Encode(e) + EncodeAll([]);
  }

  /** What two calls leave behind one after the other is what a single run of both leaves behind. */
  lemma AfterTwice(before: Trail, first: seq<Event>, second: seq<Event>)
    ensures After(After(before, first), second) == After(before, first + second)
  {
    hide EncodeAll, Performed;
    EncodeAllConcat(first, second);
    PerformedConcat(first, second);
    assert Enabled(|first|) + Enabled(|second|) == Enabled(|first + second|);
    JoinBytes(before.bytes, EncodeAll(first), EncodeAll(second));
    JoinEvents(before.performed, Performed(first), Performed(second));
    assert (before.mask + Enabled(|first|)) + Enabled(|second|) == before.mask + (Enabled(|first|) + Enabled(|second|));
  }

  lemma JoinBytes(a: seq<byte>, b: seq<byte>, c: seq<byte>)
    ensures (a + b) + c == a + (b + c)
  {
  }

  lemma JoinEvents(a: seq<Event>, b: seq<Event>, c: seq<Event>)
    ensures (a + b) + c == a + (b + c)
  {
  }

  lemma {:induction false} EncodeAllConcat(a: seq<Event>, b: seq<Event>)
    ensures EncodeAll(a + b) == EncodeAll(a) + EncodeAll(b)
    decreases |a|
  {
    hide Encode;
    if a == [] {
      assert a + b == b;
    } else {
      EncodeAllConcat(a[1..], b);
      assert (a + b)[1..] == a[1..] + b;
    }
  }

  lemma {:induction false} PerformedConcat(a: seq<Event>, b: seq<Event>)
    ensures Performed(a + b) == Performed(a) + Performed(b)
    decreases |a|
  {
    if a == [] {
      assert a + b == b;
    } else {
      PerformedConcat(a[1..], b);
      assert (a + b)[1..] == a[1..] + b;
      JoinEvents(if IsPosted(a[0]) then [a[0]] else [], Performed(a[1..]), Performed(b));
    }
  }

  datatype Outcome = Outcome(gremlin: Gremlin, recorded: seq<Event>, result: bool)

  function Draw(seed: uint32, n: nat): nat {
    Scaled(Output(Step(seed)), n)
  }

  // ---------------------------------------------------------------------------
  // One call, as a function of the state and of the device's answers

  /** The character at the front of the pending text, typed. */
  function TypePending(g: Gremlin, rom: Rom): Outcome
    requires WellBehaved(rom)
  {
    if g.charsToType == [] then Outcome(g, [Null], false)
    else Outcome(g.(charsToType := g.charsToType[rom.charSize(g.charsToType)..]),
                 [Key(rom.charValue(g.charsToType), 0, 0)], true)
  }

  /** Past the space left in the field, each further character is the end with a chance of 33 in 100. */
  function CutShort(rom: Rom, seed: uint32, text: Text, i: nat): (r: (uint32, Text))
    requires WellBehaved(rom)
    decreases |text| - i
  {
    if i >= |text| then (seed, text)
    else if Draw(seed, 100) < 33 then (Step(seed), text[..i])
    else CutShort(rom, Step(seed), text, i + rom.charSize(text[i..]))
  }

  /** Chooses a quote, eight times in ten from the local table, and queues it, cut to the field. */
  function QueueQuote(g: Gremlin, rom: Rom): Gremlin
    requires WellBehaved(rom)
  {
    var table := if Draw(g.seed, 10) < 8 then rom.localQuotes else rom.asciiQuotes;
    var seed := Step(g.seed);
    var pick := Draw(seed, NUM_OF_QUOTES);
    ScaledInRange(Output(Step(seed)), NUM_OF_QUOTES);
    var text := g.charsToType + table[pick];
    var cut := if 0 <= rom.spaceLeft < |text|
               then CutShort(rom, Step(seed), text, rom.charStart(text, rom.spaceLeft))
               else (Step(seed), text);
    g.(seed := cut.0, charsToType := cut.1)
  }

  /** Where the `k`-th character behind position `i` starts. */
  function CharacterAt(rom: Rom, text: Text, i: nat, k: nat): nat
    requires WellBehaved(rom)
    decreases k
  {
    if k == 0 || i >= |text| then i else CharacterAt(rom, text, i + rom.charSize(text[i..]), k - 1)
  }

  /** The first `k` characters behind the full point have drawn 33 or more, and so have not ended the text. */
  ghost predicate Spared(rom: Rom, seed: uint32, text: Text, i: nat, k: nat)
    requires WellBehaved(rom)
  {
    forall j :: 0 <= j < k ==> CharacterAt(rom, text, i, j) < |text| && Draw(Iterate(seed, j), 100) >= 33
  }

  /** The text ends at the first character behind the full point that draws less than 33, or where it ends. */
  ghost predicate CutAt(rom: Rom, seed: uint32, text: Text, i: nat, cut: (uint32, Text), k: nat)
    requires WellBehaved(rom)
  {
    && Spared(rom, seed, text, i, k)
    && if CharacterAt(rom, text, i, k) < |text|
       then Draw(Iterate(seed, k), 100) < 33
            && cut == (Iterate(seed, k + 1), text[..CharacterAt(rom, text, i, k)])
       else cut == (Iterate(seed, k), text)
  }

  lemma {:induction false} CutShortMeans(rom: Rom, seed: uint32, text: Text, i: nat) returns (k: nat)
    requires WellBehaved(rom)
    ensures CutAt(rom, seed, text, i, CutShort(rom, seed, text, i), k)
    decreases |text| - i
  {
    hide Step, Draw, WellBehaved;
    IterateZero(seed);
    if i >= |text| {
      k := 0;
    } else if Draw(seed, 100) < 33 {
      k := 0;
      assert Iterate(seed, 1) == Step(Iterate(seed, 0));
    } else {
      var next := i + rom.charSize(text[i..]);
      CharacterSize(rom, text, i);
      var k' := CutShortMeans(rom, Step(seed), text, next);
      k := k' + 1;
      forall j | 0 <= j < k
        ensures CharacterAt(rom, text, i, j) < |text| && Draw(Iterate(seed, j), 100) >= 33
      {
        if j > 0 {
          IterateNext(seed, j - 1);
          assert CharacterAt(rom, text, next, j - 1) < |text| && Draw(Iterate(Step(seed), j - 1), 100) >= 33;
        }
      }
      IterateNext(seed, k');
      IterateNext(seed, k' + 1);
    }
  }

  lemma CharacterSize(rom: Rom, text: Text, i: nat)
    requires WellBehaved(rom) && i < |text|
    ensures 1 <= rom.charSize(text[i..]) <= |text| - i
  {
  }

  /** A cut keeps everything in front of `i`, and what it keeps is the front of the text. */
  lemma {:induction false} CutShortKeepsFront(rom: Rom, seed: uint32, text: Text, i: nat)
    requires WellBehaved(rom) && i <= |text|
    ensures var cut := CutShort(rom, seed, text, i);
            cut.1 <= text && i <= |cut.1| && exists n :: 0 <= n <= |text| - i && cut.0 == Iterate(seed, n)
    decreases |text| - i
  {
    hide Step, Output, Scaled;
    if i == |text| {
      assert Iterate(seed, 0) == seed;
    } else if Draw(seed, 100) < 33 {
      assert Iterate(seed, 0) == seed;
      assert Iterate(seed, 1) == Step(Iterate(seed, 0));
    } else {
      var size := rom.charSize(text[i..]);
      CutShortKeepsFront(rom, Step(seed), text, i + size);
      var n :| 0 <= n <= |text| - i - size && CutShort(rom, Step(seed), text, i + size).0 == Iterate(Step(seed), n);
      IterateNext(seed, n);
      assert CutShort(rom, seed, text, i).0 == Iterate(seed, n + 1);
    }
  }

  lemma {:induction false} IterateNext(seed: uint32, n: nat)
    ensures Iterate(Step(seed), n) == Iterate(seed, n + 1)
  {
    hide Step;
    if n > 0 {
      IterateNext(seed, n - 1);
    } else {
      assert Iterate(seed, 0) == seed;
    }
  }

  /** The quote that the first two draws choose: of the local table in eight cases of ten. */
  function ChosenQuote(seed: uint32, rom: Rom): Text
    requires WellBehaved(rom)
  {
    ScaledInRange(Output(Step(Step(seed))), NUM_OF_QUOTES);
    (if Draw(seed, 10) < 8 then rom.localQuotes else rom.asciiQuotes)[Draw(Step(seed), 18)]
  }

  /** The pending text has been extended by the chosen quote, by all of it when there is room. Otherwise the text
      ends at the first character past the room that draws less than 33. Nothing else has changed but the
      generator, which has made two draws and one for each character asked. */
  ghost predicate QuoteQueued(g: Gremlin, q: Gremlin, rom: Rom)
    requires WellBehaved(rom)
  {
    var text := g.charsToType + ChosenQuote(g.seed, rom);
    && q == g.(seed := q.seed, charsToType := q.charsToType)
    && q.charsToType <= text
    && if 0 <= rom.spaceLeft < |text|
       then
         var start := rom.charStart(text, rom.spaceLeft);
         && |q.charsToType| >= start
         && (exists k: nat :: CutAt(rom, Iterate(g.seed, 2), text, start, (q.seed, q.charsToType), k))
       else q.charsToType == text && q.seed == Iterate(g.seed, 2)
  }

  lemma QuoteIsQueued(g: Gremlin, rom: Rom)
    requires WellBehaved(rom)
    ensures QuoteQueued(g, QueueQuote(g, rom), rom)
    ensures g.charsToType == [] ==> |QueueQuote(g, rom).charsToType| < CHARS_TO_TYPE_SIZE
  {
    hide Step, Output, Scaled, CutShort, CutAt;
    var quote := ChosenQuote(g.seed, rom);
    var text := g.charsToType + quote;
    ChosenFits(g.seed, rom);
    TwoSteps(g.seed);
    if 0 <= rom.spaceLeft < |text| {
      var start := rom.charStart(text, rom.spaceLeft);
      CutShortKeepsFront(rom, Iterate(g.seed, 2), text, start);
      var k := CutShortMeans(rom, Iterate(g.seed, 2), text, start);
    }
  }

  lemma ChosenFits(seed: uint32, rom: Rom)
    requires WellBehaved(rom)
    ensures |ChosenQuote(seed, rom)| < CHARS_TO_TYPE_SIZE
  {
    hide Scaled, Output, Step;
    ScaledInRange(Output(Step(Step(seed))), NUM_OF_QUOTES);
    var table := if Draw(seed, 10) < 8 then rom.localQuotes else rom.asciiQuotes;
    assert ChosenQuote(seed, rom) in table;
  }

  lemma TwoSteps(seed: uint32)
    ensures Iterate(seed, 2) == Step(Step(seed))
  {
    hide Step;
    assert Iterate(seed, 0) == seed;
    assert Iterate(seed, 1) == Step(seed);
  }

  function TypeKey(g: Gremlin, singles: set<nat>): Outcome {
    TotalFits(singles);
    var sum := if g.keyProbabilitiesSum == 0 then Total(singles) else g.keyProbabilitiesSum;
    var i := Select(singles, Draw(g.seed, sum), 0);
    var g' := g.(seed := Step(g.seed), keyProbabilitiesSum := sum);
    if i >= NUM_OF_KEYS then Outcome(g', [], false)
    else Outcome(g', [Key(i, 0, if i > 255 || i == PAGE_UP || i == PAGE_DOWN then COMMAND_KEY_MASK else 0)], true)
  }

  function TapPen(g: Gremlin, rom: Rom): Outcome {
    Outcome(g.(seed := Iterate(g.seed, rom.penDraws), needPenUp := true,
               lastPointX := rom.penX, lastPointY := rom.penY, lastPenDown := true),
            [Pen(rom.penX, rom.penY)], true)
  }

  function SwitchApp(g: Gremlin, rom: Rom): Outcome {
    var seed := Step(g.seed);
    if Draw(g.seed, 100) < 5 && |rom.apps| > 0 then
      ScaledInRange(Output(Step(seed)), |rom.apps|);
      var app := rom.apps[Draw(seed, |rom.apps|)];
      var g' := g.(seed := Step(seed));
      if app.executable
      then Outcome(g', [AppSwitch(app.cardNo, app.dbID, rom.currentCardNo, rom.currentDbID)], true)
      else Outcome(g', [Null], false)
    else Outcome(g.(seed := seed), [Null], false)
  }

  function Command(g: Gremlin, code: uint16): Outcome {
    Outcome(g, [Key(code, code, COMMAND_KEY_MASK)], true)
  }

  function TypeSomething(g: Gremlin, rom: Rom, singles: set<nat>): Outcome
    requires WellBehaved(rom)
  {
    var g' := g.(seed := Step(g.seed));
    if Draw(g.seed, 100) < TYPE_QUOTE_CHANCE && rom.focusAtQuote then TypePending(QueueQuote(g', rom), rom)
    else TypeKey(g', singles)
  }

  function OtherEvent(g: Gremlin, rom: Rom, chance: nat): Outcome
    requires WellBehaved(rom)
  {
    if chance < PEN_DOWN_CHANCE then TapPen(g, rom)
    else if chance < MENU_CHANCE then Command(g, MENU)
    else if chance < FIND_CHANCE then Command(g, FIND)
    else if chance < KEYBOARD_CHANCE then Command(g, KEYBOARD)
    else if chance < LOW_BATTERY_CHANCE then Command(g, LOW_BATTERY)
    else if chance < APP_SWITCH_CHANCE then SwitchApp(g, rom)
    else Outcome(g, [Null], false)
  }

  function Fresh(g: Gremlin, rom: Rom, singles: set<nat>): Outcome
    requires WellBehaved(rom)
  {
    var chance := Draw(g.seed, 100);
    var g' := g.(seed := Step(g.seed));
    if chance < KEY_WITHOUT_FOCUS_CHANCE || (chance < KEY_WITH_FOCUS_CHANCE && rom.focusAtKey)
    then TypeSomething(g', rom, singles)
    else OtherEvent(g', rom, chance)
  }

  /** Pending text goes first. */
  function MakeUp(g: Gremlin, rom: Rom, singles: set<nat>): Outcome
    requires WellBehaved(rom)
  {
    if g.charsToType != [] then TypePending(g, rom) else Fresh(g, rom, singles)
  }

  /** Catching up and lifting the pen come before anything random. */
  function NextEvent(g: Gremlin, rom: Rom, singles: set<nat>): Outcome
    requires WellBehaved(rom)
  {
    if g.catchUp then Outcome(g.(catchUp := false), [Null], false)
    else if g.needPenUp then
      Outcome(g.(needPenUp := false, lastPointX := -1, lastPointY := -1, lastPenDown := false), [PEN_UP], true)
    else MakeUp(g, rom, singles)
  }

  function FakeEvent(g: Gremlin, rom: Rom, singles: set<nat>): Outcome
    requires WellBehaved(rom)
  {
    if !g.inited || g.counter > g.until then Outcome(g, [], false) else NextEvent(g, rom, singles)
  }

  // ---------------------------------------------------------------------------
  // Pen movements

  datatype Point = Point(seed: uint32, x: int16, y: int16)

  /** `RandomScreenXY`. */
  function ScreenPoint(seed: uint32, screen: Screen): Point
    requires Usable(screen)
  {
    ScaledInRange(Output(Step(seed)), screen.width);
    ScaledInRange(Output(Step(Step(seed))), screen.height);
    Point(Step(Step(seed)), Draw(seed, screen.width), Draw(Step(seed), screen.height))
  }

  /** A coordinate a little way off, within a line's height. */
  function Nearby(last: int16, pick: nat, screen: Screen): int16 {
    Wrap16(last + (pick - screen.lineHeight))
  }

  /** `FakeLocalMovement`. Below the screen the y-coordinate becomes 1, not the last line. */
  function LocalPoint(seed: uint32, screen: Screen, lastX: int16, lastY: int16): Point
    requires Usable(screen)
  {
    var x := Nearby(lastX, Draw(seed, screen.lineHeight * 2), screen);
    var y := Nearby(lastY, Draw(Step(seed), screen.lineHeight * 2), screen);
    Point(Step(Step(seed)),
          if x < 0 then 0 else if x >= screen.width then screen.width - 1 else x,
          if y < 0 then 0 else if y >= screen.height then 1 else y)
  }

  /** Where a movement goes that does not lift the pen. */
  function MovedTo(g: Gremlin, screen: Screen): Point
    requires Usable(screen)
  {
    if !g.lastPenDown then ScreenPoint(g.seed, screen)
    else if Draw(g.seed, 100) < PEN_BIG_MOVE_CHANCE then ScreenPoint(Step(g.seed), screen)
    else LocalPoint(Step(g.seed), screen, g.lastPointX, g.lastPointY)
  }

  /** The movement lifts the pen. */
  predicate MoveLifts(g: Gremlin) {
    Draw(g.seed, 100) >= PEN_MOVE_CHANCE
  }

  /** `GetPenMovement`: no pen-up is due any more, whatever comes of it. */
  function MovePen(g: Gremlin, screen: Screen): Outcome
    requires Usable(screen)
  {
    var g' := g.(seed := Step(g.seed), needPenUp := false);
    if MoveLifts(g)
    then Outcome(g'.(lastPointX := -1, lastPointY := -1, lastPenDown := false, catchUp := true), [PEN_UP], true)
    else
      var p := MovedTo(g', screen);
      Outcome(g'.(seed := p.seed, lastPointX := p.x, lastPointY := p.y), [Pen(p.x, p.y)], true)
  }

  /** A movement that does not lift the pen ends on the screen, unless that is a single line high. */
  lemma MovesOnScreen(g: Gremlin, screen: Screen)
    requires Usable(screen)
    ensures var p := MovedTo(g, screen);
            0 <= p.x < screen.width && 0 <= p.y < if screen.height == 1 then 2 else screen.height
  {
    hide Output, Step, Scaled;
    ScaledInRange(Output(Step(g.seed)), screen.width);
    ScaledInRange(Output(Step(Step(g.seed))), screen.height);
    ScaledInRange(Output(Step(Step(g.seed))), screen.width);
    ScaledInRange(Output(Step(Step(Step(g.seed)))), screen.height);
  }

  // ---------------------------------------------------------------------------
  // The object

  class Gremlins {
    const generator: Generator
    const recorder: EventPlayback
    // The bytes that can be characters of their own in the device's encoding.
    const singles: set<nat>
    var keyProbabilitiesSum: uint16
    var lastPointX: int16
    var lastPointY: int16
    var lastPenDown: bool
    var number: uint16
    var counter: uint32
    var until: uint32
    var finalUntil: uint32
    var saveUntil: uint32
    var inited: bool
    var catchUp: bool
    var needPenUp: bool
    var charsToType: Text
    // Keys and pen points put into the device's event queue, and application switches made.
    var performed: seq<Event>

    ghost function State(): Gremlin
      reads this, generator
    {
      Gremlin(generator.next, keyProbabilitiesSum, lastPointX, lastPointY, lastPenDown,
              counter, until, inited, catchUp, needPenUp, charsToType)
    }

    ghost predicate Valid()
      reads this, recorder, recorder.events, recorder.events.ptr
    {
      recorder.Valid() && recorder.events.usedSize + 13 <= MAX_LENGTH
    }

    constructor (generator: Generator, recorder: EventPlayback, singles: set<nat>)
      ensures this.generator == generator && this.recorder == recorder && this.singles == singles
      ensures keyProbabilitiesSum == 0 && !inited && number == 0xFFFF && performed == []
    {
      this.generator, this.recorder, this.singles := generator, recorder, singles;
      keyProbabilitiesSum, inited, number := 0, false, 0xFFFF;
      lastPointX, lastPointY, lastPenDown := 0, 0, false;
      counter, until, finalUntil, saveUntil := 0, 0, 0, 0;
      catchUp, needPenUp, charsToType, performed := false, false, [], [];
    }

    /** What calls leave behind outside the object: the log, its mask, and what the device was given. */
    ghost function Left(): Trail
      reads this`performed, recorder, recorder.events, recorder.events.ptr
      requires recorder.events.Valid()
    {
      Trail(recorder.recording, recorder.events.Contents(), recorder.mask, performed)
    }

    /** Starts a run over; the pending text and the pen are forgotten, the key sum is kept. */
    method Initialize(newNumber: uint16, untilStep: uint32, finalVal: uint32)
      modifies this, generator
      ensures State() == Gremlin(newNumber, old(keyProbabilitiesSum), old(lastPointX), old(lastPointY),
                                 old(lastPenDown), 0, untilStep, true, false, false, [])
      ensures number == newNumber && finalUntil == finalVal && saveUntil == untilStep
      ensures performed == old(performed)
    {
      counter := 0;
      until := untilStep;
      finalUntil := finalVal;
      saveUntil := until;
      catchUp := false;
      needPenUp := false;
      charsToType := [];
      inited := true;
      number := newNumber;
      generator.Srand(number);
    }

    method BumpCounter()
      modifies this`counter
      ensures counter == (old(counter) + 1) % 0x1_0000_0000
    {
      counter := (counter + 1) % 0x1_0000_0000;
    }

    /** Records an event and performs it on the device. */
    method Emit(e: Event)
      requires Valid() && Recordable(e)
      modifies this`performed, recorder`mask, recorder.events, recorder.events.ptr
      ensures recorder.Valid()
      ensures recorder.events.ptr == old(recorder.events.ptr) || fresh(recorder.events.ptr)
      ensures Left() == After(old(Left()), [e]) && State() == old(State())
      ensures performed == old(performed) + if IsPosted(e) then [e] else []
    {
      hide After, Encode, WellFormed, Parse;
      AfterOne(Left(), e);
      recorder.RecordEvent(e);
      if IsPosted(e) {
        performed := performed + [e];
      }
    }

    /** Types the next pending character, if there is one. */
    method SendCharsToType(rom: Rom) returns (sent: bool)
      requires Valid() && WellBehaved(rom)
      modifies this`performed, this`charsToType, recorder`mask, recorder.events, recorder.events.ptr
      ensures sent <==> old(charsToType) != []
      ensures sent ==>
                && charsToType == old(charsToType)[rom.charSize(old(charsToType))..]
                && performed == old(performed) + [Key(rom.charValue(old(charsToType)), 0, 0)]
      ensures recorder.Valid()
      ensures recorder.events.ptr == old(recorder.events.ptr) || fresh(recorder.events.ptr)
      ensures var o := TypePending(old(State()), rom);
              sent ==> State() == o.gremlin && Left() == After(old(Left()), o.recorded)
      ensures !sent ==> State() == old(State()) && Left() == old(Left())
    {
      hide After, WellFormed, Parse;
      sent := false;
      if charsToType != [] {
        Emit(Key(rom.charValue(charsToType), 0, 0));
        charsToType := charsToType[rom.charSize(charsToType)..];
        sent := true;
      }
    }

    /** Appends a quote to the pending text, of which there is none by then, in its buffer. */
    method ChooseQuote(rom: Rom)
      requires WellBehaved(rom) && charsToType == []
      modifies this`charsToType, generator
      ensures State() == QueueQuote(old(State()), rom)
      ensures QuoteQueued(old(State()), State(), rom) && |charsToType| < CHARS_TO_TYPE_SIZE
    {
      hide Scaled, Output, Step, CutShort, QuoteQueued;
      QuoteIsQueued(State(), rom);
      var quoteArray := rom.asciiQuotes;
      var die := generator.RandN(10);
      if die < 8 {
        quoteArray := rom.localQuotes;
      }
      var pick := generator.RandN(NUM_OF_QUOTES);
      charsToType := charsToType + quoteArray[pick];
      if 0 <= rom.spaceLeft < |charsToType| {
        CutPending(rom, rom.charStart(charsToType, rom.spaceLeft));
      }
    }

    method CutPending(rom: Rom, start: nat)
      requires WellBehaved(rom) && start <= |charsToType|
      modifies this`charsToType, generator
      ensures (generator.next, charsToType) == old(CutShort(rom, generator.next, charsToType, start))
    {
      var i := start;
      while i < |charsToType|
        invariant start <= i <= |charsToType| && charsToType == old(charsToType)
        invariant CutShort(rom, generator.next, charsToType, i)
                  == old(CutShort(rom, generator.next, charsToType, start))
        decreases |charsToType| - i
      {
        var percent := generator.RandN(100);
        if percent < 33 {
          charsToType := charsToType[..i];
          return;
        }
        i := i + rom.charSize(charsToType[i..]);
      }
    }

    method TypeRandomKey() returns (result: bool)
      requires Valid()
      modifies this, generator, recorder`mask, recorder.events, recorder.events.ptr
      ensures recorder.Valid()
      ensures recorder.events.ptr == old(recorder.events.ptr) || fresh(recorder.events.ptr)
      ensures var o := TypeKey(old(State()), singles);
              && State() == o.gremlin && result == o.result
              && Left() == After(old(Left()), o.recorded)
    {
      hide After, Scaled, Output, Step, Select, Prefix, WellFormed, Parse;
      if keyProbabilitiesSum == 0 {
        keyProbabilitiesSum := SumProbabilities(singles);
      }
      var chance := generator.RandN(keyProbabilitiesSum);
      var i := PickKey(singles, chance);
      if i >= NUM_OF_KEYS {
        AfterNothing(Left());
        return false;
      }
      if i > 255 || i == PAGE_UP || i == PAGE_DOWN {
        Emit(Key(i, 0, COMMAND_KEY_MASK));
      } else {
        Emit(Key(i, 0, 0));
      }
      return true;
    }

    /** Stands for the choice of a point inside the current form: the answer is the device's,
        and it uses up random numbers. */
    method FakeEventXY(rom: Rom) returns (x: int16, y: int16)
      modifies generator
      ensures x == rom.penX && y == rom.penY
      ensures generator.next == Iterate(old(generator.next), rom.penDraws)
    {
      x, y := rom.penX, rom.penY;
      generator.Srand(Iterate(generator.next, rom.penDraws));
    }

    method SwitchToRandomApp(rom: Rom) returns (result: bool)
      requires Valid() && WellBehaved(rom)
      modifies this, generator, recorder`mask, recorder.events, recorder.events.ptr
      ensures recorder.Valid()
      ensures recorder.events.ptr == old(recorder.events.ptr) || fresh(recorder.events.ptr)
      ensures var o := SwitchApp(old(State()), rom);
              && State() == o.gremlin && result == o.result
              && Left() == After(old(Left()), o.recorded)
    {
      hide After, Scaled, Output, Step, WellFormed, Parse;
      var percent := generator.RandN(100);
      if percent < 5 {
        if |rom.apps| > 0 {
          var pick := generator.RandN(|rom.apps|);
          var app := rom.apps[pick];
          if app.executable {
            Emit(AppSwitch(app.cardNo, app.dbID, rom.currentCardNo, rom.currentDbID));
            return true;
          }
        }
      }
      Emit(Null);
      return false;
    }

    method GetFakeEvent(rom: Rom) returns (result: bool)
      requires Valid() && WellBehaved(rom)
      modifies this, generator, recorder`mask, recorder.events, recorder.events.ptr
      ensures recorder.Valid()
      ensures recorder.events.ptr == old(recorder.events.ptr) || fresh(recorder.events.ptr)
      ensures var o := FakeEvent(old(State()), rom, singles);
              && State() == o.gremlin && result == o.result
              && Left() == After(old(Left()), o.recorded)
      ensures old(|charsToType| < CHARS_TO_TYPE_SIZE) ==> |charsToType| < CHARS_TO_TYPE_SIZE
    {
      hide After, NextEvent, WellFormed, Parse, WellBehaved;
      AfterNothing(Left());
      PendingFits(State(), rom, singles);
      if !inited {
        return false;
      }
      if counter > until {
        return false;
      }
      result := CatchUpOrMakeUp(rom);
    }

    /** `GetFakeEvent` behind its two checks. */
    method CatchUpOrMakeUp(rom: Rom) returns (result: bool)
      requires Valid() && WellBehaved(rom)
      modifies this, generator, recorder`mask, recorder.events, recorder.events.ptr
      ensures recorder.Valid()
      ensures recorder.events.ptr == old(recorder.events.ptr) || fresh(recorder.events.ptr)
      ensures var o := NextEvent(old(State()), rom, singles);
              && State() == o.gremlin && result == o.result
              && Left() == After(old(Left()), o.recorded)
    {
      hide After, MakeUp, WellFormed, Parse, WellBehaved;
      if catchUp {
        Emit(Null);
        catchUp := false;
        result := false;
      } else if needPenUp {
        lastPointX := -1;
        lastPointY := -1;
        lastPenDown := false;
        needPenUp := false;
        Emit(Pen(-1, -1));
        result := true;
      } else {
        result := MakeUpEvent(rom);
      }
    }

    /** `GetFakeEvent` behind its early exits. */
    method MakeUpEvent(rom: Rom) returns (result: bool)
      requires Valid() && WellBehaved(rom)
      modifies this, generator, recorder`mask, recorder.events, recorder.events.ptr
      ensures recorder.Valid()
      ensures recorder.events.ptr == old(recorder.events.ptr) || fresh(recorder.events.ptr)
      ensures var o := MakeUp(old(State()), rom, singles);
              && State() == o.gremlin && result == o.result
              && Left() == After(old(Left()), o.recorded)
    {
      hide After, TypePending, Fresh, WellFormed, Parse, WellBehaved;
      PendingTypesOne(State(), rom);
      result := SendCharsToType(rom);
      if !result {
        result := FreshEvent(rom);
      }
    }

    /** Draws what kind of event comes next, and makes it up. */
    method FreshEvent(rom: Rom) returns (result: bool)
      requires Valid() && WellBehaved(rom) && charsToType == []
      modifies this, generator, recorder`mask, recorder.events, recorder.events.ptr
      ensures recorder.Valid()
      ensures recorder.events.ptr == old(recorder.events.ptr) || fresh(recorder.events.ptr)
      ensures var o := Fresh(old(State()), rom, singles);
              && State() == o.gremlin && result == o.result
              && Left() == After(old(Left()), o.recorded)
    {
      hide After, Scaled, Output, Step, TypePending, TypeSomething, OtherEvent, WellFormed, Parse, WellBehaved;
      var chance := generator.RandN(100);
      if chance < KEY_WITHOUT_FOCUS_CHANCE || (chance < KEY_WITH_FOCUS_CHANCE && rom.focusAtKey) {
        result := TypeQuoteOrKey(rom);
      } else {
        result := TapOrCommand(rom, chance);
      }
    }

    method TypeQuoteOrKey(rom: Rom) returns (result: bool)
      requires Valid() && WellBehaved(rom) && charsToType == []
      modifies this, generator, recorder`mask, recorder.events, recorder.events.ptr
      ensures recorder.Valid()
      ensures recorder.events.ptr == old(recorder.events.ptr) || fresh(recorder.events.ptr)
      ensures var o := TypeSomething(old(State()), rom, singles);
              && State() == o.gremlin && result == o.result
              && Left() == After(old(Left()), o.recorded)
    {
      hide After, Scaled, Output, Step, TypePending, TypeKey, QueueQuote, WellFormed, Parse;
      var percent := generator.RandN(100);
      if percent < TYPE_QUOTE_CHANCE && rom.focusAtQuote {
        ChooseQuote(rom);
        PendingTypesOne(State(), rom);
        result := SendCharsToType(rom);
        if !result {
          Emit(Null);
        }
        return;
      }
      result := TypeRandomKey();
    }

    method TapOrCommand(rom: Rom, chance: nat) returns (result: bool)
      requires Valid() && WellBehaved(rom)
      modifies this, generator, recorder`mask, recorder.events, recorder.events.ptr
      ensures recorder.Valid()
      ensures recorder.events.ptr == old(recorder.events.ptr) || fresh(recorder.events.ptr)
      ensures var o := OtherEvent(old(State()), rom, chance);
              && State() == o.gremlin && result == o.result
              && Left() == After(old(Left()), o.recorded)
    {
      hide After, SwitchApp, TapPen, WellFormed, Parse;
      if chance < PEN_DOWN_CHANCE {
        result := TapScreen(rom);
        return;
      } else if chance < MENU_CHANCE {
        Emit(Key(MENU, MENU, COMMAND_KEY_MASK));
        return true;
      } else if chance < FIND_CHANCE {
        Emit(Key(FIND, FIND, COMMAND_KEY_MASK));
        return true;
      } else if chance < KEYBOARD_CHANCE {
        Emit(Key(KEYBOARD, KEYBOARD, COMMAND_KEY_MASK));
        return true;
      } else if chance < LOW_BATTERY_CHANCE {
        Emit(Key(LOW_BATTERY, LOW_BATTERY, COMMAND_KEY_MASK));
        return true;
      } else if chance < APP_SWITCH_CHANCE {
        result := SwitchToRandomApp(rom);
        return;
      }
      Emit(Null);
      return false;
    }

    method TapScreen(rom: Rom) returns (result: bool)
      requires Valid() && WellBehaved(rom)
      modifies this, generator, recorder`mask, recorder.events, recorder.events.ptr
      ensures recorder.Valid()
      ensures recorder.events.ptr == old(recorder.events.ptr) || fresh(recorder.events.ptr)
      ensures var o := TapPen(old(State()), rom);
              && State() == o.gremlin && result == o.result
              && Left() == After(old(Left()), o.recorded)
    {
      hide After, Iterate, WellFormed, Parse, WellBehaved, Recordable;
      PenIsRecordable(rom);
      needPenUp := true;
      var x, y := FakeEventXY(rom);
      lastPointX := x;
      lastPointY := y;
      lastPenDown := true;
      Emit(Pen(x, y));
      return true;
    }

    method RandomScreenXY(screen: Screen) returns (x: int16, y: int16)
      requires Usable(screen)
      modifies generator
      ensures Point(generator.next, x, y) == ScreenPoint(old(generator.next), screen)
    {
      var pickX := generator.RandN(screen.width);
      x := pickX;
      var pickY := generator.RandN(screen.height);
      y := pickY;
    }

    method FakeLocalMovement(screen: Screen, lastX: int16, lastY: int16) returns (x: int16, y: int16)
      requires Usable(screen)
      modifies generator
      ensures Point(generator.next, x, y) == LocalPoint(old(generator.next), screen, lastX, lastY)
    {
      hide Scaled, Output, Step;
      var pick := generator.RandN(screen.lineHeight * 2);
      x := Wrap16(lastX + (pick - screen.lineHeight));
      pick := generator.RandN(screen.lineHeight * 2);
      y := Wrap16(lastY + (pick - screen.lineHeight));
      if x < 0 {
        x := 0;
      }
      if x >= screen.width {
        x := screen.width - 1;
      }
      if y < 0 {
        y := 0;
      }
      if y >= screen.height {
        y := 1;
      }
    }

    /** A pen movement, asked for while the device waits in EvtGetPen. */
    method GetPenMovement(screen: Screen)
      requires Valid() && Usable(screen)
      modifies this, generator, recorder`mask, recorder.events, recorder.events.ptr
      ensures recorder.Valid()
      ensures recorder.events.ptr == old(recorder.events.ptr) || fresh(recorder.events.ptr)
      ensures var o := MovePen(old(State()), screen);
              State() == o.gremlin && Left() == After(old(Left()), o.recorded)
      ensures charsToType == old(charsToType)
    {
      hide After, MovePen, WellFormed, Parse, Recordable;
      MoveIsRecordable(State(), screen);
      var x, y := DrawMovement(screen);
      Emit(Pen(x, y));
    }

    /** Everything of a pen movement but handing it out. */
    method DrawMovement(screen: Screen) returns (x: int16, y: int16)
      requires Usable(screen)
      modifies this`needPenUp, this`lastPenDown, this`catchUp, this`lastPointX, this`lastPointY, generator
      ensures State() == MovePen(old(State()), screen).gremlin
      ensures MovePen(old(State()), screen).recorded == [Pen(x, y)]
    {
      hide Scaled, Output, Step, LocalPoint, ScreenPoint;
      needPenUp := false;
      x, y := -1, -1;
      var percent := generator.RandN(100);
      if percent < PEN_MOVE_CHANCE {
        x, y := NextPoint(screen);
      } else {
        lastPenDown := false;
        catchUp := true;
      }
      lastPointX := x;
      lastPointY := y;
    }

    method NextPoint(screen: Screen) returns (x: int16, y: int16)
      requires Usable(screen)
      modifies generator
      ensures Point(generator.next, x, y) == MovedTo(old(State()), screen)
    {
      hide Scaled, Output, Step, LocalPoint, ScreenPoint;
      if lastPenDown {
        var percent := generator.RandN(100);
        if percent < PEN_BIG_MOVE_CHANCE {
          x, y := RandomScreenXY(screen);
        } else {
          x, y := FakeLocalMovement(screen, lastPointX, lastPointY);
        }
      } else {
        x, y := RandomScreenXY(screen);
      }
    }
  }

  lemma MoveIsRecordable(g: Gremlin, screen: Screen)
    requires Usable(screen)
    ensures var o := MovePen(g, screen); |o.recorded| == 1 && o.recorded[0].Pen? && Recordable(o.recorded[0])
    ensures IsPenUp(MovePen(g, screen).recorded[0]) <==> MoveLifts(g)
  {
    MovesOnScreen(g.(seed := Step(g.seed), needPenUp := false), screen);
  }

  lemma PenIsRecordable(rom: Rom)
    requires WellBehaved(rom)
    ensures Recordable(Pen(rom.penX, rom.penY))
  {
  }

  /** Null events and notes of errors are only recorded. */
  predicate IsPosted(e: Event) {
    !e.Null? && !e.Error?
  }

  /** The events that reach the device. */
  function Performed(es: seq<Event>): seq<Event> {
    if es == [] then [] else (if IsPosted(es[0]) then [es[0]] else []) + Performed(es[1..])
  }

  /** Every call that gets past the first two checks records exactly one event: the exit past the end of
      the key table, which would record none, is never taken. */
  lemma OneEventPerCall(g: Gremlin, rom: Rom, singles: set<nat>)
    requires WellBehaved(rom)
    requires g.keyProbabilitiesSum == 0 || g.keyProbabilitiesSum == Total(singles)
    ensures var o := FakeEvent(g, rom, singles);
            && |o.recorded| == (if g.inited && g.counter <= g.until then 1 else 0)
            && (o.gremlin.keyProbabilitiesSum == 0 || o.gremlin.keyProbabilitiesSum == Total(singles))
  {
    hide TypePending, TypeKey, QueueQuote, Total, Draw;
    PendingTypesOne(g, rom);
    var g1 := g.(seed := Step(g.seed));
    var g2 := g1.(seed := Step(g1.seed));
    QuoteKeepsState(g2, rom);
    PendingTypesOne(QueueQuote(g2, rom), rom);
    KeyTypesOne(g2, singles);
  }

  lemma PendingShrinks(g: Gremlin, rom: Rom)
    requires WellBehaved(rom)
    ensures |TypePending(g, rom).gremlin.charsToType| <= |g.charsToType|
  {
  }

  lemma TypedFits(g: Gremlin, rom: Rom, singles: set<nat>)
    requires WellBehaved(rom) && g.charsToType == []
    ensures |TypeSomething(g, rom, singles).gremlin.charsToType| < CHARS_TO_TYPE_SIZE
  {
    hide QueueQuote, TypePending, Total, Draw, WellBehaved, Select;
    var g' := g.(seed := Step(g.seed));
    QuoteIsQueued(g', rom);
    PendingShrinks(QueueQuote(g', rom), rom);
  }

  lemma OtherKeepsPending(g: Gremlin, rom: Rom, chance: nat)
    requires WellBehaved(rom)
    ensures OtherEvent(g, rom, chance).gremlin.charsToType == g.charsToType
  {
    hide Draw, WellBehaved;
  }

  /** The pending text never outgrows its buffer, quotes included. */
  lemma PendingFits(g: Gremlin, rom: Rom, singles: set<nat>)
    requires WellBehaved(rom)
    ensures |g.charsToType| < CHARS_TO_TYPE_SIZE ==>
              |FakeEvent(g, rom, singles).gremlin.charsToType| < CHARS_TO_TYPE_SIZE
  {
    hide TypePending, TypeSomething, OtherEvent, Draw, WellBehaved;
    PendingShrinks(g, rom);
    var g' := g.(seed := Step(g.seed));
    OtherKeepsPending(g', rom, Draw(g.seed, 100));
    if g.charsToType == [] {
      TypedFits(g', rom, singles);
    }
  }

  lemma QuoteKeepsState(g: Gremlin, rom: Rom)
    requires WellBehaved(rom)
    ensures var q := QueueQuote(g, rom); q == g.(seed := q.seed, charsToType := q.charsToType)
  {
  }

  lemma PendingTypesOne(g: Gremlin, rom: Rom)
    requires WellBehaved(rom)
    ensures var o := TypePending(g, rom);
            && |o.recorded| == 1 && !o.recorded[0].Pen?
            && o.result == (g.charsToType != [])
            && (!o.result ==> o == Outcome(g, [Null], false))
            && o.gremlin == g.(charsToType := o.gremlin.charsToType)
  {
  }

  lemma KeyTypesOne(g: Gremlin, singles: set<nat>)
    requires g.keyProbabilitiesSum == 0 || g.keyProbabilitiesSum == Total(singles)
    ensures var o := TypeKey(g, singles);
            && |o.recorded| == 1 && o.recorded[0].Key?
            && o.gremlin == g.(seed := o.gremlin.seed, keyProbabilitiesSum := Total(singles))
  {
    TotalFits(singles);
    ScaledInRange(Output(Step(g.seed)), Total(singles));
    NeverPastTheTable(singles, Draw(g.seed, Total(singles)));
  }
}
