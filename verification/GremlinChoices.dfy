/** What a Gremlin does with the numbers it draws, and with the text it has to type. */
module GremlinChoices {
  import opened Bytes
  import opened Events
  import opened Random
  import opened KeyChoice
  import opened Gremlins
  import opened GremlinRuns

  // ---------------------------------------------------------------------------
  // Typing

  function Joined(chars: seq<Text>): Text {
    if chars == [] then [] else chars[0] + Joined(chars[1..])
  }

  /** The text consists of these characters: each device in turn sees the next one at the front of what is left. */
  ghost predicate Spells(chars: seq<Text>, roms: seq<Rom>) {
    && |chars| == |roms|
    && forall k :: 0 <= k < |chars| ==>
                     && WellBehaved(roms[k]) && chars[k] != []
                     && roms[k].charSize(Joined(chars[k..])) == |chars[k]|
  }

  /** The key each device gets: the character at the front of what is left, without keycode and modifiers. */
  function KeysFor(chars: seq<Text>, roms: seq<Rom>): (es: seq<Event>)
    requires |chars| == |roms|
    ensures |es| == |chars|
  {
    seq(|chars|, k requires 0 <= k < |chars| => Key(roms[k].charValue(Joined(chars[k..])), 0, 0))
  }

  /** One request and one bump of the counter for each device. */
  function Requests(roms: seq<Rom>): seq<Act> {
    if roms == [] then [] else [Fake(roms[0]), Bump] + Requests(roms[1..])
  }

  lemma {:induction false} RequestsPossible(roms: seq<Rom>)
    requires forall r :: r in roms ==> WellBehaved(r)
    ensures AllPossible(Requests(roms))
    decreases |roms|
  {
    hide WellBehaved;
    if roms != [] {
      RequestsPossible(roms[1..]);
    }
  }

  /** One request types the character at the front of the pending text and leaves the rest of it. */
  lemma TypesNextCharacter(g: Gremlin, first: Text, rest: Text, rom: Rom, singles: set<nat>)
    requires WellBehaved(rom) && Runs(g) && !g.catchUp && !g.needPenUp
    requires g.charsToType == first + rest && first != [] && rom.charSize(first + rest) == |first|
    ensures FakeEvent(g, rom, singles)
            == Outcome(g.(charsToType := rest), [Key(rom.charValue(first + rest), 0, 0)], true)
  {
    hide WellBehaved, Fresh;
    assert (first + rest)[|first|..] == rest;
  }

  /** A request and the bump behind it. */
  lemma RequestThenBump(g: Gremlin, rom: Rom, roms: seq<Rom>, singles: set<nat>)
    requires WellBehaved(rom) && forall r :: r in roms ==> WellBehaved(r)
    ensures AllPossible(Requests([rom] + roms)) && AllPossible(Requests(roms))
    ensures var o := FakeEvent(g, rom, singles);
            var bumped := o.gremlin.(counter := (o.gremlin.counter + 1) % 0x1_0000_0000);
            var rest := RunGremlin(bumped, Requests(roms), singles);
            RunGremlin(g, Requests([rom] + roms), singles) == (rest.0, o.recorded + rest.1)
  {
    hide FakeEvent, WellBehaved, RunGremlin;
    var all := [rom] + roms;
    RequestsPossible(all);
    RequestsPossible(roms);
    var acts, tail := Requests(all), [Bump] + Requests(roms);
    assert all[1..] == roms && acts == [Fake(rom)] + tail;
    assert acts[0] == Fake(rom) && acts[1..] == tail && tail[0] == Bump && tail[1..] == Requests(roms);
    RunUnfolds(g, acts, singles);
    var o := FakeEvent(g, rom, singles);
    RunUnfolds(o.gremlin, tail, singles);
    var bumped := o.gremlin.(counter := (o.gremlin.counter + 1) % 0x1_0000_0000);
    var rest := RunGremlin(bumped, Requests(roms), singles);
    assert [] + rest.1 == rest.1;
  }

  lemma RunUnfolds(g: Gremlin, acts: seq<Act>, singles: set<nat>)
    requires AllPossible(acts) && acts != []
    ensures Possible(acts[0]) && AllPossible(acts[1..])
    ensures var o := Perform(g, acts[0], singles);
            var rest := RunGremlin(o.gremlin, acts[1..], singles);
            RunGremlin(g, acts, singles) == (rest.0, o.recorded + rest.1)
  {
    hide Perform;
    PossibleTail(acts);
  }

  lemma SpellsRest(chars: seq<Text>, roms: seq<Rom>)
    requires Spells(chars, roms) && chars != []
    ensures Spells(chars[1..], roms[1..])
    ensures WellBehaved(roms[0]) && chars[0] != [] && roms[0].charSize(Joined(chars)) == |chars[0]|
    ensures Joined(chars) == chars[0] + Joined(chars[1..])
    ensures KeysFor(chars, roms) == [Key(roms[0].charValue(Joined(chars)), 0, 0)] + KeysFor(chars[1..], roms[1..])
    ensures roms == [roms[0]] + roms[1..]
  {
    hide WellBehaved, Joined;
    JoinedCons(chars);
    assert chars[0..] == chars;
    var rest, others := chars[1..], roms[1..];
    forall k | 0 <= k < |rest| ensures rest[k..] == chars[k + 1..] && others[k] == roms[k + 1] {
    }
  }

  lemma JoinedCons(chars: seq<Text>)
    requires chars != []
    ensures Joined(chars) == chars[0] + Joined(chars[1..])
  {
  }

  lemma NothingToType()
    ensures Joined([]) == [] && Requests([]) == []
  {
  }

  /** A pending text is typed completely and in order, one character a request, and then nothing is pending. */
  lemma {:induction false} TypesWholeText(g: Gremlin, chars: seq<Text>, roms: seq<Rom>, singles: set<nat>)
    requires Spells(chars, roms) && g.charsToType == Joined(chars)
    requires g.inited && !g.catchUp && !g.needPenUp
    requires g.counter + |chars| <= g.until + 1 && g.counter + |chars| < 0x1_0000_0000
    ensures AllPossible(Requests(roms))
    ensures RunGremlin(g, Requests(roms), singles)
            == (g.(charsToType := [], counter := g.counter + |chars|), KeysFor(chars, roms))
    decreases |chars|
  {
    hide FakeEvent, WellBehaved, Requests, Spells, Joined;
    AllBehave(chars, roms);
    RequestsPossible(roms);
    if chars == [] {
      NothingToType();
      assert roms == [] && KeysFor(chars, roms) == [];
    } else {
      SpellsRest(chars, roms);
      var o := FakeEvent(g, roms[0], singles);
      TypesNextCharacter(g, chars[0], Joined(chars[1..]), roms[0], singles);
      RequestThenBump(g, roms[0], roms[1..], singles);
      TypesWholeText(o.gremlin.(counter := g.counter + 1), chars[1..], roms[1..], singles);
    }
  }

  lemma AllBehave(chars: seq<Text>, roms: seq<Rom>)
    requires Spells(chars, roms)
    ensures |chars| == |roms| && forall r :: r in roms ==> WellBehaved(r)
  {
    hide WellBehaved;
  }

  // ---------------------------------------------------------------------------
  // The choice of an event

  /** A request finds nothing to make up for and nothing to finish. */
  predicate IsFree(g: Gremlin) {
    Runs(g) && !g.catchUp && !g.needPenUp && g.charsToType == []
  }

  /** The hundred values of the first draw: below 10, or 40 with a field in focus, something is typed; up to 79 the
      pen is put down, then come the menu, find, keyboard and low battery keys and an application switch with 4, 2,
      1, 2 and 4 values; the last seven do nothing. */
  lemma EventByChance(g: Gremlin, rom: Rom, singles: set<nat>)
    requires WellBehaved(rom) && IsFree(g)
    ensures var o, c := FakeEvent(g, rom, singles), Draw(g.seed, 100);
            var typing := c < 10 || (c < 40 && rom.focusAtKey);
            && (!typing && c < 80 ==> o.recorded == [Pen(rom.penX, rom.penY)] && o.gremlin.needPenUp)
            && (80 <= c < 84 ==> o.recorded == [Key(0x105, 0x105, 8)])
            && (84 <= c < 86 ==> o.recorded == [Key(0x10A, 0x10A, 8)])
            && (c == 86 ==> o.recorded == [Key(0x109, 0x109, 8)])
            && (87 <= c < 89 ==> o.recorded == [Key(0x101, 0x101, 8)])
            && (89 <= c < 93 ==> o == SwitchApp(g.(seed := Step(g.seed)), rom))
            && (93 <= c ==> o.recorded == [Null])
            && (o.result ==> o.recorded != [Null]) && (!typing && o.recorded != [Null] ==> o.result)
            && (typing ==> o == TypeSomething(g.(seed := Step(g.seed)), rom, singles))
  {
    hide WellBehaved, Draw, TypeSomething, TapPen, Step;
    TypedResult(g.(seed := Step(g.seed)), rom, singles);
    TapIs(g.(seed := Step(g.seed)), rom);
  }

  lemma TapIs(g: Gremlin, rom: Rom)
    ensures TapPen(g, rom).recorded == [Pen(rom.penX, rom.penY)] && TapPen(g, rom).result
    ensures TapPen(g, rom).gremlin
            == g.(seed := Iterate(g.seed, rom.penDraws), needPenUp := true, lastPointX := rom.penX,
                  lastPointY := rom.penY, lastPenDown := true)
  {
  }

  lemma TypedResult(g: Gremlin, rom: Rom, singles: set<nat>)
    requires WellBehaved(rom)
    ensures var o := TypeSomething(g, rom, singles); o.result ==> o.recorded != [Null]
  {
    hide QueueQuote, Draw, Total, Select;
  }

  /** Typing: one draw in ten, with a field in focus, begins a quote; otherwise a key is drawn. */
  lemma TypingByChance(g: Gremlin, rom: Rom, singles: set<nat>)
    requires WellBehaved(rom) && g.charsToType == []
    ensures var o := TypeSomething(g, rom, singles);
            if Draw(g.seed, 100) < 10 && rom.focusAtQuote
            then
              var q := QueueQuote(g.(seed := Step(g.seed)), rom);
              QuoteQueued(g.(seed := Step(g.seed)), q, rom)
              && o.recorded == [if q.charsToType == [] then Null else Key(rom.charValue(q.charsToType), 0, 0)]
              && (q.charsToType != [] ==> o.gremlin.charsToType == q.charsToType[rom.charSize(q.charsToType)..])
            else o == TypeKey(g.(seed := Step(g.seed)), singles)
  {
    hide QueueQuote, Draw, QuoteQueued;
    QuoteIsQueued(g.(seed := Step(g.seed)), rom);
  }

  /** The drawn key: the one whose slice of the chances holds the number drawn from their sum - a virtual key or a
      byte that can be a character - with the command bit exactly for virtual keys, page up and page down. */
  lemma KeyByChance(g: Gremlin, singles: set<nat>)
    requires Summed(g, singles)
    ensures var o, n := TypeKey(g, singles), Draw(g.seed, Total(singles));
            exists i: nat :: i < 0x110 && (i < 0x100 ==> i in singles) && ChanceForKey(i) > 0
                  && Prefix(singles, i) <= n < Prefix(singles, i + 1)
                  && o.recorded == [Key(i, 0, if i >= 0x100 || i == 11 || i == 12 then 8 else 0)]
  {
    hide ChanceForKey, Prefix, Draw, Select, Total, Eligible;
    TotalFits(singles);
    var n := Draw(g.seed, Total(singles));
    DrawInRange(g.seed, Total(singles));
    PrefixStarts(singles);
    var i := Select(singles, n, 0);
    SelectIs(singles, n);
    var o := TypeKey(g, singles);
    assert o.recorded == [Key(i, 0, if i >= 0x100 || i == 11 || i == 12 then 8 else 0)];
  }

  lemma SelectIs(singles: set<nat>, n: nat)
    requires n < Total(singles)
    ensures Prefix(singles, 0) <= n
    ensures var i := Select(singles, n, 0);
            && i < 0x110 && (i < 0x100 ==> i in singles) && ChanceForKey(i) > 0
            && Prefix(singles, i) <= n < Prefix(singles, i + 1)
  {
    hide ChanceForKey, Prefix;
    PrefixStarts(singles);
    NeverPastTheTable(singles, n);
  }

  lemma PrefixStarts(singles: set<nat>)
    ensures Prefix(singles, 0) == 0
  {
  }

  lemma DrawInRange(seed: uint32, n: nat)
    requires n > 0
    ensures Draw(seed, n) < n
  {
    ScaledInRange(Output(Step(seed)), n);
  }

  /** An application switch: five draws in a hundred, and only to an executable, pick one of the list by a second
      draw, and record it in front of the application left. */
  lemma SwitchByChance(g: Gremlin, rom: Rom)
    ensures var o := SwitchApp(g, rom);
            if Draw(g.seed, 100) < 5 && rom.apps != []
            then Draw(Step(g.seed), |rom.apps|) < |rom.apps|
                 && var app := rom.apps[Draw(Step(g.seed), |rom.apps|)];
                    o.recorded == [if app.executable
                                   then AppSwitch(app.cardNo, app.dbID, rom.currentCardNo, rom.currentDbID)
                                   else Null]
            else o.recorded == [Null]
  {
    if rom.apps != [] {
      DrawInRange(Step(g.seed), |rom.apps|);
    }
  }

  /** A draw below `p` in a hundred is made by exactly the raw values below 32768p/100. */
  lemma PercentIs(seed: uint32, p: nat)
    ensures Draw(seed, 100) < p <==> Output(Step(seed)) * 100 < 32768 * p
  {
    ScaledIs(Output(Step(seed)), 100, p);
  }

  /** Catching up is a null event and nothing else; a pen-up that is due comes next and forgets the last point. */
  lemma OwedFirst(g: Gremlin, rom: Rom, singles: set<nat>)
    requires WellBehaved(rom) && Runs(g)
    ensures g.catchUp ==> FakeEvent(g, rom, singles) == Outcome(g.(catchUp := false), [Null], false)
    ensures !g.catchUp && g.needPenUp ==>
              FakeEvent(g, rom, singles)
              == Outcome(g.(needPenUp := false, lastPointX := -1, lastPointY := -1, lastPenDown := false),
                         [Pen(-1, -1)], true)
  {
    hide MakeUp, WellBehaved;
  }

  // ---------------------------------------------------------------------------
  // The choice of a pen movement

  /** Half of the raw values lift the pen. */
  lemma HalfLift(g: Gremlin)
    ensures MoveLifts(g) <==> Output(Step(g.seed)) >= 16384
  {
    PercentIs(g.seed, 50);
  }

  /** A movement that lifts the pen forgets the last point and asks for time to catch up. */
  lemma LiftingMovement(g: Gremlin, screen: Screen)
    requires Usable(screen) && MoveLifts(g)
    ensures MovePen(g, screen)
            == Outcome(g.(seed := Step(g.seed), needPenUp := false, catchUp := true, lastPointX := -1,
                          lastPointY := -1, lastPenDown := false),
                       [Pen(-1, -1)], true)
  {
    hide Step, Draw;
  }

  /** A movement that does not lift the pen goes anywhere on the screen if the pen was up, or in 5 draws of a
      hundred, and otherwise to a point near the last one. */
  lemma MovementByChance(g: Gremlin, screen: Screen)
    requires Usable(screen) && !MoveLifts(g)
    ensures var o := MovePen(g, screen);
            && o.recorded == [Pen(o.gremlin.lastPointX, o.gremlin.lastPointY)]
            && o.gremlin == g.(seed := o.gremlin.seed, needPenUp := false,
                               lastPointX := o.gremlin.lastPointX, lastPointY := o.gremlin.lastPointY)
            && var at, x, y := Step(g.seed), o.gremlin.lastPointX, o.gremlin.lastPointY;
               if !g.lastPenDown then x == Draw(at, screen.width) && y == Draw(Step(at), screen.height)
               else if Draw(at, 100) < 5
               then x == Draw(Step(at), screen.width) && y == Draw(Step(Step(at)), screen.height)
               else
                 var lines := screen.lineHeight * 2;
                 x == OnScreenX(g.lastPointX + Draw(Step(at), lines) - screen.lineHeight, screen)
                 && y == OnScreenY(g.lastPointY + Draw(Step(Step(at)), lines) - screen.lineHeight, screen)
  {
    hide Draw, Step, LocalPoint, ScreenPoint, OnScreenX, OnScreenY;
    var at := Step(g.seed);
    PointsAre(at, screen, g.lastPointX, g.lastPointY);
    PointsAre(Step(at), screen, g.lastPointX, g.lastPointY);
  }

  lemma PointsAre(seed: uint32, screen: Screen, lastX: int16, lastY: int16)
    requires Usable(screen)
    ensures var p := ScreenPoint(seed, screen);
            p.x == Draw(seed, screen.width) && p.y == Draw(Step(seed), screen.height)
    ensures var p, lines := LocalPoint(seed, screen, lastX, lastY), screen.lineHeight * 2;
            && p.x == OnScreenX(lastX + Draw(seed, lines) - screen.lineHeight, screen)
            && p.y == OnScreenY(lastY + Draw(Step(seed), lines) - screen.lineHeight, screen)
  {
    hide Draw, Step;
    var lines := screen.lineHeight * 2;
    WrapsTo(lastX + Draw(seed, lines) - screen.lineHeight);
    WrapsTo(lastY + Draw(Step(seed), lines) - screen.lineHeight);
  }

  lemma WrapsTo(n: int)
    ensures Wrap16(n) == (n + 0x8000) % 0x1_0000 - 0x8000
  {
  }

  /** In 16 bits, pulled to the left or right edge. */
  function OnScreenX(x: int, screen: Screen): int {
    var wrapped := (x + 0x8000) % 0x1_0000 - 0x8000;
    if wrapped < 0 then 0 else if wrapped < screen.width then wrapped else screen.width - 1
  }

  /** In 16 bits, pulled to the upper edge, or from below the screen to 1. */
  function OnScreenY(y: int, screen: Screen): int {
    var wrapped := (y + 0x8000) % 0x1_0000 - 0x8000;
    if wrapped < 0 then 0 else if wrapped < screen.height then wrapped else 1
  }
}
