/** Whole runs of a Gremlin: everything that makes it record, in any order, and how its pen-ups come out. */
module GremlinRuns {
  import opened Bytes
  import opened Events
  import opened Replay
  import opened Random
  import opened KeyChoice
  import opened Gremlins

  /** What drives a run: a request for an event, a pen movement while the device polls the pen, a note that
      an error has occurred, or the counter moving on. */
  datatype Act = Fake(rom: Rom) | Move(screen: Screen) | Fault | Bump

  ghost predicate Possible(act: Act) {
    (act.Fake? ==> WellBehaved(act.rom)) && (act.Move? ==> Usable(act.screen))
  }

  ghost predicate AllPossible(acts: seq<Act>) {
    forall a :: a in acts ==> Possible(a)
  }

  lemma PossibleTail(acts: seq<Act>)
    requires AllPossible(acts) && acts != []
    ensures Possible(acts[0]) && AllPossible(acts[1..])
  {
    assert acts[0] in acts;
  }

  ghost function Perform(g: Gremlin, act: Act, singles: set<nat>): Outcome
    requires Possible(act)
  {
    match act
    case Fake(rom) => FakeEvent(g, rom, singles)
    case Move(screen) => MovePen(g, screen)
    case Fault => Outcome(g, [Error], false)
    case Bump => Outcome(g.(counter := (g.counter + 1) % 0x1_0000_0000), [], false)
  }

  /** The state after the acts and everything recorded on the way. */
  ghost function RunGremlin(g: Gremlin, acts: seq<Act>, singles: set<nat>): (Gremlin, seq<Event>)
    requires AllPossible(acts)
    decreases |acts|
  {
    if acts == [] then (g, [])
    else
      PossibleTail(acts);
      var o := Perform(g, acts[0], singles);
      var rest := RunGremlin(o.gremlin, acts[1..], singles);
      (rest.0, o.recorded + rest.1)
  }

  /** The key sum, once taken, is right; holds from the first `Initialize` on. */
  predicate Summed(g: Gremlin, singles: set<nat>) {
    g.keyProbabilitiesSum == 0 || g.keyProbabilitiesSum == Total(singles)
  }

  predicate Runs(g: Gremlin) {
    g.inited && g.counter <= g.until
  }

  /** What a request for an event records. Catching up comes before a pen-up that is due, and a pen-up becomes
      due exactly when the event puts the pen down. */
  lemma EventShape(g: Gremlin, rom: Rom, singles: set<nat>)
    requires WellBehaved(rom) && Summed(g, singles)
    ensures var o := FakeEvent(g, rom, singles);
            && Summed(o.gremlin, singles)
            && (!Runs(g) ==> o == Outcome(g, [], false))
            && (Runs(g) ==>
                  && |o.recorded| == 1 && Recordable(o.recorded[0]) && !o.gremlin.catchUp
                  && (IsPenUp(o.recorded[0]) <==> !g.catchUp && g.needPenUp)
                  && (o.gremlin.needPenUp <==> IsPenDown(o.recorded[0]) || (g.catchUp && g.needPenUp))
                  && (g.catchUp ==> o.recorded[0] == Null))
  {
    hide TypePending, TypeKey, QueueQuote, Total, Draw;
    PendingTypesOne(g, rom);
    var g1 := g.(seed := Step(g.seed));
    var g2 := g1.(seed := Step(g1.seed));
    QuoteKeepsState(g2, rom);
    PendingTypesOne(QueueQuote(g2, rom), rom);
    KeyTypesOne(g2, singles);
  }

  /** The act records a pen-up. */
  predicate LiftsPen(g: Gremlin, act: Act) {
    match act
    case Fake(_) => Runs(g) && !g.catchUp && g.needPenUp
    case Move(_) => MoveLifts(g)
    case _ => false
  }

  /** Every act records at most one event, a recordable one, and a pen-up exactly when it lifts the pen. */
  lemma ActShape(g: Gremlin, act: Act, singles: set<nat>)
    requires Possible(act) && Summed(g, singles)
    ensures var o := Perform(g, act, singles);
            && Summed(o.gremlin, singles)
            && (o.recorded == [] || (|o.recorded| == 1 && Recordable(o.recorded[0])))
            && (LiftsPen(g, act) <==> o.recorded != [] && IsPenUp(o.recorded[0]))
  {
    hide FakeEvent, WellBehaved, Total, Draw, Recordable;
    match act {
      case Fake(rom) =>
        EventShape(g, rom, singles);
      case Move(screen) =>
        MoveIsRecordable(g, screen);
      case Fault =>
        ErrorIsRecordable();
      case Bump =>
    }
  }

  lemma ErrorIsRecordable()
    ensures Recordable(Error) && !IsPenUp(Error)
  {
  }

  /** Whether the pen is down after the events, when `down` is its state before them. */
  function PenAfter(down: bool, es: seq<Event>): bool {
    if es == [] then down else IsPenDown(es[|es| - 1])
  }

  /** No act lifts the pen unless the last event recorded before it has put it down. */
  ghost predicate NoStrayLift(g: Gremlin, acts: seq<Act>, singles: set<nat>, down: bool)
    requires AllPossible(acts)
    decreases |acts|
  {
    acts == []
    || (PossibleTail(acts);
        var o := Perform(g, acts[0], singles);
        (LiftsPen(g, acts[0]) ==> down) && NoStrayLift(o.gremlin, acts[1..], singles, PenAfter(down, o.recorded)))
  }

  /** Over every run, however its acts are mixed: every recorded pen-up stands right behind a pen-down exactly
      when no act lifts a pen that is not down. */
  lemma {:induction false} RunFollowsDowns(g: Gremlin, acts: seq<Act>, singles: set<nat>, down: bool)
    requires AllPossible(acts) && Summed(g, singles)
    ensures var r := RunGremlin(g, acts, singles);
            && Summed(r.0, singles) && |r.1| <= |acts|
            && (PenUpsFollowDowns(r.1, down) <==> NoStrayLift(g, acts, singles, down))
            && (forall e :: e in r.1 ==> Recordable(e))
    decreases |acts|
  {
    hide Perform, LiftsPen, Summed, PenUpsFollowDowns, IsPenDown, IsPenUp, Recordable;
    if acts == [] {
      NothingFollows(down);
    } else {
      PossibleTail(acts);
      var o := Perform(g, acts[0], singles);
      ActShape(g, acts[0], singles);
      RunFollowsDowns(o.gremlin, acts[1..], singles, PenAfter(down, o.recorded));
      var rest := RunGremlin(o.gremlin, acts[1..], singles).1;
      if o.recorded == [] {
        assert [] + rest == rest;
      } else {
        assert o.recorded == [o.recorded[0]];
        FollowDownsCons(o.recorded[0], rest, down);
      }
    }
  }

  lemma NothingFollows(penDown: bool)
    ensures PenUpsFollowDowns([], penDown)
  {
  }

  // ---------------------------------------------------------------------------
  // Which acts are to blame

  /** A pen-up is due only while the pen is down, and never while time to catch up is due; so after `Initialize`. */
  predicate Due(g: Gremlin, down: bool) {
    !(g.catchUp && g.needPenUp) && (g.needPenUp ==> down)
  }

  /** No error is noted between a pen-down and the pen-up due for it. */
  ghost predicate FaultsApart(g: Gremlin, acts: seq<Act>, singles: set<nat>)
    requires AllPossible(acts)
    decreases |acts|
  {
    acts == []
    || (PossibleTail(acts);
        (acts[0].Fault? ==> !g.needPenUp) && FaultsApart(Perform(g, acts[0], singles).gremlin, acts[1..], singles))
  }

  /** Pen movements lift the pen only when the last event recorded has put it down. */
  ghost predicate MovesLiftDown(g: Gremlin, acts: seq<Act>, singles: set<nat>, down: bool)
    requires AllPossible(acts)
    decreases |acts|
  {
    acts == []
    || (PossibleTail(acts);
        var o := Perform(g, acts[0], singles);
        && (acts[0].Move? && MoveLifts(g) ==> down)
        && MovesLiftDown(o.gremlin, acts[1..], singles, PenAfter(down, o.recorded)))
  }

  lemma ActDue(g: Gremlin, act: Act, singles: set<nat>, down: bool)
    requires Possible(act) && Summed(g, singles) && Due(g, down)
    requires act.Fault? ==> !g.needPenUp
    ensures var o := Perform(g, act, singles); Due(o.gremlin, PenAfter(down, o.recorded))
    ensures act.Fake? && LiftsPen(g, act) ==> down
  {
    hide FakeEvent, WellBehaved, Total, Draw, Recordable, Summed;
    if act.Fake? {
      EventShape(g, act.rom, singles);
    }
  }

  /** As long as errors keep out of the way, pen movements are the only acts that record stray pen-ups. */
  lemma {:induction false} OnlyMovesStray(g: Gremlin, acts: seq<Act>, singles: set<nat>, down: bool)
    requires AllPossible(acts) && Summed(g, singles) && Due(g, down) && FaultsApart(g, acts, singles)
    ensures NoStrayLift(g, acts, singles, down) <==> MovesLiftDown(g, acts, singles, down)
    decreases |acts|
  {
    hide Perform, Summed, Due, PenAfter, MoveLifts;
    if acts != [] {
      PossibleTail(acts);
      var o := Perform(g, acts[0], singles);
      ActShape(g, acts[0], singles);
      ActDue(g, acts[0], singles, down);
      OnlyMovesStray(o.gremlin, acts[1..], singles, PenAfter(down, o.recorded));
    }
  }

  /** Without errors and pen movements there are none at all. */
  lemma {:induction false} EventsNeverStray(g: Gremlin, acts: seq<Act>, singles: set<nat>, down: bool)
    requires AllPossible(acts) && Summed(g, singles) && Due(g, down)
    requires forall a :: a in acts ==> a.Fake? || a.Bump?
    ensures NoStrayLift(g, acts, singles, down)
    decreases |acts|
  {
    hide Perform, Summed, Due, PenAfter;
    if acts != [] {
      PossibleTail(acts);
      assert acts[0] in acts;
      var o := Perform(g, acts[0], singles);
      ActShape(g, acts[0], singles);
      ActDue(g, acts[0], singles, down);
      EventsNeverStray(o.gremlin, acts[1..], singles, PenAfter(down, o.recorded));
    }
  }

  // ---------------------------------------------------------------------------
  // What becomes of stray pen-ups

  /** The list without the pen-ups that do not stand right behind a pen-down. */
  function WithoutStrays(es: seq<Event>, down: bool): seq<Event> {
    if es == [] then []
    else (if IsPenUp(es[0]) && !down then [] else [es[0]]) + WithoutStrays(es[1..], IsPenDown(es[0]))
  }

  /** With every event enabled the filter drops exactly the stray pen-ups. */
  lemma {:induction false} FilterDropsStrays(es: seq<Event>, mask: seq<bool>, i: nat, down: bool)
    requires Masked(es, mask) && AllEnabled(mask) && i <= |es|
    ensures Filter(es, mask, i, down) == WithoutStrays(es[i..], down)
    decreases |es| - i
  {
    if i < |es| {
      assert es[i..][1..] == es[i + 1..];
      FilterDropsStrays(es, mask, i + 1, IsPenDown(es[i]));
    }
  }

  /** Storing neither makes nor mends strays. */
  lemma {:induction false} StoredStrays(es: seq<Event>, down: bool)
    requires forall e :: e in es ==> Recordable(e)
    ensures WithoutStrays(StoredAll(es), down) == StoredAll(WithoutStrays(es, down))
    decreases |es|
  {
    hide Stored, Recordable;
    if es == [] {
      assert StoredAll(es) == [];
    } else {
      var st := StoredAll(es);
      assert es[0] in es;
      StoredKeepsKind(es[0]);
      assert st[1..] == StoredAll(es[1..]);
      StoredStrays(es[1..], IsPenDown(es[0]));
      var head := if IsPenUp(es[0]) && !down then [] else [es[0]];
      StoredConcat(head, WithoutStrays(es[1..], IsPenDown(es[0])));
      assert StoredAll(head) == if head == [] then [] else [Stored(es[0])];
    }
  }

  lemma StoredConcat(a: seq<Event>, b: seq<Event>)
    ensures StoredAll(a + b) == StoredAll(a) + StoredAll(b)
  {
  }

  // ---------------------------------------------------------------------------
  // Runs with strays

  /** A device whose forms have no field in focus. */
  const UNFOCUSED := Rom(false, false, seq(NUM_OF_QUOTES, _ => []), seq(NUM_OF_QUOTES, _ => []), 0,
                         (t, n) => n, t => |t|, t => 0, 10, 20, 0, [], 0, 0)

  /** What `Initialize` leaves of a new Gremlin. */
  function Started(seed: uint32): Gremlin {
    Gremlin(seed, 0, 0, 0, false, 0, 1000, true, false, false, [])
  }

  lemma UnfocusedIsWellBehaved()
    ensures WellBehaved(UNFOCUSED)
  {
  }

  /** The first thing the device does is to poll the pen: the movement lifts a pen that is not down. */
  lemma MoveStrays(screen: Screen)
    requires Usable(screen)
    ensures AllPossible([Move(screen)]) && Due(Started(8000), false)
    ensures RunGremlin(Started(8000), [Move(screen)], {}).1 == [PEN_UP] && WithoutStrays([PEN_UP], false) == []
  {
    assert MoveLifts(Started(8000));
    PossibleTail([Move(screen)]);
    assert [Move(screen)][1..] == [];
  }

  /** An error is noted while the pen is down, and the run is continued: the pen-up due comes behind the error. */
  lemma FaultStrays()
    ensures var acts := [Fake(UNFOCUSED), Fault, Fake(UNFOCUSED)];
            && AllPossible(acts) && Due(Started(8000), false)
            && RunGremlin(Started(8000), acts, {}).1 == [Pen(10, 20), Error, PEN_UP]
    ensures WithoutStrays([Pen(10, 20), Error, PEN_UP], false) == [Pen(10, 20), Error]
  {
    UnfocusedIsWellBehaved();
    FirstIsTap();
    var acts := [Fake(UNFOCUSED), Fault, Fake(UNFOCUSED)];
    assert acts[1..] == [Fault, Fake(UNFOCUSED)] && acts[1..][1..] == [Fake(UNFOCUSED)];
    hide MakeUp;
    var tapped := FakeEvent(Started(8000), UNFOCUSED, {}).gremlin;
    assert FakeEvent(tapped, UNFOCUSED, {}).recorded == [PEN_UP];
    OneAct(tapped, Fake(UNFOCUSED));
    assert RunGremlin(tapped, [Fault, Fake(UNFOCUSED)], {}).1 == [Error] + [PEN_UP];
    DropLast();
  }

  lemma FirstIsTap()
    ensures WellBehaved(UNFOCUSED)
    ensures var o := FakeEvent(Started(8000), UNFOCUSED, {});
            && o.recorded == [Pen(10, 20)]
            && Runs(o.gremlin) && !o.gremlin.catchUp && o.gremlin.needPenUp
  {
    UnfocusedIsWellBehaved();
    assert Draw(8000, 100) == 79;
  }

  lemma OneAct(g: Gremlin, act: Act)
    requires Possible(act)
    ensures AllPossible([act]) && RunGremlin(g, [act], {}).1 == Perform(g, act, {}).recorded
  {
    hide Perform;
    PossibleTail([act]);
    assert [act][1..] == [];
  }

  lemma DropLast()
    ensures WithoutStrays([Pen(10, 20), Error, PEN_UP], false) == [Pen(10, 20), Error]
  {
    var es := [Pen(10, 20), Error, PEN_UP];
    assert es[1..] == [Error, PEN_UP] && [Error, PEN_UP][1..] == [PEN_UP] && [PEN_UP][1..] == [];
    assert WithoutStrays([PEN_UP], false) == [];
    assert WithoutStrays([Error, PEN_UP], true) == [Error];
  }
}
