/** A replay in which the device asks as it asked during the recording: `ReplayGetPen` where a pen movement was
    recorded, `ReplayGetEvent` everywhere else. */
module MirroredReplay {
  import opened Events
  import opened Replay
  import opened Random
  import opened Gremlins
  import opened GremlinRuns

  /** The first event that is not a pen-up puts the pen down. */
  predicate PointNext(es: seq<Event>) {
    es != [] && if IsPenUp(es[0]) then PointNext(es[1..]) else es[0].Pen?
  }

  /** The calls match the events: an event call meets no pen-up unless the cursor has the pen down, and a pen call
      that meets one with the pen up - which it then makes up - finds no point behind it. */
  ghost predicate Mirrors(es: seq<Event>, calls: seq<Call>, down: bool)
    requires |es| == |calls|
  {
    es == []
    || (if calls[0].ForEvent? then
          (IsPenUp(es[0]) ==> down) && Mirrors(es[1..], calls[1..], IsPenDown(es[0]))
        else if IsPenUp(es[0]) && !down then
          !PointNext(es) && Mirrors(es[1..], calls[1..], false)
        else
          Mirrors(es[1..], calls[1..], down))
  }

  lemma {:induction false} PointNextIs(es: seq<Event>, mask: seq<bool>, i: nat)
    requires Masked(es, mask) && AllEnabled(mask) && i <= |es|
    ensures var k := Next(es, mask, i, false);
            && (PointNext(es[i..]) <==> k < |es| && es[k].Pen?)
            && (k < |es| ==> !IsPenUp(es[k]))
            && (i < |es| ==> if IsPenUp(es[i]) then k == Next(es, mask, i + 1, false) else k == i)
    decreases |es| - i
  {
    if i < |es| {
      assert es[i..][1..] == es[i + 1..];
      PointNextIs(es, mask, i + 1);
    }
  }

  /** Deliveries are only ever added. */
  lemma {:induction false} RunAppends(es: seq<Event>, mask: seq<bool>, m: Machine, calls: seq<Call>)
    requires Masked(es, mask) && m.index <= |es|
    ensures m.deliveries <= Run(es, mask, m, calls).deliveries
    decreases |calls|
  {
    hide Next, IsPenDown;
    if calls != [] && m.replaying {
      RunAppends(es, mask, Advance(es, mask, m, calls[0]), calls[1..]);
    }
  }

  /** The cursor stands at the `i`-th event, or before or behind it with nothing but pen-ups in between, the pen up,
      and no point coming next. */
  ghost predicate InStep(es: seq<Event>, mask: seq<bool>, m: Machine, i: nat)
    requires Masked(es, mask) && i <= |es|
  {
    && m.index <= |es|
    && (m.index == i
        || (!m.penDown && !PointNext(es[i..]) && Next(es, mask, m.index, false) == Next(es, mask, i, false)))
  }

  /** A matching call delivers the event it was recorded for and stays in step. */
  lemma MatchingEventCall(es: seq<Event>, mask: seq<bool>, m: Machine, i: nat)
    requires Masked(es, mask) && AllEnabled(mask) && i < |es| && InStep(es, mask, m, i) && m.replaying
    requires IsPenUp(es[i]) ==> m.penDown
    ensures var t := AfterGetEvent(es, mask, m);
            && t.replaying && InStep(es, mask, t, i + 1) && t.penDown == IsPenDown(es[i])
            && Payloads(t.deliveries) == Payloads(m.deliveries) + [es[i]]
  {
    hide PointNext, Payloads, Next;
    PointNextIs(es, mask, i);
    NextHere(es, mask, i, m.penDown);
    PayloadsAppend(m.deliveries, Logged(i, es[i], ForEvent));
  }

  lemma NextHere(es: seq<Event>, mask: seq<bool>, i: nat, down: bool)
    requires Masked(es, mask) && AllEnabled(mask) && i < |es| && (IsPenUp(es[i]) ==> down)
    ensures Next(es, mask, i, down) == i
  {
  }

  lemma MatchingPenCall(es: seq<Event>, mask: seq<bool>, m: Machine, i: nat)
    requires Masked(es, mask) && AllEnabled(mask) && i < |es| && InStep(es, mask, m, i) && m.replaying
    requires es[i].Pen? && (IsPenUp(es[i]) && !m.penDown ==> !PointNext(es[i..]))
    ensures var t := AfterGetPen(es, mask, m);
            && t.replaying && InStep(es, mask, t, i + 1) && t.penDown == m.penDown
            && Payloads(t.deliveries) == Payloads(m.deliveries) + [es[i]]
  {
    hide PointNext, Payloads, Next;
    PointNextIs(es, mask, i);
    PointNextIs(es, mask, i + 1);
    PayloadsAppend(m.deliveries, Logged(i, es[i], ForPen));
    PayloadsFabricated(m.deliveries);
    if IsPenUp(es[i]) && !m.penDown {
      NextAtEnd(es, mask, false);
    } else {
      NextHere(es, mask, i, m.penDown);
    }
  }

  lemma NextAtEnd(es: seq<Event>, mask: seq<bool>, down: bool)
    requires Masked(es, mask)
    ensures Next(es, mask, |es|, down) == |es|
  {
  }

  lemma PayloadsFabricated(ds: seq<Delivery>)
    ensures Payloads(ds + [Fabricated]) == Payloads(ds) + [PEN_UP]
  {
  }

  /** A call that does not match delivers another event, or none and ends the replay. */
  lemma OtherCall(es: seq<Event>, mask: seq<bool>, m: Machine, i: nat, call: Call)
    requires Masked(es, mask) && AllEnabled(mask) && i < |es| && InStep(es, mask, m, i) && m.replaying
    requires IsPenUp(es[i]) && !m.penDown && (call.ForPen? ==> PointNext(es[i..]))
    ensures var t := Advance(es, mask, m, call);
            || (!t.replaying && t.deliveries == m.deliveries)
            || (exists e :: Payloads(t.deliveries) == Payloads(m.deliveries) + [e] && e != es[i])
  {
    PointNextIs(es, mask, i);
    var k, t := Next(es, mask, m.index, false), Advance(es, mask, m, call);
    if k < |es| {
      assert Payloads(t.deliveries) == Payloads(m.deliveries) + [es[k]];
    }
  }

  /** For every log: the mirrored replay delivers exactly the events of the log if and only if the calls match. */
  lemma {:induction false} MirroredRun(es: seq<Event>, mask: seq<bool>, m: Machine, i: nat, calls: seq<Call>)
    requires Masked(es, mask) && AllEnabled(mask) && i <= |es| && InStep(es, mask, m, i) && m.replaying
    requires |calls| == |es| - i && forall j :: 0 <= j < |calls| && calls[j].ForPen? ==> es[i + j].Pen?
    ensures Payloads(Run(es, mask, m, calls).deliveries) == Payloads(m.deliveries) + es[i..]
            <==> Mirrors(es[i..], calls, m.penDown)
    decreases |calls|
  {
    hide Next, IsPenUp, IsPenDown, PointNext, InStep, AfterGetEvent, AfterGetPen, Payloads;
    if calls == [] {
      assert es[i..] == [] && Payloads(m.deliveries) + [] == Payloads(m.deliveries);
    } else {
      InStepIndex(es, mask, m, i);
      var call, t, rest := calls[0], Advance(es, mask, m, calls[0]), es[i + 1..];
      assert es[i..] == [es[i]] + rest && es[i..][1..] == rest;
      var before, after := Payloads(m.deliveries), Payloads(Run(es, mask, t, calls[1..]).deliveries);
      if IsPenUp(es[i]) && !m.penDown && (call.ForPen? ==> PointNext(es[i..])) {
        OtherCall(es, mask, m, i, call);
        RunAppends(es, mask, t, calls[1..]);
        PayloadsGrow(t.deliveries, Run(es, mask, t, calls[1..]).deliveries);
        if t.deliveries == m.deliveries && !t.replaying {
          RunStopped(es, mask, t, calls[1..]);
          assert |before + es[i..]| > |before|;
        } else {
          var e :| Payloads(t.deliveries) == before + [e] && e != es[i];
          assert after[|before|] == e && (before + es[i..])[|before|] == es[i];
        }
      } else {
        if call.ForEvent? {
          MatchingEventCall(es, mask, m, i);
        } else {
          MatchingPenCall(es, mask, m, i);
        }
        MirroredRun(es, mask, t, i + 1, calls[1..]);
        assert before + es[i..] == (before + [es[i]]) + rest;
        PenKinds(es[i]);
      }
    }
  }

  lemma InStepIndex(es: seq<Event>, mask: seq<bool>, m: Machine, i: nat)
    requires Masked(es, mask) && i <= |es| && InStep(es, mask, m, i)
    ensures m.index <= |es|
  {
  }

  lemma PenKinds(e: Event)
    ensures IsPenUp(e) ==> e.Pen? && !IsPenDown(e)
  {
  }

  lemma PayloadsGrow(ds: seq<Delivery>, more: seq<Delivery>)
    requires ds <= more
    ensures Payloads(ds) <= Payloads(more)
  {
  }

  // ---------------------------------------------------------------------------
  // The calls of a run

  function CallFor(act: Act): Call {
    if act.Move? then ForPen else ForEvent
  }

  /** One call for each event recorded. */
  ghost function MirrorCalls(g: Gremlin, acts: seq<Act>, singles: set<nat>): seq<Call>
    requires AllPossible(acts)
    decreases |acts|
  {
    if acts == [] then []
    else
      PossibleTail(acts);
      var o := Perform(g, acts[0], singles);
      (if o.recorded == [] then [] else [CallFor(acts[0])]) + MirrorCalls(o.gremlin, acts[1..], singles)
  }

  lemma {:induction false} CallsMatchRecords(g: Gremlin, acts: seq<Act>, singles: set<nat>)
    requires AllPossible(acts) && Summed(g, singles)
    ensures var es, calls := RunGremlin(g, acts, singles).1, MirrorCalls(g, acts, singles);
            && |es| == |calls| && (forall e :: e in es ==> Recordable(e))
            && forall i :: 0 <= i < |es| && calls[i].ForPen? ==> es[i].Pen?
    decreases |acts|
  {
    hide Perform, Recordable, Summed;
    if acts != [] {
      PossibleTail(acts);
      var o := Perform(g, acts[0], singles);
      ActShape(g, acts[0], singles);
      MoveRecordsPoint(g, acts[0], singles);
      CallsMatchRecords(o.gremlin, acts[1..], singles);
    }
  }

  lemma MoveRecordsPoint(g: Gremlin, act: Act, singles: set<nat>)
    requires Possible(act)
    ensures act.Move? ==> var o := Perform(g, act, singles); |o.recorded| == 1 && o.recorded[0].Pen?
  {
    if act.Move? {
      MoveIsRecordable(g, act.screen);
    }
  }

  /** Storing changes nothing about a match. */
  lemma {:induction false} StoredMirrors(es: seq<Event>, calls: seq<Call>, down: bool)
    requires |es| == |calls| && forall e :: e in es ==> Recordable(e)
    ensures Mirrors(StoredAll(es), calls, down) <==> Mirrors(es, calls, down)
    ensures PointNext(StoredAll(es)) <==> PointNext(es)
    decreases |es|
  {
    hide Stored, Recordable;
    if es != [] {
      assert es[0] in es;
      StoredKeepsKind(es[0]);
      assert StoredAll(es)[1..] == StoredAll(es[1..]);
      StoredMirrors(es[1..], calls[1..], IsPenDown(es[0]));
      StoredMirrors(es[1..], calls[1..], false);
      StoredMirrors(es[1..], calls[1..], down);
    }
  }

  /** Every recorded run: its mirrored replay delivers exactly what was recorded, in its stored form, if and only
      if the calls match the records. */
  lemma MirroredReplay(g: Gremlin, acts: seq<Act>, singles: set<nat>)
    requires AllPossible(acts) && Summed(g, singles)
    ensures var es, calls := RunGremlin(g, acts, singles).1, MirrorCalls(g, acts, singles);
            && |es| == |calls|
            && (Payloads(Run(StoredAll(es), Enabled(|es|), START, calls).deliveries) == StoredAll(es)
                <==> Mirrors(es, calls, false))
  {
    hide RunGremlin, MirrorCalls, Mirrors, Run;
    var es, calls := RunGremlin(g, acts, singles).1, MirrorCalls(g, acts, singles);
    var stored := StoredAll(es);
    CallsMatchRecords(g, acts, singles);
    forall i | 0 <= i < |es| && calls[i].ForPen? ensures stored[i].Pen? {
      StoredKeepsKind(es[i]);
    }
    MirroredRun(stored, Enabled(|es|), START, 0, calls);
    assert stored[0..] == stored && Payloads([]) + stored == stored;
    StoredMirrors(es, calls, false);
  }

  // ---------------------------------------------------------------------------
  // A device that stops polling when the pen has been lifted

  /** No pen movement is asked for between the one that lifts the pen and the null event that lets the device
      catch up, and no error is noted between a pen-down and the pen-up due for it. */
  ghost predicate Polite(g: Gremlin, acts: seq<Act>, singles: set<nat>)
    requires AllPossible(acts)
    decreases |acts|
  {
    acts == []
    || (PossibleTail(acts);
        && (acts[0].Move? ==> !g.catchUp)
        && (acts[0].Fault? ==> !g.needPenUp)
        && Polite(Perform(g, acts[0], singles).gremlin, acts[1..], singles))
  }

  /** While there is catching up to do, the next event recorded is no point. */
  lemma {:induction false} NoPointWhileCatchingUp(g: Gremlin, acts: seq<Act>, singles: set<nat>)
    requires AllPossible(acts) && Summed(g, singles) && g.catchUp && Polite(g, acts, singles)
    ensures !PointNext(RunGremlin(g, acts, singles).1)
    decreases |acts|
  {
    hide FakeEvent, WellBehaved, Summed;
    if acts != [] {
      PossibleTail(acts);
      var o := Perform(g, acts[0], singles);
      ActShape(g, acts[0], singles);
      if acts[0].Fake? {
        EventShape(g, acts[0].rom, singles);
      }
      if o.recorded == [] {
        NoPointWhileCatchingUp(o.gremlin, acts[1..], singles);
        assert [] + RunGremlin(o.gremlin, acts[1..], singles).1 == RunGremlin(o.gremlin, acts[1..], singles).1;
      }
    }
  }

  /** Then the calls match: nothing is lost in the mirrored replay, strays included. */
  lemma {:induction false} PoliteRunsMirror(g: Gremlin, acts: seq<Act>, singles: set<nat>, down: bool)
    requires AllPossible(acts) && Summed(g, singles) && Due(g, down) && Polite(g, acts, singles)
    ensures |RunGremlin(g, acts, singles).1| == |MirrorCalls(g, acts, singles)|
    ensures Mirrors(RunGremlin(g, acts, singles).1, MirrorCalls(g, acts, singles), down)
    decreases |acts|
  {
    hide FakeEvent, MovePen, WellBehaved, Summed, Recordable, Mirrors, MirrorCalls, RunGremlin, PointNext, IsPenUp;
    CallsMatchRecords(g, acts, singles);
    if acts == [] {
      NothingMirrored(g, singles, down);
    } else {
      PossibleTail(acts);
      var o := Perform(g, acts[0], singles);
      var rest, calls := RunGremlin(o.gremlin, acts[1..], singles).1, MirrorCalls(o.gremlin, acts[1..], singles);
      ActShape(g, acts[0], singles);
      CallsMatchRecords(o.gremlin, acts[1..], singles);
      RunCons(g, acts, singles);
      if o.recorded == [] {
        ActDue(g, acts[0], singles, down);
        PoliteRunsMirror(o.gremlin, acts[1..], singles, down);
      } else {
        PenKinds(o.recorded[0]);
        MirrorsCons(o.recorded[0], rest, CallFor(acts[0]), calls, down);
        if acts[0].Move? {
          MoveState(g, acts[0].screen);
          if MoveLifts(g) {
            NoPointWhileCatchingUp(o.gremlin, acts[1..], singles);
          }
          PoliteRunsMirror(o.gremlin, acts[1..], singles, down);
        } else {
          ActDue(g, acts[0], singles, down);
          PoliteRunsMirror(o.gremlin, acts[1..], singles, IsPenDown(o.recorded[0]));
        }
      }
    }
  }

  lemma NothingMirrored(g: Gremlin, singles: set<nat>, down: bool)
    ensures RunGremlin(g, [], singles).1 == [] && MirrorCalls(g, [], singles) == [] && Mirrors([], [], down)
  {
  }

  /** The first act of a run and the rest of it. */
  lemma RunCons(g: Gremlin, acts: seq<Act>, singles: set<nat>)
    requires AllPossible(acts) && acts != []
    ensures Possible(acts[0]) && AllPossible(acts[1..])
    ensures var o := Perform(g, acts[0], singles);
            var rest, calls := RunGremlin(o.gremlin, acts[1..], singles).1, MirrorCalls(o.gremlin, acts[1..], singles);
            && RunGremlin(g, acts, singles).1 == o.recorded + rest
            && MirrorCalls(g, acts, singles) == (if o.recorded == [] then [] else [CallFor(acts[0])]) + calls
            && (o.recorded == [] ==> RunGremlin(g, acts, singles).1 == rest && MirrorCalls(g, acts, singles) == calls)
            && (|o.recorded| == 1 ==> o.recorded == [o.recorded[0]])
  {
    hide Perform;
    PossibleTail(acts);
  }

  lemma MirrorsCons(e: Event, rest: seq<Event>, call: Call, calls: seq<Call>, down: bool)
    requires |rest| == |calls|
    ensures Mirrors([e] + rest, [call] + calls, down)
            <==> if call.ForEvent? then (IsPenUp(e) ==> down) && Mirrors(rest, calls, IsPenDown(e))
                 else (IsPenUp(e) && !down ==> !PointNext(rest)) && Mirrors(rest, calls, down)
  {
    hide IsPenUp, IsPenDown;
    assert ([e] + rest)[1..] == rest && ([call] + calls)[1..] == calls;
  }

  /** So a run of an initialised Gremlin, on a device that polls like that, is replayed whole. */
  lemma PoliteReplay(g: Gremlin, acts: seq<Act>, singles: set<nat>)
    requires AllPossible(acts) && Summed(g, singles) && Due(g, false) && Polite(g, acts, singles)
    ensures var es, calls := RunGremlin(g, acts, singles).1, MirrorCalls(g, acts, singles);
            && |es| == |calls|
            && Payloads(Run(StoredAll(es), Enabled(|es|), START, calls).deliveries) == StoredAll(es)
  {
    hide RunGremlin, MirrorCalls, Mirrors, Run, Polite;
    PoliteRunsMirror(g, acts, singles, false);
    MirroredReplay(g, acts, singles);
  }

  /** A device that goes on polling: in the replay the pen-up of the first movement is passed over for the point of
      the second, and a pen-up is made up for the second. */
  lemma ImpoliteReplay(screen: Screen)
    requires Usable(screen)
    ensures var acts := [Move(screen), Move(screen)];
            && AllPossible(acts) && Due(Started(8000), false)
            && var es, calls := RunGremlin(Started(8000), acts, {}).1, MirrorCalls(Started(8000), acts, {});
            && |es| == 2 && es[0] == PEN_UP && IsPenDown(es[1])
            && Payloads(Run(es, Enabled(2), START, calls).deliveries) == [es[1], PEN_UP]
  {
    var acts := [Move(screen), Move(screen)];
    assert acts[1..] == [Move(screen)] && [Move(screen)][1..] == [];
    var g := MovePen(Started(8000), screen).gremlin;
    hide MovePen, MoveLifts, Recordable;
    LiftsThenMoves(screen);
    MoveIsRecordable(Started(8000), screen);
    MoveIsRecordable(g, screen);
    var p := MovePen(g, screen).recorded[0];
    assert MovePen(g, screen).recorded == [p] && MovePen(Started(8000), screen).recorded == [PEN_UP];
    assert RunGremlin(g, [Move(screen)], {}).1 == [p] + [];
    assert MirrorCalls(g, [Move(screen)], {}) == [ForPen] + [];
    assert RunGremlin(Started(8000), acts, {}).1 == [PEN_UP, p];
    assert MirrorCalls(Started(8000), acts, {}) == [ForPen, ForPen];
    PointOvertakes(p);
  }

  lemma LiftsThenMoves(screen: Screen)
    requires Usable(screen)
    ensures MoveLifts(Started(8000)) && !MoveLifts(MovePen(Started(8000), screen).gremlin)
  {
    hide Draw, MovedTo, Step;
    FirstDraws();
  }

  lemma FirstDraws()
    ensures Draw(8000, 100) == 79 && Draw(Step(8000), 100) == 35
  {
    assert Step(8000) == 1714635011 && Step(1714635011) == 769304506;
    assert Output(1714635011) == 26163 && Output(769304506) == 11738;
  }

  lemma PointOvertakes(p: Event)
    requires p.Pen? && !IsPenUp(p)
    ensures Payloads(Run([PEN_UP, p], Enabled(2), START, [ForPen, ForPen]).deliveries) == [p, PEN_UP]
  {
    var es, mask, calls := [PEN_UP, p], Enabled(2), [ForPen, ForPen];
    NextUnique(es, mask, 0, false, 1);
    NextUnique(es, mask, 2, false, 2);
    var m := Machine(2, false, true, [Logged(1, p, ForPen)]);
    assert Advance(es, mask, START, ForPen) == m;
    assert calls[1..] == [ForPen];
    assert Run(es, mask, m, [ForPen]) == Run(es, mask, AfterGetPen(es, mask, m), []);
  }

  lemma MoveState(g: Gremlin, screen: Screen)
    requires Usable(screen)
    ensures var o := MovePen(g, screen);
            && |o.recorded| == 1 && !o.gremlin.needPenUp && (MoveLifts(g) ==> o.gremlin.catchUp)
            && (IsPenUp(o.recorded[0]) <==> MoveLifts(g))
  {
    MoveIsRecordable(g, screen);
  }
}
