/** From the Gremlin through the byte log and back: what a replay of a recorded run delivers. */
module RecordReplay {
  import opened Bytes
  import opened Events
  import opened Streams
  import opened Replay
  import opened EventPlayback
  import opened Random
  import opened KeyChoice
  import opened Gremlins
  import opened GremlinRuns

  /** A replay of any recorded run - requests for events, pen movements and errors in any order - with every
      event enabled, calling for more events than there are. The replay delivers what was recorded, in its stored
      form, but for the stray pen-ups, and then stops. It leaves nothing out exactly when no act lifted a pen that
      was not down, and delivers the very points recorded exactly when they survive the codec. */
  lemma RecordReplayLossless(g: Gremlin, acts: seq<Act>, singles: set<nat>, calls: seq<Call>)
    requires AllPossible(acts) && Summed(g, singles)
    requires forall c :: c in calls ==> c.ForEvent?
    requires |calls| > |RunGremlin(g, acts, singles).1|
    ensures var recorded := RunGremlin(g, acts, singles).1;
            var log := EncodeAll(recorded);
            && WellFormed(log) && |Parse(log)| == |recorded|
            && var delivered := Payloads(Run(Parse(log), Enabled(|recorded|), START, calls).deliveries);
            && !Run(Parse(log), Enabled(|recorded|), START, calls).replaying
            && delivered == StoredAll(WithoutStrays(recorded, false))
            && (delivered == StoredAll(recorded) <==> NoStrayLift(g, acts, singles, false))
            && (delivered == recorded <==> NoStrayLift(g, acts, singles, false) && AllExact(recorded))
  {
    var recorded := RunGremlin(g, acts, singles).1;
    RunReplays(g, acts, singles);
    StraysShorten(recorded, false);
    GetEventsFilter(StoredAll(recorded), Enabled(|recorded|), START, calls);
    assert Payloads([]) + StoredAll(WithoutStrays(recorded, false)) == StoredAll(WithoutStrays(recorded, false));
  }

  // ---------------------------------------------------------------------------
  // The same on the objects

  lemma {:induction false} EncodedSize(es: seq<Event>)
    ensures |EncodeAll(es)| <= 13 * |es|
  {
    hide Encode;
    if es != [] {
      EncodedSize(es[1..]);
    }
  }

  /** How a run goes on after the events recorded so far. */
  ghost predicate Recorded(start: Gremlin, acts: seq<Act>, singles: set<nat>, done: seq<Event>, i: nat, now: Gremlin)
    requires i <= |acts| && AllPossible(acts)
  {
    RunGremlin(start, acts, singles).1 == done + RunGremlin(now, acts[i..], singles).1
  }

  lemma RecordedNext(start: Gremlin, acts: seq<Act>, singles: set<nat>, done: seq<Event>, i: nat, now: Gremlin)
    requires AllPossible(acts)
    requires i <= |acts| && Recorded(start, acts, singles, done, i, now)
    ensures i == |acts| ==> RunGremlin(start, acts, singles).1 == done
    ensures i < |acts| ==>
              && Possible(acts[i])
              && var o := Perform(now, acts[i], singles);
                 Recorded(start, acts, singles, done + o.recorded, i + 1, o.gremlin)
  {
    hide Perform, Possible;
    if i < |acts| {
      PossibleTail(acts[i..]);
      assert acts[i..][1..] == acts[i + 1..] && acts[i..][0] == acts[i];
      var o := Perform(now, acts[i], singles);
      JoinEvents(done, o.recorded, RunGremlin(o.gremlin, acts[i + 1..], singles).1);
    } else {
      assert done + [] == done;
    }
  }

  /** Records a run into an emptied recorder. */
  method RecordRun(gremlins: Gremlins, acts: seq<Act>)
    requires gremlins.recorder.Valid() && Summed(gremlins.State(), gremlins.singles) && AllPossible(acts)
    requires gremlins.recorder.recording && gremlins.recorder.events.Contents() == []
    requires gremlins.recorder.mask == [] && 13 * |acts| + 13 <= MAX_LENGTH
    modifies gremlins, gremlins.generator
    modifies gremlins.recorder`mask, gremlins.recorder.events, gremlins.recorder.events.ptr
    ensures var recorded := RunGremlin(old(gremlins.State()), acts, gremlins.singles).1;
            gremlins.recorder.Valid() && gremlins.Left() == After(old(gremlins.Left()), recorded)
    ensures var events := gremlins.recorder.events; events.ptr == old(events.ptr) || fresh(events.ptr)
  {
    hide After, Perform, RunGremlin, Recorded, WellFormed, Parse, Summed;
    var i := 0;
    ghost var done: seq<Event> := [];
    ghost var start, left := gremlins.State(), gremlins.Left();
    AfterNothing(left);
    RecordedFirst(start, acts, gremlins.singles);
    while i < |acts|
      invariant 0 <= i <= |acts| && |done| <= i
      invariant gremlins.recorder.Valid() && Summed(gremlins.State(), gremlins.singles)
      invariant gremlins.recorder.events.ptr == old(gremlins.recorder.events.ptr)
                || fresh(gremlins.recorder.events.ptr)
      invariant gremlins.Left() == After(left, done)
      invariant Recorded(start, acts, gremlins.singles, done, i, gremlins.State())
    {
      RecordedNext(start, acts, gremlins.singles, done, i, gremlins.State());
      RoomLeft(left, done);
      ghost var o := Perform(gremlins.State(), acts[i], gremlins.singles);
      ActShape(gremlins.State(), acts[i], gremlins.singles);
      AfterTwice(left, done, o.recorded);
      PerformAct(gremlins, acts[i]);
      done := done + o.recorded;
      i := i + 1;
    }
    RecordedNext(start, acts, gremlins.singles, done, i, gremlins.State());
  }

  /** What the emulator does with a running Gremlin. */
  method PerformAct(gremlins: Gremlins, act: Act)
    requires gremlins.Valid() && Possible(act)
    modifies gremlins, gremlins.generator
    modifies gremlins.recorder`mask, gremlins.recorder.events, gremlins.recorder.events.ptr
    ensures gremlins.recorder.Valid()
    ensures var events := gremlins.recorder.events; events.ptr == old(events.ptr) || fresh(events.ptr)
    ensures var o := Perform(old(gremlins.State()), act, gremlins.singles);
            gremlins.State() == o.gremlin && gremlins.Left() == After(old(gremlins.Left()), o.recorded)
  {
    hide After, FakeEvent, MovePen, WellFormed, Parse, WellBehaved;
    match act {
      case Fake(rom) =>
        var sent := gremlins.GetFakeEvent(rom);
      case Move(screen) =>
        gremlins.GetPenMovement(screen);
      case Fault =>
        AfterOne(gremlins.Left(), Error);
        gremlins.recorder.RecordErrorEvent();
      case Bump =>
        AfterNothing(gremlins.Left());
        gremlins.BumpCounter();
    }
  }

  lemma RecordedFirst(start: Gremlin, acts: seq<Act>, singles: set<nat>)
    requires AllPossible(acts)
    ensures Recorded(start, acts, singles, [], 0, start)
  {
    assert acts[0..] == acts;
  }

  lemma RoomLeft(left: Trail, done: seq<Event>)
    requires left.bytes == []
    ensures |After(left, done).bytes| <= 13 * |done|
  {
    EncodedSize(done);
  }

  /** Replays the whole log. */
  method ReplayAll(player: EventPlayback)
    requires player.Valid()
    modifies player
    ensures player.Valid() && !player.replaying
    ensures player.reported == old(player.reported) + Filter(player.Log(), player.mask, 0, false)
    ensures unchanged(player.events) && unchanged(player.events.ptr) && player.mask == old(player.mask)
  {
    hide AfterGetEvent, Filter, WellFormed, Parse, Offset, Lossless, Payloads, Replayed, Next;
    player.ReplayEvents(true);
    ghost var log, mask, before := player.Log(), player.mask, player.reported;
    ReplayedFirst(log, mask);
    while player.replaying
      invariant player.Valid() && player.CursorValid() && player.Consistent() && player.earlier == before
      invariant unchanged(player.events) && unchanged(player.events.ptr) && player.mask == old(player.mask)
      invariant Replayed(log, mask, player.Abstract())
      decreases |log| - player.iteration.index, player.replaying
    {
      ReplayedNext(log, mask, player.Abstract());
      var posted := player.ReplayGetEvent();
    }
    ReplayedNext(log, mask, player.Abstract());
  }

  /** What has been delivered and what is still to come are together the filtered list. */
  ghost predicate Replayed(log: seq<Event>, mask: seq<bool>, m: Machine)
    requires Masked(log, mask) && m.index <= |log|
  {
    Filter(log, mask, 0, false)
    == Payloads(m.deliveries) + if m.replaying then Filter(log, mask, m.index, m.penDown) else []
  }

  lemma ReplayedFirst(log: seq<Event>, mask: seq<bool>)
    requires Masked(log, mask)
    ensures Replayed(log, mask, START)
  {
    assert Payloads([]) == [];
  }

  lemma ReplayedNext(log: seq<Event>, mask: seq<bool>, m: Machine)
    requires Masked(log, mask) && m.index <= |log| && Replayed(log, mask, m)
    ensures !m.replaying ==> Payloads(m.deliveries) == Filter(log, mask, 0, false)
    ensures m.replaying ==>
              var t := AfterGetEvent(log, mask, m);
              && m.index <= t.index <= |log| && Replayed(log, mask, t)
              && (t.replaying ==> m.index < t.index)
  {
    hide Filter, Next, Payloads;
    if m.replaying {
      FilterNext(log, mask, m.index, m.penDown);
      var k := Next(log, mask, m.index, m.penDown);
      if k < |log| {
        PayloadsAppend(m.deliveries, Logged(k, log[k], ForEvent));
        JoinEvents(Payloads(m.deliveries), [log[k]], Filter(log, mask, k + 1, IsPenDown(log[k])));
      }
    }
  }

  /** A run of a freshly initialised Gremlin is recorded from an emptied log and replayed through the player's
      own calls: what the reporter receives is each recorded event but the stray pen-ups once, in order, in its
      stored form. Nothing is left out exactly when no act lifted a pen that was not down. */
  method RecordAndReplay(gremlins: Gremlins, seed: uint16, until: uint32, acts: seq<Act>)
    requires gremlins.recorder.Valid() && AllPossible(acts) && 13 * |acts| + 13 <= MAX_LENGTH
    requires Summed(gremlins.State(), gremlins.singles)
    modifies gremlins, gremlins.generator
    modifies gremlins.recorder, gremlins.recorder.events, gremlins.recorder.events.ptr
    ensures var start := Gremlin(seed, old(gremlins.keyProbabilitiesSum), old(gremlins.lastPointX),
                                 old(gremlins.lastPointY), old(gremlins.lastPenDown), 0, until, true, false, false, []);
            var recorded := RunGremlin(start, acts, gremlins.singles).1;
            var delivered := StoredAll(WithoutStrays(recorded, false));
            && gremlins.recorder.reported == old(gremlins.recorder.reported) + delivered
            && (delivered == StoredAll(recorded) <==> NoStrayLift(start, acts, gremlins.singles, false))
            && (delivered == recorded <==> NoStrayLift(start, acts, gremlins.singles, false) && AllExact(recorded))
  {
    hide RunGremlin, WellFormed, Parse, Encode, Filter, Lossless, Total, StoredAll, AllExact;
    hide WithoutStrays, NoStrayLift, AllPossible;
    var player := gremlins.recorder;
    player.Clear();
    player.RecordEvents(true);
    gremlins.Initialize(seed, until, until);
    ghost var start, left := gremlins.State(), gremlins.Left();
    RecordRun(gremlins, acts);
    ghost var recorded := RunGremlin(start, acts, gremlins.singles).1;
    AfterStart(left, recorded);
    RunReplays(start, acts, gremlins.singles);
    player.RecordEvents(false);
    ReplayAll(player);
  }

  lemma AfterStart(left: Trail, es: seq<Event>)
    requires left.recording && left.bytes == [] && left.mask == []
    ensures After(left, es).bytes == EncodeAll(es) && After(left, es).mask == Enabled(|es|)
  {
    hide EncodeAll, Performed, Enabled;
    assert [] + EncodeAll(es) == EncodeAll(es) && [] + Enabled(|es|) == Enabled(|es|);
  }

  lemma {:induction false} StraysShorten(es: seq<Event>, down: bool)
    ensures |WithoutStrays(es, down)| <= |es|
    ensures |WithoutStrays(es, down)| == |es| ==> WithoutStrays(es, down) == es
    decreases |es|
  {
    if es != [] {
      StraysShorten(es[1..], IsPenDown(es[0]));
    }
  }

  /** What the log of a run passes through the filter. */
  lemma RunReplays(g: Gremlin, acts: seq<Act>, singles: set<nat>)
    requires AllPossible(acts) && Summed(g, singles)
    ensures var recorded := RunGremlin(g, acts, singles).1;
            var delivered := StoredAll(WithoutStrays(recorded, false));
            && WellFormed(EncodeAll(recorded)) && Parse(EncodeAll(recorded)) == StoredAll(recorded)
            && Filter(StoredAll(recorded), Enabled(|recorded|), 0, false) == delivered
            && (delivered == StoredAll(recorded) <==> NoStrayLift(g, acts, singles, false))
            && (delivered == recorded <==> NoStrayLift(g, acts, singles, false) && AllExact(recorded))
  {
    hide RunGremlin, NoStrayLift, WithoutStrays, Filter, PenUpsFollowDowns, LiftsFollowTouches;
    var recorded := RunGremlin(g, acts, singles).1;
    var stored := StoredAll(recorded);
    RunFollowsDowns(g, acts, singles, false);
    ParseEncodeAll(recorded);
    FilterDropsStrays(stored, Enabled(|recorded|), 0, false);
    StoredStrays(recorded, false);
    StoredFollowDowns(recorded, false);
    LiftsArePenUps(recorded, false);
    FilterKeepsAll(stored, Enabled(|recorded|), 0, false);
    assert stored[0..] == stored;
    StraysShorten(recorded, false);
    StoredAllIffExact(recorded);
  }
}
