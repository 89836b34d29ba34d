/** Event minimization: a search that disables ranges of events, replays, and keeps disabled what the error
    does not need. It is driven from outside, by the answer whether a replay has ended in the error. */
module Minimize {
  import opened Streams
  import opened Events
  import opened Replay
  import opened EventPlayback

  const MAX_RANGE: int := 1024
  const LAST_PASS: int := 0

  datatype Level = Level(begin: int, end: int, checked: bool)

  /** A replay that has been made in a pass: what was enabled, and whether the error occurred. */
  datatype Test = Test(mask: seq<bool>, error: bool)

  /** The search: the events left, the mask, the stack of ranges still to look at, with the current one last.
      `tests` holds the replays of the latest pass that looked for events to disable, `error` what the latest replay
      that ended in the error has delivered - and, if it was cut off with the pen down, the pen-up to come. */
  datatype Search = Search(
    log: seq<Event>,
    mask: seq<bool>,
    levels: seq<Level>,
    pass: int,
    on: bool,
    tests: seq<Test>,
    error: seq<Event>)

  function Size(l: Level): int {
    l.end - l.begin
  }

  function Top(levels: seq<Level>): Level
    requires levels != []
  {
    levels[|levels| - 1]
  }

  function Popped(levels: seq<Level>): seq<Level>
    requires levels != []
  {
    levels[..|levels| - 1]
  }

  function WithRange(mask: seq<bool>, begin: int, end: int, value: bool): (r: seq<bool>)
    ensures |r| == |mask|
    ensures forall i :: 0 <= i < |mask| ==> r[i] == if begin <= i < end then value else mask[i]
  {
    seq(|mask|, i requires 0 <= i < |mask| => if begin <= i < end then value else mask[i])
  }

  // ---------------------------------------------------------------------------
  // The stack

  /** The ranges lie one behind the other, the current one first, and reach to the end of the log. */
  ghost predicate Stacked(levels: seq<Level>, n: nat) {
    && (levels != [] ==> levels[0].end == n)
    && (forall i :: 0 <= i < |levels| ==> 0 <= levels[i].begin <= levels[i].end <= n)
    && (forall i :: 0 <= i < |levels| - 1 ==> levels[i].begin == levels[i + 1].end)
    && (n > 0 ==> forall i :: 0 <= i < |levels| ==> levels[i].begin < levels[i].end)
    && (n == 0 ==> |levels| <= 1)
  }

  /** The replays that a range can still give rise to. */
  function Weight(l: Level): nat {
    if Size(l) <= 1 then 1 else 2 * Size(l) - 1
  }

  function Work(levels: seq<Level>): nat {
    if levels == [] then 0 else Work(Popped(levels)) + Weight(Top(levels))
  }

  function Halves(l: Level): (Level, Level)
    requires Size(l) > 1
  {
    var mid := (l.begin + l.end) / 2;
    (Level(l.begin, mid, l.checked && mid - l.begin > 1), Level(mid, l.end, l.checked && l.end - mid > 1))
  }

  /** The halves lie side by side, differ by at most one event, and inherit the mark unless they are single. */
  lemma HalvesEven(l: Level)
    requires Size(l) > 1
    ensures var h := Halves(l);
            && h.0.begin == l.begin && h.0.end == h.1.begin && h.1.end == l.end
            && 1 <= Size(h.0) <= Size(h.1) <= Size(h.0) + 1
            && (h.0.checked <==> l.checked && Size(h.0) > 1) && (h.1.checked <==> l.checked && Size(h.1) > 1)
  {
  }

  function SplitOnce(levels: seq<Level>): (r: seq<Level>)
    requires levels != [] && Size(Top(levels)) > 1
    ensures |r| == |levels| + 1 && Top(r) == Halves(Top(levels)).0
  {
    Popped(levels) + [Halves(Top(levels)).1, Halves(Top(levels)).0]
  }

  /** The current range halved until its first part is of a manageable size. */
  function Split(levels: seq<Level>): (r: seq<Level>)
    requires levels != [] && Size(Top(levels)) > 1
    ensures r != []
    decreases Size(Top(levels))
  {
    var once := SplitOnce(levels);
    if Size(Top(once)) <= MAX_RANGE then once else Split(once)
  }

  /** A split ends with a first part of at most 1024 events, and goes no further than it must. */
  lemma {:induction false} SplitStops(levels: seq<Level>)
    requires levels != [] && Size(Top(levels)) > 1
    ensures var r := Split(levels);
            && 1 <= Size(Top(r)) <= 1024 && |r| > |levels| && Popped(levels) <= r
            && (|r| > |levels| + 1 ==> Size(Top(r)) + Size(r[|r| - 2]) > 1024)
            && r[|r| - 2].begin == Top(r).end && (|r| == |levels| + 1 ==> r == SplitOnce(levels))
    decreases Size(Top(levels))
  {
    var once := SplitOnce(levels);
    if Size(Top(once)) > MAX_RANGE {
      SplitStops(once);
      assert Popped(levels) <= Popped(once);
    }
  }

  lemma WorkOfSplit(levels: seq<Level>)
    requires levels != [] && Size(Top(levels)) > 1
    ensures Work(SplitOnce(levels)) < Work(levels)
  {
    var once, h := SplitOnce(levels), Halves(Top(levels));
    assert Popped(once) == Popped(levels) + [h.1] && Popped(Popped(once)) == Popped(levels);
  }

  lemma {:induction false} SplitShrinks(levels: seq<Level>)
    requires levels != [] && Size(Top(levels)) > 1
    ensures Work(Split(levels)) < Work(levels)
    decreases Size(Top(levels))
  {
    hide Work, SplitOnce;
    WorkOfSplit(levels);
    if Size(Top(SplitOnce(levels))) > MAX_RANGE {
      SplitShrinks(SplitOnce(levels));
    }
  }

  function Unchecked(levels: seq<Level>): (r: seq<Level>)
    ensures |r| == |levels|
    ensures forall i :: 0 <= i < |levels| ==> r[i] == levels[i].(checked := false)
  {
    seq(|levels|, i requires 0 <= i < |levels| => levels[i].(checked := false))
  }

  lemma {:induction false} WorkUnchecked(levels: seq<Level>)
    ensures Work(Unchecked(levels)) == Work(levels)
  {
    if levels != [] {
      WorkUnchecked(Popped(levels));
      assert Popped(Unchecked(levels)) == Unchecked(Popped(levels));
    }
  }

  // ---------------------------------------------------------------------------
  // The search, as functions

  ghost predicate Sound(s: Search) {
    && |s.mask| == |s.log| && Stacked(s.levels, |s.log|)
    && s.pass >= LAST_PASS && (s.pass == LAST_PASS ==> |s.levels| <= 1)
  }

  function Whole(n: nat): seq<Level> {
    [Level(0, n, false)]
  }

  lemma WholeStacked(n: nat)
    ensures Stacked(Whole(n), n) && Top(Whole(n)) == Level(0, n, false)
    ensures Work(Whole(n)) == Weight(Level(0, n, false))
  {
    assert Popped(Whole(n)) == [];
    assert Work(Whole(n)) == Work([]) + Weight(Level(0, n, false));
  }

  lemma PopStacked(levels: seq<Level>, n: nat)
    requires Stacked(levels, n) && levels != []
    ensures Stacked(Popped(levels), n) && Work(Popped(levels)) < Work(levels)
  {
  }

  lemma {:induction false} SplitStacked(levels: seq<Level>, n: nat)
    requires Stacked(levels, n) && levels != [] && Size(Top(levels)) > 1
    ensures Stacked(Split(levels), n)
    decreases Size(Top(levels))
  {
    var once := SplitOnce(levels);
    forall i | 0 <= i < |once| - 1 ensures once[i].begin == once[i + 1].end {
      if i < |levels| - 2 {
        assert once[i] == levels[i] && once[i + 1] == levels[i + 1];
      } else if i == |levels| - 2 {
        assert once[i] == levels[i] && levels[i].begin == levels[i + 1].end;
      }
    }
    assert Stacked(once, n);
    if Size(Top(once)) > MAX_RANGE {
      SplitStacked(once, n);
    }
  }

  lemma CullShrinks(log: seq<Event>, mask: seq<bool>)
    requires Masked(log, mask)
    ensures |Culled(log, mask)| <= |log|
  {
    FilterClosed(log, mask, 0, false);
  }

  /** `SplitAndStartAgain`. */
  function SplitAgain(s: Search): Search
    requires Sound(s) && s.levels != [] && s.pass != LAST_PASS
    decreases |s.log|, if s.pass == LAST_PASS then 0 else 1, Work(s.levels), 1
  {
    if Size(Top(s.levels)) > 1 then
      SplitShrinks(s.levels);
      SplitStacked(s.levels, |s.log|);
      DisableAgain(s.(levels := Split(s.levels)))
    else
      WorkUnchecked(s.levels);
      NextRange(s.(levels := Unchecked(s.levels)))
  }

  /** `DisableAndStartAgain`: a single pen-up is passed over; anything else is disabled and a replay started. */
  function DisableAgain(s: Search): Search
    requires Sound(s) && s.levels != [] && s.pass != LAST_PASS
    decreases |s.log|, if s.pass == LAST_PASS then 0 else 1, Work(s.levels), 1
  {
    var l := Top(s.levels);
    if Size(l) == 1 && IsPenUp(s.log[l.begin]) then NextRange(s)
    else s.(mask := WithRange(s.mask, l.begin, l.end, false))
  }

  /** `NextSubRange`. */
  function NextRange(s: Search): Search
    requires Sound(s) && s.levels != []
    decreases |s.log|, if s.pass == LAST_PASS then 0 else 1, Work(s.levels), 0
  {
    PopStacked(s.levels, |s.log|);
    var s := s.(levels := Popped(s.levels));
    if s.levels == [] then PassComplete(s)
    else if Top(s.levels).checked || Size(Top(s.levels)) > MAX_RANGE then SplitAgain(s)
    else DisableAgain(s)
  }

  /** `MinimizationPassComplete`: another pass when the last one has removed something, then one last pass. */
  function PassComplete(s: Search): Search
    requires Sound(s) && s.levels == []
    decreases |s.log|, if s.pass == LAST_PASS then 0 else 1, 0, 1
  {
    CullShrinks(s.log, s.mask);
    var log := Culled(s.log, s.mask);
    StartedSound(s, log);
    if |log| < |s.log| then SplitAgain(Started(s, log, s.pass + 1).(tests := []))
    else if s.pass != LAST_PASS then Started(s, log, LAST_PASS)
    else Started(s, log, LAST_PASS).(levels := [], on := false)
  }

  /** A pass over the log, with all of it enabled and as one range. */
  function Started(s: Search, log: seq<Event>, pass: int): Search {
    s.(log := log, mask := Enabled(|log|), levels := Whole(|log|), pass := pass)
  }

  lemma StartedSound(s: Search, log: seq<Event>)
    requires s.pass >= LAST_PASS
    ensures var t := Started(s, log, s.pass + 1).(tests := []);
            Sound(t) && t.levels != [] && t.pass != LAST_PASS && t.log == log
  {
    WholeStacked(|log|);
  }

  datatype Answer = NoError | ErrorAt(current: nat)

  /** One answer: the replay has ended without the error, or with it when `current` events had been taken up. */
  function Answered(s: Search, a: Answer): Search
    requires Sound(s) && s.levels != []
  {
    var l := Top(s.levels);
    var s := if s.pass == LAST_PASS then s else s.(tests := s.tests + [Test(s.mask, a.ErrorAt?)]);
    match a
    case NoError =>
      var s := s.(mask := WithRange(s.mask, l.begin, l.end, true));
      if s.pass == LAST_PASS then PassComplete(s.(levels := []))
      else SplitAgain(s.(levels := Checked(s.levels)))
    case ErrorAt(current) =>
      var played := WithRange(s.mask, current, |s.mask|, false);
      var s := s.(error := Filter(s.log, played, 0, false));
      if current < |s.mask| then PassComplete(s.(mask := played, levels := [])) else NextRange(s)
  }

  function Checked(levels: seq<Level>): (r: seq<Level>)
    requires levels != []
    ensures |r| == |levels| && Popped(r) == Popped(levels) && Top(r) == Top(levels).(checked := true)
    ensures Work(r) == Work(levels)
    ensures forall n :: Stacked(levels, n) ==> Stacked(r, n)
  {
    var r := Popped(levels) + [Top(levels).(checked := true)];
    assert Popped(r) == Popped(levels);
    r
  }

  // ---------------------------------------------------------------------------
  // Which range comes next

  /** Of the next range, one that is not marked and not too large is tried as a whole - unless it is a single
      pen-up - and any other one is split first. */
  lemma NextRangeMeans(s: Search)
    requires Sound(s) && s.pass != LAST_PASS && |s.levels| > 1
    ensures Stacked(Popped(s.levels), |s.log|)
    ensures var rest, t := Popped(s.levels), NextRange(s);
            var l := Top(rest);
            && (!l.checked && 1 < Size(l) <= 1024 ==>
                  t == s.(levels := rest, mask := WithRange(s.mask, l.begin, l.end, false)))
            && ((l.checked || Size(l) > 1024) && Size(l) > 1 ==>
                  var parts := Split(rest);
                  parts != [] && Stacked(parts, |s.log|) && t == DisableAgain(s.(levels := parts)))
  {
    hide DisableAgain, Split, Work, Stacked;
    PopStacked(s.levels, |s.log|);
    var rest := s.(levels := Popped(s.levels));
    if Size(Top(rest.levels)) > 1 {
      SplitStacked(rest.levels, |s.log|);
    }
    TriedWhole(rest);
  }

  lemma TriedWhole(s: Search)
    requires Sound(s) && s.levels != [] && s.pass != LAST_PASS
    ensures var l := Top(s.levels);
            Size(l) > 1 ==> DisableAgain(s) == s.(mask := WithRange(s.mask, l.begin, l.end, false))
  {
    hide NextRange;
  }

  ghost predicate NoneChecked(levels: seq<Level>) {
    forall i :: 0 <= i < |levels| ==> !levels[i].checked
  }

  lemma {:induction false} SplitNoneChecked(levels: seq<Level>)
    requires levels != [] && Size(Top(levels)) > 1 && NoneChecked(levels)
    ensures NoneChecked(Split(levels))
    decreases Size(Top(levels))
  {
    var once := SplitOnce(levels);
    assert NoneChecked(once);
    if Size(Top(once)) > MAX_RANGE {
      SplitNoneChecked(once);
    }
  }

  lemma DisableNoneChecked(s: Search)
    requires Sound(s) && s.levels != [] && s.pass != LAST_PASS && NoneChecked(s.levels)
    ensures NoneChecked(DisableAgain(s).levels)
    decreases |s.log|, if s.pass == LAST_PASS then 0 else 1, Work(s.levels), 1
  {
    hide NextRange, Work, Stacked;
    var l := Top(s.levels);
    TopInside(s.levels, |s.log|);
    if Size(l) == 1 && IsPenUp(s.log[l.begin]) {
      NextNoneChecked(s);
    }
  }

  lemma SplitAgainNoneChecked(s: Search)
    requires Sound(s) && s.levels != [] && s.pass != LAST_PASS
    requires Size(Top(s.levels)) > 1 ==> NoneChecked(s.levels)
    ensures NoneChecked(SplitAgain(s).levels)
    decreases |s.log|, if s.pass == LAST_PASS then 0 else 1, Work(s.levels), 1
  {
    hide NextRange, DisableAgain, Work, Stacked;
    if Size(Top(s.levels)) > 1 {
      SplitShrinks(s.levels);
      SplitStacked(s.levels, |s.log|);
      SplitNoneChecked(s.levels);
      DisableNoneChecked(s.(levels := Split(s.levels)));
    } else {
      WorkUnchecked(s.levels);
      UncheckedStacked(s.levels, |s.log|);
      NextNoneChecked(s.(levels := Unchecked(s.levels)));
    }
  }

  lemma NextNoneChecked(s: Search)
    requires Sound(s) && s.levels != [] && NoneChecked(s.levels)
    ensures NoneChecked(NextRange(s).levels)
    decreases |s.log|, if s.pass == LAST_PASS then 0 else 1, Work(s.levels), 0
  {
    hide SplitAgain, DisableAgain, PassComplete, Work, Stacked;
    PopStacked(s.levels, |s.log|);
    var t := s.(levels := Popped(s.levels));
    if t.levels == [] {
      PassNoneChecked(t);
    } else if Size(Top(t.levels)) > MAX_RANGE {
      SplitAgainNoneChecked(t);
    } else {
      DisableNoneChecked(t);
    }
  }

  lemma PassNoneChecked(s: Search)
    requires Sound(s) && s.levels == []
    ensures NoneChecked(PassComplete(s).levels)
    decreases |s.log|, if s.pass == LAST_PASS then 0 else 1, 0, 1
  {
    hide SplitAgain, Work, Stacked, Culled;
    CullShrinks(s.log, s.mask);
    var log := Culled(s.log, s.mask);
    StartedSound(s, log);
    if |log| < |s.log| {
      SplitAgainNoneChecked(Started(s, log, s.pass + 1).(tests := []));
    }
  }

  /** When a single event has turned out to be needed, no range is marked any more. */
  lemma SingleClearsMarks(s: Search)
    requires Sound(s) && s.levels != [] && s.pass != LAST_PASS && Size(Top(s.levels)) <= 1
    ensures NoneChecked(Answered(s, NoError).levels)
  {
    hide SplitAgain, Work, Stacked;
    var l := Top(s.levels);
    SplitAgainNoneChecked(s.(tests := s.tests + [Test(s.mask, false)], levels := Checked(s.levels),
                             mask := WithRange(s.mask, l.begin, l.end, true)));
  }

  // ---------------------------------------------------------------------------
  // What the search keeps

  ghost predicate Closed(log: seq<Event>) {
    AllExact(log) && PenUpsFollowDowns(log, false)
  }

  function AllBut(n: nat, i: int): (mask: seq<bool>)
    ensures |mask| == n && forall j :: 0 <= j < n ==> mask[j] == (j != i)
  {
    seq(n, j requires 0 <= j < n => j != i)
  }

  /** The error has not occurred without this one event, all others enabled. */
  ghost predicate Tried(tests: seq<Test>, n: nat, i: int) {
    Test(AllBut(n, i), false) in tests
  }

  /** None of the events can be left out by itself; a log of one event is never tried. */
  ghost predicate OneMinimal(log: seq<Event>, tests: seq<Test>) {
    |log| >= 2 ==> forall i :: 0 <= i < |log| && !IsPenUp(log[i]) ==> Tried(tests, |log|, i)
  }

  /** If anything is disabled, then something that is not a pen-up. */
  ghost predicate DisabledSome(log: seq<Event>, mask: seq<bool>)
    requires |mask| == |log|
  {
    AllEnabled(mask) || exists j :: 0 <= j < |log| && !mask[j] && !IsPenUp(log[j])
  }

  /** Between two replays: the events below `m` are settled - as long as nothing has been disabled, they have all
      been tried - and the others are enabled; what the mask lets through is what the latest replay with the error
      has delivered. */
  ghost predicate Evidence(log: seq<Event>, mask: seq<bool>, tests: seq<Test>, error: seq<Event>, m: int) {
    && |mask| == |log| && Closed(log)
    && (forall j :: 0 <= j < |log| && m <= j ==> mask[j])
    && DisabledSome(log, mask)
    && (|log| >= 2 && AllEnabled(mask) ==>
          forall i :: 0 <= i < m && i < |log| && !IsPenUp(log[i]) ==> Tried(tests, |log|, i))
    && Filter(log, mask, 0, false) == error
  }

  /** Only ranges that can be split are marked as checked. */
  ghost predicate CheckedLong(levels: seq<Level>) {
    forall i :: 0 <= i < |levels| && levels[i].checked ==> Size(levels[i]) > 1
  }

  ghost predicate Searching(s: Search, m: int) {
    Sound(s) && s.on && s.pass != LAST_PASS && CheckedLong(s.levels) && Evidence(s.log, s.mask, s.tests, s.error, m)
  }

  /** At the end of a pass. */
  ghost predicate Finished(s: Search) {
    && Sound(s) && s.on && s.levels == [] && Closed(s.log)
    && Filter(s.log, s.mask, 0, false) == s.error
    && (|s.error| == |s.log| ==> OneMinimal(s.log, s.tests))
  }

  /** While a replay runs, and in the end. */
  ghost predicate Waiting(s: Search) {
    && Sound(s) && Closed(s.log)
    && if !s.on then s.log == s.error && OneMinimal(s.log, s.tests)
       else
         && s.levels != []
         && if s.pass == LAST_PASS then AllEnabled(s.mask) && s.log == s.error && OneMinimal(s.log, s.tests)
            else
              var l := Top(s.levels);
              var kept := WithRange(s.mask, l.begin, l.end, true);
              && 1 <= Size(l) <= 1024 && (Size(l) == 1 ==> !IsPenUp(s.log[l.begin]))
              && s.mask == WithRange(kept, l.begin, l.end, false)
              && CheckedLong(s.levels) && Evidence(s.log, kept, s.tests, s.error, l.begin)
  }

  // ---------------------------------------------------------------------------
  // How many answers it takes

  /** For all passes over at most `n` events. */
  function Passes(n: nat): nat {
    Weight(Level(0, n, false)) + 2 + if n == 0 then 0 else Passes(n - 1)
  }

  function Later(n: nat): nat {
    if n == 0 then 0 else Passes(n - 1)
  }

  function Remaining(s: Search): nat {
    if !s.on then 0 else (if s.pass == LAST_PASS then 1 else Work(s.levels) + 1) + Later(|s.log|)
  }

  lemma {:induction false} PassesMonotone(m: nat, n: nat)
    requires m <= n
    ensures Passes(m) <= Passes(n)
  {
    if m < n {
      PassesMonotone(m, n - 1);
    }
  }

  // ---------------------------------------------------------------------------
  // Disabled events make the filtered list shorter

  lemma {:induction false} DisabledIsDropped(log: seq<Event>, mask: seq<bool>, i: nat, down: bool, j: nat)
    requires |mask| == |log| && i <= j < |log| && !mask[j] && !IsPenUp(log[j])
    ensures |Filter(log, mask, i, down)| < |log| - i
    decreases |log| - i
  {
    if i == j {
      FilterClosed(log, mask, i + 1, down);
    } else if Keep(log[i], mask[i], down) {
      DisabledIsDropped(log, mask, i + 1, IsPenDown(log[i]), j);
    } else {
      FilterClosed(log, mask, i + 1, down);
    }
  }

  lemma DisabledShortens(log: seq<Event>, mask: seq<bool>)
    requires |mask| == |log| && DisabledSome(log, mask) && |Filter(log, mask, 0, false)| == |log|
    ensures AllEnabled(mask)
  {
    if !AllEnabled(mask) {
      var j :| 0 <= j < |log| && !mask[j] && !IsPenUp(log[j]);
      DisabledIsDropped(log, mask, 0, false, j);
    }
  }

  /** Culling a closed log gives a closed log: exactly what the mask lets through. */
  lemma CulledExactly(log: seq<Event>, mask: seq<bool>)
    requires |mask| == |log| && Closed(log)
    ensures var c := Culled(log, mask);
            c == Filter(log, mask, 0, false) && Closed(c) && |c| <= |log| && (|c| == |log| ==> c == log)
    ensures Filter(log, Enabled(|log|), 0, false) == log
  {
    hide Exact, PenUpsFollowDowns;
    FilterClosed(log, mask, 0, false);
    CulledIsFilterIffExact(log, mask);
    FilterKeepsAll(log, Enabled(|log|), 0, false);
    assert log[0..] == log;
    if |Filter(log, mask, 0, false)| == |log| {
      FilterFull(log, mask, 0, false);
    }
  }

  /** A range of two events or more holds one that is not a pen-up. */
  lemma NotAllPenUps(log: seq<Event>, begin: int)
    requires Closed(log) && 0 <= begin < |log| - 1
    ensures !IsPenUp(log[begin]) || !IsPenUp(log[begin + 1])
  {
    if IsPenUp(log[begin + 1]) {
      assert DownBefore(log, begin + 1, false);
    }
  }

  lemma {:induction false} DisabledTail(log: seq<Event>, mask: seq<bool>, i: nat, down: bool)
    requires |mask| == |log| && i <= |log| && forall j :: i <= j < |log| ==> !mask[j]
    ensures var f := Filter(log, mask, i, down); f == [] || (down && f == [PEN_UP])
    decreases |log| - i
  {
    if i < |log| {
      if IsPenUp(log[i]) && down {
        DisabledTail(log, mask, i + 1, false);
      } else {
        DisabledTail(log, mask, i + 1, down);
      }
    }
  }

  /** Disabling everything behind an error leaves what the replay has delivered up to it, the pen being lifted. */
  lemma {:induction false} CutOff(log: seq<Event>, mask: seq<bool>, current: nat, i: nat, down: bool)
    requires |mask| == |log| && i <= current <= |log|
    ensures var left := Filter(log, WithRange(mask, current, |mask|, false), i, down);
            var delivered := Filter(log[..current], mask[..current], i, down);
            left == delivered || left == delivered + [PEN_UP]
    decreases current - i
  {
    if i == current {
      DisabledTail(log, WithRange(mask, current, |mask|, false), i, down);
    } else if Keep(log[i], mask[i], down) {
      CutOff(log, mask, current, i + 1, IsPenDown(log[i]));
    } else {
      CutOff(log, mask, current, i + 1, down);
    }
  }

  /** What an answer does to the mask before the search goes on: without the error the current range is enabled
      again; with it nothing changes, unless the replay was cut short: then only what it had taken up stays enabled,
      and of that exactly what it had delivered, with a pen-up behind it if need be. */
  lemma AnswersMean(s: Search, a: Answer) returns (next: Search)
    requires Sound(s) && s.levels != []
    ensures next.log == s.log && next.pass == s.pass && |next.mask| == |s.mask|
    ensures s.pass != LAST_PASS ==> next.tests == s.tests + [Test(s.mask, a.ErrorAt?)]
    ensures match a
            case NoError =>
              && (forall i :: 0 <= i < |s.mask| ==>
                    next.mask[i] == (s.mask[i] || Top(s.levels).begin <= i < Top(s.levels).end))
              && Sound(next)
              && if s.pass == LAST_PASS then next.levels == [] && Answered(s, a) == PassComplete(next)
                 else next.levels == Checked(s.levels) && Answered(s, a) == SplitAgain(next)
            case ErrorAt(current) =>
              && Sound(next)
              && if current < |s.mask| then
                   && (forall i :: 0 <= i < |s.mask| ==> next.mask[i] == (s.mask[i] && i < current))
                   && next.levels == [] && Answered(s, a) == PassComplete(next)
                   && var delivered := Filter(s.log[..current], s.mask[..current], 0, false);
                      (next.error == delivered || next.error == delivered + [PEN_UP])
                      && next.error == Filter(s.log, next.mask, 0, false)
                 else
                   && next.mask == s.mask && next.levels == s.levels && Answered(s, a) == NextRange(next)
                   && next.error == Filter(s.log, s.mask, 0, false)
  {
    hide Filter, PassComplete, SplitAgain, NextRange, Stacked;
    var l := Top(s.levels);
    NothingStacked(|s.log|);
    var tested := if s.pass == LAST_PASS then s else s.(tests := s.tests + [Test(s.mask, a.ErrorAt?)]);
    match a {
      case NoError =>
        next := tested.(mask := WithRange(s.mask, l.begin, l.end, true),
                        levels := if s.pass == LAST_PASS then [] else Checked(s.levels));
      case ErrorAt(current) =>
        var played := WithRange(s.mask, current, |s.mask|, false);
        next := tested.(error := Filter(s.log, played, 0, false));
        if current < |s.mask| {
          next := next.(mask := played, levels := []);
          CutOff(s.log, s.mask, current, 0, false);
        } else {
          assert played == s.mask;
        }
    }
  }

  // ---------------------------------------------------------------------------
  // Every step keeps it, and uses up answers

  lemma PassCompleteKeeps(s: Search)
    requires Finished(s)
    ensures var t := PassComplete(s);
            Waiting(t) && Remaining(t) <= (if s.pass == LAST_PASS then 0 else 1) + Later(|s.log|)
    decreases |s.log|, if s.pass == LAST_PASS then 0 else 1, 0, 1
  {
    hide Filter, Culled, Closed, Work, Weight, OneMinimal, Evidence, Stacked, Passes, SplitAgain, Waiting, Remaining;
    hide Started, Later;
    CulledExactly(s.log, s.mask);
    var log := Culled(s.log, s.mask);
    if |log| < |s.log| {
      var t := Started(s, log, s.pass + 1).(tests := []);
      NewPass(s, log);
      SplitAgainKeeps(t);
      LaterGrows(|log|, |s.log|);
    } else {
      LastPass(s);
    }
  }

  lemma NewPass(s: Search, log: seq<Event>)
    requires Closed(log) && s.on && s.pass >= LAST_PASS && s.error == log
    ensures var t := Started(s, log, s.pass + 1).(tests := []);
            && Sound(t) && t.on && t.pass != LAST_PASS && t.log == log && t.levels != []
            && Work(t.levels) == Weight(Level(0, |log|, false))
            && (Size(Top(t.levels)) > 1 ==> Searching(t, Top(t.levels).begin))
            && (Size(Top(t.levels)) <= 1 ==> Evidence(t.log, t.mask, t.tests, t.error, Top(t.levels).end))
  {
    hide Closed, Work, Weight, Evidence, Stacked;
    WholeStacked(|log|);
    FreshEvidence(log);
  }

  lemma LastPass(s: Search)
    requires Closed(s.log) && s.on && s.error == s.log && OneMinimal(s.log, s.tests)
    ensures var t := Started(s, s.log, LAST_PASS);
            && Waiting(t) && Remaining(t) == 1 + Later(|s.log|)
            && Waiting(t.(levels := [], on := false)) && Remaining(t.(levels := [], on := false)) == 0
  {
    hide Closed, Work, Weight, OneMinimal;
    WholeStacked(|s.log|);
  }

  lemma LaterGrows(m: nat, n: nat)
    requires m < n
    ensures Weight(Level(0, m, false)) + 2 + Later(m) <= Later(n)
  {
    PassesMonotone(m, n - 1);
    PassesUnfold(m);
  }

  lemma PassesUnfold(n: nat)
    ensures Passes(n) == Weight(Level(0, n, false)) + 2 + Later(n)
  {
  }

  lemma FreshEvidence(log: seq<Event>)
    requires Closed(log)
    ensures Evidence(log, Enabled(|log|), [], log, 0)
    ensures |log| <= 1 ==> Evidence(log, Enabled(|log|), [], log, |log|)
  {
    hide Filter, Closed;
    CulledExactly(log, Enabled(|log|));
  }

  lemma SplitAgainKeeps(s: Search)
    requires Sound(s) && s.on && s.pass != LAST_PASS && s.levels != []
    requires Size(Top(s.levels)) > 1 ==> Searching(s, Top(s.levels).begin)
    requires Size(Top(s.levels)) <= 1 ==> Evidence(s.log, s.mask, s.tests, s.error, Top(s.levels).end)
    ensures var t := SplitAgain(s); Waiting(t) && Remaining(t) <= Work(s.levels) + Later(|s.log|)
    decreases |s.log|, if s.pass == LAST_PASS then 0 else 1, Work(s.levels), 1
  {
    hide Work, Weight, Evidence, Waiting, DisableAgain, NextRange, Stacked, CheckedLong;
    TopInside(s.levels, |s.log|);
    if Size(Top(s.levels)) > 1 {
      SplitShrinks(s.levels);
      SplitStacked(s.levels, |s.log|);
      SplitLevels(s.levels);
      SplitStops(s.levels);
      DisableAgainKeeps(s.(levels := Split(s.levels)));
    } else {
      WorkUnchecked(s.levels);
      UncheckedStacked(s.levels, |s.log|);
      NextRangeKeeps(s.(levels := Unchecked(s.levels)));
    }
  }

  lemma TopInside(levels: seq<Level>, n: nat)
    requires Stacked(levels, n) && levels != []
    ensures 0 <= Top(levels).begin <= Top(levels).end <= n
    ensures n > 0 ==> Size(Top(levels)) >= 1
    ensures |levels| == 1 ==> Popped(levels) == [] && Top(levels).end == n
    ensures |levels| > 1 ==> Popped(levels) != [] && Top(Popped(levels)).begin == Top(levels).end && n > 0
  {
  }

  lemma UncheckedStacked(levels: seq<Level>, n: nat)
    requires Stacked(levels, n) && levels != []
    ensures Stacked(Unchecked(levels), n) && CheckedLong(Unchecked(levels))
    ensures Top(Unchecked(levels)) == Top(levels).(checked := false)
  {
  }

  lemma DisableAgainKeeps(s: Search)
    requires s.levels != [] && |s.log| > 0 && Searching(s, Top(s.levels).begin) && Size(Top(s.levels)) <= 1024
    ensures var t := DisableAgain(s); Waiting(t) && Remaining(t) <= Work(s.levels) + 1 + Later(|s.log|)
    decreases |s.log|, if s.pass == LAST_PASS then 0 else 1, Work(s.levels), 1
  {
    hide Work, Weight, Evidence, NextRange, Stacked, CheckedLong;
    var l := Top(s.levels);
    TopInside(s.levels, |s.log|);
    EvidenceMask(s, l.begin);
    if Size(l) == 1 && IsPenUp(s.log[l.begin]) {
      PenUpSettled(s.log, s.mask, s.tests, s.error, l.begin);
      NextRangeKeeps(s);
    } else {
      var mask := WithRange(s.mask, l.begin, l.end, false);
      assert WithRange(mask, l.begin, l.end, true) == s.mask;
    }
  }

  lemma EvidenceMask(s: Search, m: int)
    requires Searching(s, m)
    ensures Closed(s.log) && forall j :: 0 <= j < |s.log| && m <= j ==> s.mask[j]
  {
  }

  lemma PenUpSettled(log: seq<Event>, mask: seq<bool>, tests: seq<Test>, error: seq<Event>, m: int)
    requires Evidence(log, mask, tests, error, m) && 0 <= m < |log| && IsPenUp(log[m])
    ensures Evidence(log, mask, tests, error, m + 1)
  {
    hide Filter, Closed, Tried, DisabledSome, IsPenUp;
  }

  lemma NextRangeKeeps(s: Search)
    requires s.levels != [] && Searching(s, Top(s.levels).end)
    ensures var t := NextRange(s); Waiting(t) && Remaining(t) <= Work(s.levels) + Later(|s.log|)
    decreases |s.log|, if s.pass == LAST_PASS then 0 else 1, Work(s.levels), 0
  {
    hide Work, Weight, Evidence, Waiting, Stacked, PassComplete, SplitAgain, DisableAgain, Finished;
    PopStacked(s.levels, |s.log|);
    TopInside(s.levels, |s.log|);
    var t := s.(levels := Popped(s.levels));
    if t.levels == [] {
      EndOfPass(s);
      PassCompleteKeeps(t);
    } else if Top(t.levels).checked || Size(Top(t.levels)) > MAX_RANGE {
      SplitAgainKeeps(t);
    } else {
      DisableAgainKeeps(t);
    }
  }

  /** The last range of the stack reaches to the end of the log. */
  lemma EndOfPass(s: Search)
    requires s.levels != [] && Searching(s, |s.log|) && Popped(s.levels) == []
    ensures Finished(s.(levels := []))
  {
    hide Filter, Closed;
    if |s.error| == |s.log| {
      DisabledShortens(s.log, s.mask);
    }
  }

  lemma {:induction false} SplitLevels(levels: seq<Level>)
    requires levels != [] && Size(Top(levels)) > 1
    requires CheckedLong(levels)
    ensures Top(Split(levels)).begin == Top(levels).begin && CheckedLong(Split(levels))
    decreases Size(Top(levels))
  {
    var once := SplitOnce(levels);
    if Size(Top(once)) > MAX_RANGE {
      SplitLevels(once);
    }
  }

  /** Whatever the answer: the search goes on with fewer answers to come, and what it has found stays true. */
  lemma AnswerKeeps(s: Search, a: Answer)
    requires Waiting(s) && s.on
    ensures var t := Answered(s, a); Waiting(t) && Remaining(t) < Remaining(s)
  {
    hide Filter, Closed, Work, Weight;
    if s.pass == LAST_PASS {
      LastAnswerKeeps(s, a);
    } else if a.NoError? {
      NoErrorKeeps(s);
    } else {
      ErrorKeeps(s, a.current);
    }
  }

  lemma LastAnswerKeeps(s: Search, a: Answer)
    requires Waiting(s) && s.on && s.pass == LAST_PASS
    ensures var t := Answered(s, a); Waiting(t) && Remaining(t) < Remaining(s)
  {
    hide Filter, Closed, Work, Weight, OneMinimal;
    var l := Top(s.levels);
    CulledExactly(s.log, s.mask);
    assert s.mask == Enabled(|s.log|);
    assert Popped(s.levels) == [];
    match a {
      case NoError =>
        assert WithRange(s.mask, l.begin, l.end, true) == s.mask;
        PassCompleteKeeps(s.(levels := []));
      case ErrorAt(current) =>
        var played := WithRange(s.mask, current, |s.mask|, false);
        var t := s.(error := Filter(s.log, played, 0, false), levels := []);
        if current < |s.mask| {
          PassCompleteKeeps(t.(mask := played));
        } else {
          assert played == s.mask;
          PassCompleteKeeps(t);
        }
    }
  }

  lemma NoErrorKeeps(s: Search)
    requires Waiting(s) && s.on && s.pass != LAST_PASS
    ensures var t := Answered(s, NoError); Waiting(t) && Remaining(t) < Remaining(s)
  {
    hide Work, Weight, Evidence, Stacked, SplitAgain, CheckedLong, OneMinimal, Closed;
    var l := Top(s.levels);
    var kept := WithRange(s.mask, l.begin, l.end, true);
    var t := s.(mask := kept, levels := Checked(s.levels), tests := s.tests + [Test(s.mask, false)]);
    TopInside(s.levels, |s.log|);
    EvidenceGrows(s.log, kept, s.tests, t.tests, s.error, l.begin);
    CheckedTop(s.levels);
    if Size(l) == 1 {
      SingleTried(s.log, kept, t.tests, s.error, l.begin);
    }
    SplitAgainKeeps(t);
  }

  lemma CheckedTop(levels: seq<Level>)
    requires levels != [] && CheckedLong(levels)
    ensures Size(Top(levels)) > 1 ==> CheckedLong(Checked(levels))
  {
    forall i | 0 <= i < |levels| - 1 ensures Checked(levels)[i] == levels[i] {
      assert Popped(Checked(levels))[i] == Popped(levels)[i];
    }
  }

  lemma ErrorKeeps(s: Search, current: nat)
    requires Waiting(s) && s.on && s.pass != LAST_PASS
    ensures var t := Answered(s, ErrorAt(current)); Waiting(t) && Remaining(t) < Remaining(s)
  {
    hide Work, Weight, Evidence, Stacked, CheckedLong, OneMinimal, Filter, Closed;
    hide PassComplete, NextRange, DisabledSome;
    var l := Top(s.levels);
    var kept := WithRange(s.mask, l.begin, l.end, true);
    var played := WithRange(s.mask, current, |s.mask|, false);
    var tests := s.tests + [Test(s.mask, true)];
    TopInside(s.levels, |s.log|);
    RangeDisabled(s.log, kept, s.tests, s.error, l.begin, l.end);
    if current < |s.mask| {
      CutShortened(s.log, s.mask, current);
      NothingStacked(|s.log|);
      PassCompleteKeeps(s.(mask := played, levels := [], tests := tests, error := Filter(s.log, played, 0, false)));
      PopStacked(s.levels, |s.log|);
    } else {
      assert played == s.mask;
      NowDisabled(s.log, kept, tests, l.begin, l.end);
      NextRangeKeeps(s.(tests := tests, error := Filter(s.log, s.mask, 0, false)));
    }
  }

  lemma NothingStacked(n: nat)
    ensures Stacked([], n)
  {
  }

  /** Disabling the current range disables something that is not a pen-up. */
  lemma RangeDisabled(log: seq<Event>, kept: seq<bool>, tests: seq<Test>, error: seq<Event>, begin: int, end: int)
    requires Evidence(log, kept, tests, error, begin) && 0 <= begin < end <= |log|
    requires end - begin == 1 ==> !IsPenUp(log[begin])
    ensures var mask := WithRange(kept, begin, end, false);
            && Closed(log) && DisabledSome(log, mask) && !AllEnabled(mask)
            && forall j :: 0 <= j < |log| && begin <= j ==> kept[j]
  {
    hide Filter, Closed;
    var mask := WithRange(kept, begin, end, false);
    assert !mask[begin];
    if end - begin > 1 {
      NotAllPenUps(log, begin);
      assert !mask[begin + 1];
    }
  }

  lemma NowDisabled(log: seq<Event>, kept: seq<bool>, tests: seq<Test>, begin: int, end: int)
    requires |kept| == |log| && Closed(log) && 0 <= begin < end <= |log|
    requires forall j :: 0 <= j < |log| && begin <= j ==> kept[j]
    requires var mask := WithRange(kept, begin, end, false); DisabledSome(log, mask) && !AllEnabled(mask)
    ensures var mask := WithRange(kept, begin, end, false);
            Evidence(log, mask, tests, Filter(log, mask, 0, false), end)
  {
    hide Filter, Closed, DisabledSome;
  }

  /** An error before the end of the replay removes something in any case. */
  lemma CutShortened(log: seq<Event>, mask: seq<bool>, current: nat)
    requires |mask| == |log| && DisabledSome(log, mask) && !AllEnabled(mask) && Closed(log)
    ensures |Filter(log, WithRange(mask, current, |mask|, false), 0, false)| < |log|
  {
    hide Filter, Closed;
    var j :| 0 <= j < |log| && !mask[j] && !IsPenUp(log[j]);
    DisabledIsDropped(log, WithRange(mask, current, |mask|, false), 0, false, j);
  }

  lemma EvidenceGrows(log: seq<Event>, mask: seq<bool>, tests: seq<Test>, more: seq<Test>, error: seq<Event>, m: int)
    requires Evidence(log, mask, tests, error, m) && tests <= more
    ensures Evidence(log, mask, more, error, m)
  {
    hide Filter, Closed, DisabledSome, IsPenUp;
    forall x | x in tests ensures x in more {
    }
  }

  /** A single event, tried without the error. */
  lemma SingleTried(log: seq<Event>, mask: seq<bool>, tests: seq<Test>, error: seq<Event>, m: int)
    requires Evidence(log, mask, tests, error, m) && 0 <= m < |log|
    requires Test(WithRange(mask, m, m + 1, false), false) in tests
    ensures Evidence(log, mask, tests, error, m + 1)
  {
    hide Filter, Closed, DisabledSome, IsPenUp;
    if AllEnabled(mask) {
      assert WithRange(mask, m, m + 1, false) == AllBut(|log|, m);
    }
  }

  // ---------------------------------------------------------------------------
  // Whole searches

  ghost function AfterAnswers(s: Search, answers: seq<Answer>): Search
    requires Waiting(s)
    decreases |answers|
  {
    if answers == [] || !s.on then s
    else
      AnswerKeeps(s, answers[0]);
      AfterAnswers(Answered(s, answers[0]), answers[1..])
  }

  /** Whatever the answers, the search ends. Of what it leaves no event but a pen-up can be left out by itself -
      the error has not occurred without it - and exactly that has been delivered by a replay with the error. */
  lemma {:induction false} SearchEnds(s: Search, answers: seq<Answer>)
    requires Waiting(s) && |answers| >= Remaining(s)
    ensures var r := AfterAnswers(s, answers);
            !r.on && Closed(r.log) && r.log == r.error && OneMinimal(r.log, r.tests)
    decreases |answers|
  {
    hide Closed, OneMinimal, Answered, Remaining;
    if s.on {
      SomethingRemains(s);
      AnswerKeeps(s, answers[0]);
      SearchEnds(Answered(s, answers[0]), answers[1..]);
    }
  }

  lemma SomethingRemains(s: Search)
    requires s.on
    ensures Remaining(s) > 0
  {
  }

  /** The search that `Start` begins with the culled log, which is known to end in the error. */
  function Begun(log: seq<Event>): Search {
    Search(log, Enabled(|log|), Whole(|log|), 1, true, [], log)
  }

  /** It takes no more answers than a quadratic function of the number of events. */
  lemma BegunWaits(log: seq<Event>)
    requires Closed(log)
    ensures Sound(Begun(log)) && Begun(log).levels != []
    ensures var s := SplitAgain(Begun(log)); Waiting(s) && Remaining(s) <= |log| * |log| + 4 * |log| + 3
  {
    hide Closed, Evidence, Work, Weight, Stacked, Passes, Later, Waiting, Remaining, SplitAgain;
    WholeStacked(|log|);
    FreshEvidence(log);
    SplitAgainKeeps(Begun(log));
    PassesUnfold(|log|);
    PassesBound(|log|);
  }

  lemma {:induction false} PassesBound(n: nat)
    ensures Passes(n) <= n * n + 4 * n + 3
  {
    if n > 0 {
      PassesBound(n - 1);
      Square(n);
    }
  }

  lemma Square(n: nat)
    ensures (n - 1) * (n - 1) == n * n - 2 * n + 1
  {
  }

  /** What is left of a log when its first error event and all behind it have been dropped. */
  function UpToError(log: seq<Event>, first: nat): seq<Event> {
    Culled(log, WithRange(Enabled(|log|), first, |log|, false))
  }

  /** A log of a single event is never tried without it. */
  lemma SingleNeverTried(e: Event)
    requires Exact(e) && !IsPenUp(e)
    ensures Closed([e]) && Sound(Begun([e]))
    ensures var s := SplitAgain(Begun([e])); s.on && s.pass == LAST_PASS && s.log == [e] && s.tests == []
  {
    SinglePasses(e);
    WholeStacked(1);
    var b, levels := Begun([e]), Unchecked(Whole(1));
    UncheckedStacked(Whole(1), 1);
    hide Culled, Filter, Closed, Work, Weight, Stacked, Split;
    assert Enabled(1) == [true] && Popped(levels) == [];
    assert SplitAgain(b) == NextRange(b.(levels := levels));
    NothingStacked(1);
    assert NextRange(b.(levels := levels)) == PassComplete(b.(levels := []));
  }

  lemma SinglePasses(e: Event)
    requires Exact(e) && !IsPenUp(e)
    ensures Closed([e]) && Culled([e], [true]) == [e]
  {
    FilterOne(e);
    StoredKeepsKind(e);
  }

  /** A recorded log that has been culled is closed. */
  lemma CulledIsClosed(log: seq<Event>, mask: seq<bool>)
    requires Masked(log, mask) && AllSettled(log)
    ensures Closed(Culled(log, mask))
  {
    hide PenUpsFollowDowns, LiftsFollowTouches, Settled, Twisted, Exact, Filter;
    CulledClosed(log, mask);
    FilterClosed(log, mask, 0, false);
    StoredAllSettles(Filter(log, mask, 0, false));
    assert AllSettled(Filter(log, mask, 0, false));
    StoredAllSettles(log);
    StoredAllSettles(Filter(log, mask, 0, false));
  }

  // ---------------------------------------------------------------------------
  // The object

  class Minimizer {
    const playback: EventPlayback
    var levels: seq<Level>
    var passNumber: int
    var isOn: bool
    var initialNumberOfEvents: int
    var discardedNumberOfEvents: int
    ghost var tests: seq<Test>
    ghost var error: seq<Event>

    ghost predicate Ready()
      reads this, playback, playback.events, playback.events.ptr
    {
      playback.Valid() && !playback.loadFailed && playback.events.usedSize + 13 <= MAX_LENGTH
    }

    ghost function State(): Search
      reads this, playback, playback.events, playback.events.ptr
      requires Ready()
    {
      Search(playback.Log(), playback.mask, levels, passNumber, isOn, tests, error)
    }

    constructor (playback: EventPlayback)
      ensures this.playback == playback && levels == [] && !isOn
    {
      this.playback := playback;
      levels, passNumber, isOn, tests, error := [], 1, false, [], [];
      initialNumberOfEvents, discardedNumberOfEvents := 0, 0;
    }

    /** Begins the search on a log that ends in an error: drops the first error event and all behind it, and starts
        the first replay. Without an error event there is nothing to search for. */
    method Start() returns (found: bool)
      requires Ready() && playback.LogSettled()
      modifies this, playback, playback.events, playback.events.ptr
      ensures found <==> exists i :: 0 <= i < old(|playback.Log()|) && old(playback.Log())[i].Error?
      ensures playback.events.ptr == old(playback.events.ptr) || fresh(playback.events.ptr)
      ensures found ==>
                && Ready() && Waiting(State())
                && exists first :: 0 <= first < old(|playback.Log()|) && old(playback.Log())[first].Error?
                     && (forall j :: 0 <= j < first ==> !old(playback.Log())[j].Error?)
                     && State() == SplitAgain(Begun(UpToError(old(playback.Log()), first)))
    {
      hide WellFormed, Parse, Culled, Filter, SplitAgain, Lossless, PenUpsFollowDowns, AllSettled, Waiting;
      ghost var log := playback.Log();
      playback.EnableEvents(0, |playback.mask|);
      var first := playback.FindFirstError();
      found := first >= 0;
      if !found {
        return;
      }
      DropFrom(first);
      ghost var culled := UpToError(log, first);
      CulledIsClosed(log, WithRange(Enabled(|log|), first, |log|, false));
      BegunWaits(culled);
      initialNumberOfEvents := playback.CountNumEvents();
      levels := [];
      discardedNumberOfEvents := 0;
      passNumber := 1;
      isOn := true;
      tests, error := [], culled;
      InitialLevel();
      SplitAndStartAgain();
    }

    method DropFrom(first: int)
      requires Ready() && AllEnabled(playback.mask) && 0 <= first
      modifies playback, playback.events, playback.events.ptr
      ensures Ready() && playback.Log() == UpToError(old(playback.Log()), first)
      ensures playback.mask == Enabled(|playback.Log()|)
      ensures playback.events.ptr == old(playback.events.ptr) || fresh(playback.events.ptr)
    {
      hide WellFormed, Parse, Culled, Filter, Lossless, PenUpsFollowDowns, AllSettled;
      playback.DisableEvents(first, |playback.mask|);
      assert playback.mask == WithRange(Enabled(|playback.Log()|), first, |playback.Log()|, false);
      playback.CullEvents();
    }

    /** Halves the current range until the first part is small enough; says whether it could be split at all. */
    method SplitCurrentLevel() returns (split: bool)
      requires levels != []
      modifies this`levels
      ensures split <==> Size(Top(old(levels))) > 1
      ensures levels == if split then Split(old(levels)) else old(levels)
    {
      split := Size(levels[|levels| - 1]) > 1;
      while true
        invariant levels != []
        invariant split <==> Size(Top(old(levels))) > 1
        invariant if split then Size(Top(levels)) > 1 && Split(levels) == Split(old(levels))
                  else Size(Top(levels)) <= 1 && levels == old(levels)
        decreases Size(Top(levels))
      {
        var prev := levels[|levels| - 1];
        if prev.end - prev.begin <= 1 {
          return false;
        }
        var midpoint := (prev.begin + prev.end) / 2;
        ghost var before := levels;
        levels := levels[..|levels| - 1];
        levels := levels + [Level(midpoint, prev.end, prev.checked && prev.end - midpoint > 1)];
        var newLevel := Level(prev.begin, midpoint, prev.checked && midpoint - prev.begin > 1);
        levels := levels + [newLevel];
        assert levels == SplitOnce(before);
        if newLevel.end - newLevel.begin <= MAX_RANGE {
          return;
        }
      }
    }

    method InitialLevel()
      requires Ready() && levels == []
      modifies this`levels
      ensures levels == Whole(|playback.Log()|)
    {
      var n := playback.GetNumEvents();
      levels := levels + [Level(0, n, false)];
    }

    method SplitAndStartAgain()
      requires Ready() && Sound(State()) && levels != [] && passNumber != LAST_PASS
      modifies this`levels, this`passNumber, this`isOn, this`tests
      modifies playback, playback.events, playback.events.ptr
      ensures Ready() && State() == SplitAgain(old(State()))
      ensures playback.events.ptr == old(playback.events.ptr) || fresh(playback.events.ptr)
      ensures playback.reported == old(playback.reported)
      decreases |playback.Log()|, if passNumber == LAST_PASS then 0 else 1, Work(levels), 1
    {
      hide DisableAgain, NextRange, Work, Split, Stacked, WellFormed, Parse;
      SplitDecreases(State());
      var split := SplitCurrentLevel();
      if split {
        DisableAndStartAgain();
      } else {
        levels := Unchecked(levels);
        NextSubRange();
      }
    }

    method DisableAndStartAgain()
      requires Ready() && Sound(State()) && levels != [] && passNumber != LAST_PASS
      modifies this`levels, this`passNumber, this`isOn, this`tests
      modifies playback, playback.events, playback.events.ptr
      ensures Ready() && State() == DisableAgain(old(State()))
      ensures playback.events.ptr == old(playback.events.ptr) || fresh(playback.events.ptr)
      ensures playback.reported == old(playback.reported)
      decreases |playback.Log()|, if passNumber == LAST_PASS then 0 else 1, Work(levels), 1
    {
      hide NextRange, Work, WellFormed, Parse;
      var l := levels[|levels| - 1];
      if l.end - l.begin == 1 {
        var event := playback.GetEvent(l.begin, Null);
        if IsPenUp(event) {
          NextSubRange();
          return;
        }
      }
      playback.DisableEvents(l.begin, l.end);
      assert playback.mask == WithRange(old(playback.mask), l.begin, l.end, false);
      playback.ReplayEvents(true);
    }

    method NextSubRange()
      requires Ready() && Sound(State()) && levels != []
      modifies this`levels, this`passNumber, this`isOn, this`tests
      modifies playback, playback.events, playback.events.ptr
      ensures Ready() && State() == NextRange(old(State()))
      ensures playback.events.ptr == old(playback.events.ptr) || fresh(playback.events.ptr)
      ensures playback.reported == old(playback.reported)
      decreases |playback.Log()|, if passNumber == LAST_PASS then 0 else 1, Work(levels), 0
    {
      hide SplitAgain, DisableAgain, PassComplete, Work, Stacked, WellFormed, Parse;
      PopStacked(levels, |playback.Log()|);
      levels := levels[..|levels| - 1];
      if levels == [] {
        MinimizationPassComplete();
        return;
      }
      var currLevel := levels[|levels| - 1];
      if currLevel.checked || currLevel.end - currLevel.begin > MAX_RANGE {
        SplitAndStartAgain();
      } else {
        DisableAndStartAgain();
      }
    }

    method MinimizationPassComplete()
      requires Ready() && Sound(State()) && levels == []
      modifies this`levels, this`passNumber, this`isOn, this`tests
      modifies playback, playback.events, playback.events.ptr
      ensures Ready() && State() == PassComplete(old(State()))
      ensures playback.events.ptr == old(playback.events.ptr) || fresh(playback.events.ptr)
      ensures playback.reported == old(playback.reported)
      decreases |playback.Log()|, if passNumber == LAST_PASS then 0 else 1, 0, 1
    {
      hide SplitAgain, Work, Stacked, WellFormed, Parse, Culled, Lossless;
      StartedSound(State(), Culled(playback.Log(), playback.mask));
      var fewer := RemoveDisabled();
      if fewer {
        passNumber := passNumber + 1;
        tests := [];
        InitialLevel();
        SplitAndStartAgain();
      } else if passNumber != LAST_PASS {
        passNumber := LAST_PASS;
        InitialLevel();
        playback.ReplayEvents(true);
      } else {
        isOn := false;
        playback.ReplayEvents(false);
      }
    }

    /** Culls the disabled events and says whether that has made the log shorter. */
    method RemoveDisabled() returns (fewer: bool)
      requires Ready()
      modifies playback, playback.events, playback.events.ptr
      ensures Ready() && playback.Log() == old(Culled(playback.Log(), playback.mask))
      ensures playback.mask == Enabled(|playback.Log()|) && |playback.Log()| <= old(|playback.Log()|)
      ensures fewer <==> |playback.Log()| < old(|playback.Log()|)
      ensures playback.events.ptr == old(playback.events.ptr) || fresh(playback.events.ptr)
      ensures playback.reported == old(playback.reported)
    {
      hide WellFormed, Parse, Culled, PenUpsFollowDowns, AllSettled, Lossless;
      CullShrinks(playback.Log(), playback.mask);
      var oldNumEvents := playback.GetNumEvents();
      playback.CullEvents();
      var newNumEvents := playback.GetNumEvents();
      fewer := newNumEvents < oldNumEvents;
    }

    /** The replay has ended without the error. */
    method NoErrorOccurred()
      requires Ready() && Sound(State()) && levels != []
      modifies this, playback, playback.events, playback.events.ptr
      ensures Ready() && State() == Answered(old(State()), NoError)
      ensures playback.events.ptr == old(playback.events.ptr) || fresh(playback.events.ptr)
      ensures playback.reported == old(playback.reported)
    {
      hide SplitAgain, PassComplete, Work, WellFormed, Parse;
      ghost var mask := playback.mask;
      var l := levels[|levels| - 1];
      playback.EnableEvents(l.begin, l.end);
      assert playback.mask == WithRange(mask, l.begin, l.end, true);
      if passNumber == LAST_PASS {
        levels := [];
        MinimizationPassComplete();
        return;
      }
      tests := tests + [Test(mask, false)];
      levels := levels[..|levels| - 1] + [levels[|levels| - 1].(checked := true)];
      assert levels == Checked(old(levels));
      SplitAndStartAgain();
    }

    /** The replay has ended in the error. */
    method ErrorOccurred()
      requires Ready() && Sound(State()) && levels != [] && playback.iteration.index >= 0
      modifies this, playback, playback.events, playback.events.ptr
      ensures Ready() && State() == Answered(old(State()), ErrorAt(old(playback.iteration.index)))
      ensures playback.events.ptr == old(playback.events.ptr) || fresh(playback.events.ptr)
      ensures playback.reported == old(playback.reported)
      ensures discardedNumberOfEvents
              == old(initialNumberOfEvents) - old(|Filter(playback.Log(), playback.mask, 0, false)|)
    {
      hide NextRange, PassComplete, Work, WellFormed, Parse, Filter, Stacked, Lossless, Offset;
      SoundWithout(State());
      var enabled := playback.CountEnabledEvents();
      discardedNumberOfEvents := initialNumberOfEvents - enabled;
      var currentEvent := playback.iteration.index;
      var numEvents := playback.GetNumEvents();
      ghost var mask := playback.mask;
      ghost var played := WithRange(mask, currentEvent, |mask|, false);
      if passNumber != LAST_PASS {
        tests := tests + [Test(mask, true)];
      }
      error := Filter(playback.Log(), played, 0, false);
      if currentEvent < numEvents {
        playback.DisableEvents(currentEvent, numEvents);
        assert playback.mask == played;
        levels := [];
        MinimizationPassComplete();
        return;
      }
      NextSubRange();
    }
  }

  lemma SoundWithout(s: Search)
    requires Sound(s)
    ensures Stacked([], |s.log|)
  {
  }

  lemma SplitDecreases(s: Search)
    requires Sound(s) && s.levels != []
    ensures Work(Unchecked(s.levels)) == Work(s.levels) && Stacked(Unchecked(s.levels), |s.log|)
    ensures Size(Top(s.levels)) > 1 ==>
              Work(Split(s.levels)) < Work(s.levels) && Stacked(Split(s.levels), |s.log|)
  {
    hide Work, Split;
    WorkUnchecked(s.levels);
    UncheckedStacked(s.levels, |s.log|);
    if Size(Top(s.levels)) > 1 {
      SplitShrinks(s.levels);
      SplitStacked(s.levels, |s.log|);
    }
  }
}
