/** The list-level meaning of filtered replay, and what holds of whole runs of it. */
module Replay {
  import opened Bytes
  import opened Events

  /** The filter: a pen-up passes iff the pen is down, any other event iff it is enabled. */
  predicate Keep(e: Event, enabled: bool, penDown: bool) {
    if IsPenUp(e) then penDown else enabled
  }

  ghost predicate Masked(es: seq<Event>, mask: seq<bool>) {
    |es| <= |mask|
  }

  /** The first index at or after `i` that passes the filter; the length of the list when there is none. */
  function Next(es: seq<Event>, mask: seq<bool>, i: nat, penDown: bool): (k: nat)
    requires Masked(es, mask) && i <= |es|
    ensures i <= k <= |es|
    ensures k < |es| ==> Keep(es[k], mask[k], penDown)
    ensures forall j :: i <= j < k ==> !Keep(es[j], mask[j], penDown)
    decreases |es| - i
  {
    if i == |es| || Keep(es[i], mask[i], penDown) then i else Next(es, mask, i + 1, penDown)
  }

  lemma NextUnique(es: seq<Event>, mask: seq<bool>, i: nat, penDown: bool, k: nat)
    requires Masked(es, mask) && i <= k <= |es|
    requires k < |es| ==> Keep(es[k], mask[k], penDown)
    requires forall j :: i <= j < k ==> !Keep(es[j], mask[j], penDown)
    ensures Next(es, mask, i, penDown) == k
  {
    var n := Next(es, mask, i, penDown);
    assert n < |es| ==> Keep(es[n], mask[n], penDown);
  }

  /** Everything the filter passes from index `i` on, the pen state following each event that passes. */
  function Filter(es: seq<Event>, mask: seq<bool>, i: nat, penDown: bool): seq<Event>
    requires Masked(es, mask) && i <= |es|
    decreases |es| - i
  {
    if i == |es| then []
    else if Keep(es[i], mask[i], penDown) then [es[i]] + Filter(es, mask, i + 1, IsPenDown(es[i]))
    else Filter(es, mask, i + 1, penDown)
  }

  /** The filter proceeds from one passing event to the next. */
  lemma {:induction false} FilterNext(es: seq<Event>, mask: seq<bool>, i: nat, penDown: bool)
    requires Masked(es, mask) && i <= |es|
    ensures var k := Next(es, mask, i, penDown);
            Filter(es, mask, i, penDown)
            == if k == |es| then [] else [es[k]] + Filter(es, mask, k + 1, IsPenDown(es[k]))
    decreases |es| - i
  {
    if i < |es| && !Keep(es[i], mask[i], penDown) {
      FilterNext(es, mask, i + 1, penDown);
    }
  }

  /** The pen is down right before the i-th event, `penDown` being its state before the list. */
  ghost predicate DownBefore(es: seq<Event>, i: nat, penDown: bool)
    requires i < |es|
  {
    if i == 0 then penDown else IsPenDown(es[i - 1])
  }

  /** Every pen-up stands right behind a pen-down. */
  ghost predicate PenUpsFollowDowns(es: seq<Event>, penDown: bool) {
    forall i :: 0 <= i < |es| && IsPenUp(es[i]) ==> DownBefore(es, i, penDown)
  }

  lemma FollowDownsCons(e: Event, rest: seq<Event>, penDown: bool)
    ensures PenUpsFollowDowns([e] + rest, penDown)
            <==> (IsPenUp(e) ==> penDown) && PenUpsFollowDowns(rest, IsPenDown(e))
  {
    var f := [e] + rest;
    forall i | 0 <= i < |rest|
      ensures f[i + 1] == rest[i] && DownBefore(f, i + 1, penDown) == DownBefore(rest, i, IsPenDown(e))
    {
    }
    if PenUpsFollowDowns(f, penDown) {
      assert IsPenUp(f[0]) ==> penDown;
      forall i | 0 <= i < |rest| && IsPenUp(rest[i]) ensures DownBefore(rest, i, IsPenDown(e)) {
        assert IsPenUp(f[i + 1]);
      }
    } else {
      var i :| 0 <= i < |f| && IsPenUp(f[i]) && !DownBefore(f, i, penDown);
      if i > 0 {
        assert IsPenUp(rest[i - 1]);
      }
    }
  }

  /** What passes the filter has every pen-up right behind a pen-down. */
  lemma {:induction false} FilterClosed(es: seq<Event>, mask: seq<bool>, i: nat, penDown: bool)
    requires Masked(es, mask) && i <= |es|
    ensures PenUpsFollowDowns(Filter(es, mask, i, penDown), penDown)
    ensures |Filter(es, mask, i, penDown)| <= |es| - i
    ensures forall e :: e in Filter(es, mask, i, penDown) ==> e in es
    decreases |es| - i
  {
    if i < |es| {
      if Keep(es[i], mask[i], penDown) {
        FilterClosed(es, mask, i + 1, IsPenDown(es[i]));
        FollowDownsCons(es[i], Filter(es, mask, i + 1, IsPenDown(es[i])), penDown);
      } else {
        FilterClosed(es, mask, i + 1, penDown);
      }
    }
  }

  ghost predicate AllEnabled(mask: seq<bool>) {
    forall i :: 0 <= i < |mask| ==> mask[i]
  }

  /** With every event enabled, the filter loses nothing exactly when every pen-up follows a pen-down. */
  lemma {:induction false} FilterKeepsAll(es: seq<Event>, mask: seq<bool>, i: nat, penDown: bool)
    requires Masked(es, mask) && AllEnabled(mask) && i <= |es|
    ensures Filter(es, mask, i, penDown) == es[i..] <==> PenUpsFollowDowns(es[i..], penDown)
    decreases |es| - i
  {
    FilterClosed(es, mask, i, penDown);
    if i < |es| && PenUpsFollowDowns(es[i..], penDown) {
      assert es[i..] == [es[i]] + es[i + 1..];
      FollowDownsCons(es[i], es[i + 1..], penDown);
      FilterKeepsAll(es, mask, i + 1, IsPenDown(es[i]));
    }
  }

  // ---------------------------------------------------------------------------
  // Culling

  /** What `CullEvents` leaves in the log: the passing events, stored anew. */
  function Culled(es: seq<Event>, mask: seq<bool>): seq<Event>
    requires Masked(es, mask)
  {
    StoredAll(Filter(es, mask, 0, false))
  }

  function Enabled(n: nat): (mask: seq<bool>)
    ensures |mask| == n && AllEnabled(mask)
  {
    seq(n, _ => true)
  }

  ghost predicate AllExact(es: seq<Event>) {
    forall e :: e in es ==> Exact(e)
  }

  ghost predicate AllSettled(es: seq<Event>) {
    forall e :: e in es ==> Settled(e)
  }

  ghost predicate NoneTwisted(es: seq<Event>) {
    forall e :: e in es ==> !Twisted(e)
  }

  lemma StoredAllIffExact(es: seq<Event>)
    ensures StoredAll(es) == es <==> AllExact(es)
  {
    var st := StoredAll(es);
    if st == es {
      forall e | e in es ensures Exact(e) {
        var i :| 0 <= i < |es| && es[i] == e;
        assert st[i] == Stored(es[i]);
        StoredKeepsKind(e);
      }
    } else {
      var i :| 0 <= i < |es| && st[i] != es[i];
      StoredKeepsKind(es[i]);
      assert es[i] in es;
    }
  }

  /** A stored list is settled, and exact exactly when none of its events was twisted. */
  lemma StoredAllSettles(es: seq<Event>)
    ensures AllSettled(StoredAll(es))
    ensures AllExact(StoredAll(es)) <==> NoneTwisted(es)
    ensures AllSettled(es) ==> NoneTwisted(es)
  {
    hide Exact, Stored, Settled, Twisted;
    var st := StoredAll(es);
    forall e ensures Settled(Stored(e)) && (Exact(Stored(e)) <==> !Twisted(e)) && (Settled(e) ==> !Twisted(e)) {
      StoredKeepsKind(e);
    }
    forall i | 0 <= i < |es| ensures st[i] in st && es[i] in es {
    }
    if AllExact(st) {
      forall e | e in es ensures !Twisted(e) {
        var i :| 0 <= i < |es| && es[i] == e;
        assert st[i] in st;
      }
    }
  }

  /** Culling delivers the passing events unchanged exactly when all of them have exact coordinates. */
  lemma CulledIsFilterIffExact(es: seq<Event>, mask: seq<bool>)
    requires Masked(es, mask)
    ensures Culled(es, mask) == Filter(es, mask, 0, false) <==> AllExact(Filter(es, mask, 0, false))
    ensures |Culled(es, mask)| == |Filter(es, mask, 0, false)|
  {
    StoredAllIffExact(Filter(es, mask, 0, false));
  }

  /** Right before the i-th event stands a point that is not stored as a pen-up. */
  ghost predicate TouchBefore(es: seq<Event>, i: nat, penDown: bool)
    requires i < |es|
  {
    if i == 0 then penDown else es[i - 1].Pen? && !Lifts(es[i - 1])
  }

  /** Everything that is stored as a pen-up stands right behind a point that is not. */
  ghost predicate LiftsFollowTouches(es: seq<Event>, penDown: bool) {
    forall i :: 0 <= i < |es| && Lifts(es[i]) ==> TouchBefore(es, i, penDown)
  }

  /** Storing leaves every pen-up right behind a pen-down exactly under that condition. */
  lemma StoredFollowDowns(es: seq<Event>, penDown: bool)
    ensures PenUpsFollowDowns(StoredAll(es), penDown) <==> LiftsFollowTouches(es, penDown)
  {
    hide Stored, Lifts;
    var st := StoredAll(es);
    forall i | 0 <= i < |es|
      ensures IsPenUp(st[i]) == Lifts(es[i]) && DownBefore(st, i, penDown) == TouchBefore(es, i, penDown)
    {
      StoredKeepsKind(es[i]);
      if i > 0 {
        StoredKeepsKind(es[i - 1]);
      }
    }
    if !PenUpsFollowDowns(st, penDown) {
      var i :| 0 <= i < |st| && IsPenUp(st[i]) && !DownBefore(st, i, penDown);
      assert Lifts(es[i]);
    } else {
      forall i | 0 <= i < |es| && Lifts(es[i]) ensures TouchBefore(es, i, penDown) {
        assert IsPenUp(st[i]);
      }
    }
  }

  /** Where nothing but pen-ups is stored as one, that is the same as before storing. */
  lemma LiftsArePenUps(es: seq<Event>, penDown: bool)
    requires forall e :: e in es && Lifts(e) ==> IsPenUp(e)
    ensures LiftsFollowTouches(es, penDown) <==> PenUpsFollowDowns(es, penDown)
  {
    forall i | 0 <= i < |es|
      ensures IsPenUp(es[i]) == Lifts(es[i]) && DownBefore(es, i, penDown) == TouchBefore(es, i, penDown)
    {
      assert es[i] in es;
      assert i > 0 ==> es[i - 1] in es;
    }
    if LiftsFollowTouches(es, penDown) {
      forall i | 0 <= i < |es| && IsPenUp(es[i]) ensures DownBefore(es, i, penDown) {
        assert Lifts(es[i]);
      }
    } else {
      var i :| 0 <= i < |es| && Lifts(es[i]) && !TouchBefore(es, i, penDown);
      assert IsPenUp(es[i]);
    }
  }

  /** The culled log, for every log that can be walked: replaying it in full drops nothing exactly when its
      pen-ups follow pen-downs, which is so exactly under the condition on the events that pass. */
  lemma CulledClosed(es: seq<Event>, mask: seq<bool>)
    requires Masked(es, mask)
    ensures var c := Culled(es, mask);
            && (PenUpsFollowDowns(c, false) <==> LiftsFollowTouches(Filter(es, mask, 0, false), false))
            && (Filter(c, Enabled(|c|), 0, false) == c <==> PenUpsFollowDowns(c, false))
            && (AllSettled(es) ==> PenUpsFollowDowns(c, false))
  {
    hide Settled, Lifts, IsPenUp;
    var f := Filter(es, mask, 0, false);
    FilterClosed(es, mask, 0, false);
    StoredFollowDowns(f, false);
    var c := StoredAll(f);
    FilterKeepsAll(c, Enabled(|c|), 0, false);
    assert c[0..] == c;
    if AllSettled(es) {
      forall e | e in f && Lifts(e) ensures IsPenUp(e) {
        StoredKeepsKind(e);
      }
      LiftsArePenUps(f, false);
    }
  }

  /** What passes the filter without loss of length passes without loss. */
  lemma {:induction false} FilterFull(es: seq<Event>, mask: seq<bool>, i: nat, penDown: bool)
    requires Masked(es, mask) && i <= |es| && |Filter(es, mask, i, penDown)| == |es| - i
    ensures Filter(es, mask, i, penDown) == es[i..]
    decreases |es| - i
  {
    if i < |es| {
      if Keep(es[i], mask[i], penDown) {
        FilterFull(es, mask, i + 1, IsPenDown(es[i]));
        assert es[i..] == [es[i]] + es[i + 1..];
      } else {
        FilterClosed(es, mask, i + 1, penDown);
      }
    }
  }

  /** Culling once more, with every event enabled, changes nothing exactly when the first culling closed the log
      and passed no twisted point. Both always hold of a settled log. */
  lemma CulledTwice(es: seq<Event>, mask: seq<bool>)
    requires Masked(es, mask)
    ensures var f, c := Filter(es, mask, 0, false), Culled(es, mask);
            && (Culled(c, Enabled(|c|)) == c <==> LiftsFollowTouches(f, false) && NoneTwisted(f))
            && (AllSettled(es) ==> Culled(c, Enabled(|c|)) == c)
  {
    hide Filter, PenUpsFollowDowns, LiftsFollowTouches, Settled, Twisted;
    var f, c := Filter(es, mask, 0, false), Culled(es, mask);
    CulledClosed(es, mask);
    StoredAllSettles(f);
    StoredAllIffExact(c);
    FilterClosed(es, mask, 0, false);
    assert AllSettled(es) ==> AllSettled(f);
    var again := Filter(c, Enabled(|c|), 0, false);
    if |again| == |c| {
      FilterFull(c, Enabled(|c|), 0, false);
      assert c[0..] == c;
    }
  }

  /** Any log recorded by this code, under any mask: the culled log is closed, and culling is idempotent on it. */
  lemma CullRecorded(recorded: seq<Event>, mask: seq<bool>)
    requires |recorded| <= |mask|
    ensures var c := Culled(StoredAll(recorded), mask);
            PenUpsFollowDowns(c, false) && Filter(c, Enabled(|c|), 0, false) == c && Culled(c, Enabled(|c|)) == c
  {
    hide Filter, PenUpsFollowDowns, Settled;
    StoredAllSettles(recorded);
    CulledClosed(StoredAll(recorded), mask);
    CulledTwice(StoredAll(recorded), mask);
  }

  /** And any log at all, read from whatever history: it is settled by one culling, so from the second on,
      under any mask, the log is closed and culling is idempotent. */
  lemma CullSettles(es: seq<Event>, mask: seq<bool>, next: seq<bool>)
    requires Masked(es, mask) && Masked(Culled(es, mask), next)
    ensures AllSettled(Culled(es, mask))
    ensures var c := Culled(Culled(es, mask), next);
            PenUpsFollowDowns(c, false) && Filter(c, Enabled(|c|), 0, false) == c && Culled(c, Enabled(|c|)) == c
  {
    StoredAllSettles(Filter(es, mask, 0, false));
    CullRecorded(Filter(es, mask, 0, false), next);
  }

  /** Histories that this code does not write, on which the first culling is not the last: a point left of and
      above the screen becomes a pen-up, and a wide point needs storing twice. */
  lemma FirstCullingNotLast()
    ensures var b := [PEN] + Signed16(-2) + Signed16(-2); WellFormed(b) && Parse(b) == [Pen(-2, -2)]
    ensures var b := [PEN_Y_COMPRESSED] + Signed16(384) + [0]; WellFormed(b) && Parse(b) == [Pen(384, 0)]
    ensures var c := Culled([Pen(-2, -2)], [true]);
            c == [PEN_UP] && !PenUpsFollowDowns(c, false) && Culled(c, [true]) == []
    ensures var c := Culled([Pen(384, 0)], [true]);
            c == [Pen(1, -32768)] && Culled(c, [true]) == [Pen(1, 0)]
  {
    ForeignRecords();
    FilterOne(Pen(-2, -2));
    FilterOne(Pen(384, 0));
    FilterOne(Pen(1, -32768));
    FilterOne(PEN_UP);
    assert Culled([PEN_UP], [true]) == [];
    assert IsPenUp([PEN_UP][0]) && !DownBefore([PEN_UP], 0, false);
  }

  lemma ForeignRecords()
    ensures var b := [PEN] + Signed16(-2) + Signed16(-2); WellFormed(b) && Parse(b) == [Pen(-2, -2)]
    ensures var b := [PEN_Y_COMPRESSED] + Signed16(384) + [0]; WellFormed(b) && Parse(b) == [Pen(384, 0)]
  {
    var b, c: seq<byte> := [PEN] + Signed16(-2) + Signed16(-2), [PEN_Y_COMPRESSED] + Signed16(384) + [0];
    assert b[1..3] == Signed16(-2) && b[3..5] == Signed16(-2) && b[5..] == [];
    assert c[1..3] == Signed16(384) && c[4..] == [];
  }

  lemma FilterOne(e: Event)
    ensures Filter([e], [true], 0, false) == if IsPenUp(e) then [] else [e]
  {
    assert Filter([e], [true], 1, IsPenDown(e)) == [];
    assert Filter([e], [true], 1, false) == [];
  }

  // ---------------------------------------------------------------------------
  // Runs of ReplayGetEvent and ReplayGetPen

  datatype Call = ForEvent | ForPen

  /** An event handed out: from the log, with its index, or a pen-up made up by `ReplayGetPen`. */
  datatype Delivery =
    | Logged(index: nat, event: Event, via: Call)
    | Fabricated

  datatype Machine = Machine(index: nat, penDown: bool, replaying: bool, deliveries: seq<Delivery>)

  const START := Machine(0, false, true, [])

  function AfterGetEvent(es: seq<Event>, mask: seq<bool>, m: Machine): Machine
    requires Masked(es, mask) && m.index <= |es|
  {
    var k := Next(es, mask, m.index, m.penDown);
    if k == |es| then Machine(k, m.penDown, false, m.deliveries)
    else Machine(k + 1, IsPenDown(es[k]), m.replaying, m.deliveries + [Logged(k, es[k], ForEvent)])
  }

  function AfterGetPen(es: seq<Event>, mask: seq<bool>, m: Machine): Machine
    requires Masked(es, mask) && m.index <= |es|
  {
    var k := Next(es, mask, m.index, m.penDown);
    if k == |es| then Machine(k, false, m.replaying, m.deliveries + [Fabricated])
    else if es[k].Pen? then Machine(k + 1, m.penDown, m.replaying, m.deliveries + [Logged(k, es[k], ForPen)])
    else Machine(m.index, false, m.replaying, m.deliveries + [Fabricated])
  }

  function Advance(es: seq<Event>, mask: seq<bool>, m: Machine, call: Call): (r: Machine)
    requires Masked(es, mask) && m.index <= |es|
    ensures m.index <= r.index <= |es|
  {
    if call.ForEvent? then AfterGetEvent(es, mask, m) else AfterGetPen(es, mask, m)
  }

  /** Both calls are made only while replaying is on. */
  function Run(es: seq<Event>, mask: seq<bool>, m: Machine, calls: seq<Call>): (r: Machine)
    requires Masked(es, mask) && m.index <= |es|
    ensures r.index <= |es|
    decreases |calls|
  {
    if calls == [] || !m.replaying then m else Run(es, mask, Advance(es, mask, m, calls[0]), calls[1..])
  }

  /** The log indices handed out, pen-ups left aside, in the order of delivery. */
  function DeliveredIndices(ds: seq<Delivery>): seq<nat> {
    if ds == [] then []
    else DeliveredIndices(ds[..|ds| - 1]) + IndexOf(ds[|ds| - 1])
  }

  function IndexOf(d: Delivery): seq<nat> {
    if d.Logged? && !IsPenUp(d.event) then [d.index] else []
  }

  /** The indices below `n` of the enabled events that are not pen-ups, in log order. */
  function EnabledIndices(es: seq<Event>, mask: seq<bool>, n: nat): seq<nat>
    requires Masked(es, mask) && n <= |es|
  {
    if n == 0 then []
    else EnabledIndices(es, mask, n - 1) + if mask[n - 1] && !IsPenUp(es[n - 1]) then [n - 1] else []
  }

  lemma {:induction false} NothingEnabledBetween(es: seq<Event>, mask: seq<bool>, i: nat, k: nat)
    requires Masked(es, mask) && i <= k <= |es|
    requires forall j :: i <= j < k ==> !mask[j] || IsPenUp(es[j])
    ensures EnabledIndices(es, mask, k) == EnabledIndices(es, mask, i)
    decreases k
  {
    if i < k {
      NothingEnabledBetween(es, mask, i, k - 1);
    }
  }

  /** What every single delivery satisfies. */
  ghost predicate Faithful(es: seq<Event>, mask: seq<bool>, n: nat, d: Delivery)
    requires Masked(es, mask) && n <= |es|
  {
    d.Logged? ==>
      && d.index < n && d.event == es[d.index]
      && (mask[d.index] || IsPenUp(d.event))
      && (d.via.ForPen? ==> d.event.Pen?)
  }

  /** The machine invariant: everything enabled below the cursor has been delivered, once and in order. */
  ghost predicate Lossless(es: seq<Event>, mask: seq<bool>, m: Machine)
    requires Masked(es, mask)
  {
    && m.index <= |es|
    && DeliveredIndices(m.deliveries) == EnabledIndices(es, mask, m.index)
    && forall d :: d in m.deliveries ==> Faithful(es, mask, m.index, d)
  }

  lemma Deliver(es: seq<Event>, mask: seq<bool>, m: Machine, k: nat, via: Call)
    requires Masked(es, mask) && Lossless(es, mask, m)
    requires k == Next(es, mask, m.index, m.penDown) && k < |es|
    requires via.ForPen? ==> es[k].Pen?
    ensures var ds := m.deliveries + [Logged(k, es[k], via)];
            && DeliveredIndices(ds) == EnabledIndices(es, mask, k + 1)
            && forall d :: d in ds ==> Faithful(es, mask, k + 1, d)
  {
    var d := Logged(k, es[k], via);
    var ds := m.deliveries + [d];
    assert ds[..|ds| - 1] == m.deliveries;
    forall j | m.index <= j < k ensures !mask[j] || IsPenUp(es[j]) {
      assert !Keep(es[j], mask[j], m.penDown);
    }
    NothingEnabledBetween(es, mask, m.index, k);
    forall x | x in ds ensures Faithful(es, mask, k + 1, x) {
      if x != d {
        assert x in m.deliveries;
        assert Faithful(es, mask, m.index, x);
      }
    }
  }

  lemma Fabricate(es: seq<Event>, mask: seq<bool>, m: Machine, k: nat)
    requires Masked(es, mask) && Lossless(es, mask, m)
    requires k == m.index || k == Next(es, mask, m.index, m.penDown) == |es|
    ensures var ds := m.deliveries + [Fabricated];
            && DeliveredIndices(ds) == EnabledIndices(es, mask, k)
            && forall d :: d in ds ==> Faithful(es, mask, k, d)
  {
    var ds := m.deliveries + [Fabricated];
    assert ds[..|ds| - 1] == m.deliveries;
    NoneLeft(es, mask, m.index, k, m.penDown);
    forall x | x in ds ensures Faithful(es, mask, k, x) {
      if x != Fabricated {
        assert x in m.deliveries;
        assert Faithful(es, mask, m.index, x);
      }
    }
  }

  lemma NoneLeft(es: seq<Event>, mask: seq<bool>, i: nat, k: nat, penDown: bool)
    requires Masked(es, mask) && i <= k <= |es|
    requires k == i || k == Next(es, mask, i, penDown)
    ensures EnabledIndices(es, mask, k) == EnabledIndices(es, mask, i)
  {
    forall j | i <= j < k ensures !mask[j] || IsPenUp(es[j]) {
      assert !Keep(es[j], mask[j], penDown);
    }
    NothingEnabledBetween(es, mask, i, k);
  }

  lemma StepLossless(es: seq<Event>, mask: seq<bool>, m: Machine, call: Call)
    requires Masked(es, mask) && Lossless(es, mask, m)
    ensures Lossless(es, mask, Advance(es, mask, m, call))
  {
    hide Next, EnabledIndices, DeliveredIndices, Keep, IsPenUp, IsPenDown;
    var k := Next(es, mask, m.index, m.penDown);
    if k < |es| && (call.ForEvent? || es[k].Pen?) {
      Deliver(es, mask, m, k, call);
    } else if call.ForPen? {
      Fabricate(es, mask, m, if k < |es| then m.index else k);
    } else {
      NoneLeft(es, mask, m.index, k, m.penDown);
      forall d | d in m.deliveries ensures Faithful(es, mask, k, d) {
        assert Faithful(es, mask, m.index, d);
      }
    }
  }

  /** No interleaving of the two calls loses, repeats or reorders an enabled event below the cursor,
      and only `ReplayGetEvent` hands out events that are not pen events. */
  lemma {:induction false} RunLossless(es: seq<Event>, mask: seq<bool>, m: Machine, calls: seq<Call>)
    requires Masked(es, mask) && Lossless(es, mask, m)
    ensures Lossless(es, mask, Run(es, mask, m, calls))
    decreases |calls|
  {
    if calls != [] && m.replaying {
      StepLossless(es, mask, m, calls[0]);
      RunLossless(es, mask, Advance(es, mask, m, calls[0]), calls[1..]);
    }
  }

  lemma StartLossless(es: seq<Event>, mask: seq<bool>, replaying: bool)
    requires Masked(es, mask)
    ensures Lossless(es, mask, START.(replaying := replaying))
  {
  }

  /** Every run from the reset state. */
  lemma InterleavingLossless(es: seq<Event>, mask: seq<bool>, calls: seq<Call>)
    requires Masked(es, mask)
    ensures var r := Run(es, mask, START, calls);
            && DeliveredIndices(r.deliveries) == EnabledIndices(es, mask, r.index)
            && forall d :: d in r.deliveries ==> Faithful(es, mask, r.index, d)
  {
    RunLossless(es, mask, START, calls);
  }

  /** After a push-back the cursor has not moved and the next fetch finds the same event at the same index. */
  lemma PushBackRefetches(es: seq<Event>, mask: seq<bool>, m: Machine)
    requires Masked(es, mask) && m.index <= |es|
    ensures var k := Next(es, mask, m.index, m.penDown);
            k < |es| && !es[k].Pen? ==>
              var p := AfterGetPen(es, mask, m);
              && p.index == m.index
              && Next(es, mask, p.index, p.penDown) == k
              && AfterGetEvent(es, mask, p).deliveries
                 == m.deliveries + [Fabricated, Logged(k, es[k], ForEvent)]
  {
    var k := Next(es, mask, m.index, m.penDown);
    if k < |es| && !es[k].Pen? {
      NextUnique(es, mask, m.index, false, k);
      assert m.deliveries + [Fabricated] + [Logged(k, es[k], ForEvent)]
          == m.deliveries + [Fabricated, Logged(k, es[k], ForEvent)];
    }
  }

  /** The payloads of deliveries, as the step reporter receives them. */
  function Payloads(ds: seq<Delivery>): (r: seq<Event>)
    ensures |r| == |ds|
  {
    seq(|ds|, i requires 0 <= i < |ds| => if ds[i].Logged? then ds[i].event else PEN_UP)
  }

  /** The first `n` events, or all of them when there are fewer. */
  function UpTo(es: seq<Event>, n: nat): seq<Event> {
    if n <= |es| then es[..n] else es
  }

  lemma UpToCons(before: seq<Event>, e: Event, rest: seq<Event>, n: nat)
    requires n > 0
    ensures before + UpTo([e] + rest, n) == (before + [e]) + UpTo(rest, n - 1)
  {
  }

  lemma PayloadsAppend(ds: seq<Delivery>, d: Delivery)
    requires d.Logged?
    ensures Payloads(ds + [d]) == Payloads(ds) + [d.event]
  {
  }

  /** A run of `ReplayGetEvent` alone hands out the filtered list from the front, and all of it once it has stopped. */
  lemma {:induction false} GetEventsFilter(es: seq<Event>, mask: seq<bool>, m: Machine, calls: seq<Call>)
    requires Masked(es, mask) && m.index <= |es| && m.replaying
    requires forall c :: c in calls ==> c.ForEvent?
    ensures var r := Run(es, mask, m, calls);
            var rest := Filter(es, mask, m.index, m.penDown);
            && (r.replaying <==> |calls| <= |rest|)
            && Payloads(r.deliveries) == Payloads(m.deliveries) + UpTo(rest, |calls|)
    decreases |calls|
  {
    hide Filter, Next, IsPenDown, IsPenUp, Payloads, UpTo;
    if calls == [] {
      UpToNone(Payloads(m.deliveries), Filter(es, mask, m.index, m.penDown));
    } else {
      FilterNext(es, mask, m.index, m.penDown);
      var k := Next(es, mask, m.index, m.penDown);
      var m' := AfterGetEvent(es, mask, m);
      assert calls[0] in calls;
      if k < |es| {
        var rest := Filter(es, mask, k + 1, IsPenDown(es[k]));
        GetEventsFilter(es, mask, m', calls[1..]);
        PayloadsAppend(m.deliveries, Logged(k, es[k], ForEvent));
        UpToCons(Payloads(m.deliveries), es[k], rest, |calls|);
      } else {
        RunStopped(es, mask, m', calls[1..]);
        UpToEmpty(Payloads(m.deliveries), |calls|);
      }
    }
  }

  lemma UpToNone(before: seq<Event>, es: seq<Event>)
    ensures before + UpTo(es, 0) == before
  {
  }

  lemma UpToEmpty(before: seq<Event>, n: nat)
    ensures before + UpTo([], n) == before
  {
  }

  lemma RunStopped(es: seq<Event>, mask: seq<bool>, m: Machine, calls: seq<Call>)
    requires Masked(es, mask) && m.index <= |es| && !m.replaying
    ensures Run(es, mask, m, calls) == m
  {
  }
}
