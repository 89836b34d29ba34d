/** The pen during a replay: the state the cursor keeps, the state the device is in, and which pen-ups get lost. */
module PenState {
  import opened Events
  import opened Replay

  /** The state the cursor keeps: `ReplayGetPen` leaves it alone when it hands out an event of the log. */
  function Tracked(ds: seq<Delivery>): bool {
    if ds == [] then false
    else match ds[|ds| - 1]
      case Fabricated => false
      case Logged(_, event, ForEvent) => IsPenDown(event)
      case Logged(_, _, ForPen) => Tracked(ds[..|ds| - 1])
  }

  /** The state the last delivery has left the device in. */
  function Actual(ds: seq<Delivery>): bool {
    ds != [] && ds[|ds| - 1].Logged? && IsPenDown(ds[|ds| - 1].event)
  }

  ghost predicate Tracking(m: Machine) {
    m.penDown == Tracked(m.deliveries)
  }

  lemma StepTracks(es: seq<Event>, mask: seq<bool>, m: Machine, call: Call)
    requires Masked(es, mask) && m.index <= |es| && Tracking(m)
    ensures Tracking(Advance(es, mask, m, call))
  {
    var t := Advance(es, mask, m, call);
    if t.deliveries != m.deliveries {
      assert t.deliveries[..|t.deliveries| - 1] == m.deliveries;
    }
  }

  /** After a call of `ReplayGetPen` the two states agree exactly when the event it has found in the log, if it
      is one for the pen, leaves the pen as the cursor has it. After `ReplayGetEvent` has delivered they agree. */
  lemma AgreesAfterStep(es: seq<Event>, mask: seq<bool>, m: Machine)
    requires Masked(es, mask) && m.index <= |es|
    ensures var k, t := Next(es, mask, m.index, m.penDown), AfterGetPen(es, mask, m);
            t.penDown == Actual(t.deliveries) <==>
              (k < |es| && es[k].Pen? ==> (IsPenDown(es[k]) <==> m.penDown))
    ensures var k, t := Next(es, mask, m.index, m.penDown), AfterGetEvent(es, mask, m);
            k < |es| ==> t.penDown == Actual(t.deliveries)
  {
  }

  /** The two states agree all along. */
  ghost predicate AlwaysAgrees(ds: seq<Delivery>) {
    forall n :: 0 <= n <= |ds| ==> Tracked(ds[..n]) == Actual(ds[..n])
  }

  /** What `ReplayGetPen` hands out of the log leaves the device's pen as it is. */
  ghost predicate PenCallsKeepPen(ds: seq<Delivery>) {
    forall i :: 0 <= i < |ds| && ds[i].Logged? && ds[i].via.ForPen? ==> IsPenDown(ds[i].event) == Actual(ds[..i])
  }

  lemma AgreesIffKept(ds: seq<Delivery>)
    ensures AlwaysAgrees(ds) <==> PenCallsKeepPen(ds)
  {
    if AlwaysAgrees(ds) {
      forall i | 0 <= i < |ds| && ds[i].Logged? && ds[i].via.ForPen?
        ensures IsPenDown(ds[i].event) == Actual(ds[..i])
      {
        assert ds[..i + 1][..i] == ds[..i];
        assert Tracked(ds[..i]) == Actual(ds[..i]) && Tracked(ds[..i + 1]) == Actual(ds[..i + 1]);
      }
    }
    if PenCallsKeepPen(ds) {
      forall n | 0 <= n <= |ds| ensures Tracked(ds[..n]) == Actual(ds[..n]) {
        KeptAgrees(ds, n);
      }
    }
  }

  lemma {:induction false} KeptAgrees(ds: seq<Delivery>, n: nat)
    requires PenCallsKeepPen(ds) && n <= |ds|
    ensures Tracked(ds[..n]) == Actual(ds[..n])
  {
    if n > 0 {
      KeptAgrees(ds, n - 1);
      assert ds[..n][..n - 1] == ds[..n - 1];
    }
  }

  // ---------------------------------------------------------------------------
  // Which pen-ups are delivered

  ghost predicate Delivered(ds: seq<Delivery>, j: nat) {
    exists d :: d in ds && d.Logged? && d.index == j
  }

  ghost predicate AllBelow(ds: seq<Delivery>, n: nat) {
    forall d :: d in ds && d.Logged? ==> d.index < n
  }

  /** The state of a run right before the call that moves the cursor past the index. */
  function Passing(es: seq<Event>, mask: seq<bool>, m: Machine, calls: seq<Call>, j: nat): Machine
    requires Masked(es, mask) && m.index <= |es| && m.index <= j < Run(es, mask, m, calls).index
    decreases |calls|
  {
    var t := Advance(es, mask, m, calls[0]);
    if t.index > j then m else Passing(es, mask, t, calls[1..], j)
  }

  /** A call that passes a pen-up delivers it exactly when the cursor has the pen down. */
  lemma StepPenUp(es: seq<Event>, mask: seq<bool>, m: Machine, call: Call, j: nat)
    requires Masked(es, mask) && m.index <= |es| && AllBelow(m.deliveries, m.index)
    requires m.index <= j < Advance(es, mask, m, call).index && IsPenUp(es[j])
    ensures Delivered(Advance(es, mask, m, call).deliveries, j) <==> m.penDown
  {
    var k, t := Next(es, mask, m.index, m.penDown), Advance(es, mask, m, call);
    assert j < k ==> !Keep(es[j], mask[j], m.penDown);
    if m.penDown {
      assert k == j;
      assert t.deliveries[|m.deliveries|] == Logged(j, es[j], call);
    }
  }

  lemma StepBelow(es: seq<Event>, mask: seq<bool>, m: Machine, call: Call)
    requires Masked(es, mask) && m.index <= |es| && AllBelow(m.deliveries, m.index)
    ensures var t := Advance(es, mask, m, call);
            && AllBelow(t.deliveries, t.index)
            && |m.deliveries| <= |t.deliveries| && t.deliveries[..|m.deliveries|] == m.deliveries
            && forall j :: 0 <= j < m.index ==> (Delivered(t.deliveries, j) <==> Delivered(m.deliveries, j))
  {
    var t := Advance(es, mask, m, call);
    forall d | d in m.deliveries ensures d in t.deliveries {
    }
  }

  /** What lies below the cursor is settled: later calls only append deliveries from the cursor on. */
  lemma {:induction false} RunBelow(es: seq<Event>, mask: seq<bool>, m: Machine, calls: seq<Call>)
    requires Masked(es, mask) && m.index <= |es| && AllBelow(m.deliveries, m.index)
    ensures var r := Run(es, mask, m, calls);
            && |m.deliveries| <= |r.deliveries| && r.deliveries[..|m.deliveries|] == m.deliveries
            && forall j :: 0 <= j < m.index ==> (Delivered(r.deliveries, j) <==> Delivered(m.deliveries, j))
    decreases |calls|
  {
    hide AllBelow, Delivered, Advance;
    if calls != [] && m.replaying {
      var t := Advance(es, mask, m, calls[0]);
      StepBelow(es, mask, m, calls[0]);
      RunBelow(es, mask, t, calls[1..]);
      var r := Run(es, mask, t, calls[1..]);
      assert r.deliveries[..|t.deliveries|][..|m.deliveries|] == r.deliveries[..|m.deliveries|];
    }
  }

  lemma {:induction false} RunPenUp(es: seq<Event>, mask: seq<bool>, m: Machine, calls: seq<Call>, j: nat)
    requires Masked(es, mask) && m.index <= |es| && AllBelow(m.deliveries, m.index) && Tracking(m)
    requires m.index <= j < Run(es, mask, m, calls).index && IsPenUp(es[j])
    ensures var r, p := Run(es, mask, m, calls), Passing(es, mask, m, calls, j);
            && |p.deliveries| <= |r.deliveries| && r.deliveries[..|p.deliveries|] == p.deliveries
            && (Delivered(r.deliveries, j) <==> Tracked(p.deliveries))
    decreases |calls|
  {
    hide AllBelow, Delivered, Advance, Tracked, IsPenUp;
    var t := Advance(es, mask, m, calls[0]);
    StepBelow(es, mask, m, calls[0]);
    StepTracks(es, mask, m, calls[0]);
    if t.index > j {
      StepPenUp(es, mask, m, calls[0], j);
      RunBelow(es, mask, t, calls[1..]);
      RunBelow(es, mask, m, calls);
    } else {
      RunPenUp(es, mask, t, calls[1..], j);
    }
  }

  /** Over every interleaving, whatever the mask: a pen-up below the cursor has been delivered exactly when the
      cursor had the pen down as it passed. It is lost while the device's pen is down only right behind an event
      that `ReplayGetPen` has handed out of the log. */
  lemma PenUpsLost(es: seq<Event>, mask: seq<bool>, calls: seq<Call>, j: nat)
    requires Masked(es, mask) && j < Run(es, mask, START, calls).index && IsPenUp(es[j])
    ensures var r, p := Run(es, mask, START, calls), Passing(es, mask, START, calls, j);
            && p.deliveries <= r.deliveries
            && (Delivered(r.deliveries, j) <==> Tracked(p.deliveries))
            && (!Delivered(r.deliveries, j) && Actual(p.deliveries) ==>
                  var last := p.deliveries[|p.deliveries| - 1]; last.Logged? && last.via.ForPen?)
            && (PenCallsKeepPen(r.deliveries) ==> (Delivered(r.deliveries, j) <==> Actual(p.deliveries)))
  {
    hide Passing, Run, Delivered;
    RunPenUp(es, mask, START, calls, j);
    var r, p := Run(es, mask, START, calls), Passing(es, mask, START, calls, j);
    if PenCallsKeepPen(r.deliveries) {
      KeptAgrees(r.deliveries, |p.deliveries|);
    }
  }

  // ---------------------------------------------------------------------------
  // Runs on which the states come apart

  /** The stylus goes down through `ReplayGetPen`; the pen-up behind it, enabled, is lost and the device keeps
      its pen down at the end of the replay. */
  lemma PenUpSkipped()
    ensures var r := Run([Pen(1, 1), PEN_UP], [true, true], START, [ForPen, ForEvent]);
            r == Machine(2, false, false, [Logged(0, Pen(1, 1), ForPen)])
            && Actual(r.deliveries) && !Delivered(r.deliveries, 1)
  {
    var es, mask := [Pen(1, 1), PEN_UP], [true, true];
    var m := Machine(1, false, true, [Logged(0, Pen(1, 1), ForPen)]);
    NextUnique(es, mask, 0, false, 0);
    NextUnique(es, mask, 1, false, 2);
    assert Advance(es, mask, START, ForPen) == m;
    assert [ForPen, ForEvent][1..] == [ForEvent];
    assert Run(es, mask, m, [ForEvent]) == Run(es, mask, AfterGetEvent(es, mask, m), []);
  }

  /** The stylus goes up through `ReplayGetPen`; the next pen-up is delivered although the pen is up. */
  lemma PenUpRepeated()
    ensures var r := Run([Pen(1, 1), PEN_UP, PEN_UP], [true, true, true], START, [ForEvent, ForPen, ForEvent]);
            Payloads(r.deliveries) == [Pen(1, 1), PEN_UP, PEN_UP]
  {
    var es, mask := [Pen(1, 1), PEN_UP, PEN_UP], [true, true, true];
    NextUnique(es, mask, 0, false, 0);
    NextUnique(es, mask, 1, true, 1);
    NextUnique(es, mask, 2, true, 2);
    var m1 := Machine(1, true, true, [Logged(0, Pen(1, 1), ForEvent)]);
    var m2 := Machine(2, true, true, m1.deliveries + [Logged(1, PEN_UP, ForPen)]);
    assert Advance(es, mask, START, ForEvent) == m1 && Advance(es, mask, m1, ForPen) == m2;
    assert [ForEvent, ForPen, ForEvent][1..] == [ForPen, ForEvent] && [ForPen, ForEvent][1..] == [ForEvent];
    assert Run(es, mask, m2, [ForEvent]) == Run(es, mask, AfterGetEvent(es, mask, m2), []);
  }
}
