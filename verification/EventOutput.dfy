/** The report of a replay, as numbered steps: which events a step takes up and how key runs are merged. */
module EventOutput {
  import opened Bytes
  import opened Events

  const COMMAND_KEY_MASK: nat := 0x0008

  datatype KeyType = Writeable | Button | Notice

  datatype Description = Undescribed | Described(keyType: KeyType)

  /** The table `gKeyDescription`. */
  function FindKeyDescription(code: uint16): Description {
    if code == 0x08 || code == 0x09 || code == 0x0A || code == 0x0D || code == 0x1B || code == 0x7F
    then Described(Writeable)
    else if code == 0x0B || code == 0x0C || 0x1C <= code <= 0x1F
    then Described(Button)
    else if code == 0x103 || code == 0x105 || code == 0x106 || 0x108 <= code <= 0x10C || 0x110 <= code <= 0x113
    then Described(Button)
    else if code == 0x122 || code == 0x123 || 0x204 <= code <= 0x20B || code == 0x20D
    then Described(Button)
    else if code == 0x101 || 0x114 <= code <= 0x121 || code == 0x1FF || code == 0x20C
    then Described(Notice)
    else Undescribed
  }

  predicate IsExtended(code: uint16) {
    0x80 <= code <= 0xFF
  }

  predicate IsPrint(code: uint16) {
    0x20 <= code <= 0x7E
  }

  /** `PrvIsKeyWriteable`; the command bit of the modifiers is the fourth. */
  predicate IsKeyWriteable(kd: Description, code: uint16, modifiers: uint16) {
    if modifiers / COMMAND_KEY_MASK % 2 == 1 then false
    else if code >= 0x100 then true
    else if kd.Described? then kd.keyType.Writeable?
    else IsPrint(code) || IsExtended(code)
  }

  predicate IsWriteable(e: Event) {
    e.Key? && IsKeyWriteable(FindKeyDescription(e.ascii), e.ascii, e.modifiers)
  }

  /** How one key shows up in a written string. */
  datatype Glyph = Name(code: uint16) | Number(code: uint16) | Character(code: uint16)

  function GlyphOf(e: Event): Glyph
    requires e.Key?
  {
    if FindKeyDescription(e.ascii).Described? then Name(e.ascii)
    else if IsExtended(e.ascii) then Number(e.ascii)
    else Character(e.ascii)
  }

  function Glyphs(es: seq<Event>): (r: seq<Glyph>)
    requires forall e :: e in es ==> e.Key?
    ensures |r| == |es|
  {
    seq(|es|, i requires 0 <= i < |es| => GlyphOf(es[i]))
  }

  /** The wording of a key step that writes nothing. A described key that is writeable but for its
      command bit gets a number and no words. */
  datatype Wording = TapButton | ReceivesNotice | NoWords | WriteCharacter

  function WordingOf(kd: Description): Wording {
    match kd
    case Undescribed => WriteCharacter
    case Described(Button) => TapButton
    case Described(Notice) => ReceivesNotice
    case Described(Writeable) => NoWords
  }

  /** A step of the report. `first` is the position of the first event it takes up. */
  datatype Step =
    | StartStep(number: int)
    | WriteStep(number: int, first: nat, glyphs: seq<Glyph>)
    | KeyStep(number: int, first: nat, wording: Wording)
    | PenStep(number: int, first: nat)
    | SwitchStep(number: int, first: nat)
    | CrashStep(first: nat)

  // ---------------------------------------------------------------------------
  // The report, as a function

  /** The first position at or after `i` that holds no writeable key. */
  function RunEnd(es: seq<Event>, i: nat): (j: nat)
    requires i <= |es|
    ensures i <= j <= |es|
    ensures forall k :: i <= k < j ==> IsWriteable(es[k])
    ensures j < |es| ==> !IsWriteable(es[j])
    decreases |es| - i
  {
    if i < |es| && IsWriteable(es[i]) then RunEnd(es, i + 1) else i
  }

  lemma RunEndUnique(es: seq<Event>, i: nat, j: nat)
    requires i <= j <= |es|
    requires forall k :: i <= k < j ==> IsWriteable(es[k])
    requires j < |es| ==> !IsWriteable(es[j])
    ensures RunEnd(es, i) == j
  {
    hide IsWriteable;
    var r := RunEnd(es, i);
    assert r < |es| ==> !IsWriteable(es[r]);
  }

  function Report(es: seq<Event>, i: nat, number: int): seq<Step>
    requires i <= |es|
    decreases |es| - i
  {
    if i == |es| then []
    else match es[i]
      case Key(ascii, _, _) =>
        if IsWriteable(es[i])
        then [WriteStep(number, i, Glyphs(es[i..RunEnd(es, i)]))] + Report(es, RunEnd(es, i), number + 1)
        else [KeyStep(number, i, WordingOf(FindKeyDescription(ascii)))] + Report(es, i + 1, number + 1)
      case Pen(_, _) =>
        if IsPenUp(es[i]) then Report(es, i + 1, number)
        else [PenStep(number, i)] + Report(es, i + 1, number + 1)
      case AppSwitch(_, _, _, _) => [SwitchStep(number, i)] + Report(es, i + 1, number + 1)
      case Error => [CrashStep(i)] + Report(es, i + 1, number)
      case Null => Report(es, i + 1, number)
  }

  /** The look-ahead past a run of keys must find an event. */
  predicate EndsRuns(es: seq<Event>) {
    es == [] || !IsWriteable(es[|es| - 1])
  }

  /** The look-ahead behind every writeable key finds an event exactly when the list does not end in one. */
  lemma LookAheadInside(es: seq<Event>)
    ensures EndsRuns(es) <==> forall i :: 0 <= i < |es| && IsWriteable(es[i]) ==> RunEnd(es, i) < |es|
  {
    hide IsWriteable;
    if EndsRuns(es) {
      forall i | 0 <= i < |es| && IsWriteable(es[i]) ensures RunEnd(es, i) < |es| {
        assert !IsWriteable(es[|es| - 1]);
      }
    } else {
      assert RunEnd(es, |es| - 1) == |es|;
    }
  }

  /** A list on which the look-ahead runs past the end: a single letter. */
  lemma LookAheadPastEnd()
    ensures var es := [Key(97, 0, 0)]; !EndsRuns(es) && IsWriteable(es[0]) && RunEnd(es, 0) == |es|
  {
    assert RunEnd([Key(97, 0, 0)], 1) == 1;
  }

  class EventOutput {
    var eventInfo: seq<Event>
    var counter: int
    var stream: seq<Step>

    /** Writes one key step and leaves the iterator at the last event the step took up. */
    method OutputKeyEventStep(iter: nat) returns (last: nat)
      requires iter < |eventInfo| && eventInfo[iter].Key? && EndsRuns(eventInfo)
      modifies this`counter, this`stream
      ensures counter == old(counter) + 1
      ensures var e := eventInfo[iter];
              if IsWriteable(e)
              then last + 1 == RunEnd(eventInfo, iter)
                   && stream == old(stream) + [WriteStep(old(counter), iter, Glyphs(eventInfo[iter..last + 1]))]
              else last == iter
                   && stream == old(stream) + [KeyStep(old(counter), iter, WordingOf(FindKeyDescription(e.ascii)))]
      ensures stream == old(stream) + [stream[|stream| - 1]] && Fits(eventInfo, stream[|stream| - 1])
      ensures last > iter ==> Written(eventInfo[iter].ascii, eventInfo[iter].modifiers)
    {
      hide FindKeyDescription, IsKeyWriteable, Written, Shows, Says, Fits;
      KeyStepFits(eventInfo, iter, counter);
      last := iter;
      var e := eventInfo[last];
      var kd := FindKeyDescription(e.ascii);
      if IsKeyWriteable(kd, e.ascii, e.modifiers) {
        var charString: seq<Glyph> := [];
        while true
          invariant iter <= last < |eventInfo|
          invariant e == eventInfo[last] && e.Key? && kd == FindKeyDescription(e.ascii)
          invariant forall k :: iter <= k <= last ==> IsWriteable(eventInfo[k])
          invariant charString == Glyphs(eventInfo[iter..last])
          invariant counter == old(counter) && stream == old(stream)
          decreases |eventInfo| - last
        {
          if kd.Described? {
            charString := charString + [Name(e.ascii)];
          } else if IsExtended(e.ascii) {
            charString := charString + [Number(e.ascii)];
          } else {
            charString := charString + [Character(e.ascii)];
          }
          GlyphsStep(eventInfo, iter, last);
          last := last + 1;
          e := eventInfo[last];
          if !e.Key? {
            break;
          }
          kd := FindKeyDescription(e.ascii);
          if !IsKeyWriteable(kd, e.ascii, e.modifiers) {
            break;
          }
        }
        RunEndUnique(eventInfo, iter, last);
        last := last - 1;
        stream := stream + [WriteStep(counter, iter, charString)];
      } else {
        var wording := WriteCharacter;
        if kd.Described? {
          wording := NoWords;
          if kd.keyType.Button? {
            wording := TapButton;
          } else if kd.keyType.Notice? {
            wording := ReceivesNotice;
          }
        }
        stream := stream + [KeyStep(counter, iter, wording)];
      }
      counter := counter + 1;
    }

    method OutputStartStep()
      modifies this`counter, this`stream
      ensures counter == old(counter) + 1 && stream == old(stream) + [StartStep(old(counter))]
    {
      stream := stream + [StartStep(counter)];
      counter := counter + 1;
    }

    /** Writes the whole report of the gathered events. */
    method OutputEvents()
      requires EndsRuns(eventInfo)
      modifies this`counter, this`stream
      ensures stream == old(stream) + [StartStep(1)] + Report(eventInfo, 0, 2)
      ensures forall s :: s in Report(eventInfo, 0, 2) ==> Fits(eventInfo, s)
    {
      StepsFit(eventInfo, 0, 2);
      hide IsWriteable, FindKeyDescription, Glyphs, EndsRuns, RunEnd;
      counter := 1;
      OutputStartStep();
      ghost var header := stream;
      ghost var all := Report(eventInfo, 0, 2);
      ghost var done: seq<Step> := [];
      var iter := 0;
      while iter < |eventInfo|
        invariant 0 <= iter <= |eventInfo|
        invariant stream == header + done
        invariant all == done + Report(eventInfo, iter, counter)
      {
        ghost var i, number, before := iter, counter, stream;
        ghost var rest := Report(eventInfo, i, number);
        match eventInfo[iter] {
          case Key(_, _, _) =>
            iter := OutputKeyEventStep(iter);
          case Pen(_, _) =>
            OutputPenEventStep(iter);
          case AppSwitch(_, _, _, _) =>
            stream := stream + [SwitchStep(counter, iter)];
            counter := counter + 1;
          case Error =>
            stream := stream + [CrashStep(iter)];
          case Null =>
        }
        iter := iter + 1;
        ghost var step := stream[|before|..];
        assert rest == step + Report(eventInfo, iter, counter);
        Regroup(done, step, Report(eventInfo, iter, counter));
        done := done + step;
      }
    }

    /** Taps are steps, lifting the stylus is not. */
    method OutputPenEventStep(iter: nat)
      requires iter < |eventInfo| && eventInfo[iter].Pen?
      modifies this`counter, this`stream
      ensures if IsPenUp(eventInfo[iter]) then stream == old(stream) && counter == old(counter)
              else stream == old(stream) + [PenStep(old(counter), iter)] && counter == old(counter) + 1
    {
      if !IsPenUp(eventInfo[iter]) {
        stream := stream + [PenStep(counter, iter)];
        counter := counter + 1;
      }
    }
  }

  lemma GlyphsStep(es: seq<Event>, i: nat, last: nat)
    requires i <= last < |es| && forall k :: i <= k <= last ==> es[k].Key?
    ensures Glyphs(es[i..last + 1]) == Glyphs(es[i..last]) + [GlyphOf(es[last])]
  {
    hide GlyphOf;
  }

  lemma Regroup(a: seq<Step>, b: seq<Step>, c: seq<Step>)
    ensures a + (b + c) == (a + b) + c
  {
  }

  // ---------------------------------------------------------------------------
  // What holds of every report

  /** The positions of the events a step takes up. */
  function Taken(s: Step): seq<nat> {
    match s
    case StartStep(_) => []
    case WriteStep(_, first, glyphs) => seq(|glyphs|, k requires k >= 0 => first + k)
    case KeyStep(_, first, _) => [first]
    case PenStep(_, first) => [first]
    case SwitchStep(_, first) => [first]
    case CrashStep(first) => [first]
  }

  function AllTaken(steps: seq<Step>): seq<nat> {
    if steps == [] then [] else Taken(steps[0]) + AllTaken(steps[1..])
  }

  predicate IsReported(e: Event) {
    !e.Null? && !IsPenUp(e)
  }

  /** The positions from `i` on of the events that are reported at all. */
  function ReportedFrom(es: seq<Event>, i: nat): seq<nat>
    requires i <= |es|
    decreases |es| - i
  {
    if i == |es| then [] else (if IsReported(es[i]) then [i] else []) + ReportedFrom(es, i + 1)
  }

  lemma {:induction false} RunReported(es: seq<Event>, i: nat, j: nat)
    requires i <= j <= |es| && forall k :: i <= k < j ==> IsWriteable(es[k])
    ensures ReportedFrom(es, i) == seq(j - i, k requires k >= 0 => i + k) + ReportedFrom(es, j)
    decreases j - i
  {
    hide FindKeyDescription, IsKeyWriteable;
    if i < j {
      RunReported(es, i + 1, j);
      assert seq(j - i, k requires k >= 0 => i + k) == [i] + seq(j - i - 1, k requires k >= 0 => i + 1 + k);
    } else {
      assert seq(0, k requires k >= 0 => i + k) == [];
    }
  }

  /** Every event but pen-ups and null events is taken up by exactly one step, in the order of the list. */
  lemma {:induction false} EachEventOnce(es: seq<Event>, i: nat, number: int)
    requires i <= |es|
    ensures AllTaken(Report(es, i, number)) == ReportedFrom(es, i)
    decreases |es| - i
  {
    hide FindKeyDescription, IsKeyWriteable;
    if i < |es| {
      if IsWriteable(es[i]) {
        var j := RunEnd(es, i);
        assert j > i;
        EachEventOnce(es, j, number + 1);
        RunReported(es, i, j);
      } else {
        EachEventOnce(es, i + 1, number);
        EachEventOnce(es, i + 1, number + 1);
      }
    }
  }

  // ---------------------------------------------------------------------------
  // What each step says, over the codes and modifiers alone

  const WRITEABLE_CODES: set<int> := {0x08, 0x09, 0x0A, 0x0D, 0x1B, 0x7F}

  const BUTTON_CODES: set<int> :=
    {0x0B, 0x0C, 0x1C, 0x1D, 0x1E, 0x1F, 0x103, 0x105, 0x106, 0x108, 0x109, 0x10A, 0x10B, 0x10C, 0x110, 0x111, 0x112,
     0x113, 0x122, 0x123, 0x204, 0x205, 0x206, 0x207, 0x208, 0x209, 0x20A, 0x20B, 0x20D}

  const NOTICE_CODES: set<int> :=
    {0x101, 0x114, 0x115, 0x116, 0x117, 0x118, 0x119, 0x11A, 0x11B, 0x11C, 0x11D, 0x11E, 0x11F, 0x120, 0x121, 0x1FF,
     0x20C}

  /** Written as text: without the command bit, a wide code, a described writeable one, or an undescribed one that
      prints or is extended. */
  predicate Written(code: uint16, modifiers: uint16) {
    && modifiers % 16 < 8
    && (code >= 0x100
        || code in WRITEABLE_CODES
        || (code !in BUTTON_CODES && (0x20 <= code <= 0x7E || 0x80 <= code <= 0xFF)))
  }

  /** Shown by its name if it has one, by its number if it is an extended code, and as itself otherwise. */
  predicate Shows(g: Glyph, code: uint16) {
    if code in WRITEABLE_CODES || code in BUTTON_CODES || code in NOTICE_CODES then g == Name(code)
    else if 0x80 <= code <= 0xFF then g == Number(code)
    else g == Character(code)
  }

  predicate Says(w: Wording, code: uint16) {
    && (w.TapButton? <==> code in BUTTON_CODES)
    && (w.ReceivesNotice? <==> code in NOTICE_CODES)
    && (w.NoWords? <==> code in WRITEABLE_CODES)
    && (w.WriteCharacter? <==> code !in WRITEABLE_CODES && code !in BUTTON_CODES && code !in NOTICE_CODES)
  }

  predicate WritesKey(e: Event, g: Glyph) {
    e.Key? && Written(e.ascii, e.modifiers) && Shows(g, e.ascii)
  }

  /** The step fits the events it takes up. */
  predicate Fits(es: seq<Event>, s: Step) {
    match s
    case StartStep(_) => true
    case WriteStep(_, first, glyphs) =>
      && |glyphs| > 0 && first + |glyphs| <= |es|
      && forall k :: 0 <= k < |glyphs| ==> WritesKey(es[first + k], glyphs[k])
    case KeyStep(_, first, wording) =>
      first < |es| && es[first].Key? && !Written(es[first].ascii, es[first].modifiers) && Says(wording, es[first].ascii)
    case PenStep(_, first) => first < |es| && es[first].Pen? && es[first] != Pen(-1, -1)
    case SwitchStep(_, first) => first < |es| && es[first].AppSwitch?
    case CrashStep(first) => first < |es| && es[first].Error?
  }

  lemma DescriptionIs(code: uint16)
    ensures FindKeyDescription(code)
            == if code in WRITEABLE_CODES then Described(Writeable)
               else if code in BUTTON_CODES then Described(Button)
               else if code in NOTICE_CODES then Described(Notice)
               else Undescribed
    ensures code in NOTICE_CODES ==> code >= 0x100
  {
  }

  lemma CommandBit(m: uint16)
    ensures m / 8 % 2 == 1 <==> m % 16 >= 8
  {
  }

  lemma WrittenAs(code: uint16, modifiers: uint16)
    ensures IsKeyWriteable(FindKeyDescription(code), code, modifiers) <==> Written(code, modifiers)
  {
    hide FindKeyDescription;
    DescriptionIs(code);
    CommandBit(modifiers);
  }

  lemma ShownAs(e: Event)
    requires e.Key?
    ensures IsWriteable(e) <==> Written(e.ascii, e.modifiers)
    ensures Shows(GlyphOf(e), e.ascii)
  {
    hide FindKeyDescription, IsKeyWriteable, Written;
    DescriptionIs(e.ascii);
    WrittenAs(e.ascii, e.modifiers);
  }

  lemma SaidAs(code: uint16)
    ensures Says(WordingOf(FindKeyDescription(code)), code)
  {
    hide FindKeyDescription;
    DescriptionIs(code);
  }

  /** In every report each step fits what it takes up: keys with the command bit, and keys that do not print, have
      a key step of their own with the words for their code; exactly the others are written, each as it is shown. */
  lemma {:induction false} StepsFit(es: seq<Event>, i: nat, number: int)
    requires i <= |es|
    ensures forall s :: s in Report(es, i, number) ==> Fits(es, s)
    decreases |es| - i
  {
    hide FindKeyDescription, IsKeyWriteable, Written, Shows, Says, GlyphOf, WordingOf, IsWriteable;
    if i < |es| {
      if es[i].Key? {
        ShownAs(es[i]);
        SaidAs(es[i].ascii);
      }
      if es[i].Key? && IsWriteable(es[i]) {
        var j := RunEnd(es, i);
        RunStarts(es, i);
        StepsFit(es, j, number + 1);
        RunKeys(es, i, j);
        RunFits(es, i, j, number);
        forall s | s in Report(es, i, number) ensures Fits(es, s) {
          assert s == WriteStep(number, i, Glyphs(es[i..j])) || s in Report(es, j, number + 1);
        }
      } else {
        StepsFit(es, i + 1, number);
        StepsFit(es, i + 1, number + 1);
      }
    }
  }

  lemma RunKeys(es: seq<Event>, i: nat, j: nat)
    requires i <= j <= |es| && forall k :: i <= k < j ==> IsWriteable(es[k])
    ensures forall e :: e in es[i..j] ==> e.Key? && IsWriteable(e)
  {
    hide FindKeyDescription, IsKeyWriteable;
  }

  lemma RunFits(es: seq<Event>, i: nat, j: nat, number: int)
    requires i < j <= |es| && forall e :: e in es[i..j] ==> e.Key? && IsWriteable(e)
    ensures Fits(es, WriteStep(number, i, Glyphs(es[i..j])))
  {
    hide FindKeyDescription, IsKeyWriteable, Written, Shows, Says, GlyphOf, WordingOf;
    var glyphs := Glyphs(es[i..j]);
    forall k | 0 <= k < |glyphs| ensures WritesKey(es[i + k], glyphs[k]) {
      assert es[i..j][k] == es[i + k] && es[i..j][k] in es[i..j] && glyphs[k] == GlyphOf(es[i..j][k]);
      ShownAs(es[i + k]);
    }
  }

  /** The step for a key. */
  lemma KeyStepFits(es: seq<Event>, i: nat, number: int)
    requires i < |es| && es[i].Key?
    ensures IsWriteable(es[i]) <==> Written(es[i].ascii, es[i].modifiers)
    ensures if IsWriteable(es[i])
            then RunEnd(es, i) > i && (forall e :: e in es[i..RunEnd(es, i)] ==> e.Key?)
                 && Fits(es, WriteStep(number, i, Glyphs(es[i..RunEnd(es, i)])))
            else Fits(es, KeyStep(number, i, WordingOf(FindKeyDescription(es[i].ascii))))
  {
    hide FindKeyDescription, IsKeyWriteable, Written, Shows, Says, GlyphOf, WordingOf, IsWriteable;
    ShownAs(es[i]);
    SaidAs(es[i].ascii);
    if IsWriteable(es[i]) {
      RunStarts(es, i);
      RunKeys(es, i, RunEnd(es, i));
      RunFits(es, i, RunEnd(es, i), number);
    }
  }

  /** The menu key that a Gremlin types is a button to tap. */
  lemma MenuKeyIsButton()
    ensures Report([Key(0x105, 0x105, 8), Null], 0, 2) == [KeyStep(2, 0, TapButton)]
  {
    var es := [Key(0x105, 0x105, 8), Null];
    assert !IsWriteable(es[0]);
    assert Report(es, 2, 3) == [] && Report(es, 1, 3) == [];
  }

  predicate IsNumbered(s: Step) {
    !s.CrashStep?
  }

  /** Numbered steps carry consecutive numbers. */
  predicate NumberedFrom(steps: seq<Step>, number: int) {
    steps == []
    || (if IsNumbered(steps[0]) then steps[0].number == number && NumberedFrom(steps[1..], number + 1)
        else NumberedFrom(steps[1..], number))
  }

  lemma {:induction false} ConsecutiveNumbers(es: seq<Event>, i: nat, number: int)
    requires i <= |es|
    ensures NumberedFrom(Report(es, i, number), number)
    decreases |es| - i
  {
    hide IsWriteable, FindKeyDescription, Glyphs;
    if i < |es| {
      if es[i].Key? && IsWriteable(es[i]) {
        RunStarts(es, i);
        ConsecutiveNumbers(es, RunEnd(es, i), number + 1);
      } else {
        ConsecutiveNumbers(es, i + 1, number);
        ConsecutiveNumbers(es, i + 1, number + 1);
      }
    }
  }

  lemma RunStarts(es: seq<Event>, i: nat)
    requires i < |es| && IsWriteable(es[i])
    ensures RunEnd(es, i) > i
  {
  }

  /** The whole report is numbered from 1 on. */
  lemma WholeReportNumbered(es: seq<Event>)
    ensures NumberedFrom([StartStep(1)] + Report(es, 0, 2), 1)
  {
    ConsecutiveNumbers(es, 0, 2);
    assert ([StartStep(1)] + Report(es, 0, 2))[1..] == Report(es, 0, 2);
  }

  /** A write step takes up a run of writeable keys that cannot be extended on either side. */
  ghost predicate MaximalRun(es: seq<Event>, s: Step) {
    s.WriteStep? ==>
      var last := s.first + |s.glyphs|;
      && s.first < last <= |es|
      && (forall k :: s.first <= k < last ==> IsWriteable(es[k]))
      && s.glyphs == Glyphs(es[s.first..last])
      && (s.first == 0 || !IsWriteable(es[s.first - 1]))
      && (last == |es| || !IsWriteable(es[last]))
  }

  lemma {:induction false} MergesMaximalRuns(es: seq<Event>, i: nat, number: int)
    requires i <= |es|
    requires i == 0 || i == |es| || !IsWriteable(es[i - 1]) || !IsWriteable(es[i])
    ensures forall s :: s in Report(es, i, number) ==> MaximalRun(es, s)
    decreases |es| - i
  {
    hide FindKeyDescription, IsKeyWriteable, Glyphs;
    if i < |es| {
      if IsWriteable(es[i]) {
        var j := RunEnd(es, i);
        RunStarts(es, i);
        MergesMaximalRuns(es, j, number + 1);
        var s := WriteStep(number, i, Glyphs(es[i..j]));
        assert MaximalRun(es, s);
        forall x | x in Report(es, i, number) ensures MaximalRun(es, x) {
          assert x == s || x in Report(es, j, number + 1);
        }
      } else {
        MergesMaximalRuns(es, i + 1, number);
        MergesMaximalRuns(es, i + 1, number + 1);
      }
    }
  }

  /** And every writeable key is in such a step: it is reported, and no other kind of step takes it up. */
  lemma {:induction false} WriteableKeysWritten(es: seq<Event>, i: nat, number: int)
    requires i <= |es|
    ensures forall s :: s in Report(es, i, number) && !s.WriteStep? && !s.StartStep? ==>
                          s.first < |es| && !IsWriteable(es[s.first])
    decreases |es| - i
  {
    hide FindKeyDescription, IsKeyWriteable, Glyphs;
    if i < |es| {
      if IsWriteable(es[i]) {
        RunStarts(es, i);
        WriteableKeysWritten(es, RunEnd(es, i), number + 1);
      } else {
        WriteableKeysWritten(es, i + 1, number);
        WriteableKeysWritten(es, i + 1, number + 1);
      }
    }
  }
}
