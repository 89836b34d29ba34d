/** Key/value text files: one `key=value` line for each entry, with comments and blanks tolerated on reading. */
module MapFile {
  import opened Bytes
  import opened Streams

  type Text = seq<byte>

  const NUL: byte := 0
  const TAB: byte := 9
  const LF: byte := 10
  const CR: byte := 13
  const SPACE: byte := 32
  const HASH: byte := 35
  const SEMICOLON: byte := 59
  const EQUALS: byte := 61

  datatype Parsed = NoEntry | Entry(key: Text, value: Text)

  predicate IsBlank(c: byte) {
    c == SPACE || c == TAB
  }

  predicate IsEndOfLine(c: byte) {
    c == LF || c == CR
  }

  /** A string up to its first NUL, as `c_str` hands it on. */
  function CString(s: Text): (r: Text)
    ensures NUL !in r
    ensures NUL !in s ==> r == s
    ensures forall c :: c in r ==> c in s
  {
    if s == [] || s[0] == NUL then [] else [s[0]] + CString(s[1..])
  }

  function StripLeading(s: Text): (r: Text)
    ensures r != [] ==> !IsBlank(r[0])
    ensures forall c :: c in r ==> c in s
    ensures s == [] || !IsBlank(s[0]) ==> r == s
  {
    if s != [] && IsBlank(s[0]) then StripLeading(s[1..]) else s
  }

  function StripTrailing(s: Text): (r: Text)
    ensures r != [] ==> s != [] && r[0] == s[0] && !IsBlank(r[|r| - 1])
    ensures forall c :: c in r ==> c in s
    ensures s == [] || !IsBlank(s[|s| - 1]) ==> r == s
  {
    if s != [] && IsBlank(s[|s| - 1]) then StripTrailing(s[..|s| - 1]) else s
  }

  /** `Strip` on both ends. */
  function Strip(s: Text): Text {
    StripTrailing(StripLeading(CString(s)))
  }

  /** The position of the first equals sign; the length when there is none. */
  function FindEquals(s: Text): (p: nat)
    ensures p <= |s|
    ensures p < |s| ==> s[p] == EQUALS
    ensures EQUALS !in s[..p]
  {
    if s == [] || s[0] == EQUALS then 0 else 1 + FindEquals(s[1..])
  }

  /** What a line contributes. */
  function ParseLine(line: Text): Parsed {
    var data := StripLeading(CString(line));
    if data == [] || data[0] == SEMICOLON || data[0] == HASH then NoEntry
    else
      var p := FindEquals(data);
      if p == |data| then NoEntry else Entry(Strip(data[..p]), Strip(data[p + 1..]))
  }

  /** The line behind its leading blanks, up to a NUL. */
  ghost predicate IsStripped(line: Text, data: Text) {
    && (data != [] ==> data[0] != 32 && data[0] != 9)
    && exists i, n :: 0 <= i <= n <= |line| && data == line[i..n]
                      && (forall k :: 0 <= k < i ==> line[k] == 32 || line[k] == 9)
                      && (forall k :: 0 <= k < n ==> line[k] != 0) && (n < |line| ==> line[n] == 0)
  }

  lemma {:induction false} CStringIs(s: Text) returns (n: nat)
    ensures n <= |s| && CString(s) == s[..n]
    ensures (forall k :: 0 <= k < n ==> s[k] != 0) && (n < |s| ==> s[n] == 0)
    decreases |s|
  {
    if s == [] || s[0] == NUL {
      n := 0;
    } else {
      var m := CStringIs(s[1..]);
      n := m + 1;
      assert s[..n] == [s[0]] + s[1..][..m];
      assert forall k :: 0 < k < n ==> s[k] == s[1..][k - 1];
    }
  }

  lemma {:induction false} StripLeadingIs(s: Text) returns (i: nat)
    ensures i <= |s| && StripLeading(s) == s[i..] && forall k :: 0 <= k < i ==> s[k] == 32 || s[k] == 9
    decreases |s|
  {
    if s != [] && IsBlank(s[0]) {
      var m := StripLeadingIs(s[1..]);
      i := m + 1;
      assert s[i..] == s[1..][m..];
      assert forall k :: 0 < k < i ==> s[k] == s[1..][k - 1];
    } else {
      i := 0;
    }
  }

  lemma LeadingStripped(line: Text)
    ensures IsStripped(line, StripLeading(CString(line)))
  {
    var n := CStringIs(line);
    var i := StripLeadingIs(CString(line));
    assert StripLeading(CString(line)) == line[i..n];
  }

  /** A line contributes an entry exactly when, behind its leading blanks, it is not empty, does not start with a
      semicolon or a number sign, and contains an equals sign; the entry is what stands before the first one and
      behind it, stripped. */
  lemma LineMeans(line: Text)
    ensures exists data ::
              && IsStripped(line, data)
              && (ParseLine(line).Entry? <==> data != [] && data[0] != 59 && data[0] != 35 && 61 in data)
              && (ParseLine(line).Entry? ==>
                    exists p :: 0 <= p < |data| && data[p] == 61 && 61 !in data[..p]
                                && ParseLine(line) == Entry(Strip(data[..p]), Strip(data[p + 1..])))
  {
    hide CString, StripLeading, StripTrailing, IsStripped, Strip;
    var data := StripLeading(CString(line));
    LeadingStripped(line);
    var p := FindEquals(data);
    if p < |data| {
      assert data[p] in data;
    } else {
      assert data[..p] == data;
    }
  }

  lemma {:induction false} StripTrailingIs(s: Text) returns (n: nat)
    ensures n <= |s| && StripTrailing(s) == s[..n] && forall k :: n <= k < |s| ==> s[k] == 32 || s[k] == 9
    ensures n > 0 ==> s[n - 1] != 32 && s[n - 1] != 9
    decreases |s|
  {
    if s != [] && IsBlank(s[|s| - 1]) {
      n := StripTrailingIs(s[..|s| - 1]);
      assert s[..|s| - 1][..n] == s[..n];
    } else {
      n := |s|;
      assert s[..n] == s;
    }
  }

  /** Stripping both ends takes away blanks and tabs, all that there are at the ends, and whatever follows a NUL. */
  lemma StripMeans(s: Text) returns (i: nat, j: nat, n: nat)
    ensures i <= j <= n <= |s| && Strip(s) == s[i..j]
    ensures forall k :: 0 <= k < i || j <= k < n ==> s[k] == 32 || s[k] == 9
    ensures i < j ==> s[i] != 32 && s[i] != 9 && s[j - 1] != 32 && s[j - 1] != 9
    ensures (forall k :: 0 <= k < n ==> s[k] != 0) && (n < |s| ==> s[n] == 0)
  {
    hide CString, StripLeading, StripTrailing;
    n := CStringIs(s);
    var c := CString(s);
    i := StripLeadingIs(c);
    var l := StripLeading(c);
    var m := StripTrailingIs(l);
    j := i + m;
    assert l == s[i..n] && StripTrailing(l) == s[i..i + m];
    assert forall k :: i + m <= k < n ==> s[k] == l[k - i];
    LeadingNotBlank(c);
    assert m > 0 ==> s[i] == l[0] && s[i + m - 1] == l[m - 1];
  }

  lemma LeadingNotBlank(s: Text)
    ensures StripLeading(s) != [] ==> StripLeading(s)[0] != 32 && StripLeading(s)[0] != 9
  {
  }

  function AddLine(entries: map<Text, Text>, line: Text): map<Text, Text> {
    match ParseLine(line)
    case NoEntry => entries
    case Entry(key, value) => entries[key := value]
  }

  /** What is read from the text `t`, when `line` and `entries` have been gathered before it. */
  function Scan(t: Text, line: Text, entries: map<Text, Text>): map<Text, Text> {
    if t == [] then AddLine(entries, line)
    else if IsEndOfLine(t[0]) then Scan(t[1..], [], AddLine(entries, line))
    else Scan(t[1..], line + [t[0]], entries)
  }

  /** A text is read line by line; a line ends at every line feed and every carriage return, and at the end. */
  lemma {:induction false} LinesMean(t: Text, line: Text, entries: map<Text, Text>)
    ensures Scan([], line, entries) == AddLine(entries, line)
    ensures t != [] && (t[0] == 10 || t[0] == 13) ==> Scan(t, line, entries) == Scan(t[1..], [], AddLine(entries, line))
    ensures t != [] && t[0] != 10 && t[0] != 13 ==> Scan(t, line, entries) == Scan(t[1..], line + [t[0]], entries)
  {
  }

  function ReadText(t: Text): map<Text, Text> {
    Scan(t, [], map[])
  }

  /** Reads the stream from its marker on; of two entries with the same key the later one stays. */
  method Read(stream: StreamChunk) returns (mapData: map<Text, Text>)
    requires stream.Valid()
    modifies stream`marker
    ensures stream.Valid() && stream.marker == stream.length
    ensures mapData == ReadText(old(stream.Rest()))
  {
    hide ParseLine;
    ghost var contents, start := stream.Contents(), stream.marker;
    var theData: map<Text, Text> := map[];
    var line: Text := [];
    var atEnd := false;
    while !atEnd
      invariant stream.Valid() && stream.Contents() == contents && start <= stream.marker
      invariant !atEnd ==> Scan(contents[stream.marker..], line, theData) == ReadText(contents[start..])
      invariant atEnd ==> stream.marker == stream.length && theData == ReadText(contents[start..])
      decreases !atEnd, stream.length - stream.marker
    {
      ghost var rest := contents[stream.marker..];
      var err, chars := stream.GetBytes(1);
      if err || chars[0] == LF || chars[0] == CR {
        match ParseLine(line) {
          case NoEntry =>
          case Entry(key, value) => theData := theData[key := value];
        }
        line := [];
      } else {
        line := line + [chars[0]];
      }
      assert !err ==> rest[1..] == contents[stream.marker..];
      atEnd := err;
    }
    mapData := theData;
  }

  // ---------------------------------------------------------------------------
  // Writing

  function EntryText(key: Text, value: Text): Text {
    key + [EQUALS] + value + [LF]
  }

  /** A written line: the key, an equals sign, the value and a line feed. */
  lemma {:induction false} WrittenLine(key: Text, value: Text)
    ensures EntryText(key, value) == key + [61] + value + [10]
  {
  }

  /** The order in which an iterator visits a map: every key, none twice. */
  ghost predicate Enumerates(order: seq<Text>, m: map<Text, Text>) {
    && (forall k :: k in m <==> k in order)
    && forall i, j :: 0 <= i < j < |order| ==> order[i] != order[j]
  }

  function WriteText(order: seq<Text>, m: map<Text, Text>): Text
    requires forall k :: k in order ==> k in m
  {
    if order == [] then [] else EntryText(order[0], m[order[0]]) + WriteText(order[1..], m)
  }

  method Write(stream: StreamChunk, order: seq<Text>, mapData: map<Text, Text>)
    requires stream.Valid() && Enumerates(order, mapData)
    requires stream.marker + |WriteText(order, mapData)| <= MAX_LENGTH
    modifies stream, stream.chunk, stream.chunk.ptr
    ensures stream.Valid()
    ensures stream.Contents() == Splice(old(stream.Contents()), old(stream.marker), WriteText(order, mapData))
    ensures stream.marker == old(stream.marker) + |WriteText(order, mapData)|
  {
    hide Splice, EntryText, WriteText;
    ghost var before, at := stream.Contents(), stream.marker;
    ghost var done: Text := [];
    SpliceNothing(before, at);
    WriteTextFrom(order, mapData, 0, done);
    var i := 0;
    while i < |order|
      invariant 0 <= i <= |order|
      invariant stream.Valid() && (stream.chunk.ptr == old(stream.chunk.ptr) || fresh(stream.chunk.ptr))
      invariant WriteText(order, mapData) == done + WriteText(order[i..], mapData)
      invariant stream.Contents() == Splice(before, at, done) && stream.marker == at + |done|
    {
      WriteTextFrom(order, mapData, i, done);
      var line := EntryText(order[i], mapData[order[i]]);
      stream.PutBytes(line);
      SpliceTwice(before, at, done, line);
      done := done + line;
      i := i + 1;
    }
    WriteTextFrom(order, mapData, i, done);
  }

  /** How the text still to be written goes on after what has been `done`. */
  lemma WriteTextFrom(order: seq<Text>, m: map<Text, Text>, i: nat, done: Text)
    requires i <= |order| && forall k :: k in order ==> k in m
    ensures i == 0 ==> WriteText(order, m) == [] + WriteText(order[i..], m)
    ensures i < |order| ==>
              done + WriteText(order[i..], m)
              == (done + EntryText(order[i], m[order[i]])) + WriteText(order[i + 1..], m)
    ensures i == |order| ==> done + WriteText(order[i..], m) == done
  {
    hide EntryText;
    if i < |order| {
      assert order[i..][1..] == order[i + 1..];
    }
    assert i == 0 ==> order[i..] == order;
  }

  lemma SpliceNothing(contents: Text, at: nat)
    requires at <= |contents|
    ensures Splice(contents, at, []) == contents
  {
  }

  // ---------------------------------------------------------------------------
  // The domain on which both directions agree

  predicate NoEdgeBlanks(s: Text) {
    s != [] ==> !IsBlank(s[0]) && !IsBlank(s[|s| - 1])
  }

  predicate CleanValue(s: Text) {
    LF !in s && CR !in s && NUL !in s && NoEdgeBlanks(s)
  }

  predicate CleanKey(s: Text) {
    CleanValue(s) && EQUALS !in s && (s != [] ==> s[0] != SEMICOLON && s[0] != HASH)
  }

  ghost predicate Clean(m: map<Text, Text>) {
    forall k :: k in m ==> CleanKey(k) && CleanValue(m[k])
  }

  predicate OneLine(s: Text) {
    LF !in s && CR !in s
  }

  lemma StripClean(s: Text)
    requires OneLine(s)
    ensures CleanValue(Strip(s))
    ensures CleanValue(s) ==> Strip(s) == s
    ensures Strip(s) != [] && s != [] && s[0] != NUL && !IsBlank(s[0]) ==> Strip(s)[0] == s[0]
  {
    var c := CString(s);
    if s != [] && s[0] != NUL {
      assert c[0] == s[0];
    }
    var l := StripLeading(c);
    var t := StripTrailing(l);
    assert forall x :: x in t ==> x in l && x in c && x in s;
  }

  /** Whatever a line says, the entry it yields is clean. */
  lemma ParsedClean(line: Text)
    requires OneLine(line)
    ensures var e := ParseLine(line); e.Entry? ==> CleanKey(e.key) && CleanValue(e.value)
  {
    hide CString, StripLeading, StripTrailing, FindEquals;
    var data := StripLeading(CString(line));
    if ParseLine(line).Entry? {
      var p := FindEquals(data);
      var k, v := data[..p], data[p + 1..];
      assert forall c :: c in k || c in v ==> c in data && c in line;
      StripClean(k);
      StripClean(v);
      StripKeeps(k);
      assert p > 0 ==> k[0] == data[0] && data[0] != NUL;
    }
  }

  lemma StripKeeps(s: Text)
    ensures forall c :: c in Strip(s) ==> c in s
  {
  }

  lemma {:induction false} ScanClean(t: Text, line: Text, entries: map<Text, Text>)
    requires Clean(entries) && OneLine(line)
    ensures Clean(Scan(t, line, entries))
    decreases |t|
  {
    hide ParseLine, CleanKey, CleanValue;
    ParsedClean(line);
    if t != [] {
      if IsEndOfLine(t[0]) {
        ScanClean(t[1..], [], AddLine(entries, line));
      } else {
        ScanClean(t[1..], line + [t[0]], entries);
      }
    }
  }

  /** Everything ever read is clean. */
  lemma ReadClean(t: Text)
    ensures Clean(ReadText(t))
  {
    ScanClean(t, [], map[]);
  }

  lemma {:induction false} FirstEquals(k: Text, v: Text)
    requires EQUALS !in k
    ensures FindEquals(k + [EQUALS] + v) == |k|
    decreases |k|
  {
    if k != [] {
      assert (k + [EQUALS] + v)[1..] == k[1..] + [EQUALS] + v;
      FirstEquals(k[1..], v);
    }
  }

  /** The line written for a clean entry reads back as that entry. */
  lemma WrittenLineParses(k: Text, v: Text)
    requires CleanKey(k) && CleanValue(v)
    ensures ParseLine(k + [EQUALS] + v) == Entry(k, v)
  {
    hide FindEquals, Strip;
    var s := k + [EQUALS] + v;
    assert NUL !in s;
    assert s[0] == if k == [] then EQUALS else k[0];
    FirstEquals(k, v);
    assert s[..|k|] == k && s[|k| + 1..] == v;
    StripClean(k);
    StripClean(v);
  }

  lemma {:induction false} ScanLine(l: Text, rest: Text, line: Text, entries: map<Text, Text>)
    requires OneLine(l)
    ensures Scan(l + [LF] + rest, line, entries) == Scan(rest, [], AddLine(entries, line + l))
    decreases |l|
  {
    hide AddLine;
    var t := l + [LF] + rest;
    if l == [] {
      assert t[1..] == rest;
      assert line + l == line;
    } else {
      assert t[1..] == l[1..] + [LF] + rest;
      assert line + [l[0]] + l[1..] == line + l;
      ScanLine(l[1..], rest, line + [l[0]], entries);
    }
  }

  /** The entries of `m` in the given order, put one after another into `entries`. */
  function PutAll(entries: map<Text, Text>, order: seq<Text>, m: map<Text, Text>): map<Text, Text>
    requires forall k :: k in order ==> k in m
    decreases |order|
  {
    if order == [] then entries else PutAll(entries[order[0] := m[order[0]]], order[1..], m)
  }

  lemma {:induction false} ScanWritten(order: seq<Text>, m: map<Text, Text>, entries: map<Text, Text>)
    requires Clean(m) && forall k :: k in order ==> k in m
    ensures Scan(WriteText(order, m), [], entries) == PutAll(entries, order, m)
    decreases |order|
  {
    hide ParseLine, CleanKey, CleanValue;
    if order == [] {
      NothingToParse();
    } else {
      var k, v := order[0], m[order[0]];
      var rest := WriteText(order[1..], m);
      WrittenLineParses(k, v);
      EntryOneLine(k, v);
      assert EntryText(k, v) + rest == (k + [EQUALS] + v) + [LF] + rest;
      assert [] + (k + [EQUALS] + v) == k + [EQUALS] + v;
      ScanLine(k + [EQUALS] + v, rest, [], entries);
      ScanWritten(order[1..], m, entries[k := v]);
    }
  }

  lemma NothingToParse()
    ensures ParseLine([]) == NoEntry
  {
  }

  lemma EntryOneLine(k: Text, v: Text)
    requires CleanKey(k) && CleanValue(v)
    ensures OneLine(k + [EQUALS] + v)
  {
  }

  lemma {:induction false} PutAllMap(entries: map<Text, Text>, order: seq<Text>, m: map<Text, Text>)
    requires forall k :: k in order ==> k in m
    ensures var r := PutAll(entries, order, m);
            && (forall k :: k in r <==> k in entries || k in order)
            && (forall k :: k in r ==> r[k] == if k in order then m[k] else entries[k])
    decreases |order|
  {
    if order != [] {
      PutAllMap(entries[order[0] := m[order[0]]], order[1..], m);
      assert forall k :: k in order <==> k == order[0] || k in order[1..];
    }
  }

  /** A map is read back from what was written for it, in whatever order, exactly when it is clean. */
  lemma RoundTripIffClean(order: seq<Text>, m: map<Text, Text>)
    requires Enumerates(order, m)
    ensures ReadText(WriteText(order, m)) == m <==> Clean(m)
  {
    ReadClean(WriteText(order, m));
    if Clean(m) {
      ScanWritten(order, m, map[]);
      PutAllMap(map[], order, m);
    }
  }

  /** A map that does not come back: its key starts a comment. */
  lemma CommentKeyLost()
    ensures var m: map<Text, Text> := map[[HASH] := []];
            Enumerates([[HASH]], m) && !Clean(m) && ReadText(WriteText([[HASH]], m)) != m
  {
    var m: map<Text, Text> := map[[HASH] := []];
    assert [HASH] in m && !CleanKey([HASH]);
    RoundTripIffClean([[HASH]], m);
  }

  /** Reading, writing and reading again gives what the first reading gave, for every text. */
  lemma ReadWriteRead(t: Text, order: seq<Text>)
    requires Enumerates(order, ReadText(t))
    ensures ReadText(WriteText(order, ReadText(t))) == ReadText(t)
  {
    ReadClean(t);
    RoundTripIffClean(order, ReadText(t));
  }
}
