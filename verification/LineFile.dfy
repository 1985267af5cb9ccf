/** The Agent's buffer file as text: one encoded record per line.

    The reader is the source's own: text mode turns carriage returns into newlines, `splitlines` breaks at every
    line boundary it knows (not only at newlines), blank lines are passed over and lines that do not decode are
    skipped.  Encoding and decoding of a single record are the codec's business and stay abstract.
 */
module LineFile {
  import opened Model

  const NEWLINE: char := '\n'

  /** The line boundaries of Python's str.splitlines. */
  predicate Separates(c: char) {
    || c == '\n' || c == '\r' || c == '\U{0B}' || c == '\U{0C}'
    || '\U{1C}' <= c <= '\U{1E}' || c == '\U{85}' || c == '\U{2028}' || c == '\U{2029}'
  }

  /** What Python's str.strip removes. */
  predicate White(c: char) {
    || Separates(c)
    || c == '\t' || c == ' ' || c == '\U{1F}' || c == '\U{A0}' || c == '\U{1680}'
    || c == '\U{202F}' || c == '\U{205F}' || c == '\U{3000}'
    || '\U{2000}' <= c <= '\U{200A}'
  }

  predicate Blank(line: string) {
    forall i :: 0 <= i < |line| ==> White(line[i])
  }

  predicate Unbroken(line: string) {
    forall i :: 0 <= i < |line| ==> !Separates(line[i])
  }

  /** The length of the first line, separator excluded. */
  function LineLength(text: string): (n: nat)
    ensures n <= |text|
  {
    if text == [] || Separates(text[0]) then 0 else 1 + LineLength(text[1..])
  }

  lemma {:induction false} LineIsUnbroken(text: string)
    ensures var n := LineLength(text);
      Unbroken(text[..n]) && (n < |text| ==> Separates(text[n]))
  {
    if text != [] && !Separates(text[0]) {
      LineIsUnbroken(text[1..]);
      var n := LineLength(text);
      forall i | 0 <= i < n ensures !Separates(text[i]) {
        assert i > 0 ==> text[i] == text[1..][..n - 1][i - 1];
      }
    }
  }

  /** How many characters the separator that starts the text takes: "\r\n" is one boundary. */
  function SeparatorLength(text: string): nat {
    if text == [] then 0
    else if |text| > 1 && text[0] == '\r' && text[1] == '\n' then 2
    else 1
  }

  function SplitLines(text: string): seq<string>
    decreases |text|
  {
    if text == [] then [] else
    var n := LineLength(text);
    [text[..n]] + SplitLines(text[n + SeparatorLength(text[n..])..])
  }

  predicate AllUnbroken(lines: seq<string>) {
    forall i :: 0 <= i < |lines| ==> Unbroken(lines[i])
  }

  lemma {:induction false} SplitUnbroken(text: string)
    ensures AllUnbroken(SplitLines(text))
    decreases |text|
  {
    if text != [] {
      var n := LineLength(text);
      LineIsUnbroken(text);
      SplitUnbroken(text[n + SeparatorLength(text[n..])..]);
    }
  }

  /** Text mode reads "\r\n" and "\r" as "\n". */
  function Universal(text: string): (read: string)
    ensures |read| <= |text|
  {
    if text == [] then []
    else if text[0] == '\r' then [NEWLINE] + Universal(text[SeparatorLength(text)..])
    else [text[0]] + Universal(text[1..])
  }

  /** Every line followed by a newline: joined by newlines, plus a final one unless there is nothing. */
  function JoinLines(lines: seq<string>): string {
    if lines == [] then [] else lines[0] + [NEWLINE] + JoinLines(lines[1..])
  }

  /** A whole separator, not the first half of one. */
  predicate Boundary(sep: string, rest: string) {
    || sep == "\r\n"
    || (|sep| == 1 && Separates(sep[0]) && (sep[0] == '\r' && rest != [] ==> rest[0] != '\n'))
  }

  lemma BoundaryAt(tail: string)
    requires tail != [] && Separates(tail[0])
    ensures var k := SeparatorLength(tail);
      k <= |tail| && tail == tail[..k] + tail[k..] && Boundary(tail[..k], tail[k..])
  {
  }

  /** One step of the split, for a text known to start with a line and a separator. */
  lemma SplitOff(line: string, sep: string, rest: string)
    requires Unbroken(line)
    requires Boundary(sep, rest)
    ensures SplitLines(line + sep + rest) == [line] + SplitLines(rest)
  {
    var text := line + sep + rest;
    FirstLine(line, sep + rest);
    assert text == line + (sep + rest);
    assert text[|line|..] == sep + rest;
    assert text[..|line|] == line;
    assert text[|line| + |sep|..] == rest;
  }

  lemma {:induction false} FirstLine(line: string, rest: string)
    requires Unbroken(line) && (rest == [] || Separates(rest[0]))
    ensures LineLength(line + rest) == |line|
  {
    if line == [] {
      assert line + rest == rest;
    } else {
      FirstLine(line[1..], rest);
      assert (line + rest)[1..] == line[1..] + rest;
      assert (line + rest)[0] == line[0] && !Separates(line[0]);
    }
  }

  lemma Associate<T>(a: seq<T>, b: seq<T>, c: seq<T>)
    ensures a + (b + c) == a + b + c
  {
  }

  lemma JoinCons(head: string, tail: seq<string>)
    ensures JoinLines([head] + tail) == head + [NEWLINE] + JoinLines(tail)
  {
    assert ([head] + tail)[1..] == tail;
  }

  lemma SplitCons(head: string, tail: seq<string>)
    requires Unbroken(head)
    ensures SplitLines(JoinLines([head] + tail)) == [head] + SplitLines(JoinLines(tail))
  {
    JoinCons(head, tail);
    SplitOff(head, [NEWLINE], JoinLines(tail));
  }

  lemma {:induction false} SplitPrefix(clean: seq<string>, more: seq<string>)
    requires AllUnbroken(clean)
    ensures SplitLines(JoinLines(clean + more)) == clean + SplitLines(JoinLines(more))
  {
    if clean == [] {
      assert clean + more == more;
    } else {
      var head, rest := clean[0], clean[1..];
      assert clean == [head] + rest;
      Associate([head], rest, more);
      SplitCons(head, rest + more);
      SplitPrefix(rest, more);
      Associate([head], rest, SplitLines(JoinLines(more)));
    }
  }

  lemma SplitJoined(lines: seq<string>)
    requires AllUnbroken(lines)
    ensures SplitLines(JoinLines(lines)) == lines
  {
    SplitPrefix(lines, []);
    assert lines + [] == lines;
  }

  /** Joining and splitting cancel exactly when no line contains a separator. */
  lemma JoinThenSplit(lines: seq<string>)
    ensures SplitLines(JoinLines(lines)) == lines <==> AllUnbroken(lines)
  {
    SplitUnbroken(JoinLines(lines));
    if AllUnbroken(lines) {
      SplitJoined(lines);
    }
  }

  function TextModeSeparator(c: char): string {
    if c == '\r' then [NEWLINE] else [c]
  }

  /** Text mode keeps the boundary, whichever it was. */
  lemma UniversalBoundary(tail: string)
    requires tail != [] && Separates(tail[0])
    ensures var sep, rest := TextModeSeparator(tail[0]), Universal(tail[SeparatorLength(tail)..]);
      Universal(tail) == sep + rest && Boundary(sep, rest)
  {
  }

  /** Translating newlines on reading does not change what splitlines sees. */
  lemma {:induction false} UniversalUnseen(text: string)
    ensures SplitLines(Universal(text)) == SplitLines(text)
    decreases |text|
  {
    var n := LineLength(text);
    var line, tail := text[..n], text[n..];
    LineIsUnbroken(text);
    assert text == line + tail;
    UniversalPrefix(line, tail);
    if tail == [] {
      assert text == line + Universal(tail);
    } else {
      UniversalUnseen(tail[SeparatorLength(tail)..]);
      BothSplitOff(line, tail);
    }
  }

  /** Read in text mode or not, the text splits at the same place. */
  lemma BothSplitOff(line: string, tail: string)
    requires Unbroken(line) && tail != [] && Separates(tail[0])
    ensures var rest := tail[SeparatorLength(tail)..];
      && SplitLines(line + tail) == [line] + SplitLines(rest)
      && SplitLines(line + Universal(tail)) == [line] + SplitLines(Universal(rest))
  {
    var k := SeparatorLength(tail);
    BoundaryAt(tail);
    Associate(line, tail[..k], tail[k..]);
    SplitOff(line, tail[..k], tail[k..]);
    UniversalBoundary(tail);
    Associate(line, TextModeSeparator(tail[0]), Universal(tail[k..]));
    SplitOff(line, TextModeSeparator(tail[0]), Universal(tail[k..]));
  }

  lemma {:induction false} UniversalPrefix(line: string, tail: string)
    requires Unbroken(line)
    ensures Universal(line + tail) == line + Universal(tail)
  {
    if line == [] {
      assert line + tail == tail;
    } else {
      UniversalPrefix(line[1..], tail);
      assert (line + tail)[1..] == line[1..] + tail;
      assert (line + tail)[0] == line[0] && !Separates(line[0]);
    }
  }

  /** How single records become text and back; a line that is not a valid record parses to None. */
  datatype Codec<!P> = Codec(dump: P -> string, parse: string -> Option<P>)

  /** A record that survives on a line of its own. */
  predicate Keeps<P(==)>(codec: Codec<P>, record: P) {
    var line := codec.dump(record);
    Unbroken(line) && !Blank(line) && codec.parse(line) == Some(record)
  }

  predicate AllKept<P(==)>(codec: Codec<P>, records: seq<P>) {
    forall i :: 0 <= i < |records| ==> Keeps(codec, records[i])
  }

  /** What one line yields: nothing if it is blank or does not decode. */
  function Decoded<P>(codec: Codec<P>, line: string): seq<P> {
    if Blank(line) then [] else
    match codec.parse(line)
    case Some(record) => [record]
    case None => []
  }

  function Records<P>(codec: Codec<P>, lines: seq<string>): seq<P> {
    if lines == [] then [] else Decoded(codec, lines[0]) + Records(codec, lines[1..])
  }

  function Lines<P>(codec: Codec<P>, records: seq<P>): seq<string> {
    seq(|records|, i requires 0 <= i < |records| => codec.dump(records[i]))
  }

  function ReadAll<P>(codec: Codec<P>, text: string): seq<P> {
    Records(codec, SplitLines(Universal(text)))
  }

  function WriteAll<P>(codec: Codec<P>, records: seq<P>): string {
    JoinLines(Lines(codec, records))
  }

  lemma RecordsCons<P>(codec: Codec<P>, head: string, tail: seq<string>)
    ensures Records(codec, [head] + tail) == Decoded(codec, head) + Records(codec, tail)
  {
    assert ([head] + tail)[1..] == tail;
  }

  lemma {:induction false} RecordsConcat<P>(codec: Codec<P>, a: seq<string>, b: seq<string>)
    ensures Records(codec, a + b) == Records(codec, a) + Records(codec, b)
  {
    if a == [] {
      assert a + b == b;
    } else {
      assert a + b == [a[0]] + (a[1..] + b);
      RecordsCons(codec, a[0], a[1..] + b);
      RecordsConcat(codec, a[1..], b);
    }
  }

  lemma {:induction false} RecordsOfLines<P>(codec: Codec<P>, records: seq<P>)
    requires AllKept(codec, records)
    ensures Records(codec, Lines(codec, records)) == records
  {
    if records != [] {
      assert Lines(codec, records) == [codec.dump(records[0])] + Lines(codec, records[1..]);
      assert Keeps(codec, records[0]);
      RecordsCons(codec, codec.dump(records[0]), Lines(codec, records[1..]));
      RecordsOfLines(codec, records[1..]);
    }
  }

  /** The round trip of the buffer file: what was written is read back, in order. */
  lemma WriteThenRead<P>(codec: Codec<P>, records: seq<P>)
    requires AllKept(codec, records)
    ensures ReadAll(codec, WriteAll(codec, records)) == records
  {
    UniversalUnseen(WriteAll(codec, records));
    SplitJoined(Lines(codec, records));
    RecordsOfLines(codec, records);
  }

  predicate Dead<P>(codec: Codec<P>, line: string) {
    Blank(line) || codec.parse(line).None?
  }

  /** Lines interleaved with others: `mixed` is `kept` with dead lines inserted anywhere. */
  predicate Weeds<P>(codec: Codec<P>, mixed: seq<string>, kept: seq<string>) {
    if mixed == [] then kept == []
    else
      || (kept != [] && mixed[0] == kept[0] && Weeds(codec, mixed[1..], kept[1..]))
      || (Dead(codec, mixed[0]) && Weeds(codec, mixed[1..], kept))
  }

  lemma {:induction false} WeedsUnseen<P>(codec: Codec<P>, mixed: seq<string>, kept: seq<string>)
    requires Weeds(codec, mixed, kept)
    ensures Records(codec, mixed) == Records(codec, kept)
  {
    if mixed != [] {
      if kept != [] && mixed[0] == kept[0] && Weeds(codec, mixed[1..], kept[1..]) {
        WeedsUnseen(codec, mixed[1..], kept[1..]);
      } else {
        WeedsUnseen(codec, mixed[1..], kept);
      }
    }
  }

  /** Corrupt or blank lines anywhere between the records change nothing. */
  lemma CorruptLinesAreSkipped<P>(codec: Codec<P>, records: seq<P>, mixed: seq<string>)
    requires AllKept(codec, records)
    requires AllUnbroken(mixed)
    requires Weeds(codec, mixed, Lines(codec, records))
    ensures ReadAll(codec, JoinLines(mixed)) == records
  {
    UniversalUnseen(JoinLines(mixed));
    SplitJoined(mixed);
    WeedsUnseen(codec, mixed, Lines(codec, records));
    RecordsOfLines(codec, records);
  }

  // ---- Any records at all ------------------------------------------------------------------------------

  /** A newline ends the line, with the carriage return that may stand before it. */
  lemma LastLine(line: string, tail: string, after: string)
    requires Unbroken(line) && (tail == [] || tail == ['\r'])
    ensures SplitLines(line + (tail + ([NEWLINE] + after))) == [line] + SplitLines(after)
  {
    var sep := tail + [NEWLINE];
    Associate(tail, [NEWLINE], after);
    Associate(line, sep, after);
    SplitOff(line, sep, after);
  }

  /** A newline always ends a line, so what comes after it splits on its own. */
  lemma {:induction false} SplitAtNewline(before: string, after: string)
    ensures SplitLines(before + ([NEWLINE] + after)) == SplitLines(before + [NEWLINE]) + SplitLines(after)
    decreases |before|
  {
    var n := LineLength(before);
    var line, tail := before[..n], before[n..];
    LineIsUnbroken(before);
    assert before == line + tail;
    Associate(line, tail, [NEWLINE] + after);
    Associate(line, tail, [NEWLINE]);
    if tail == [] || tail == ['\r'] {
      LastLine(line, tail, after);
      LastLine(line, tail, []);
      assert [NEWLINE] + [] == [NEWLINE] && [line] + SplitLines([]) == [line];
    } else {
      var rest := tail[SeparatorLength(tail)..];
      SplitAtNewline(rest, after);
      SplitOffMore(line, tail, [NEWLINE] + after);
      SplitOffMore(line, tail, [NEWLINE]);
      Associate([line], SplitLines(rest + [NEWLINE]), SplitLines(after));
    }
  }

  /** The first line comes off in the same way whatever follows, but for a carriage return that ends the text. */
  lemma SplitOffMore(line: string, tail: string, more: string)
    requires Unbroken(line) && tail != [] && Separates(tail[0]) && tail != ['\r']
    ensures SplitLines(line + (tail + more)) == [line] + SplitLines(tail[SeparatorLength(tail)..] + more)
  {
    var k := SeparatorLength(tail);
    BoundaryAt(tail);
    Associate(tail[..k], tail[k..], more);
    Associate(line, tail[..k], tail[k..] + more);
    SplitOff(line, tail[..k], tail[k..] + more);
  }

  /** The lines a text takes up in the file. */
  function Fragments(dump: string): seq<string> {
    SplitLines(dump + [NEWLINE])
  }

  lemma CleanFragment(dump: string)
    requires Unbroken(dump)
    ensures Fragments(dump) == [dump]
  {
    assert dump + [NEWLINE] == dump + [NEWLINE] + [];
    SplitOff(dump, [NEWLINE], []);
  }

  /** What each record yields on its own, one after the other. */
  function Yield<P>(codec: Codec<P>, records: seq<P>): seq<P> {
    if records == [] then []
    else Records(codec, Fragments(codec.dump(records[0]))) + Yield(codec, records[1..])
  }

  lemma WriteOne<P>(codec: Codec<P>, records: seq<P>)
    requires records != []
    ensures SplitLines(WriteAll(codec, records))
         == Fragments(codec.dump(records[0])) + SplitLines(WriteAll(codec, records[1..]))
  {
    var dump, rest := codec.dump(records[0]), records[1..];
    assert Lines(codec, records) == [dump] + Lines(codec, rest);
    JoinCons(dump, Lines(codec, rest));
    Associate(dump, [NEWLINE], WriteAll(codec, rest));
    SplitAtNewline(dump, WriteAll(codec, rest));
  }

  /** Records do not interfere: whatever their texts contain, reading a written file yields what each of them would
      yield alone, in order. */
  lemma {:induction false} RecordsAreIndependent<P>(codec: Codec<P>, records: seq<P>)
    ensures ReadAll(codec, WriteAll(codec, records)) == Yield(codec, records)
  {
    UniversalUnseen(WriteAll(codec, records));
    if records == [] {
      assert Lines(codec, records) == [];
    } else {
      WriteOne(codec, records);
      RecordsConcat(codec, Fragments(codec.dump(records[0])), SplitLines(WriteAll(codec, records[1..])));
      UniversalUnseen(WriteAll(codec, records[1..]));
      RecordsAreIndependent(codec, records[1..]);
    }
  }

  /** The record's text is a line that is read at all. */
  predicate Survives<P>(codec: Codec<P>, record: P) {
    Unbroken(codec.dump(record)) && !Blank(codec.dump(record))
  }

  /** The codec reads back what it wrote, and no fragment of a broken text passes for a record. */
  predicate Sound<P(==)>(codec: Codec<P>, record: P) {
    && (Survives(codec, record) ==> codec.parse(codec.dump(record)) == Some(record))
    && (!Unbroken(codec.dump(record)) ==>
          forall i :: 0 <= i < |Fragments(codec.dump(record))| ==> Dead(codec, Fragments(codec.dump(record))[i]))
  }

  predicate AllSound<P(==)>(codec: Codec<P>, records: seq<P>) {
    forall i :: 0 <= i < |records| ==> Sound(codec, records[i])
  }

  function Survivors<P>(codec: Codec<P>, records: seq<P>): seq<P> {
    if records == [] then []
    else (if Survives(codec, records[0]) then [records[0]] else []) + Survivors(codec, records[1..])
  }

  /** The records a rewrite of the file loses. */
  function Torn<P>(codec: Codec<P>, records: seq<P>): seq<P> {
    if records == [] then []
    else (if Survives(codec, records[0]) then [] else [records[0]]) + Torn(codec, records[1..])
  }

  lemma {:induction false} DeadYieldsNothing<P>(codec: Codec<P>, lines: seq<string>)
    requires forall i :: 0 <= i < |lines| ==> Dead(codec, lines[i])
    ensures Records(codec, lines) == []
  {
    if lines != [] {
      DeadYieldsNothing(codec, lines[1..]);
    }
  }

  lemma SurvivorYieldsItself<P>(codec: Codec<P>, record: P)
    requires Sound(codec, record)
    ensures Records(codec, Fragments(codec.dump(record))) == if Survives(codec, record) then [record] else []
  {
    var dump := codec.dump(record);
    if Unbroken(dump) {
      CleanFragment(dump);
      RecordsCons(codec, dump, []);
      assert [dump] + [] == [dump];
    } else {
      DeadYieldsNothing(codec, Fragments(dump));
    }
  }

  /** Reading a written file gives exactly the records whose text is a non-blank line, in order; the others are lost,
      silently, and take no other with them. */
  lemma {:induction false} SurvivorsAreReadBack<P>(codec: Codec<P>, records: seq<P>)
    requires AllSound(codec, records)
    ensures ReadAll(codec, WriteAll(codec, records)) == Survivors(codec, records)
  {
    RecordsAreIndependent(codec, records);
    if records != [] {
      SurvivorYieldsItself(codec, records[0]);
      SurvivorsAreReadBack(codec, records[1..]);
      RecordsAreIndependent(codec, records[1..]);
    }
  }

  lemma {:induction false} SurvivorsAmong<P>(codec: Codec<P>, records: seq<P>)
    ensures |Survivors(codec, records)| <= |records|
    ensures Survivors(codec, records) == records
      <==> forall i :: 0 <= i < |records| ==> Survives(codec, records[i])
    ensures (exists i :: 0 <= i < |records| && !Survives(codec, records[i])) ==> |Survivors(codec, records)| < |records|
  {
    if records != [] {
      SurvivorsAmong(codec, records[1..]);
      assert records == [records[0]] + records[1..];
      assert forall i :: 1 <= i < |records| ==> records[i] == records[1..][i - 1];
    }
  }

  /** The round trip succeeds exactly when every record's text is a non-blank line without separators.  (The encoder is
      JSON, which escapes the control characters but not U+0085, U+2028 and U+2029: a record with one of those in it
      is the failing case, and its fragments are no JSON.) */
  lemma RoundTripExactly<P>(codec: Codec<P>, records: seq<P>)
    requires AllSound(codec, records)
    ensures ReadAll(codec, WriteAll(codec, records)) == records
      <==> forall i :: 0 <= i < |records| ==> Survives(codec, records[i])
  {
    SurvivorsAreReadBack(codec, records);
    SurvivorsAmong(codec, records);
  }

  lemma {:induction false} SurvivorsConcat<P>(codec: Codec<P>, a: seq<P>, b: seq<P>)
    ensures Survivors(codec, a + b) == Survivors(codec, a) + Survivors(codec, b)
  {
    if a == [] {
      assert a + b == b;
    } else {
      SurvivorsConcat(codec, a[1..], b);
      assert (a + b)[1..] == a[1..] + b && (a + b)[0] == a[0];
    }
  }

  lemma {:induction false} TornConcat<P>(codec: Codec<P>, a: seq<P>, b: seq<P>)
    ensures Torn(codec, a + b) == Torn(codec, a) + Torn(codec, b)
  {
    if a == [] {
      assert a + b == b;
    } else {
      TornConcat(codec, a[1..], b);
      assert (a + b)[1..] == a[1..] + b && (a + b)[0] == a[0];
    }
  }

  lemma SurvivorsWithout<P>(codec: Codec<P>, before: seq<P>, record: P, after: seq<P>)
    requires !Survives(codec, record)
    ensures Survivors(codec, before + ([record] + after)) == Survivors(codec, before + after)
  {
    SurvivorsConcat(codec, before, [record] + after);
    SurvivorsConcat(codec, before, after);
    assert ([record] + after)[1..] == after;
  }

  lemma MultisetSplit<P>(head: P, tail: seq<P>, kept: seq<P>, lost: seq<P>, keeps: bool)
    requires multiset(kept) + multiset(lost) == multiset(tail)
    ensures var one := [head];
      multiset((if keeps then one else []) + kept) + multiset((if keeps then [] else one) + lost)
      == multiset([head] + tail)
  {
  }

  /** A rewrite keeps or loses each record. */
  lemma {:induction false} SurvivorsAndTorn<P>(codec: Codec<P>, records: seq<P>)
    ensures multiset(Survivors(codec, records)) + multiset(Torn(codec, records)) == multiset(records)
  {
    if records != [] {
      var head, tail := records[0], records[1..];
      SurvivorsAndTorn(codec, tail);
      MultisetSplit(head, tail, Survivors(codec, tail), Torn(codec, tail), Survives(codec, head));
      assert records == [head] + tail;
    }
  }

  lemma {:induction false} SurvivorsSurvive<P>(codec: Codec<P>, records: seq<P>)
    ensures AllSurvive(codec, Survivors(codec, records)) && AllBroken(codec, Torn(codec, records))
  {
    if records != [] {
      SurvivorsSurvive(codec, records[1..]);
    }
  }

  predicate AllBroken<P>(codec: Codec<P>, records: seq<P>) {
    forall i :: 0 <= i < |records| ==> !Survives(codec, records[i])
  }

  predicate AllSurvive<P>(codec: Codec<P>, records: seq<P>) {
    forall i :: 0 <= i < |records| ==> Survives(codec, records[i])
  }

  lemma {:induction false} NothingTorn<P>(codec: Codec<P>, records: seq<P>)
    requires AllSurvive(codec, records)
    ensures Survivors(codec, records) == records && Torn(codec, records) == []
  {
    if records != [] {
      NothingTorn(codec, records[1..]);
    }
  }

  /** A rewrite with one more record. */
  lemma {:induction false} OneMoreWritten<P>(codec: Codec<P>, records: seq<P>, record: P)
    requires AllSurvive(codec, records)
    ensures Survivors(codec, records + [record]) == records + (if Survives(codec, record) then [record] else [])
    ensures Torn(codec, records + [record]) == if Survives(codec, record) then [] else [record]
  {
    var all := records + [record];
    if records == [] {
      assert all == [record];
    } else {
      OneMoreWritten(codec, records[1..], record);
      assert all[1..] == records[1..] + [record];
    }
  }

  /** Whatever else is in the buffer, a record broken by separators is gone, and only that one. */
  lemma BrokenRecordIsLost<P>(codec: Codec<P>, before: seq<P>, record: P, after: seq<P>)
    requires AllSound(codec, before + ([record] + after)) && !Survives(codec, record)
    ensures ReadAll(codec, WriteAll(codec, before + ([record] + after))) == ReadAll(codec, WriteAll(codec,
        before + after))
  {
    var all, others := before + ([record] + after), before + after;
    assert forall i :: 0 <= i < |others| ==> others[i] == all[if i < |before| then i else i + 1];
    SurvivorsAreReadBack(codec, all);
    SurvivorsAreReadBack(codec, others);
    SurvivorsWithout(codec, before, record, after);
  }
}
