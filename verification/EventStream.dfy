/** The first data event of a server-sent event stream, as both Snowcat clients read it. */
module EventStream {
  import opened Prelude
  import opened Texts

  const DATA := "data:"

  // ---- The clients' reading ---------------------------------------------------------------------

  function UnixLines(s: string): string
    decreases |s|
  {
    if s == "" then ""
    else if |s| > 1 && s[0] == '\r' && s[1] == '\n' then "\n" + UnixLines(s[2..])
    else [s[0]] + UnixLines(s[1..])
  }

  function DataOf(line: string): string
    requires HasPrefix(line, DATA)
  {
    var value := line[|DATA|..];
    if HasPrefix(value, " ") then value[1..] else value
  }

  /** What the lines yield, given the data lines before them; the end of the input ends an event, too. */
  function Scan(lines: seq<string>, data: seq<string>): Option<string> {
    if lines == [] then (if data != [] then Some(Join(data, '\n')) else None)
    else if lines[0] == "" then (if data != [] then Some(Join(data, '\n')) else Scan(lines[1..], data))
    else if HasPrefix(lines[0], DATA) then Scan(lines[1..], data + [DataOf(lines[0])])
    else Scan(lines[1..], data)
  }

  function FirstData(payload: string): Option<string> { Scan(Split(UnixLines(payload), '\n'), []) }

  method FirstSseData(payload: string) returns (r: Option<string>)
    ensures r == FirstData(payload)
  {
    var lines := Split(UnixLines(payload), '\n');
    var data := [];
    var i := 0;
    while i < |lines|
      invariant 0 <= i <= |lines|
      invariant FirstData(payload) == Scan(lines[i..], data)
    {
      var line := lines[i];
      assert lines[i..][1..] == lines[i + 1..];
      if line == "" {
        if data != [] {
          return Some(Join(data, '\n'));
        }
      } else if HasPrefix(line, DATA) {
        data := data + [DataOf(line)];
      }
      i := i + 1;
    }
    r := if data != [] then Some(Join(data, '\n')) else None;
  }

  // ---- The standard's reading: section 9.2.6 of the WHATWG HTML Standard ---------------------------

  /** The complete lines, each ended by CR LF, LF or CR; `current` is the line begun so far. */
  function StandardLines(s: string, current: string): seq<string>
    decreases |s|
  {
    if s == "" then []
    else if s[0] == '\n' then [current] + StandardLines(s[1..], "")
    else if s[0] == '\r' then
      if |s| > 1 && s[1] == '\n' then [current] + StandardLines(s[2..], "") else [current] + StandardLines(s[1..], "")
    else StandardLines(s[1..], current + [s[0]])
  }

  /** A line's field name and value; a line without a colon is a name alone, a comment has an empty name. */
  function Field(line: string): (string, string) {
    var k := IndexOf(line, ':');
    if k == |line| then (line, "")
    else
      var value := line[k + 1..];
      (line[..k], if HasPrefix(value, " ") then value[1..] else value)
  }

  /** The data of the first event dispatched. */
  function Dispatch(lines: seq<string>, buffer: string): Option<string> {
    if lines == [] then None
    else if lines[0] == "" then (if buffer != "" then Some(Front(buffer)) else Dispatch(lines[1..], ""))
    else if Field(lines[0]).0 == "data" then Dispatch(lines[1..], buffer + Field(lines[0]).1 + "\n")
    else Dispatch(lines[1..], buffer)
  }

  function StandardData(s: string): Option<string> {
    var body := if s != "" && s[0] == '\U{FEFF}' then s[1..] else s;
    Dispatch(StandardLines(body, ""), "")
  }

  // ---- Where they agree -------------------------------------------------------------------------------

  /** The standard's data buffer after these data lines. */
  function Buffer(data: seq<string>): string {
    if data == [] then "" else Join(data, '\n') + "\n"
  }

  lemma {:induction false} JoinMore(data: seq<string>, x: string)
    requires data != []
    ensures Join(data + [x], '\n') == Join(data, '\n') + "\n" + x
  {
    if |data| > 1 {
      JoinMore(data[1..], x);
      assert (data + [x])[1..] == data[1..] + [x];
    } else {
      assert (data + [x])[1..] == [x];
    }
  }

  lemma BufferMore(data: seq<string>, x: string)
    ensures Buffer(data + [x]) == Buffer(data) + x + "\n"
  {
    if data != [] {
      JoinMore(data, x);
    } else {
      assert data + [x] == [x];
    }
  }

  /** A line carries data for both in the same cases, a bare field name aside, and then the same data. */
  lemma SameField(line: string)
    requires line != "data"
    ensures HasPrefix(line, DATA) <==> Field(line).0 == "data"
    ensures HasPrefix(line, DATA) ==> Field(line).1 == DataOf(line)
  {
    var k := IndexOf(line, ':');
    assert line == line[..k] + line[k..];
    if HasPrefix(line, DATA) {
      assert line == "data" + ":" + line[5..];
      IndexAfter("data", ':', line[5..]);
    }
  }

  lemma EmptyBuffer()
    ensures Buffer([]) == ""
  {
  }

  /** Some line among these is data, counting the data already seen. */
  predicate AnyData(lines: seq<string>, data: seq<string>) {
    data != [] || exists line <- lines :: HasPrefix(line, DATA)
  }

  /** A data line is followed by a blank one. */
  predicate Ended(lines: seq<string>, data: seq<string>) {
    lines != [] &&
    if lines[0] == "" then data != [] || Ended(lines[1..], data)
    else Ended(lines[1..], if HasPrefix(lines[0], DATA) then data + [DataOf(lines[0])] else data)
  }

  /** The standard dispatches exactly the events a blank line ends, and its clients read those alike. */
  lemma {:induction false} DispatchIsScanWhenEnded(lines: seq<string>, last: string, data: seq<string>)
    requires "data" !in lines && last != "data"
    ensures Ended(lines, data) ==> Dispatch(lines, Buffer(data)) == Scan(lines + [last], data)
                                   && Scan(lines + [last], data).Some?
    ensures !Ended(lines, data) ==> Dispatch(lines, Buffer(data)) == None
    ensures !Ended(lines, data) ==> (Scan(lines + [last], data).Some? <==> AnyData(lines + [last], data))
  {
    if lines != [] {
      var rest := lines[1..];
      assert (lines + [last])[1..] == rest + [last];
      assert forall line :: line in lines + [last] <==> line == lines[0] || line in rest + [last];
      SameField(lines[0]);
      if lines[0] != "" && HasPrefix(lines[0], DATA) {
        BufferMore(data, DataOf(lines[0]));
        DispatchIsScanWhenEnded(rest, last, data + [DataOf(lines[0])]);
      } else if lines[0] != "" || data == [] {
        DispatchIsScanWhenEnded(rest, last, data);
      }
    } else {
      assert [last][1..] == [];
    }
  }

  lemma {:induction false} UnixLinesStay(s: string)
    requires forall i | 0 <= i < |s| - 1 :: s[i] == '\r' ==> s[i + 1] != '\n'
    ensures UnixLines(s) == s
  {
    if s != "" {
      UnixLinesStay(s[1..]);
    }
  }

  lemma {:induction false} StandardLinesAreSplit(s: string, current: string)
    requires '\r' !in s && '\n' !in current
    ensures StandardLines(s, current) == Front(Split(current + s, '\n'))
    decreases |s|
  {
    if s == "" {
      SplitAtSeparator(current, '\n', "");
      assert current + s == current;
    } else if s[0] == '\n' {
      StandardLinesAreSplit(s[1..], "");
      SplitAtSeparator(current, '\n', s[1..]);
      assert current + s == current + "\n" + s[1..] && "" + s[1..] == s[1..];
    } else {
      StandardLinesAreSplit(s[1..], current + [s[0]]);
      assert current + [s[0]] + s[1..] == current + s;
    }
  }

  /** The event is cut off by the end of the input, before any blank line. */
  predicate CutOff(s: string) {
    var lines := Split(s, '\n');
    AnyData(lines, []) && !Ended(Front(lines), [])
  }

  /**
   On a stream without carriage returns, byte-order mark or bare "data" line, the clients agree with the
   standard exactly when the first data event is not cut off: the standard discards such an event, the
   clients return it.
   */
  lemma AgreesExactlyWhenNotCutOff(s: string)
    requires '\r' !in s && "data" !in Split(s, '\n') && (s != "" ==> s[0] != '\U{FEFF}')
    ensures FirstData(s) == StandardData(s) <==> !CutOff(s)
    ensures CutOff(s) ==> StandardData(s) == None && FirstData(s).Some?
  {
    hide Scan, Dispatch, UnixLines, StandardLines, Split, Ended, AnyData, Buffer;
    var lines := Split(s, '\n');
    UnixLinesStay(s);
    StandardLinesAreSplit(s, "");
    assert Buffer([]) == "" by { EmptyBuffer(); }
    assert "" + s == s;
    assert Front(lines) + [Last(lines)] == lines;
    assert forall line <- Front(lines) :: line in lines;
    DispatchIsScanWhenEnded(Front(lines), Last(lines), []);
  }

  /** The same stream with every line ended by carriage return and line feed. */
  function CrLf(s: string): string {
    if s == "" then "" else (if s[0] == '\n' then "\r\n" else [s[0]]) + CrLf(s[1..])
  }

  lemma {:induction false} CrLfLines(s: string, current: string)
    requires '\r' !in s
    ensures UnixLines(CrLf(s)) == s && StandardLines(CrLf(s), current) == StandardLines(s, current)
    decreases |s|
  {
    if s != "" {
      var rest := CrLf(s[1..]);
      CrLfLines(s[1..], if s[0] == '\n' then "" else current + [s[0]]);
      if s[0] == '\n' {
        assert CrLf(s) == "\r\n" + rest && CrLf(s)[2..] == rest;
      } else {
        assert CrLf(s) == [s[0]] + rest && CrLf(s)[1..] == rest;
      }
    }
  }

  /** How its lines end makes no difference: neither reading changes, so all of the above holds of such streams. */
  lemma CrLfReadsTheSame(s: string)
    requires '\r' !in s && (s != "" ==> s[0] != '\U{FEFF}')
    ensures FirstData(CrLf(s)) == FirstData(s) && StandardData(CrLf(s)) == StandardData(s)
  {
    CrLfLines(s, "");
    UnixLinesStay(s);
    hide UnixLines, StandardLines, Scan, Dispatch;
    assert s != "" ==> CrLf(s) != "" && CrLf(s)[0] != '\U{FEFF}';
  }

  // ---- Encoding -------------------------------------------------------------------------------------------

  function DataLines(parts: seq<string>): seq<string> {
    seq(|parts|, i requires 0 <= i < |parts| => "data: " + parts[i])
  }

  /** Any comments and other fields, then a payload line by line, then a blank line. */
  function Encode(before: seq<string>, payload: string): seq<string> {
    before + DataLines(Split(payload, '\n')) + [""]
  }

  predicate IsOtherLine(line: string) {
    line != "" && line != "data" && !HasPrefix(line, DATA) && '\n' !in line && '\r' !in line
  }

  lemma {:induction false} ScanSkips(before: seq<string>, lines: seq<string>)
    requires forall line <- before :: IsOtherLine(line)
    ensures Scan(before + lines, []) == Scan(lines, [])
  {
    if before == [] {
      assert before + lines == lines;
    } else {
      ScanSkips(before[1..], lines);
      assert (before + lines)[1..] == before[1..] + lines && (before + lines)[0] == before[0];
      assert IsOtherLine(before[0]);
    }
  }

  lemma {:induction false} ScanCollects(parts: seq<string>, after: seq<string>, data: seq<string>)
    requires parts != [] || data != []
    ensures Scan(DataLines(parts) + [""] + after, data) == Some(Join(data + parts, '\n'))
    decreases |parts|
  {
    var lines := DataLines(parts) + [""] + after;
    if parts == [] {
      assert data + parts == data && lines[0] == "";
    } else {
      assert lines[0] == "data: " + parts[0] && HasPrefix(lines[0], DATA);
      assert DataOf(lines[0]) == parts[0];
      assert lines[1..] == DataLines(parts[1..]) + [""] + after;
      ScanCollects(parts[1..], after, data + [parts[0]]);
      assert data + [parts[0]] + parts[1..] == data + parts;
    }
  }

  predicate IsLine(line: string) { '\n' !in line && '\r' !in line }

  predicate StartsWithMark(lines: seq<string>) {
    lines != [] && lines[0] != "" && lines[0][0] == '\U{FEFF}'
  }

  /** The lines of an encoding, cut at line feeds, are its lines again, and none is a bare field name. */
  lemma EncodedLines(before: seq<string>, payload: string, after: seq<string>)
    requires '\r' !in payload && forall line <- before :: IsOtherLine(line)
    requires after != [] && forall line <- after :: IsLine(line)
    ensures var lines := Encode(before, payload) + after;
            var s := Join(lines, '\n');
            Split(s, '\n') == lines && '\r' !in s && ("data" !in after ==> "data" !in lines)
  {
    var parts := Split(payload, '\n');
    var lines := Encode(before, payload) + after;
    JoinSplit(payload, '\n');
    PartsAreWithin(payload, '\n', '\r');
    hide Split, Join;
    forall line <- lines ensures IsLine(line) && (line == "data" ==> line in after) {
      if line !in before && line !in after && line != "" {
        var i :| 0 <= i < |parts| && DataLines(parts)[i] == line;
        assert parts[i] in parts && line[4] == ':';
      }
    }
    SplitJoin(lines, '\n');
    JoinHasNo(lines, '\n', '\r');
  }

  /** The first event of an encoded payload is the payload, whatever comes before it and after it. */
  lemma EncodedReadsBack(before: seq<string>, payload: string, after: seq<string>)
    requires '\r' !in payload && forall line <- before :: IsOtherLine(line)
    requires after != [] && forall line <- after :: IsLine(line)
    ensures FirstData(Join(Encode(before, payload) + after, '\n')) == Some(payload)
  {
    hide Scan, UnixLines, Split, Join;
    var parts := Split(payload, '\n');
    var lines := Encode(before, payload) + after;
    EncodedLines(before, payload, after);
    UnixLinesStay(Join(lines, '\n'));
    assert lines == before + (DataLines(parts) + [""] + after);
    ScanSkips(before, DataLines(parts) + [""] + after);
    ScanCollects(parts, after, []);
    JoinSplit(payload, '\n');
    assert [] + parts == parts;
  }

  lemma {:induction false} JoinHasNo(parts: seq<string>, sep: char, c: char)
    requires c != sep && forall p <- parts :: c !in p
    ensures c !in Join(parts, sep)
  {
    if |parts| > 1 {
      JoinHasNo(parts[1..], sep, c);
    }
  }

  lemma {:induction false} PartsAreWithin(s: string, sep: char, c: char)
    requires c !in s
    ensures forall p <- Split(s, sep) :: c !in p
  {
    if s != "" {
      PartsAreWithin(s[1..], sep, c);
      var rest := Split(s[1..], sep);
      assert rest[0] in rest && forall p <- rest[1..] :: p in rest;
    }
  }

  /** The standard reads it back, too. */
  lemma EncodedAgrees(before: seq<string>, payload: string, after: seq<string>)
    requires '\r' !in payload && forall line <- before :: IsOtherLine(line)
    requires !StartsWithMark(before)
    requires after != [] && "data" !in after && forall line <- after :: IsLine(line)
    ensures var s := Join(Encode(before, payload) + after, '\n');
            StandardData(s) == FirstData(s) == Some(payload)
  {
    hide Scan, UnixLines, Split, Join, Ended, FirstData, StandardData, AnyData;
    var parts := Split(payload, '\n');
    var lines := Encode(before, payload) + after;
    var s := Join(lines, '\n');
    EncodedReadsBack(before, payload, after);
    EncodedLines(before, payload, after);
    EncodedEnds(before, parts, Front(after), []);
    assert Front(lines) == before + (DataLines(parts) + [""] + Front(after));
    assert lines[0] == if before != [] then before[0] else "data: " + parts[0];
    assert before != [] ==> IsOtherLine(before[0]);
    JoinStarts(lines, '\n');
    AgreesExactlyWhenNotCutOff(s);
  }

  lemma JoinStarts(parts: seq<string>, sep: char)
    requires parts != [] && parts[0] != ""
    ensures Join(parts, sep) != "" && Join(parts, sep)[0] == parts[0][0]
  {
  }

  lemma {:induction false} EncodedEnds(before: seq<string>, parts: seq<string>, after: seq<string>, data: seq<string>)
    requires forall line <- before :: IsOtherLine(line)
    requires parts != [] || data != []
    ensures Ended(before + (DataLines(parts) + [""] + after), data)
    decreases |before| + |parts|
  {
    var lines := before + (DataLines(parts) + [""] + after);
    if before != [] {
      EncodedEnds(before[1..], parts, after, data);
      assert IsOtherLine(before[0]) && lines[0] == before[0];
      assert lines[1..] == before[1..] + (DataLines(parts) + [""] + after);
    } else if parts != [] {
      assert lines[0] == "data: " + parts[0] && HasPrefix(lines[0], DATA);
      EncodedEnds([], parts[1..], after, data + [DataOf(lines[0])]);
      assert lines[1..] == [] + (DataLines(parts[1..]) + [""] + after);
    } else {
      assert lines[0] == "";
    }
  }

  lemma {:induction false} LineEndsAt(a: string, c: char, rest: string, current: string)
    requires IsLine(a) && (c == '\n' || (c == '\r' && (rest == "" || rest[0] != '\n')))
    ensures StandardLines(a + [c] + rest, current) == [current + a] + StandardLines(rest, "")
    decreases |a|
  {
    var s := a + [c] + rest;
    if a == "" {
      assert s[1..] == rest && current + a == current;
    } else {
      LineEndsAt(a[1..], c, rest, current + [a[0]]);
      assert s[1..] == a[1..] + [c] + rest;
      assert current + [a[0]] + a[1..] == current + a;
    }
  }

  function TwoData(a: string, b: string): string {
    ("data:" + a) + "\r" + (("data:" + b) + "\n" + "\n")
  }

  lemma StandardLinesOfTwo(a: string, b: string)
    requires IsLine(a) && IsLine(b)
    ensures StandardLines(TwoData(a, b), "") == ["data:" + a, "data:" + b, ""]
  {
    var x, y := "data:" + a, "data:" + b;
    LineEndsAt(x, '\r', y + "\n" + "\n", "");
    LineEndsAt(y, '\n', "\n", "");
    assert "" + x == x && "" + y == y;
    assert "\n"[1..] == "";
    assert StandardLines("\n", "") == [""] + StandardLines("", "");
  }

  lemma ClientLinesOfTwo(a: string, b: string)
    requires IsLine(a) && IsLine(b)
    ensures Split(UnixLines(TwoData(a, b)), '\n') == ["data:" + a + "\r" + "data:" + b, "", ""]
  {
    hide UnixLines, Split;
    var line, s := "data:" + a + "\r" + "data:" + b, TwoData(a, b);
    UnixLinesStay(s);
    assert s == line + "\n" + "\n";
    SplitAtSeparator(line, '\n', "\n");
    SplitAtSeparator("", '\n', "");
    assert "" + ['\n'] + "" == "\n";
  }

  /** A lone carriage return ends a line for the standard but not for the clients. */
  lemma LoneReturnsDiffer(a: string, b: string)
    requires IsLine(a) && IsLine(b) && !HasPrefix(a, " ") && !HasPrefix(b, " ")
    ensures StandardData(TwoData(a, b)) == Some(a + "\n" + b)
    ensures FirstData(TwoData(a, b)) == Some(a + "\r" + "data:" + b)
  {
    var x, y, line := "data:" + a, "data:" + b, "data:" + a + "\r" + "data:" + b;
    StandardLinesOfTwo(a, b);
    ClientLinesOfTwo(a, b);
    hide StandardLines, Split, UnixLines;
    SameField(x);
    SameField(y);
    var value := a + "\r" + "data:" + b;
    assert line[|DATA|..] == value && value[..1] == [value[0]] && value[0] == if a != "" then a[0] else '\r';
    assert a != "" ==> a[..1] == [a[0]] && a[0] != ' ';
    assert DataOf(x) == a && DataOf(y) == b && DataOf(line) == a + "\r" + "data:" + b;
    hide Field, DataOf;
    assert [x, y, ""][1..] == [y, ""] && [y, ""][1..] == [""];
    assert Dispatch([x, y, ""], "") == Dispatch([y, ""], "" + a + "\n") == Dispatch([""], "" + a + "\n" + b + "\n");
    assert TwoData(a, b)[0] == 'd';
    assert "" + a + "\n" + b + "\n" == (a + "\n" + b) + "\n";
    assert [line, "", ""][1..] == ["", ""];
    assert Scan([line, "", ""], []) == Scan(["", ""], [] + [DataOf(line)]);
  }

  /** An event cut off by the end of the stream is none for the standard, and data for the clients. */
  lemma CutOffEventsDiffer(a: string)
    requires IsLine(a) && !HasPrefix(a, " ")
    ensures StandardData("data:" + a) == None && FirstData("data:" + a) == Some(a)
  {
    var s := "data:" + a;
    UnixLinesStay(s);
    StandardLinesAreSplit(s, "");
    SplitAtSeparator(s, '\n', "");
    assert "" + s == s && s[0] == 'd';
    assert DataOf(s) == a by {
      assert s[|DATA|..] == a;
    }
    assert Scan([s], []) == Scan([s][1..], [] + [DataOf(s)]);
  }
}
