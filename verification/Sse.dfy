/** Server-Sent Events: what the server prints, and the console's incremental parser (sse.ts).

    The reference it is compared with is the line-by-line interpretation of an event stream in
    section 9.2.6 of the WHATWG HTML Standard. */
module Sse {
  datatype Message = Message(event: string, data: string)

  // --------------------------------------------------------------- line endings

  function CrLfToLf(s: string): string {
    if |s| == 0 then ""
    else if |s| >= 2 && s[0] == '\r' && s[1] == '\n' then "\n" + CrLfToLf(s[2..])
    else [s[0]] + CrLfToLf(s[1..])
  }

  function CrToLf(s: string): string {
    seq(|s|, i requires 0 <= i < |s| => if s[i] == '\r' then '\n' else s[i])
  }

  function Normalize(s: string): string {
    CrToLf(CrLfToLf(s))
  }

  predicate NoCr(s: string) {
    forall i :: 0 <= i < |s| ==> s[i] != '\r'
  }

  predicate EndsInCr(s: string) {
    |s| > 0 && s[|s| - 1] == '\r'
  }

  /** A cut that falls between a CR and its LF. */
  predicate CutsCrLf(a: string, b: string) {
    EndsInCr(a) && |b| > 0 && b[0] == '\n'
  }

  lemma NormalizedHasNoCr(s: string)
    ensures NoCr(Normalize(s))
  {
  }

  lemma {:induction false} NothingToNormalize(s: string)
    requires NoCr(s)
    ensures CrLfToLf(s) == s && Normalize(s) == s
  {
    if |s| > 0 {
      NothingToNormalize(s[1..]);
    }
  }

  lemma CrLfStep(s: string)
    ensures |s| == 0 ==> CrLfToLf(s) == ""
    ensures |s| >= 2 && s[0] == '\r' && s[1] == '\n' ==> CrLfToLf(s) == "\n" + CrLfToLf(s[2..])
    ensures |s| > 0 && !(|s| >= 2 && s[0] == '\r' && s[1] == '\n') ==> CrLfToLf(s) == [s[0]] + CrLfToLf(s[1..])
  {
  }

  lemma {:induction false} CrLfConcat(a: string, b: string)
    requires !CutsCrLf(a, b)
    ensures CrLfToLf(a + b) == CrLfToLf(a) + CrLfToLf(b)
  {
    hide CrLfToLf;
    if |a| == 0 {
      assert a + b == b;
      CrLfStep(a);
    } else if |a| >= 2 && a[0] == '\r' && a[1] == '\n' {
      CrLfConcat(a[2..], b);
      CrLfStep(a);
      CrLfStep(a + b);
      assert (a + b)[2..] == a[2..] + b;
      assert "\n" + (CrLfToLf(a[2..]) + CrLfToLf(b)) == "\n" + CrLfToLf(a[2..]) + CrLfToLf(b);
    } else {
      CrLfConcat(a[1..], b);
      CrLfStep(a);
      CrLfStep(a + b);
      assert (a + b)[1..] == a[1..] + b;
      assert [a[0]] + (CrLfToLf(a[1..]) + CrLfToLf(b)) == [a[0]] + CrLfToLf(a[1..]) + CrLfToLf(b);
    }
  }

  lemma NormalizeConcat(a: string, b: string)
    requires !CutsCrLf(a, b)
    ensures Normalize(a + b) == Normalize(a) + Normalize(b)
  {
    CrLfConcat(a, b);
  }

  // ---------------------------------------------------------- blocks, lines, fields

  predicate BlankAt(s: string, i: nat) {
    i + 1 < |s| && s[i] == '\n' && s[i + 1] == '\n'
  }

  function FirstBlank(s: string): (i: nat)
    ensures i <= |s|
    ensures i < |s| ==> BlankAt(s, i)
    ensures forall j :: 0 <= j < i ==> !BlankAt(s, j)
  {
    if |s| < 2 then |s|
    else if s[0] == '\n' && s[1] == '\n' then 0
    else
      var i := FirstBlank(s[1..]);
      assert forall j :: 1 <= j < 1 + i ==> (BlankAt(s, j) <==> BlankAt(s[1..], j - 1));
      1 + i
  }

  /** Cutting at every "\n\n", left to right; what follows the last of them is `rest`. */
  datatype Cut = Cut(blocks: seq<string>, rest: string)

  function Split(s: string): Cut
    decreases |s|
  {
    var i := FirstBlank(s);
    if i == |s| then Cut([], s)
    else
      var tail := Split(s[i + 2..]);
      Cut([s[..i]] + tail.blocks, tail.rest)
  }

  function FirstOf(s: string, c: char): (i: nat)
    ensures i <= |s|
    ensures i < |s| ==> s[i] == c
    ensures forall j :: 0 <= j < i ==> s[j] != c
  {
    if |s| == 0 || s[0] == c then 0 else 1 + FirstOf(s[1..], c)
  }

  function Lines(s: string): (lines: seq<string>)
    ensures |lines| > 0
    decreases |s|
  {
    var i := FirstOf(s, '\n');
    if i == |s| then [s] else [s[..i]] + Lines(s[i + 1..])
  }

  datatype Field = Field(name: string, value: string)

  function WithoutSpace(s: string): string {
    if |s| > 0 && s[0] == ' ' then s[1..] else s
  }

  function FieldOf(line: string): Field {
    var colon := FirstOf(line, ':');
    if colon == |line| then Field(line, "") else Field(line[..colon], WithoutSpace(line[colon + 1..]))
  }

  predicate Ignored(line: string) {
    line == "" || line[0] == ':'
  }

  /** The last event name among the lines. */
  function NameIn(lines: seq<string>, otherwise: string): string {
    if |lines| == 0 then otherwise
    else
      var line := lines[|lines| - 1];
      if !Ignored(line) && FieldOf(line).name == "event" then FieldOf(line).value
      else NameIn(lines[..|lines| - 1], otherwise)
  }

  function DataIn(lines: seq<string>): seq<string> {
    if |lines| == 0 then []
    else
      var before, line := DataIn(lines[..|lines| - 1]), lines[|lines| - 1];
      if !Ignored(line) && FieldOf(line).name == "data" then before + [FieldOf(line).value] else before
  }

  function Joined(data: seq<string>): string {
    if |data| == 0 then ""
    else if |data| == 1 then data[0]
    else Joined(data[..|data| - 1]) + "\n" + data[|data| - 1]
  }

  function MessagesOf(block: string): seq<Message> {
    var lines := Lines(block);
    if |DataIn(lines)| == 0 then [] else [Message(NameIn(lines, "message"), Joined(DataIn(lines)))]
  }

  function AllMessages(blocks: seq<string>): seq<Message> {
    if |blocks| == 0 then [] else AllMessages(blocks[..|blocks| - 1]) + MessagesOf(blocks[|blocks| - 1])
  }

  datatype Parse = Parse(messages: seq<Message>, rest: string)

  function ParsedLf(s: string): Parse {
    Parse(AllMessages(Split(s).blocks), Split(s).rest)
  }

  function Parsed(buffer: string): Parse {
    ParsedLf(Normalize(buffer))
  }

  // ----------------------------------------------------------------------- parseSse

  method JoinLines(data: seq<string>) returns (text: string)
    ensures text == Joined(data)
  {
    text := "";
    for i := 0 to |data|
      invariant text == Joined(data[..i])
    {
      assert data[..i + 1][..i] == data[..i];
      if i > 0 {
        text := text + "\n";
      }
      text := text + data[i];
    }
    assert data[..|data|] == data;
  }

  /** The loop over the lines of one block. */
  method ReadBlock(block: string) returns (event: string, data: seq<string>)
    ensures event == NameIn(Lines(block), "message") && data == DataIn(Lines(block))
  {
    hide FieldOf, Lines;
    event, data := "message", [];
    var lines := Lines(block);
    for k := 0 to |lines|
      invariant event == NameIn(lines[..k], "message") && data == DataIn(lines[..k])
    {
      assert lines[..k + 1][..k] == lines[..k];
      var line := lines[k];
      if line != "" && line[0] != ':' {
        var field := FieldOf(line);
        if field.name == "event" {
          event := field.value;
        } else if field.name == "data" {
          data := data + [field.value];
        }
      }
    }
    assert lines[..|lines|] == lines;
  }

  method ParseSse(buffer: string) returns (events: seq<Message>, rest: string)
    ensures Parse(events, rest) == Parsed(buffer)
  {
    hide Split, Normalize, Lines, NameIn, DataIn, Joined;
    var cut := Split(Normalize(buffer));
    var blocks := cut.blocks;
    rest := cut.rest;
    events := [];
    for b := 0 to |blocks|
      invariant events == AllMessages(blocks[..b])
    {
      assert blocks[..b + 1][..b] == blocks[..b];
      var event, data := ReadBlock(blocks[b]);
      if |data| > 0 {
        var text := JoinLines(data);
        events := events + [Message(event, text)];
      }
    }
    assert blocks[..|blocks|] == blocks;
  }

  // ------------------------------------------------------------------------- chunks

  lemma FirstBlankIs(s: string, i: nat)
    requires BlankAt(s, i) && forall j :: 0 <= j < i ==> !BlankAt(s, j)
    ensures FirstBlank(s) == i
  {
  }

  lemma SplitStep(s: string)
    ensures var i := FirstBlank(s);
            Split(s) == if i == |s| then Cut([], s)
                        else Cut([s[..i]] + Split(s[i + 2..]).blocks, Split(s[i + 2..]).rest)
  {
    hide FirstBlank, BlankAt;
  }

  lemma FirstBlankInPrefix(a: string, b: string)
    requires FirstBlank(a) < |a|
    ensures FirstBlank(a + b) == FirstBlank(a)
  {
    var i := FirstBlank(a);
    forall j | 0 <= j < i ensures !BlankAt(a + b, j) {
      assert !BlankAt(a, j);
    }
    assert BlankAt(a, i);
    FirstBlankIs(a + b, i);
  }

  lemma {:induction false} SplitJoins(a: string, b: string)
    ensures var more := Split(Split(a).rest + b);
            Split(a + b) == Cut(Split(a).blocks + more.blocks, more.rest)
    decreases |a|
  {
    hide Split, FirstBlank;
    var i := FirstBlank(a);
    SplitStep(a);
    if i < |a| {
      assert BlankAt(a, i);
      var tail, more := Split(a[i + 2..]), Split(Split(a).rest + b);
      FirstBlankInPrefix(a, b);
      SplitStep(a + b);
      SplitJoins(a[i + 2..], b);
      assert (a + b)[i + 2..] == a[i + 2..] + b;
      assert (a + b)[..i] == a[..i];
      assert [a[..i]] + (tail.blocks + more.blocks) == [a[..i]] + tail.blocks + more.blocks;
    } else {
      assert [] + Split(a + b).blocks == Split(a + b).blocks;
    }
  }

  lemma {:induction false} MessagesConcat(a: seq<string>, b: seq<string>)
    ensures AllMessages(a + b) == AllMessages(a) + AllMessages(b)
    decreases |b|
  {
    hide MessagesOf;
    if |b| == 0 {
      assert a + b == a;
    } else {
      var n := |b| - 1;
      MessagesConcat(a, b[..n]);
      assert (a + b)[..|a + b| - 1] == a + b[..n] && (a + b)[|a + b| - 1] == b[n];
      assert AllMessages(a + b) == AllMessages(a + b[..n]) + MessagesOf(b[n]);
    }
  }

  /** Reading on with the remainder is reading the joined text. */
  lemma ParseJoins(a: string, b: string)
    ensures var more := ParsedLf(ParsedLf(a).rest + b);
            ParsedLf(a + b) == Parse(ParsedLf(a).messages + more.messages, more.rest)
  {
    SplitJoins(a, b);
    MessagesConcat(Split(a).blocks, Split(Split(a).rest + b).blocks);
  }

  lemma {:induction false} RestHasNoCr(s: string)
    requires NoCr(s)
    ensures NoCr(Split(s).rest)
    decreases |s|
  {
    if FirstBlank(s) < |s| {
      RestHasNoCr(s[FirstBlank(s) + 2..]);
    }
  }

  /** What the console does with one more chunk: `buffer = dispatch(buffer + value)`. */
  function Fed(so: Parse, chunk: string): Parse {
    var more := Parsed(so.rest + chunk);
    Parse(so.messages + more.messages, more.rest)
  }

  function FedAll(chunks: seq<string>): Parse {
    if |chunks| == 0 then Parse([], "") else Fed(FedAll(chunks[..|chunks| - 1]), chunks[|chunks| - 1])
  }

  function Concat(chunks: seq<string>): string {
    if |chunks| == 0 then "" else Concat(chunks[..|chunks| - 1]) + chunks[|chunks| - 1]
  }

  /** Feeding a chunk is reading on in the normalized text. */
  lemma FedReadsOn(text: string, chunk: string)
    requires NoCr(text)
    ensures Fed(ParsedLf(text), chunk) == ParsedLf(text + Normalize(chunk))
  {
    var rest := ParsedLf(text).rest;
    RestHasNoCr(text);
    NothingToNormalize(rest);
    NormalizeConcat(rest, chunk);
    ParseJoins(text, Normalize(chunk));
  }

  /** However the text is cut, as long as no chunk but the last ends in CR, the chunks read as the whole. */
  lemma {:induction false} ChunksReadAsWhole(chunks: seq<string>)
    requires forall i :: 0 <= i < |chunks| - 1 ==> !EndsInCr(chunks[i])
    ensures FedAll(chunks) == Parsed(Concat(chunks))
  {
    if |chunks| > 0 {
      var n := |chunks| - 1;
      var before := Concat(chunks[..n]);
      ChunksReadAsWhole(chunks[..n]);
      NoChunkEndsInCr(chunks[..n]);
      NormalizedHasNoCr(before);
      FedReadsOn(Normalize(before), chunks[n]);
      NormalizeConcat(before, chunks[n]);
    }
  }

  lemma {:induction false} NoChunkEndsInCr(chunks: seq<string>)
    requires forall i :: 0 <= i < |chunks| ==> !EndsInCr(chunks[i])
    ensures !EndsInCr(Concat(chunks))
  {
    if |chunks| > 0 {
      NoChunkEndsInCr(chunks[..|chunks| - 1]);
    }
  }

  /** What is left over ends as the text does, and holds no blank line. */
  lemma {:induction false} RestFacts(s: string)
    ensures var rest := Split(s).rest;
            && (forall j :: 0 <= j < |rest| ==> !BlankAt(rest, j))
            && (|rest| > 0 ==> |s| > 0 && rest[|rest| - 1] == s[|s| - 1])
    decreases |s|
  {
    hide Split, FirstBlank;
    SplitStep(s);
    var i := FirstBlank(s);
    if i < |s| {
      assert BlankAt(s, i);
      RestFacts(s[i + 2..]);
    }
  }

  lemma RestOfNewline(a: string)
    requires |a| > 0 && a[|a| - 1] == '\n'
    ensures Split(a + "\n").rest != Split(a).rest
  {
    hide Split, FirstBlank;
    var rest := Split(a).rest;
    var more := rest + "\n";
    SplitJoins(a, "\n");
    RestFacts(a);
    SplitStep(more);
    if |rest| > 0 {
      var i := |rest| - 1;
      assert BlankAt(more, i);
      forall j | 0 <= j < i ensures !BlankAt(more, j) {
        assert !BlankAt(rest, j);
      }
      FirstBlankIs(more, i);
      assert more[i + 2..] == "";
      SplitStep("");
    } else {
      assert |more| == 1;
    }
  }

  /** A cut is safe whatever comes next exactly when it does not follow a CR. */
  lemma CutIsSafeIff(a: string)
    ensures (forall b: string :: Fed(Parsed(a), b) == Parsed(a + b)) <==> !EndsInCr(a)
  {
    if EndsInCr(a) {
      CutAfterCr(a);
    } else {
      forall b: string ensures Fed(Parsed(a), b) == Parsed(a + b) {
        NormalizedHasNoCr(a);
        FedReadsOn(Normalize(a), b);
        NormalizeConcat(a, b);
      }
    }
  }

  /** The CR is already a line of its own, so the LF that completes it ends the block. */
  lemma CutAfterCr(a: string)
    requires EndsInCr(a)
    ensures Fed(Parsed(a), "\n") != Parsed(a + "\n")
  {
    hide Split;
    var text, cr := a[..|a| - 1], a[|a| - 1..];
    assert a == text + "\r" && a + "\n" == text + "\r\n";
    assert CrLfToLf("\r\n") == "\n" + CrLfToLf("") by { assert "\r\n"[2..] == ""; }
    assert CrLfToLf("\r") == "\r" + CrLfToLf("") by { assert "\r"[1..] == ""; }
    NormalizeConcat(text, "\r");
    NormalizeConcat(text, "\r\n");
    assert Normalize("\r") == "\n" && Normalize("\r\n") == "\n";
    assert Normalize(a) == Normalize(a + "\n");
    NormalizedHasNoCr(a);
    FedReadsOn(Normalize(a), "\n");
    NothingToNormalize("\n");
    RestOfNewline(Normalize(a));
  }

  // ------------------------------------------------------------------------ printing

  /** What `stream` yields: a frame of an event, or the heartbeat comment. */
  datatype Sent = Frame(event: string, data: string) | Heartbeat

  function Printed(x: Sent): string {
    match x
    case Frame(event, data) => "event: " + event + "\ndata: " + data + "\n\n"
    case Heartbeat => ": heartbeat\n\n"
  }

  function PrintedAll(xs: seq<Sent>): string {
    if |xs| == 0 then "" else PrintedAll(xs[..|xs| - 1]) + Printed(xs[|xs| - 1])
  }

  function FramesOf(xs: seq<Sent>): seq<Message> {
    if |xs| == 0 then []
    else
      var before, x := FramesOf(xs[..|xs| - 1]), xs[|xs| - 1];
      if x.Frame? then before + [Message(x.event, x.data)] else before
  }

  predicate OneLine(s: string) {
    forall i :: 0 <= i < |s| ==> s[i] != '\r' && s[i] != '\n'
  }

  /** The name and the data of a frame hold no line ending, as `json.dumps` makes sure of the data. */
  predicate Printable(x: Sent) {
    x.Frame? ==> OneLine(x.event) && OneLine(x.data)
  }

  lemma FirstOfIs(s: string, c: char, i: nat)
    requires i <= |s| && (i < |s| ==> s[i] == c) && forall j :: 0 <= j < i ==> s[j] != c
    ensures FirstOf(s, c) == i
  {
  }

  lemma LinesOfOne(line: string)
    requires forall i :: 0 <= i < |line| ==> line[i] != '\n'
    ensures Lines(line) == [line]
  {
    FirstOfIs(line, '\n', |line|);
  }

  lemma LinesOfMore(line: string, more: string)
    requires forall i :: 0 <= i < |line| ==> line[i] != '\n'
    ensures Lines(line + "\n" + more) == [line] + Lines(more)
  {
    var s := line + "\n" + more;
    FirstOfIs(s, '\n', |line|);
    assert s[..|line|] == line && s[|line| + 1..] == more;
  }

  lemma OneBlock(block: string)
    requires forall j :: 0 <= j < |block| + 1 ==> !BlankAt(block + "\n\n", j) || j == |block|
    requires |block| > 0 && block[|block| - 1] != '\n'
    ensures Split(block + "\n\n") == Cut([block], "")
  {
    hide Split, FirstBlank;
    var s := block + "\n\n";
    assert BlankAt(s, |block|);
    FirstBlankIs(s, |block|);
    SplitStep(s);
    assert s[..|block|] == block && s[|block| + 2..] == "";
    SplitStep("");
  }

  lemma FieldOfPair(name: string, value: string)
    requires forall i :: 0 <= i < |name| ==> name[i] != ':'
    ensures FieldOf(name + ": " + value) == Field(name, value)
  {
    var line := name + ": " + value;
    FirstOfIs(line, ':', |name|);
    assert line[..|name|] == name && line[|name| + 1..] == " " + value;
    assert (" " + value)[1..] == value;
  }

  /** A line is split at its first colon; one space after it belongs to neither side; without a colon the
      whole line is the name and the value is empty. */
  lemma FieldsAreSplitAtTheColon(name: string, value: string)
    requires forall i :: 0 <= i < |name| ==> name[i] != ':'
    ensures FieldOf(name) == Field(name, "")
    ensures FieldOf(name + ": " + value) == Field(name, value)
    ensures value == "" || value[0] != ' ' ==> FieldOf(name + ":" + value) == Field(name, value)
  {
    FirstOfIs(name, ':', |name|);
    FieldOfPair(name, value);
    var line := name + ":" + value;
    FirstOfIs(line, ':', |name|);
    assert line[..|name|] == name && line[|name| + 1..] == value;
  }

  /** Lines come apart at every line feed and nowhere else, and nothing of them is lost. */
  lemma {:induction false} LinesAreTheText(s: string)
    ensures forall i :: 0 <= i < |Lines(s)| ==> forall j :: 0 <= j < |Lines(s)[i]| ==> Lines(s)[i][j] != '\n'
    ensures Joined(Lines(s)) == s
    decreases |s|
  {
    hide Joined;
    var i := FirstOf(s, '\n');
    if i == |s| {
      JoinedOne(s);
    } else {
      var more := s[i + 1..];
      LinesAreTheText(more);
      JoinedFront(s[..i], Lines(more));
      assert s == s[..i] + "\n" + more;
    }
  }

  lemma JoinedOne(x: string)
    ensures Joined([x]) == x
  {
  }

  lemma {:induction false} JoinedFront(x: string, xs: seq<string>)
    requires |xs| > 0
    ensures Joined([x] + xs) == x + "\n" + Joined(xs)
  {
    var n := |xs| - 1;
    if n == 0 {
      assert [x] + xs == [x, xs[0]];
      assert [x, xs[0]][..1] == [x];
    } else {
      JoinedFront(x, xs[..n]);
      assert ([x] + xs)[..n + 1] == [x] + xs[..n];
      assert x + "\n" + (Joined(xs[..n]) + "\n" + xs[n]) == x + "\n" + Joined(xs[..n]) + "\n" + xs[n];
    }
  }

  lemma MessageOfFrame(event: string, data: string)
    requires OneLine(event) && OneLine(data)
    ensures MessagesOf("event: " + event + "\ndata: " + data) == [Message(event, data)]
  {
    hide Lines, FieldOf;
    var a, b := "event: " + event, "data: " + data;
    assert "event: " + event + "\ndata: " + data == a + "\n" + b;
    LinesOfMore(a, b);
    LinesOfOne(b);
    assert [a] + [b] == [a, b];
    assert "event" + ": " + event == a && "data" + ": " + data == b;
    FieldOfPair("event", event);
    FieldOfPair("data", data);
    assert [a, b][..1] == [a] && [a][..0] == [];
    assert !Ignored(a) && !Ignored(b);
    assert DataIn([a]) == DataIn([]) == [];
    assert DataIn([a, b]) == DataIn([a]) + [data] == [data];
    assert NameIn([a, b], "message") == NameIn([a], "message") == event;
  }

  lemma FrameReads(x: Sent)
    requires Printable(x)
    ensures ParsedLf(Printed(x)) == Parse(FramesOf([x]), "")
    ensures NoCr(Printed(x))
  {
    hide Split, MessagesOf;
    assert [x][..0] == [];
    match x
    case Frame(event, data) =>
      var a := "event: " + event;
      var block := a + "\ndata: " + data;
      assert Printed(x) == block + "\n\n";
      assert forall j :: 0 <= j < |block| && block[j] == '\n' ==> j == |a| && block[j + 1] == 'd';
      OneBlock(block);
      MessageOfFrame(event, data);
      assert "event: " + event + "\ndata: " + data == block;
      OneMessage(block);
    case Heartbeat =>
      var block := ": heartbeat";
      assert Printed(x) == block + "\n\n";
      OneBlock(block);
      HeartbeatSaysNothing();
      OneMessage(block);
      assert FramesOf([Heartbeat]) == FramesOf([]) == [];
  }

  lemma OneMessage(block: string)
    ensures AllMessages([block]) == MessagesOf(block)
  {
    hide MessagesOf;
    assert [block][..0] == [];
  }

  lemma HeartbeatSaysNothing()
    ensures MessagesOf(": heartbeat") == []
  {
    hide Lines, FieldOf;
    var line := ": heartbeat";
    LinesOfOne(line);
    assert Ignored(line) && [line][..0] == [];
    assert DataIn([line]) == DataIn([]) == [];
  }

  lemma {:induction false} PrintedReadsBack(xs: seq<Sent>)
    requires forall i :: 0 <= i < |xs| ==> Printable(xs[i])
    ensures ParsedLf(PrintedAll(xs)) == Parse(FramesOf(xs), "")
    ensures NoCr(PrintedAll(xs))
  {
    hide Split, Printed, Printable, MessagesOf;
    if |xs| == 0 {
      SplitStep("");
    } else {
      var n := |xs| - 1;
      PrintedReadsBack(xs[..n]);
      FrameReads(xs[n]);
      ParseJoins(PrintedAll(xs[..n]), Printed(xs[n]));
      assert "" + Printed(xs[n]) == Printed(xs[n]);
      assert [xs[n]][..0] == [];
    }
  }

  lemma {:induction false} PartsHaveNoCr(chunks: seq<string>)
    requires NoCr(Concat(chunks))
    ensures forall i :: 0 <= i < |chunks| ==> NoCr(chunks[i])
  {
    if |chunks| > 0 {
      var n := |chunks| - 1;
      var before := Concat(chunks[..n]);
      forall i | 0 <= i < |before| ensures before[i] != '\r' {
        assert Concat(chunks)[i] == before[i];
      }
      forall i | 0 <= i < |chunks[n]| ensures chunks[n][i] != '\r' {
        assert Concat(chunks)[|before| + i] == chunks[n][i];
      }
      PartsHaveNoCr(chunks[..n]);
      assert chunks == chunks[..n] + [chunks[n]];
    }
  }

  lemma {:induction false} DeliveredInOrder(chunks: seq<string>, k: nat)
    requires k <= |chunks|
    ensures FedAll(chunks[..k]).messages <= FedAll(chunks).messages
    decreases |chunks|
  {
    if k == |chunks| {
      assert chunks[..k] == chunks;
    } else {
      var n := |chunks| - 1;
      assert chunks[..n][..k] == chunks[..k];
      DeliveredInOrder(chunks[..n], k);
    }
  }

  /** However a printed stream is cut into chunks, the console gets exactly its frames, in order,
      with nothing left over; and after any of the chunks, a prefix of them. */
  lemma StreamRoundTrip(xs: seq<Sent>, chunks: seq<string>, k: nat)
    requires forall i :: 0 <= i < |xs| ==> Printable(xs[i])
    requires Concat(chunks) == PrintedAll(xs) && k <= |chunks|
    ensures FedAll(chunks) == Parse(FramesOf(xs), "")
    ensures FedAll(chunks[..k]).messages <= FramesOf(xs)
  {
    hide Split, Printable, MessagesOf, AllMessages;
    PrintedReadsBack(xs);
    PartsHaveNoCr(chunks);
    ChunksReadAsWhole(chunks);
    NothingToNormalize(PrintedAll(xs));
    DeliveredInOrder(chunks, k);
  }

  // -------------------------------------------------------------------- the Standard

  /** The buffers of section 9.2.6, and the events dispatched so far. */
  datatype Reader = Reader(data: string, event: string, dispatched: seq<Message>)

  function Interpret(r: Reader, line: string): Reader {
    if line == "" then
      if r.data == "" then Reader("", "", r.dispatched)
      else
        var event := if r.event == "" then "message" else r.event;
        Reader("", "", r.dispatched + [Message(event, r.data[..|r.data| - 1])])
    else if line[0] == ':' then r
    else
      var field := FieldOf(line);
      if field.name == "event" then r.(event := field.value)
      else if field.name == "data" then r.(data := r.data + field.value + "\n")
      else r
  }

  function InterpretAll(r: Reader, lines: seq<string>): Reader {
    if |lines| == 0 then r else Interpret(InterpretAll(r, lines[..|lines| - 1]), lines[|lines| - 1])
  }

  /** Every line that has its ending; what is pending at the end is discarded. */
  function WholeLines(s: string): seq<string> {
    Lines(s)[..|Lines(s)| - 1]
  }

  function ByTheStandard(stream: string): seq<Message> {
    InterpretAll(Reader("", "", []), WholeLines(Normalize(stream))).dispatched
  }

  function Named(m: Message): Message {
    if m.event == "" then m.(event := "message") else m
  }

  function AllNamed(ms: seq<Message>): seq<Message> {
    seq(|ms|, i requires 0 <= i < |ms| => Named(ms[i]))
  }

  lemma {:induction false} InterpretJoins(r: Reader, xs: seq<string>, ys: seq<string>)
    ensures InterpretAll(r, xs + ys) == InterpretAll(InterpretAll(r, xs), ys)
    decreases |ys|
  {
    hide Interpret;
    if |ys| == 0 {
      assert xs + ys == xs;
    } else {
      InterpretJoins(r, xs, ys[..|ys| - 1]);
      assert (xs + ys)[..|xs + ys| - 1] == xs + ys[..|ys| - 1];
    }
  }

  /** The data buffer: every value with its line feed. */
  function Buffered(data: seq<string>): string {
    if |data| == 0 then "" else Buffered(data[..|data| - 1]) + data[|data| - 1] + "\n"
  }

  lemma {:induction false} BufferedIsJoined(data: seq<string>)
    requires |data| > 0
    ensures Buffered(data) == Joined(data) + "\n"
  {
    if |data| == 1 {
      assert data[..0] == [];
      assert Buffered([]) == "";
    } else {
      BufferedIsJoined(data[..|data| - 1]);
    }
  }

  predicate NoBlankAfterFirst(lines: seq<string>) {
    forall i :: 1 <= i < |lines| ==> lines[i] != ""
  }

  /** From a clean start, lines without a blank one only fill the buffers. */
  lemma {:induction false} LinesFillBuffers(lines: seq<string>, out: seq<Message>)
    requires NoBlankAfterFirst(lines)
    ensures InterpretAll(Reader("", "", out), lines) == Reader(Buffered(DataIn(lines)), NameIn(lines, ""), out)
  {
    hide FieldOf;
    if |lines| > 0 {
      var n := |lines| - 1;
      LinesFillBuffers(lines[..n], out);
      if n == 0 {
        assert lines[..0] == [];
      }
      var before := DataIn(lines[..n]);
      if !Ignored(lines[n]) && FieldOf(lines[n]).name == "data" {
        assert (before + [FieldOf(lines[n]).value])[..|before|] == before;
      }
    }
  }

  lemma {:induction false} NameOrDefault(lines: seq<string>)
    ensures Named(Message(NameIn(lines, "message"), "")) ==
            Message(if NameIn(lines, "") == "" then "message" else NameIn(lines, ""), "")
  {
    hide FieldOf;
    if |lines| > 0 {
      NameOrDefault(lines[..|lines| - 1]);
    }
  }

  lemma BlockDispatches(block: string, out: seq<Message>)
    requires NoBlankAfterFirst(Lines(block))
    ensures InterpretAll(Reader("", "", out), Lines(block) + [""]) == Reader("", "", out + AllNamed(MessagesOf(block)))
  {
    hide Lines, FieldOf, NameIn, DataIn;
    var lines := Lines(block);
    LinesFillBuffers(lines, out);
    NameOrDefault(lines);
    assert (lines + [""])[..|lines|] == lines;
    var data := DataIn(lines);
    if |data| == 0 {
      assert AllNamed(MessagesOf(block)) == [];
      assert out + [] == out;
    } else {
      BufferedIsJoined(data);
      assert Buffered(data)[..|Buffered(data)| - 1] == Joined(data);
      var event := if NameIn(lines, "") == "" then "message" else NameIn(lines, "");
      assert AllNamed(MessagesOf(block)) == [Message(event, Joined(data))];
    }
  }

  lemma {:induction false} LinesJoin(a: string, b: string)
    ensures Lines(a + "\n" + b) == Lines(a) + Lines(b)
    decreases |a|
  {
    hide Lines, FirstOf;
    var i := FirstOf(a, '\n');
    if i == |a| {
      LinesOfMore(a, b);
      LinesOfOne(a);
    } else {
      var line, more := a[..i], a[i + 1..];
      assert a == line + "\n" + more;
      assert a + "\n" + b == line + "\n" + (more + "\n" + b);
      LinesOfMore(line, more + "\n" + b);
      LinesOfMore(line, more);
      LinesJoin(more, b);
      assert [line] + (Lines(more) + Lines(b)) == [line] + Lines(more) + Lines(b);
    }
  }

  /** Where no blank line is, only the first line and the unterminated last one can be empty. */
  lemma {:induction false} UnbrokenLines(s: string)
    requires forall j :: 0 <= j < |s| ==> !BlankAt(s, j)
    ensures forall i :: 1 <= i < |Lines(s)| - 1 ==> Lines(s)[i] != ""
    ensures s == "" ==> |Lines(s)| == 1
    ensures Lines(s)[0] == "" ==> s == "" || s[0] == '\n'
    ensures |Lines(s)| > 1 && Lines(s)[|Lines(s)| - 1] == "" ==> s[|s| - 1] == '\n'
    decreases |s|
  {
    var i := FirstOf(s, '\n');
    if i < |s| {
      var more := s[i + 1..];
      forall j | 0 <= j < |more| ensures !BlankAt(more, j) {
        assert !BlankAt(s, i + 1 + j);
      }
      UnbrokenLines(more);
      assert !BlankAt(s, i);
    }
  }

  lemma WholeLinesOfBlock(block: string, tail: string)
    ensures WholeLines(block + "\n\n" + tail) == Lines(block) + [""] + WholeLines(tail)
  {
    hide Lines;
    assert block + "\n\n" + tail == block + "\n" + ("" + "\n" + tail);
    LinesJoin(block, "" + "\n" + tail);
    LinesJoin("", tail);
    LinesOfOne("");
    var all := Lines(block) + ([""] + Lines(tail));
    assert all[..|all| - 1] == Lines(block) + [""] + WholeLines(tail);
  }

  lemma {:induction false} SplitReadsAsStandard(s: string, out: seq<Message>)
    ensures InterpretAll(Reader("", "", out), WholeLines(s)).dispatched == out + AllNamed(AllMessages(Split(s).blocks))
    decreases |s|
  {
    hide Split, FirstBlank, Lines, WholeLines, MessagesOf, Interpret, InterpretAll;
    var i := FirstBlank(s);
    SplitStep(s);
    if i == |s| {
      RestSaysNothing(s, out);
      assert out + AllNamed([]) == out;
    } else {
      assert BlankAt(s, i);
      var block, tail := s[..i], s[i + 2..];
      assert s == block + "\n\n" + tail;
      WholeLinesOfBlock(block, tail);
      BlockLines(s, i);
      InterpretJoins(Reader("", "", out), Lines(block) + [""], WholeLines(tail));
      BlockDispatches(block, out);
      var ms, rest := MessagesOf(block), AllMessages(Split(tail).blocks);
      SplitReadsAsStandard(tail, out + AllNamed(ms));
      MessagesConcat([block], Split(tail).blocks);
      OneMessage(block);
      assert out + AllNamed(ms) + AllNamed(rest) == out + AllNamed(ms + rest);
    }
  }

  lemma BlockLines(s: string, i: nat)
    requires BlankAt(s, i) && forall j :: 0 <= j < i ==> !BlankAt(s, j)
    ensures NoBlankAfterFirst(Lines(s[..i]))
  {
    hide Lines;
    var block := s[..i];
    forall j | 0 <= j < |block| ensures !BlankAt(block, j) {
      assert !BlankAt(s, j);
    }
    UnbrokenLines(block);
    assert i > 0 ==> !BlankAt(s, i - 1);
  }

  lemma RestSaysNothing(s: string, out: seq<Message>)
    requires FirstBlank(s) == |s|
    ensures InterpretAll(Reader("", "", out), WholeLines(s)).dispatched == out
  {
    hide Lines, InterpretAll, FirstBlank;
    UnbrokenLines(s);
    LinesFillBuffers(WholeLines(s), out);
  }

  /** For any stream at all, the parser dispatches what the Standard does, but for one thing: an
      `event` field with an empty value names the event "" instead of "message". */
  lemma ReadsAsStandard(stream: string)
    ensures AllNamed(Parsed(stream).messages) == ByTheStandard(stream)
  {
    hide Split, AllMessages, InterpretAll, WholeLines;
    SplitReadsAsStandard(Normalize(stream), []);
    assert [] + AllNamed(Parsed(stream).messages) == AllNamed(Parsed(stream).messages);
  }

  // Where they disagree, told from the lines of the stream alone.

  predicate IsField(line: string, name: string) {
    !Ignored(line) && FieldOf(line).name == name
  }

  predicate HasData(lines: seq<string>) {
    exists i :: 0 <= i < |lines| && IsField(lines[i], "data")
  }

  predicate NamesNothing(lines: seq<string>, i: nat) {
    && i < |lines|
    && IsField(lines[i], "event")
    && FieldOf(lines[i]).value == ""
    && forall j :: i < j < |lines| ==> !IsField(lines[j], "event")
  }

  /** The last `event` line has an empty value. */
  predicate LastNameEmpty(lines: seq<string>) {
    exists i :: 0 <= i < |lines| && NamesNothing(lines, i)
  }

  /** No block that has a data line, and so dispatches, has a last `event` line that names nothing. */
  predicate NoEmptyNames(stream: string) {
    forall b :: b in Split(Normalize(stream)).blocks ==> !Unnamed(b)
  }

  lemma {:induction false} DataIffLine(lines: seq<string>)
    ensures DataIn(lines) != [] <==> HasData(lines)
  {
    hide FieldOf, Ignored;
    if |lines| > 0 {
      var n := |lines| - 1;
      DataIffLine(lines[..n]);
      if HasData(lines[..n]) {
        var i :| 0 <= i < n && IsField(lines[..n][i], "data");
        assert IsField(lines[i], "data");
      }
      if HasData(lines) && !IsField(lines[n], "data") {
        var i :| 0 <= i < |lines| && IsField(lines[i], "data");
        assert IsField(lines[..n][i], "data");
      }
    }
  }

  lemma {:induction false} EmptyNameIffLine(lines: seq<string>)
    ensures NameIn(lines, "message") == "" <==> LastNameEmpty(lines)
  {
    hide FieldOf, Ignored;
    if |lines| > 0 {
      var n := |lines| - 1;
      EmptyNameIffLine(lines[..n]);
      if IsField(lines[n], "event") {
        assert FieldOf(lines[n]).value == "" ==> NamesNothing(lines, n);
        forall i | NamesNothing(lines, i) ensures i == n {
        }
      } else {
        forall i: nat | i < n ensures NamesNothing(lines[..n], i) <==> NamesNothing(lines, i) {
          assert lines[..n][i] == lines[i];
          assert forall j :: i < j < n ==> lines[..n][j] == lines[j];
        }
        assert !NamesNothing(lines, n);
      }
    }
  }

  predicate Unnamed(block: string) {
    HasData(Lines(block)) && LastNameEmpty(Lines(block))
  }

  predicate SomeUnnamed(ms: seq<Message>) {
    exists i :: 0 <= i < |ms| && ms[i].event == ""
  }

  lemma SomeUnnamedConcat(a: seq<Message>, b: seq<Message>)
    ensures SomeUnnamed(a + b) <==> SomeUnnamed(a) || SomeUnnamed(b)
  {
    if SomeUnnamed(a) {
      var i :| 0 <= i < |a| && a[i].event == "";
      assert (a + b)[i].event == "";
    }
    if SomeUnnamed(b) {
      var i :| 0 <= i < |b| && b[i].event == "";
      assert (a + b)[|a| + i].event == "";
    }
  }

  lemma UnnamedMessage(block: string)
    ensures SomeUnnamed(MessagesOf(block)) <==> Unnamed(block)
  {
    hide Lines, NameIn, DataIn, HasData, LastNameEmpty, Joined;
    DataIffLine(Lines(block));
    EmptyNameIffLine(Lines(block));
    if DataIn(Lines(block)) != [] {
      assert MessagesOf(block)[0].event == NameIn(Lines(block), "message");
    }
  }

  lemma {:induction false} EmptyNamesComeFromBlocks(blocks: seq<string>)
    ensures SomeUnnamed(AllMessages(blocks)) <==> exists b :: b in blocks && Unnamed(b)
  {
    hide MessagesOf, Unnamed, SomeUnnamed;
    if |blocks| == 0 {
      assert !SomeUnnamed([]) by { NoneUnnamed(); }
    } else {
      var n := |blocks| - 1;
      EmptyNamesComeFromBlocks(blocks[..n]);
      UnnamedMessage(blocks[n]);
      SomeUnnamedConcat(AllMessages(blocks[..n]), MessagesOf(blocks[n]));
      assert blocks == blocks[..n] + [blocks[n]];
    }
  }

  lemma NoneUnnamed()
    ensures !SomeUnnamed([])
  {
  }

  /** So the two agree exactly on the streams in which no block with a data line ends its `event` lines
      with an empty value. */
  lemma ReadsAsStandardIff(stream: string)
    ensures Parsed(stream).messages == ByTheStandard(stream) <==> NoEmptyNames(stream)
  {
    hide Split, Normalize, AllMessages, ByTheStandard, Unnamed;
    ReadsAsStandard(stream);
    var ms := Parsed(stream).messages;
    EmptyNamesComeFromBlocks(Split(Normalize(stream)).blocks);
    if SomeUnnamed(ms) {
      var i :| 0 <= i < |ms| && ms[i].event == "";
      assert AllNamed(ms)[i].event == "message";
    } else {
      assert AllNamed(ms) == ms;
    }
  }

  /** Such a stream exists: a frame printed with an empty name. */
  lemma EmptyNameDiffers()
    ensures var stream := Printed(Frame("", "x"));
            Parsed(stream).messages == [Message("", "x")] && ByTheStandard(stream) == [Message("message", "x")]
  {
    hide Split, AllMessages, Printed, ByTheStandard;
    var frame := Frame("", "x");
    FrameReads(frame);
    NothingToNormalize(Printed(frame));
    assert [frame][..0] == [] && FramesOf([frame]) == [Message("", "x")];
    ReadsAsStandard(Printed(frame));
    assert AllNamed([Message("", "x")]) == [Message("message", "x")];
  }
}
