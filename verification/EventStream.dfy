/** The Server-Sent Events reader (WHATWG HTML, section 9.2.6): lines, frames, events. */
module EventStream {
  import opened Prelude

  datatype Event = Event(name: string, data: string)

  // ----- splitting and joining

  function Join(lines: seq<string>): string {
    if lines == [] then "" else if |lines| == 1 then lines[0] else lines[0] + "\n" + Join(lines[1..])
  }

  function IndexOf(s: string, c: char): nat {
    if s == "" || s[0] == c then 0 else 1 + IndexOf(s[1..], c)
  }

  lemma IndexOfBound(s: string, c: char)
    ensures IndexOf(s, c) <= |s|
    ensures IndexOf(s, c) < |s| ==> s[IndexOf(s, c)] == c
    ensures forall i :: 0 <= i < IndexOf(s, c) ==> s[i] != c
  {
  }

  lemma {:induction false} IndexAfterPrefix(a: string, c: char, b: string)
    requires c !in a
    ensures IndexOf(a + [c] + b, c) == |a|
  {
    if a != "" {
      assert (a + [c] + b)[1..] == a[1..] + [c] + b;
      IndexAfterPrefix(a[1..], c, b);
    }
  }

  /** strings.Split(s, "\n"): at least one piece. */
  function SplitLines(s: string): seq<string> {
    IndexOfBound(s, '\n');
    var i := IndexOf(s, '\n');
    if i == |s| then [s] else [s[..i]] + SplitLines(s[i + 1..])
  }

  lemma {:induction false} JoinUndoesSplit(s: string)
    ensures Join(SplitLines(s)) == s && SplitLines(s) != []
    ensures forall line :: line in SplitLines(s) ==> '\n' !in line
    decreases |s|
  {
    IndexOfBound(s, '\n');
    var i := IndexOf(s, '\n');
    if i < |s| {
      JoinUndoesSplit(s[i + 1..]);
      assert s == s[..i] + "\n" + s[i + 1..];
    }
  }

  // ----- bufio.ScanLines

  function DropReturn(line: string): string {
    if line != "" && line[|line| - 1] == '\r' then line[..|line| - 1] else line
  }

  function ScanLines(text: string): seq<string> {
    IndexOfBound(text, '\n');
    var i := IndexOf(text, '\n');
    if text == "" then []
    else if i == |text| then [DropReturn(text)]
    else [DropReturn(text[..i])] + ScanLines(text[i + 1..])
  }

  // ----- frames

  datatype Frame = Frame(name: string, data: seq<string>)

  const IDLE := Frame("", [])

  /** The event a frame dispatches; an idle frame dispatches nothing. */
  function Flush(f: Frame): seq<Event> {
    if f == IDLE then [] else [Event(f.name, Join(f.data))]
  }

  /** A line's field and value: cut at the first colon, minus one leading space. */
  function FieldOf(line: string): (string, string) {
    IndexOfBound(line, ':');
    var i := IndexOf(line, ':');
    if i == |line| then (line, "")
    else if i + 1 < |line| && line[i + 1] == ' ' then (line[..i], line[i + 2..])
    else (line[..i], line[i + 1..])
  }

  predicate IsComment(line: string) { line != "" && line[0] == ':' }

  function Feed(f: Frame, line: string): (Frame, seq<Event>) {
    if line == "" then (IDLE, Flush(f))
    else if IsComment(line) then (f, [])
    else
      var (field, value) := FieldOf(line);
      if field == "event" then (f.(name := value), [])
      else if field == "data" then (f.(data := f.data + [value]), [])
      else (f, [])
  }

  function FeedAll(f: Frame, lines: seq<string>): (Frame, seq<Event>)
    decreases |lines|
  {
    if lines == [] then (f, []) else
    var (f1, e1) := Feed(f, lines[0]);
    var (f2, e2) := FeedAll(f1, lines[1..]);
    (f2, e1 + e2)
  }

  /** All events of a body that ends cleanly; the last frame needs no blank line. */
  function Parse(lines: seq<string>): seq<Event> {
    var (f, events) := FeedAll(IDLE, lines);
    events + Flush(f)
  }

  // ----- Read, which hands over each event as it completes and stops when told to

  function Handle<W>(handle: (W, Event) -> (W, bool), w: W, events: seq<Event>): (W, bool)
    decreases |events|
  {
    if events == [] then (w, false) else
    var (w', stop) := handle(w, events[0]);
    if stop then (w', true) else Handle(handle, w', events[1..])
  }

  /** The events still to come from a frame and the lines after it; a body that breaks
      off drops its last frame. */
  function Ahead(f: Frame, lines: seq<string>, broken: bool): seq<Event> {
    var (g, events) := FeedAll(f, lines);
    if broken then events else events + Flush(g)
  }

  lemma AheadStep(f: Frame, lines: seq<string>, broken: bool)
    requires lines != []
    ensures var rest := lines[1..];
      Ahead(f, lines, broken)
        == if lines[0] != "" then Ahead(Feed(f, lines[0]).0, rest, broken)
           else if f == IDLE then Ahead(IDLE, rest, broken)
           else [Event(f.name, Join(f.data))] + Ahead(IDLE, rest, broken)
  {
    hide FieldOf, Join, FeedAll, Flush;
    FeedAllStep(f, lines);
    var (g, first) := Feed(f, lines[0]);
    var (h, later) := FeedAll(g, lines[1..]);
    assert first + later + Flush(h) == first + (later + Flush(h));
    FlushOnce(f);
    if first == [] {
      assert first + later == later;
    }
  }

  lemma FeedAllStep(f: Frame, lines: seq<string>)
    requires lines != []
    ensures var (f1, e1) := Feed(f, lines[0]); var (f2, e2) := FeedAll(f1, lines[1..]); FeedAll(f, lines) == (f2, e1 + e2)
  {
    hide Feed;
  }

  lemma FlushOnce(f: Frame)
    ensures Flush(f) == if f == IDLE then [] else [Event(f.name, Join(f.data))]
  {
    hide Join;
  }

  method Read<W>(lines: seq<string>, broken: bool, handle: (W, Event) -> (W, bool), start: W) returns (w: W, stopped: bool)
    ensures (w, stopped) == Handle(handle, start, Ahead(IDLE, lines, broken))
  {
    hide Handle, Ahead, FieldOf, Join, Feed;
    var name, data := "", [];
    w := start;
    var i := 0;
    while i < |lines|
      invariant i <= |lines|
      invariant Handle(handle, start, Ahead(IDLE, lines, broken)) == Handle(handle, w, Ahead(Frame(name, data), lines[i..], broken))
    {
      var line := lines[i];
      AheadStep(Frame(name, data), lines[i..], broken);
      assert lines[i..][0] == line && lines[i..][1..] == lines[i + 1..];
      if line == "" {
        if name != "" || data != [] {
          var event := Event(name, Join(data));
          HandleNext(handle, w, event, Ahead(IDLE, lines[i + 1..], broken));
          name, data := "", [];
          var (w', stop) := handle(w, event);
          w := w';
          if stop {
            return w, true;
          }
        }
      } else if line[0] != ':' {
        FeedLine(Frame(name, data), line);
        var (field, value) := FieldOf(line);
        if field == "event" {
          name := value;
        } else if field == "data" {
          data := data + [value];
        }
      } else {
        FeedLine(Frame(name, data), line);
      }
      i := i + 1;
    }
    assert lines[i..] == [];
    AheadEnds(Frame(name, data), broken);
    HandleNothing(handle, w);
    if !broken && (name != "" || data != []) {
      HandleNext(handle, w, Event(name, Join(data)), []);
      HandleNothing(handle, handle(w, Event(name, Join(data))).0);
      assert [Event(name, Join(data))] + [] == [Event(name, Join(data))];
      var (w', stop) := handle(w, Event(name, Join(data)));
      return w', stop;
    }
    stopped := false;
  }

  lemma FeedLine(f: Frame, line: string)
    requires line != ""
    ensures Feed(f, line).0
      == if line[0] == ':' then f
         else if FieldOf(line).0 == "event" then f.(name := FieldOf(line).1)
         else if FieldOf(line).0 == "data" then f.(data := f.data + [FieldOf(line).1])
         else f
  {
    hide FieldOf;
  }

  lemma AheadEnds(f: Frame, broken: bool)
    ensures Ahead(f, [], broken) == if broken || f == IDLE then [] else [Event(f.name, Join(f.data))]
  {
    hide Join;
  }

  lemma HandleNothing<W>(handle: (W, Event) -> (W, bool), w: W)
    ensures Handle(handle, w, []) == (w, false)
  {
  }

  lemma HandleNext<W>(handle: (W, Event) -> (W, bool), w: W, event: Event, rest: seq<Event>)
    ensures var (w', stop) := handle(w, event);
      Handle(handle, w, [event] + rest) == if stop then (w', true) else Handle(handle, w', rest)
  {
  }

  // ----- rendering, and what reading makes of it

  function RenderLines(e: Event): seq<string> {
    (if e.name == "" then [] else ["event: " + e.name]) + DataLines(SplitLines(e.data)) + [""]
  }

  function DataLines(pieces: seq<string>): seq<string> {
    if pieces == [] then [] else ["data: " + pieces[0]] + DataLines(pieces[1..])
  }

  function RenderAll(events: seq<Event>): seq<string> {
    if events == [] then [] else RenderLines(events[0]) + RenderAll(events[1..])
  }

  predicate OneLine(s: string) { '\n' !in s && (s != "" ==> s[|s| - 1] != '\r') }

  /** Nothing in the event that a line scanner would change. */
  predicate Plain(e: Event) { OneLine(e.name) && forall piece :: piece in SplitLines(e.data) ==> OneLine(piece) }

  lemma {:induction false} FeedInTwoParts(f: Frame, a: seq<string>, b: seq<string>)
    ensures var (g, first) := FeedAll(f, a);
      FeedAll(f, a + b) == (FeedAll(g, b).0, first + FeedAll(g, b).1)
    decreases |a|
  {
    if a == [] {
      assert a + b == b;
      assert [] + FeedAll(f, b).1 == FeedAll(f, b).1;
    } else {
      assert (a + b)[0] == a[0] && (a + b)[1..] == a[1..] + b;
      var (f1, e1) := Feed(f, a[0]);
      FeedInTwoParts(f1, a[1..], b);
      var (g, e2) := FeedAll(f1, a[1..]);
      assert e1 + (e2 + FeedAll(g, b).1) == (e1 + e2) + FeedAll(g, b).1;
    }
  }

  lemma FeedOne(f: Frame, line: string)
    ensures FeedAll(f, [line]) == Feed(f, line)
  {
    hide Feed;
    var (g, events) := Feed(f, line);
    assert [line][1..] == [] && FeedAll(g, []) == (g, []);
    assert events + [] == events;
  }

  lemma DataLineFeeds(f: Frame, piece: string)
    ensures Feed(f, "data: " + piece) == (f.(data := f.data + [piece]), [])
  {
    hide FieldOf;
    FieldReadsBack("data", piece);
    assert "data" + ": " + piece == "data: " + piece;
  }

  lemma FieldReadsBack(field: string, value: string)
    requires field == "event" || field == "data"
    ensures FieldOf(field + ": " + value) == (field, value)
    ensures field + ": " + value != "" && !IsComment(field + ": " + value)
  {
    var line := field + ": " + value;
    assert line == field + [':'] + (" " + value);
    IndexAfterPrefix(field, ':', " " + value);
    assert line[..|field|] == field && line[|field| + 2..] == value;
  }

  lemma {:induction false} DataLinesAccumulate(f: Frame, pieces: seq<string>)
    ensures FeedAll(f, DataLines(pieces)) == (f.(data := f.data + pieces), [])
    decreases |pieces|
  {
    if pieces == [] {
      assert f.data + pieces == f.data;
    } else {
      hide Feed, FeedAll;
      var g := f.(data := f.data + [pieces[0]]);
      DataLineFeeds(f, pieces[0]);
      FeedOne(f, "data: " + pieces[0]);
      DataLinesAccumulate(g, pieces[1..]);
      FeedInTwoParts(f, ["data: " + pieces[0]], DataLines(pieces[1..]));
      assert g.data + pieces[1..] == f.data + pieces;
    }
  }

  lemma EventReadsBack(e: Event)
    ensures FeedAll(IDLE, RenderLines(e)) == (IDLE, [e])
  {
    hide Feed, FeedAll, SplitLines, Join, Flush, DataLines;
    var pieces := SplitLines(e.data);
    var head := if e.name == "" then [] else ["event: " + e.name];
    var named := Frame(e.name, []);
    HeadNames(e.name);
    DataLinesAccumulate(named, pieces);
    assert [] + pieces == pieces;
    FeedInTwoParts(IDLE, head, DataLines(pieces));
    FeedInTwoParts(IDLE, head + DataLines(pieces), [""]);
    BlankDispatches(Frame(e.name, pieces));
    SplitFlushes(e);
    assert [] + [] + [e] == [e];
  }

  lemma SplitFlushes(e: Event)
    ensures Flush(Frame(e.name, SplitLines(e.data))) == [e]
  {
    hide SplitLines, Join;
    JoinUndoesSplit(e.data);
  }

  lemma HeadNames(name: string)
    ensures FeedAll(IDLE, if name == "" then [] else ["event: " + name]) == (Frame(name, []), [])
  {
    if name != "" {
      FieldReadsBack("event", name);
      assert "event" + ": " + name == "event: " + name;
      FeedOne(IDLE, "event: " + name);
    }
  }

  lemma BlankDispatches(f: Frame)
    ensures FeedAll(f, [""]) == (IDLE, Flush(f))
  {
    FeedOne(f, "");
  }

  lemma {:induction false} RenderingReadsBack(events: seq<Event>)
    ensures FeedAll(IDLE, RenderAll(events)) == (IDLE, events)
    decreases |events|
  {
    hide Feed, RenderLines;
    if events != [] {
      EventReadsBack(events[0]);
      RenderingReadsBack(events[1..]);
      FeedInTwoParts(IDLE, RenderLines(events[0]), RenderAll(events[1..]));
      assert [events[0]] + events[1..] == events;
    }
  }

  // ----- from bytes: any mix of line endings

  /** The lines with their terminators, "\n" or "\r\n" as `crlf` says. */
  function Terminated(lines: seq<string>, crlf: seq<bool>): string
    requires |lines| == |crlf|
  {
    if lines == [] then "" else lines[0] + (if crlf[0] then "\r\n" else "\n") + Terminated(lines[1..], crlf[1..])
  }

  lemma ScanTakesLine(line: string, rest: string)
    requires '\n' !in line
    ensures ScanLines(line + ['\n'] + rest) == [DropReturn(line)] + ScanLines(rest)
  {
    hide DropReturn;
    var text := line + ['\n'] + rest;
    IndexAfterPrefix(line, '\n', rest);
    assert text[..|line|] == line && text[|line| + 1..] == rest;
  }

  lemma {:induction false} ScanUndoesTermination(lines: seq<string>, crlf: seq<bool>)
    requires |lines| == |crlf| && forall line :: line in lines ==> OneLine(line)
    ensures ScanLines(Terminated(lines, crlf)) == lines
    decreases |lines|
  {
    hide ScanLines;
    if lines == [] {
      NothingToScan();
    } else {
      assert OneLine(lines[0]);
      var line := if crlf[0] then lines[0] + "\r" else lines[0];
      var rest := Terminated(lines[1..], crlf[1..]);
      assert Terminated(lines, crlf) == line + ['\n'] + rest;
      ScanTakesLine(line, rest);
      ScanUndoesTermination(lines[1..], crlf[1..]);
    }
  }

  /** The last line of a body needs no terminator. */
  lemma {:induction false} LastLineNeedsNoEnd(lines: seq<string>, crlf: seq<bool>, last: string)
    requires |lines| == |crlf| && forall line :: line in lines ==> OneLine(line)
    requires OneLine(last) && last != ""
    ensures ScanLines(Terminated(lines, crlf) + last) == lines + [last]
    decreases |lines|
  {
    hide ScanLines;
    if lines == [] {
      OnlyLine(last);
      assert "" + last == last && lines + [last] == [last];
    } else {
      assert OneLine(lines[0]);
      var line := if crlf[0] then lines[0] + "\r" else lines[0];
      var rest := Terminated(lines[1..], crlf[1..]);
      assert Terminated(lines, crlf) + last == line + ['\n'] + (rest + last);
      ScanTakesLine(line, rest + last);
      LastLineNeedsNoEnd(lines[1..], crlf[1..], last);
      assert lines + [last] == [lines[0]] + (lines[1..] + [last]);
    }
  }

  lemma OnlyLine(line: string)
    requires OneLine(line) && line != ""
    ensures ScanLines(line) == [line]
  {
    NoIndex(line, '\n');
  }

  lemma NothingToScan()
    ensures ScanLines("") == []
  {
  }

  lemma StillOneLine(prefix: string, s: string)
    requires OneLine(s) && prefix != "" && '\n' !in prefix && prefix[|prefix| - 1] != '\r'
    ensures OneLine(prefix + s)
  {
  }

  lemma {:induction false} RenderedLinesArePlain(events: seq<Event>)
    requires forall e :: e in events ==> Plain(e)
    ensures forall line :: line in RenderAll(events) ==> OneLine(line)
    decreases |events|
  {
    if events != [] {
      assert Plain(events[0]);
      StillOneLine("event: ", events[0].name);
      DataLinesArePlain(SplitLines(events[0].data));
      RenderedLinesArePlain(events[1..]);
    }
  }

  lemma {:induction false} DataLinesArePlain(pieces: seq<string>)
    requires forall piece :: piece in pieces ==> OneLine(piece)
    ensures forall line :: line in DataLines(pieces) ==> OneLine(line)
    decreases |pieces|
  {
    if pieces != [] {
      StillOneLine("data: ", pieces[0]);
      DataLinesArePlain(pieces[1..]);
    }
  }

  /** Reading the rendering of any plain events, with any mix of line endings, hands over
      exactly those events in order. */
  lemma {:induction false} ReadUndoesRender(events: seq<Event>, crlf: seq<bool>)
    requires forall e :: e in events ==> Plain(e)
    requires |crlf| == |RenderAll(events)|
    ensures Parse(ScanLines(Terminated(RenderAll(events), crlf))) == events
  {
    RenderedLinesArePlain(events);
    ScanUndoesTermination(RenderAll(events), crlf);
    RenderingReadsBack(events);
  }

  // ----- lines that make no difference

  predicate IsNoise(line: string) {
    line != "" && (IsComment(line) || (FieldOf(line).0 != "event" && FieldOf(line).0 != "data"))
  }

  /** A comment or an unknown field changes nothing, wherever it is inserted. */
  lemma NoiseIsIgnored(a: seq<string>, line: string, b: seq<string>)
    requires IsNoise(line)
    ensures Parse(a + [line] + b) == Parse(a + b)
  {
    hide Feed;
    FeedInTwoParts(IDLE, a + [line], b);
    FeedInTwoParts(IDLE, a, [line]);
    FeedInTwoParts(IDLE, a, b);
    NoiseKeepsFrame(FeedAll(IDLE, a).0, line);
  }

  lemma NoiseKeepsFrame(f: Frame, line: string)
    requires IsNoise(line)
    ensures FeedAll(f, [line]) == (f, [])
  {
    FeedOne(f, line);
  }

  /** A further blank line after one that ended an event changes nothing. */
  lemma ExtraBlankIsIgnored(a: seq<string>, b: seq<string>)
    ensures Parse(a + [""] + [""] + b) == Parse(a + [""] + b)
  {
    hide Feed;
    FeedInTwoParts(IDLE, a, [""]);
    FeedInTwoParts(IDLE, a + [""], [""]);
    FeedInTwoParts(IDLE, a + [""], b);
    FeedInTwoParts(IDLE, a + [""] + [""], b);
    BlankDispatches(FeedAll(IDLE, a).0);
    BlankDispatches(IDLE);
    var before := FeedAll(IDLE, a + [""]).1;
    assert before + [] == before;
  }

  // ----- lines as they may come

  lemma {:induction false} NoIndex(s: string, c: char)
    requires c !in s
    ensures IndexOf(s, c) == |s|
  {
    if s != "" {
      NoIndex(s[1..], c);
    }
  }

  /** A line is cut at its first colon; one space after the colon is dropped and any other
      is kept; a line without a colon is a field without a value. */
  lemma {:induction false} FieldCuts(field: string, value: string)
    requires ':' !in field
    ensures FieldOf(field + ": " + value) == (field, value)
    ensures value == "" || value[0] != ' ' ==> FieldOf(field + ":" + value) == (field, value)
    ensures FieldOf(field) == (field, "")
  {
    var spaced, bare := field + ": " + value, field + ":" + value;
    assert spaced == field + [':'] + (" " + value) && bare == field + [':'] + value;
    IndexAfterPrefix(field, ':', " " + value);
    IndexAfterPrefix(field, ':', value);
    NoIndex(field, ':');
    assert spaced[..|field|] == field && spaced[|field| + 2..] == value;
    assert bare[..|field|] == field && bare[|field| + 1..] == value;
  }

  /** The name of a frame is its last event line's value and its data lines add up, with a
      space after the colon or without. */
  lemma LinesFeed(f: Frame, value: string)
    requires value == "" || value[0] != ' '
    ensures Feed(f, "data:" + value) == (f.(data := f.data + [value]), []) == Feed(f, "data: " + value)
    ensures Feed(f, "event:" + value) == (f.(name := value), []) == Feed(f, "event: " + value)
    ensures Feed(f, "data") == (f.(data := f.data + [""]), []) && Feed(f, "event") == (f.(name := ""), [])
  {
    hide FieldOf;
    FieldCuts("data", value);
    FieldCuts("event", value);
    assert "data" + ":" + value == "data:" + value && "data" + ": " + value == "data: " + value;
    assert "event" + ":" + value == "event:" + value && "event" + ": " + value == "event: " + value;
  }

  /** The blank line after the last event may be missing. */
  lemma FinalBlankIsOptional(lines: seq<string>)
    ensures Parse(lines + [""]) == Parse(lines)
  {
    hide Feed;
    FeedInTwoParts(IDLE, lines, [""]);
    BlankDispatches(FeedAll(IDLE, lines).0);
    var events := Parse(lines);
    assert events + [] == events;
  }

  // ----- what Read hands over

  lemma {:induction false} NothingDispatched(f: Frame, lines: seq<string>)
    requires "" !in lines
    ensures FeedAll(f, lines).1 == []
    decreases |lines|
  {
    hide FieldOf;
    if lines != [] {
      assert lines[0] in lines;
      NothingDispatched(Feed(f, lines[0]).0, lines[1..]);
    }
  }

  /** Of a body that ends cleanly every event is ahead; of one that breaks off, the events
      whose blank line has come. */
  lemma {:induction false} AheadIsParse(lines: seq<string>, ended: seq<string>, rest: seq<string>)
    ensures Ahead(IDLE, lines, false) == Parse(lines)
    ensures lines == ended + [""] + rest && "" !in rest ==> Ahead(IDLE, lines, true) == Parse(ended)
    ensures "" !in lines ==> Ahead(IDLE, lines, true) == []
  {
    hide Feed;
    if "" !in lines {
      NothingDispatched(IDLE, lines);
    }
    if lines == ended + [""] + rest && "" !in rest {
      FeedInTwoParts(IDLE, ended + [""], rest);
      FeedInTwoParts(IDLE, ended, [""]);
      BlankDispatches(FeedAll(IDLE, ended).0);
      NothingDispatched(IDLE, rest);
      assert Parse(ended) + [] == Parse(ended);
    }
  }

  /** A handler that collects events and stops at the n-th, if n is positive. */
  function Collect(n: int): (seq<Event>, Event) -> (seq<Event>, bool) {
    (seen: seq<Event>, e: Event) => (seen + [e], |seen| + 1 == n)
  }

  /** The handler is given the events in order, each once, up to the one it stops at. */
  lemma {:induction false} HandlerSeesInOrder(n: int, seen: seq<Event>, events: seq<Event>)
    requires 0 < n ==> |seen| < n
    ensures Handle(Collect(n), seen, events) ==
      if |seen| < n <= |seen| + |events| then (seen + events[..n - |seen|], true) else (seen + events, false)
    decreases |events|
  {
    if events == [] {
      assert seen + events == seen;
    } else {
      var more := seen + [events[0]];
      if |more| == n {
        assert events[..1] == [events[0]];
      } else {
        HandlerSeesInOrder(n, more, events[1..]);
        assert more + events[1..] == seen + events;
        if |seen| < n <= |seen| + |events| {
          assert more + events[1..][..n - |more|] == seen + events[..n - |seen|];
        }
      }
    }
  }

  /** Read with that handler: all events of a body that ends cleanly, or the first n. */
  lemma {:induction false} ReadCollects(lines: seq<string>, n: int)
    ensures Handle(Collect(n), [], Ahead(IDLE, lines, false))
      == if 0 < n <= |Parse(lines)| then (Parse(lines)[..n], true) else (Parse(lines), false)
  {
    hide Handle, Ahead, Parse;
    AheadIsParse(lines, [], []);
    HandlerSeesInOrder(n, [], Parse(lines));
    assert [] + Parse(lines) == Parse(lines);
    if 0 < n <= |Parse(lines)| {
      assert [] + Parse(lines)[..n] == Parse(lines)[..n];
    }
  }
}
