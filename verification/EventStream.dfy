/**
 The incremental event-stream reader of `evals/worlds/title-recovery.ts` and the
 printer `sendStream` of `evals/worlds/omnirush-server-cli.ts`.  Text arrives in
 chunks cut anywhere; lines end in a line feed (WHATWG HTML Standard, section
 9.2.5), and lines that start with the data field carry events.
 */
module EventStream {
  import opened Basics

  const DATA := "data: "

  // -------- lines --------

  /** The position of the first line feed, or the length of the text. */
  function FirstBreak(s: string): (i: nat)
    ensures i <= |s|
    ensures '\n' !in s[..i]
    ensures i < |s| ==> s[i] == '\n'
  {
    if s == "" || s[0] == '\n' then 0 else 1 + FirstBreak(s[1..])
  }

  /** The complete lines of a text, without their line feeds. */
  function Lines(s: string): seq<string>
    decreases |s|
  {
    var i := FirstBreak(s);
    if i == |s| then [] else [s[..i]] + Lines(s[i + 1..])
  }

  /** What follows the last line feed. */
  function Leftover(s: string): string
    decreases |s|
  {
    var i := FirstBreak(s);
    if i == |s| then s else Leftover(s[i + 1..])
  }

  function Unlines(lines: seq<string>): string {
    if lines == [] then "" else lines[0] + "\n" + Unlines(lines[1..])
  }

  lemma {:induction false} LinesReassemble(s: string)
    ensures Unlines(Lines(s)) + Leftover(s) == s
    ensures '\n' !in Leftover(s)
    ensures forall line :: line in Lines(s) ==> '\n' !in line
    decreases |s|
  {
    var i := FirstBreak(s);
    if i == |s| {
      assert s[..i] == s;
    } else {
      LinesReassemble(s[i + 1..]);
      SplitAt(s, i);
      UnlinesCons(s[..i], Lines(s[i + 1..]));
      Associate(s[..i] + "\n", Unlines(Lines(s[i + 1..])), Leftover(s[i + 1..]));
    }
  }

  lemma SplitAt(s: string, i: nat)
    requires i < |s| && s[i] == '\n'
    ensures s == s[..i] + "\n" + s[i + 1..]
  {
  }

  lemma UnlinesCons(line: string, lines: seq<string>)
    ensures Unlines([line] + lines) == line + "\n" + Unlines(lines)
  {
    assert ([line] + lines)[1..] == lines;
  }

  lemma BreakUnique(s: string, i: nat)
    requires i <= |s| && '\n' !in s[..i] && (i < |s| ==> s[i] == '\n')
    ensures FirstBreak(s) == i
  {
  }

  /** Reading on: more text only completes the leftover. */
  lemma {:induction false} LinesExtend(s: string, t: string)
    ensures Lines(s + t) == Lines(s) + Lines(Leftover(s) + t)
    ensures Leftover(s + t) == Leftover(Leftover(s) + t)
    decreases |s|
  {
    var i := FirstBreak(s);
    if i < |s| {
      LineThenMore(s, t, i);
      LinesExtend(s[i + 1..], t);
      ConsConcat([s[..i]] + Lines(s[i + 1..]), Lines(Leftover(s) + t));
    }
  }

  lemma LineThenMore(s: string, t: string, i: nat)
    requires i == FirstBreak(s) < |s|
    ensures Lines(s + t) == [s[..i]] + Lines(s[i + 1..] + t)
    ensures Leftover(s + t) == Leftover(s[i + 1..] + t)
  {
    assert (s + t)[..i] == s[..i];
    BreakUnique(s + t, i);
    assert (s + t)[i + 1..] == s[i + 1..] + t;
  }

  lemma {:induction false} LinesOfUnlines(lines: seq<string>, rest: string)
    requires forall line :: line in lines ==> '\n' !in line
    ensures Lines(Unlines(lines) + rest) == lines + Lines(rest)
    ensures Leftover(Unlines(lines) + rest) == Leftover(rest)
  {
    if lines == [] {
      assert Unlines(lines) + rest == rest;
    } else {
      var more := Unlines(lines[1..]) + rest;
      assert Unlines(lines) + rest == lines[0] + "\n" + more by {
        Associate(lines[0] + "\n", Unlines(lines[1..]), rest);
      }
      assert lines[0] in lines;
      FirstLine(lines[0], more);
      LinesOfUnlines(lines[1..], rest);
      ConsConcat(lines, Lines(rest));
    }
  }

  lemma ConsConcat(lines: seq<string>, rest: seq<string>)
    requires lines != []
    ensures [lines[0]] + (lines[1..] + rest) == lines + rest
  {
  }

  lemma FirstLine(line: string, more: string)
    requires '\n' !in line
    ensures Lines(line + "\n" + more) == [line] + Lines(more)
    ensures Leftover(line + "\n" + more) == Leftover(more)
  {
    var s, n := line + "\n" + more, |line|;
    assert s[..n] == line;
    BreakUnique(s, n);
    assert s[n + 1..] == more;
  }

  // -------- events --------

  /** What the JSON text of a data line means to the reader. */
  datatype Parsed<T> = Malformed | Irrelevant | Update(value: T)

  /** `updates` so far, and whether a malformed event has ended the reading. */
  datatype Reading<T> = Reading(updates: seq<T>, broken: bool)

  function ReadLine<T>(r: Reading<T>, line: string, parse: string -> Parsed<T>): Reading<T> {
    if r.broken || !(DATA <= line) then r
    else match parse(line[|DATA|..])
      case Malformed => r.(broken := true)
      case Irrelevant => r
      case Update(value) => r.(updates := r.updates + [value])
  }

  /** A line without the data field, as it stands, changes nothing; the rest of one that has it is parsed. */
  lemma LineMeans<T>(r: Reading<T>, line: string, parse: string -> Parsed<T>)
    ensures !("data: " <= line) ==> ReadLine(r, line, parse) == r
    ensures "data: " <= line && !r.broken ==>
              ReadLine(r, line, parse) ==
              match parse(line[6..])
              case Malformed => Reading(r.updates, true)
              case Irrelevant => r
              case Update(value) => Reading(r.updates + [value], false)
  {
  }

  function ReadLines<T>(r: Reading<T>, lines: seq<string>, parse: string -> Parsed<T>): Reading<T>
    decreases |lines|
  {
    if lines == [] then r else ReadLines(ReadLine(r, lines[0], parse), lines[1..], parse)
  }

  lemma {:induction false} ReadAppend<T>(r: Reading<T>, a: seq<string>, b: seq<string>, parse: string -> Parsed<T>)
    ensures ReadLines(r, a + b, parse) == ReadLines(ReadLines(r, a, parse), b, parse)
    decreases |a|
  {
    if a == [] {
      assert a + b == b;
    } else {
      assert (a + b)[1..] == a[1..] + b;
      ReadAppend(ReadLine(r, a[0], parse), a[1..], b, parse);
    }
  }

  lemma {:induction false} BrokenStays<T>(r: Reading<T>, lines: seq<string>, parse: string -> Parsed<T>)
    requires r.broken
    ensures ReadLines(r, lines, parse) == r
    decreases |lines|
  {
    if lines != [] { BrokenStays(r, lines[1..], parse); }
  }

  /** The reader as an object; `Feed` is one round of the loop around `reader.read()`. */
  class Reader<T> {
    const parse: string -> Parsed<T>
    var buffer: string
    var updates: seq<T>
    var broken: bool

    constructor (parse: string -> Parsed<T>)
      ensures this.parse == parse && buffer == "" && View() == Reading([], false)
    {
      this.parse := parse;
      buffer, updates, broken := "", [], false;
    }

    ghost function View(): Reading<T>
      reads this
    {
      Reading(updates, broken)
    }

    method Feed(chunk: string)
      modifies this
      ensures View() == ReadLines(old(View()), Lines(old(buffer) + chunk), parse)
      ensures !broken ==> buffer == Leftover(old(buffer) + chunk)
    {
      if broken {
        BrokenStays(View(), Lines(buffer + chunk), parse);
        return;
      }
      buffer := buffer + chunk;
      ghost var text := buffer;
      var end := FirstBreak(buffer);
      while end < |buffer| && !broken
        invariant end == FirstBreak(buffer)
        invariant ReadLines(old(View()), Lines(text), parse) == ReadLines(View(), Lines(buffer), parse)
        invariant Leftover(text) == Leftover(buffer)
        decreases |buffer|
      {
        var line := buffer[..end];
        buffer := buffer[end + 1..];
        end := FirstBreak(buffer);
        if DATA <= line {
          match parse(line[|DATA|..])
          case Malformed => broken := true;
          case Irrelevant =>
          case Update(value) => updates := updates + [value];
        }
      }
      if broken { BrokenStays(View(), Lines(buffer), parse); }
    }
  }

  function Concat(chunks: seq<string>): string {
    if chunks == [] then "" else chunks[0] + Concat(chunks[1..])
  }

  /** The reader's data; the buffer no longer matters once the reading is broken. */
  datatype Pipe<T> = Pipe(buffer: string, reading: Reading<T>)

  function FeedChunk<T>(p: Pipe<T>, chunk: string, parse: string -> Parsed<T>): Pipe<T> {
    Pipe(Leftover(p.buffer + chunk), ReadLines(p.reading, Lines(p.buffer + chunk), parse))
  }

  function FeedAll<T>(p: Pipe<T>, chunks: seq<string>, parse: string -> Parsed<T>): Pipe<T>
    decreases |chunks|
  {
    if chunks == [] then p else FeedAll(FeedChunk(p, chunks[0], parse), chunks[1..], parse)
  }

  /** Feeding chunk by chunk is feeding the whole text at once, wherever the cuts are. */
  lemma {:induction false} CutsDoNotMatter<T>(p: Pipe<T>, chunks: seq<string>, parse: string -> Parsed<T>)
    requires '\n' !in p.buffer
    ensures FeedAll(p, chunks, parse) == FeedChunk(p, Concat(chunks), parse)
    decreases |chunks|
  {
    if chunks == [] {
      assert p.buffer + "" == p.buffer;
      BreakUnique(p.buffer, |p.buffer|);
    } else {
      var q := FeedChunk(p, chunks[0], parse);
      LinesReassemble(p.buffer + chunks[0]);
      CutsDoNotMatter(q, chunks[1..], parse);
      Associate(p.buffer, chunks[0], Concat(chunks[1..]));
      LinesExtend(p.buffer + chunks[0], Concat(chunks[1..]));
      ReadAppend(p.reading, Lines(p.buffer + chunks[0]), Lines(q.buffer + Concat(chunks[1..])), parse);
    }
  }

  /** The loop around `reader.read()`. */
  method ReadAll<T>(chunks: seq<string>, parse: string -> Parsed<T>) returns (updates: seq<T>, broken: bool, leftover: string)
    ensures Reading(updates, broken) == ReadLines(Reading([], false), Lines(Concat(chunks)), parse)
    ensures !broken ==> leftover == Leftover(Concat(chunks))
  {
    var reader := new Reader<T>(parse);
    ghost var start: Pipe<T> := Pipe("", Reading([], false));
    ghost var p := start;
    var n := 0;
    while n < |chunks|
      invariant n <= |chunks| && fresh(reader) && reader.parse == parse
      invariant FeedAll(start, chunks, parse) == FeedAll(p, chunks[n..], parse)
      invariant reader.View() == p.reading && (!reader.broken ==> reader.buffer == p.buffer)
    {
      if p.reading.broken {
        BrokenStays(p.reading, Lines(p.buffer + chunks[n]), parse);
        BrokenStays(p.reading, Lines(reader.buffer + chunks[n]), parse);
      }
      reader.Feed(chunks[n]);
      p := FeedChunk(p, chunks[n], parse);
      n := n + 1;
    }
    CutsDoNotMatter(start, chunks, parse);
    assert "" + Concat(chunks) == Concat(chunks);
    updates, broken, leftover := reader.updates, reader.broken, reader.buffer;
  }

  // -------- the printer --------

  const DONE := "[DONE]"

  function Frame(payload: string): string { DATA + payload + "\n\n" }

  function Frames(payloads: seq<string>): string {
    if payloads == [] then "" else Frame(payloads[0]) + Frames(payloads[1..])
  }

  function Stream(payloads: seq<string>): string { Frames(payloads) + Frame(DONE) }

  lemma FramesFrom(text: string, payloads: seq<string>, n: nat)
    requires n < |payloads|
    ensures text + Frames(payloads[n..]) == (text + Frame(payloads[n])) + Frames(payloads[n + 1..])
  {
    assert payloads[n..][1..] == payloads[n + 1..];
    Associate(text, Frame(payloads[n]), Frames(payloads[n + 1..]));
  }

  /** `sendStream`: one frame after the other, then the end marker. */
  method SendStream(payloads: seq<string>) returns (text: string)
    ensures text == Stream(payloads)
  {
    text := "";
    var n := 0;
    while n < |payloads|
      invariant n <= |payloads|
      invariant Frames(payloads) == text + Frames(payloads[n..])
    {
      FramesFrom(text, payloads, n);
      text := text + (DATA + payloads[n] + "\n\n");
      n := n + 1;
    }
    assert payloads[n..] == [] && text + "" == text;
    text := text + (DATA + DONE + "\n\n");
  }

  function FrameLines(payloads: seq<string>): seq<string> {
    if payloads == [] then [] else [DATA + payloads[0], ""] + FrameLines(payloads[1..])
  }

  lemma {:induction false} FramesAreLines(payloads: seq<string>)
    ensures Frames(payloads) == Unlines(FrameLines(payloads))
  {
    if payloads != [] {
      FramesAreLines(payloads[1..]);
      var lines := FrameLines(payloads);
      assert lines[1..] == [""] + FrameLines(payloads[1..]);
      assert lines[1..][1..] == FrameLines(payloads[1..]);
      assert Unlines(lines) == (DATA + payloads[0]) + "\n" + ("" + "\n" + Unlines(FrameLines(payloads[1..])));
      assert Frame(payloads[0]) == (DATA + payloads[0]) + "\n" + ("" + "\n");
    }
  }

  lemma {:induction false} FrameLinesUnbroken(payloads: seq<string>)
    requires forall p :: p in payloads ==> '\n' !in p
    ensures forall line :: line in FrameLines(payloads) ==> '\n' !in line
  {
    if payloads != [] {
      assert payloads[0] in payloads;
      FrameLinesUnbroken(payloads[1..]);
    }
  }

  /** What a list of payloads means: the updates in it, up to the first malformed one. */
  function Meaning<T>(payloads: seq<string>, parse: string -> Parsed<T>): Reading<T> {
    if payloads == [] then Reading([], false)
    else match parse(payloads[0])
      case Malformed => Reading([], true)
      case Irrelevant => Meaning(payloads[1..], parse)
      case Update(value) =>
        var r := Meaning(payloads[1..], parse);
        r.(updates := [value] + r.updates)
  }

  function Extended<T>(r: Reading<T>, more: Reading<T>): Reading<T> {
    if r.broken then r else Reading(r.updates + more.updates, more.broken)
  }

  lemma {:induction false} ReadFrames<T>(r: Reading<T>, payloads: seq<string>, parse: string -> Parsed<T>)
    ensures ReadLines(r, FrameLines(payloads), parse) == Extended(r, Meaning(payloads, parse))
    decreases |payloads|
  {
    if payloads == [] {
      assert r.updates + [] == r.updates;
    } else {
      var lines := FrameLines(payloads);
      var next := ReadLine(r, lines[0], parse);
      assert lines[0][|DATA|..] == payloads[0];
      assert lines[1..][0] == "" && lines[1..][1..] == FrameLines(payloads[1..]);
      assert ReadLine(next, "", parse) == next;
      ReadFrames(next, payloads[1..], parse);
      assert ReadLines(r, lines, parse) == Extended(next, Meaning(payloads[1..], parse));
      if !r.broken && parse(payloads[0]).Update? {
        assert next.updates + Meaning(payloads[1..], parse).updates == r.updates + Meaning(payloads, parse).updates;
      }
    }
  }

  /** The payloads of the lines that have the data field, in order. */
  ghost function DataOf(lines: seq<string>): seq<string> {
    if lines == [] then [] else (if "data: " <= lines[0] then [lines[0][6..]] else []) + DataOf(lines[1..])
  }

  /** The reader takes in any lines whatever as it takes in the payloads of those with the data field. */
  lemma {:induction false} ReadIsMeaning<T>(r: Reading<T>, lines: seq<string>, parse: string -> Parsed<T>)
    ensures ReadLines(r, lines, parse) == Extended(r, Meaning(DataOf(lines), parse))
    decreases |lines|
  {
    if lines == [] {
      assert r.updates + [] == r.updates;
    } else {
      var next := ReadLine(r, lines[0], parse);
      ReadIsMeaning(next, lines[1..], parse);
      LineMeans(r, lines[0], parse);
      if "data: " <= lines[0] {
        OnePayload(r, next, lines[0][6..], DataOf(lines[1..]), parse);
      } else {
        assert DataOf(lines) == DataOf(lines[1..]);
      }
    }
  }

  lemma OnePayload<T>(r: Reading<T>, next: Reading<T>, payload: string, more: seq<string>, parse: string -> Parsed<T>)
    requires r.broken ==> next == r
    requires !r.broken ==> next == match parse(payload)
                                   case Malformed => Reading(r.updates, true)
                                   case Irrelevant => r
                                   case Update(value) => Reading(r.updates + [value], false)
    ensures Extended(next, Meaning(more, parse)) == Extended(r, Meaning([payload] + more, parse))
  {
    assert ([payload] + more)[1..] == more;
    if !r.broken && parse(payload).Update? {
      Associate(r.updates, [parse(payload).value], Meaning(more, parse).updates);
    }
  }

  /** What the printer writes, literally. */
  lemma {:induction false} StreamSpelling(payloads: seq<string>)
    ensures Stream([]) == "data: [DONE]\n\n"
    ensures payloads != [] ==> Stream(payloads) == "data: " + payloads[0] + "\n\n" + Stream(payloads[1..])
  {
    if payloads != [] { Associate(Frame(payloads[0]), Frames(payloads[1..]), Frame(DONE)); }
  }

  /** However `sendStream`'s text is cut on its way and whatever its payloads mean to
      the reader, the reader takes in exactly the payloads in order and then the end
      marker, and nothing is left over. */
  lemma StreamMeaning<T>(payloads: seq<string>, chunks: seq<string>, parse: string -> Parsed<T>)
    requires forall p :: p in payloads ==> '\n' !in p
    requires Concat(chunks) == Stream(payloads)
    ensures FeedAll(Pipe("", Reading([], false)), chunks, parse) == Pipe("", Meaning(payloads + [DONE], parse))
  {
    CutsDoNotMatter(Pipe("", Reading([], false)), chunks, parse);
    assert "" + Stream(payloads) == Stream(payloads);
    StreamReads(payloads, parse);
  }

  lemma StreamReads<T>(payloads: seq<string>, parse: string -> Parsed<T>)
    requires forall p :: p in payloads ==> '\n' !in p
    ensures ReadLines(Reading([], false), Lines(Stream(payloads)), parse) == Meaning(payloads + [DONE], parse)
    ensures Leftover(Stream(payloads)) == ""
  {
    var all := payloads + [DONE];
    FramesAppend(payloads, DONE);
    FramesAreLines(all);
    FrameLinesUnbroken(all);
    assert Unlines(FrameLines(all)) + "" == Stream(payloads);
    LinesOfUnlines(FrameLines(all), "");
    assert FrameLines(all) + Lines("") == FrameLines(all);
    ReadFrames(Reading([], false), all, parse);
    assert [] + Meaning(all, parse).updates == Meaning(all, parse).updates;
  }

  /** A reader that takes every data line for what it says. */
  function Payload(text: string): Parsed<string> { Update(text) }

  lemma {:induction false} PayloadsAsTheyAre(payloads: seq<string>)
    ensures Meaning(payloads, Payload) == Reading(payloads, false)
  {
    if payloads != [] {
      PayloadsAsTheyAre(payloads[1..]);
      assert payloads == [payloads[0]] + payloads[1..];
    }
  }

  /** In particular the payloads themselves come back. */
  lemma StreamRoundTrip(payloads: seq<string>, chunks: seq<string>)
    requires forall p :: p in payloads ==> '\n' !in p
    requires Concat(chunks) == Stream(payloads)
    ensures FeedAll(Pipe("", Reading([], false)), chunks, Payload) == Pipe("", Reading(payloads + [DONE], false))
  {
    StreamMeaning(payloads, chunks, Payload);
    PayloadsAsTheyAre(payloads + [DONE]);
  }

  /** To a reader for which the end marker is not an event, a stream of good events
      gives all its updates and then ends in the error. */
  lemma {:induction false} MarkerBreaks<T>(payloads: seq<string>, parse: string -> Parsed<T>)
    requires parse(DONE).Malformed? && !Meaning(payloads, parse).broken
    ensures Meaning(payloads + [DONE], parse) == Reading(Meaning(payloads, parse).updates, true)
  {
    if payloads == [] {
      assert payloads + [DONE] == [DONE];
    } else {
      assert (payloads + [DONE])[1..] == payloads[1..] + [DONE];
      MarkerBreaks(payloads[1..], parse);
    }
  }

  lemma {:induction false} FramesAppend(payloads: seq<string>, last: string)
    ensures Frames(payloads + [last]) == Frames(payloads) + Frame(last)
  {
    if payloads == [] {
      assert Frames([last]) == Frame(last) + Frames([]);
    } else {
      assert (payloads + [last])[1..] == payloads[1..] + [last];
      FramesAppend(payloads[1..], last);
    }
  }
}
