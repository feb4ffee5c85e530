/**
 The two quoting functions (`shellQuote` in `evals/worlds/first-run.ts` and
 `quote` in `evals/worlds/models-analytics.ts`), the command lines built from
 them, and the reading of such a line by a shell: quoting as in sections 2.2.1
 to 2.2.3 of the POSIX.1-2017 Shell Command Language, and splitting into words
 and the `&&` operator.
 */
module ShellQuoting {
  import opened Basics

  // -------- the shell --------

  datatype Token = Word(text: string) | AndIf

  datatype Mode = Plain | Single | Double

  predicate Blank(c: char) { c == ' ' || c == '\t' }

  /** Unquoted, these have a meaning that no quoting function may leave to chance. */
  predicate Special(c: char) {
    || c == '|' || c == '&' || c == ';' || c == '<' || c == '>' || c == '(' || c == ')' || c == '$' || c == '`'
    || c == '*' || c == '?' || c == '[' || c == '#' || c == '~' || c == '%' || c == '!' || c == '{' || c == '}'
    || c == '\n'
  }

  /** Finish the word being collected, if there is one. */
  function Flush(cur: Option<string>, rest: Option<seq<Token>>): Option<seq<Token>> {
    match (cur, rest)
    case (Some(w), Some(tokens)) => Some([Word(w)] + tokens)
    case _ => rest
  }

  function Add(cur: Option<string>, c: char): Option<string> {
    match cur case None => Some([c]) case Some(w) => Some(w + [c])
  }

  /** Start a word, possibly an empty one, where a quote opens. */
  function Begin(cur: Option<string>): Option<string> {
    if cur.None? then Some("") else cur
  }

  /** Read `s` in quoting mode `mode` with `cur` collected so far; `None` is a
      syntax error or a character whose unquoted meaning is not modelled. */
  function Lex(s: string, mode: Mode, cur: Option<string>): Option<seq<Token>> {
    if s == "" then (if mode == Plain then Flush(cur, Some([])) else None)
    else
      var c := s[0];
      match mode
      case Single => if c == '\'' then Lex(s[1..], Plain, cur) else Lex(s[1..], Single, Add(cur, c))
      case Double =>
        if c == '"' then Lex(s[1..], Plain, cur)
        else if c == '$' || c == '`' then None
        else if c == '\\' then
          if |s| == 1 then None
          else if s[1] == '$' || s[1] == '`' || s[1] == '"' || s[1] == '\\' then Lex(s[2..], Double, Add(cur, s[1]))
          else if s[1] == '\n' then Lex(s[2..], Double, cur)
          else Lex(s[1..], Double, Add(cur, c))
        else Lex(s[1..], Double, Add(cur, c))
      case Plain =>
        if c == '\'' then Lex(s[1..], Single, Begin(cur))
        else if c == '"' then Lex(s[1..], Double, Begin(cur))
        else if c == '\\' then
          if |s| == 1 then None
          else if s[1] == '\n' then Lex(s[2..], Plain, cur)
          else Lex(s[2..], Plain, Add(cur, s[1]))
        else if Blank(c) then Flush(cur, Lex(s[1..], Plain, None))
        else if c == '&' && |s| > 1 && s[1] == '&' then
          match Lex(s[2..], Plain, None)
          case None => None
          case Some(tokens) => Flush(cur, Some([AndIf] + tokens))
        else if Special(c) then None
        else Lex(s[1..], Plain, Add(cur, c))
  }

  function Shell(line: string): Option<seq<Token>> { Lex(line, Plain, None) }

  // -------- quoting --------

  /** Which text stands for a single quote: the only point in which the two functions differ. */
  datatype Style = DoubleQuoted | Escaped

  function QuoteMark(style: Style): string {
    if style == DoubleQuoted then "'\"'\"'" else "'\\''"
  }

  function ReplaceQuotes(value: string, style: Style): string {
    if value == "" then ""
    else (if value[0] == '\'' then QuoteMark(style) else [value[0]]) + ReplaceQuotes(value[1..], style)
  }

  /** `shellQuote` is `Quote(_, DoubleQuoted)`, `quote` is `Quote(_, Escaped)`. */
  function Quote(value: string, style: Style): string {
    "'" + ReplaceQuotes(value, style) + "'"
  }

  lemma MarkReads(rest: string, style: Style, w: string)
    ensures Lex(QuoteMark(style) + rest, Single, Some(w)) == Lex(rest, Single, Some(w + "'"))
  {
    if style == DoubleQuoted { DoubleMarkReads(rest, w); } else { EscapedMarkReads(rest, w); }
  }

  /** How the two ways of quoting are spelled: everything stands for itself but single quotes. */
  lemma QuoteSpelling(a: string, b: string, style: Style)
    requires '\'' !in a
    ensures Quote(a, style) == "'" + a + "'"
    ensures Quote(a + "'" + b, style)
            == "'" + (a + ((if style == DoubleQuoted then "'\"'\"'" else "'\\''") + Quote(b, style)[1..]))
  {
    var mark := QuoteMark(style);
    Unquoted(a, style);
    QuoteInside(a, b, style);
    assert Quote(b, style)[1..] == ReplaceQuotes(b, style) + "'";
    Wrapped(a, mark, ReplaceQuotes(b, style));
  }

  lemma Wrapped(a: string, mark: string, rest: string)
    ensures "'" + (a + (mark + rest)) + "'" == "'" + (a + (mark + (rest + "'")))
  {
  }

  lemma {:induction false} Unquoted(a: string, style: Style)
    requires '\'' !in a
    ensures ReplaceQuotes(a, style) == a
  {
    if a != "" { Unquoted(a[1..], style); }
  }

  lemma {:induction false} QuoteInside(a: string, b: string, style: Style)
    requires '\'' !in a
    ensures ReplaceQuotes(a + "'" + b, style) == a + (QuoteMark(style) + ReplaceQuotes(b, style))
  {
    if a == "" {
      assert a + "'" + b == "'" + b && ("'" + b)[1..] == b;
    } else {
      assert (a + "'" + b)[1..] == a[1..] + "'" + b;
      QuoteInside(a[1..], b, style);
      assert [a[0]] + a[1..] == a;
      Associate([a[0]], a[1..], QuoteMark(style) + ReplaceQuotes(b, style));
    }
  }

  lemma DoubleMarkReads(rest: string, w: string)
    ensures Lex("'\"'\"'" + rest, Single, Some(w)) == Lex(rest, Single, Some(w + "'"))
  {
    var last := ['\''] + rest;
    var close := ['"'] + last;
    var quote := ['\''] + close;
    var open := ['"'] + quote;
    assert "'\"'\"'" + rest == ['\''] + open;
    calc {
      Lex(['\''] + open, Single, Some(w));
      { assert (['\''] + open)[1..] == open; }
      Lex(open, Plain, Some(w));
      { assert open[1..] == quote; }
      Lex(quote, Double, Some(w));
      { assert quote[1..] == close; }
      Lex(close, Double, Some(w + "'"));
      { assert close[1..] == last; }
      Lex(last, Plain, Some(w + "'"));
      { assert last[1..] == rest; }
      Lex(rest, Single, Some(w + "'"));
    }
  }

  lemma EscapedMarkReads(rest: string, w: string)
    ensures Lex("'\\''" + rest, Single, Some(w)) == Lex(rest, Single, Some(w + "'"))
  {
    var last := ['\''] + rest;
    var escaped := ['\\', '\''] + last;
    assert "'\\''" + rest == ['\''] + escaped;
    calc {
      Lex(['\''] + escaped, Single, Some(w));
      { assert (['\''] + escaped)[1..] == escaped; }
      Lex(escaped, Plain, Some(w));
      { assert escaped[2..] == last; }
      Lex(last, Plain, Some(w + "'"));
      { assert last[1..] == rest; }
      Lex(rest, Single, Some(w + "'"));
    }
  }

  lemma CharReads(c: char, rest: string, w: string)
    requires c != '\''
    ensures Lex([c] + rest, Single, Some(w)) == Lex(rest, Single, Some(w + [c]))
  {
    assert ([c] + rest)[1..] == rest;
  }

  /** One character of the value, however it is spelled between the quotes. */
  lemma StepReads(c: char, tail: string, style: Style, w: string)
    ensures Lex((if c == '\'' then QuoteMark(style) else [c]) + tail, Single, Some(w)) == Lex(tail, Single, Some(w + [c]))
  {
    if c == '\'' { MarkReads(tail, style, w); } else { CharReads(c, tail, w); }
  }

  lemma {:induction false} BodyReads(value: string, rest: string, style: Style, w: string)
    ensures Lex(ReplaceQuotes(value, style) + rest, Single, Some(w)) == Lex(rest, Single, Some(w + value))
  {
    if value == "" {
      assert ReplaceQuotes(value, style) + rest == rest;
      assert w + value == w;
    } else {
      var tail := ReplaceQuotes(value[1..], style) + rest;
      calc {
        Lex(ReplaceQuotes(value, style) + rest, Single, Some(w));
        { FirstSpelled(value, rest, style); }
        Lex((if value[0] == '\'' then QuoteMark(style) else [value[0]]) + tail, Single, Some(w));
        { StepReads(value[0], tail, style, w); }
        Lex(tail, Single, Some(w + [value[0]]));
        { BodyReads(value[1..], rest, style, w + [value[0]]); }
        Lex(rest, Single, Some((w + [value[0]]) + value[1..]));
        { assert (w + [value[0]]) + value[1..] == w + value; }
        Lex(rest, Single, Some(w + value));
      }
    }
  }

  lemma FirstSpelled(value: string, rest: string, style: Style)
    requires value != ""
    ensures ReplaceQuotes(value, style) + rest
            == (if value[0] == '\'' then QuoteMark(style) else [value[0]]) + (ReplaceQuotes(value[1..], style) + rest)
  {
    Associate(if value[0] == '\'' then QuoteMark(style) else [value[0]], ReplaceQuotes(value[1..], style), rest);
  }

  /** A quoted value adds exactly itself to the word being read, whatever comes before and after. */
  lemma QuoteReads(value: string, rest: string, style: Style, cur: Option<string>)
    ensures Lex(Quote(value, style) + rest, Plain, cur) == Lex(rest, Plain, Some(Begin(cur).value + value))
  {
    var s := Quote(value, style) + rest;
    var w := Begin(cur).value;
    var inner := ReplaceQuotes(value, style) + ("'" + rest);
    assert s == "'" + inner;
    assert s[1..] == inner;
    assert Lex(s, Plain, cur) == Lex(inner, Single, Some(w));
    BodyReads(value, "'" + rest, style, w);
    assert ("'" + rest)[1..] == rest;
  }

  /** Either quoting function is undone by the shell: one word, equal to the value. */
  lemma QuoteRoundTrip(value: string, style: Style)
    ensures Shell(Quote(value, style)) == Some([Word(value)])
  {
    assert Quote(value, style) + "" == Quote(value, style);
    QuoteReads(value, "", style, None);
    assert "" + value == value;
    assert [Word(value)] + [] == [Word(value)];
  }

  // -------- quoted lists --------

  function Words(values: seq<string>): seq<Token> {
    if values == [] then [] else [Word(values[0])] + Words(values[1..])
  }

  function Join(parts: seq<string>, separator: string): string {
    if parts == [] then ""
    else if |parts| == 1 then parts[0]
    else parts[0] + separator + Join(parts[1..], separator)
  }

  function QuoteAll(values: seq<string>, style: Style): (r: seq<string>)
    ensures |r| == |values|
  {
    if values == [] then [] else [Quote(values[0], style)] + QuoteAll(values[1..], style)
  }

  lemma FlushAtBlank(rest: string, w: string)
    ensures Lex(" " + rest, Plain, Some(w)) == Flush(Some(w), Lex(rest, Plain, None))
  {
    assert (" " + rest)[1..] == rest;
  }

  /** Quoted arguments joined by blanks are read back as the same list. */
  lemma {:induction false} JoinRoundTrip(values: seq<string>, style: Style)
    ensures Shell(Join(QuoteAll(values, style), " ")) == Some(Words(values))
  {
    if values == [] {
    } else if |values| == 1 {
      QuoteRoundTrip(values[0], style);
      assert Words(values) == [Word(values[0])];
    } else {
      var rest := Join(QuoteAll(values[1..], style), " ");
      assert QuoteAll(values, style)[1..] == QuoteAll(values[1..], style);
      var q := Quote(values[0], style);
      assert q + " " + rest == q + (" " + rest);
      QuoteReads(values[0], " " + rest, style, None);
      assert "" + values[0] == values[0];
      FlushAtBlank(rest, values[0]);
      JoinRoundTrip(values[1..], style);
    }
  }

  // -------- plain text --------

  /** Characters that stand for themselves outside quotes. */
  predicate Ordinary(c: char) { c != '\'' && c != '"' && c != '\\' && !Blank(c) && !Special(c) }

  predicate PlainText(s: string) { forall c :: c in s ==> Ordinary(c) }

  lemma {:induction false} PlainReads(text: string, rest: string, w: string)
    requires PlainText(text)
    ensures Lex(text + rest, Plain, Some(w)) == Lex(rest, Plain, Some(w + text))
  {
    if text == "" {
      assert text + rest == rest;
      assert w + text == w;
    } else {
      assert (text + rest)[1..] == text[1..] + rest;
      assert Ordinary(text[0]);
      PlainReads(text[1..], rest, w + [text[0]]);
      assert w + text == (w + [text[0]]) + text[1..];
    }
  }

  lemma PlainWordReads(text: string, rest: string)
    requires PlainText(text) && text != ""
    ensures Lex(text + rest, Plain, None) == Lex(rest, Plain, Some(text))
  {
    assert (text + rest)[1..] == text[1..] + rest;
    assert Ordinary(text[0]);
    PlainReads(text[1..], rest, [text[0]]);
    assert [text[0]] + text[1..] == text;
  }

  lemma PlainThenBlank(line: string, text: string, rest: string, tokens: seq<Token>)
    requires PlainText(text) && text != "" && line == text + " " + rest
    requires Shell(rest) == Some(tokens)
    ensures Shell(line) == Some([Word(text)] + tokens)
  {
    assert text + " " + rest == text + (" " + rest);
    PlainWordReads(text, " " + rest);
    FlushAtBlank(rest, text);
  }

  // -------- a command for a remote shell inside a command line --------

  /** `remoteCommand` */
  function RemoteCommand(sandbox: string, command: string): seq<string> {
    ["exec", sandbox, "--", "bash" + " " + "-lc" + " " + Quote(command, DoubleQuoted)]
  }

  lemma TwoWordsFirst(line: string, a: string, b: string, rest: string, tokens: seq<Token>)
    requires PlainText(a) && a != "" && PlainText(b) && b != ""
    requires Shell(rest) == Some(tokens) && line == a + " " + b + " " + rest
    ensures Shell(line) == Some([Word(a), Word(b)] + tokens)
  {
    var after := b + " " + rest;
    PlainThenBlank(after, b, rest, tokens);
    assert line == a + " " + after;
    PlainThenBlank(line, a, after, [Word(b)] + tokens);
    assert [Word(a)] + ([Word(b)] + tokens) == [Word(a), Word(b)] + tokens;
  }

  /** The list names the sandbox, and is one command of four parts. */
  lemma RemoteCommandParts(sandbox: string, command: string)
    ensures var parts := RemoteCommand(sandbox, command);
            |parts| == 4 && parts[..3] == ["exec", sandbox, "--"] && "bash -lc '" <= parts[3]
  {
    var text := Quote(command, DoubleQuoted);
    assert text[0] == '\'';
    assert ("bash" + " " + "-lc" + " " + text)[..10] == "bash -lc '";
  }

  /** The remote login shell is handed exactly the command, however it is written. */
  lemma RemoteCommandRoundTrip(sandbox: string, command: string)
    ensures Shell(RemoteCommand(sandbox, command)[3]) == Some([Word("bash"), Word("-lc")] + [Word(command)])
  {
    QuoteRoundTrip(command, DoubleQuoted);
    TwoWordsFirst(RemoteCommand(sandbox, command)[3], "bash", "-lc", Quote(command, DoubleQuoted), [Word(command)]);
  }

  function ChmodCommand(mode: string, path: string): string {
    "chmod" + " " + mode + " " + Quote(path, DoubleQuoted)
  }

  /** Two shells deep: the path that was quoted for the inner shell arrives there unchanged. */
  lemma ChmodSurvivesTwoShells(sandbox: string, mode: string, path: string)
    requires PlainText(mode) && mode != ""
    ensures Shell(RemoteCommand(sandbox, ChmodCommand(mode, path))[3])
            == Some([Word("bash"), Word("-lc")] + [Word(ChmodCommand(mode, path))])
    ensures Shell(ChmodCommand(mode, path)) == Some([Word("chmod"), Word(mode)] + [Word(path)])
  {
    var command := ChmodCommand(mode, path);
    RemoteCommandRoundTrip(sandbox, command);
    QuoteRoundTrip(path, DoubleQuoted);
    TwoWordsFirst(command, "chmod", mode, Quote(path, DoubleQuoted), [Word(path)]);
  }

  function QuoteTimes(value: string, style: Style, n: nat): string {
    if n == 0 then value else Quote(QuoteTimes(value, style, n - 1), style)
  }

  /** `n` shells in a row, each handing its only word to the next. */
  function Unquote(line: string, n: nat): Option<string>
    decreases n
  {
    if n == 0 then Some(line)
    else match Shell(line)
      case Some(tokens) => if |tokens| == 1 && tokens[0].Word? then Unquote(tokens[0].text, n - 1) else None
      case None => None
  }

  /** Quoting survives any depth of nesting. */
  lemma {:induction false} NestedQuoting(value: string, style: Style, n: nat)
    ensures Unquote(QuoteTimes(value, style, n), n) == Some(value)
  {
    if n > 0 {
      QuoteRoundTrip(QuoteTimes(value, style, n - 1), style);
      NestedQuoting(value, style, n - 1);
    }
  }

  // -------- an environment and an argument list after a change of directory --------

  datatype Setting = Setting(name: string, value: string)

  function Assignments(env: seq<Setting>): (r: seq<string>)
    ensures |r| == |env|
  {
    if env == [] then [] else [env[0].name + "=" + Quote(env[0].value, Escaped)] + Assignments(env[1..])
  }

  /** The remote command line of `arrange`. */
  function ArrangeLine(env: seq<Setting>, args: seq<string>): string {
    var settings := Join(Assignments(env), " ") + " " + Join(QuoteAll(args, Escaped), " ");
    "cd" + " " + "/workspace" + " " + ("&& " + ("env" + " " + settings))
  }

  function Settings(env: seq<Setting>): seq<string> {
    if env == [] then [] else [env[0].name + "=" + env[0].value] + Settings(env[1..])
  }

  lemma AssignmentReads(x: Setting, rest: string)
    requires PlainText(x.name) && x.name != ""
    ensures Lex(x.name + "=" + Quote(x.value, Escaped) + rest, Plain, None) == Lex(rest, Plain, Some(x.name + "=" + x.value))
  {
    var q := Quote(x.value, Escaped);
    var start := x.name + "=";
    assert x.name + "=" + q + rest == start + (q + rest);
    PlainWordReads(start, q + rest);
    QuoteReads(x.value, rest, Escaped, Some(start));
  }

  lemma AssignmentThenBlank(x: Setting, line: string, rest: string, tokens: seq<Token>)
    requires PlainText(x.name) && x.name != ""
    requires Shell(rest) == Some(tokens) && line == x.name + "=" + Quote(x.value, Escaped) + " " + rest
    ensures Shell(line) == Some([Word(x.name + "=" + x.value)] + tokens)
  {
    assert line == x.name + "=" + Quote(x.value, Escaped) + (" " + rest);
    AssignmentReads(x, " " + rest);
    FlushAtBlank(rest, x.name + "=" + x.value);
  }

  lemma {:induction false} AssignmentsRead(env: seq<Setting>, rest: string, tokens: seq<Token>)
    requires forall x :: x in env ==> PlainText(x.name) && x.name != ""
    requires Shell(rest) == Some(tokens)
    ensures Shell(Join(Assignments(env), " ") + " " + rest) == Some(Words(Settings(env)) + tokens)
  {
    if env == [] {
      assert ("" + " " + rest)[1..] == rest;
      assert Words([]) + tokens == tokens;
    } else {
      var tail := if |env| == 1 then rest else Join(Assignments(env[1..]), " ") + " " + rest;
      var after := if |env| == 1 then tokens else Words(Settings(env[1..])) + tokens;
      if |env| > 1 { AssignmentsRead(env[1..], rest, tokens); }
      JoinAssignments(env, rest, tail);
      AssignmentThenBlank(env[0], Join(Assignments(env), " ") + " " + rest, tail, after);
      WordsOfSettings(env, tokens, after);
    }
  }

  lemma JoinAssignments(env: seq<Setting>, rest: string, tail: string)
    requires env != []
    requires tail == if |env| == 1 then rest else Join(Assignments(env[1..]), " ") + " " + rest
    ensures Join(Assignments(env), " ") + " " + rest == env[0].name + "=" + Quote(env[0].value, Escaped) + " " + tail
  {
    var parts := Assignments(env);
    assert parts[1..] == Assignments(env[1..]);
    if |env| > 1 { Reassociate(parts[0], Join(parts[1..], " "), rest); }
  }

  lemma Reassociate(a: string, b: string, c: string)
    ensures a + " " + b + " " + c == a + " " + (b + " " + c)
  {
  }

  lemma WordsOfSettings(env: seq<Setting>, tokens: seq<Token>, after: seq<Token>)
    requires env != []
    requires after == if |env| == 1 then tokens else Words(Settings(env[1..])) + tokens
    ensures Words(Settings(env)) + tokens == [Word(env[0].name + "=" + env[0].value)] + after
  {
    assert Settings(env)[1..] == Settings(env[1..]);
    assert |env| == 1 ==> Settings(env[1..]) == [] && Words([]) == [];
  }

  lemma AndIfReads(rest: string, tokens: seq<Token>)
    requires Shell(rest) == Some(tokens)
    ensures Shell("&& " + rest) == Some([AndIf] + tokens)
  {
    var line := "&& " + rest;
    assert line[2..] == " " + rest;
    assert (" " + rest)[1..] == rest;
    assert Lex(" " + rest, Plain, None) == Some(tokens);
    assert line[0] == '&' && line[1] == '&';
  }

  /** The whole line reads as the change of directory and then `env` with every setting and every argument intact. */
  lemma ArrangeRoundTrip(env: seq<Setting>, args: seq<string>)
    requires forall x :: x in env ==> PlainText(x.name) && x.name != ""
    ensures Shell(ArrangeLine(env, args)) ==
            Some([Word("cd"), Word("/workspace")] + ([AndIf] + ([Word("env")] + (Words(Settings(env)) + Words(args)))))
  {
    var quoted := Join(QuoteAll(args, Escaped), " ");
    var settings := Join(Assignments(env), " ") + " " + quoted;
    JoinRoundTrip(args, Escaped);
    AssignmentsRead(env, quoted, Words(args));
    ArrangeReads(ArrangeLine(env, args), settings, Words(Settings(env)) + Words(args));
  }

  lemma ArrangeReads(line: string, settings: string, tokens: seq<Token>)
    requires Shell(settings) == Some(tokens) && line == "cd" + " " + "/workspace" + " " + ("&& " + ("env" + " " + settings))
    ensures Shell(line) == Some([Word("cd"), Word("/workspace")] + ([AndIf] + ([Word("env")] + tokens)))
  {
    var command := "env" + " " + settings;
    PlainThenBlank(command, "env", settings, tokens);
    AndIfReads(command, [Word("env")] + tokens);
    TwoWordsFirst(line, "cd", "/workspace", "&& " + command, [AndIf] + ([Word("env")] + tokens));
  }
}
