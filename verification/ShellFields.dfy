/**
 * Splitting an ssh command line into fields and quoting fields back.  Strings are sequences of
 * code points, which is what the program's loops see of valid UTF-8.
 *
 * A dollar sign that was protected in the input is kept as `\$` inside a field, and the quoter
 * knows it; that is what makes splitting after quoting the identity.
 */
module ShellFields {
  datatype Quote = NoQuote | Single | Double

  /** The splitter's loop variables. */
  datatype Splitter = Splitter(fields: seq<string>, field: string, quote: Quote, escaped: bool)

  const START := Splitter([], "", NoQuote, false)

  function Flushed(st: Splitter): Splitter {
    if st.field == "" then st else st.(fields := st.fields + [st.field], field := "")
  }

  /** One round of the splitter's loop. */
  function Step(st: Splitter, c: char): Splitter {
    if st.escaped then st.(field := st.field + (if c == '$' then "\\$" else [c]), escaped := false)
    else match st.quote
      case Single =>
        if c == '\'' then st.(quote := NoQuote)
        else st.(field := st.field + if c == '$' then "\\$" else [c])
      case Double =>
        if c == '"' then st.(quote := NoQuote)
        else if c == '\\' then st.(escaped := true)
        else st.(field := st.field + [c])
      case NoQuote =>
        if c == '\'' then st.(quote := Single)
        else if c == '"' then st.(quote := Double)
        else if c == '\\' then st.(escaped := true)
        else if c == ' ' || c == '\t' || c == '\n' then Flushed(st)
        else st.(field := st.field + [c])
  }

  function Run(st: Splitter, s: string): Splitter
    decreases |s|
  {
    if s == "" then st else Run(Step(st, s[0]), s[1..])
  }

  function Finished(st: Splitter): seq<string> {
    Flushed(if st.escaped then st.(field := st.field + "\\") else st).fields
  }

  function SplitFields(s: string): seq<string> {
    Finished(Run(START, s))
  }

  /** splitShellFields */
  method SplitShellFields(s: string) returns (fields: seq<string>)
    ensures fields == SplitFields(s)
  {
    fields := [];
    var b, quote, escaped := "", NoQuote, false;
    for i := 0 to |s|
      invariant Run(START, s) == Run(Splitter(fields, b, quote, escaped), s[i..])
    {
      var r := s[i];
      assert s[i..][1..] == s[i + 1..];
      if escaped {
        b := b + if r == '$' then "\\$" else [r];
        escaped := false;
        continue;
      }
      if !quote.NoQuote? {
        if r == (if quote.Single? then '\'' else '"') {
          quote := NoQuote;
        } else if r == '$' && quote.Single? {
          b := b + "\\$";
        } else if r == '\\' && quote.Double? {
          escaped := true;
        } else {
          b := b + [r];
        }
      } else if r == '\'' || r == '"' {
        quote := if r == '\'' then Single else Double;
      } else if r == '\\' {
        escaped := true;
      } else if r == ' ' || r == '\t' || r == '\n' {
        if |b| > 0 { fields, b := fields + [b], ""; }
      } else {
        b := b + [r];
      }
    }
    if escaped { b := b + "\\"; }
    if |b| > 0 { fields := fields + [b]; }
  }

  // ---------- Quoting ----------

  predicate SafeChar(c: char) {
    'a' <= c <= 'z' || 'A' <= c <= 'Z' || '0' <= c <= '9' || c in "@%_+=:,./-~$"
  }

  predicate IsShellSafe(s: string) {
    forall i :: 0 <= i < |s| ==> SafeChar(s[i])
  }

  /** strings.ReplaceAll(s, "'", `'\''`) */
  function Requoted(s: string): string {
    if s == "" then "" else (if s[0] == '\'' then "'\\''" else [s[0]]) + Requoted(s[1..])
  }

  predicate NeedsBackslash(c: char) {
    c == '\\' || c == '"' || c == '`'
  }

  /** What doubleQuote writes between its quotes. */
  function Escaped(s: string): string
    decreases |s|
  {
    if s == "" then ""
    else if s[0] == '\\' && |s| > 1 && s[1] == '$' then "\\$" + Escaped(s[2..])
    else (if NeedsBackslash(s[0]) then ['\\', s[0]] else [s[0]]) + Escaped(s[1..])
  }

  /** Between double quotes a shell sees neither an end nor a command in the text. */
  predicate Inert(s: string)
    decreases |s|
  {
    if s == "" then true
    else if s[0] == '\\' then |s| > 1 && Inert(s[2..])
    else s[0] != '"' && s[0] != '`' && Inert(s[1..])
  }

  lemma {:induction false} EscapedIsInert(s: string)
    ensures Inert(Escaped(s))
    decreases |s|
  {
    if s != "" {
      if s[0] == '\\' && |s| > 1 && s[1] == '$' {
        EscapedIsInert(s[2..]);
        assert ("\\$" + Escaped(s[2..]))[2..] == Escaped(s[2..]);
      } else {
        EscapedIsInert(s[1..]);
        if NeedsBackslash(s[0]) { assert (['\\', s[0]] + Escaped(s[1..]))[2..] == Escaped(s[1..]); }
        else { assert ([s[0]] + Escaped(s[1..]))[1..] == Escaped(s[1..]); }
      }
    }
  }

  /** What is left unquoted holds nothing a shell would act on but dollars, which are always quoted. */
  lemma BareIsPlain(s: string, i: nat)
    requires Quoted(s) == s && i < |s|
    ensures s[i] !in "|&;<>()$`\\\"' \t\n*?[]#!{}"
  {
    if '$' in s {
      EscapedGrows(s);
    } else if !IsShellSafe(s) {
      RequotedGrows(s);
    }
  }

  lemma {:induction false} EscapedGrows(s: string)
    ensures |Escaped(s)| >= |s|
    decreases |s|
  {
    if s != "" {
      if s[0] == '\\' && |s| > 1 && s[1] == '$' { EscapedGrows(s[2..]); } else { EscapedGrows(s[1..]); }
    }
  }

  lemma {:induction false} RequotedGrows(s: string)
    ensures |Requoted(s)| >= |s|
    decreases |s|
  {
    if s != "" { RequotedGrows(s[1..]); }
  }

  lemma EscapedFrom(s: string, i: nat)
    requires i < |s|
    ensures Escaped(s[i..]) ==
              if s[i] == '\\' && i + 1 < |s| && s[i + 1] == '$' then "\\$" + Escaped(s[i + 2..])
              else (if NeedsBackslash(s[i]) then ['\\', s[i]] else [s[i]]) + Escaped(s[i + 1..])
  {
  }

  lemma Associates(a: string, b: string, c: string)
    ensures a + (b + c) == (a + b) + c
  {
  }

  method DoubleQuote(s: string) returns (quoted: string)
    ensures quoted == "\"" + Escaped(s) + "\""
  {
    var b, i := "", 0;
    ghost var whole := Escaped(s);
    while i < |s|
      invariant 0 <= i <= |s| && b + Escaped(s[i..]) == whole
    {
      EscapedFrom(s, i);
      if s[i] == '\\' && i + 1 < |s| && s[i + 1] == '$' {
        Associates(b, "\\$", Escaped(s[i + 2..]));
        b := b + "\\$";
        i := i + 2;
        continue;
      }
      var piece := if NeedsBackslash(s[i]) then ['\\', s[i]] else [s[i]];
      Associates(b, piece, Escaped(s[i + 1..]));
      b := b + piece;
      i := i + 1;
    }
    quoted := "\"" + b + "\"";
    assert b + "" == b;
  }

  /** shellQuote */
  function Quoted(s: string): string {
    if s == "" then "''"
    else if '$' in s then "\"" + Escaped(s) + "\""
    else if IsShellSafe(s) then s
    else "'" + Requoted(s) + "'"
  }

  /** strings.Join of the quoted fields with single spaces. */
  function JoinQuoted(fields: seq<string>): string
    decreases |fields|
  {
    if fields == [] then ""
    else if |fields| == 1 then Quoted(fields[0])
    else Quoted(fields[0]) + " " + JoinQuoted(fields[1..])
  }

  // ---------- The round trip ----------

  lemma {:induction false} RunConcat(st: Splitter, a: string, b: string)
    ensures Run(st, a + b) == Run(Run(st, a), b)
    decreases |a|
  {
    if a == "" {
      assert a + b == b;
    } else {
      assert (a + b)[1..] == a[1..] + b;
      RunConcat(Step(st, a[0]), a[1..], b);
    }
  }

  function Grown(st: Splitter, s: string): Splitter {
    st.(field := st.field + s)
  }

  lemma GrownTwice(st: Splitter, a: string, b: string)
    ensures Grown(Grown(st, a), b) == Grown(st, a + b)
  {
  }

  lemma SafeStep(st: Splitter, c: char)
    requires st.quote.NoQuote? && !st.escaped && SafeChar(c)
    ensures Step(st, c) == Grown(st, [c])
  {
  }

  lemma {:induction false} RunSafe(st: Splitter, s: string)
    requires st.quote.NoQuote? && !st.escaped && IsShellSafe(s)
    ensures Run(st, s) == Grown(st, s)
    decreases |s|
  {
    if s == "" {
      assert st.field + s == st.field;
    } else {
      SafeStep(st, s[0]);
      RunSafe(Grown(st, [s[0]]), s[1..]);
      GrownTwice(st, [s[0]], s[1..]);
      assert s == [s[0]] + s[1..];
    }
  }

  lemma RunTwo(st: Splitter, a: char, b: char)
    ensures Run(st, [a, b]) == Step(Step(st, a), b)
  {
    assert [a, b][1..] == [b] && [b][1..] == "";
    assert Run(Step(st, a), [b]) == Run(Step(Step(st, a), b), "");
  }

  // ---------- What the splitter makes of its input ----------

  /** A text in which every dollar is protected. */
  function Protected(s: string): string {
    if s == "" then "" else (if s[0] == '$' then "\\$" else [s[0]]) + Protected(s[1..])
  }

  predicate Between(st: Splitter) {
    st.quote.NoQuote? && !st.escaped
  }

  lemma RunOneMore(st: Splitter, c: char, s: string)
    ensures Run(st, [c] + s) == Run(Step(st, c), s)
  {
    assert ([c] + s)[1..] == s;
  }

  lemma {:induction false} RunSingleQuoted(st: Splitter, s: string)
    requires st.quote.Single? && !st.escaped && '\'' !in s
    ensures Run(st, s) == Grown(st, Protected(s))
    decreases |s|
  {
    if s == "" {
      assert st.field + s == st.field;
    } else {
      var piece := if s[0] == '$' then "\\$" else [s[0]];
      assert Step(st, s[0]) == Grown(st, piece);
      RunSingleQuoted(Grown(st, piece), s[1..]);
      GrownTwice(st, piece, Protected(s[1..]));
    }
  }

  /** A single-quoted text stands for itself, blanks and backslashes included, with its dollars protected. */
  lemma SingleQuotedReads(st: Splitter, s: string)
    requires Between(st) && '\'' !in s
    ensures Run(st, ['\''] + s + ['\'']) == Grown(st, Protected(s))
  {
    assert ['\''] + s + ['\''] == ['\''] + (s + ['\'']);
    RunOneMore(st, '\'', s + ['\'']);
    RunConcat(Step(st, '\''), s, ['\'']);
    RunSingleQuoted(Step(st, '\''), s);
    RunOneMore(Run(Step(st, '\''), s), '\'', "");
    assert ['\''] + "" == ['\''];
  }

  lemma {:induction false} RunDoubleQuoted(st: Splitter, s: string)
    requires st.quote.Double? && !st.escaped && '"' !in s && '\\' !in s
    ensures Run(st, s) == Grown(st, s)
    decreases |s|
  {
    if s == "" {
      assert st.field + s == st.field;
    } else {
      assert Step(st, s[0]) == Grown(st, [s[0]]);
      RunDoubleQuoted(Grown(st, [s[0]]), s[1..]);
      GrownTwice(st, [s[0]], s[1..]);
      assert s == [s[0]] + s[1..];
    }
  }

  /** So does a double-quoted one without quotes and backslashes, and its dollars stay bare. */
  lemma DoubleQuotedReads(st: Splitter, s: string)
    requires Between(st) && '"' !in s && '\\' !in s
    ensures Run(st, ['"'] + s + ['"']) == Grown(st, s)
  {
    assert ['"'] + s + ['"'] == ['"'] + (s + ['"']);
    RunOneMore(st, '"', s + ['"']);
    RunConcat(Step(st, '"'), s, ['"']);
    RunDoubleQuoted(Step(st, '"'), s);
    RunOneMore(Run(Step(st, '"'), s), '"', "");
    assert ['"'] + "" == ['"'];
  }

  /** Outside single quotes a backslash makes the next character stand for itself, a dollar protected. */
  lemma BackslashReads(st: Splitter, c: char)
    requires !st.quote.Single? && !st.escaped
    ensures Run(st, ['\\', c]) == Grown(st, Protected([c]))
  {
    RunTwo(st, '\\', c);
    assert [c][1..] == "" && Protected([c]) == (if c == '$' then "\\$" else [c]) + Protected([c][1..]);
  }

  /** At the very end it stands for itself. */
  lemma TrailingBackslashReads(s: string)
    requires var st := Run(START, s); !st.quote.Single? && !st.escaped
    ensures SplitFields(s + "\\") == Flushed(Grown(Run(START, s), "\\")).fields
  {
    RunConcat(START, s, "\\");
    RunOneMore(Run(START, s), '\\', "");
    assert ['\\'] + "" == "\\";
  }

  /** Fields already split off are never looked at again. */
  lemma {:induction false} RunKeepsFields(done: seq<string>, st: Splitter, s: string)
    ensures var run := Run(st, s);
            Run(st.(fields := done + st.fields), s) == run.(fields := done + run.fields)
    decreases |s|
  {
    if s != "" {
      var next := Step(st, s[0]);
      assert done + (st.fields + [st.field]) == done + st.fields + [st.field];
      assert Step(st.(fields := done + st.fields), s[0]) == next.(fields := done + next.fields);
      RunKeepsFields(done, next, s[1..]);
    }
  }

  /** A blank, tab or newline between fields separates what is before it from what is after it. */
  lemma BlankSeparates(a: string, c: char, b: string)
    requires Between(Run(START, a)) && c in " \t\n"
    ensures SplitFields(a + [c] + b) == SplitFields(a) + SplitFields(b)
  {
    var st := Run(START, a);
    RunConcat(START, a + [c], b);
    RunConcat(START, a, [c]);
    RunOneMore(st, c, "");
    assert [c] + "" == [c];
    var done := Flushed(st).fields;
    assert Flushed(st) == START.(fields := done + START.fields) by { assert done + [] == done; }
    RunKeepsFields(done, START, b);
    var rest := Run(START, b);
    assert Run(START, a + [c] + b) == rest.(fields := done + rest.fields);
    var full := if rest.escaped then Grown(rest, "\\") else rest;
    assert done + (full.fields + [full.field]) == done + full.fields + [full.field];
  }

  /** The four characters written for a quote read back as that quote. */
  lemma RunRequotedQuote(st: Splitter)
    requires st.quote.Single? && !st.escaped
    ensures Run(st, "'\\''") == st.(field := st.field + "'")
  {
    assert "'\\''" == ['\'', '\\'] + ['\'', '\''];
    RunConcat(st, ['\'', '\\'], ['\'', '\'']);
    RunTwo(st, '\'', '\\');
    RunTwo(Run(st, ['\'', '\\']), '\'', '\'');
  }

  lemma {:induction false} RunRequoted(st: Splitter, s: string)
    requires st.quote.Single? && !st.escaped && '$' !in s
    ensures Run(st, Requoted(s)) == st.(field := st.field + s)
    decreases |s|
  {
    if s == "" {
      assert st.field + s == st.field;
    } else {
      var st' := st.(field := st.field + [s[0]]);
      if s[0] == '\'' {
        RunConcat(st, "'\\''", Requoted(s[1..]));
        RunRequotedQuote(st);
      } else {
        RunConcat(st, [s[0]], Requoted(s[1..]));
        assert [s[0]][1..] == "";
        assert Run(st, [s[0]]) == Run(Step(st, s[0]), "");
      }
      RunRequoted(st', s[1..]);
      assert st.field + [s[0]] + s[1..] == st.field + s;
    }
  }

  /** The first character of what doubleQuote wrote, and how it reads back. */
  lemma RunEscapedHead(st: Splitter, s: string)
    requires st.quote.Double? && !st.escaped && s != "" && !(s[0] == '\\' && |s| > 1 && s[1] == '$')
    ensures Run(st, Escaped(s)) == Run(Grown(st, [s[0]]), Escaped(s[1..]))
  {
  }

  lemma RunEscapedDollar(st: Splitter, s: string)
    requires st.quote.Double? && !st.escaped && |s| > 1 && s[0] == '\\' && s[1] == '$'
    ensures Run(st, Escaped(s)) == Run(Grown(st, "\\$"), Escaped(s[2..]))
  {
  }

  lemma {:induction false} RunEscaped(st: Splitter, s: string)
    requires st.quote.Double? && !st.escaped
    ensures Run(st, Escaped(s)) == Grown(st, s)
    decreases |s|
  {
    if s == "" {
      assert st.field + s == st.field;
    } else {
      var n := if s[0] == '\\' && |s| > 1 && s[1] == '$' then 2 else 1;
      if n == 2 {
        RunEscapedDollar(st, s);
        assert s[..n] == "\\$";
      } else {
        RunEscapedHead(st, s);
        assert s[..n] == [s[0]];
      }
      RunEscaped(Grown(st, s[..n]), s[n..]);
      GrownTwice(st, s[..n], s[n..]);
      assert s == s[..n] + s[n..];
    }
  }

  lemma RunOne(st: Splitter, c: char)
    ensures Run(st, [c]) == Step(st, c)
  {
  }

  lemma RunEnclosed(st: Splitter, open: char, body: string, close: char)
    ensures Run(st, [open] + body + [close]) == Step(Run(Step(st, open), body), close)
  {
    RunConcat(st, [open] + body, [close]);
    RunConcat(st, [open], body);
    RunOne(st, open);
    RunOne(Run(st, [open] + body), close);
  }

  /** Between fields, reading a quoted field appends exactly the field. */
  lemma RunQuoted(st: Splitter, s: string)
    requires st.quote.NoQuote? && !st.escaped
    ensures Run(st, Quoted(s)) == Grown(st, s)
  {
    if s == "" {
      RunTwo(st, '\'', '\'');
      assert st.field + s == st.field;
    } else if '$' in s {
      RunEnclosed(st, '"', Escaped(s), '"');
      RunEscaped(Step(st, '"'), s);
    } else if IsShellSafe(s) {
      RunSafe(st, s);
    } else {
      RunEnclosed(st, '\'', Requoted(s), '\'');
      RunRequoted(Step(st, '\''), s);
    }
  }

  function NonEmpty(fields: seq<string>): seq<string>
    decreases |fields|
  {
    if fields == [] then []
    else if fields[0] == "" then NonEmpty(fields[1..])
    else [fields[0]] + NonEmpty(fields[1..])
  }

  function WithField(done: seq<string>, field: string): seq<string> {
    if field == "" then done else done + [field]
  }

  lemma RunField(done: seq<string>, field: string)
    ensures Finished(Run(Splitter(done, "", NoQuote, false), Quoted(field))) == WithField(done, field)
    ensures Run(Splitter(done, "", NoQuote, false), Quoted(field) + " ") ==
            Splitter(WithField(done, field), "", NoQuote, false)
  {
    var st := Splitter(done, "", NoQuote, false);
    RunQuoted(st, field);
    assert "" + field == field;
    RunConcat(st, Quoted(field), " ");
    RunOne(Run(st, Quoted(field)), ' ');
  }

  lemma {:induction false} NonEmptyAfter(done: seq<string>, fields: seq<string>)
    requires fields != []
    ensures WithField(done, fields[0]) + NonEmpty(fields[1..]) == done + NonEmpty(fields)
  {
    var rest := NonEmpty(fields[1..]);
    if fields[0] != "" { assert done + ([fields[0]] + rest) == (done + [fields[0]]) + rest; }
  }

  lemma {:induction false} RunJoined(done: seq<string>, fields: seq<string>)
    ensures Finished(Run(Splitter(done, "", NoQuote, false), JoinQuoted(fields))) == done + NonEmpty(fields)
    decreases |fields|
  {
    if fields == [] {
      assert done + NonEmpty(fields) == done;
    } else {
      RunField(done, fields[0]);
      NonEmptyAfter(done, fields);
      if |fields| == 1 {
        assert NonEmpty(fields[1..]) == [];
        assert WithField(done, fields[0]) + [] == WithField(done, fields[0]);
      } else {
        RunConcat(Splitter(done, "", NoQuote, false), Quoted(fields[0]) + " ", JoinQuoted(fields[1..]));
        RunJoined(WithField(done, fields[0]), fields[1..]);
      }
    }
  }

  /** Splitting the space-joined quoted fields gives back the fields that are not empty. */
  lemma SplitAfterQuote(fields: seq<string>)
    ensures SplitFields(JoinQuoted(fields)) == NonEmpty(fields)
  {
    RunJoined([], fields);
    assert [] + NonEmpty(fields) == NonEmpty(fields);
  }

  lemma {:induction false} NonEmptyIsShorter(fields: seq<string>)
    ensures |NonEmpty(fields)| <= |fields|
    ensures NonEmpty(fields) == fields <==> "" !in fields
    decreases |fields|
  {
    if fields != [] {
      NonEmptyIsShorter(fields[1..]);
      assert fields == [fields[0]] + fields[1..];
      if fields[0] != "" && NonEmpty(fields) == fields {
        assert NonEmpty(fields[1..]) == NonEmpty(fields)[1..] == fields[1..];
      }
    }
  }

  /** The round trip is the identity exactly on the lists without an empty field. */
  lemma RoundTripIff(fields: seq<string>)
    ensures SplitFields(JoinQuoted(fields)) == fields <==> "" !in fields
  {
    SplitAfterQuote(fields);
    NonEmptyIsShorter(fields);
  }
}
