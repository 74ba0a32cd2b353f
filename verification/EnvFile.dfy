/** The managed environment file: one `KEY=value` line per setting, quoted for the shell when it
    is written and parsed by shell rules when it is read (section 2.2 of the Shell Command
    Language in IEEE Std 1003.1). A file is the text of its code points. */
module EnvFile {
  import opened Model
  import opened Text

  // ----- lines

  /** The index of the first line break, or the length of the text. */
  function LineEnd(s: string): (n: nat)
    ensures n <= |s| && (forall i :: 0 <= i < n ==> !LineBreak(s[i])) && (n < |s| ==> LineBreak(s[n]))
  {
    if s == [] || LineBreak(s[0]) then 0 else 1 + LineEnd(s[1..])
  }

  /** A carriage return and the newline after it are one break. */
  function BreakLength(s: string): (n: nat)
    requires s != []
    ensures 1 <= n <= |s|
  {
    if |s| >= 2 && s[0] == '\r' && s[1] == '\n' then 2 else 1
  }

  function SplitLines(s: string): seq<string>
    decreases |s|
  {
    if s == [] then []
    else
      var n := LineEnd(s);
      if n == |s| then [s] else [s[..n]] + SplitLines(s[n + BreakLength(s[n..])..])
  }

  function Join(lines: seq<string>): string {
    if lines == [] then "" else if |lines| == 1 then lines[0] else lines[0] + "\n" + Join(lines[1..])
  }

  predicate OneLine(s: string) {
    forall i :: 0 <= i < |s| ==> !LineBreak(s[i])
  }

  predicate AllOneLine(lines: seq<string>) {
    forall i :: 0 <= i < |lines| ==> OneLine(lines[i])
  }

  lemma {:induction false} SplitLinesAreOneLine(s: string)
    ensures AllOneLine(SplitLines(s))
    decreases |s|
  {
    if s != [] && LineEnd(s) < |s| {
      SplitLinesAreOneLine(s[LineEnd(s) + BreakLength(s[LineEnd(s)..])..]);
    }
  }

  lemma {:induction false} LineEndOf(line: string, rest: string)
    requires OneLine(line)
    ensures LineEnd(line + "\n" + rest) == |line|
  {
    var s := line + "\n" + rest;
    assert s[|line|] == '\n';
    assert forall i :: 0 <= i < |line| ==> s[i] == line[i];
  }

  lemma FirstLine(line: string, rest: string)
    requires OneLine(line)
    ensures SplitLines(line + "\n" + rest) == [line] + SplitLines(rest)
  {
    var s := line + "\n" + rest;
    LineEndOf(line, rest);
    assert s[..|line|] == line && s[|line|..][0] == '\n' && s[|line| + 1..] == rest;
  }

  lemma LastLine(line: string)
    requires OneLine(line)
    ensures SplitLines(line + "\n") == [line]
  {
    FirstLine(line, "");
    assert line + "\n" + "" == line + "\n";
  }

  /** A line ends at any line break, and a carriage return takes the newline after it along. */
  lemma LinesEndAtBreaks(line: string, c: char, rest: string)
    requires OneLine(line) && LineBreak(c)
    ensures SplitLines(line + [c] + rest) ==
            [line] + SplitLines(if c == '\r' && rest != [] && rest[0] == '\n' then rest[1..] else rest)
  {
    hide LineEnd, LineBreak, OneLine, SplitLines, BreakLength;
    var s := line + [c] + rest;
    LineEndAt(line, c, rest);
    assert s[..|line|] == line && s[|line|..] == [c] + rest;
    BreakIs(c, rest);
    if c == '\r' && rest != [] && rest[0] == '\n' {
      assert s[|line| + 2..] == rest[1..];
      SplitAtBreak(s, line, rest[1..]);
    } else {
      assert s[|line| + 1..] == rest;
      SplitAtBreak(s, line, rest);
    }
  }

  lemma SplitAtBreak(s: string, line: string, rest: string)
    requires s != [] && LineEnd(s) == |line| < |s| && s[..|line|] == line
    requires rest == s[|line| + BreakLength(s[|line|..])..]
    ensures SplitLines(s) == [line] + SplitLines(rest)
  {
    hide LineBreak;
  }

  lemma BreakIs(c: char, rest: string)
    ensures BreakLength([c] + rest) == if c == '\r' && rest != [] && rest[0] == '\n' then 2 else 1
  {
  }

  lemma {:induction false} LineEndAt(line: string, c: char, rest: string)
    requires OneLine(line) && LineBreak(c)
    ensures LineEnd(line + [c] + rest) == |line|
  {
    var s := line + [c] + rest;
    assert s[|line|] == c;
    assert forall i :: 0 <= i < |line| ==> s[i] == line[i];
  }

  /** Splitting undoes joining when no line holds a line break. */
  lemma {:induction false} SplitJoin(lines: seq<string>)
    requires lines != [] && AllOneLine(lines)
    ensures SplitLines(Join(lines) + "\n") == lines
  {
    hide SplitLines, LineBreak;
    if |lines| == 1 {
      LastLine(lines[0]);
    } else {
      SplitJoin(lines[1..]);
      FirstLine(lines[0], Join(lines[1..]) + "\n");
      assert lines[0] + "\n" + (Join(lines[1..]) + "\n") == Join(lines) + "\n";
    }
  }

  // ----- shell words

  /** The characters that need no quoting. */
  predicate Safe(c: char) {
    'a' <= c <= 'z' || 'A' <= c <= 'Z' || '0' <= c <= '9' || c in "_@%+=:,./-"
  }

  function QuoteBody(s: string): string {
    if s == [] then [] else (if s[0] == '\'' then "'\"'\"'" else [s[0]]) + QuoteBody(s[1..])
  }

  function Quote(s: string): string {
    if s == [] then "''"
    else if forall i :: 0 <= i < |s| ==> Safe(s[i]) then s
    else "'" + QuoteBody(s) + "'"
  }

  /** Where the splitter is: between words, in a word, inside quotes, or after a backslash met in a
      word (`None`) or inside quotes (`Some`). */
  datatype LexState = Space | Word | Quoted(q: char) | Escaped(within: Option<char>)

  predicate Blank(c: char) {
    c == ' ' || c == '\t' || c == '\r' || c == '\n'
  }

  /** The words of `s`, or None for an unfinished quotation or escape. `word` is the word so far. */
  function Lex(s: string, state: LexState, word: string, quoted: bool): Option<seq<string>>
    decreases |s|
  {
    if s == [] then
      match state
      case Space => Some([])
      case Word => Some(if word != [] || quoted then [word] else [])
      case _ => None
    else
      var c, rest := s[0], s[1..];
      match state
      case Space =>
        if Blank(c) then Lex(rest, Space, [], false)
        else if c == '\\' then Lex(rest, Escaped(None), [], false)
        else if c == '\'' || c == '"' then Lex(rest, Quoted(c), [], true)
        else Lex(rest, Word, [c], false)
      case Word =>
        if Blank(c) then
          if word != [] || quoted then Cons(word, Lex(rest, Space, [], false)) else Lex(rest, Space, [], false)
        else if c == '\'' || c == '"' then Lex(rest, Quoted(c), word, true)
        else if c == '\\' then Lex(rest, Escaped(None), word, quoted)
        else Lex(rest, Word, word + [c], quoted)
      case Quoted(q) =>
        if c == q then Lex(rest, Word, word, true)
        else if c == '\\' && q == '"' then Lex(rest, Escaped(Some(q)), word, true)
        else Lex(rest, Quoted(q), word + [c], true)
      case Escaped(within) =>
        if within.Some? && c != '\\' && c != within.value then Lex(rest, Quoted(within.value), word + ['\\', c], quoted)
        else if within.Some? then Lex(rest, Quoted(within.value), word + [c], quoted)
        else Lex(rest, Word, word + [c], quoted)
  }

  function Cons(word: string, words: Option<seq<string>>): Option<seq<string>> {
    if words.Some? then Some([word] + words.value) else None
  }

  function Words(s: string): Option<seq<string>> {
    Lex(s, Space, [], false)
  }

  lemma {:induction false} LexSafe(s: string, word: string)
    requires word != [] && forall i :: 0 <= i < |s| ==> Safe(s[i])
    ensures Lex(s, Word, word, false) == Some([word + s])
    decreases |s|
  {
    if s == [] {
      assert word + s == word;
    } else {
      LexSafe(s[1..], word + [s[0]]);
      assert word + [s[0]] + s[1..] == word + s;
    }
  }

  lemma {:induction false} LexQuoteBody(s: string, word: string)
    ensures Lex(QuoteBody(s) + "'", Quoted('\''), word, true) == Some([word + s])
    decreases |s|
  {
    if s == [] {
      assert QuoteBody(s) + "'" == "'";
      assert word + s == word;
      assert Lex("", Word, word, true) == Some([word]);
    } else {
      var tail := QuoteBody(s[1..]) + "'";
      LexQuoteBody(s[1..], word + [s[0]]);
      assert word + [s[0]] + s[1..] == word + s;
      if s[0] == '\'' {
        LexQuoteMark(tail, word);
        assert QuoteBody(s) + "'" == "'\"'\"'" + tail;
      } else {
        assert QuoteBody(s) + "'" == [s[0]] + tail;
      }
    }
  }

  /** The five characters that stand for one quote mark. */
  lemma LexQuoteMark(tail: string, word: string)
    ensures Lex("'\"'\"'" + tail, Quoted('\''), word, true) == Lex(tail, Quoted('\''), word + ['\''], true)
  {
    var s := "'\"'\"'" + tail;
    assert s[1..] == "\"'\"'" + tail;
    assert s[1..][1..] == "'\"'" + tail;
    assert s[1..][1..][1..] == "\"'" + tail;
    assert s[1..][1..][1..][1..] == "'" + tail;
    assert s[1..][1..][1..][1..][1..] == tail;
    assert Lex(s, Quoted('\''), word, true) == Lex(s[1..], Word, word, true);
    assert Lex(s[1..], Word, word, true) == Lex(s[1..][1..], Quoted('"'), word, true);
    assert Lex(s[1..][1..], Quoted('"'), word, true) == Lex(s[1..][1..][1..], Quoted('"'), word + ['\''], true);
    assert Lex(s[1..][1..][1..], Quoted('"'), word + ['\''], true) ==
           Lex(s[1..][1..][1..][1..], Word, word + ['\''], true);
  }

  lemma LexOpen(q: char, rest: string)
    requires q == '\'' || q == '"'
    ensures Lex([q] + rest, Space, [], false) == Lex(rest, Quoted(q), [], true)
  {
    assert ([q] + rest)[0] == q && ([q] + rest)[1..] == rest;
  }

  lemma LexQuoted(s: string)
    ensures Lex("'" + QuoteBody(s) + "'", Space, [], false) == Some([s])
  {
    hide Lex, QuoteBody;
    LexQuoteBody(s, []);
    LexOpen('\'', QuoteBody(s) + "'");
    assert "'" + (QuoteBody(s) + "'") == "'" + QuoteBody(s) + "'";
    assert [] + s == s;
  }

  /** Splitting undoes quoting, for every string. */
  lemma WordsOfQuote(s: string)
    ensures Words(Quote(s)) == Some([s])
  {
    if s == [] {
      LexQuoted(s);
      assert "'" + QuoteBody(s) + "'" == "''";
    } else if forall i :: 0 <= i < |s| ==> Safe(s[i]) {
      LexSafe(s[1..], [s[0]]);
      assert [s[0]] + s[1..] == s;
      assert Lex(s, Space, [], false) == Lex(s[1..], Word, [s[0]], false);
    } else {
      LexQuoted(s);
    }
  }

  // ----- how words read

  lemma {:induction false} LexBlank(s: string, rest: string, word: string)
    requires word != [] && forall i :: 0 <= i < |s| ==> Safe(s[i])
    ensures Lex(s + " " + rest, Word, word, false) == Cons(word + s, Lex(rest, Space, [], false))
    decreases |s|
  {
    hide Safe;
    if s == [] {
      assert word + s == word && s + " " + rest == [' '] + rest && ([' '] + rest)[1..] == rest;
    } else {
      SafeIsPlain(s[0]);
      LexBlank(s[1..], rest, word + [s[0]]);
      assert word + [s[0]] + s[1..] == word + s;
      assert (s + " " + rest)[0] == s[0] && (s + " " + rest)[1..] == s[1..] + " " + rest;
    }
  }

  predicate AllSafe(s: string) {
    forall i :: 0 <= i < |s| ==> Safe(s[i])
  }

  lemma SafeIsPlain(c: char)
    requires Safe(c)
    ensures !Blank(c) && c != '\\' && c != '\'' && c != '"' && !Whitespace(c)
  {
  }

  lemma LexFirst(s: string)
    requires s != [] && Safe(s[0])
    ensures Lex(s, Space, [], false) == Lex(s[1..], Word, [s[0]], false)
  {
    SafeIsPlain(s[0]);
    hide Safe, Blank;
  }

  lemma TwoWords(a: string, b: string)
    requires a != [] && b != [] && AllSafe(a) && AllSafe(b)
    ensures Words(a + " " + b) == Some([a, b])
  {
    hide Lex, Safe;
    var s := a + " " + b;
    assert s[0] == a[0] && s[1..] == a[1..] + " " + b;
    assert [a[0]] + a[1..] == a && [b[0]] + b[1..] == b;
    LexFirst(s);
    LexBlank(a[1..], b, [a[0]]);
    LexFirst(b);
    LexSafe(b[1..], [b[0]]);
    assert [a] + [b] == [a, b];
  }

  /** A blank outside quotes parts two words, and a value of two words is none at all. */
  lemma BlanksPartWords(a: string, b: string)
    requires a != [] && b != [] && AllSafe(a) && AllSafe(b)
    ensures Words(a + " " + b) == Some([a, b]) && ParsedValue(a + " " + b).None?
  {
    hide Words, Strip, Safe, Whitespace;
    var s := a + " " + b;
    assert s[0] == a[0] && s[|s| - 1] == b[|b| - 1];
    SafeIsPlain(a[0]);
    SafeIsPlain(b[|b| - 1]);
    StripStripped(s);
    TwoWords(a, b);
  }

  /** Inside quotes of either kind every other character stands for itself, but for the backslash in double quotes. */
  lemma {:induction false} LexPlain(s: string, q: char, word: string)
    requires q == '\'' || q == '"'
    requires forall i :: 0 <= i < |s| ==> s[i] != q && (q == '"' ==> s[i] != '\\')
    ensures Lex(s + [q], Quoted(q), word, true) == Some([word + s]) && Lex(s, Quoted(q), word, true).None?
    decreases |s|
  {
    if s == [] {
      assert word + s == word && s + [q] == [q] && [q][1..] == "" && Lex("", Word, word, true) == Some([word]);
    } else {
      LexPlain(s[1..], q, word + [s[0]]);
      assert word + [s[0]] + s[1..] == word + s;
      assert (s + [q])[0] == s[0] && (s + [q])[1..] == s[1..] + [q];
    }
  }

  /** So a quoted text is one word, blanks and all, and a quotation that does not end is no word. */
  lemma QuotesHoldTogether(s: string, q: char)
    requires q == '\'' || q == '"'
    requires forall i :: 0 <= i < |s| ==> s[i] != q && (q == '"' ==> s[i] != '\\')
    ensures Words([q] + s + [q]) == Some([s]) && Words([q] + s).None?
  {
    hide Lex;
    LexPlain(s, q, []);
    LexOpen(q, s + [q]);
    LexOpen(q, s);
    assert [q] + s + [q] == [q] + (s + [q]);
    assert [] + s == s;
  }

  /** A backslash outside quotes makes any character part of the word; in double quotes it does so for the quote and
      for itself, and stands for itself before any other; alone it is unfinished. */
  lemma BackslashTakesTheNext(c: char)
    ensures Words(['\\', c]) == Some([[c]])
    ensures Words(['"', '\\', c, '"']) == Some([if c == '"' || c == '\\' then [c] else ['\\', c]])
    ensures Words("\\").None?
  {
    assert Lex([], Word, [c], false) == Some([[c]]);
    assert ['\\', c][1..] == [c] && [c][1..] == [] && [] + [c] == [c];
    assert Lex([c], Escaped(None), [], false) == Lex([], Word, [c], false);
    EscapeInQuotes(c);
  }

  lemma EscapeInQuotes(c: char)
    ensures Words(['"', '\\', c, '"']) == Some([if c == '"' || c == '\\' then [c] else ['\\', c]])
  {
    var word := if c == '"' || c == '\\' then [c] else ['\\', c];
    assert ['"', '\\', c, '"'][1..] == ['\\', c, '"'] && ['\\', c, '"'][1..] == [c, '"'] && [c, '"'][1..] == ['"'];
    assert Lex(['"'], Quoted('"'), word, true) == Some([word]) by {
      assert ['"'][1..] == [] && Lex([], Word, word, true) == Some([word]);
    }
    assert Lex([c, '"'], Escaped(Some('"')), [], true) == Lex(['"'], Quoted('"'), word, true) by {
      assert [] + [c] == [c] && [] + ['\\', c] == ['\\', c];
    }
    assert Lex(['\\', c, '"'], Quoted('"'), [], true) == Lex([c, '"'], Escaped(Some('"')), [], true);
  }

  /** Only a text of safe characters is written bare. */
  lemma OnlySafeTextIsBare(s: string)
    ensures Quote(s) == s <==> s != [] && forall i :: 0 <= i < |s| ==> Safe(s[i])
  {
    if s != [] && exists i :: 0 <= i < |s| && !Safe(s[i]) {
      QuoteBodyGrows(s);
    }
  }

  lemma {:induction false} QuoteBodyGrows(s: string)
    ensures |QuoteBody(s)| >= |s|
  {
    if s != [] {
      QuoteBodyGrows(s[1..]);
    }
  }

  lemma QuoteIsStripped(s: string)
    ensures Stripped(Quote(s))
  {
  }

  lemma {:induction false} QuoteBodyIsOneLine(s: string)
    requires OneLine(s)
    ensures OneLine(QuoteBody(s))
  {
    if s != [] {
      QuoteBodyIsOneLine(s[1..]);
    }
  }

  lemma QuoteIsOneLine(s: string)
    requires OneLine(s)
    ensures OneLine(Quote(s))
  {
    QuoteBodyIsOneLine(s);
  }

  // ----- settings

  predicate StartsWith(line: string, prefix: string) {
    |prefix| <= |line| && line[..|prefix|] == prefix
  }

  function ParsedValue(raw: string): Option<string> {
    match Words(Strip(raw))
    case None => None
    case Some(words) => if |words| == 1 && Strip(words[0]) != [] then Some(Strip(words[0])) else None
  }

  /** The last line that names the key decides, even when it does not parse. */
  function ReadLines(lines: seq<string>, key: string): Option<string> {
    if lines == [] then None
    else
      var last := lines[|lines| - 1];
      if StartsWith(last, key + "=") then ParsedValue(last[|key| + 1..]) else ReadLines(lines[..|lines| - 1], key)
  }

  function ReadKey(text: string, key: string): Option<string> {
    ReadLines(SplitLines(text), key)
  }

  type Updates = seq<(string, string)>

  function SettingLine(update: (string, string)): string {
    update.0 + "=" + Quote(update.1)
  }

  function SettingLines(updates: Updates): seq<string> {
    seq(|updates|, i requires 0 <= i < |updates| => SettingLine(updates[i]))
  }

  predicate Replaced(line: string, updates: Updates) {
    exists i :: 0 <= i < |updates| && StartsWith(line, updates[i].0 + "=")
  }

  function Kept(lines: seq<string>, updates: Updates): seq<string> {
    if lines == [] then []
    else
      var last := lines[|lines| - 1];
      Kept(lines[..|lines| - 1], updates) + (if Replaced(last, updates) then [] else [last])
  }

  function Written(text: string, updates: Updates): string {
    Join(Kept(SplitLines(text), updates) + SettingLines(updates)) + "\n"
  }

  lemma WrittenIs(text: string, updates: Updates)
    ensures Written(text, updates) == Join(Kept(SplitLines(text), updates) + SettingLines(updates)) + "\n"
  {
  }

  /** A name without a line break or an equals sign. */
  predicate Name(key: string) {
    OneLine(key) && '=' !in key
  }

  predicate Distinct(updates: Updates) {
    forall i, k :: 0 <= i < k < |updates| ==> updates[i].0 != updates[k].0
  }

  predicate Writable(updates: Updates) {
    Distinct(updates) && forall i :: 0 <= i < |updates| ==> Name(updates[i].0)
  }

  /** A line starts with the settings of at most one name. */
  lemma NamesApart(a: string, b: string, line: string)
    requires Name(a) && Name(b) && StartsWith(line, a + "=") && StartsWith(line, b + "=")
    ensures a == b
  {
    assert line[|a|] == (a + "=")[|a|] == '=' && line[|b|] == (b + "=")[|b|] == '=';
    assert forall i :: 0 <= i < |a| ==> line[i] == (a + "=")[i] == a[i];
    assert forall i :: 0 <= i < |b| ==> line[i] == (b + "=")[i] == b[i];
  }

  lemma SettingLineStarts(update: (string, string))
    ensures StartsWith(SettingLine(update), update.0 + "=")
    ensures SettingLine(update)[|update.0| + 1..] == Quote(update.1)
  {
  }

  lemma {:induction false} KeptReads(lines: seq<string>, updates: Updates, key: string)
    requires Writable(updates) && Name(key) && forall i :: 0 <= i < |updates| ==> updates[i].0 != key
    ensures ReadLines(Kept(lines, updates), key) == ReadLines(lines, key)
  {
    if lines != [] {
      var init, last := lines[..|lines| - 1], lines[|lines| - 1];
      KeptReads(init, updates, key);
      if Replaced(last, updates) {
        var i :| 0 <= i < |updates| && StartsWith(last, updates[i].0 + "=");
        if StartsWith(last, key + "=") {
          NamesApart(updates[i].0, key, last);
        }
        assert Kept(lines, updates) == Kept(init, updates);
      } else {
        assert (Kept(init, updates) + [last])[..|Kept(init, updates)|] == Kept(init, updates);
      }
    }
  }

  lemma {:induction false} ReadPast(lines: seq<string>, more: seq<string>, key: string)
    requires forall i :: 0 <= i < |more| ==> !StartsWith(more[i], key + "=")
    ensures ReadLines(lines + more, key) == ReadLines(lines, key)
  {
    if more == [] {
      assert lines + more == lines;
    } else {
      ReadPast(lines, more[..|more| - 1], key);
      assert (lines + more)[..|lines + more| - 1] == lines + more[..|more| - 1];
    }
  }

  lemma SettingOfAnother(update: (string, string), key: string)
    requires Name(update.0) && Name(key) && update.0 != key
    ensures !StartsWith(SettingLine(update), key + "=")
  {
    SettingLineStarts(update);
    if StartsWith(SettingLine(update), key + "=") {
      NamesApart(update.0, key, SettingLine(update));
    }
  }

  lemma ReadLast(lines: seq<string>, update: (string, string))
    ensures ReadLines(lines + [SettingLine(update)], update.0) == ParsedValue(Quote(update.1))
  {
    SettingLineStarts(update);
    hide SettingLine, ParsedValue, StartsWith;
    assert (lines + [SettingLine(update)])[|lines|] == SettingLine(update);
  }

  lemma SettingsButLast(updates: Updates)
    requires updates != []
    ensures SettingLines(updates) == SettingLines(updates[..|updates| - 1]) + [SettingLine(updates[|updates| - 1])]
  {
    hide SettingLine;
    var whole, n := SettingLines(updates), |updates| - 1;
    var parts := SettingLines(updates[..n]) + [SettingLine(updates[n])];
    assert |whole| == |parts| == n + 1;
    forall i | 0 <= i <= n
      ensures whole[i] == parts[i]
    {
      assert i < n ==> updates[..n][i] == updates[i];
    }
  }

  lemma WritableButLast(updates: Updates, i: nat)
    requires Writable(updates) && i < |updates|
    ensures Writable(updates[..|updates| - 1]) && Name(updates[i].0) && Name(updates[|updates| - 1].0)
    ensures i < |updates| - 1 ==> updates[..|updates| - 1][i] == updates[i] && updates[|updates| - 1].0 != updates[i].0
  {
    hide Name;
  }

  lemma {:induction false} ReadSetting(lines: seq<string>, updates: Updates, i: nat)
    requires Writable(updates) && i < |updates|
    ensures ReadLines(lines + SettingLines(updates), updates[i].0) == ParsedValue(Quote(updates[i].1))
    decreases |updates|
  {
    hide *;
    var rest, last := updates[..|updates| - 1], updates[|updates| - 1];
    var lead := lines + SettingLines(rest);
    WritableButLast(updates, i);
    SettingsButLast(updates);
    assert lines + SettingLines(updates) == lead + [SettingLine(last)];
    if i == |updates| - 1 {
      ReadLast(lead, last);
    } else {
      SettingOfAnother(last, updates[i].0);
      ReadPast(lead, [SettingLine(last)], updates[i].0);
      ReadSetting(lines, rest, i);
    }
  }

  predicate AllValuesOneLine(updates: Updates) {
    forall i :: 0 <= i < |updates| ==> OneLine(updates[i].1)
  }

  lemma {:induction false} KeptAreOneLine(lines: seq<string>, updates: Updates)
    requires AllOneLine(lines)
    ensures AllOneLine(Kept(lines, updates))
  {
    if lines != [] {
      KeptAreOneLine(lines[..|lines| - 1], updates);
    }
  }

  /** The lines of the written file are the kept lines and the settings. */
  lemma WrittenLines(text: string, updates: Updates)
    requires Writable(updates) && AllValuesOneLine(updates) && updates != []
    ensures SplitLines(Written(text, updates)) == Kept(SplitLines(text), updates) + SettingLines(updates)
  {
    SplitLinesAreOneLine(text);
    KeptAreOneLine(SplitLines(text), updates);
    forall i | 0 <= i < |updates|
      ensures OneLine(SettingLine(updates[i]))
    {
      QuoteIsOneLine(updates[i].1);
    }
    SplitJoin(Kept(SplitLines(text), updates) + SettingLines(updates));
  }

  // ----- the round trip

  function Shown(value: string): Option<string> {
    if Strip(value) == [] then None else Some(Strip(value))
  }

  lemma QuotedParses(value: string)
    ensures ParsedValue(Quote(value)) == Shown(value)
  {
    QuoteIsStripped(value);
    StripStripped(Quote(value));
    WordsOfQuote(value);
  }

  /** A written setting reads back with its outer whitespace stripped, and a blank one as unset. */
  lemma UpdatedKeyReadsBack(text: string, updates: Updates, i: nat)
    requires Writable(updates) && AllValuesOneLine(updates) && i < |updates|
    ensures ReadKey(Written(text, updates), updates[i].0) == Shown(updates[i].1)
  {
    WrittenLines(text, updates);
    ReadSetting(Kept(SplitLines(text), updates), updates, i);
    QuotedParses(updates[i].1);
  }

  lemma {:induction false} KeptWithoutUpdates(lines: seq<string>)
    ensures Kept(lines, []) == lines
  {
    hide StartsWith;
    if lines != [] {
      var init, last := lines[..|lines| - 1], lines[|lines| - 1];
      KeptWithoutUpdates(init);
      assert !Replaced(last, []);
      assert Kept(lines, []) == init + [last];
    }
  }

  /** Writing nothing rewrites the lines as they are, or one blank line for an empty file. */
  lemma NothingWritten(text: string, key: string)
    ensures ReadKey(Written(text, []), key) == ReadKey(text, key)
  {
    var lines := SplitLines(text);
    KeptWithoutUpdates(lines);
    assert lines + SettingLines([]) == lines;
    if lines == [] {
      LastLine("");
      assert "" + "\n" == "\n" && ReadLines([""], key) == ReadLines([], key);
    } else {
      SplitLinesAreOneLine(text);
      SplitJoin(lines);
    }
  }

  /** Every other setting reads as it did before. */
  lemma OtherKeysReadAsBefore(text: string, updates: Updates, key: string)
    requires Writable(updates) && AllValuesOneLine(updates) && Name(key)
    requires forall i :: 0 <= i < |updates| ==> updates[i].0 != key
    ensures ReadKey(Written(text, updates), key) == ReadKey(text, key)
  {
    if updates == [] {
      NothingWritten(text, key);
    } else {
      OthersKept(text, updates, key);
    }
  }

  lemma OthersKept(text: string, updates: Updates, key: string)
    requires Writable(updates) && AllValuesOneLine(updates) && updates != [] && Name(key)
    requires forall i :: 0 <= i < |updates| ==> updates[i].0 != key
    ensures ReadKey(Written(text, updates), key) == ReadKey(text, key)
  {
    WrittenLines(text, updates);
    KeptReads(SplitLines(text), updates, key);
    forall i | 0 <= i < |updates|
      ensures !StartsWith(SettingLines(updates)[i], key + "=")
    {
      SettingOfAnother(updates[i], key);
    }
    ReadPast(Kept(SplitLines(text), updates), SettingLines(updates), key);
  }

  // ----- what a file says

  /** The last line for a name decides: written as a setting is, it gives the value back, whatever stands before it
      and after it. */
  lemma {:induction false} LastSettingWins(lines: seq<string>, key: string, value: string, i: nat)
    requires i < |lines| && lines[i] == SettingLine((key, value))
    requires forall k :: i < k < |lines| ==> !StartsWith(lines[k], key + "=")
    ensures ReadLines(lines, key) == Shown(value)
  {
    hide ParsedValue, Shown, SettingLine, StartsWith;
    if i == |lines| - 1 {
      assert lines == lines[..i] + [SettingLine((key, value))];
      ReadLast(lines[..i], (key, value));
      QuotedParses(value);
    } else {
      LastSettingWins(lines[..|lines| - 1], key, value, i);
    }
  }

  /** A name no line starts with has no value. */
  lemma {:induction false} UnsetWithoutALine(lines: seq<string>, key: string)
    requires forall i :: 0 <= i < |lines| ==> !StartsWith(lines[i], key + "=")
    ensures ReadLines(lines, key).None?
  {
    if lines != [] {
      UnsetWithoutALine(lines[..|lines| - 1], key);
    }
  }

  /** The line begins with one of the names, and an equals sign after it. */
  predicate SetsOne(line: string, updates: Updates) {
    exists i :: 0 <= i < |updates| && |updates[i].0| < |line| && line[..|updates[i].0|] == updates[i].0 &&
                line[|updates[i].0|] == '='
  }

  /** Every line that sets none of the names stays as it is, in its place, and no other line stays. */
  lemma {:induction false} KeptInPlace(before: seq<string>, line: string, after: seq<string>, updates: Updates)
    ensures Kept(before + [line] + after, updates) ==
            Kept(before, updates) +
            (if SetsOne(line, updates) then [] else [line]) +
            Kept(after, updates)
    ensures Kept([], updates) == []
    decreases |after|
  {
    hide SetsOne, Replaced;
    ReplacedMeans(line, updates);
    var lines := before + [line] + after;
    if after == [] {
      assert lines[..|lines| - 1] == before && lines[|lines| - 1] == line;
    } else {
      var last := after[|after| - 1];
      KeptInPlace(before, line, after[..|after| - 1], updates);
      assert lines[..|lines| - 1] == before + [line] + after[..|after| - 1] && lines[|lines| - 1] == last;
    }
  }

  lemma ReplacedMeans(line: string, updates: Updates)
    ensures Replaced(line, updates) <==> SetsOne(line, updates)
  {
    forall i | 0 <= i < |updates|
      ensures StartsWith(line, updates[i].0 + "=") <==>
              |updates[i].0| < |line| && line[..|updates[i].0|] == updates[i].0 && line[|updates[i].0|] == '='
    {
      StartMeans(line, updates[i].0);
    }
  }

  lemma StartMeans(line: string, name: string)
    ensures StartsWith(line, name + "=") <==> |name| < |line| && line[..|name|] == name && line[|name|] == '='
  {
    if |name| < |line| {
      assert line[..|name| + 1] == line[..|name|] + [line[|name|]];
      assert (name + "=")[..|name|] == name && (name + "=")[|name|] == '=';
    }
  }

  // ----- where the round trip ends

  lemma {:induction false} WordsAreOneLine(s: string, state: LexState, word: string, quoted: bool)
    requires OneLine(s) && OneLine(word) && Lex(s, state, word, quoted).Some?
    ensures AllOneLine(Lex(s, state, word, quoted).value)
    decreases |s|
  {
    if s != [] {
      var c, rest := s[0], s[1..];
      match state
      case Space =>
        if Blank(c) { WordsAreOneLine(rest, Space, [], false); }
        else if c == '\\' { WordsAreOneLine(rest, Escaped(None), [], false); }
        else if c == '\'' || c == '"' { WordsAreOneLine(rest, Quoted(c), [], true); }
        else { WordsAreOneLine(rest, Word, [c], false); }
      case Word =>
        if Blank(c) { WordsAreOneLine(rest, Space, [], false); }
        else if c == '\'' || c == '"' { WordsAreOneLine(rest, Quoted(c), word, true); }
        else if c == '\\' { WordsAreOneLine(rest, Escaped(None), word, quoted); }
        else { WordsAreOneLine(rest, Word, word + [c], quoted); }
      case Quoted(q) =>
        if c == q { WordsAreOneLine(rest, Word, word, true); }
        else if c == '\\' && q == '"' { WordsAreOneLine(rest, Escaped(Some(q)), word, true); }
        else { WordsAreOneLine(rest, Quoted(q), word + [c], true); }
      case Escaped(within) =>
        if within.Some? && c != '\\' && c != within.value {
          WordsAreOneLine(rest, Quoted(within.value), word + ['\\', c], quoted);
        }
        else if within.Some? { WordsAreOneLine(rest, Quoted(within.value), word + [c], quoted); }
        else { WordsAreOneLine(rest, Word, word + [c], quoted); }
    }
  }

  /** Stripping keeps a contiguous part. */
  lemma StripIsPart(s: string)
    ensures OneLine(s) ==> OneLine(Strip(s))
  {
    var left := StripLeft(s);
    assert left == s[|s| - |left|..] && StripRight(left) == left[..|StripRight(left)|];
  }

  lemma {:induction false} ReadLinesIsOneLine(lines: seq<string>, key: string)
    requires AllOneLine(lines)
    ensures ReadLines(lines, key).Some? ==> OneLine(ReadLines(lines, key).value)
  {
    if lines != [] {
      var last := lines[|lines| - 1];
      if StartsWith(last, key + "=") {
        var raw := last[|key| + 1..];
        StripIsPart(raw);
        if Words(Strip(raw)).Some? {
          WordsAreOneLine(Strip(raw), Space, [], false);
          if |Words(Strip(raw)).value| == 1 {
            StripIsPart(Words(Strip(raw)).value[0]);
          }
        }
      } else {
        ReadLinesIsOneLine(lines[..|lines| - 1], key);
      }
    }
  }

  /** A stripped value comes back if and only if it holds no line break. */
  lemma ReadsBackIffOneLine(text: string, updates: Updates, i: nat)
    requires Writable(updates) && i < |updates| && Stripped(updates[i].1) && updates[i].1 != []
    requires forall k :: 0 <= k < |updates| && k != i ==> OneLine(updates[k].1)
    ensures ReadKey(Written(text, updates), updates[i].0) == Some(updates[i].1) <==> OneLine(updates[i].1)
  {
    StripStripped(updates[i].1);
    if OneLine(updates[i].1) {
      UpdatedKeyReadsBack(text, updates, i);
    } else {
      SplitLinesAreOneLine(Written(text, updates));
      ReadLinesIsOneLine(SplitLines(Written(text, updates)), updates[i].0);
    }
  }

  /** A broker URL with a line break in its port does not survive. */
  lemma LineBreakIsLost(text: string)
    ensures ReadKey(Written(text, [("CELERY_BROKER_URL", "redis://127.0.0.1:63\n79/0")]), "CELERY_BROKER_URL")
            != Some("redis://127.0.0.1:63\n79/0")
  {
    var updates: Updates := [("CELERY_BROKER_URL", "redis://127.0.0.1:63\n79/0")];
    assert LineBreak(updates[0].1[20]);
    ReadsBackIffOneLine(text, updates, 0);
  }

  // ----- the file

  class ManagedFile {
    var text: string

    constructor (text: string)
      ensures this.text == text
    {
      this.text := text;
    }

    /** Look for the setting from the last line back. */
    method ReadValue(key: string) returns (value: Option<string>)
      ensures value == ReadKey(text, key)
    {
      var lines := SplitLines(text);
      var n := |lines|;
      assert lines[..n] == lines;
      while n > 0
        invariant 0 <= n <= |lines| && ReadLines(lines, key) == ReadLines(lines[..n], key)
      {
        assert lines[..n][..n - 1] == lines[..n - 1];
        n := n - 1;
        if StartsWith(lines[n], key + "=") {
          return ParsedValue(lines[n][|key| + 1..]);
        }
      }
      value := None;
    }

    /** Drop the lines of the updated settings, and append the new ones. */
    method WriteValues(updates: Updates)
      modifies this
      ensures text == Written(old(text), updates)
    {
      hide *;
      var lines := SplitLines(text);
      var kept := KeepOthers(lines, updates);
      var settings := Settings(updates);
      text := Join(kept + settings) + "\n";
      WrittenIs(old(text), updates);
    }

    static method Settings(updates: Updates) returns (lines: seq<string>)
      ensures lines == SettingLines(updates)
    {
      lines := [];
      for i := 0 to |updates|
        invariant |lines| == i && forall k :: 0 <= k < i ==> lines[k] == SettingLine(updates[k])
      {
        lines := lines + [SettingLine(updates[i])];
      }
    }

    static method KeepOthers(lines: seq<string>, updates: Updates) returns (kept: seq<string>)
      ensures kept == Kept(lines, updates)
    {
      hide Replaced;
      kept := [];
      for i := 0 to |lines|
        invariant kept == Kept(lines[..i], updates)
      {
        assert lines[..i + 1][..i] == lines[..i];
        if !Replaced(lines[i], updates) {
          kept := kept + [lines[i]];
        }
      }
      assert lines[..|lines|] == lines;
    }
  }
}
