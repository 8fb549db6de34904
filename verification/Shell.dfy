/** How `sh -c` reads a line as the words of one command, and for which characters it
    does more than split and unquote. */
module Shell {
  import opened Common
  import opened Argv

  // ------------------------------------------------------------------ characters

  predicate Separates(c: char) {
    c == ' ' || c == '\t'
  }

  predicate Quotes(c: char) {
    c == '\'' || c == '\"' || c == '\\'
  }

  // Ends the command, redirects it or groups it.
  predicate Operates(c: char) {
    c == '\n' || c == ';' || c == '&' || c == '|' || c == '<' || c == '>' || c == '(' || c == ')'
  }

  // What becomes of it depends on variables, files or its place in the word.
  predicate Expands(c: char) {
    c == '$' || c == '`' || c == '*' || c == '?' || c == '[' || c == '~' || c == '#'
  }

  predicate Literal(c: char) {
    !Separates(c) && !Quotes(c) && !Operates(c) && !Expands(c)
  }

  predicate Literals(s: string) {
    forall c | c in s :: Literal(c)
  }

  predicate Safe(arg: string) {
    arg != "" && Literals(arg)
  }

  // --------------------------------------------------------------------- reading

  // Beyond: the shell does more here than split and unquote.
  datatype Mode = Bare | SingleQuoted | DoubleQuoted | Escaped | EscapedInQuotes | Beyond

  // `current` is the word being read, None between words.
  datatype Lexer = Lexer(mode: Mode, words: seq<string>, current: Option<string>)

  const START := Lexer(Bare, [], None)
  const GIVEN_UP := Lexer(Beyond, [], None)

  function Text(l: Lexer): string {
    if l.current.Some? then l.current.value else ""
  }

  function Add(l: Lexer, s: string, mode: Mode): Lexer {
    l.(mode := mode, current := Some(Text(l) + s))
  }

  function Read(l: Lexer): seq<string> {
    if l.current.Some? then l.words + [l.current.value] else l.words
  }

  function Next(l: Lexer, c: char): Lexer {
    match l.mode
    case Bare =>
      if Separates(c) then Lexer(Bare, Read(l), None)
      else if c == '\'' then Add(l, "", SingleQuoted)
      else if c == '\"' then Add(l, "", DoubleQuoted)
      else if c == '\\' then l.(mode := Escaped)
      else if Operates(c) || Expands(c) then GIVEN_UP
      else Add(l, [c], Bare)
    case SingleQuoted => if c == '\'' then l.(mode := Bare) else Add(l, [c], SingleQuoted)
    case DoubleQuoted =>
      if c == '\"' then l.(mode := Bare)
      else if c == '\\' then l.(mode := EscapedInQuotes)
      else if c == '$' || c == '`' then GIVEN_UP
      else Add(l, [c], DoubleQuoted)
    case Escaped => if c == '\n' then l.(mode := Bare) else Add(l, [c], Bare)
    case EscapedInQuotes =>
      if c == '\n' then l.(mode := DoubleQuoted)
      else if c == '\"' || c == '\\' || c == '$' || c == '`' then Add(l, [c], DoubleQuoted)
      else Add(l, ['\\', c], DoubleQuoted)
    case Beyond => l
  }

  function Lex(l: Lexer, s: string): Lexer {
    if s == "" then l else Next(Lex(l, s[..|s| - 1]), s[|s| - 1])
  }

  // The words of the line; None when a quote stays open or the shell does more than
  // split and unquote. A backslash at the very end stands for itself.
  function Words(line: string): Option<seq<string>> {
    var l := Lex(START, line);
    match l.mode
    case Bare => Some(Read(l))
    case Escaped => Some(Read(Add(l, "\\", Bare)))
    case _ => None
  }

  // A line that leaves no quote open: what follows after a blank is read afresh.
  predicate Complete(line: string) {
    Lex(START, line).mode.Bare?
  }

  lemma {:induction false} LexConcat(l: Lexer, a: string, b: string)
    ensures Lex(l, a + b) == Lex(Lex(l, a), b)
  {
    if b == "" {
      assert a + b == a;
    } else {
      LexConcat(l, a, b[..|b| - 1]);
      assert (a + b)[..|a + b| - 1] == a + b[..|b| - 1];
    }
  }

  // -------------------------------------------------------------- safe words survive

  lemma {:induction false} SafeRun(l: Lexer, s: string)
    requires l.mode.Bare? && Literals(s)
    ensures Lex(l, s) == if s == "" then l else Add(l, s, Bare)
  {
    if s != "" {
      var init, c := s[..|s| - 1], s[|s| - 1];
      SafeRun(l, init);
      assert c in s && init + [c] == s;
      if init != "" {
        assert Text(l) + init + [c] == Text(l) + s;
      }
    }
  }

  lemma LexWord(words: seq<string>, w: string)
    requires Safe(w)
    ensures Lex(Lexer(Bare, words, None), w) == Lexer(Bare, words, Some(w))
  {
    SafeRun(Lexer(Bare, words, None), w);
    assert "" + w == w;
  }

  lemma LexBlank(l: Lexer)
    requires l.mode.Bare?
    ensures Lex(l, " ") == Lexer(Bare, Read(l), None)
  {
    assert " "[..0] == "";
  }

  lemma LexWordAndBlank(words: seq<string>, w: string, rest: string)
    requires Safe(w)
    ensures Lex(Lexer(Bare, words, None), w + " " + rest) == Lex(Lexer(Bare, words + [w], None), rest)
  {
    LexConcat(Lexer(Bare, words, None), w + " ", rest);
    LexConcat(Lexer(Bare, words, None), w, " ");
    LexWord(words, w);
    LexBlank(Lexer(Bare, words, Some(w)));
  }

  lemma {:induction false} LexJoin(words: seq<string>, argv: seq<string>)
    requires argv != [] && forall a | a in argv :: Safe(a)
    ensures Lex(Lexer(Bare, words, None), Join(argv)).mode.Bare?
    ensures Read(Lex(Lexer(Bare, words, None), Join(argv))) == words + argv
    decreases |argv|
  {
    if |argv| == 1 {
      LexWord(words, argv[0]);
    } else {
      LexWordAndBlank(words, argv[0], Join(argv[1..]));
      LexJoin(words + [argv[0]], argv[1..]);
      assert words + [argv[0]] + argv[1..] == words + argv;
    }
  }

  lemma SafeWordsSurvive(argv: seq<string>)
    requires forall a | a in argv :: Safe(a)
    ensures Words(Join(argv)) == Some(argv) && Complete(Join(argv))
  {
    if argv != [] {
      LexJoin([], argv);
      assert [] + argv == argv;
    }
  }

  // -------------------------------------------------------------- and no others do

  // Characters accounted for: the words, one separator for each, and a backslash
  // whose character is still to come.
  function Total(words: seq<string>): nat {
    if words == [] then 0 else Total(words[..|words| - 1]) + |words[|words| - 1]|
  }

  function Weight(l: Lexer): nat {
    Total(l.words) + |l.words| + |Text(l)| + if l.mode.Escaped? || l.mode.EscapedInQuotes? then 1 else 0
  }

  predicate HasQuote(s: string) {
    exists c | c in s :: Quotes(c)
  }

  lemma WeightAfterNext(l: Lexer, c: char)
    requires !Next(l, c).mode.Beyond?
    ensures Weight(Next(l, c)) <= Weight(l) + 1
    ensures l.mode.Bare? && Quotes(c) && !Next(l, c).mode.Escaped? ==> Weight(Next(l, c)) <= Weight(l)
    ensures l.mode.Escaped? ==> Weight(Next(l, c)) <= Weight(l)
  {
    assert (l.words + [Text(l)])[..|l.words|] == l.words;
  }

  // Reading never makes characters up, and loses one as soon as something is quoted.
  lemma {:induction false} QuotesAreSpent(s: string)
    ensures var l := Lex(START, s);
            l.mode.Beyond? || (Weight(l) <= |s| && (HasQuote(s) ==> Weight(l) < |s| || l.mode.Escaped?))
  {
    if s != "" {
      var init, c := s[..|s| - 1], s[|s| - 1];
      var l := Lex(START, init);
      QuotesAreSpent(init);
      assert s == init + [c];
      if !HasQuote(init) {
        NoQuoteStaysBare(init);
      }
      if !Next(l, c).mode.Beyond? {
        WeightAfterNext(l, c);
        if HasQuote(s) && !HasQuote(init) {
          assert Quotes(c);
        }
      }
    }
  }

  // Without quotes there is only splitting: every word read is safe.
  lemma {:induction false} NoQuoteStaysBare(s: string)
    requires !HasQuote(s)
    ensures var l := Lex(START, s);
            l.mode.Beyond? || (l.mode.Bare? && forall w | w in Read(l) :: Safe(w))
  {
    if s != "" {
      var init, c := s[..|s| - 1], s[|s| - 1];
      var l := Lex(START, init);
      assert s == init + [c];
      forall d | d in init ensures !Quotes(d) {
        assert d in s;
      }
      NoQuoteStaysBare(init);
      if l.mode.Bare? {
        assert c in s && !Quotes(c);
        OneMoreLetter(l, c);
      }
    }
  }

  lemma OneMoreLetter(l: Lexer, c: char)
    requires l.mode.Bare? && !Quotes(c) && forall w | w in Read(l) :: Safe(w)
    ensures var n := Next(l, c); n.mode.Beyond? || (n.mode.Bare? && forall w | w in Read(n) :: Safe(w))
  {
    if l.current.Some? {
      assert Read(l)[|l.words|] == l.current.value;
      assert Safe(l.current.value);
    }
    forall w | w in l.words ensures Safe(w) {
      assert w in Read(l);
    }
    if Literal(c) {
      assert Next(l, c) == Add(l, [c], Bare);
      forall d | d in Text(l) + [c] ensures Literal(d) {
        assert d in Text(l) || d == c;
      }
    }
  }

  lemma {:induction false} JoinLength(argv: seq<string>)
    requires argv != []
    ensures |Join(argv)| == Total(argv) + |argv| - 1
  {
    if |argv| == 1 {
      assert argv[..0] == [];
    } else {
      JoinLength(argv[1..]);
      TotalFromFront(argv);
    }
  }

  lemma {:induction false} TotalFromFront(argv: seq<string>)
    requires argv != []
    ensures Total(argv) == |argv[0]| + Total(argv[1..])
  {
    if |argv| > 1 {
      var init := argv[..|argv| - 1];
      TotalFromFront(init);
      assert argv[1..][..|argv[1..]| - 1] == init[1..];
    }
  }

  lemma LiteralEndsUnescaped(l: Lexer, c: char)
    requires Literal(c)
    ensures !Next(l, c).mode.Escaped?
  {}

  lemma {:induction false} JoinEndsWith(argv: seq<string>, last: string)
    requires last != ""
    ensures var s := Join(argv + [last]); s != "" && s[|s| - 1] == last[|last| - 1]
  {
    if argv != [] {
      JoinEndsWith(argv[1..], last);
      assert (argv + [last])[1..] == argv[1..] + [last];
    }
  }

  lemma SurvivorsHaveNoQuote(argv: seq<string>, last: string)
    requires Safe(last) && Words(Join(argv + [last])) == Some(argv + [last])
    ensures !HasQuote(Join(argv + [last])) && Read(Lex(START, Join(argv + [last]))) == argv + [last]
  {
    var all := argv + [last];
    var s := Join(all);
    var l := Lex(START, s);
    JoinEndsWith(argv, last);
    assert last[|last| - 1] in last;
    LiteralEndsUnescaped(Lex(START, s[..|s| - 1]), s[|s| - 1]);
    QuotesAreSpent(s);
    JoinLength(all);
    if l.current.Some? {
      assert (l.words + [l.current.value])[..|l.words|] == l.words;
    }
  }

  // Joined with blanks, and followed by one safe word, arguments are read back as they
  // were if and only if every one of them is safe.
  lemma SurvivesIffSafe(argv: seq<string>, last: string)
    requires Safe(last)
    ensures Words(Join(argv + [last])) == Some(argv + [last]) <==> forall a | a in argv :: Safe(a)
  {
    var all := argv + [last];
    if forall a | a in argv :: Safe(a) {
      SafeWordsSurvive(all);
    }
    if Words(Join(all)) == Some(all) {
      SurvivorsHaveNoQuote(argv, last);
      NoQuoteStaysBare(Join(all));
      forall a | a in argv ensures Safe(a) {
        assert a in all;
      }
    }
  }

  // ----------------------------------------------------------- after another command

  function Prefixed(before: seq<string>, l: Lexer): Lexer {
    if l.mode.Beyond? then l else l.(words := before + l.words)
  }

  lemma NextPrefixed(before: seq<string>, l: Lexer, c: char)
    ensures Next(Prefixed(before, l), c) == Prefixed(before, Next(l, c))
  {
    assert before + (l.words + [Text(l)]) == before + l.words + [Text(l)];
  }

  lemma {:induction false} LexPrefixed(before: seq<string>, l: Lexer, s: string)
    ensures Lex(Prefixed(before, l), s) == Prefixed(before, Lex(l, s))
  {
    if s != "" {
      LexPrefixed(before, l, s[..|s| - 1]);
      NextPrefixed(before, Lex(l, s[..|s| - 1]), s[|s| - 1]);
    }
  }

  function After(before: seq<string>, words: Option<seq<string>>): Option<seq<string>> {
    if words.Some? then Some(before + words.value) else None
  }

  lemma WordsAfter(line: string, rest: string)
    requires Complete(line)
    ensures Words(line).Some?
    ensures Words(line + " " + rest) == After(Words(line).value, Words(rest))
  {
    var before := Words(line).value;
    LexConcat(START, line + " ", rest);
    LexConcat(START, line, " ");
    LexBlank(Lex(START, line));
    assert Lex(START, line + " ") == Prefixed(before, START);
    LexPrefixed(before, START, rest);
    var l := Lex(START, rest);
    assert before + (l.words + [Text(l)]) == before + l.words + [Text(l)];
    assert before + (l.words + [Text(l) + "\\"]) == before + l.words + [Text(l) + "\\"];
  }

  // ------------------------------------------------------------------ quotes are lost

  predicate QuotedLiterals(s: string) {
    forall c | c in s :: c != '\"' && c != '\\' && c != '$' && c != '`'
  }

  lemma {:induction false} QuotedRun(l: Lexer, s: string)
    requires l.mode.DoubleQuoted? && l.current.Some? && QuotedLiterals(s)
    ensures Lex(l, s) == Add(l, s, DoubleQuoted)
  {
    if s == "" {
      assert Text(l) + s == Text(l);
    } else {
      var init, c := s[..|s| - 1], s[|s| - 1];
      assert c in s && init + [c] == s;
      assert forall d | d in init :: d in s;
      QuotedRun(l, init);
      assert Text(l) + init + [c] == Text(l) + s;
    }
  }

  // In double quotes the text stays, the quotes go.
  lemma {:induction false} QuotesGo(l: Lexer, s: string)
    requires l.mode.Bare? && QuotedLiterals(s)
    ensures Lex(l, "\"" + s + "\"") == Add(l, s, Bare)
  {
    var inside := Add(l, "", DoubleQuoted);
    assert "\""[..0] == "";
    assert Lex(l, "\"") == inside;
    LexConcat(l, "\"" + s, "\"");
    LexConcat(l, "\"", s);
    QuotedRun(inside, s);
    assert Text(l) + "" == Text(l);
  }

  lemma AddInTurn(l: Lexer, a: string, b: string)
    ensures Add(Add(l, a, Bare), b, Bare) == Add(l, a + b, Bare)
  {
    assert Text(l) + a + b == Text(l) + (a + b);
  }

  lemma QuotedEnding(a: string, quoted: string)
    requires Literals(a) && QuotedLiterals(quoted)
    ensures Lex(START, a + ("\"" + quoted + "\"")) == Add(START, a + quoted, Bare)
  {
    LexConcat(START, a, "\"" + quoted + "\"");
    SafeRun(START, a);
    QuotesGo(Lex(START, a), quoted);
    if a == "" {
      assert a + quoted == quoted;
    } else {
      AddInTurn(START, a, quoted);
    }
  }

  lemma OneWord(line: string, w: string)
    requires Lex(START, line) == Lexer(Bare, [], Some(w))
    ensures Words(line) == Some([w])
  {
    assert [] + [w] == [w];
  }

  lemma AddToStart(w: string)
    ensures Add(START, w, Bare) == Lexer(Bare, [], Some(w))
  {
    assert "" + w == w;
  }

  // So an argument with a double-quoted part reaches the command without its quotes.
  lemma QuotedPartIsUnquoted(a: string, quoted: string, b: string)
    requires Literals(a) && QuotedLiterals(quoted) && Literals(b)
    ensures Words(a + ("\"" + quoted + "\"") + b) == Some([a + quoted + b])
  {
    var line := a + ("\"" + quoted + "\"");
    var l := Add(START, a + quoted, Bare);
    QuotedEnding(a, quoted);
    LexConcat(START, line, b);
    SafeRun(l, b);
    AddInTurn(START, a + quoted, b);
    AddToStart(a + quoted);
    AddToStart(a + quoted + b);
    assert b == "" ==> a + quoted + b == a + quoted;
    OneWord(line + b, a + quoted + b);
  }
}
