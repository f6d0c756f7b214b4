/**
 Turning an argument vector and an environment into a shell command, and reading such commands the
 way a POSIX shell does (sections 2.2 and 2.3 of the POSIX.1-2017 Shell Command Language). Quoting
 is what makes the shell read back exactly the strings that went in.
 */
module ShellWords {
  import opened Options
  import Ordering
  import Text

  // ---------------------------------------------------------------------------------------------
  // Printing
  // ---------------------------------------------------------------------------------------------

  /** Each single quote closes the quoted text, is quoted itself, and opens it again. */
  function ReplaceQuotes(value: string): string {
    if value == "" then ""
    else (if value[0] == '\'' then "'\"'\"'" else [value[0]]) + ReplaceQuotes(value[1..])
  }

  function QuoteShellWord(value: string): string {
    if value == "" then "''" else "'" + ReplaceQuotes(value) + "'"
  }

  function JoinWith(parts: seq<string>, separator: string): string {
    if parts == [] then ""
    else if |parts| == 1 then parts[0]
    else JoinWith(parts[..|parts| - 1], separator) + separator + parts[|parts| - 1]
  }

  predicate IsNameStart(c: char) {
    'A' <= c <= 'Z' || 'a' <= c <= 'z' || c == '_'
  }

  predicate IsNameChar(c: char) {
    IsNameStart(c) || '0' <= c <= '9'
  }

  predicate IsEnvironmentName(key: string) {
    key != "" && IsNameStart(key[0]) && forall i :: 0 <= i < |key| ==> IsNameChar(key[i])
  }

  /** By their codes: digits, and letters or the underscore. */
  predicate IsDigit(c: char) {
    48 <= c as int <= 57
  }

  predicate IsLetter(c: char) {
    65 <= c as int <= 90 || 97 <= c as int <= 122 || c as int == 95
  }

  /** Names are letters, digits and underscores, and do not begin with a digit. */
  lemma NamesAre(key: string)
    ensures IsEnvironmentName(key) <==>
              && key != "" && !IsDigit(key[0])
              && forall i: nat :: i < |key| ==> IsLetter(key[i]) || IsDigit(key[i])
  {
  }

  datatype LaunchSpec = LaunchSpec(argv: seq<string>, env: map<string, string>, preamble: seq<string>)

  datatype LaunchError = InvalidName(key: string)

  /** Preamble commands that do something, each in a subshell. */
  function Preamble(commands: seq<string>): seq<string> {
    if commands == [] then []
    else
      var before := Preamble(commands[..|commands| - 1]);
      var command := commands[|commands| - 1];
      if Text.IsBlank(command) then before else before + ["(" + command + ")"]
  }

  function Exports(keys: seq<string>, env: map<string, string>): seq<string>
    requires forall k :: k in keys ==> k in env
  {
    if keys == [] then []
    else
      var key := keys[|keys| - 1];
      Exports(keys[..|keys| - 1], env) + [key + "=" + QuoteShellWord(env[key])]
  }

  function QuoteAll(words: seq<string>): seq<string> {
    if words == [] then [] else QuoteAll(words[..|words| - 1]) + [QuoteShellWord(words[|words| - 1])]
  }

  function ExportPart(keys: seq<string>, env: map<string, string>): string
    requires forall k :: k in keys ==> k in env
  {
    "export " + JoinWith(Exports(keys, env), " ")
  }

  function ExecPart(argv: seq<string>): string {
    "exec " + JoinWith(QuoteAll(argv), " ")
  }

  /** The parts of the command, with the environment in the order of `keys`. */
  function Parts(spec: LaunchSpec, keys: seq<string>): seq<string>
    requires forall k :: k in keys ==> k in spec.env
  {
    Preamble(spec.preamble)
    + (if keys == [] then [] else [ExportPart(keys, spec.env)])
    + (if spec.argv == [] then [] else [ExecPart(spec.argv)])
  }

  // ---------------------------------------------------------------------------------------------
  // Reading
  // ---------------------------------------------------------------------------------------------

  datatype Token = Word(text: string) | AndIf

  /**
   Where the reader is: between words, in the unquoted part of a word, in single or double quotes,
   after a backslash, after one ampersand, or at something that it does not know.
   */
  datatype Mode =
    | Between
    | InWord(word: string)
    | SingleQuoted(word: string)
    | DoubleQuoted(word: string)
    | Escaped(word: string)
    | Ampersand
    | Unknown

  datatype Reader = Reader(mode: Mode, tokens: seq<Token>)

  const Start := Reader(Between, [])

  /** Expansions, patterns, comments and operators other than && are not part of this model. */
  predicate IsSpecial(c: char) {
    || c == '\n' || c == ';' || c == '|' || c == '<' || c == '>' || c == '(' || c == ')'
    || c == '$' || c == '`' || c == '*' || c == '?' || c == '[' || c == '#' || c == '~'
  }

  function ReadBetween(tokens: seq<Token>, c: char): Reader {
    if c == ' ' || c == '\t' then Reader(Between, tokens)
    else if c == '&' then Reader(Ampersand, tokens)
    else if c == '\'' then Reader(SingleQuoted(""), tokens)
    else if c == '"' then Reader(DoubleQuoted(""), tokens)
    else if c == '\\' then Reader(Escaped(""), tokens)
    else if IsSpecial(c) then Reader(Unknown, tokens)
    else Reader(InWord([c]), tokens)
  }

  function ReadInWord(w: string, tokens: seq<Token>, c: char): Reader {
    if c == ' ' || c == '\t' then Reader(Between, tokens + [Word(w)])
    else if c == '&' then Reader(Ampersand, tokens + [Word(w)])
    else if c == '\'' then Reader(SingleQuoted(w), tokens)
    else if c == '"' then Reader(DoubleQuoted(w), tokens)
    else if c == '\\' then Reader(Escaped(w), tokens)
    else if IsSpecial(c) then Reader(Unknown, tokens)
    else Reader(InWord(w + [c]), tokens)
  }

  /** One more character. */
  function Read(r: Reader, c: char): Reader {
    match r.mode
    case Between => ReadBetween(r.tokens, c)
    case InWord(w) => ReadInWord(w, r.tokens, c)
    case SingleQuoted(w) => Reader(if c == '\'' then InWord(w) else SingleQuoted(w + [c]), r.tokens)
    case DoubleQuoted(w) =>
      Reader(if c == '"' then InWord(w)
             else if c == '$' || c == '`' || c == '\\' then Unknown
             else DoubleQuoted(w + [c]), r.tokens)
    case Escaped(w) => Reader(if c == '\n' then Unknown else InWord(w + [c]), r.tokens)
    case Ampersand => if c == '&' then Reader(Between, r.tokens + [AndIf]) else Reader(Unknown, r.tokens)
    case Unknown => r
  }

  function ReadAll(r: Reader, text: string): Reader
    decreases |text|
  {
    if text == "" then r else ReadAll(Read(r, text[0]), text[1..])
  }

  /** The tokens of a whole command, if it ends where a command may end. */
  function Finish(r: Reader): Option<seq<Token>> {
    match r.mode
    case Between => Some(r.tokens)
    case InWord(w) => Some(r.tokens + [Word(w)])
    case _ => None
  }

  function Lex(text: string): Option<seq<Token>> {
    Finish(ReadAll(Start, text))
  }

  lemma {:induction false} ReadConcat(r: Reader, a: string, b: string)
    ensures ReadAll(r, a + b) == ReadAll(ReadAll(r, a), b)
    decreases |a|
  {
    if a == "" {
      assert a + b == b;
    } else {
      assert (a + b)[0] == a[0] && (a + b)[1..] == a[1..] + b;
      ReadConcat(Read(r, a[0]), a[1..], b);
    }
  }

  lemma ReadOne(r: Reader, c: char)
    ensures ReadAll(r, [c]) == Read(r, c)
  {
    assert [c][1..] == "";
  }

  lemma ReadTwo(r: Reader, c: char, d: char)
    ensures ReadAll(r, [c, d]) == Read(Read(r, c), d)
  {
    assert [c, d] == [c] + [d];
    ReadConcat(r, [c], [d]);
    ReadOne(r, c);
    ReadOne(Read(r, c), d);
  }

  // ---------------------------------------------------------------------------------------------
  // Reading what was printed
  // ---------------------------------------------------------------------------------------------

  /** The replacement for one single quote reads as that quote. */
  lemma QuoteReadsAsQuote(w: string, tokens: seq<Token>)
    ensures ReadAll(Reader(SingleQuoted(w), tokens), "'\"'\"'") == Reader(SingleQuoted(w + ['\'']), tokens)
  {
    var r := Reader(SingleQuoted(w), tokens);
    var s := "'\"'\"'";
    assert s == ['\'', '"'] + (['\'', '"'] + ['\'']);
    ReadConcat(r, ['\'', '"'], ['\'', '"'] + ['\'']);
    ReadTwo(r, '\'', '"');
    var inner := Reader(DoubleQuoted(w), tokens);
    ReadConcat(inner, ['\'', '"'], ['\'']);
    ReadTwo(inner, '\'', '"');
    ReadOne(Reader(InWord(w + ['\'']), tokens), '\'');
  }

  lemma {:induction false} QuotedTextReadsBack(w: string, value: string, tokens: seq<Token>)
    ensures ReadAll(Reader(SingleQuoted(w), tokens), ReplaceQuotes(value)) == Reader(SingleQuoted(w + value), tokens)
    decreases |value|
  {
    var r := Reader(SingleQuoted(w), tokens);
    if value == "" {
      assert w + value == w;
    } else {
      var c, rest := value[0], value[1..];
      if c == '\'' {
        ReadConcat(r, "'\"'\"'", ReplaceQuotes(rest));
        QuoteReadsAsQuote(w, tokens);
      } else {
        ReadConcat(r, [c], ReplaceQuotes(rest));
        ReadOne(r, c);
      }
      QuotedTextReadsBack(w + [c], rest, tokens);
      assert w + [c] + rest == w + value;
    }
  }

  /** After a quoted word the reader is in a word that ends with the original string. */
  lemma QuotedWordReadsBack(r: Reader, w: string, value: string)
    requires r.mode == InWord(w) || (r.mode == Between && w == "")
    ensures ReadAll(r, QuoteShellWord(value)) == Reader(InWord(w + value), r.tokens)
  {
    var inside := Reader(SingleQuoted(w), r.tokens);
    ReadOne(r, '\'');
    ReadOne(Reader(SingleQuoted(w + value), r.tokens), '\'');
    if value == "" {
      ReadTwo(r, '\'', '\'');
      assert w + value == w;
    } else {
      ReadConcat(r, "'" + ReplaceQuotes(value), "'");
      ReadConcat(r, "'", ReplaceQuotes(value));
      QuotedTextReadsBack(w, value, r.tokens);
    }
  }

  /** Printing a word and reading it is the identity, for every string. */
  lemma WordRoundTrip(value: string)
    ensures Lex(QuoteShellWord(value)) == Some([Word(value)])
  {
    QuotedWordReadsBack(Start, "", value);
    assert "" + value == value;
    assert Start.tokens + [Word(value)] == [Word(value)];
  }

  /** Read between words, `text` leaves the reader in a word that is `word` so far. */
  ghost predicate ReadsAs(text: string, word: string) {
    forall tokens {:trigger ReadAll(Reader(Between, tokens), text)} ::
      ReadAll(Reader(Between, tokens), text) == Reader(InWord(word), tokens)
  }

  lemma QuotedReadsAs(value: string)
    ensures ReadsAs(QuoteShellWord(value), value)
  {
    forall tokens ensures ReadAll(Reader(Between, tokens), QuoteShellWord(value)) == Reader(InWord(value), tokens) {
      QuotedWordReadsBack(Reader(Between, tokens), "", value);
      assert "" + value == value;
    }
  }

  predicate IsPlain(c: char) {
    IsNameChar(c) || c == '='
  }

  lemma {:induction false} PlainReadsBack(w: string, tokens: seq<Token>, text: string)
    requires forall i :: 0 <= i < |text| ==> IsPlain(text[i])
    ensures ReadAll(Reader(InWord(w), tokens), text) == Reader(InWord(w + text), tokens)
    decreases |text|
  {
    if text == "" {
      assert w + text == w;
    } else {
      PlainReadsBack(w + [text[0]], tokens, text[1..]);
      assert w + [text[0]] + text[1..] == w + text;
    }
  }

  lemma PlainReadsAs(text: string)
    requires text != "" && forall i :: 0 <= i < |text| ==> IsPlain(text[i])
    ensures ReadsAs(text, text)
  {
    forall tokens ensures ReadAll(Reader(Between, tokens), text) == Reader(InWord(text), tokens) {
      PlainReadsBack([text[0]], tokens, text[1..]);
      assert [text[0]] + text[1..] == text;
    }
  }

  /** A variable assignment reads as name, equals sign and the value that was quoted. */
  lemma ExportReadsAs(key: string, value: string)
    requires IsEnvironmentName(key)
    ensures ReadsAs(key + "=" + QuoteShellWord(value), key + "=" + value)
  {
    forall tokens
      ensures ReadAll(Reader(Between, tokens), key + "=" + QuoteShellWord(value)) ==
              Reader(InWord(key + "=" + value), tokens)
    {
      var r := Reader(Between, tokens);
      PlainReadsAs(key + "=");
      assert ReadAll(r, key + "=") == Reader(InWord(key + "="), tokens);
      ReadConcat(r, key + "=", QuoteShellWord(value));
      QuotedWordReadsBack(Reader(InWord(key + "="), tokens), key + "=", value);
    }
  }

  function Words(words: seq<string>): seq<Token> {
    if words == [] then [] else Words(words[..|words| - 1]) + [Word(words[|words| - 1])]
  }

  /** The reader after the last of several words, which it has not finished. */
  function AfterWords(tokens: seq<Token>, words: seq<string>): Reader
    requires words != []
  {
    Reader(InWord(words[|words| - 1]), tokens + Words(words[..|words| - 1]))
  }

  /** Texts that read as words, joined by spaces, read as those words. */
  lemma {:induction false} JoinedReadsAs(tokens: seq<Token>, texts: seq<string>, words: seq<string>)
    requires |texts| == |words| && words != [] && forall i: nat :: i < |texts| ==> ReadsAs(texts[i], words[i])
    ensures ReadAll(Reader(Between, tokens), JoinWith(texts, " ")) == AfterWords(tokens, words)
  {
    var r := Reader(Between, tokens);
    var n := |words| - 1;
    assert ReadsAs(texts[n], words[n]);
    if n == 0 {
      assert tokens + Words(words[..0]) == tokens;
    } else {
      var front, fronts := JoinWith(texts[..n], " "), words[..n];
      JoinedReadsAs(tokens, texts[..n], fronts);
      ReadConcat(r, front + " ", texts[n]);
      ReadConcat(r, front, " ");
      ReadOne(AfterWords(tokens, fronts), ' ');
      assert tokens + Words(fronts[..n - 1]) + [Word(fronts[n - 1])] == tokens + Words(fronts);
    }
  }

  lemma {:induction false} JoinCons(first: string, parts: seq<string>, separator: string)
    requires parts != []
    ensures JoinWith([first] + parts, separator) == first + separator + JoinWith(parts, separator)
  {
    var n := |parts| - 1;
    var all := [first] + parts;
    assert all[..n + 1] == [first] + parts[..n];
    if n > 0 {
      JoinCons(first, parts[..n], separator);
      assert JoinWith(all, separator) == first + separator + JoinWith(parts[..n], separator) + separator + parts[n];
    } else {
      assert all[..1] == [first] && JoinWith([first], separator) == first;
    }
  }

  /** `name` followed by words: a whole simple command. */
  lemma CommandReadsAs(tokens: seq<Token>, name: string, texts: seq<string>, words: seq<string>)
    requires name != "" && forall i :: 0 <= i < |name| ==> IsPlain(name[i])
    requires |texts| == |words| && words != [] && forall i: nat :: i < |texts| ==> ReadsAs(texts[i], words[i])
    ensures ReadAll(Reader(Between, tokens), name + " " + JoinWith(texts, " ")) == AfterWords(tokens, [name] + words)
  {
    PlainReadsAs(name);
    JoinCons(name, texts, " ");
    var ts, ws := [name] + texts, [name] + words;
    forall i: nat | i < |ts| ensures ReadsAs(ts[i], ws[i]) {
      assert i > 0 ==> ts[i] == texts[i - 1] && ws[i] == words[i - 1];
    }
    JoinedReadsAs(tokens, ts, ws);
  }

  /** The words that the shell gets to see after `export`. */
  function Assignments(keys: seq<string>, env: map<string, string>): seq<string>
    requires forall k :: k in keys ==> k in env
  {
    if keys == [] then []
    else Assignments(keys[..|keys| - 1], env) + [keys[|keys| - 1] + "=" + env[keys[|keys| - 1]]]
  }

  lemma {:induction false} ExportsReadAs(keys: seq<string>, env: map<string, string>)
    requires forall k :: k in keys ==> k in env && IsEnvironmentName(k)
    ensures |Exports(keys, env)| == |Assignments(keys, env)| == |keys|
    ensures forall i: nat :: i < |keys| ==> ReadsAs(Exports(keys, env)[i], Assignments(keys, env)[i])
  {
    if keys != [] {
      ExportsReadAs(keys[..|keys| - 1], env);
      ExportReadsAs(keys[|keys| - 1], env[keys[|keys| - 1]]);
    }
  }

  lemma {:induction false} QuoteAllReadAs(words: seq<string>)
    ensures |QuoteAll(words)| == |words|
    ensures forall i: nat :: i < |words| ==> ReadsAs(QuoteAll(words)[i], words[i])
  {
    if words != [] {
      QuoteAllReadAs(words[..|words| - 1]);
      QuotedReadsAs(words[|words| - 1]);
    }
  }

  /** What the shell should read: the assignments, and then the program with its arguments. */
  function Expected(spec: LaunchSpec, keys: seq<string>): seq<Token>
    requires forall k :: k in keys ==> k in spec.env
  {
    (if keys == [] then [] else Words(["export"] + Assignments(keys, spec.env)))
    + (if keys != [] && spec.argv != [] then [AndIf] else [])
    + (if spec.argv == [] then [] else Words(["exec"] + spec.argv))
  }

  lemma {:induction false} BlankPreamble(commands: seq<string>)
    requires forall i: nat :: i < |commands| ==> Text.IsBlank(commands[i])
    ensures Preamble(commands) == []
  {
    if commands != [] {
      BlankPreamble(commands[..|commands| - 1]);
    }
  }

  lemma FinishWords(tokens: seq<Token>, words: seq<string>)
    requires words != []
    ensures Finish(AfterWords(tokens, words)) == Some(tokens + Words(words))
  {
    assert tokens + Words(words[..|words| - 1]) + [Word(words[|words| - 1])] == tokens + Words(words);
  }

  /** Two commands joined by && read as one after the other. */
  lemma AndReads(first: string, second: string, ws: seq<string>, vs: seq<string>)
    requires ws != [] && vs != []
    requires ReadAll(Start, first) == AfterWords([], ws)
    requires ReadAll(Reader(Between, Words(ws) + [AndIf]), second) == AfterWords(Words(ws) + [AndIf], vs)
    ensures Lex(first + " && " + second) == Some(Words(ws) + [AndIf] + Words(vs))
  {
    ReadConcat(Start, first + " && ", second);
    ReadConcat(Start, first, " && ");
    var r := AfterWords([], ws);
    assert [' ', '&', '&', ' '] == [' ', '&'] + ['&', ' '];
    ReadConcat(r, [' ', '&'], ['&', ' ']);
    ReadTwo(r, ' ', '&');
    FinishWords([], ws);
    assert [] + Words(ws) == Words(ws);
    ReadTwo(Reader(Ampersand, Words(ws)), '&', ' ');
    FinishWords(Words(ws) + [AndIf], vs);
  }

  function ExportWords(keys: seq<string>, env: map<string, string>): seq<string>
    requires forall k :: k in keys ==> k in env
  {
    ["export"] + Assignments(keys, env)
  }

  lemma ExportCommand(keys: seq<string>, env: map<string, string>)
    requires keys != [] && forall k :: k in keys ==> k in env && IsEnvironmentName(k)
    ensures ReadAll(Start, ExportPart(keys, env)) == AfterWords([], ExportWords(keys, env))
  {
    ExportsReadAs(keys, env);
    CommandReadsAs([], "export", Exports(keys, env), Assignments(keys, env));
    assert "export" + " " == "export ";
  }

  lemma ExecCommand(tokens: seq<Token>, argv: seq<string>)
    requires argv != []
    ensures ReadAll(Reader(Between, tokens), ExecPart(argv)) == AfterWords(tokens, ["exec"] + argv)
  {
    QuoteAllReadAs(argv);
    CommandReadsAs(tokens, "exec", QuoteAll(argv), argv);
    assert "exec" + " " == "exec ";
  }

  lemma OneCommand(text: string, words: seq<string>)
    requires words != [] && ReadAll(Start, text) == AfterWords([], words)
    ensures Lex(text) == Some(Words(words))
  {
    FinishWords([], words);
    assert [] + Words(words) == Words(words);
  }

  lemma BothCommands(keys: seq<string>, env: map<string, string>, argv: seq<string>)
    requires keys != [] && argv != [] && forall k :: k in keys ==> k in env && IsEnvironmentName(k)
    ensures Lex(JoinWith([ExportPart(keys, env), ExecPart(argv)], " && "))
         == Some(Words(ExportWords(keys, env)) + [AndIf] + Words(["exec"] + argv))
  {
    var a, b := ExportPart(keys, env), ExecPart(argv);
    ExportCommand(keys, env);
    ExecCommand(Words(ExportWords(keys, env)) + [AndIf], argv);
    AndReads(a, b, ExportWords(keys, env), ["exec"] + argv);
    JoinTwo(a, b);
  }

  lemma JoinTwo(a: string, b: string)
    ensures JoinWith([a, b], " && ") == a + " && " + b
  {
    assert [a, b][..1] == [a];
  }

  /** Which commands there are, printed and as they should be read. */
  lemma PartsAndExpected(spec: LaunchSpec, keys: seq<string>)
    requires forall k :: k in keys ==> k in spec.env
    requires Preamble(spec.preamble) == []
    ensures keys != [] && spec.argv != [] ==>
              && Parts(spec, keys) == [ExportPart(keys, spec.env), ExecPart(spec.argv)]
              && Expected(spec, keys) == Words(ExportWords(keys, spec.env)) + [AndIf] + Words(["exec"] + spec.argv)
    ensures keys != [] && spec.argv == [] ==>
              && Parts(spec, keys) == [ExportPart(keys, spec.env)]
              && Expected(spec, keys) == Words(ExportWords(keys, spec.env))
    ensures keys == [] && spec.argv != [] ==>
              Parts(spec, keys) == [ExecPart(spec.argv)] && Expected(spec, keys) == Words(["exec"] + spec.argv)
    ensures keys == [] && spec.argv == [] ==> Parts(spec, keys) == [] && Expected(spec, keys) == []
  {
  }

  lemma ExportsOnly(keys: seq<string>, env: map<string, string>)
    requires keys != [] && forall k :: k in keys ==> k in env && IsEnvironmentName(k)
    ensures Lex(JoinWith([ExportPart(keys, env)], " && ")) == Some(Words(ExportWords(keys, env)))
  {
    ExportCommand(keys, env);
    OneCommand(ExportPart(keys, env), ExportWords(keys, env));
  }

  lemma ExecOnly(argv: seq<string>)
    requires argv != []
    ensures Lex(JoinWith([ExecPart(argv)], " && ")) == Some(Words(["exec"] + argv))
  {
    ExecCommand([], argv);
    OneCommand(ExecPart(argv), ["exec"] + argv);
  }

  /**
   Without a preamble, the shell reads back exactly the assignments in the order of their names, and
   the original argument vector, whatever characters the values and arguments hold.
   */
  lemma CommandRoundTrip(spec: LaunchSpec, keys: seq<string>)
    requires forall k :: k in keys ==> k in spec.env && IsEnvironmentName(k)
    requires forall i: nat :: i < |spec.preamble| ==> Text.IsBlank(spec.preamble[i])
    ensures Lex(JoinWith(Parts(spec, keys), " && ")) == Some(Expected(spec, keys))
  {
    BlankPreamble(spec.preamble);
    PartsAndExpected(spec, keys);
    if keys != [] && spec.argv != [] {
      BothCommands(keys, spec.env, spec.argv);
    } else if keys != [] {
      ExportsOnly(keys, spec.env);
    } else if spec.argv != [] {
      ExecOnly(spec.argv);
    }
  }

  /** Each preamble command that is not blank stands in parentheses, where it stood among the others. */
  lemma {:induction false} PreambleKeepsOrder(before: seq<string>, command: string, after: seq<string>)
    ensures Preamble(before + [command] + after) ==
            Preamble(before) + (if Text.IsBlank(command) then [] else ["(" + command + ")"]) + Preamble(after)
  {
    var all := before + [command] + after;
    if after == [] {
      assert all == before + [command] && all[..|all| - 1] == before;
    } else {
      var n := |after| - 1;
      PreambleKeepsOrder(before, command, after[..n]);
      assert all[..|all| - 1] == before + [command] + after[..n] && all[|all| - 1] == after[n];
    }
  }

  lemma {:induction false} JoinConcat(a: seq<string>, b: seq<string>, separator: string)
    requires a != [] && b != []
    ensures JoinWith(a + b, separator) == JoinWith(a, separator) + separator + JoinWith(b, separator)
  {
    var n := |b| - 1;
    assert (a + b)[..|a + b| - 1] == a + b[..n];
    if n > 0 {
      JoinConcat(a, b[..n], separator);
    } else {
      assert a + b[..n] == a;
    }
  }

  /** The command without its preamble. */
  function Bare(spec: LaunchSpec, keys: seq<string>): string
    requires forall k :: k in keys ==> k in spec.env
  {
    JoinWith(Parts(spec.(preamble := []), keys), " && ")
  }

  /** What follows the preamble is a command that reads back as the exports and the argument vector. */
  lemma BareRoundTrip(spec: LaunchSpec, keys: seq<string>)
    requires forall k :: k in keys ==> k in spec.env && IsEnvironmentName(k)
    ensures Lex(Bare(spec, keys)) == Some(Expected(spec, keys))
  {
    var bare := spec.(preamble := []);
    CommandRoundTrip(bare, keys);
    assert Expected(bare, keys) == Expected(spec, keys);
  }

  lemma PartsSplit(spec: LaunchSpec, keys: seq<string>)
    requires forall k :: k in keys ==> k in spec.env
    ensures Parts(spec, keys) == Preamble(spec.preamble) + Parts(spec.(preamble := []), keys)
    ensures Parts(spec.(preamble := []), keys) == [] <==> keys == [] && spec.argv == []
  {
  }

  /** The preamble comes first, and what follows it is the command that there would be without one. */
  lemma PreambleRunsFirst(spec: LaunchSpec, keys: seq<string>)
    requires forall k :: k in keys ==> k in spec.env
    ensures
      var preamble := Preamble(spec.preamble);
      JoinWith(Parts(spec, keys), " && ") ==
      if preamble == [] then Bare(spec, keys)
      else if keys == [] && spec.argv == [] then JoinWith(preamble, " && ")
      else JoinWith(preamble, " && ") + " && " + Bare(spec, keys)
  {
    PartsSplit(spec, keys);
    var preamble, rest := Preamble(spec.preamble), Parts(spec.(preamble := []), keys);
    if preamble == [] {
      assert preamble + rest == rest;
    } else if rest == [] {
      assert preamble + rest == preamble;
    } else {
      JoinConcat(preamble, rest, " && ");
    }
  }

  // ---------------------------------------------------------------------------------------------
  // The command as it is built
  // ---------------------------------------------------------------------------------------------

  /** Collects the names, in whatever order the map yields them, unless one of them is not allowed. */
  method CollectKeys(env: map<string, string>) returns (keys: Result<seq<string>, LaunchError>)
    ensures keys.Ok? <==> forall k :: k in env ==> IsEnvironmentName(k)
    ensures keys.Ok? ==> forall k :: k in keys.value <==> k in env
    ensures keys.Err? ==> keys.error.key in env && !IsEnvironmentName(keys.error.key)
  {
    var names := [];
    var rest := env.Keys;
    while rest != {}
      invariant rest <= env.Keys
      invariant forall k :: k in names <==> k in env && k !in rest
      invariant forall k :: k in names ==> IsEnvironmentName(k)
    {
      var key :| key in rest;
      if !IsEnvironmentName(key) {
        return Err(InvalidName(key));
      }
      names := names + [key];
      rest := rest - {key};
    }
    return Ok(names);
  }

  lemma ExportsStep(keys: seq<string>, i: nat, env: map<string, string>)
    requires i < |keys| && forall k :: k in keys ==> k in env
    ensures Exports(keys[..i + 1], env) == Exports(keys[..i], env) + [keys[i] + "=" + QuoteShellWord(env[keys[i]])]
  {
    assert keys[..i + 1][..i] == keys[..i];
  }

  method BuildExports(keys: seq<string>, env: map<string, string>) returns (exports: seq<string>)
    requires forall k :: k in keys ==> k in env
    ensures exports == Exports(keys, env)
  {
    exports := [];
    var i := 0;
    assert keys[..0] == [];
    while i < |keys|
      invariant i <= |keys| && exports == Exports(keys[..i], env)
    {
      ExportsStep(keys, i, env);
      exports := exports + [keys[i] + "=" + QuoteShellWord(env[keys[i]])];
      i := i + 1;
    }
    assert keys[..i] == keys;
  }

  method BuildArgv(words: seq<string>) returns (argv: seq<string>)
    ensures argv == QuoteAll(words)
  {
    argv := [];
    var i := 0;
    assert words[..0] == [];
    while i < |words|
      invariant i <= |words| && argv == QuoteAll(words[..i])
    {
      assert words[..i + 1][..i] == words[..i];
      argv := argv + [QuoteShellWord(words[i])];
      i := i + 1;
    }
    assert words[..i] == words;
  }

  method BuildPreamble(commands: seq<string>) returns (parts: seq<string>)
    ensures parts == Preamble(commands)
  {
    parts := [];
    var i := 0;
    assert commands[..0] == [];
    while i < |commands|
      invariant i <= |commands| && parts == Preamble(commands[..i])
    {
      assert commands[..i + 1][..i] == commands[..i];
      if !Text.IsBlank(commands[i]) {
        parts := parts + ["(" + commands[i] + ")"];
      }
      i := i + 1;
    }
    assert commands[..i] == commands;
  }

  /** The command, or the complaint about a name; the order of the environment does not show in it. */
  method ShellCommand(spec: LaunchSpec) returns (command: Result<string, LaunchError>, ghost keys: seq<string>)
    ensures command.Ok? <==> forall k :: k in spec.env ==> IsEnvironmentName(k)
    ensures command.Err? ==> command.error.key in spec.env && !IsEnvironmentName(command.error.key)
    ensures Ordering.Lists(keys, spec.env.Keys)
    ensures command.Ok? ==> command.value == JoinWith(Parts(spec, keys), " && ")
    ensures command.Ok? && (forall i: nat :: i < |spec.preamble| ==> Text.IsBlank(spec.preamble[i])) ==>
              Lex(command.value) == Some(Expected(spec, keys))
  {
    keys := SortedKeys(spec.env.Keys);
    var collected := CollectKeys(spec.env);
    if collected.Err? {
      return Err(collected.error), keys;
    }
    Ordering.SortLists(collected.value);
    var sorted := Ordering.Sort(collected.value);
    assert (set k | k in collected.value) == spec.env.Keys;
    Ordering.ListingIsUnique(keys, sorted, spec.env.Keys);
    var parts := BuildPreamble(spec.preamble);
    if |sorted| > 0 {
      var exports := BuildExports(sorted, spec.env);
      parts := parts + ["export " + JoinWith(exports, " ")];
    }
    if |spec.argv| > 0 {
      var argv := BuildArgv(spec.argv);
      parts := parts + ["exec " + JoinWith(argv, " ")];
    }
    assert parts == Parts(spec, sorted);
    if forall i: nat :: i < |spec.preamble| ==> Text.IsBlank(spec.preamble[i]) {
      CommandRoundTrip(spec, sorted);
    }
    return Ok(JoinWith(parts, " && ")), keys;
  }

  /** The names in order. */
  lemma {:induction false} SortedKeys(names: set<string>) returns (keys: seq<string>)
    ensures Ordering.Lists(keys, names)
  {
    if names == {} {
      keys := [];
    } else {
      var x :| x in names;
      var rest := SortedKeys(names - {x});
      Ordering.InsertLists(x, rest, names - {x});
      assert names - {x} + {x} == names;
      keys := Ordering.Insert(x, rest);
    }
  }
}
