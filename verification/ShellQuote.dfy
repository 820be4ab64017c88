/** Quoting for the shell (cli.py), against the quoting rules of the POSIX.1-2017 Shell
    Command Language, sections 2.2.1 to 2.2.3. */
module ShellQuote {
  import opened Outcomes

  // ------------------------------------------------------- the shell

  datatype Mode = Unquoted | SingleQuoted | DoubleQuoted

  /** Characters that, unquoted, end the command or ask for an expansion: text in which one
      of them is met is refused, for it is no plain list of words. */
  predicate IsMeaningful(c: char) {
    || c == '|' || c == '&' || c == ';' || c == '<' || c == '>' || c == '(' || c == ')' || c == '$' || c == '`'
    || c == '\n' || c == '*' || c == '?' || c == '[' || c == '#' || c == '~' || c == '{' || c == '}' || c == '!'
  }

  /** What a backslash escapes between double quotes. */
  predicate IsEscapable(c: char) { c == '$' || c == '`' || c == '"' || c == '\\' }

  function Joined(word: Option<string>, c: string): Option<string> {
    Some((if word.Some? then word.value else "") + c)
  }

  function Finished(words: seq<string>, word: Option<string>): seq<string> {
    if word.Some? then words + [word.value] else words
  }

  /** The words of the rest of a command, given the words so far and the word begun. */
  function Run(s: string, mode: Mode, word: Option<string>, words: seq<string>): Option<seq<string>>
    decreases |s|
  {
    if s == "" then
      if mode.Unquoted? then Some(Finished(words, word)) else None
    else
      var c, rest := s[0], s[1..];
      match mode
      case SingleQuoted =>
        if c == '\'' then Run(rest, Unquoted, word, words) else Run(rest, SingleQuoted, Joined(word, [c]), words)
      case DoubleQuoted =>
        if c == '"' then Run(rest, Unquoted, word, words)
        else if c == '$' || c == '`' then None
        else if c == '\\' && rest != ""
          && IsEscapable(rest[0]) then Run(rest[1..], DoubleQuoted, Joined(word, [rest[0]]), words)
        else if c == '\\' && rest != "" && rest[0] == '\n' then Run(rest[1..], DoubleQuoted, word, words)
        else Run(rest, DoubleQuoted, Joined(word, [c]), words)
      case Unquoted =>
        if c == ' ' || c == '\t' then Run(rest, Unquoted, None, Finished(words, word))
        else if c == '\'' then Run(rest, SingleQuoted, Joined(word, ""), words)
        else if c == '"' then Run(rest, DoubleQuoted, Joined(word, ""), words)
        else if c == '\\' then
          if rest == "" then None
          else if rest[0] == '\n' then Run(rest[1..], Unquoted, word, words)
          else Run(rest[1..], Unquoted, Joined(word, [rest[0]]), words)
        else if IsMeaningful(c) then None
        else Run(rest, Unquoted, Joined(word, [c]), words)
  }

  /** The words of a command. */
  function Split(s: string): Option<seq<string>> { Run(s, Unquoted, None, []) }

  // ------------------------------------------------------- quoting

  /** `value.replace("'", "'\\"'\\"'")`. */
  function Escape(value: string): string {
    if value == "" then ""
    else (if value[0] == '\'' then "'\"'\"'" else [value[0]]) + Escape(value[1..])
  }

  /** `shlex_quote`. */
  function Quote(value: string): string { "'" + Escape(value) + "'" }

  function LoginCommand(home: string, openclaw: string, provider: string, deviceCode: bool): string {
    "OPENCLAW_HOME=" + (Quote(home) + " " + (Quote(openclaw) + " " + ("models auth login --provider "
    + (Quote(provider) + " " + ("--set-default" + if deviceCode then " --device-code" else "")))))
  }

  // ------------------------------------------------------- proofs

  lemma QuoteBreaks(rest: string, word: string, words: seq<string>)
    ensures Run("'\"'\"'" + rest, SingleQuoted, Some(word), words) == Run(rest, SingleQuoted, Some(word + "'"), words)
  {
    var s := "'\"'\"'" + rest;
    assert s[1..][1..][1..][1..][1..] == rest;
    assert Run(s, SingleQuoted, Some(word), words) == Run(s[1..], Unquoted, Some(word), words);
    assert Joined(Some(word), "") == Some(word) by { assert word + "" == word; }
    assert Run(s[1..], Unquoted, Some(word), words) == Run(s[1..][1..], DoubleQuoted, Some(word), words);
    assert Run(s[1..][1..], DoubleQuoted, Some(word), words) ==
      Run(s[1..][1..][1..], DoubleQuoted, Some(word + "'"), words);
    assert Run(s[1..][1..][1..], DoubleQuoted, Some(word + "'"), words) ==
      Run(s[1..][1..][1..][1..], Unquoted, Some(word + "'"), words);
    assert word + "'" + "" == word + "'";
  }

  lemma {:induction false} EscapedIsLiteral(value: string, rest: string, word: string, words: seq<string>)
    ensures Run(Escape(value) + rest, SingleQuoted, Some(word), words) ==
      Run(rest, SingleQuoted, Some(word + value), words)
    decreases |value|
  {
    if value == "" {
      assert Escape(value) + rest == rest && word + value == word;
    } else {
      var head := if value[0] == '\'' then "'\"'\"'" else [value[0]];
      assert Escape(value) + rest == head + (Escape(value[1..]) + rest);
      if value[0] == '\'' {
        QuoteBreaks(Escape(value[1..]) + rest, word, words);
      } else {
        assert (head + (Escape(value[1..]) + rest))[1..] == Escape(value[1..]) + rest;
      }
      EscapedIsLiteral(value[1..], rest, word + [value[0]], words);
      assert word + [value[0]] + value[1..] == word + value;
    }
  }

  /** Wherever a quoted value stands, it adds exactly its own text to the word it is part of
      and leaves the reading of what follows unchanged. */
  lemma QuotedIsLiteral(value: string, rest: string, word: Option<string>, words: seq<string>)
    ensures Run(Quote(value) + rest, Unquoted, word, words) == Run(rest, Unquoted, Joined(word, value), words)
  {
    var s := Quote(value) + rest;
    var start := if word.Some? then word.value else "";
    assert s[1..] == Escape(value) + ("'" + rest);
    assert start + "" == start;
    EscapedIsLiteral(value, "'" + rest, start, words);
    assert ("'" + rest)[1..] == rest;
  }

  /** Quoting any text and splitting the result gives back that text, as one word. */
  lemma QuoteRoundTrips(value: string)
    ensures Split(Quote(value)) == Some([value])
  {
    assert Quote(value) + "" == Quote(value);
    QuotedIsLiteral(value, "", None, []);
    assert "" + value == value && [] + [value] == [value];
  }

  /** Letters, hyphens, underscores and equals signs stand for themselves. */
  predicate IsOrdinary(c: char) { 'a' <= c <= 'z' || 'A' <= c <= 'Z' || c == '-' || c == '_' || c == '=' }

  predicate AllOrdinary(s: string) { forall i :: 0 <= i < |s| ==> IsOrdinary(s[i]) }

  lemma {:induction false} OrdinaryIsLiteral(s: string, rest: string, word: Option<string>, words: seq<string>)
    requires s != "" && AllOrdinary(s)
    ensures Run(s + rest, Unquoted, word, words) == Run(rest, Unquoted, Joined(word, s), words)
    decreases |s|
  {
    var next := Joined(word, [s[0]]);
    assert (s + rest)[1..] == s[1..] + rest;
    if |s| == 1 {
      assert s[1..] + rest == rest && s == [s[0]];
    } else {
      OrdinaryIsLiteral(s[1..], rest, next, words);
      assert next.value + s[1..] == (if word.Some? then word.value else "") + s;
    }
  }

  /** A space after a word ends it. */
  lemma OrdinaryWord(s: string, rest: string, words: seq<string>)
    requires s != "" && AllOrdinary(s)
    ensures Run(s + " " + rest, Unquoted, None, words) == Run(rest, Unquoted, None, words + [s])
    ensures Run(s, Unquoted, None, words) == Some(words + [s])
  {
    assert s + " " + rest == s + (" " + rest);
    OrdinaryIsLiteral(s, " " + rest, None, words);
    assert (" " + rest)[1..] == rest && "" + s == s;
    OrdinaryIsLiteral(s, "", None, words);
    assert s + "" == s;
  }

  lemma QuotedWord(value: string, rest: string, words: seq<string>)
    ensures Run(Quote(value) + " " + rest, Unquoted, None, words) == Run(rest, Unquoted, None, words + [value])
  {
    assert Quote(value) + " " + rest == Quote(value) + (" " + rest);
    QuotedIsLiteral(value, " " + rest, None, words);
    assert (" " + rest)[1..] == rest && "" + value == value;
  }

  /** The words of the login command. */
  function LoginWords(home: string, openclaw: string, provider: string, deviceCode: bool): seq<string> {
    ["OPENCLAW_HOME=" + home, openclaw, "models", "auth", "login", "--provider", provider, "--set-default"]
    + (if deviceCode then ["--device-code"] else [])
  }

  /** The login command splits into the intended words, whatever the paths and the provider. */
  lemma LoginCommandSplits(home: string, openclaw: string, provider: string, deviceCode: bool)
    ensures Split(LoginCommand(home, openclaw, provider, deviceCode)) ==
      Some(LoginWords(home, openclaw, provider, deviceCode))
  {
    hide Quote, Run;
    var ending := "--set-default" + if deviceCode then " --device-code" else "";
    var first, words := ["OPENCLAW_HOME=" + home], ["models", "auth", "login", "--provider"];
    var last := "models auth login --provider " + (Quote(provider) + " " + ending);
    AssignmentWord(home, Quote(openclaw) + " " + last);
    QuotedWord(openclaw, last, first);
    FixedWords(Quote(provider) + " " + ending, first + [openclaw]);
    QuotedWord(provider, ending, first + [openclaw] + words);
    EndingWords(deviceCode, first + [openclaw] + words + [provider]);
    assert first + [openclaw] + words + [provider]
      + (if deviceCode then ["--set-default", "--device-code"] else ["--set-default"])
        == LoginWords(home, openclaw, provider, deviceCode);
  }

  lemma AssignmentWord(home: string, rest: string)
    ensures Run("OPENCLAW_HOME=" + (Quote(home) + " " + rest), Unquoted, None, []) ==
            Run(rest, Unquoted, None, ["OPENCLAW_HOME=" + home])
  {
    assert AllOrdinary("OPENCLAW_HOME=");
    hide AllOrdinary, Quote;
    OrdinaryIsLiteral("OPENCLAW_HOME=", Quote(home) + " " + rest, None, []);
    assert Quote(home) + " " + rest == Quote(home) + (" " + rest);
    assert "" + "OPENCLAW_HOME=" == "OPENCLAW_HOME=";
    QuotedIsLiteral(home, " " + rest, Some("OPENCLAW_HOME="), []);
    assert [] + ["OPENCLAW_HOME=" + home] == ["OPENCLAW_HOME=" + home];
    assert (" " + rest)[1..] == rest;
  }

  lemma FixedWords(rest: string, words: seq<string>)
    ensures Run("models auth login --provider " + rest, Unquoted, None, words) ==
            Run(rest, Unquoted, None, words + ["models", "auth", "login", "--provider"])
  {
    hide Run;
    assert "models auth login --provider " + rest ==
      "models" + " " + ("auth" + " " + ("login" + " " + ("--provider" + " " + rest)));
    assert AllOrdinary("models") && AllOrdinary("auth") && AllOrdinary("login") && AllOrdinary("--provider");
    hide AllOrdinary;
    OrdinaryWord("models", "auth" + " " + ("login" + " " + ("--provider" + " " + rest)), words);
    OrdinaryWord("auth", "login" + " " + ("--provider" + " " + rest), words + ["models"]);
    OrdinaryWord("login", "--provider" + " " + rest, words + ["models"] + ["auth"]);
    OrdinaryWord("--provider", rest, words + ["models"] + ["auth"] + ["login"]);
    assert words + ["models"] + ["auth"] + ["login"] + ["--provider"] ==
      words + ["models", "auth", "login", "--provider"];
  }

  lemma EndingWords(deviceCode: bool, words: seq<string>)
    ensures Run("--set-default" + (if deviceCode then " --device-code" else ""), Unquoted, None, words) ==
            Some(words + (if deviceCode then ["--set-default", "--device-code"] else ["--set-default"]))
  {
    hide Run;
    assert AllOrdinary("--set-default") && AllOrdinary("--device-code");
    hide AllOrdinary;
    assert "--set-default" + " --device-code" == "--set-default" + " " + "--device-code";
    assert "--set-default" + "" == "--set-default";
    OrdinaryWord("--set-default", "--device-code", words);
    OrdinaryWord("--device-code", "", words + ["--set-default"]);
    assert words + ["--set-default"] + ["--device-code"] == words + ["--set-default", "--device-code"];
  }
}
