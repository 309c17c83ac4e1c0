/** Two-level shell quoting: a command rendered for a fish terminal that runs `bash -lc` on it,
    and the two shells that take it apart again.

    Sh is the token recognition of section 2.3 of the Shell Command Language (IEEE Std 1003.1)
    with the quoting of sections 2.2.1 and 2.2.2; where any other rule would apply to an
    unquoted character it gives up. Fish is fish's word splitting with its single quotes. */
module Quote {
  import opened Tables

  /** shellSafe: letters, digits and @%+=:,./-_ pass through a POSIX shell unquoted. */
  predicate Safe(c: char) {
    || 'A' <= c <= 'Z' || 'a' <= c <= 'z' || '0' <= c <= '9'
    || c == '@' || c == '%' || c == '+' || c == '=' || c == ':' || c == ',' || c == '.' || c == '/' || c == '-'
    || c == '_'
  }

  // ---------------------------------------------------------------- printers

  /** strings.ReplaceAll for a one-character pattern. */
  function Replace(s: string, c: char, with: string): string {
    if s == "" then "" else (if s[0] == c then with else [s[0]]) + Replace(s[1..], c, with)
  }

  predicate AllSafe(s: string) { forall c :: c in s ==> Safe(c) }

  function ShellQuote(s: string): string {
    if s == "" then "''"
    else if AllSafe(s) then s
    else "'" + Replace(s, '\'', "'\\''") + "'"
  }

  function QuotedAll(tokens: seq<string>): (quoted: seq<string>)
    ensures |quoted| == |tokens| && forall i :: 0 <= i < |tokens| ==> quoted[i] == ShellQuote(tokens[i])
  {
    seq(|tokens|, i requires 0 <= i < |tokens| => ShellQuote(tokens[i]))
  }

  method QuoteAll(tokens: seq<string>) returns (quoted: array<string>)
    ensures fresh(quoted) && quoted[..] == QuotedAll(tokens)
  {
    quoted := new string[|tokens|](_ => "");
    for i := 0 to |tokens|
      invariant forall k :: 0 <= k < i ==> quoted[k] == ShellQuote(tokens[k])
    {
      quoted[i] := ShellQuote(tokens[i]);
    }
  }

  function Join(xs: seq<string>): string {
    if xs == [] then "" else if |xs| == 1 then xs[0] else xs[0] + " " + Join(xs[1..])
  }

  function FishQuote(s: string): string {
    "'" + Replace(Replace(s, '\\', "\\\\"), '\'', "\\'") + "'"
  }

  function Line(command: seq<string>): string { Join(QuotedAll(command)) }

  function WrapBashLogin(command: seq<string>): string { "bash -lc " + FishQuote(Line(command)) }

  // ---------------------------------------------------------------- the two shells

  datatype Mode = Between | InWord(word: string) | InQuote(word: string)

  predicate Blank(c: char) { c == ' ' || c == '\t' }

  /** Characters that mean something to the shell when they are not quoted. */
  predicate ShSpecial(c: char) {
    || c == '|' || c == '&' || c == ';' || c == '<' || c == '>' || c == '(' || c == ')' || c == '$' || c == '`'
    || c == '"' || c == '*' || c == '?' || c == '[' || c == '#' || c == '~' || c == '\n'
  }

  function Word(m: Mode): string { if m.Between? then "" else m.word }

  function Emit(m: Mode, rest: Option<seq<string>>): Option<seq<string>> {
    if m.InWord? && rest.Some? then Some([m.word] + rest.value) else rest
  }

  function Sh(s: string, m: Mode): Option<seq<string>> {
    if s == "" then (match m case Between => Some([]) case InWord(w) => Some([w]) case InQuote(_) => None)
    else if m.InQuote? then
      if s[0] == '\'' then Sh(s[1..], InWord(m.word)) else Sh(s[1..], InQuote(m.word + [s[0]]))
    else if Blank(s[0]) then Emit(m, Sh(s[1..], Between))
    else if s[0] == '\'' then Sh(s[1..], InQuote(Word(m)))
    else if s[0] == '\\' then
      if |s| == 1 then None
      else if s[1] == '\n' then Sh(s[2..], m)
      else Sh(s[2..], InWord(Word(m) + [s[1]]))
    else if ShSpecial(s[0]) then None
    else Sh(s[1..], InWord(Word(m) + [s[0]]))
  }

  predicate FishSpecial(c: char) {
    || c == '\\' || c == '$' || c == '*' || c == '?' || c == '~' || c == '#' || c == '(' || c == ')' || c == '{'
    || c == '}' || c == '[' || c == ']' || c == '<' || c == '>' || c == '^' || c == '&' || c == '|' || c == ';'
    || c == '"' || c == '%'
    || c == '\n'
  }

  function Fish(s: string, m: Mode): Option<seq<string>> {
    if s == "" then (match m case Between => Some([]) case InWord(w) => Some([w]) case InQuote(_) => None)
    else if m.InQuote? then
      if s[0] == '\'' then Fish(s[1..], InWord(m.word))
      else if s[0] == '\\' && |s| > 1 && (s[1] == '\\' || s[1] == '\'') then Fish(s[2..], InQuote(m.word + [s[1]]))
      else Fish(s[1..], InQuote(m.word + [s[0]]))
    else if Blank(s[0]) then Emit(m, Fish(s[1..], Between))
    else if s[0] == '\'' then Fish(s[1..], InQuote(Word(m)))
    else if FishSpecial(s[0]) then None
    else Fish(s[1..], InWord(Word(m) + [s[0]]))
  }

  // ---------------------------------------------------------------- sh undoes ShellQuote

  lemma {:induction false} ShReadsSafe(s: string, rest: string, m: Mode)
    requires AllSafe(s) && !m.InQuote? && (s != "" || m.InWord?)
    ensures Sh(s + rest, m) == Sh(rest, InWord(Word(m) + s))
  {
    if s == "" {
      assert s + rest == rest && Word(m) + s == Word(m);
    } else {
      assert (s + rest)[0] == s[0] && (s + rest)[1..] == s[1..] + rest;
      assert Safe(s[0]) && AllSafe(s[1..]);
      ShReadsSafe(s[1..], rest, InWord(Word(m) + [s[0]]));
      assert Word(m) + [s[0]] + s[1..] == Word(m) + s;
    }
  }

  lemma ShInQuote(c: char, tail: string, w: string)
    ensures Sh((if c == '\'' then "'\\''" else [c]) + tail, InQuote(w)) == Sh(tail, InQuote(w + [c]))
  {
    if c == '\'' {
      var all := "'\\''" + tail;
      assert all[1..] == "\\''" + tail && all[1..][2..] == "'" + tail && ("'" + tail)[1..] == tail;
      assert Sh(all, InQuote(w)) == Sh("\\''" + tail, InWord(w));
      assert Sh("\\''" + tail, InWord(w)) == Sh("'" + tail, InWord(w + [c]));
    } else {
      assert ([c] + tail)[1..] == tail;
    }
  }

  lemma ShLeavesQuote(rest: string, w: string)
    ensures Sh("'" + rest, InQuote(w)) == Sh(rest, InWord(w))
  {}

  lemma {:induction false} ShReadsQuoted(s: string, rest: string, w: string)
    ensures Sh(Replace(s, '\'', "'\\''") + "'" + rest, InQuote(w)) == Sh(rest, InWord(w + s))
  {
    hide Sh;
    if s == "" {
      ShLeavesQuote(rest, w);
      assert "" + "'" + rest == "'" + rest && w + s == w;
    } else {
      var tail := Replace(s[1..], '\'', "'\\''") + "'" + rest;
      ShReadsQuoted(s[1..], rest, w + [s[0]]);
      ShInQuote(s[0], tail, w);
      assert w + [s[0]] + s[1..] == w + s;
      assert Replace(s, '\'', "'\\''") + "'" + rest == (if s[0] == '\'' then "'\\''" else [s[0]]) + tail;
    }
  }

  /** A quoted token is read back as the one word it was. */
  lemma ShReadsToken(s: string, rest: string)
    ensures Sh(ShellQuote(s) + rest, Between) == Sh(rest, InWord(s))
  {
    if s == "" {
      var all := "''" + rest;
      assert all[1..] == "'" + rest && ("'" + rest)[1..] == rest;
      assert Sh(all, Between) == Sh("'" + rest, InQuote(""));
    } else if AllSafe(s) {
      ShReadsSafe(s, rest, Between);
      assert "" + s == s;
    } else {
      var body := Replace(s, '\'', "'\\''") + "'" + rest;
      assert ShellQuote(s) + rest == "'" + body;
      assert ("'" + body)[1..] == body;
      ShReadsQuoted(s, rest, "");
      assert "" + s == s;
    }
  }

  /** Tokenizing the joined quotes of any tokens gives the tokens back. */
  lemma {:induction false} ShInvertsQuoteAll(tokens: seq<string>)
    ensures Sh(Line(tokens), Between) == Some(tokens)
  {
    var quoted := QuotedAll(tokens);
    if tokens == [] {
    } else if |tokens| == 1 {
      ShReadsToken(tokens[0], "");
      assert quoted[0] + "" == quoted[0];
      assert tokens == [tokens[0]];
    } else {
      var rest := Line(tokens[1..]);
      assert quoted[1..] == QuotedAll(tokens[1..]);
      assert Line(tokens) == quoted[0] + (" " + rest);
      ShReadsToken(tokens[0], " " + rest);
      assert (" " + rest)[1..] == rest;
      ShInvertsQuoteAll(tokens[1..]);
      assert tokens == [tokens[0]] + tokens[1..];
    }
  }

  // ---------------------------------------------------------------- fish undoes FishQuote

  function FishEscapedChar(c: char): string {
    if c == '\\' then "\\\\" else if c == '\'' then "\\'" else [c]
  }

  /** Both replacements at once: the backslashes of the second are not doubled by the first. */
  function FishEscaped(s: string): string {
    if s == "" then ""
    else FishEscapedChar(s[0]) + FishEscaped(s[1..])
  }

  lemma {:induction false} ReplaceAppend(a: string, b: string, c: char, with: string)
    ensures Replace(a + b, c, with) == Replace(a, c, with) + Replace(b, c, with)
  {
    if a == "" {
      assert a + b == b;
    } else {
      assert (a + b)[0] == a[0] && (a + b)[1..] == a[1..] + b;
      ReplaceAppend(a[1..], b, c, with);
    }
  }

  lemma {:induction false} TwoPassesAreOne(s: string)
    ensures Replace(Replace(s, '\\', "\\\\"), '\'', "\\'") == FishEscaped(s)
  {
    if s != "" {
      var first := if s[0] == '\\' then "\\\\" else [s[0]];
      TwoPassesAreOne(s[1..]);
      ReplaceAppend(first, Replace(s[1..], '\\', "\\\\"), '\'', "\\'");
      assert first[1..] == (if s[0] == '\\' then "\\" else "");
      if s[0] == '\\' { assert first[1..][1..] == ""; }
    }
  }

  lemma FishInQuote(c: char, tail: string, w: string)
    ensures Fish(FishEscapedChar(c) + tail, InQuote(w)) == Fish(tail, InQuote(w + [c]))
  {}

  lemma FishLeavesQuote(rest: string, w: string)
    ensures Fish("'" + rest, InQuote(w)) == Fish(rest, InWord(w))
  {}

  lemma {:induction false} FishReadsQuoted(s: string, rest: string, w: string)
    ensures Fish(FishEscaped(s) + "'" + rest, InQuote(w)) == Fish(rest, InWord(w + s))
  {
    hide Fish;
    if s == "" {
      FishLeavesQuote(rest, w);
      assert "" + "'" + rest == "'" + rest && w + s == w;
    } else {
      var tail := FishEscaped(s[1..]) + "'" + rest;
      FishReadsQuoted(s[1..], rest, w + [s[0]]);
      FishInQuote(s[0], tail, w);
      assert w + [s[0]] + s[1..] == w + s;
      assert FishEscaped(s) + "'" + rest == FishEscapedChar(s[0]) + tail;
    }
  }

  lemma FishReadsToken(s: string)
    ensures Fish(FishQuote(s), Between) == Some([s])
  {
    TwoPassesAreOne(s);
    var body := FishEscaped(s) + "'" + "";
    assert FishQuote(s) == "'" + body;
    assert ("'" + body)[1..] == body;
    FishReadsQuoted(s, "", "");
    assert "" + s == s;
  }

  lemma {:induction false} FishReadsPlain(s: string, rest: string, m: Mode)
    requires !m.InQuote? && forall c :: c in s ==> !Blank(c) && c != '\'' && !FishSpecial(c)
    requires s != "" || m.InWord?
    ensures Fish(s + rest, m) == Fish(rest, InWord(Word(m) + s))
  {
    if s == "" {
      assert s + rest == rest && Word(m) + s == Word(m);
    } else {
      assert (s + rest)[0] == s[0] && (s + rest)[1..] == s[1..] + rest;
      FishReadsPlain(s[1..], rest, InWord(Word(m) + [s[0]]));
      assert Word(m) + [s[0]] + s[1..] == Word(m) + s;
    }
  }

  lemma FishReadsWord(s: string, rest: string, words: seq<string>)
    requires s != "" && forall c :: c in s ==> !Blank(c) && c != '\'' && !FishSpecial(c)
    requires Fish(rest, Between) == Some(words)
    ensures Fish(s + " " + rest, Between) == Some([s] + words)
  {
    assert s + " " + rest == s + (" " + rest);
    FishReadsPlain(s, " " + rest, Between);
    assert "" + s == s && (" " + rest)[1..] == rest;
  }

  /** Both levels: the terminal's fish hands bash -lc one argument, and sh reads that argument as
      exactly the command's tokens. */
  lemma TwoLevelsInvert(command: seq<string>)
    ensures Fish(WrapBashLogin(command), Between) == Some(["bash", "-lc", Line(command)])
    ensures Sh(Line(command), Between) == Some(command)
  {
    var arg := FishQuote(Line(command));
    FishReadsToken(Line(command));
    FishReadsWord("-lc", arg, [Line(command)]);
    assert ["-lc"] + [Line(command)] == ["-lc", Line(command)];
    FishReadsWord("bash", "-lc" + " " + arg, ["-lc", Line(command)]);
    assert ["bash"] + ["-lc", Line(command)] == ["bash", "-lc", Line(command)];
    assert WrapBashLogin(command) == "bash" + " " + ("-lc" + " " + arg);
    ShInvertsQuoteAll(command);
  }

  /** So no two commands are rendered alike. */
  lemma RenderingIsInjective(command: seq<string>, command': seq<string>)
    requires WrapBashLogin(command) == WrapBashLogin(command')
    ensures command == command'
  {
    TwoLevelsInvert(command);
    TwoLevelsInvert(command');
  }

  // ---------------------------------------------------------------- what is left unquoted

  lemma {:induction false} ReplaceGrows(s: string, c: char, with: string)
    requires with != ""
    ensures |Replace(s, c, with)| >= |s|
  {
    if s != "" { ReplaceGrows(s[1..], c, with); }
  }

  /** A token is rendered as itself exactly when it is not empty and all its characters are on the
      allowlist; any other is rendered between single quotes. */
  lemma BareExactly(s: string)
    ensures ShellQuote(s) == s <==> s != "" && forall c :: c in s ==> Safe(c)
    ensures ShellQuote(s) != s ==>
      var q := ShellQuote(s); |q| >= 2 && q[0] == '\'' && q[|q| - 1] == '\''
  {
    ReplaceGrows(s, '\'', "'\\''");
  }
}
