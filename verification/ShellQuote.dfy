/** Quoting a provider command for the terminal's shell, and reading it back by the shell's own rules. */
module ShellQuote {
  import opened Prelude
  import opened Texts

  /** One argument between single quotes; an embedded quote leaves them, is double-quoted, and re-enters. */
  function Escaped(s: string): string {
    if s == "" then ""
    else (if s[0] == '\'' then "'\"'\"'" else [s[0]]) + Escaped(s[1..])
  }

  function Quoted(s: string): string { "'" + Escaped(s) + "'" }

  function AllQuoted(arguments: seq<string>): seq<string> {
    seq(|arguments|, i requires 0 <= i < |arguments| => Quoted(arguments[i]))
  }

  method ReplaceQuotes(s: string) returns (r: string)
    ensures r == Escaped(s)
  {
    r := "";
    for i := |s| downto 0
      invariant r == Escaped(s[i..])
    {
      r := (if s[i] == '\'' then "'\"'\"'" else [s[i]]) + r;
      assert s[i..][1..] == s[i + 1..];
    }
  }

  method ShellJoin(arguments: seq<string>) returns (r: string)
    ensures r == Join(AllQuoted(arguments), ' ')
  {
    var quoted := [];
    for i := 0 to |arguments|
      invariant quoted == AllQuoted(arguments)[..i]
    {
      var escaped := ReplaceQuotes(arguments[i]);
      quoted := quoted + ["'" + escaped + "'"];
    }
    assert quoted == AllQuoted(arguments);
    r := Join(quoted, ' ');
  }

  // ---- Section 2.2 of the POSIX Shell Command Language ------------------------------------------

  datatype Mode = Plain | Single | Double

  /** Characters that, unquoted, may mean something other than themselves. */
  predicate IsSpecial(c: char) {
    c in "|&;<>()$`\n*?[#~=%!{}"
  }

  function Begun(word: Option<string>): string { if word.Some? then word.value else "" }

  /**
   The words a shell reads from `s`, or None where it would do anything but remove quotes and split at
   blanks. `word` is the word begun so far, if one is.
   */
  function Words(s: string, mode: Mode, word: Option<string>): Option<seq<string>>
    decreases |s|
  {
    if s == "" then
      if mode != Plain then None else Some(if word.Some? then [word.value] else [])
    else match mode
    case Plain =>
      if s[0] == ' ' || s[0] == '\t' then
        var rest := Words(s[1..], Plain, None);
        if rest.None? then None else Some((if word.Some? then [word.value] else []) + rest.value)
      else if s[0] == '\'' then Words(s[1..], Single, Some(Begun(word)))
      else if s[0] == '"' then Words(s[1..], Double, Some(Begun(word)))
      else if s[0] == '\\' then
        if |s| == 1 then None
        else if s[1] == '\n' then Words(s[2..], Plain, word)
        else Words(s[2..], Plain, Some(Begun(word) + [s[1]]))
      else if IsSpecial(s[0]) then None
      else Words(s[1..], Plain, Some(Begun(word) + [s[0]]))
    case Single =>
      if s[0] == '\'' then Words(s[1..], Plain, word) else Words(s[1..], Single, Some(Begun(word) + [s[0]]))
    case Double =>
      if s[0] == '"' then Words(s[1..], Plain, word)
      else if s[0] == '$' || s[0] == '`' then None
      else if s[0] == '\\' && |s| > 1 && s[1] in "$`\"\\" then Words(s[2..], Double, Some(Begun(word) + [s[1]]))
      else if s[0] == '\\' && |s| > 1 && s[1] == '\n' then Words(s[2..], Double, word)
      else Words(s[1..], Double, Some(Begun(word) + [s[0]]))
  }

  lemma OneQuote(rest: string, w: string)
    ensures Words("'\"'\"'" + rest, Single, Some(w)) == Words(rest, Single, Some(w + "'"))
  {
    var s := "'\"'\"'" + rest;
    assert s[1..] == "\"'\"'" + rest;
    assert s[1..][1..] == "'\"'" + rest;
    assert s[1..][1..][1..] == "\"'" + rest;
    assert s[1..][1..][1..][1..] == "'" + rest;
    assert s[1..][1..][1..][1..][1..] == rest;
    assert Words("'\"'" + rest, Double, Some(w)) == Words("\"'" + rest, Double, Some(w + "'"));
  }

  lemma QuoteCloses(rest: string, w: string)
    ensures Words("'" + rest, Single, Some(w)) == Words(rest, Plain, Some(w))
  {
    assert ("'" + rest)[1..] == rest;
  }

  lemma OneOther(c: char, tail: string, w: string)
    requires c != '\''
    ensures Words([c] + tail, Single, Some(w)) == Words(tail, Single, Some(w + [c]))
  {
    assert ([c] + tail)[1..] == tail;
  }

  /** Inside single quotes, what was escaped is read back and the closing quote ends it. */
  lemma {:induction false} EscapedReadsBack(a: string, rest: string, w: string)
    ensures Words(Escaped(a) + "'" + rest, Single, Some(w)) == Words(rest, Plain, Some(w + a))
  {
    hide Words;
    if a == "" {
      assert Escaped(a) + "'" + rest == "'" + rest && w + a == w;
      QuoteCloses(rest, w);
    } else {
      EscapedReadsBack(a[1..], rest, w + [a[0]]);
      var tail := Escaped(a[1..]) + "'" + rest;
      assert w + [a[0]] + a[1..] == w + a;
      if a[0] == '\'' {
        assert Escaped(a) + "'" + rest == "'\"'\"'" + tail;
        OneQuote(tail, w);
      } else {
        assert Escaped(a) + "'" + rest == [a[0]] + tail;
        OneOther(a[0], tail, w);
      }
    }
  }

  lemma QuotedReadsBack(a: string, rest: string)
    ensures Words(Quoted(a) + rest, Plain, None) == Words(rest, Plain, Some(a))
  {
    assert Quoted(a) + rest == "'" + (Escaped(a) + "'" + rest);
    assert (Quoted(a) + rest)[1..] == Escaped(a) + "'" + rest;
    EscapedReadsBack(a, rest, "");
    assert "" + a == a;
  }

  /** For every argument list, empty arguments and embedded quotes included, the shell reads back exactly that list. */
  lemma {:induction false} ShellReadsBackTheArguments(arguments: seq<string>)
    ensures Words(Join(AllQuoted(arguments), ' '), Plain, None) == Some(arguments)
  {
    if arguments != [] {
      var first, quoted := arguments[0], AllQuoted(arguments);
      if |arguments| == 1 {
        assert arguments == [first] && Quoted(first) + "" == Quoted(first) == Join(quoted, ' ');
        QuotedReadsBack(first, "");
      } else {
        ShellReadsBackTheArguments(arguments[1..]);
        assert quoted[1..] == AllQuoted(arguments[1..]);
        var rest := Join(quoted[1..], ' ');
        assert Join(quoted, ' ') == Quoted(first) + (" " + rest);
        QuotedReadsBack(first, " " + rest);
        assert (" " + rest)[1..] == rest;
        assert arguments == [first] + arguments[1..];
      }
    }
  }
}
