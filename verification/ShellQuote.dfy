/**
 How a launch command is quoted (`apps/daemon/src/tmux-runtime.ts`), and the quoting rules of the POSIX
 Shell Command Language (IEEE Std 1003.1, sections 2.2.1 to 2.2.3) that take it apart again.
 */
module ShellQuote {
  import opened Wrappers

  // ---------------------------------------------------------------- quoting

  /** `replaceAll("'", ...)`: leave the quotes, add a quoted quote, and go on quoting. */
  function Replaced(s: string): string {
    if s == "" then "" else (if s[0] == '\'' then "'\"'\"'" else [s[0]]) + Replaced(s[1..])
  }

  function Quote(s: string): string {
    "'" + Replaced(s) + "'"
  }

  /** `args.map(shellQuote).join(" ")`. */
  function Command(args: seq<string>): string {
    if args == [] then "" else if |args| == 1 then Quote(args[0]) else Quote(args[0]) + " " + Command(args[1..])
  }

  // ---------------------------------------------------------------- the shell

  datatype Mode = Plain | Single | Double

  /** Characters with a meaning of their own outside quotes: operators, expansions, patterns, comments and assignments. */
  predicate Special(c: char) {
    c in "|&;<>()$`*?[#~=%!{}\n\0"
  }

  function Adding(word: Option<string>, more: string): Option<string> {
    Some((if word.Some? then word.value else "") + more)
  }

  /** The words of a text, read from the middle of `word` if there is one; none if it is not a plain list of words. */
  function Words(t: string, mode: Mode, word: Option<string>): Option<seq<string>>
    decreases |t|
  {
    if t == "" then
      if !mode.Plain? then None else if word.None? then Some([]) else Some([word.value])
    else if t[0] == '\0' then None
    else match mode
      case Plain =>
        if t[0] == ' ' || t[0] == '\t' then
          var rest := Words(t[1..], Plain, None);
          if word.None? || rest.None? then rest else Some([word.value] + rest.value)
        else if t[0] == '\'' then Words(t[1..], Single, Adding(word, ""))
        else if t[0] == '"' then Words(t[1..], Double, Adding(word, ""))
        else if t[0] == '\\' then
          if |t| == 1 then None
          else if t[1] == '\n' then Words(t[2..], Plain, word)
          else if t[1] == '\0' then None
          else Words(t[2..], Plain, Adding(word, [t[1]]))
        else if Special(t[0]) then None
        else Words(t[1..], Plain, Adding(word, [t[0]]))
      case Single =>
        if t[0] == '\'' then Words(t[1..], Plain, word) else Words(t[1..], Single, Adding(word, [t[0]]))
      case Double =>
        if t[0] == '"' then Words(t[1..], Plain, word)
        else if t[0] == '$' || t[0] == '`' then None
        else if t[0] == '\\' && |t| > 1 && t[1] == '\n' then Words(t[2..], Double, word)
        else if t[0] == '\\' && |t| > 1 && t[1] in "$`\"\\" then Words(t[2..], Double, Adding(word, [t[1]]))
        else Words(t[1..], Double, Adding(word, [t[0]]))
  }

  // ---------------------------------------------------------------- round trip

  /** Inside single quotes, a replaced string reads back as the string. */
  lemma {:induction false} ReplacedReads(s: string, rest: string, word: string)
    requires '\0' !in s
    ensures Words(Replaced(s) + "'" + rest, Single, Some(word)) == Words(rest, Plain, Some(word + s))
  {
    if s == "" {
      assert Replaced(s) + "'" + rest == "'" + rest;
      assert word + s == word;
      assert ("'" + rest)[1..] == rest;
    } else {
      var tail := Replaced(s[1..]) + "'" + rest;
      ReplacedReads(s[1..], rest, word + [s[0]]);
      assert word + [s[0]] + s[1..] == word + s;
      if s[0] == '\'' {
        assert Replaced(s) + "'" + rest == "'\"'\"'" + tail;
        EscapeReads(tail, word);
      } else {
        assert Replaced(s) + "'" + rest == [s[0]] + tail;
        assert ([s[0]] + tail)[1..] == tail;
      }
    }
  }

  /** Leaving the quotes, a double-quoted quote, and the quotes again. */
  lemma {:induction false} EscapeReads(tail: string, word: string)
    ensures Words("'\"'\"'" + tail, Single, Some(word)) == Words(tail, Single, Some(word + "'"))
  {
    var a, b, c, d := "\"'\"'" + tail, "'\"'" + tail, "\"'" + tail, "'" + tail;
    assert ("'\"'\"'" + tail)[1..] == a && a[1..] == b && b[1..] == c && c[1..] == d && d[1..] == tail;
    assert word + "" == word && (word + "'") + "" == word + "'";
    assert Words("'\"'\"'" + tail, Single, Some(word)) == Words(a, Plain, Some(word));
    assert Words(a, Plain, Some(word)) == Words(b, Double, Some(word));
    assert Words(b, Double, Some(word)) == Words(c, Double, Some(word + "'"));
    assert Words(c, Double, Some(word + "'")) == Words(d, Plain, Some(word + "'"));
  }

  lemma {:induction false} QuoteReads(s: string, rest: string)
    requires '\0' !in s
    ensures Words(Quote(s) + rest, Plain, None) == Words(rest, Plain, Some(s))
  {
    var inner := Replaced(s) + "'" + rest;
    assert Quote(s) + rest == "'" + inner;
    assert ("'" + inner)[1..] == inner;
    assert "" + "" == "";
    assert Words("'" + inner, Plain, None) == Words(inner, Single, Some(""));
    ReplacedReads(s, rest, "");
    assert "" + s == s;
  }

  /** The shell takes a quoted command apart into exactly the arguments it was made of. */
  lemma {:induction false} CommandReads(args: seq<string>)
    requires forall i :: 0 <= i < |args| ==> '\0' !in args[i]
    ensures Words(Command(args), Plain, None) == Some(args)
  {
    if args == [] {
    } else if |args| == 1 {
      QuoteReads(args[0], "");
      assert Quote(args[0]) + "" == Quote(args[0]);
      assert args == [args[0]];
    } else {
      var rest := " " + Command(args[1..]);
      QuoteReads(args[0], rest);
      assert Command(args) == Quote(args[0]) + rest;
      assert rest[1..] == Command(args[1..]);
      CommandReads(args[1..]);
      assert args == [args[0]] + args[1..];
    }
  }

  // ---------------------------------------------------------------- and only for arguments a shell can carry

  lemma {:induction false} NulStops(t: string, mode: Mode, word: Option<string>)
    requires '\0' in t
    ensures Words(t, mode, word) == None
    decreases |t|
  {
    if t[0] != '\0' {
      assert '\0' in t[1..];
      NulStops(t[1..], Plain, None);
      NulStops(t[1..], Plain, word);
      NulStops(t[1..], Single, Adding(word, ""));
      NulStops(t[1..], Double, Adding(word, ""));
      NulStops(t[1..], Plain, Adding(word, [t[0]]));
      NulStops(t[1..], Single, Adding(word, [t[0]]));
      NulStops(t[1..], Double, Adding(word, [t[0]]));
      if |t| > 1 && t[1] != '\0' {
        assert '\0' in t[2..];
        NulStops(t[2..], Plain, word);
        NulStops(t[2..], Double, word);
        NulStops(t[2..], Plain, Adding(word, [t[1]]));
        NulStops(t[2..], Double, Adding(word, [t[1]]));
      }
    }
  }

  lemma {:induction false} ReplacedKeepsNul(s: string)
    ensures '\0' in s ==> '\0' in Replaced(s)
  {
    if s != "" { ReplacedKeepsNul(s[1..]); }
  }

  lemma {:induction false} CommandKeepsNul(args: seq<string>, i: nat)
    requires i < |args| && '\0' in args[i]
    ensures '\0' in Command(args)
  {
    if i == 0 {
      ReplacedKeepsNul(args[0]);
      assert '\0' in Quote(args[0]);
    } else {
      CommandKeepsNul(args[1..], i - 1);
    }
  }

  /** The round trip holds exactly for arguments without a NUL, empty ones and ones made of quotes included. */
  lemma {:induction false} CommandRoundTrip(args: seq<string>)
    ensures Words(Command(args), Plain, None) == Some(args) <==> forall i :: 0 <= i < |args| ==> '\0' !in args[i]
  {
    if forall i :: 0 <= i < |args| ==> '\0' !in args[i] {
      CommandReads(args);
    } else {
      var i :| 0 <= i < |args| && '\0' in args[i];
      CommandKeepsNul(args, i);
      NulStops(Command(args), Plain, None);
    }
  }
}
