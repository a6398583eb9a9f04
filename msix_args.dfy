/** The command line handed to the Windows application-activation service
    when the browser is an MSIX package (src/process.rs): every argument is
    put in double quotes, a double quote inside it is written three times, and
    the quoted arguments are joined by single spaces. The decoder below is the
    inverse of that encoding, so no argument is lost or altered by it. */
module MsixArgs {
  import opened Wrappers

  /** `a` with every `"` replaced by `"""`. */
  function Escape(a: string): (r: string)
    ensures '"' !in a ==> r == a
  {
    if |a| == 0 then []
    else
      assert a == [a[0]] + a[1..];
      (if a[0] == '"' then "\"\"\"" else [a[0]]) + Escape(a[1..])
  }

  /** One argument between double quotes, its quotes escaped. */
  function QuoteArg(a: string): string {
    "\"" + Escape(a) + "\""
  }

  /** The pieces joined by single spaces. */
  function JoinWithSpaces(pieces: seq<string>): string {
    if |pieces| == 0 then ""
    else if |pieces| == 1 then pieces[0]
    else pieces[0] + " " + JoinWithSpaces(pieces[1..])
  }

  /** The command line for a list of arguments. */
  function EncodeArgs(args: seq<string>): (line: string)
    ensures |args| > 0 ==> |line| > 0 && line[0] == '"'
  {
    JoinWithSpaces(seq(|args|, i requires 0 <= i < |args| => QuoteArg(args[i])))
  }

  /** Reads the inside of a quoted argument: a `"` followed by two more is one
      literal quote, any other `"` closes the argument. Gives the argument and
      the text after the closing quote. */
  function ReadQuoted(s: string): (r: Option<(string, string)>)
    ensures r.Some? ==> |r.value.1| < |s|
  {
    if |s| == 0 then None
    else if s[0] == '"' then
      if 3 <= |s| && s[1] == '"' && s[2] == '"' then
        match ReadQuoted(s[3..])
        case None => None
        case Some(p) => Some(("\"" + p.0, p.1))
      else Some(("", s[1..]))
    else
      match ReadQuoted(s[1..])
      case None => None
      case Some(p) => Some(([s[0]] + p.0, p.1))
  }

  /** Splits a non-empty command line into its quoted arguments. */
  function DecodeQuoted(s: string): (r: Option<seq<string>>)
    ensures r.Some? ==> |r.value| > 0
    decreases |s|
  {
    if |s| == 0 || s[0] != '"' then None
    else
      match ReadQuoted(s[1..])
      case None => None
      case Some(p) =>
        if |p.1| == 0 then Some([p.0])
        else if p.1[0] != ' ' then None
        else
          match DecodeQuoted(p.1[1..])
          case None => None
          case Some(rest) => Some([p.0] + rest)
  }

  /** Recovers the argument list from a command line. */
  function DecodeArgs(line: string): Option<seq<string>> {
    if |line| == 0 then Some([]) else DecodeQuoted(line)
  }

  /** An ordinary character is copied into the argument. */
  lemma ReadQuotedPlain(c: char, t: string)
    requires c != '"'
    ensures ReadQuoted([c] + t) ==
      match ReadQuoted(t)
      case None => None
      case Some(p) => Some(([c] + p.0, p.1))
  {
    assert ([c] + t)[1..] == t;
  }

  /** Three quotes in a row stand for one quote of the argument. */
  lemma ReadQuotedTriple(t: string)
    ensures ReadQuoted("\"\"\"" + t) ==
      match ReadQuoted(t)
      case None => None
      case Some(p) => Some(("\"" + p.0, p.1))
  {
    assert ("\"\"\"" + t)[3..] == t;
  }

  /** Escaping the first character and the rest separately. */
  lemma EscapeConsTail(a: string, tail: string)
    requires |a| > 0
    ensures Escape(a) + tail ==
      (if a[0] == '"' then "\"\"\"" else [a[0]]) + (Escape(a[1..]) + tail)
  {
  }

  /** Reading an escaped argument followed by a closing quote gives the
      argument back, provided the closing quote is not itself followed by a
      quote. */
  lemma {:induction false} ReadQuotedEscape(a: string, tail: string)
    requires |tail| > 0 && tail[0] == '"'
    requires |tail| == 1 || tail[1] != '"'
    ensures ReadQuoted(Escape(a) + tail) == Some((a, tail[1..]))
  {
    if |a| == 0 {
      assert Escape(a) + tail == tail;
    } else {
      var e := Escape(a[1..]);
      ReadQuotedEscape(a[1..], tail);
      EscapeConsTail(a, tail);
      if a[0] == '"' {
        ReadQuotedTriple(e + tail);
        assert "\"" + a[1..] == a;
      } else {
        ReadQuotedPlain(a[0], e + tail);
        assert [a[0]] + a[1..] == a;
      }
    }
  }

  /** The command line of a list of two or more arguments is the first one
      quoted, a space, and the command line of the rest. */
  lemma EncodeArgsCons(args: seq<string>)
    requires |args| > 0
    ensures |args| == 1 ==> EncodeArgs(args) == QuoteArg(args[0])
    ensures |args| > 1 ==> EncodeArgs(args) == QuoteArg(args[0]) + " " + EncodeArgs(args[1..])
  {
    var quoted := seq(|args|, i requires 0 <= i < |args| => QuoteArg(args[i]));
    assert quoted[1..] == seq(|args| - 1, i requires 0 <= i < |args| - 1 => QuoteArg(args[1..][i]));
  }

  /** A single quoted argument decodes to itself. */
  lemma DecodeQuotedSingle(a: string)
    ensures DecodeQuoted(QuoteArg(a)) == Some([a])
  {
    var line := QuoteArg(a);
    assert line == "\"" + (Escape(a) + "\"");
    ReadQuotedEscape(a, "\"");
    assert line[1..] == Escape(a) + "\"";
    assert "\""[1..] == "";
  }

  /** A quoted argument, a space and a decodable rest decode to the argument
      followed by the rest. */
  lemma DecodeQuotedCons(a: string, restLine: string, rest: seq<string>)
    requires DecodeQuoted(restLine) == Some(rest)
    ensures DecodeQuoted(QuoteArg(a) + " " + restLine) == Some([a] + rest)
  {
    var line := QuoteArg(a) + " " + restLine;
    var tail := "\" " + restLine;
    assert line == "\"" + (Escape(a) + tail);
    ReadQuotedEscape(a, tail);
    assert line[1..] == Escape(a) + tail;
    assert tail[1..] == " " + restLine;
    assert (" " + restLine)[1..] == restLine;
  }

  /** Decoding a non-empty encoded list gives the list back. */
  lemma {:induction false} DecodeQuotedEncode(args: seq<string>)
    requires |args| > 0
    ensures DecodeQuoted(EncodeArgs(args)) == Some(args)
  {
    EncodeArgsCons(args);
    if |args| == 1 {
      DecodeQuotedSingle(args[0]);
      assert [args[0]] == args;
    } else {
      DecodeQuotedEncode(args[1..]);
      DecodeQuotedCons(args[0], EncodeArgs(args[1..]), args[1..]);
      assert [args[0]] + args[1..] == args;
    }
  }

  /** The encoding is reversible: every argument, quotes included, comes back
      unchanged and in order. */
  lemma EncodeArgsRoundTrip(args: seq<string>)
    ensures DecodeArgs(EncodeArgs(args)) == Some(args)
  {
    if |args| > 0 {
      DecodeQuotedEncode(args);
    }
  }

  /** A profile name with a double quote in it, as the activation service
      receives it. */
  lemma QuotedProfileNameExample()
    ensures EncodeArgs(["-P", "A\"B"]) == "\"-P\" \"A\"\"\"B\""
  {
    var args := ["-P", "A\"B"];
    EncodeArgsCons(args);
    EncodeArgsCons(args[1..]);
    assert args[1..] == ["A\"B"];
    assert Escape("-P") == "-P";
    assert Escape("A\"B") == "A\"\"\"B";
  }
}
