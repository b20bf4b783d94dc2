/**
 * The rendering of a command line in diagnostics (`src/packages/error_utils.rs`)
 * and its reader: splitting by the quoting rules of section 2.2 of the POSIX
 * Shell Command Language.
 */
module Quoting {
  import opened Wrappers
  import opened Text

  predicate IsMeta(c: char) {
    c in {'\'', '\"', '$', '`', '\\', '|', '&', ';', '>', '<'}
  }

  /** Characters that make an argument be quoted. */
  predicate NeedsQuotes(c: char) {
    IsSpace(c) || IsMeta(c)
  }

  predicate IsPlain(word: string) {
    forall i :: 0 <= i < |word| ==> !NeedsQuotes(word[i])
  }

  /** Every single quote becomes `'\''`. */
  function Escape(s: string): string
    decreases |s|
  {
    if s == "" then ""
    else Escape(s[..|s| - 1]) + if s[|s| - 1] == '\'' then "'\\''" else [s[|s| - 1]]
  }

  function Quote(arg: string): string {
    if IsPlain(arg) then arg else "'" + Escape(arg) + "'"
  }

  function Rendered(program: string, args: seq<string>): string
    decreases |args|
  {
    if args == [] then program
    else Rendered(program, args[..|args| - 1]) + " " + Quote(args[|args| - 1])
  }

  method FormatCommand(program: string, args: seq<string>) returns (s: string)
    ensures s == Rendered(program, args)
    ensures IsPlain(program) && program != "" ==>
              Split(s) == Some([program] + NonEmpty(args))
  {
    s := program;
    for i := 0 to |args|
      invariant s == Rendered(program, args[..i])
    {
      assert args[..i + 1][..i] == args[..i];
      s := s + " ";
      if !IsPlain(args[i]) {
        s := s + "'";
        s := s + Escape(args[i]);
        s := s + "'";
      } else {
        s := s + args[i];
      }
    }
    assert args[..|args|] == args;
    if IsPlain(program) && program != "" {
      SplitUndoesRendering(program, args);
    }
  }

  // ------------------------------------------------------------------ reading

  /** Unquoted, these begin a quotation the renderer never writes, an expansion, or an operator. */
  predicate IsOperator(c: char) {
    c == '\"' || c == '$' || c == '`' || c == '|' || c == '&' || c == ';' || c == '<' || c == '>'
  }

  /** `current` is the word being read, if one has begun; `bad` an unquoted operator or expansion. */
  datatype Reader = Reader(words: seq<string>, current: Option<string>, quoted: bool, escaped: bool, bad: bool)

  function Append(current: Option<string>, s: string): Option<string> {
    Some((if current.Some? then current.value else "") + s)
  }

  function Read(r: Reader, c: char): Reader {
    if r.bad then r
    else if r.escaped then r.(escaped := false, current := Append(r.current, [c]))
    else if r.quoted then
      if c == '\'' then r.(quoted := false) else r.(current := Append(r.current, [c]))
    else if c == '\'' then r.(quoted := true, current := Append(r.current, ""))
    else if c == '\\' then r.(escaped := true, current := Append(r.current, ""))
    else if c == ' ' || c == '\t' || c == '\n' then
      if r.current.Some? then r.(words := r.words + [r.current.value], current := None) else r
    else if IsOperator(c) then r.(bad := true)
    else r.(current := Append(r.current, [c]))
  }

  function ReadAll(r: Reader, s: string): Reader
    decreases |s|
  {
    if s == "" then r else Read(ReadAll(r, s[..|s| - 1]), s[|s| - 1])
  }

  /** The words of a line, or nothing when a quotation is open or an operator stands unquoted. */
  function Split(s: string): Option<seq<string>> {
    var r := ReadAll(Reader([], None, false, false, false), s);
    if r.bad || r.quoted || r.escaped then None
    else Some(r.words + if r.current.Some? then [r.current.value] else [])
  }

  lemma {:induction false} ReadConcat(r: Reader, a: string, b: string)
    ensures ReadAll(r, a + b) == ReadAll(ReadAll(r, a), b)
    decreases |b|
  {
    if b == "" {
      assert a + b == a;
    } else {
      assert (a + b)[..|a + b| - 1] == a + b[..|b| - 1];
      ReadConcat(r, a, b[..|b| - 1]);
    }
  }

  lemma ReadOne(r: Reader, c: char)
    ensures ReadAll(r, [c]) == Read(r, c)
  {
    assert [c][..0] == "" && ReadAll(r, "") == r;
  }

  /** The reader is outside quotations and has met nothing forbidden. */
  predicate Open(r: Reader) {
    !r.quoted && !r.escaped && !r.bad
  }

  lemma AppendConcat(current: Option<string>, a: string, b: string)
    ensures Append(Append(current, a), b) == Append(current, a + b)
  {
    var s := if current.Some? then current.value else "";
    assert (s + a) + b == s + (a + b);
  }

  lemma {:induction false} ReadPlain(r: Reader, word: string)
    requires Open(r) && IsPlain(word)
    ensures ReadAll(r, word) == if word == "" then r else r.(current := Append(r.current, word))
    decreases |word|
  {
    if word != "" {
      var init, c := word[..|word| - 1], word[|word| - 1];
      ReadPlain(r, init);
      assert !NeedsQuotes(c);
      AppendConcat(r.current, init, [c]);
      assert word == init + [c];
      assert init == "" ==> word == [c];
    }
  }

  lemma ReadQuoteInQuotes(r: Reader)
    requires r.quoted && !r.escaped && !r.bad && r.current.Some?
    ensures ReadAll(r, "'\\''") == r.(current := Some(r.current.value + "'"))
  {
    var r1, r2 := r.(quoted := false), r.(quoted := false, escaped := true);
    assert "'\\''" == "'" + "\\" + "'" + "'";
    ReadConcat(r, "'" + "\\" + "'", "'");
    ReadConcat(r, "'" + "\\", "'");
    ReadConcat(r, "'", "\\");
    ReadOne(r, '\'');
    assert r.current.value + "" == r.current.value;
    ReadOne(r1, '\\');
    ReadOne(r2, '\'');
    ReadOne(r2.(escaped := false, current := Some(r.current.value + "'")), '\'');
    assert r.current.value + "'" + "" == r.current.value + "'";
  }

  /** Inside quotations the escaped text reads as the text itself. */
  lemma {:induction false} ReadEscaped(r: Reader, s: string)
    requires r.quoted && !r.escaped && !r.bad && r.current.Some?
    ensures ReadAll(r, Escape(s)) == r.(current := Some(r.current.value + s))
    decreases |s|
  {
    if s == "" {
      assert r.current.value + s == r.current.value;
    } else {
      var init, c := s[..|s| - 1], s[|s| - 1];
      ReadEscaped(r, init);
      var r1 := ReadAll(r, Escape(init));
      assert s == init + [c];
      assert (r.current.value + init) + [c] == r.current.value + s;
      if c == '\'' {
        ReadConcat(r, Escape(init), "'\\''");
        ReadQuoteInQuotes(r1);
      } else {
        ReadConcat(r, Escape(init), [c]);
        ReadOne(r1, c);
      }
    }
  }

  lemma ReadInQuotes(r: Reader, arg: string)
    requires Open(r) && r.current.None?
    ensures ReadAll(r, "'" + Escape(arg) + "'") == r.(current := Some(arg))
  {
    hide ReadAll, Escape;
    var r1 := r.(quoted := true, current := Some(""));
    var text := Escape(arg);
    ReadConcat(r, "'" + text, "'");
    ReadConcat(r, "'", text);
    ReadOne(r, '\'');
    ReadEscaped(r1, arg);
    assert "" + "" == "" && "" + arg == arg && "'" == ['\''];
    ReadOne(r1.(current := Some(arg)), '\'');
  }

  /** Between words, a rendered argument reads as that argument; an empty one as nothing. */
  lemma ReadQuoted(r: Reader, arg: string)
    requires Open(r) && r.current.None?
    ensures ReadAll(r, Quote(arg)) == if arg == "" then r else r.(current := Some(arg))
  {
    hide ReadAll, Escape;
    assert "" + arg == arg;
    if IsPlain(arg) {
      ReadPlain(r, arg);
    } else {
      ReadInQuotes(r, arg);
    }
  }

  function NonEmpty(args: seq<string>): (r: seq<string>)
    ensures |r| <= |args| && (|r| == |args| <==> "" !in args)
    decreases |args|
  {
    if args == [] then []
    else NonEmpty(args[..|args| - 1]) + if args[|args| - 1] == "" then [] else [args[|args| - 1]]
  }

  function WordsOf(r: Reader): seq<string> {
    r.words + if r.current.Some? then [r.current.value] else []
  }

  /** A blank ends the current word. */
  lemma NextWord(r: Reader)
    requires Open(r)
    ensures Open(Read(r, ' ')) && Read(r, ' ').current.None? && Read(r, ' ').words == WordsOf(r)
  {
    assert r.words + [] == r.words;
  }

  lemma {:induction false} ReadRendered(program: string, args: seq<string>)
    requires IsPlain(program) && program != ""
    ensures
      var r := ReadAll(Reader([], None, false, false, false), Rendered(program, args));
      Open(r) && WordsOf(r) == [program] + NonEmpty(args)
    decreases |args|
  {
    var r0 := Reader([], None, false, false, false);
    if args == [] {
      ReadPlain(r0, program);
      assert "" + program == program;
    } else {
      var init, last := args[..|args| - 1], args[|args| - 1];
      ReadRendered(program, init);
      var r1 := ReadAll(r0, Rendered(program, init));
      ReadConcat(r0, Rendered(program, init), " ");
      ReadOne(r1, ' ');
      ReadConcat(r0, Rendered(program, init) + " ", Quote(last));
      hide Read, Quote;
      NextWord(r1);
      ReadQuoted(Read(r1, ' '), last);
    }
  }

  /** Reading a rendered command yields the program and exactly the non-empty arguments, in order. */
  lemma SplitUndoesRendering(program: string, args: seq<string>)
    requires IsPlain(program) && program != ""
    ensures Split(Rendered(program, args)) == Some([program] + NonEmpty(args))
  {
    ReadRendered(program, args);
  }

  lemma {:induction false} NonEmptyIsIdentity(args: seq<string>)
    requires "" !in args
    ensures NonEmpty(args) == args
    decreases |args|
  {
    if args != [] {
      NonEmptyIsIdentity(args[..|args| - 1]);
    }
  }

  /** The rendering round-trips if and only if no argument is empty. */
  lemma RoundTrip(program: string, args: seq<string>)
    requires IsPlain(program) && program != ""
    ensures Split(Rendered(program, args)) == Some([program] + args) <==> "" !in args
  {
    SplitUndoesRendering(program, args);
    if "" !in args {
      NonEmptyIsIdentity(args);
    } else {
      assert |[program] + NonEmpty(args)| < |[program] + args|;
    }
  }

  /** Hence different commands without empty arguments render differently. */
  lemma RenderingIsInjective(program: string, args: seq<string>, program': string, args': seq<string>)
    requires IsPlain(program) && program != "" && "" !in args
    requires IsPlain(program') && program' != "" && "" !in args'
    requires Rendered(program, args) == Rendered(program', args')
    ensures program == program' && args == args'
  {
    RoundTrip(program, args);
    RoundTrip(program', args');
    assert ([program] + args)[0] == ([program'] + args')[0];
    assert ([program] + args)[1..] == args && ([program'] + args')[1..] == args';
  }

  /** An empty argument is lost. */
  lemma EmptyArgumentIsLost()
    ensures Split(Rendered("dpkg", ["-s", ""])) == Some(["dpkg", "-s"])
  {
    SplitUndoesRendering("dpkg", ["-s", ""]);
    assert ["-s", ""] == ["-s"] + [""];
    NonEmptyIsIdentity(["-s"]);
    assert NonEmpty(["-s", ""]) == ["-s"] by {
      assert ["-s", ""][..1] == ["-s"];
    }
    assert ["dpkg"] + ["-s"] == ["dpkg", "-s"];
  }

  /** White space, or one of the ten characters the renderer quotes. */
  predicate IsSpecial(c: char) {
    || c == '\'' || c == '\"' || c == '$' || c == '`' || c == '\\'
    || c == '|' || c == '&' || c == ';' || c == '>' || c == '<'
    || c as int in {0x9, 0xA, 0xB, 0xC, 0xD, 0x20, 0x85, 0xA0, 0x1680, 0x2000, 0x2001, 0x2002, 0x2003, 0x2004,
                    0x2005, 0x2006, 0x2007, 0x2008, 0x2009, 0x200A, 0x2028, 0x2029, 0x202F, 0x205F, 0x3000}
  }

  /** An argument stays as it is exactly if none of its characters is special; otherwise it stands in quotes. */
  lemma QuotesOnlyWhereNeeded(arg: string)
    ensures (forall c :: c in arg ==> !IsSpecial(c)) ==> Quote(arg) == arg
    ensures (exists c :: c in arg && IsSpecial(c)) ==>
              |Quote(arg)| >= |arg| + 2 && Quote(arg)[0] == '\'' && Quote(arg)[|Quote(arg)| - 1] == '\''
  {
    forall c
      ensures NeedsQuotes(c) <==> IsSpecial(c)
    {
      SpaceIsLiteral(c);
    }
    hide NeedsQuotes, IsSpecial;
    EscapeGrows(arg);
    if c :| c in arg && IsSpecial(c) {
      var i :| 0 <= i < |arg| && arg[i] == c;
      assert NeedsQuotes(arg[i]);
    }
  }

  lemma {:induction false} EscapeGrows(s: string)
    ensures |Escape(s)| >= |s|
    decreases |s|
  {
    if s != "" {
      EscapeGrows(s[..|s| - 1]);
    }
  }
}
