/** The parser: lexes a line, then turns its tokens into a command name, an
    argument list and `("stdout", target)` redirections. */
module Parsing {
  import opened Wrappers
  import opened Tokens
  import Lexing

  /** The command as this parser builds it; a redirection is a pair of a
      descriptor name and a target path. */
  datatype ParsedCommand = ParsedCommand(name: string, args: seq<string>, redirections: seq<(string, string)>)

  const NoCommand := "No command provided"
  const BadFirstToken := "First token must be a word or quoted string"
  const MissingFilename := "Expected filename after '>'"
  const UnexpectedToken := "Unexpected token"
  const TokenizeFailed := "Failed to tokenize input"

  /** The first position at or after `i` that does not hold `Whitespace`. */
  function SkipWs(ts: seq<Token>, i: nat): (j: nat)
    requires i <= |ts|
    ensures i <= j <= |ts|
    ensures j < |ts| ==> !ts[j].Whitespace?
    decreases |ts| - i
  {
    if i < |ts| && ts[i].Whitespace? then SkipWs(ts, i + 1) else i
  }

  /** Every token `SkipWs` steps over is whitespace. */
  lemma {:induction false} SkipWsSkipsWhitespace(ts: seq<Token>, i: nat)
    requires i <= |ts|
    ensures forall k :: i <= k < SkipWs(ts, i) ==> ts[k].Whitespace?
    decreases |ts| - i
  {
    if i < |ts| && ts[i].Whitespace? {
      SkipWsSkipsWhitespace(ts, i + 1);
    }
  }

  /** `args` with the pending argument pushed, if it is not empty. */
  function Flush(args: seq<string>, cur: string): seq<string>
  {
    if cur != "" then args + [cur] else args
  }

  /** The argument loop from position `i` on, with pending argument `cur`.
      With `discard` set (as written) the token right after a `>` operator is
      thrown away before the filename is looked for. */
  function Scan(ts: seq<Token>, i: nat, name: string, cur: string, args: seq<string>,
                redirs: seq<(string, string)>, discard: bool): Result<ParsedCommand, Error>
    requires i <= |ts|
    decreases |ts| - i
  {
    if i == |ts| then Success(ParsedCommand(name, Flush(args, cur), redirs))
    else
      match ts[i]
      case Operator(op) =>
        if op != '>' then Failure(Fail(UnexpectedToken))
        else
          var j := if discard && i + 1 < |ts| then i + 2 else i + 1;
          var k := SkipWs(ts, j);
          if k < |ts| && IsText(ts[k]) then
            Scan(ts, SkipWs(ts, k + 1), name, "", Flush(args, cur), redirs + [("stdout", Text(ts[k]))], discard)
          else Failure(Fail(MissingFilename))
      case Whitespace =>
        Scan(ts, SkipWs(ts, i + 1), name, "", Flush(args, cur), redirs, discard)
      case Word(w) =>
        Scan(ts, i + 1, name, cur + w, args, redirs, discard)
      case QuotedString(content, q) =>
        if q == '\'' || q == '"' then Scan(ts, i + 1, name, cur + content, args, redirs, discard)
        else Failure(Fail(UnexpectedToken))
      case Redirect(_, _) =>
        Failure(Fail(UnexpectedToken))
  }

  /** One iteration of the loop at a `>` operator. */
  lemma ScanAtOperator(ts: seq<Token>, i: nat, name: string, cur: string, args: seq<string>,
                       redirs: seq<(string, string)>, discard: bool)
    requires i < |ts| && ts[i] == Operator('>')
    ensures var k := SkipWs(ts, if discard && i + 1 < |ts| then i + 2 else i + 1);
      Scan(ts, i, name, cur, args, redirs, discard)
        == if k < |ts| && IsText(ts[k])
           then Scan(ts, SkipWs(ts, k + 1), name, "", Flush(args, cur), redirs + [("stdout", Text(ts[k]))], discard)
           else Failure(Fail(MissingFilename))
  {
  }

  /** One iteration of the loop at a `Whitespace` token. */
  lemma ScanAtWhitespace(ts: seq<Token>, i: nat, name: string, cur: string, args: seq<string>,
                         redirs: seq<(string, string)>, discard: bool)
    requires i < |ts| && ts[i].Whitespace?
    ensures Scan(ts, i, name, cur, args, redirs, discard)
         == Scan(ts, SkipWs(ts, i + 1), name, "", Flush(args, cur), redirs, discard)
  {
  }

  /** One iteration of the loop at a word or a string quoted by `'` or `"`. */
  lemma ScanAtText(ts: seq<Token>, i: nat, name: string, cur: string, args: seq<string>,
                   redirs: seq<(string, string)>, discard: bool)
    requires i < |ts| && ArgToken(ts[i]) && !ts[i].Whitespace?
    ensures Scan(ts, i, name, cur, args, redirs, discard)
         == Scan(ts, i + 1, name, cur + Text(ts[i]), args, redirs, discard)
  {
  }

  /** The command the tokens `ts` describe. */
  function ParseTokensWith(ts: seq<Token>, discard: bool): Result<ParsedCommand, Error>
  {
    var k := SkipWs(ts, 0);
    if k == |ts| then Failure(Fail(NoCommand))
    else if !IsText(ts[k]) then Failure(Fail(BadFirstToken))
    else Scan(ts, SkipWs(ts, k + 1), Text(ts[k]), "", [], [], discard)
  }

  /** The command an input line describes: lex, then parse the tokens. */
  function ParseSpec(input: string): Result<ParsedCommand, Error>
  {
    match Lexing.LexSpec(input)
    case Failure(e) => Failure(Context(TokenizeFailed, e))
    case Success(ts) => ParseTokensWith(ts, true)
  }

  method Parse(input: string) returns (r: Result<ParsedCommand, Error>)
    ensures r == ParseSpec(input)
  {
    var lexed := Lexing.Lex(input);
    if lexed.Failure? {
      return Failure(Context(TokenizeFailed, lexed.error));
    }
    r := ParseTokens(lexed.value);
  }

  /** Advances past the `Whitespace` tokens starting at `i`. */
  method SkipWhitespace(tokens: seq<Token>, i: nat) returns (j: nat)
    requires i <= |tokens|
    ensures j == SkipWs(tokens, i)
  {
    j := i;
    while j < |tokens| && tokens[j].Whitespace?
      invariant i <= j <= |tokens| && SkipWs(tokens, j) == SkipWs(tokens, i)
    {
      j := j + 1;
    }
  }

  /** What follows a `>` operator at position `i`: one token is consumed and
      dropped, whitespace is skipped, a word or quoted string is the filename,
      and whitespace after it is skipped. */
  method ReadTarget(tokens: seq<Token>, i: nat) returns (target: Option<string>, next: nat)
    requires i <= |tokens|
    ensures var k := SkipWs(tokens, if i < |tokens| then i + 1 else i);
      && (target.Some? <==> k < |tokens| && IsText(tokens[k]))
      && (target.Some? ==> target.value == Text(tokens[k]) && next == SkipWs(tokens, k + 1))
  {
    next := i;
    if next < |tokens| {
      next := next + 1;
    }
    next := SkipWhitespace(tokens, next);
    if next < |tokens| && tokens[next].Word? {
      target := Some(tokens[next].text);
    } else if next < |tokens| && tokens[next].QuotedString? {
      target := Some(tokens[next].content);
    } else {
      return None, next;
    }
    next := SkipWhitespace(tokens, next + 1);
  }

  /** The loop body at a `>` operator: the pending argument is pushed and the
      filename after the operator is recorded for `"stdout"`, or the loop stops
      because there is none. */
  method ScanRedirect(tokens: seq<Token>, i: nat, name: string, currentArg: string, args: seq<string>,
                      redirections: seq<(string, string)>)
    returns (stop: Option<Error>, i': nat, currentArg': string, args': seq<string>, redirections': seq<(string, string)>)
    requires i < |tokens| && tokens[i] == Operator('>')
    ensures stop.Some? ==> Scan(tokens, i, name, currentArg, args, redirections, true) == Failure(stop.value)
    ensures stop.None? ==> i < i' <= |tokens|
    ensures stop.None? ==>
      Scan(tokens, i', name, currentArg', args', redirections', true) == Scan(tokens, i, name, currentArg, args, redirections, true)
  {
    ScanAtOperator(tokens, i, name, currentArg, args, redirections, true);
    i', currentArg', args', redirections' := i + 1, currentArg, args, redirections;
    if currentArg != "" {
      args' := args + [currentArg];
      currentArg' := "";
    }
    var target, next := ReadTarget(tokens, i');
    if target.None? {
      return Some(Fail(MissingFilename)), i', currentArg', args', redirections';
    }
    redirections' := redirections + [("stdout", target.value)];
    i' := next;
    stop := None;
  }

  /** The loop body: handles the token at `i` and moves past it, or stops with
      the error the loop returns at that token. */
  method ScanToken(tokens: seq<Token>, i: nat, name: string, currentArg: string, args: seq<string>,
                   redirections: seq<(string, string)>)
    returns (stop: Option<Error>, i': nat, currentArg': string, args': seq<string>, redirections': seq<(string, string)>)
    requires i < |tokens|
    ensures stop.Some? ==> Scan(tokens, i, name, currentArg, args, redirections, true) == Failure(stop.value)
    ensures stop.None? ==> i < i' <= |tokens|
    ensures stop.None? ==>
      Scan(tokens, i', name, currentArg', args', redirections', true) == Scan(tokens, i, name, currentArg, args, redirections, true)
  {
    i', currentArg', args', redirections' := i + 1, currentArg, args, redirections;
    match tokens[i] {
      case Operator(op) =>
        if op != '>' {
          return Some(Fail(UnexpectedToken)), i', currentArg', args', redirections';
        }
        stop, i', currentArg', args', redirections' := ScanRedirect(tokens, i, name, currentArg, args, redirections);
        return;
      case Whitespace =>
        ScanAtWhitespace(tokens, i, name, currentArg, args, redirections, true);
        if currentArg != "" {
          args' := args + [currentArg];
          currentArg' := "";
        }
        i' := SkipWhitespace(tokens, i');
      case Word(word) =>
        ScanAtText(tokens, i, name, currentArg, args, redirections, true);
        currentArg' := currentArg + word;
      case QuotedString(content, q) =>
        if q == '\'' || q == '"' {
          ScanAtText(tokens, i, name, currentArg, args, redirections, true);
          currentArg' := currentArg + content;
        } else {
          return Some(Fail(UnexpectedToken)), i', currentArg', args', redirections';
        }
      case Redirect(_, _) =>
        return Some(Fail(UnexpectedToken)), i', currentArg', args', redirections';
    }
    stop := None;
  }

  method ParseTokens(tokens: seq<Token>) returns (r: Result<ParsedCommand, Error>)
    ensures r == ParseTokensWith(tokens, true)
  {
    var i := SkipWhitespace(tokens, 0);
    if i == |tokens| {
      return Failure(Fail(NoCommand));
    }
    var name: string;
    match tokens[i] {
      case Word(w) =>
        name := w;
      case QuotedString(content, _) =>
        name := content;
      case _ =>
        return Failure(Fail(BadFirstToken));
    }
    i := SkipWhitespace(tokens, i + 1);

    var args: seq<string> := [];
    var currentArg := "";
    var redirections: seq<(string, string)> := [];
    ghost var goal := Scan(tokens, i, name, currentArg, args, redirections, true);
    assert goal == ParseTokensWith(tokens, true);
    while i < |tokens|
      invariant i <= |tokens|
      invariant Scan(tokens, i, name, currentArg, args, redirections, true) == goal
      decreases |tokens| - i
    {
      var stop;
      stop, i, currentArg, args, redirections := ScanToken(tokens, i, name, currentArg, args, redirections);
      if stop.Some? {
        return Failure(stop.value);
      }
    }
    if currentArg != "" {
      args := args + [currentArg];
    }
    return Success(ParsedCommand(name, args, redirections));
  }

  // ---------------------------------------------------------------------------
  // Reference definitions for the argument list

  /** A token the argument loop accepts without an operator: whitespace, a
      word, or a string quoted by `'` or `"`. */
  predicate ArgToken(t: Token)
  {
    t.Whitespace? || t.Word? || (t.QuotedString? && (t.quote == '\'' || t.quote == '"'))
  }

  /** The whitespace-separated runs of tokens from position `i` on, each run's
      texts concatenated; runs between adjacent `Whitespace` tokens give "". */
  function Groups(ts: seq<Token>, i: nat): (g: seq<string>)
    requires i <= |ts|
    ensures |g| >= 1
    decreases |ts| - i
  {
    if i == |ts| then [""]
    else if ts[i].Whitespace? then [""] + Groups(ts, i + 1)
    else
      var g := Groups(ts, i + 1);
      [Text(ts[i]) + g[0]] + g[1..]
  }

  /** `g` with `cur` put in front of its first run. */
  function Join(cur: string, g: seq<string>): seq<string>
    requires |g| >= 1
  {
    [cur + g[0]] + g[1..]
  }

  /** The non-empty strings of `ss`, in order. */
  function NonEmpty(ss: seq<string>): (r: seq<string>)
    ensures forall k :: 0 <= k < |r| ==> r[k] != ""
    decreases |ss|
  {
    if ss == [] then []
    else (if ss[0] != "" then [ss[0]] else []) + NonEmpty(ss[1..])
  }

  // ---------------------------------------------------------------------------
  // Lemmas

  /** Skipping whitespace changes the runs only by empty ones. */
  lemma {:induction false} GroupsSkipWs(ts: seq<Token>, i: nat)
    requires i <= |ts|
    ensures NonEmpty(Groups(ts, i)) == NonEmpty(Groups(ts, SkipWs(ts, i)))
    decreases |ts| - i
  {
    if i < |ts| && ts[i].Whitespace? {
      var g := Groups(ts, i + 1);
      assert Groups(ts, i) == [""] + g;
      assert ([""] + g)[1..] == g;
      GroupsSkipWs(ts, i + 1);
    }
  }

  lemma JoinEmpty(g: seq<string>)
    requires |g| >= 1
    ensures Join("", g) == g
  {
    assert "" + g[0] == g[0];
  }

  /** A whitespace token: pushing the pending argument, then collecting the
      remaining runs, is the same as collecting all runs with `cur` in front. */
  lemma FlushJoin(args: seq<string>, cur: string, g: seq<string>)
    ensures Flush(args, cur) + NonEmpty(g) == args + NonEmpty(Join(cur, [""] + g))
  {
    assert cur + "" == cur;
    var runs := [cur] + g;
    assert Join(cur, [""] + g) == runs;
    assert runs[0] == cur && runs[1..] == g;
    if cur != "" {
      assert NonEmpty(runs) == [cur] + NonEmpty(g);
      assert Flush(args, cur) + NonEmpty(g) == args + ([cur] + NonEmpty(g));
    } else {
      assert NonEmpty(runs) == NonEmpty(g);
    }
  }

  /** Without operators, the loop pushes exactly the non-empty concatenations of
      the whitespace-separated runs of tokens, in token order. */
  lemma {:induction false} ScanArgTokens(ts: seq<Token>, i: nat, name: string, cur: string, args: seq<string>,
                                         redirs: seq<(string, string)>, discard: bool)
    requires i <= |ts|
    requires forall k :: i <= k < |ts| ==> ArgToken(ts[k])
    ensures Scan(ts, i, name, cur, args, redirs, discard)
         == Success(ParsedCommand(name, args + NonEmpty(Join(cur, Groups(ts, i))), redirs))
    decreases |ts| - i
  {
    if i == |ts| {
      FlushJoin(args, cur, []);
      assert [""] + [] == [""];
      assert Flush(args, cur) + NonEmpty([]) == Flush(args, cur);
    } else if ts[i].Whitespace? {
      var j := SkipWs(ts, i + 1);
      ScanArgTokens(ts, j, name, "", Flush(args, cur), redirs, discard);
      JoinEmpty(Groups(ts, j));
      GroupsSkipWs(ts, i + 1);
      FlushJoin(args, cur, Groups(ts, i + 1));
      assert Groups(ts, i) == [""] + Groups(ts, i + 1);
    } else {
      var g := Groups(ts, i + 1);
      ScanArgTokens(ts, i + 1, name, cur + Text(ts[i]), args, redirs, discard);
      assert cur + (Text(ts[i]) + g[0]) == (cur + Text(ts[i])) + g[0];
      assert Join(cur, Groups(ts, i)) == Join(cur + Text(ts[i]), g);
    }
  }

  /** `r` keeps the name, the arguments `args` and the redirections `redirs`,
      adds only non-empty arguments and `"stdout"` redirections, and fails only
      with one of the loop's two errors. */
  ghost predicate Extends(r: Result<ParsedCommand, Error>, name: string, args: seq<string>, redirs: seq<(string, string)>)
  {
    && (r.Success? ==>
          && r.value.name == name
          && args <= r.value.args
          && redirs <= r.value.redirections
          && (forall k :: |args| <= k < |r.value.args| ==> r.value.args[k] != "")
          && (forall k :: |redirs| <= k < |r.value.redirections| ==> r.value.redirections[k].0 == "stdout"))
    && (r.Failure? ==> r.error == Fail(UnexpectedToken) || r.error == Fail(MissingFilename))
  }

  /** `Extends` from a longer prefix that itself only adds non-empty arguments
      and `"stdout"` redirections. */
  lemma ExtendsPrefix(r: Result<ParsedCommand, Error>, name: string, args: seq<string>, a: seq<string>,
                      redirs: seq<(string, string)>, rs: seq<(string, string)>)
    requires Extends(r, name, a, rs)
    requires args <= a && (forall k :: |args| <= k < |a| ==> a[k] != "")
    requires redirs <= rs && (forall k :: |redirs| <= k < |rs| ==> rs[k].0 == "stdout")
    ensures Extends(r, name, args, redirs)
  {
    if r.Success? {
      assert r.value.args[..|args|] == a[..|args|];
      assert r.value.redirections[..|redirs|] == rs[..|redirs|];
      forall k | |args| <= k < |r.value.args| ensures r.value.args[k] != "" {
        if k < |a| {
          assert r.value.args[k] == a[k];
        }
      }
      forall k | |redirs| <= k < |r.value.redirections| ensures r.value.redirections[k].0 == "stdout" {
        if k < |rs| {
          assert r.value.redirections[k] == rs[k];
        }
      }
    }
  }

  lemma FlushExtends(args: seq<string>, cur: string)
    ensures args <= Flush(args, cur)
    ensures forall k :: |args| <= k < |Flush(args, cur)| ==> Flush(args, cur)[k] != ""
  {
  }

  /** What any run of the loop keeps: the name, the arguments and redirections
      already collected; every argument it adds is non-empty, every redirection
      it adds is for `"stdout"`; its only errors are the two of the loop. */
  lemma {:induction false} ScanShape(ts: seq<Token>, i: nat, name: string, cur: string, args: seq<string>,
                                     redirs: seq<(string, string)>, discard: bool)
    requires i <= |ts|
    ensures Extends(Scan(ts, i, name, cur, args, redirs, discard), name, args, redirs)
    decreases |ts| - i, 1
  {
    if i < |ts| {
      match ts[i]
      case Operator(op) =>
        if op == '>' {
          ScanShapeOperator(ts, i, name, cur, args, redirs, discard);
        }
      case Whitespace =>
        ScanShapeWhitespace(ts, i, name, cur, args, redirs, discard);
      case Word(w) =>
        ScanAtText(ts, i, name, cur, args, redirs, discard);
        ScanShape(ts, i + 1, name, cur + w, args, redirs, discard);
      case QuotedString(content, q) =>
        if q == '\'' || q == '"' {
          ScanAtText(ts, i, name, cur, args, redirs, discard);
          ScanShape(ts, i + 1, name, cur + content, args, redirs, discard);
        }
      case Redirect(_, _) =>
    }
  }

  lemma {:induction false} ScanShapeOperator(ts: seq<Token>, i: nat, name: string, cur: string, args: seq<string>,
                                             redirs: seq<(string, string)>, discard: bool)
    requires i < |ts| && ts[i] == Operator('>')
    ensures Extends(Scan(ts, i, name, cur, args, redirs, discard), name, args, redirs)
    decreases |ts| - i, 0
  {
    ScanAtOperator(ts, i, name, cur, args, redirs, discard);
    var k := SkipWs(ts, if discard && i + 1 < |ts| then i + 2 else i + 1);
    if k < |ts| && IsText(ts[k]) {
      var a := Flush(args, cur);
      var rs := redirs + [("stdout", Text(ts[k]))];
      FlushExtends(args, cur);
      ScanShape(ts, SkipWs(ts, k + 1), name, "", a, rs, discard);
      ExtendsPrefix(Scan(ts, SkipWs(ts, k + 1), name, "", a, rs, discard), name, args, a, redirs, rs);
    }
  }

  lemma {:induction false} ScanShapeWhitespace(ts: seq<Token>, i: nat, name: string, cur: string, args: seq<string>,
                                               redirs: seq<(string, string)>, discard: bool)
    requires i < |ts| && ts[i].Whitespace?
    ensures Extends(Scan(ts, i, name, cur, args, redirs, discard), name, args, redirs)
    decreases |ts| - i, 0
  {
    var a := Flush(args, cur);
    ScanAtWhitespace(ts, i, name, cur, args, redirs, discard);
    FlushExtends(args, cur);
    ScanShape(ts, SkipWs(ts, i + 1), name, "", a, redirs, discard);
    ExtendsPrefix(Scan(ts, SkipWs(ts, i + 1), name, "", a, redirs, discard), name, args, a, redirs, redirs);
  }

  /** The first token at or after `i` that is not whitespace, a word or a string
      quoted by `'` or `"` makes the loop fail with "Unexpected token" when it is
      not a `>` operator, whatever follows it. */
  lemma {:induction false} ScanUnexpected(ts: seq<Token>, i: nat, k: nat, name: string, cur: string,
                                          args: seq<string>, redirs: seq<(string, string)>, discard: bool)
    requires i <= k < |ts|
    requires forall x :: i <= x < k ==> ArgToken(ts[x])
    requires !ArgToken(ts[k]) && ts[k] != Operator('>')
    ensures Scan(ts, i, name, cur, args, redirs, discard) == Failure(Fail(UnexpectedToken))
    decreases |ts| - i
  {
    if i < k {
      if ts[i].Whitespace? {
        var j := SkipWs(ts, i + 1);
        SkipWsSkipsWhitespace(ts, i + 1);
        assert !ts[k].Whitespace?;
        assert j <= k;
        ScanUnexpected(ts, j, k, name, "", Flush(args, cur), redirs, discard);
      } else if ts[i].Word? {
        ScanUnexpected(ts, i + 1, k, name, cur + ts[i].text, args, redirs, discard);
      } else {
        ScanUnexpected(ts, i + 1, k, name, cur + ts[i].content, args, redirs, discard);
      }
    }
  }

  /** The outcomes of parsing a token sequence: "No command provided" exactly
      when every token is whitespace; otherwise the first non-whitespace token
      must carry text and becomes the name; every argument is non-empty and every
      redirection is for `"stdout"`. */
  lemma ParseTokensOutcome(ts: seq<Token>, discard: bool)
    ensures ParseTokensWith(ts, discard) == Failure(Fail(NoCommand)) <==> forall k :: 0 <= k < |ts| ==> ts[k].Whitespace?
    ensures SkipWs(ts, 0) < |ts| && !IsText(ts[SkipWs(ts, 0)]) ==> ParseTokensWith(ts, discard) == Failure(Fail(BadFirstToken))
    ensures ParseTokensWith(ts, discard).Success? ==>
      var c := ParseTokensWith(ts, discard).value;
      && SkipWs(ts, 0) < |ts| && IsText(ts[SkipWs(ts, 0)]) && c.name == Text(ts[SkipWs(ts, 0)])
      && (forall k :: 0 <= k < |c.args| ==> c.args[k] != "")
      && (forall k :: 0 <= k < |c.redirections| ==> c.redirections[k].0 == "stdout")
  {
    var k := SkipWs(ts, 0);
    SkipWsSkipsWhitespace(ts, 0);
    if k < |ts| {
      assert !ts[k].Whitespace?;
      if IsText(ts[k]) {
        ScanShape(ts, SkipWs(ts, k + 1), Text(ts[k]), "", [], [], discard);
      }
    }
  }

  /** On a line that lexes, parsing fails only for a line of whitespace;
      otherwise the first token names the command and the arguments are the
      non-empty whitespace-separated runs after it, adjacent words and quoted
      strings glued together; no redirection is ever recorded, since the lexer
      produces no operator token. */
  lemma ParseLexed(input: string)
    requires Lexing.LexSpec(input).Success?
    ensures var ts := Lexing.LexSpec(input).value;
      var k := SkipWs(ts, 0);
      ParseSpec(input) == if k == |ts| then Failure(Fail(NoCommand))
                          else Success(ParsedCommand(Text(ts[k]), NonEmpty(Groups(ts, k + 1)), []))
  {
    var ts := Lexing.LexSpec(input).value;
    Lexing.LexProducesLexerTokens(input);
    var k := SkipWs(ts, 0);
    if k < |ts| {
      assert Lexing.LexerToken(ts[k]);
      var j := SkipWs(ts, k + 1);
      ScanArgTokens(ts, j, Text(ts[k]), "", [], [], true);
      JoinEmpty(Groups(ts, j));
      GroupsSkipWs(ts, k + 1);
      assert [] + NonEmpty(Groups(ts, j)) == NonEmpty(Groups(ts, j));
    }
  }

  /** Groups depend only on the tokens from `i` on. */
  lemma {:induction false} GroupsShift(pre: seq<Token>, ts: seq<Token>, i: nat)
    requires i <= |ts|
    ensures Groups(pre + ts, |pre| + i) == Groups(ts, i)
    decreases |ts| - i
  {
    if i < |ts| {
      assert (pre + ts)[|pre| + i] == ts[i];
      GroupsShift(pre, ts, i + 1);
    }
  }

  /** The tokens of one field group to that field. */
  lemma GroupsOfField(w: string)
    ensures Groups(Lexing.Flushed([], w), 0) == [w]
  {
    if w != "" {
      WordGroup([Word(w)], 0);
    }
  }

  /** A field, one whitespace and more tokens group to the field followed by
      the groups of those tokens. */
  lemma GroupsOfFieldThen(w: string, rest: seq<Token>)
    ensures Groups(Lexing.Flushed([], w) + [Whitespace] + rest, 0) == [w] + Groups(rest, 0)
  {
    if w == "" {
      var ts := [Whitespace] + rest;
      assert Lexing.Flushed([], w) + [Whitespace] + rest == ts;
      GroupsShift([Whitespace], rest, 0);
    } else {
      var ts := [Word(w), Whitespace] + rest;
      assert Lexing.Flushed([], w) + [Whitespace] + rest == ts;
      GroupsShift([Word(w), Whitespace], rest, 0);
      WordGroup(ts, 0);
    }
  }

  /** Grouping the tokens of a line's space-separated fields gives back those
      fields, empty ones included. */
  lemma {:induction false} GroupsOfFields(f: seq<string>)
    requires |f| >= 1
    ensures Groups(Lexing.FieldTokens("", f), 0) == f
    decreases |f|
  {
    assert "" + f[0] == f[0];
    if |f| == 1 {
      GroupsOfField(f[0]);
    } else {
      GroupsOfFields(f[1..]);
      GroupsOfFieldThen(f[0], Lexing.FieldTokens("", f[1..]));
      assert f == [f[0]] + f[1..];
    }
  }

  /** When every token is whitespace or a non-empty word and no two words
      touch, the non-empty groups are the words in order: none exactly when
      only whitespace remains after skipping it, else the first word and the
      non-empty groups after it. */
  lemma SeparatedWords(ts: seq<Token>)
    requires Lexing.SpaceSeparated(ts)
    ensures SkipWs(ts, 0) == |ts| <==> NonEmpty(Groups(ts, 0)) == []
    ensures SkipWs(ts, 0) < |ts| ==>
      NonEmpty(Groups(ts, 0)) == [Text(ts[SkipWs(ts, 0)])] + NonEmpty(Groups(ts, SkipWs(ts, 0) + 1))
  {
    var k := SkipWs(ts, 0);
    GroupsSkipWs(ts, 0);
    if k < |ts| {
      assert ts[k].Word? && ts[k].text != "";
      assert k + 1 < |ts| ==> ts[k + 1].Whitespace?;
      WordGroup(ts, k);
      var g := Groups(ts, k + 1);
      assert NonEmpty(g) == NonEmpty(g[1..]);
    }
  }

  /** A token that whitespace or the end follows starts a group of its own. */
  lemma WordGroup(ts: seq<Token>, k: nat)
    requires k < |ts| && !ts[k].Whitespace?
    requires k + 1 < |ts| ==> ts[k + 1].Whitespace?
    ensures Groups(ts, k + 1)[0] == ""
    ensures Groups(ts, k) == [Text(ts[k])] + Groups(ts, k + 1)[1..]
  {
    var g := Groups(ts, k + 1);
    if k + 1 < |ts| {
      assert g == [""] + Groups(ts, k + 2);
    }
    var w := Text(ts[k]);
    assert w + g[0] == w;
  }

  /** For a line of plain characters and spaces the command name is its first
      non-empty field and the arguments are the non-empty fields after it, in
      order; with no non-empty field there is no command. */
  lemma ParseUnquoted(input: string)
    requires forall i :: 0 <= i < |input| ==> Lexing.Plain(input[i]) || input[i] == ' '
    ensures var words := NonEmpty(Lexing.Fields(input));
      ParseSpec(input) == if words == [] then Failure(Fail(NoCommand))
                          else Success(ParsedCommand(words[0], words[1..], []))
  {
    var f := Lexing.Fields(input);
    var ts := Lexing.FieldTokens("", f);
    Lexing.LexUnquoted(input);
    Lexing.FieldTokensShape("", f);
    GroupsOfFields(f);
    ParseSeparated(ts, true);
  }

  /** Tokens that are whitespace and non-empty, non-touching words parse to
      their non-empty groups: the first is the name, the rest the arguments. */
  lemma ParseSeparated(ts: seq<Token>, discard: bool)
    requires Lexing.SpaceSeparated(ts)
    ensures var words := NonEmpty(Groups(ts, 0));
      ParseTokensWith(ts, discard) == if words == [] then Failure(Fail(NoCommand))
                                      else Success(ParsedCommand(words[0], words[1..], []))
  {
    var k := SkipWs(ts, 0);
    SeparatedWords(ts);
    if k < |ts| {
      assert IsText(ts[k]);
      var j := SkipWs(ts, k + 1);
      ScanArgTokens(ts, j, Text(ts[k]), "", [], [], discard);
      JoinEmpty(Groups(ts, j));
      GroupsSkipWs(ts, k + 1);
      assert [] + NonEmpty(Groups(ts, j)) == NonEmpty(Groups(ts, j));
    }
  }

  lemma ParseRejects(input: string)
    ensures Lexing.QuoteState(input).Quoted? ==>
      ParseSpec(input) == Failure(Error(TokenizeFailed, ["Unclosed quote: " + [Lexing.QuoteState(input).quote]]))
    ensures Lexing.QuoteState(input).Default? ==>
      && Lexing.LexSpec(input).Success?
      && (ParseSpec(input).Failure? <==>
            forall k :: 0 <= k < |Lexing.LexSpec(input).value| ==> Lexing.LexSpec(input).value[k].Whitespace?)
  {
    Lexing.LexFailsOnUnclosedQuote(input);
    if Lexing.QuoteState(input).Default? {
      ParseLexed(input);
      var ts := Lexing.LexSpec(input).value;
      SkipWsSkipsWhitespace(ts, 0);
      if SkipWs(ts, 0) < |ts| {
        assert !ts[SkipWs(ts, 0)].Whitespace?;
      }
    } else {
      var e := Fail("Unclosed quote: " + [Lexing.QuoteState(input).quote]);
      assert Context(TokenizeFailed, e) == Error(TokenizeFailed, ["Unclosed quote: " + [Lexing.QuoteState(input).quote]]);
    }
  }

  /** A parsed line never holds a redirection or an empty argument. */
  lemma ParseHasNoRedirections(input: string)
    ensures ParseSpec(input).Success? ==>
      && ParseSpec(input).value.redirections == []
      && (forall k :: 0 <= k < |ParseSpec(input).value.args| ==> ParseSpec(input).value.args[k] != "")
  {
    if Lexing.LexSpec(input).Success? {
      ParseLexed(input);
    }
  }

  // ---------------------------------------------------------------------------
  // The token dropped after `>`

  function Spaces(n: nat): (ws: seq<Token>)
    ensures |ws| == n && forall k :: 0 <= k < n ==> ws[k] == Whitespace
  {
    seq(n, _ => Whitespace)
  }

  /** As written, a filename token right after `>` is the token thrown away, so
      the filename is reported missing. */
  lemma AsWrittenDropsAdjacentTarget(name: string, t: Token)
    requires IsText(t)
    ensures ParseTokensWith([Word(name), Operator('>'), t], true) == Failure(Fail(MissingFilename))
  {
    var ts := [Word(name), Operator('>'), t];
    assert SkipWs(ts, 0) == 0;
    assert SkipWs(ts, 1) == 1;
    assert SkipWs(ts, 3) == 3;
  }

  /** Without the dropped token, `>` followed by any whitespace and a filename
      token records that filename for `"stdout"`. */
  lemma FixedRecordsTarget(name: string, n: nat, t: Token)
    requires IsText(t)
    ensures ParseTokensWith([Word(name), Operator('>')] + Spaces(n) + [t], false)
         == Success(ParsedCommand(name, [], [("stdout", Text(t))]))
  {
    var ts := [Word(name), Operator('>')] + Spaces(n) + [t];
    assert ts[0] == Word(name) && ts[1] == Operator('>') && ts[n + 2] == t;
    assert SkipWs(ts, 0) == 0;
    assert SkipWs(ts, 1) == 1;
    assert forall x :: 1 < x < n + 2 ==> ts[x] == Spaces(n)[x - 2];
    FixedScanRecordsTarget(ts, 1, n + 2, name, "", [], []);
    assert SkipWs(ts, n + 3) == |ts|;
    assert [] + [("stdout", Text(t))] == [("stdout", Text(t))];
  }

  /** Skipping whitespace from `j` stops at the first token that is not. */
  lemma {:induction false} SkipWsTo(ts: seq<Token>, j: nat, k: nat)
    requires j <= k < |ts| && !ts[k].Whitespace?
    requires forall x :: j <= x < k ==> ts[x].Whitespace?
    ensures SkipWs(ts, j) == k
    decreases k - j
  {
    if j < k {
      SkipWsTo(ts, j + 1, k);
    }
  }

  /** Without the dropped token, a `>` anywhere in the line, followed by any
      whitespace and a filename token, flushes the pending argument, records that
      filename for `"stdout"` and goes on after it, whatever comes before or
      after. */
  lemma FixedScanRecordsTarget(ts: seq<Token>, i: nat, k: nat, name: string, cur: string,
                               args: seq<string>, redirs: seq<(string, string)>)
    requires i < k < |ts| && ts[i] == Operator('>') && IsText(ts[k])
    requires forall x :: i < x < k ==> ts[x].Whitespace?
    ensures Scan(ts, i, name, cur, args, redirs, false)
         == Scan(ts, SkipWs(ts, k + 1), name, "", Flush(args, cur), redirs + [("stdout", Text(ts[k]))], false)
  {
    SkipWsTo(ts, i + 1, k);
  }

  /** On everything the lexer produces, the loop as written and the loop without
      the dropped token agree. */
  lemma DropIsInvisibleAfterLexing(input: string)
    requires Lexing.LexSpec(input).Success?
    ensures ParseTokensWith(Lexing.LexSpec(input).value, true) == ParseTokensWith(Lexing.LexSpec(input).value, false)
  {
    var ts := Lexing.LexSpec(input).value;
    Lexing.LexProducesLexerTokens(input);
    assert forall k :: 0 <= k < |ts| ==> Lexing.LexerToken(ts[k]);
    DropIsInvisibleWithoutOperators(ts);
  }

  /** Without operator tokens the dropped token never comes into play. */
  lemma DropIsInvisibleWithoutOperators(ts: seq<Token>)
    requires forall k :: 0 <= k < |ts| ==> ArgToken(ts[k])
    ensures ParseTokensWith(ts, true) == ParseTokensWith(ts, false)
  {
    var k := SkipWs(ts, 0);
    if k < |ts| && IsText(ts[k]) {
      var j := SkipWs(ts, k + 1);
      ScanArgTokens(ts, j, Text(ts[k]), "", [], [], true);
      ScanArgTokens(ts, j, Text(ts[k]), "", [], [], false);
    }
  }
}
