/** The lexer: a two-state machine over the characters of one input line. */
module Lexing {
  import opened Wrappers
  import opened Tokens

  /** Outside quotes, or inside a string opened by `quote`. */
  datatype LexerState = Default | Quoted(quote: char)

  /** Everything the lexer's loop updates: the state, the pending text and the
      tokens emitted so far. */
  datatype Machine = Machine(state: LexerState, curr: string, tokens: seq<Token>)

  const Start := Machine(Default, "", [])

  predicate IsQuoteChar(c: char)
  {
    c == '"' || c == '\''
  }

  /** `tokens` followed by a `Word` of the pending text, if there is any. */
  function Flushed(tokens: seq<Token>, curr: string): seq<Token>
  {
    if curr != "" then tokens + [Word(curr)] else tokens
  }

  /** One iteration of the lexer's loop. */
  function Step(m: Machine, ch: char): Machine
  {
    if ch == ' ' then
      if m.state.Quoted? then m.(curr := m.curr + [ch])
      else Machine(Default, "", Flushed(m.tokens, m.curr) + [Whitespace])
    else if IsQuoteChar(ch) then
      if m.state.Default? then m.(state := Quoted(ch))
      else if m.state.quote == ch then Machine(Default, "", m.tokens + [QuotedString(m.curr, ch)])
      else m.(curr := m.curr + [ch])
    else if ch == '\n' then m
    else m.(curr := m.curr + [ch])
  }

  /** The machine after reading all of `input`, starting from `m`. */
  function Run(m: Machine, input: string): Machine
    decreases |input|
  {
    if input == [] then m
    else Step(Run(m, input[..|input| - 1]), input[|input| - 1])
  }

  /** What the lexer does once the input is exhausted. */
  function Finish(m: Machine): Result<seq<Token>, Error>
  {
    match m.state
    case Quoted(q) => Failure(Fail("Unclosed quote: " + [q]))
    case Default => Success(Flushed(m.tokens, m.curr))
  }

  /** The tokens of `input`, or the error for an unclosed quote. */
  function LexSpec(input: string): Result<seq<Token>, Error>
  {
    Finish(Run(Start, input))
  }

  method Lex(input: string) returns (r: Result<seq<Token>, Error>)
    ensures r == LexSpec(input)
  {
    var tokens: seq<Token> := [];
    var state := Default;
    var curr := "";
    for i := 0 to |input|
      invariant Run(Start, input[..i]) == Machine(state, curr, tokens)
    {
      var ch := input[i];
      assert input[..i + 1][..i] == input[..i];
      if ch == ' ' {
        match state {
          case Quoted(_) =>
            curr := curr + [ch];
          case Default =>
            if curr != "" && state == Default {
              tokens := tokens + [Word(curr)];
              curr := "";
            }
            tokens := tokens + [Whitespace];
        }
      } else if ch == '"' || ch == '\'' {
        match state {
          case Default =>
            state := Quoted(ch);
          case Quoted(quoteChar) =>
            if quoteChar == ch {
              tokens := tokens + [QuotedString(curr, quoteChar)];
              curr := "";
              state := Default;
            } else {
              curr := curr + [ch];
            }
        }
      } else if ch == '\n' {
        continue;
      } else {
        curr := curr + [ch];
      }
    }
    assert input[..|input|] == input;
    match state {
      case Quoted(quoteChar) =>
        return Failure(Fail("Unclosed quote: " + [quoteChar]));
      case Default =>
        if curr != "" {
          tokens := tokens + [Word(curr)];
        }
    }
    return Success(tokens);
  }

  // ---------------------------------------------------------------------------
  // Reference definitions, stated on the input alone

  /** The quoting state after reading `input`: only quote characters move it. */
  function QuoteState(input: string): LexerState
    decreases |input|
  {
    if input == [] then Default
    else
      NextQuote(QuoteState(input[..|input| - 1]), input[|input| - 1])
  }

  /** The quoting state after reading `c` in state `st`. */
  function NextQuote(st: LexerState, c: char): LexerState
  {
    if !IsQuoteChar(c) then st
    else if st.Default? then Quoted(c)
    else if st.quote == c then Default
    else st
  }

  /** Whether `c`, read in state `st`, is consumed without becoming token text:
      newlines always, unquoted spaces and quotes, and the closing quote. */
  predicate Consumed(st: LexerState, c: char)
  {
    c == '\n' || (st.Default? && (c == ' ' || IsQuoteChar(c))) || (st.Quoted? && c == st.quote)
  }

  /** The characters of `input` that end up as token text. */
  function Kept(input: string): string
    decreases |input|
  {
    if input == [] then ""
    else
      var prefix := input[..|input| - 1];
      var c := input[|input| - 1];
      Kept(prefix) + (if Consumed(QuoteState(prefix), c) then "" else [c])
  }

  /** The number of spaces of `input` read outside quotes. */
  function UnquotedSpaces(input: string): nat
    decreases |input|
  {
    if input == [] then 0
    else
      var prefix := input[..|input| - 1];
      UnquotedSpaces(prefix) + (if input[|input| - 1] == ' ' && QuoteState(prefix).Default? then 1 else 0)
  }

  /** The concatenated texts of the `Word` and `QuotedString` tokens of `ts`. */
  function Texts(ts: seq<Token>): string
    decreases |ts|
  {
    if ts == [] then ""
    else
      var t := ts[|ts| - 1];
      Texts(ts[..|ts| - 1]) + Text(t)
  }

  function CountWhitespace(ts: seq<Token>): nat
    decreases |ts|
  {
    if ts == [] then 0
    else CountWhitespace(ts[..|ts| - 1]) + (if ts[|ts| - 1].Whitespace? then 1 else 0)
  }

  /** The tokens the lexer can produce: non-empty words, whitespace, and
      strings quoted by `'` or `"`. */
  predicate LexerToken(t: Token)
  {
    || (t.Word? && t.text != "")
    || t.Whitespace?
    || (t.QuotedString? && IsQuoteChar(t.quote))
  }

  /** A character that is appended to the pending text in either state. */
  predicate Plain(c: char)
  {
    c != ' ' && c != '\n' && !IsQuoteChar(c)
  }

  // ---------------------------------------------------------------------------
  // Lemmas

  lemma TextsSnoc(ts: seq<Token>, t: Token)
    ensures Texts(ts + [t]) == Texts(ts) + Text(t)
    ensures CountWhitespace(ts + [t]) == CountWhitespace(ts) + (if t.Whitespace? then 1 else 0)
  {
    assert (ts + [t])[..|ts|] == ts;
  }

  predicate AllLexerTokens(ts: seq<Token>)
  {
    forall i :: 0 <= i < |ts| ==> LexerToken(ts[i])
  }

  lemma AllLexerTokensAppend(a: seq<Token>, b: seq<Token>)
    requires AllLexerTokens(a) && AllLexerTokens(b)
    ensures AllLexerTokens(a + b)
  {
    forall i | 0 <= i < |a + b| ensures LexerToken((a + b)[i]) {
      if i >= |a| {
        assert (a + b)[i] == b[i - |a|];
      }
    }
  }

  /** The machine `m` is in state `q`, its token texts and pending text make up
      `kept`, and it has emitted `spaces` whitespace tokens, all of them lexer tokens. */
  ghost predicate Holds(m: Machine, q: LexerState, kept: string, spaces: nat)
  {
    && m.state == q
    && Texts(m.tokens) + m.curr == kept
    && CountWhitespace(m.tokens) == spaces
    && AllLexerTokens(m.tokens)
    && (q.Quoted? ==> IsQuoteChar(q.quote))
  }

  /** What the machine holds after reading `input`, in terms of the reference definitions. */
  ghost predicate Inv(m: Machine, input: string)
  {
    Holds(m, QuoteState(input), Kept(input), UnquotedSpaces(input))
  }

  /** The text `c` adds in state `st`. */
  function Added(st: LexerState, c: char): string
  {
    if Consumed(st, c) then "" else [c]
  }

  /** The whitespace tokens `c` adds in state `st`. */
  function Spaced(st: LexerState, c: char): nat
  {
    if c == ' ' && st.Default? then 1 else 0
  }

  /** The reference definitions on `input + [c]`, one character further. */
  lemma Unfold(input: string, c: char)
    ensures QuoteState(input + [c]) == NextQuote(QuoteState(input), c)
    ensures Kept(input + [c]) == Kept(input) + Added(QuoteState(input), c)
    ensures UnquotedSpaces(input + [c]) == UnquotedSpaces(input) + Spaced(QuoteState(input), c)
  {
    var s := input + [c];
    assert s[..|s| - 1] == input;
  }

  /** A step that emits `emitted` and clears the pending text. */
  lemma EmitHolds(m: Machine, emitted: seq<Token>, q: LexerState, kept: string, spaces: nat, c: char)
    requires Holds(m, q, kept, spaces)
    requires Texts(m.tokens + emitted) == Texts(m.tokens) + m.curr
    requires CountWhitespace(m.tokens + emitted) == spaces + Spaced(q, c)
    requires AllLexerTokens(emitted)
    requires Consumed(q, c)
    ensures Holds(Machine(Default, "", m.tokens + emitted), Default, kept + Added(q, c), spaces + Spaced(q, c))
  {
    AllLexerTokensAppend(m.tokens, emitted);
    assert kept + Added(q, c) == kept;
    assert Texts(m.tokens + emitted) + "" == kept;
  }

  /** A space outside quotes with no pending text emits only `Whitespace`. */
  lemma SpaceHolds(m: Machine, kept: string, spaces: nat)
    requires Holds(m, Default, kept, spaces) && m.curr == ""
    ensures Holds(Step(m, ' '), Default, kept + Added(Default, ' '), spaces + Spaced(Default, ' '))
  {
    assert Step(m, ' ') == Machine(Default, "", m.tokens + [Whitespace]);
    TextsSnoc(m.tokens, Whitespace);
    assert Texts(m.tokens) + m.curr == Texts(m.tokens);
    EmitHolds(m, [Whitespace], Default, kept, spaces, ' ');
  }

  /** A space outside quotes after pending text emits the word, then `Whitespace`. */
  lemma SpaceFlushHolds(m: Machine, kept: string, spaces: nat)
    requires Holds(m, Default, kept, spaces) && m.curr != ""
    ensures Holds(Step(m, ' '), Default, kept + Added(Default, ' '), spaces + Spaced(Default, ' '))
  {
    var emitted := [Word(m.curr), Whitespace];
    assert m.tokens + [Word(m.curr)] + [Whitespace] == m.tokens + emitted;
    assert Step(m, ' ') == Machine(Default, "", m.tokens + emitted);
    TextsSnoc(m.tokens, Word(m.curr));
    TextsSnoc(m.tokens + [Word(m.curr)], Whitespace);
    assert LexerToken(emitted[0]) && LexerToken(emitted[1]);
    EmitHolds(m, emitted, Default, kept, spaces, ' ');
  }

  /** The closing quote emits the quoted string. */
  lemma CloseHolds(m: Machine, c: char, kept: string, spaces: nat)
    requires Holds(m, Quoted(c), kept, spaces)
    ensures Holds(Step(m, c), NextQuote(Quoted(c), c), kept + Added(Quoted(c), c), spaces + Spaced(Quoted(c), c))
  {
    TextsSnoc(m.tokens, QuotedString(m.curr, c));
    assert Step(m, c) == Machine(Default, "", m.tokens + [QuotedString(m.curr, c)]);
    assert LexerToken(QuotedString(m.curr, c));
    EmitHolds(m, [QuotedString(m.curr, c)], Quoted(c), kept, spaces, c);
  }

  /** Every other character only moves the state or extends the pending text. */
  lemma KeepHolds(m: Machine, c: char, q: LexerState, kept: string, spaces: nat)
    requires Holds(m, q, kept, spaces)
    requires !(c == ' ' && q.Default?) && !(q.Quoted? && c == q.quote)
    ensures Holds(Step(m, c), NextQuote(q, c), kept + Added(q, c), spaces + Spaced(q, c))
  {
    var m' := Step(m, c);
    assert m'.tokens == m.tokens;
    assert m'.curr == m.curr + Added(q, c);
    assert Texts(m'.tokens) + m'.curr == (Texts(m.tokens) + m.curr) + Added(q, c);
  }

  lemma StepHolds(m: Machine, c: char, q: LexerState, kept: string, spaces: nat)
    requires Holds(m, q, kept, spaces)
    ensures Holds(Step(m, c), NextQuote(q, c), kept + Added(q, c), spaces + Spaced(q, c))
  {
    if c == ' ' && q.Default? && m.curr == "" {
      SpaceHolds(m, kept, spaces);
    } else if c == ' ' && q.Default? {
      SpaceFlushHolds(m, kept, spaces);
    } else if q.Quoted? && c == q.quote {
      CloseHolds(m, c, kept, spaces);
    } else {
      KeepHolds(m, c, q, kept, spaces);
    }
  }

  lemma StepInv(m: Machine, input: string, c: char)
    requires Inv(m, input)
    ensures Inv(Step(m, c), input + [c])
  {
    Unfold(input, c);
    StepHolds(m, c, QuoteState(input), Kept(input), UnquotedSpaces(input));
  }

  lemma {:induction false} RunFacts(input: string)
    ensures Inv(Run(Start, input), input)
    decreases |input|
  {
    if input != [] {
      var prefix := input[..|input| - 1];
      RunFacts(prefix);
      StepInv(Run(Start, prefix), prefix, input[|input| - 1]);
      assert prefix + [input[|input| - 1]] == input;
    }
  }

  /** Only `Word`, `Whitespace` and `QuotedString` are produced; no `Word` is
      empty, and every quoted string was quoted by `'` or `"`. */
  lemma LexProducesLexerTokens(input: string)
    ensures LexSpec(input).Success? ==>
      forall i :: 0 <= i < |LexSpec(input).value| ==> LexerToken(LexSpec(input).value[i])
  {
    RunFacts(input);
  }

  /** On success the token texts, concatenated, are the input without its
      unquoted spaces, its quote delimiters and its newlines. */
  lemma LexKeepsText(input: string)
    ensures LexSpec(input).Success? ==> Texts(LexSpec(input).value) == Kept(input)
  {
    RunFacts(input);
    var m := Run(Start, input);
    if m.state.Default? && m.curr != "" {
      TextsSnoc(m.tokens, Word(m.curr));
    }
  }

  /** Every space read outside quotes gives exactly one `Whitespace` token. */
  lemma LexCountsSpaces(input: string)
    ensures LexSpec(input).Success? ==> CountWhitespace(LexSpec(input).value) == UnquotedSpaces(input)
  {
    RunFacts(input);
    var m := Run(Start, input);
    if m.state.Default? && m.curr != "" {
      TextsSnoc(m.tokens, Word(m.curr));
    }
  }

  /** Lexing fails exactly when the input ends inside a quote, and the error
      names the quote character. */
  lemma LexFailsOnUnclosedQuote(input: string)
    ensures LexSpec(input).Failure? <==> QuoteState(input).Quoted?
    ensures QuoteState(input).Quoted? ==>
      LexSpec(input) == Failure(Error("Unclosed quote: " + [QuoteState(input).quote], []))
  {
    RunFacts(input);
  }

  lemma RunOne(m: Machine, c: char)
    ensures Run(m, [c]) == Step(m, c)
  {
    assert [c][..0] == [];
  }

  lemma {:induction false} RunAppend(m: Machine, a: string, b: string)
    ensures Run(m, a + b) == Run(Run(m, a), b)
    decreases |b|
  {
    if b == [] {
      assert a + b == a;
    } else {
      var b' := b[..|b| - 1];
      assert (a + b)[..|a + b| - 1] == a + b';
      assert (a + b)[|a + b| - 1] == b[|b| - 1];
      RunAppend(m, a, b');
    }
  }

  /** Newlines are dropped in every state: removing one changes nothing. */
  lemma LexDropsNewline(a: string, b: string)
    ensures LexSpec(a + ['\n'] + b) == LexSpec(a + b)
  {
    RunAppend(Start, a + ['\n'], b);
    RunAppend(Start, a, ['\n']);
    RunAppend(Start, a, b);
    assert ['\n'][..0] == [];
  }

  /** Characters other than space, newline and quotes (backslash and `>` among
      them) are appended to the pending text unchanged, in either state. */
  lemma {:induction false} RunPlain(m: Machine, w: string)
    requires forall i :: 0 <= i < |w| ==> Plain(w[i])
    ensures Run(m, w) == m.(curr := m.curr + w)
    decreases |w|
  {
    if w == [] {
      assert m.curr + w == m.curr;
    } else {
      var w' := w[..|w| - 1];
      RunPlain(m, w');
      assert w' + [w[|w| - 1]] == w;
    }
  }

  /** Inside a string opened by `q`, every character but `q` and newline,
      including spaces and the other quote, is kept as content. */
  lemma {:induction false} RunQuotedBody(m: Machine, body: string)
    requires m.state.Quoted?
    requires forall i :: 0 <= i < |body| ==> body[i] != m.state.quote && body[i] != '\n'
    ensures Run(m, body) == m.(curr := m.curr + body)
    decreases |body|
  {
    if body == [] {
      assert m.curr + body == m.curr;
    } else {
      var b' := body[..|body| - 1];
      RunQuotedBody(m, b');
      assert b' + [body[|body| - 1]] == body;
    }
  }

  /** A run of plain characters is one `Word`; no escape or redirect is recognised. */
  lemma LexPlainWord(w: string)
    requires w != []
    requires forall i :: 0 <= i < |w| ==> Plain(w[i])
    ensures LexSpec(w) == Success([Word(w)])
  {
    RunPlain(Start, w);
    assert "" + w == w;
    assert Run(Start, w) == Machine(Default, w, []);
    assert [] + [Word(w)] == [Word(w)];
  }

  /** From any machine outside quotes: opening a quote does not flush the
      pending text, and the closing quote emits one `QuotedString` of the pending
      text and the quoted body after the tokens already emitted. */
  lemma RunQuoted(m: Machine, q: char, body: string)
    requires m.state.Default? && IsQuoteChar(q)
    requires forall i :: 0 <= i < |body| ==> body[i] != q && body[i] != '\n'
    ensures Run(m, [q] + body + [q]) == Machine(Default, "", m.tokens + [QuotedString(m.curr + body, q)])
  {
    RunOne(m, q);
    var entered := m.(state := Quoted(q));
    RunAppend(m, [q], body);
    RunQuotedBody(entered, body);
    var full := entered.(curr := m.curr + body);
    RunAppend(m, [q] + body, [q]);
    RunOne(full, q);
  }

  /** The same from the start of a line, after a plain word: `ab"cd"` gives
      `QuotedString("abcd", '"')`. */
  lemma LexQuotedString(w: string, q: char, body: string)
    requires IsQuoteChar(q)
    requires forall i :: 0 <= i < |w| ==> Plain(w[i])
    requires forall i :: 0 <= i < |body| ==> body[i] != q && body[i] != '\n'
    ensures LexSpec(w + [q] + body + [q]) == Success([QuotedString(w + body, q)])
  {
    RunPlain(Start, w);
    assert "" + w == w;
    assert w + [q] + body + [q] == w + ([q] + body + [q]);
    RunAppend(Start, w, [q] + body + [q]);
    RunQuoted(Run(Start, w), q, body);
    assert [] + [QuotedString(w + body, q)] == [QuotedString(w + body, q)];
  }

  /** From any machine outside quotes, a space flushes the pending word (if
      any) and then emits one `Whitespace`, after the tokens already emitted. */
  lemma RunSpace(m: Machine)
    requires m.state.Default?
    ensures Run(m, [' ']) == Machine(Default, "", Flushed(m.tokens, m.curr) + [Whitespace])
  {
    RunOne(m, ' ');
  }

  /** The machine after a plain word and one space. */
  lemma RunWordSpace(w1: string)
    requires forall i :: 0 <= i < |w1| ==> Plain(w1[i])
    ensures Run(Start, w1 + [' ']) == Machine(Default, "", Flushed([], w1) + [Whitespace])
  {
    RunPlain(Start, w1);
    assert "" + w1 == w1;
    RunAppend(Start, w1, [' ']);
    RunSpace(Run(Start, w1));
  }

  /** Plain characters after any prefix only extend the pending text. */
  lemma RunAppendPlain(a: string, w: string)
    requires forall i :: 0 <= i < |w| ==> Plain(w[i])
    ensures Run(Start, a + w) == Run(Start, a).(curr := Run(Start, a).curr + w)
  {
    RunAppend(Start, a, w);
    RunPlain(Run(Start, a), w);
  }

  /** A space outside quotes flushes the pending word (if any) and then gives
      one `Whitespace` token. */
  lemma LexSpaceSplits(w1: string, w2: string)
    requires forall i :: 0 <= i < |w1| ==> Plain(w1[i])
    requires forall i :: 0 <= i < |w2| ==> Plain(w2[i])
    ensures LexSpec(w1 + [' '] + w2) == Success(Flushed([], w1) + [Whitespace] + Flushed([], w2))
  {
    var ts := Flushed([], w1) + [Whitespace];
    RunWordSpace(w1);
    RunAppendPlain(w1 + [' '], w2);
    assert "" + w2 == w2;
    assert Run(Start, w1 + [' '] + w2) == Machine(Default, w2, ts);
    assert Flushed(ts, w2) == ts + Flushed([], w2);
  }

  // ---------------------------------------------------------------------------
  // Lines without quotes: the lexer splits on spaces

  /** The position of the first space of `s`. */
  function FirstSpace(s: string): (i: nat)
    requires ' ' in s
    ensures i < |s| && s[i] == ' '
    ensures forall j :: 0 <= j < i ==> s[j] != ' '
    decreases |s|
  {
    if s[0] == ' ' then 0 else FirstSpace(s[1..]) + 1
  }

  /** The fields of `s` between its spaces, empty ones included: `"a  b"` has
      the fields `"a"`, `""` and `"b"`. */
  function Fields(s: string): (f: seq<string>)
    ensures |f| >= 1
    ensures forall k, j :: 0 <= k < |f| && 0 <= j < |f[k]| ==> f[k][j] != ' '
    decreases |s|
  {
    if ' ' !in s then [s]
    else
      var i := FirstSpace(s);
      [s[..i]] + Fields(s[i + 1..])
  }

  /** The tokens for the fields `f`, with `pending` text before the first
      one: each non-empty field a `Word`, one `Whitespace` between neighbouring
      fields. */
  function FieldTokens(pending: string, f: seq<string>): seq<Token>
    requires |f| >= 1
    decreases |f|
  {
    if |f| == 1 then Flushed([], pending + f[0])
    else Flushed([], pending + f[0]) + [Whitespace] + FieldTokens("", f[1..])
  }

  /** Every token is whitespace or a non-empty word, and a word is followed
      by whitespace or ends the sequence. */
  predicate SpaceSeparated(ts: seq<Token>)
  {
    && (forall i :: 0 <= i < |ts| ==> ts[i].Whitespace? || (ts[i].Word? && ts[i].text != ""))
    && (forall i :: 0 <= i < |ts| - 1 && !ts[i].Whitespace? ==> ts[i + 1].Whitespace?)
  }

  /** The tokens of fields are non-empty words and whitespace, and no two
      words are adjacent. */
  lemma {:induction false} FieldTokensShape(pending: string, f: seq<string>)
    requires |f| >= 1
    ensures SpaceSeparated(FieldTokens(pending, f))
    decreases |f|
  {
    var word := Flushed([], pending + f[0]);
    assert SpaceSeparated(word);
    if |f| > 1 {
      var rest := FieldTokens("", f[1..]);
      FieldTokensShape("", f[1..]);
      var ts := word + [Whitespace] + rest;
      assert FieldTokens(pending, f) == ts;
      forall i | 0 <= i < |ts|
        ensures ts[i].Whitespace? || (ts[i].Word? && ts[i].text != "")
      {
        if i < |word| {
          assert ts[i] == word[i];
        } else if i > |word| {
          assert ts[i] == rest[i - |word| - 1];
        }
      }
      forall i | 0 <= i < |ts| - 1 && !ts[i].Whitespace?
        ensures ts[i + 1].Whitespace?
      {
        if i < |word| {
          assert ts[i + 1] == Whitespace;
        } else if i > |word| {
          assert ts[i] == rest[i - |word| - 1];
          assert ts[i + 1] == rest[i - |word|];
        }
      }
    }
  }

  /** A plain word and a space, from a machine outside quotes, leave the
      machine outside quotes with the word flushed and one `Whitespace`. */
  lemma RunWordThenSpace(m: Machine, w: string, rest: string)
    requires m.state.Default?
    requires forall i :: 0 <= i < |w| ==> Plain(w[i])
    ensures Run(m, w + [' '] + rest)
         == Run(Machine(Default, "", Flushed(m.tokens, m.curr + w) + [Whitespace]), rest)
  {
    RunAppend(m, w + [' '], rest);
    RunAppend(m, w, [' ']);
    RunPlain(m, w);
    RunSpace(m.(curr := m.curr + w));
  }

  /** The tokens of a field followed by more fields, after `tokens`. */
  lemma FieldTokensCons(tokens: seq<Token>, pending: string, w: string, g: seq<string>)
    requires |g| >= 1
    ensures Flushed(tokens, pending + w) + [Whitespace] + FieldTokens("", g)
         == tokens + FieldTokens(pending, [w] + g)
  {
    var f := [w] + g;
    assert f[0] == w && f[1..] == g;
  }

  /** From any machine outside quotes, a line of plain characters and spaces
      yields one `Word` per non-empty field and one `Whitespace` per space, in
      order; the pending text joins the first field. */
  lemma {:induction false} RunUnquoted(m: Machine, s: string)
    requires m.state.Default?
    requires forall i :: 0 <= i < |s| ==> Plain(s[i]) || s[i] == ' '
    ensures Finish(Run(m, s)) == Success(m.tokens + FieldTokens(m.curr, Fields(s)))
    decreases |s|
  {
    if ' ' !in s {
      RunPlain(m, s);
      assert Flushed(m.tokens, m.curr + s) == m.tokens + Flushed([], m.curr + s);
    } else {
      var i := FirstSpace(s);
      var w, rest := s[..i], s[i + 1..];
      assert s == w + [' '] + rest;
      forall j | 0 <= j < |w| ensures Plain(w[j]) {
        assert w[j] == s[j];
      }
      forall j | 0 <= j < |rest| ensures Plain(rest[j]) || rest[j] == ' ' {
        assert rest[j] == s[i + 1 + j];
      }
      var m' := Machine(Default, "", Flushed(m.tokens, m.curr + w) + [Whitespace]);
      RunWordThenSpace(m, w, rest);
      RunUnquoted(m', rest);
      assert Fields(s) == [w] + Fields(rest);
      FieldTokensCons(m.tokens, m.curr, w, Fields(rest));
    }
  }

  /** A line of plain characters and spaces lexes to the tokens of its fields. */
  lemma LexUnquoted(s: string)
    requires forall i :: 0 <= i < |s| ==> Plain(s[i]) || s[i] == ' '
    ensures LexSpec(s) == Success(FieldTokens("", Fields(s)))
  {
    RunUnquoted(Start, s);
    assert Start.tokens + FieldTokens("", Fields(s)) == FieldTokens("", Fields(s));
  }
}
