# Shell front end: lexer, parser, redirections and builtin registry

This project is a Dafny model of the command-line front end of a small Unix-like
shell written in Rust (lpreaux/codecrafters-shell-rust). It covers the path from
one input line to a command name, an argument list and redirections, plus the
table of builtin commands.

- **Lexer** (`lexer.dfy`, module `Lexing`). A two-state character machine:
  outside quotes, or inside a string opened by `'` or `"`.
  - It emits `Word`, `Whitespace` and `QuotedString(content, quote)` tokens.
  - It fails with `Unclosed quote: <q>` when the line ends inside a quote.
  - `Lex` is the loop, written imperatively. It is proved equal to `LexSpec`,
    a fold of the step function `Step` over the line.
  - The properties are proved about `LexSpec` against definitions that look
    only at the input: `QuoteState`, `Kept` and `UnquotedSpaces`.
- **Parser** (`parser.dfy`, module `Parsing`).
  - `Parse` lexes the line, then calls `ParseTokens`.
  - `ParseTokens` is the token loop. It skips whitespace, takes the command
    name, glues adjacent word and quoted tokens into one argument, and pushes
    an argument on whitespace.
  - On an `Operator('>')` token it records `("stdout", filename)`.
  - The loop is proved equal to the function `Scan`. `Scan`'s outcomes are
    proved against the reference definitions `Groups`, `Join` and `NonEmpty`.
- **Tokens** (`tokens.dfy`). The token type. It has the `Redirect` variant of
  the token declaration and the `Operator(char)` variant that the parser
  matches but the token declaration lacks.
- **Redirections** (`redirection.dfy`, `parsed_command.dfy`). The descriptor
  decoder, the descriptor and mode predicates, and the lookups in which the
  first redirection for a descriptor wins. These are pure functions.
- **Builtin registry** (`commands.dfy`). `CommandRegistry` is a class whose
  `handlers` field is a map from names to handlers. `Register` updates that
  map in place. A handler is a value carrying its name and help line.
- **Errors** (`wrappers.dfy`). An error is an outermost message plus the
  messages it wraps, outermost first. `Context` adds a new outermost message,
  as the parser does when lexing fails.

The repository is mid-refactor, and the model follows each file as written:

- The lexer has no escapes, no `>` and no descriptors. The parser handles
  only an `Operator('>')` token and rejects `Redirect` tokens as "Unexpected
  token".
- Two command shapes exist, and each is modelled where the source uses it.
  - `Parsing.ParsedCommand` has redirections as pairs of strings.
  - `ParsedCommands.ParsedCommand` has `Redirection` values.
- Other files already expect a richer front end. The token declaration has a
  `Redirect { mode, fd }` variant (src/parser/token.rs:5-12), and the executor
  opens a redirection per descriptor, appending or truncating
  (src/execution/redirection.rs:21-53). The lexer and parser modelled here
  produce and accept none of that, and the model follows them.
- The name is the text of the first non-whitespace token, and the arguments
  come only from the tokens after it (src/parser/parser.rs:31-48). So a line
  `echo echo` gives the name `echo` and the argument list `["echo"]`.

## Model

| member | source | states |
|---|---|---|
| Lexing.Lex | src/parser/lexer.rs:15-69 | The loop returns exactly `LexSpec(input)`: the step machine folded over the line, then the unclosed-quote check and the flush of the last word. |
| Lexing.LexProducesLexerTokens | src/parser/lexer.rs:20-66 | Every token of a successful lex is a non-empty `Word`, a `Whitespace`, or a `QuotedString` quoted by `'` or `"`. |
| Lexing.LexKeepsText | src/parser/lexer.rs:20-66 | On success, the token texts concatenated are the input without its unquoted spaces, its opening and closing quotes and its newlines (`Kept`). |
| Lexing.LexCountsSpaces | src/parser/lexer.rs:22-31 | On success, the number of `Whitespace` tokens equals the number of spaces read outside quotes. |
| Lexing.RunSpace | src/parser/lexer.rs:22-31 | From any machine outside quotes, a space flushes the pending word if there is one, then emits one `Whitespace` after the tokens already emitted. |
| Lexing.LexSpaceSplits | src/parser/lexer.rs:22-31 | Corollary of `RunSpace` from the start of a line: an unquoted space between two plain words gives the first word (if non-empty), then one `Whitespace`, then the second word (if non-empty). |
| Lexing.RunQuotedBody | src/parser/lexer.rs:22-48 | Inside a string opened by `q`, every character but `q` and newline is kept in the pending text, spaces and the other quote included. |
| Lexing.RunQuoted | src/parser/lexer.rs:34-49 | From any machine outside quotes, and for a body holding neither the quote `q` nor a newline, opening the quote keeps the pending text and the tokens already emitted. The closing quote appends one `QuotedString` of the pending text followed by the body. A body with newlines gives the body without them (`LexDropsNewline`). |
| Lexing.LexQuotedString | src/parser/lexer.rs:34-49 | Corollary of `RunQuoted` from the start of a line: `ab"cd"` gives `QuotedString("abcd", '"')`. |
| Lexing.LexDropsNewline | src/parser/lexer.rs:51 | Removing a newline from anywhere in the line does not change the lexer's outcome, inside quotes included. |
| Lexing.RunPlain | src/parser/lexer.rs:52 | Characters other than space, newline and the two quotes (backslash and `>` among them) are appended unchanged, in either state. |
| Lexing.LexPlainWord | src/parser/lexer.rs:52-64 | A non-empty run of such characters lexes to exactly one `Word` of it: there are no escapes and no redirect tokens. |
| Lexing.FieldTokensShape | src/parser/lexer.rs:22-31 | The tokens of a line's fields are whitespace and non-empty words, and a word is never followed directly by another word. |
| Lexing.RunUnquoted | src/parser/lexer.rs:20-66 | From any machine outside quotes, a run of plain characters and spaces yields one `Word` per non-empty field between spaces and one `Whitespace` per space, in order. The pending text joins the first field. |
| Lexing.LexUnquoted | src/parser/lexer.rs:15-69 | A line with no quote and no newline lexes to the tokens of `Fields(line)`, its split on single spaces. |
| Lexing.LexFailsOnUnclosedQuote | src/parser/lexer.rs:57-66 | Lexing fails exactly when the line ends inside a quote. The error is `Unclosed quote: ` followed by that quote character, with no cause. |
| Parsing.Parse | src/parser/parser.rs:15-20 | Returns exactly `ParseSpec(input)`. A lex error becomes "Failed to tokenize input" with the lexer's message as its cause; otherwise the result is that of the token loop. |
| Parsing.ParseTokens | src/parser/parser.rs:22-115 | The loop's result equals `ParseTokensWith(tokens, true)`: the name, then the `Scan` of the remaining tokens. |
| Parsing.SkipWhitespace | src/parser/parser.rs:26-28 | Returns the first position at or after `i` that holds no `Whitespace`. |
| Parsing.ScanToken | src/parser/parser.rs:48-101 | One loop iteration. It either stops with the error `Scan` gives at this token, or moves forward to a state from which `Scan` gives the same result. |
| Parsing.ScanRedirect | src/parser/parser.rs:50-79 | The `>` branch. It flushes the pending argument, drops one more token and skips whitespace. Then it either records `("stdout", filename)` for a word or quoted token, or stops with "Expected filename after '>'". |
| Parsing.ReadTarget | src/parser/parser.rs:57-78 | Finds a filename exactly when, after one dropped token and any whitespace, a word or quoted token follows. Its text is the filename, and the loop resumes after that token and the whitespace behind it. |
| Parsing.ParseTokensOutcome | src/parser/parser.rs:26-36 | "No command provided" exactly when every token is whitespace. A first non-whitespace token without text gives the first-token error. On success the name is that token's text, every argument is non-empty and every redirection is for `"stdout"`. |
| Parsing.ScanArgTokens | src/parser/parser.rs:80-108 | Without operators, the arguments are the non-empty whitespace-separated runs of tokens, adjacent token texts concatenated, in token order. |
| Parsing.ScanShape | src/parser/parser.rs:48-108 | The loop keeps the name and the collected prefix. It adds only non-empty arguments and `"stdout"` redirections. Its only errors are "Unexpected token" and "Expected filename after '>'". |
| Parsing.ScanUnexpected | src/parser/parser.rs:80-100 | When the first token at or after the scan position that is not whitespace, a word or a `'`/`"` string is a `Redirect`, another operator, or a string with an unknown quote character, the loop fails with "Unexpected token", whatever follows that token. |
| Parsing.ParseLexed | src/parser/parser.rs:15-108 | For a line that lexes: "No command provided" if the line holds only whitespace tokens. Otherwise the first token's text is the name, the arguments are the non-empty runs that follow, and there are no redirections. |
| Parsing.GroupsOfFields | src/parser/parser.rs:80-108 | Grouping the tokens of a line's fields between whitespace gives back exactly those fields, empty ones included. |
| Parsing.SeparatedWords | src/parser/parser.rs:26-48 | On whitespace and non-touching non-empty words, there are no non-empty groups exactly when only whitespace is left after skipping it. Otherwise they are the first word followed by the non-empty groups after it. |
| Parsing.ParseSeparated | src/parser/parser.rs:22-115 | Such tokens parse to their non-empty groups: the first is the name and the others, in order, are the arguments. With no group, the result is "No command provided". |
| Parsing.ParseUnquoted | src/parser/parser.rs:15-115 | For a line with no quote and no newline, the name is its first non-empty space-separated field and the arguments are the non-empty fields after it, in order. With no such field, the result is "No command provided". |
| Parsing.ParseRejects | src/parser/parser.rs:15-36 | A line ending inside a quote fails with "Failed to tokenize input", caused by the unclosed-quote message. Any other line lexes, and then fails exactly when all its tokens are whitespace. |
| Parsing.ParseHasNoRedirections | src/parser/parser.rs:15-20 | A successfully parsed line has no redirection and no empty argument, because the lexer never produces an operator token. |
| Parsing.AsWrittenDropsAdjacentTarget | src/parser/parser.rs:57 | As written, `[Word(name), Operator('>'), t]` with a text token `t` fails with "Expected filename after '>'": `t` is the token thrown away. |
| Parsing.FixedRecordsTarget | src/parser/parser.rs:50-79 | Without the dropped token, `>` followed by any number of whitespace tokens and a filename token records that filename for `"stdout"`. |
| Parsing.FixedScanRecordsTarget | src/parser/parser.rs:50-79 | Without the dropped token, a `>` at any position, followed by any whitespace and a filename token, flushes the pending argument and records that filename for `"stdout"`. The scan then resumes after the filename, whatever precedes or follows. |
| Parsing.SkipWsTo | src/parser/parser.rs:26-28 | Skipping whitespace stops exactly at the first token that is not whitespace. |
| Parsing.DropIsInvisibleWithoutOperators | src/parser/parser.rs:48-101 | On tokens with no operator, the loop as written and the corrected loop give the same result. |
| Parsing.DropIsInvisibleAfterLexing | src/parser/parser.rs:15-20 | On every token sequence the lexer produces, the loop as written and the corrected loop agree, so `Parse` is unaffected. |
| Wrappers.Context | src/parser/parser.rs:16-17 | Wrapping keeps the inner error whole: the new message comes first, then the inner message, then the inner causes. |
| Redirections.FromStr | src/parser/redirection.rs:8-14 | `""`, `"1"` and `"stdout"` decode to `Stdout`, and `"2"` and `"stderr"` to `Stderr`, each in both directions. Every other string fails, carrying exactly that string. |
| Redirections.FromStrRoundTrip | src/parser/redirection.rs:8-14 | A descriptor's name and number both decode back to it. Only those strings, and `""` for `Stdout`, decode to a given descriptor. |
| Redirections.New | src/parser/redirection.rs:31-33 | The redirection built holds the three given fields unchanged. |
| Redirections.Redirection.IsStdout | src/parser/redirection.rs:35-37 | Holds exactly when the descriptor is `Stdout`. |
| Redirections.Redirection.IsStderr | src/parser/redirection.rs:39-41 | Holds exactly when the descriptor is `Stderr`. |
| Redirections.Redirection.IsAppend | src/parser/redirection.rs:43-45 | Holds exactly when the mode is `Append`. |
| Redirections.Redirection.IsOverwrite | src/parser/redirection.rs:47-49 | Holds exactly when the mode is `Overwrite`. |
| Redirections.DescriptorExclusive | src/parser/redirection.rs:35-41 | `IsStdout` holds exactly when `IsStderr` does not. |
| Redirections.ModeExclusive | src/parser/redirection.rs:43-49 | `IsAppend` holds exactly when `IsOverwrite` does not. |
| ParsedCommands.Find | src/parser/parsed_command.rs:11-21 | `None` exactly when no redirection is for the descriptor. Otherwise the value is at a position holding the descriptor, with none before it. |
| ParsedCommands.StdoutRedirect | src/parser/parsed_command.rs:11-15 | The first redirection with `IsStdout`, or `None` exactly when there is none. |
| ParsedCommands.StderrRedirect | src/parser/parsed_command.rs:17-21 | The first redirection with `IsStderr`, or `None` exactly when there is none. |
| ParsedCommands.FindFirstWins | src/parser/parsed_command.rs:11-21 | A redirection preceded by none for its descriptor is the one found, whatever follows it. |
| ParsedCommands.BothRedirectsDiffer | src/parser/parsed_command.rs:11-21 | When both lookups find something, they find different redirections. |
| Commands.CommandRegistry.constructor | src/commands/mod.rs:16-29 | A new registry holds exactly the six builtins, each under its own name, and satisfies `Valid`. |
| Commands.BuiltinTable | src/commands/mod.rs:16-29 | The builtin table's names are exactly `exit`, `echo`, `pwd`, `cd`, `type` and `help`, and each entry is stored under its own name. |
| Commands.CommandRegistry.Register | src/commands/mod.rs:31-33 | Stores the handler under its own name, replacing any entry of that name. Every other entry is unchanged, and `Valid` is kept. |
| Commands.CommandRegistry.Get | src/commands/mod.rs:35-37 | A handler exactly when `name` is a key (an exact match, case-sensitive), namely the one stored there. Under `Valid`, the handler's name is `name`. |
| Commands.CommandRegistry.ListCommands | src/commands/mod.rs:39-41 | Every registered name exactly once: membership matches the keys, there are no duplicates, and the length is the table's size. |
| Commands.CommandRegistry.FindCommandStartingWith | src/commands/mod.rs:43-50 | Exactly the registered names that start with `prefix`, each once. The empty prefix gives all names, so the result is a subset of what `ListCommands` returns. |

## Left out

- src/shell.rs is not part of this model. It holds the read-eval loop, prompting, spawning processes and opening redirection files. This is I/O.
- src/execution/redirection.rs is not part of this model. It opens files and creates directories. This is I/O.
- src/utils/path.rs is not part of this model. It scans `PATH` using filesystem metadata.
- The builtins' `execute` bodies are not modelled: they print, change the working directory and the environment, or exit the process. A handler is modelled only by its name and help line.
- Tab completion, line editing, `>>`, descriptor lexing and backslash escapes are not modelled: the code shown has none of them.
- Commands.CommandRegistry.ListCommands: the order of a `HashMap` is not modelled. The names come out in an unspecified order, and the contract says nothing about order.
- Commands.CommandRegistry.FindCommandStartingWith: the source filters the table's values by the handler's name. The model visits the entries by key and filters on the stored handler's name, which under `Valid` is the same set of names.
- Commands.CommandRegistry.constructor: the help builtin is registered as a plain value. The source's `HelpHandler` also carries a list of the other commands' help lines, which is only read by its `execute`.
- ParsedCommands.StdoutRedirect: returning a reference into the command, rather than a copy of the element, is not modelled. Both lookups are functions, so they cannot change the command.
- Lexing.Lex: the lexer state for an open quote is named `Quoted(q)` rather than `QuotedString(q)`, to keep it apart from the token of that name.
- Wrappers.Context: the textual rendering of an error chain is not modelled, only its messages in order.

## Findings

| source | as written | input that shows it | evidently intended | confidence | as-written member | corrected member |
|---|---|---|---|---|---|---|
| src/parser/parser.rs:57 | The loop has already taken the `>` operator token off the iterator. The operator branch then consumes and discards one more token (commented "consume '>'") before it skips whitespace and reads the filename. | The tokens `[Word("echo"), Operator('>'), Word("f")]` fail with "Expected filename after '>'" instead of recording `("stdout", "f")`. | `>` followed by optional whitespace and a filename records that filename. | not executed | Parsing.AsWrittenDropsAdjacentTarget | Parsing.FixedScanRecordsTarget |

`Scan` takes a flag saying whether the extra token is dropped. `ParseTokens` models the loop as written, with the flag set. `FixedScanRecordsTarget` proves the intended behaviour with the flag cleared, at any position in the line. `FixedRecordsTarget` is its instance for a `>` right after the name.

The lexer never produces an operator token, so the two variants agree on every line `Parse` sees (`DropIsInvisibleAfterLexing`). What `Parse` is proved to do therefore holds for both.
