/** The tokens the lexer hands to the parser. */
module Tokens {

  /** The mode a `Redirect` token carries (`>` or `>>`). */
  datatype RedirectMode = Overwrite | Append

  /** `Word`, `Whitespace`, `QuotedString` and `Redirect` are the variants of the
      token type; `Operator` is the variant the parser matches on, which the token
      type itself does not declare. */
  datatype Token =
    | Word(text: string)
    | Whitespace
    | QuotedString(content: string, quote: char)
    | Redirect(mode: RedirectMode, fd: string)
    | Operator(op: char)

  /** A token that carries text: a command name, an argument part or a filename. */
  predicate IsText(t: Token)
  {
    t.Word? || t.QuotedString?
  }

  /** The text a token carries; tokens that carry none give the empty string. */
  function Text(t: Token): string
  {
    match t
    case Word(text) => text
    case QuotedString(content, _) => content
    case _ => ""
  }
}
