/** The formatter strategy of the logging pipeline: `i_formatter` and its one
    variant `endliner`, which turns a line into its output form. */
module Formatting {
  import opened Wrappers

  /** The formatter variants. The pipeline has one: `endliner`. */
  datatype Formatter = Endliner

  /** `endliner::format`: a copy of the line followed by exactly one newline.
      The argument is a value, so it is left unchanged. */
  function Format(f: Formatter, s: string): (r: string)
    ensures |r| == |s| + 1
    ensures r[..|s|] == s
    ensures r[|s|] == '\n'
  {
    match f
    case Endliner => s + "\n"
  }

  /** The partial inverse of `Format`: drop one trailing newline, if there is one. */
  function Unformat(f: Formatter, r: string): (s: Option<string>)
    ensures s.Some? ==> Format(f, s.value) == r
    ensures s.None? ==> forall t :: Format(f, t) != r
  {
    match f
    case Endliner => if |r| > 0 && r[|r| - 1] == '\n' then Some(r[..|r| - 1]) else None
  }

  /** Formatting can always be undone. */
  lemma UnformatFormat(f: Formatter, s: string)
    ensures Unformat(f, Format(f, s)) == Some(s)
  {
  }

  /** Exactly the strings that end in a newline are formatted lines, and
      `Unformat` finds the line they came from. */
  lemma FormatUnformat(f: Formatter, r: string, s: string)
    ensures Unformat(f, r) == Some(s) <==> Format(f, s) == r
  {
  }

  /** Different lines give different output. */
  lemma FormatInjective(f: Formatter, a: string, b: string)
    ensures Format(f, a) == Format(f, b) <==> a == b
  {
  }

  /** Formatting twice appends two newlines: `format` is not idempotent. */
  lemma FormatTwice(f: Formatter, s: string)
    ensures Format(f, Format(f, s)) == s + "\n\n"
    ensures Format(f, Format(f, s)) != Format(f, s)
  {
  }
}
