/** The plain value types that describe what a style should look like
    before it is turned into a `Console.Style`. */
module Definitions {
  import opened Options

  /** A text transformation a definition can ask for. */
  datatype StyleTransformation = Blink | Bold | Italic | Underlined

  /** A colour a definition can ask for, as foreground or background. */
  datatype StyleColor = Black | White | Red | Green | Blue

  /** A style definition: the transformations to apply, in the order given,
      and the optional foreground (`color`) and background colours. */
  datatype StyleProperties = StyleProperties(
    transformation: seq<StyleTransformation>,
    color: Option<StyleColor>,
    background: Option<StyleColor>)

  /** The transformations a definition mentions, forgetting order and repetition. */
  function Mentioned(ts: seq<StyleTransformation>): set<StyleTransformation>
  {
    set t | t in ts
  }
}
