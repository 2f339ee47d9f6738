/** An abstract view of the terminal-styling value `console::Style`.
    Only the attributes and colours the stylesheet can reach are modelled;
    escape-code rendering is not. */
module Console {
  import opened Options

  /** Text attributes a style can carry. */
  datatype Attr = Blink | Bold | Italic | Underlined

  /** Terminal colours a style can use for its foreground or background. */
  datatype Color = Black | White | Red | Green | Blue

  /** A renderable style: the set of attributes switched on, and the
      foreground and background colour when one was chosen. */
  datatype Style = Style(attrs: set<Attr>, fg: Option<Color>, bg: Option<Color>) {

    /** The builder calls `.blink()`, `.bold()`, `.italic()`, `.underlined()`:
        switch one attribute on, leave the colours alone. */
    function WithAttr(a: Attr): Style {
      this.(attrs := attrs + {a})
    }

    /** The builder calls `.black()`, `.red()`, ...: choose the foreground. */
    function Foreground(c: Color): Style {
      this.(fg := Some(c))
    }

    /** The builder calls `.on_black()`, `.on_red()`, ...: choose the background. */
    function Background(c: Color): Style {
      this.(bg := Some(c))
    }
  }

  /** `Style::new()`: no attributes and no colours. */
  function Plain(): Style {
    Style({}, None, None)
  }
}
