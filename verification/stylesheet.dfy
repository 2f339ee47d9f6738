/** The named style registry: a map from style names to resolved styles,
    with registration that inserts or overwrites and a lookup that falls
    back to the entry named "default". */
module Stylesheet {
  import opened Options
  import opened Definitions
  import Console

  /** A stylesheet maps style names to resolved styles. */
  type Sheet = map<string, Console.Style>

  /** The entry a lookup falls back to when the requested name is absent. */
  const DefaultName: string := "default"

  /** The builder attribute each transformation switches on. */
  function AttrOf(t: StyleTransformation): Console.Attr {
    match t
    case Blink => Console.Blink
    case Bold => Console.Bold
    case Italic => Console.Italic
    case Underlined => Console.Underlined
  }

  /** The terminal colour each definition colour selects. */
  function ConsoleColor(c: StyleColor): Console.Color {
    match c
    case Black => Console.Black
    case White => Console.White
    case Red => Console.Red
    case Green => Console.Green
    case Blue => Console.Blue
  }

  /** The attributes a list of transformations asks for, as a set. */
  function AttrsOf(ts: seq<StyleTransformation>): set<Console.Attr> {
    set t | t in ts :: AttrOf(t)
  }

  /** Splitting off the head of a list splits off its attribute. */
  lemma AttrsOfCons(ts: seq<StyleTransformation>)
    requires |ts| > 0
    ensures AttrsOf(ts) == {AttrOf(ts[0])} + AttrsOf(ts[1..])
  {
  }

  /** The loop over the transformation list: each element, in order,
      switches on its attribute; the colours are left as they were. */
  function ApplyTransformations(s: Console.Style, ts: seq<StyleTransformation>): (r: Console.Style)
    ensures r.attrs == s.attrs + AttrsOf(ts)
    ensures r.fg == s.fg && r.bg == s.bg
    decreases |ts|
  {
    if ts == [] then s
    else
      AttrsOfCons(ts);
      ApplyTransformations(s.WithAttr(AttrOf(ts[0])), ts[1..])
  }

  /** The style `add_style` builds from a definition: start from the plain
      style, apply every transformation, then the foreground colour if one is
      given, then the background colour if one is given. */
  function Compose(d: StyleProperties): (r: Console.Style)
    ensures r.attrs == AttrsOf(d.transformation)
    ensures forall a :: a in r.attrs <==> exists t :: t in d.transformation && AttrOf(t) == a
    ensures d.color.None? ==> r.fg.None?
    ensures d.color.Some? ==> r.fg == Some(ConsoleColor(d.color.value))
    ensures d.background.None? ==> r.bg.None?
    ensures d.background.Some? ==> r.bg == Some(ConsoleColor(d.background.value))
  {
    var s := ApplyTransformations(Console.Plain(), d.transformation);
    var s := if d.color.Some? then s.Foreground(ConsoleColor(d.color.value)) else s;
    if d.background.Some? then s.Background(ConsoleColor(d.background.value)) else s
  }

  /** `new`: a sheet with no entries at all (not even "default"). */
  function New(): (r: Sheet)
    ensures |r| == 0
    ensures forall name :: name !in r
  {
    map[]
  }

  /** `add_style`: compose the definition and insert it under `name`,
      replacing any earlier entry of that name. */
  function AddStyle(sheet: Sheet, name: string, d: StyleProperties): (r: Sheet)
    ensures r.Keys == sheet.Keys + {name}
    ensures r[name] == Compose(d)
    ensures forall k :: k in sheet && k != name ==> r[k] == sheet[k]
    ensures |r| == if name in sheet then |sheet| else |sheet| + 1
  {
    sheet[name := Compose(d)]
  }

  /** `get_style`: the entry for `name`, or else the "default" entry;
      the call panics when neither is present. */
  function GetStyle(sheet: Sheet, name: string): (r: Outcome<Console.Style>)
    ensures r.Returned? <==> name in sheet || DefaultName in sheet
    ensures r.Returned? ==> r.value in sheet.Values
    ensures name in sheet ==> r.value == sheet[name]
    ensures name !in sheet && r.Returned? ==> r.value == sheet[DefaultName]
    ensures r.Panicked? ==> r.reason == UnwrapNonePanic
  {
    if name in sheet then Returned(sheet[name])
    else if DefaultName in sheet then Returned(sheet[DefaultName])
    else Panicked(UnwrapNonePanic)
  }
}
