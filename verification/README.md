# Style registry model

A Dafny model of the named style registry of `rust_cli_exp`
(`src/common/stylesheet.rs`). A style definition (`StyleProperties`: a list of
text transformations, an optional foreground colour and an optional background
colour) is composed into a terminal style and stored in a sheet under a name;
a lookup returns the style for a name, falling back to the entry named
`"default"`, and panics when neither is present.

Modules, one per file:

- `Options` (`options.dfy`): `Option`, and `Outcome` for a call that returns or panics.
- `Console` (`console.dfy`): an abstract value view of `console::Style`:
  a set of attributes plus optional foreground and background colours, with the
  builder calls (`.bold()`, `.red()`, `.on_blue()`, ...) as member functions.
- `Definitions` (`definitions.dfy`): the closed enums `StyleTransformation`,
  `StyleColor` and the record `StyleProperties`.
- `Stylesheet` (`stylesheet.dfy`): the sheet as `map<string, Console.Style>`,
  composition of a definition (`Compose`), and the operations `New`,
  `AddStyle`, `GetStyle`.
- `StylesheetLemmas` (`stylesheet_lemmas.dfy`): map semantics of registration,
  the `"default"` fallback, and order- and repetition-blind composition.

`new` returns an empty map (`src/common/stylesheet.rs:32-34`), so a sheet has
no `"default"` entry until one is registered. `get_style` looks the name up and
otherwise takes the `"default"` entry with `unwrap`, so it panics (modelled as
`Outcome.Panicked` with Rust's `unwrap` message) when neither name is present
(`src/common/stylesheet.rs:81`). Registration never fails: `add_style` inserts
or overwrites (`src/common/stylesheet.rs:73`).

## Model

| member | source | states |
|---|---|---|
| Stylesheet.ApplyTransformations | src/common/stylesheet.rs:43-50 | running the transformation loop over a style adds exactly the attributes of the listed transformations to its attribute set and leaves both colours untouched |
| Stylesheet.Compose | src/common/stylesheet.rs:41-70 | the composed style's attributes are exactly the image of the transformation list; the foreground is set iff `color` is `Some(c)` and is then `c`; the background is set iff `background` is `Some(c)` and is then `c`, independently of the rest |
| Stylesheet.New | src/common/stylesheet.rs:32-34 | a new sheet has no entries, not even `"default"` |
| Stylesheet.AddStyle | src/common/stylesheet.rs:36-74 | after registration the keys are the old keys plus the name, the name maps to the composed style, every other key keeps its style, and the size grows by one only when the name was new |
| Stylesheet.GetStyle | src/common/stylesheet.rs:76-82 | a lookup returns a value iff the name or `"default"` is present; it returns the name's own entry when present, otherwise the `"default"` entry, and always a value stored in the sheet; a failed lookup panics with the `unwrap` message |
| StylesheetLemmas.NewSheetLookupPanics | src/common/stylesheet.rs:32-34 | every lookup on a fresh sheet panics with the `unwrap` message, since it has no `"default"` entry |
| StylesheetLemmas.GetAfterAdd | src/common/stylesheet.rs:73 | a name just registered resolves to the style composed from its definition |
| StylesheetLemmas.AddLeavesOtherLookups | src/common/stylesheet.rs:73 | registering a name other than `"default"` leaves the lookup of every other name unchanged, fallbacks and panics included |
| StylesheetLemmas.AddDefaultInstallsFallback | src/common/stylesheet.rs:81 | after registering `"default"`, every absent name resolves to that style |
| StylesheetLemmas.AbsentNameFallsBack | src/common/stylesheet.rs:81 | looking up an absent name gives the same outcome as looking up `"default"` |
| StylesheetLemmas.LaterAddWins | src/common/stylesheet.rs:73 | registering the same name twice equals registering only the later definition, and the second registration does not change the number of entries |
| StylesheetLemmas.DistinctAddsCommute | src/common/stylesheet.rs:73 | registrations under distinct names give the same sheet in either order |
| StylesheetLemmas.AttrOfInjective | src/common/stylesheet.rs:44-49 | the match sends distinct transformations to distinct attributes |
| StylesheetLemmas.ConsoleColorInjective | src/common/stylesheet.rs:53-59 | the colour match sends distinct definition colours to distinct terminal colours |
| StylesheetLemmas.AttrsOfIff | src/common/stylesheet.rs:43-50 | two transformation lists give the same attribute set iff they mention the same transformations |
| StylesheetLemmas.ComposeEqualIff | src/common/stylesheet.rs:41-70 | two definitions compose to the same style iff they mention the same transformations and ask for the same foreground and background |
| StylesheetLemmas.ComposeIgnoresOrder | src/common/stylesheet.rs:43-50 | any permutation of the transformation list composes to the same style |
| StylesheetLemmas.ComposeIgnoresRepetition | src/common/stylesheet.rs:43-50 | inserting a second copy of any one transformation anywhere in the list composes to the same style |
| StylesheetLemmas.ReregisterReplacesStyle | src/common/stylesheet.rs:73 | registering `"x"` as bold and then as italic leaves an italic-only style with no colours under `"x"` |

## Left out

- The internals of the `console` crate: `Style` is an abstract record, its escape-code rendering (`apply_to`) is not modelled, and its attribute and colour sets are cut down to the four attributes and five colours this code can reach.
- Output: the registry itself prints nothing; the callers' `println!` is I/O and is not modelled.
- `src/bin/mapper_day.rs`: command-line parsing and the process entry point, glue with no logic of its own.
- `src/common/scanner.rs` and `src/common/long_range_scanner.rs`: demonstration functions that build fixed styles and print fixed messages; `scanner.rs` keeps its own ad-hoc `HashMap` of styles, and neither calls the registry.
- `HashMap` hashing and iteration order, and Rust lifetimes and `'static` keys: the sheet is a `map<string, Console.Style>`, where only the contents matter.
- Ownership: `get_style` takes the sheet by value, so in Rust the caller gives the sheet up; the model treats the lookup as a pure read that leaves the sheet as it was.
