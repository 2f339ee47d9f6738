/** Properties of the style registry: map semantics of registration,
    the "default" fallback of lookup, and the order- and repetition-blind
    composition of a definition into a style. */
module StylesheetLemmas {
  import opened Options
  import opened Definitions
  import opened Stylesheet
  import Console

  /** A fresh sheet has no "default" entry, so every lookup on it panics. */
  lemma NewSheetLookupPanics(name: string)
    ensures GetStyle(New(), name) == Panicked(UnwrapNonePanic)
  {
  }

  /** A name just registered resolves to the style composed from its definition,
      whatever the sheet held before. */
  lemma GetAfterAdd(sheet: Sheet, name: string, d: StyleProperties)
    ensures GetStyle(AddStyle(sheet, name, d), name) == Returned(Compose(d))
  {
  }

  /** Registering a name other than "default" changes no other lookup:
      present names keep their style, absent names keep their fallback
      (or keep panicking). */
  lemma AddLeavesOtherLookups(sheet: Sheet, name: string, d: StyleProperties, other: string)
    requires other != name && name != DefaultName
    ensures GetStyle(AddStyle(sheet, name, d), other) == GetStyle(sheet, other)
  {
  }

  /** Registering "default" installs the fallback: every other name that is
      absent from the sheet now resolves to the new default style. */
  lemma AddDefaultInstallsFallback(sheet: Sheet, d: StyleProperties, other: string)
    requires other !in sheet && other != DefaultName
    ensures GetStyle(AddStyle(sheet, DefaultName, d), other) == Returned(Compose(d))
  {
  }

  /** Looking up an absent name is the same as looking up "default",
      including the panic when "default" is absent too. */
  lemma AbsentNameFallsBack(sheet: Sheet, name: string)
    requires name !in sheet
    ensures GetStyle(sheet, name) == GetStyle(sheet, DefaultName)
  {
  }

  /** Registering a name twice keeps only the later definition, and the
      second registration does not change the number of entries. */
  lemma LaterAddWins(sheet: Sheet, name: string, d1: StyleProperties, d2: StyleProperties)
    ensures AddStyle(AddStyle(sheet, name, d1), name, d2) == AddStyle(sheet, name, d2)
    ensures |AddStyle(AddStyle(sheet, name, d1), name, d2)| == |AddStyle(sheet, name, d1)|
  {
  }

  /** Registrations under distinct names commute: the map has no order. */
  lemma DistinctAddsCommute(sheet: Sheet, n1: string, d1: StyleProperties, n2: string, d2: StyleProperties)
    requires n1 != n2
    ensures AddStyle(AddStyle(sheet, n1, d1), n2, d2) == AddStyle(AddStyle(sheet, n2, d2), n1, d1)
  {
    var s1, s2 := Compose(d1), Compose(d2);
    assert sheet[n1 := s1][n2 := s2] == sheet[n2 := s2][n1 := s1];
  }

  /** Distinct transformations switch on distinct attributes. */
  lemma AttrOfInjective(t1: StyleTransformation, t2: StyleTransformation)
    ensures AttrOf(t1) == AttrOf(t2) ==> t1 == t2
  {
  }

  /** Distinct definition colours select distinct terminal colours. */
  lemma ConsoleColorInjective(c1: StyleColor, c2: StyleColor)
    ensures ConsoleColor(c1) == ConsoleColor(c2) ==> c1 == c2
  {
  }

  /** The attribute set determines which transformations were mentioned, and back. */
  lemma AttrsOfIff(ts1: seq<StyleTransformation>, ts2: seq<StyleTransformation>)
    ensures AttrsOf(ts1) == AttrsOf(ts2) <==> Mentioned(ts1) == Mentioned(ts2)
  {
    if AttrsOf(ts1) == AttrsOf(ts2) {
      forall t | t in ts1 ensures t in ts2 {
        assert AttrOf(t) in AttrsOf(ts2);
        var u :| u in ts2 && AttrOf(u) == AttrOf(t);
        AttrOfInjective(u, t);
      }
      forall t | t in ts2 ensures t in ts1 {
        assert AttrOf(t) in AttrsOf(ts1);
        var u :| u in ts1 && AttrOf(u) == AttrOf(t);
        AttrOfInjective(u, t);
      }
    }
    if Mentioned(ts1) == Mentioned(ts2) {
      forall a | a in AttrsOf(ts1) ensures a in AttrsOf(ts2) {
        var t :| t in ts1 && AttrOf(t) == a;
        assert t in Mentioned(ts2);
      }
      forall a | a in AttrsOf(ts2) ensures a in AttrsOf(ts1) {
        var t :| t in ts2 && AttrOf(t) == a;
        assert t in Mentioned(ts1);
      }
    }
  }

  /** Two definitions compose to the same style exactly when they mention the
      same transformations (in any order, with any repetition) and ask for
      the same foreground and background colours. */
  lemma ComposeEqualIff(d1: StyleProperties, d2: StyleProperties)
    ensures Compose(d1) == Compose(d2)
        <==> && Mentioned(d1.transformation) == Mentioned(d2.transformation)
             && d1.color == d2.color
             && d1.background == d2.background
  {
    AttrsOfIff(d1.transformation, d2.transformation);
    if d1.color.Some? && d2.color.Some? {
      ConsoleColorInjective(d1.color.value, d2.color.value);
    }
    if d1.background.Some? && d2.background.Some? {
      ConsoleColorInjective(d1.background.value, d2.background.value);
    }
  }

  /** Reordering the transformation list does not change the composed style. */
  lemma ComposeIgnoresOrder(d: StyleProperties, ts: seq<StyleTransformation>)
    requires multiset(ts) == multiset(d.transformation)
    ensures Compose(d.(transformation := ts)) == Compose(d)
  {
    forall t ensures t in ts <==> t in d.transformation {
      assert t in ts <==> t in multiset(ts);
      assert t in d.transformation <==> t in multiset(d.transformation);
    }
    ComposeEqualIff(d.(transformation := ts), d);
  }

  /** Inserting a second copy of any one transformation, next to the first,
      does not change the composed style. */
  lemma ComposeIgnoresRepetition(d: StyleProperties, i: nat)
    requires i < |d.transformation|
    ensures
      var ts := d.transformation;
      Compose(d.(transformation := ts[..i] + [ts[i]] + ts[i..])) == Compose(d)
  {
    var ts := d.transformation;
    var ts' := ts[..i] + [ts[i]] + ts[i..];
    assert ts == ts[..i] + ts[i..];
    assert Mentioned(ts') == Mentioned(ts);
    ComposeEqualIff(d.(transformation := ts'), d);
  }

  /** Registering "x" as bold and then as italic leaves an italic-only style. */
  lemma ReregisterReplacesStyle(sheet: Sheet)
    ensures
      var bold := StyleProperties([Bold], None, None);
      var italic := StyleProperties([Italic], None, None);
      GetStyle(AddStyle(AddStyle(sheet, "x", bold), "x", italic), "x")
        == Returned(Console.Style({Console.Italic}, None, None))
  {
  }
}
