/**
 * The marker icon table: `businessIcons` maps an industry key to a 32x32 map
 * icon built from a Font Awesome glyph, and every caller falls back to the
 * `default` entry with `businessIcons[key] || businessIcons.default`.
 */
module Icons {
  import opened Wrappers

  /** The Font Awesome glyphs the table uses. */
  datatype Glyph = Store | School | Utensils | ShoppingBag | Hospital | Briefcase | QuestionCircle

  datatype Point = Point(x: int, y: int)

  /** A Leaflet div icon as `makeIcon` builds it. */
  datatype Icon = Icon(glyph: Glyph, color: string, background: string,
                       size: Point, anchor: Point, popupAnchor: Point)

  /** `makeIcon(fa, color, bg)`: the glyph on a round background, anchored at its bottom centre. */
  function MakeIcon(fa: Glyph, color: string, bg: string): Icon {
    Icon(fa, color, bg, Point(32, 32), Point(16, 32), Point(0, -32))
  }

  /** The properties of the `businessIcons` object literal, in the order they are written. */
  const Literal: seq<(string, Icon)> := [
    ("mall", MakeIcon(Store, "#be185d", "#fce7f3")),
    ("school", MakeIcon(School, "#7c3aed", "#ede9fe")),
    ("restaurant", MakeIcon(Utensils, "#dc2626", "#fee2e2")),
    ("mall", MakeIcon(ShoppingBag, "#f97316", "#ffedd5")),
    ("hospital", MakeIcon(Hospital, "#16a34a", "#dcfce7")),
    ("office", MakeIcon(Briefcase, "#2563eb", "#dbeafe")),
    ("default", MakeIcon(QuestionCircle, "#374151", "#f3f4f6"))
  ]

  /** Evaluates an object literal: each property assigns its key, so a later duplicate overwrites an earlier one. */
  function Evaluate(props: seq<(string, Icon)>): map<string, Icon> {
    if props == [] then map[] else Evaluate(props[..|props| - 1])[props[|props| - 1].0 := props[|props| - 1].1]
  }

  /** The key written at position `i`. */
  function KeyAt(props: seq<(string, Icon)>, i: nat): string
    requires i < |props|
  {
    props[i].0
  }

  /** The `businessIcons` table. */
  function BusinessIcons(): map<string, Icon> {
    Evaluate(Literal)
  }

  /** The icon shown for the industry key: `businessIcons[key] || businessIcons.default`. */
  function Resolve(key: string): (icon: Icon)
    ensures key in BusinessIcons() ==> icon == BusinessIcons()[key]
    ensures key !in BusinessIcons() ==> icon == DefaultIcon()
  {
    TableFacts();
    if key in BusinessIcons() then BusinessIcons()[key] else DefaultIcon()
  }

  /**
   * The icon for an industry that may be undefined: JavaScript turns an
   * undefined property key into the string "undefined".
   */
  function ResolveOpt(key: Option<string>): Icon {
    Resolve(key.GetOr("undefined"))
  }

  /** `businessIcons.default`. */
  function DefaultIcon(): (icon: Icon)
    ensures icon.glyph == QuestionCircle
  {
    TableFacts();
    BusinessIcons()["default"]
  }

  /** An object literal's keys are exactly the keys written in it. */
  lemma {:induction false} EvaluateKeys(props: seq<(string, Icon)>)
    ensures Evaluate(props).Keys == set i | 0 <= i < |props| :: KeyAt(props, i)
  {
    if props != [] {
      var n := |props| - 1;
      EvaluateKeys(props[..n]);
      assert forall i :: 0 <= i < n ==> KeyAt(props[..n], i) == KeyAt(props, i);
      assert (set i | 0 <= i < |props| :: KeyAt(props, i))
          == (set i | 0 <= i < n :: KeyAt(props[..n], i)) + {KeyAt(props, n)};
    }
  }

  /** The value of a key is the one written at its last occurrence. */
  lemma {:induction false} EvaluateLastWins(props: seq<(string, Icon)>, i: nat)
    requires i < |props|
    requires forall j :: i < j < |props| ==> KeyAt(props, j) != KeyAt(props, i)
    ensures KeyAt(props, i) in Evaluate(props)
    ensures Evaluate(props)[KeyAt(props, i)] == props[i].1
  {
    var n := |props| - 1;
    if i < n {
      assert KeyAt(props[..n], i) == KeyAt(props, i);
      forall j | i < j < n ensures KeyAt(props[..n], j) != KeyAt(props[..n], i) {
        assert KeyAt(props[..n], j) == KeyAt(props, j);
      }
      EvaluateLastWins(props[..n], i);
      assert KeyAt(props, n) != KeyAt(props, i);
    }
  }

  /** The keys of `businessIcons` and the icons `mall` and `default` end up with. */
  lemma TableFacts()
    ensures BusinessIcons().Keys == {"mall", "school", "restaurant", "hospital", "office", "default"}
    ensures BusinessIcons()["mall"] == Literal[3].1
    ensures BusinessIcons()["default"] == Literal[6].1
  {
    EvaluateKeys(Literal);
    var keys := set i | 0 <= i < |Literal| :: KeyAt(Literal, i);
    assert KeyAt(Literal, 0) == "mall" && KeyAt(Literal, 1) == "school" && KeyAt(Literal, 2) == "restaurant";
    assert KeyAt(Literal, 4) == "hospital" && KeyAt(Literal, 5) == "office" && KeyAt(Literal, 6) == "default";
    assert keys == {"mall", "school", "restaurant", "hospital", "office", "default"};
    EvaluateLastWins(Literal, 3);
    EvaluateLastWins(Literal, 6);
  }

  /** `mall` is written twice; the second entry, the shopping bag, is the one in the table. */
  lemma MallIsShoppingBag()
    ensures "mall" in BusinessIcons() && BusinessIcons()["mall"].glyph == ShoppingBag
    ensures Resolve("mall").glyph == ShoppingBag
    ensures forall k :: k in BusinessIcons() ==> BusinessIcons()[k].glyph != Store
  {
    TableFacts();
    var t := BusinessIcons();
    forall k | k in t ensures t[k].glyph != Store {
      if k != "mall" && k != "default" {
        var i := if k == "school" then 1 else if k == "restaurant" then 2 else if k == "hospital" then 4 else 5;
        EvaluateLastWins(Literal, i);
      }
    }
  }

  /** The select offers `market` and `other`, which have no entry and show the default glyph, as does an undefined industry. */
  lemma UnlistedIndustriesFallBack()
    ensures Resolve("market") == DefaultIcon() && Resolve("market").glyph == QuestionCircle
    ensures Resolve("other") == DefaultIcon()
    ensures ResolveOpt(None) == DefaultIcon()
  {
    TableFacts();
  }

  /** Every icon in the table is 32x32, anchored at [16, 32] with its popup at [0, -32]. */
  lemma UniformGeometry(k: string)
    requires k in BusinessIcons()
    ensures BusinessIcons()[k].size == Point(32, 32)
    ensures BusinessIcons()[k].anchor == Point(16, 32)
    ensures BusinessIcons()[k].popupAnchor == Point(0, -32)
  {
    TableFacts();
    var i := if k == "mall" then 3 else if k == "school" then 1 else if k == "restaurant" then 2
             else if k == "hospital" then 4 else if k == "office" then 5 else 6;
    EvaluateLastWins(Literal, i);
  }
}
