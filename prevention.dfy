/**
 * The prevention guide (`src/components/Prevention.tsx`): four method cards,
 * an accordion in which clicking a card expands it and collapses any other, and
 * the colour classes looked up for each card.
 */
module Prevention {
  import opened Wrappers

  /** The background, text, icon and border classes of one card colour. */
  datatype ColorSet = ColorSet(bg: string, text: string, icon: string, border: string)

  const ColorTable: map<string, ColorSet> := map[
    "blue" := ColorSet("bg-blue-50", "text-blue-900", "text-blue-600", "border-blue-200"),
    "teal" := ColorSet("bg-teal-50", "text-teal-900", "text-teal-600", "border-teal-200"),
    "green" := ColorSet("bg-green-50", "text-green-900", "text-green-600", "border-green-200"),
    "orange" := ColorSet("bg-orange-50", "text-orange-900", "text-orange-600", "border-orange-200")
  ]

  /** The classes a colour name stands for, shade by shade. */
  function ShadesOf(color: string): ColorSet
  {
    ColorSet("bg-" + color + "-50", "text-" + color + "-900", "text-" + color + "-600", "border-" + color + "-200")
  }

  /**
   * `getColorClasses`: the record for one of the four colours; the lookup has
   * no default, so any other name gives `undefined` (`None`).
   */
  function ColorClasses(color: string): (r: Option<ColorSet>)
    ensures r.Some? <==> color in {"blue", "teal", "green", "orange"}
  {
    if color in ColorTable then Some(ColorTable[color]) else None
  }

  /** Every record in the table is the four shades of its colour name. */
  lemma ColorClassesAreShades(color: string)
    requires ColorClasses(color).Some?
    ensures ColorClasses(color).value == ShadesOf(color)
  {
    if color == "blue" {
      BlueShades(color);
    } else if color == "teal" {
      TealShades(color);
    } else if color == "green" {
      GreenShades(color);
    } else {
      OrangeShades(color);
    }
  }

  lemma BlueShades(color: string)
    requires color == "blue"
    ensures ColorTable[color] == ShadesOf(color)
  {
    assert "bg-" + color + "-50" == "bg-blue-50";
    assert "text-" + color + "-900" == "text-blue-900";
    assert "text-" + color + "-600" == "text-blue-600";
    assert "border-" + color + "-200" == "border-blue-200";
  }

  lemma TealShades(color: string)
    requires color == "teal"
    ensures ColorTable[color] == ShadesOf(color)
  {
    assert "bg-" + color + "-50" == "bg-teal-50";
    assert "text-" + color + "-900" == "text-teal-900";
    assert "text-" + color + "-600" == "text-teal-600";
    assert "border-" + color + "-200" == "border-teal-200";
  }

  lemma GreenShades(color: string)
    requires color == "green"
    ensures ColorTable[color] == ShadesOf(color)
  {
    assert "bg-" + color + "-50" == "bg-green-50";
    assert "text-" + color + "-900" == "text-green-900";
    assert "text-" + color + "-600" == "text-green-600";
    assert "border-" + color + "-200" == "border-green-200";
  }

  lemma OrangeShades(color: string)
    requires color == "orange"
    ensures ColorTable[color] == ShadesOf(color)
  {
    assert "bg-" + color + "-50" == "bg-orange-50";
    assert "text-" + color + "-900" == "text-orange-900";
    assert "text-" + color + "-600" == "text-orange-600";
    assert "border-" + color + "-200" == "border-orange-200";
  }

  /** A guide card: its title and its colour name. The bullet lists and tips are not modelled. */
  datatype PreventionMethod = PreventionMethod(title: string, color: string)

  const PreventionMethods: seq<PreventionMethod> := [
    PreventionMethod("Safe Household Water Filtering", "blue"),
    PreventionMethod("Reducing Microplastic Exposure", "teal"),
    PreventionMethod("Community Cleanup Drives", "green"),
    PreventionMethod("Reporting Waste Disposal Mishandling", "orange")
  ]

  /** Every card's colour is a key of the table, so no card renders with `undefined` classes. */
  lemma EveryCardHasColors()
    ensures forall i | 0 <= i < |PreventionMethods| :: ColorClasses(PreventionMethods[i].color).Some?
  {
    forall i | 0 <= i < |PreventionMethods|
      ensures ColorClasses(PreventionMethods[i].color).Some?
    {
      assert PreventionMethods[i].color in ColorTable;
    }
  }

  // ---------------------------------------------------------------------------
  // The accordion

  /** The card click handler: the expanded card collapses, any other card becomes the expanded one. */
  function Toggle(expanded: Option<nat>, index: nat): (e: Option<nat>)
    ensures e == Some(index) <==> expanded != Some(index)
    ensures e == None <==> expanded == Some(index)
  {
    if expanded == Some(index) then None else Some(index)
  }

  /** The indices of the cards shown expanded. */
  function ExpandedCards(expanded: Option<nat>): set<nat>
  {
    set i | 0 <= i < |PreventionMethods| && expanded == Some(i)
  }

  /** At most one card is expanded, whatever the state. */
  lemma AtMostOneExpanded(expanded: Option<nat>)
    ensures |ExpandedCards(expanded)| <= 1
    ensures expanded.Some? && expanded.value < |PreventionMethods| ==> ExpandedCards(expanded) == {expanded.value}
  {
    if expanded.Some? && expanded.value < |PreventionMethods| {
      assert ExpandedCards(expanded) == {expanded.value};
    } else {
      assert ExpandedCards(expanded) == {};
    }
  }

  /** Clicking the same card twice from the collapsed state (or from its own expansion) undoes itself. */
  lemma ToggleTwice(expanded: Option<nat>, index: nat)
    requires expanded == None || expanded == Some(index)
    ensures Toggle(Toggle(expanded, index), index) == expanded
  {
  }

  /** Clicking another card while one is open leaves only the clicked card open. */
  lemma ToggleSwitches(i: nat, j: nat)
    requires i != j && j < |PreventionMethods|
    ensures ExpandedCards(Toggle(Some(i), j)) == {j}
  {
    AtMostOneExpanded(Toggle(Some(i), j));
  }

  class CardList {
    var expanded: Option<nat>

    /** Only a real card can be the expanded one. */
    predicate Valid()
      reads this
    {
      expanded.Some? ==> expanded.value < |PreventionMethods|
    }

    /** Initially every card is collapsed. */
    constructor()
      ensures Valid() && expanded == None
    {
      expanded := None;
    }

    /** Clicking card `index`. */
    method Click(index: nat)
      requires Valid() && index < |PreventionMethods|
      modifies this
      ensures Valid()
      ensures expanded == Toggle(old(expanded), index)
      ensures ExpandedCards(expanded) == if old(expanded) == Some(index) then {} else {index}
    {
      expanded := if expanded == Some(index) then None else Some(index);
      AtMostOneExpanded(expanded);
    }
  }
}
