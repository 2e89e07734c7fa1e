/**
 * The Experience page's expandable cards: a set of expanded card indices,
 * starting with the first card open, and a toggle per card.
 */
module ExperiencePage {

  /** The set after `toggleExpanded(index)`: the index leaves the set if it was in it, and joins it otherwise. */
  function Toggled(expanded: set<int>, index: int): (r: set<int>)
    ensures index in r <==> index !in expanded
    ensures forall j :: j != index ==> (j in r <==> j in expanded)
  {
    if index in expanded then expanded - {index} else expanded + {index}
  }

  /** Toggling the same card twice restores the set. */
  lemma ToggleTwiceRestores(expanded: set<int>, index: int)
    ensures Toggled(Toggled(expanded, index), index) == expanded
  {
  }

  /** Toggles of two cards can happen in either order. */
  lemma TogglesCommute(expanded: set<int>, i: int, j: int)
    ensures Toggled(Toggled(expanded, i), j) == Toggled(Toggled(expanded, j), i)
  {
  }

  /** Card `index` shows its details exactly when it is expanded. */
  predicate DetailsShown(expanded: set<int>, index: int) {
    index in expanded
  }

  /** The label of card `index`'s toggle button. */
  function ButtonLabel(expanded: set<int>, index: int): (text: string)
    ensures text == "Show Less" <==> DetailsShown(expanded, index)
    ensures text == "Show Less" || text == "Show More Details"
  {
    if index in expanded then "Show Less" else "Show More Details"
  }

  /** Pressing a card's button flips that card between 'Show Less' and 'Show More Details' and leaves the other cards alone. */
  lemma ToggleFlipsOneLabel(expanded: set<int>, index: int, other: int)
    requires other != index
    ensures ButtonLabel(Toggled(expanded, index), index) != ButtonLabel(expanded, index)
    ensures ButtonLabel(Toggled(expanded, index), other) == ButtonLabel(expanded, other)
  {
  }

  class ExperiencePageState {
    var expandedItems: set<int>

    /** `useState(new Set([0]))`: only the first card starts expanded. */
    constructor ()
      ensures expandedItems == {0}
    {
      expandedItems := {0};
    }

    /**
     * `toggleExpanded`: a copy of the set is changed and stored; the earlier
     * set is a value and stays as it was.
     */
    method ToggleExpanded(index: int)
      modifies this`expandedItems
      ensures expandedItems == Toggled(old(expandedItems), index)
    {
      var next := expandedItems;
      if index in next {
        next := next - {index};
      } else {
        next := next + {index};
      }
      expandedItems := next;
    }
  }

  /** On first render the first card shows 'Show Less' and every other card 'Show More Details'. */
  lemma InitialLabels(index: int)
    ensures ButtonLabel({0}, index) == if index == 0 then "Show Less" else "Show More Details"
  {
  }
}
