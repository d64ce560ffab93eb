/** The set updates behind the two selectable grids. */
module Selection {
  /** An item's membership flipped: removed when present, inserted when absent. */
  function SetToggled<T(!new)>(selection: set<T>, x: T): (r: set<T>)
    ensures x in selection ==> x !in r
    ensures x !in selection ==> x in r
    ensures forall y :: y != x ==> (y in r <==> y in selection)
  {
    if x in selection then selection - {x} else selection + {x}
  }

  /** Toggling the same item twice restores the selection. */
  lemma ToggleTwice<T(!new)>(selection: set<T>, x: T)
    ensures SetToggled(SetToggled(selection, x), x) == selection
  {
  }

  /** A single-select toggle: deselect everything when the item was selected, otherwise
      select only it. */
  function SingleToggled<T>(selection: set<T>, x: T): (r: set<T>)
    ensures x in selection ==> r == {}
    ensures x !in selection ==> r == {x}
    ensures |r| <= 1
  {
    if x in selection then {} else {x}
  }

  /** From a single selection, toggling the selected item clears it and toggling it again
      brings it back; single-select toggles therefore never select two items. */
  lemma SingleToggleTwice<T>(x: T)
    ensures SingleToggled(SingleToggled({x}, x), x) == {x}
  {
  }
}
