/** The flowing grid of selectable chips with a bound selection (Elaro/FlowChipsGrid.swift). */
module FlowChipsGrid {
  import opened Selection

  class ChipsGrid<T(==,!new)> {
    const all: seq<T>
    var selection: set<T>

    constructor (all: seq<T>, selection: set<T>)
      ensures this.all == all && this.selection == selection
    {
      this.all := all;
      this.selection := selection;
    }

    /** `toggle(_:)`: inserts an absent item and removes a present one. */
    method Toggle(item: T)
      modifies this
      ensures selection == SetToggled(old(selection), item)
    {
      if item in selection {
        selection := selection - {item};
      } else {
        selection := selection + {item};
      }
    }
  }
}
