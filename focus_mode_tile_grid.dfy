/** The tile grid of focus modes with a bound selection (Elaro/FocusModeTileGrid.swift). */
module FocusModeTileGrid {
  import opened Selection

  /** The grid's state: the bound selection of mode ids, the selection mode, and the
      selections passed to `onChange` so far (none are recorded without a handler). */
  class TileGrid<ID(==,!new)> {
    var selection: set<ID>
    const allowsMultipleSelection: bool
    const hasOnChange: bool
    var reported: seq<set<ID>>

    constructor (selection: set<ID>, allowsMultipleSelection: bool, hasOnChange: bool)
      ensures this.selection == selection && this.allowsMultipleSelection == allowsMultipleSelection
      ensures this.hasOnChange == hasOnChange && reported == []
    {
      this.selection := selection;
      this.allowsMultipleSelection := allowsMultipleSelection;
      this.hasOnChange := hasOnChange;
      this.reported := [];
    }

    /** The selection and the `onChange` log agree: the last report is the current selection. */
    ghost predicate ReportsCurrent()
      reads this
    {
      reported != [] ==> reported[|reported| - 1] == selection
    }

    /** `toggle(_:)` for a tile with id `id`. */
    method Toggle(id: ID)
      modifies this
      ensures allowsMultipleSelection ==> selection == SetToggled(old(selection), id)
      ensures !allowsMultipleSelection ==> selection == SingleToggled(old(selection), id)
      ensures reported == if hasOnChange then old(reported) + [selection] else old(reported)
      ensures hasOnChange ==> ReportsCurrent()
    {
      if allowsMultipleSelection {
        if id in selection {
          selection := selection - {id};
        } else {
          selection := selection + {id};
        }
      } else {
        selection := if id in selection then {} else {id};
      }
      if hasOnChange {
        reported := reported + [selection];
      }
    }
  }
}
