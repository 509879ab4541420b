/** What a side knows of a cell. */
module Fog {
  datatype CellVisibility = Unexplored | Explored | Visible
}
