/**
 * The five record collections the server reads and writes, as the database
 * returns them. Timestamps are integer milliseconds; nullable columns are
 * options.
 */
module Records {
  import opened Js

  const EndOfDay: string := "end_of_day"
  const StartOfDay: string := "start_of_day"
  const ItemPicked: string := "item_picked"

  datatype Investment = Investment(
    id: string,
    investorName: string,
    startDate: int,
    capital: real,
    currentProfit: real,
    profitShare: real,
    isActive: bool,
    createdAt: int)

  datatype InventoryItem = InventoryItem(
    id: string,
    name: string,
    unitCost: real,
    currentStock: int,
    reorderThreshold: int)
  {
    /** The low-stock rule shared by the dashboard, the inventory page and the card. */
    predicate IsLowStock() {
      currentStock <= reorderThreshold
    }
  }

  datatype MpesaEntry = MpesaEntry(
    id: string,
    date: int,
    kind: string,
    startingFloat: Option<real>,
    deposits: Option<real>,
    withdrawals: Option<real>,
    fees: Option<real>,
    endingFloat: Option<real>,
    netChange: Option<real>)

  datatype Expense = Expense(
    id: string,
    date: int,
    category: string,
    description: Option<string>,
    amount: real)

  datatype Adjustment = Adjustment(
    id: string,
    kind: string,
    date: int,
    description: Option<string>,
    amount: Option<real>,
    quantity: Option<int>,
    inventoryItemId: Option<string>)

  /** A snapshot of the tables, read in one request. */
  datatype Database = Database(
    investments: seq<Investment>,
    inventoryItems: seq<InventoryItem>,
    mpesaEntries: seq<MpesaEntry>,
    expenses: seq<Expense>,
    adjustments: seq<Adjustment>)
}
