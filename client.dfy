/**
 * The records as the client hooks receive them from the API (dates are the
 * ISO strings of the JSON body, nullable columns are options), and the pieces
 * the page forms share.
 */
module Client {
  import opened Js

  datatype Expense = Expense(id: string, date: string, category: string, description: Option<string>, amount: real)

  /** The `inventoryItem` an adjustment is listed with. */
  datatype LinkedItem = LinkedItem(id: string, name: string, unitCost: real)

  datatype Adjustment = Adjustment(
    id: string,
    kind: string,
    date: string,
    description: Option<string>,
    amount: Option<real>,
    quantity: Option<real>,
    inventoryItemId: Option<string>,
    inventoryItem: Option<LinkedItem>)

  datatype MpesaEntry = MpesaEntry(
    id: string,
    date: string,
    kind: string,
    startingFloat: Option<real>,
    deposits: Option<real>,
    withdrawals: Option<real>,
    fees: Option<real>,
    endingFloat: Option<real>,
    netChange: Option<real>)

  datatype Investment = Investment(
    id: string,
    investorName: string,
    startDate: string,
    capital: real,
    currentProfit: real,
    profitShare: real,
    isActive: bool)

  datatype InventoryItem = InventoryItem(id: string, name: string, unitCost: real, currentStock: int, reorderThreshold: int)

  /** Validation messages by field name, `Record<string, string>` in the forms. */
  type Errors = map<string, string>

  /** `if (failed) newErrors[key] = message`. */
  function Flag(e: Errors, failed: bool, key: string, message: string): Errors {
    if failed then e[key := message] else e
  }

  /** `!text || parseFloat(text) <= 0`: empty, or a number at most 0 (text that is not a number passes). */
  predicate AmountRefused(text: string) {
    text == "" || AtMost(ParseFloat(Str(text)), 0.0)
  }

  /** `!text || parseInt(text) <= 0`: the same test with parseInt. */
  predicate CountRefused(text: string) {
    text == "" || AtMost(ParseInt(Str(text)), 0.0)
  }
}
