/** Record shapes of the expense tracker: the persisted expense row, the
    payload a client may insert, the partial payload of an update, the
    filter criteria of a fetch and the derived summary.

    Amounts are `real`. The original program stores them in IEEE doubles,
    so its sums are rounded; the model's sums are exact. */
module ExpenseTypes {

  datatype Option<+T> = None | Some(value: T)

  /** The closed set of categories an expense (and a new expense) may carry. */
  datatype Category = Food | Travel | Shopping | Other

  /** The string a category is stored and keyed under. */
  function CategoryName(c: Category): string {
    match c
    case Food => "Food"
    case Travel => "Travel"
    case Shopping => "Shopping"
    case Other => "Other"
  }

  const AllCategoryNames: set<string> := {"Food", "Travel", "Shopping", "Other"}

  /** Distinct categories are keyed under distinct strings. */
  lemma CategoryNamesDistinct(c: Category, d: Category)
    ensures CategoryName(c) == CategoryName(d) <==> c == d
  {
  }

  /** A row as returned by the backend. `id`, the two timestamps and
      `userId` are assigned by the backend, never by the client. */
  datatype Expense = Expense(
    id: string,
    amount: real,
    category: Category,
    description: string,
    date: string,
    createdAt: string,
    updatedAt: string,
    userId: string)

  /** What a client may set when creating an expense: no id, no
      timestamps, no owner. */
  datatype NewExpense = NewExpense(
    amount: real,
    category: Category,
    description: string,
    date: string)

  /** The partial payload of an update: every field of a new expense,
      each independently optional. */
  datatype ExpensePatch = ExpensePatch(
    amount: Option<real>,
    category: Option<Category>,
    description: Option<string>,
    date: Option<string>)

  /** Fetch criteria. Every field is independently optional, and the
      category is an arbitrary string rather than a `Category`. */
  datatype Filter = Filter(
    category: Option<string>,
    startDate: Option<string>,
    endDate: Option<string>,
    search: Option<string>)

  const NoCriteria: Filter := Filter(None, None, None, None)

  /** Derived aggregate: total amount, per-category subtotal keyed by the
      category's string, and number of entries. */
  datatype Summary = Summary(total: real, byCategory: map<string, real>, count: nat)

  /** The row an insert submits: the payload spread out, stamped with the
      acting user's id, which is absent when nobody is signed in. */
  datatype InsertRow = InsertRow(
    amount: real,
    category: Category,
    description: string,
    date: string,
    userId: Option<string>)

  function ToInsertRow(p: NewExpense, user: Option<string>): (row: InsertRow)
    ensures PayloadOf(row) == p
    ensures row.userId == user
  {
    InsertRow(p.amount, p.category, p.description, p.date, user)
  }

  /** The payload part of an insert row, forgetting the owner stamp. */
  function PayloadOf(row: InsertRow): NewExpense {
    NewExpense(row.amount, row.category, row.description, row.date)
  }
}
