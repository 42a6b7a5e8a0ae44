/** The expense hook as a state machine over (expenses, loading, error).
    Each operation takes the state and the remote call's outcome, given as
    an input, and returns the request it sends, the next state and what it
    hands back to its caller. Transitions are applied one at a time. */
module ExpenseHook {
  import opened ExpenseTypes
  import opened ExpenseQuery
  import opened ListPatches
  import opened Summaries

  /** The hook's state: the in-memory list, the loading flag and the last
      error message (absent until some operation fails). */
  datatype State = State(expenses: seq<Expense>, loading: bool, error: Option<string>)

  /** The state before the first fetch: empty list, loading, no error. */
  const Initial: State := State([], true, None)

  /** How a remote call resolved: with its data, or with an error message. */
  datatype Response<T> = Ok(value: T) | Err(message: string)

  /** What add and update hand back: the row or an error, never both. */
  datatype Returned = Returned(data: Option<Expense>, error: Option<string>)

  datatype FetchStep = FetchStep(query: Query, pending: State, settled: State)

  datatype AddStep = AddStep(row: InsertRow, state: State, returned: Returned)

  datatype UpdateStep = UpdateStep(id: string, patch: ExpensePatch, state: State, returned: Returned)

  datatype DeleteStep = DeleteStep(id: string, state: State, error: Option<string>)

  /** Fetch: build the query, raise `loading` while it runs, then either
      replace the list with the rows (none when the data is null) or keep
      the list and record the message; `loading` ends false either way. A
      success does not clear an earlier error. */
  function Fetch(st: State, filter: Option<Filter>, response: Response<Option<seq<Expense>>>): (r: FetchStep)
    ensures r.query == BuildQuery(filter)
    ensures r.pending.loading
    ensures r.pending.expenses == st.expenses && r.pending.error == st.error
    ensures !r.settled.loading
    ensures response.Ok? && response.value.Some? ==> r.settled.expenses == response.value.value
    ensures response.Ok? && response.value.None? ==> r.settled.expenses == []
    ensures response.Ok? ==> r.settled.error == st.error
    ensures response.Err? ==> r.settled.expenses == st.expenses && r.settled.error == Some(response.message)
  {
    var pending := st.(loading := true);
    var settled :=
      match response
      case Ok(data) => pending.(expenses := if data.Some? then data.value else [], loading := false)
      case Err(msg) => pending.(error := Some(msg), loading := false);
    FetchStep(BuildQuery(filter), pending, settled)
  }

  /** Add: submit the payload stamped with the acting user; on success put
      the created row in front of the list and return it with no error; on
      failure keep the list, record the message and return it with no row.
      `loading` is not touched. */
  function Add(st: State, payload: NewExpense, user: Option<string>, response: Response<Expense>): (r: AddStep)
    ensures PayloadOf(r.row) == payload && r.row.userId == user
    ensures r.state.loading == st.loading
    ensures response.Ok? ==>
      && r.state.expenses == Prepend(response.value, st.expenses)
      && r.state.error == st.error
      && r.returned == Returned(Some(response.value), None)
    ensures response.Err? ==>
      && r.state.expenses == st.expenses
      && r.state.error == Some(response.message)
      && r.returned == Returned(None, Some(response.message))
  {
    var row := ToInsertRow(payload, user);
    match response
    case Ok(created) => AddStep(row, st.(expenses := Prepend(created, st.expenses)), Returned(Some(created), None))
    case Err(msg) => AddStep(row, st.(error := Some(msg)), Returned(None, Some(msg)))
  }

  /** Update: send the partial payload for `id`; on success replace every
      entry with that id by the returned row, in place, and return it; on
      failure keep the list, record the message and return it. */
  function Update(st: State, id: string, patch: ExpensePatch, response: Response<Expense>): (r: UpdateStep)
    ensures r.id == id && r.patch == patch
    ensures r.state.loading == st.loading
    ensures response.Ok? ==>
      && r.state.expenses == ReplaceById(st.expenses, id, response.value)
      && r.state.error == st.error
      && r.returned == Returned(Some(response.value), None)
    ensures response.Err? ==>
      && r.state.expenses == st.expenses
      && r.state.error == Some(response.message)
      && r.returned == Returned(None, Some(response.message))
  {
    match response
    case Ok(updated) =>
      UpdateStep(id, patch, st.(expenses := ReplaceById(st.expenses, id, updated)), Returned(Some(updated), None))
    case Err(msg) => UpdateStep(id, patch, st.(error := Some(msg)), Returned(None, Some(msg)))
  }

  /** Delete: ask the backend to delete `id`; on success drop every entry
      with that id and return no error; on failure keep the list, record
      the message and return it. */
  function Delete(st: State, id: string, response: Response<()>): (r: DeleteStep)
    ensures r.id == id
    ensures r.state.loading == st.loading
    ensures response.Ok? ==> r.state.expenses == RemoveById(st.expenses, id) && r.state.error == st.error && r.error == None
    ensures response.Err? ==>
      && r.state.expenses == st.expenses
      && r.state.error == Some(response.message)
      && r.error == Some(response.message)
  {
    match response
    case Ok(_) => DeleteStep(id, st.(expenses := RemoveById(st.expenses, id)), None)
    case Err(msg) => DeleteStep(id, st.(error := Some(msg)), Some(msg))
  }

  /** The summary of the hook's current list. */
  function GetSummary(st: State): (r: Summary)
    ensures r.count == |st.expenses|
    ensures SumValues(r.byCategory) == r.total
  {
    Summarize(st.expenses)
  }

  /** The fetch the hook runs when it mounts: from the initial state, with
      no filter, it sends the unconstrained query and settles to the rows
      (or to an empty list and the message) with `loading` false. */
  lemma MountFetch(response: Response<Option<seq<Expense>>>)
    ensures var step := Fetch(Initial, None, response);
      && step.query == BuildQuery(Some(NoCriteria))
      && step.query.constraints == []
      && step.pending == Initial
      && (response.Ok? ==> step.settled == State(if response.value.Some? then response.value.value else [], false, None))
      && (response.Err? ==> step.settled == State([], false, Some(response.message)))
  {
    NoCriteriaNoConstraints();
  }

  /** A successful fetch makes the list the returned rows whatever the list
      was before, and fetching the same rows again changes nothing. */
  lemma FetchReplacesList(st: State, st': State, filter: Option<Filter>, rows: seq<Expense>)
    ensures Fetch(st, filter, Ok(Some(rows))).settled.expenses == Fetch(st', filter, Ok(Some(rows))).settled.expenses
    ensures var once := Fetch(st, filter, Ok(Some(rows))).settled;
      Fetch(once, filter, Ok(Some(rows))).settled == once
  {
  }

  /** Any failed mutation leaves the list and the loading flag as they
      were, records the message and hands back a non-null error with no
      row. */
  lemma FailedMutationsKeepList(st: State, payload: NewExpense, user: Option<string>,
                                id: string, patch: ExpensePatch, msg: string)
    ensures var a := Add(st, payload, user, Err(msg));
      a.state == st.(error := Some(msg)) && a.returned.data.None? && a.returned.error.Some?
    ensures var u := Update(st, id, patch, Err(msg));
      u.state == st.(error := Some(msg)) && u.returned.data.None? && u.returned.error.Some?
    ensures var d := Delete(st, id, Err(msg));
      d.state == st.(error := Some(msg)) && d.error.Some?
  {
  }

  /** After a successful add the list is one longer, starts with the
      created row, keeps the old entries in order behind it, and a delete
      of the created id (fresh in the old list) restores the old list. */
  lemma AddThenDelete(st: State, payload: NewExpense, user: Option<string>, created: Expense)
    requires !HasId(st.expenses, created.id)
    ensures var added := Add(st, payload, user, Ok(created)).state;
      && |added.expenses| == |st.expenses| + 1
      && added.expenses[1..] == st.expenses
      && Delete(added, created.id, Ok(())).state == st
  {
    var added := Add(st, payload, user, Ok(created)).state;
    assert added.expenses[1..] == st.expenses;
    RemoveUndoesPrepend(created, st.expenses);
  }

  /** Updating an id absent from the list changes nothing in it, and
      repeating a successful update changes nothing further. */
  lemma UpdateAbsentOrRepeated(st: State, id: string, patch: ExpensePatch, updated: Expense)
    ensures !HasId(st.expenses, id) ==> Update(st, id, patch, Ok(updated)).state == st
    ensures var once := Update(st, id, patch, Ok(updated)).state;
      Update(once, id, patch, Ok(updated)).state == once
  {
    if !HasId(st.expenses, id) {
      ReplaceAbsentIsIdentity(st.expenses, id, updated);
    }
    ReplaceIdempotent(st.expenses, id, updated);
  }

  /** After a successful delete no entry carries the id, the list shrank by
      the number of entries that did, and the summary's count and total
      shrank accordingly. */
  lemma DeleteShrinksSummary(st: State, id: string)
    ensures var after := Delete(st, id, Ok(())).state;
      && !HasId(after.expenses, id)
      && GetSummary(after).count == GetSummary(st).count - CountId(st.expenses, id)
      && GetSummary(after).total == GetSummary(st).total - IdTotal(st.expenses, id)
  {
    SummaryAfterRemove(st.expenses, id);
  }

  /** After a successful add the summary counts one more entry and its
      total grows by the created row's amount. */
  lemma AddGrowsSummary(st: State, payload: NewExpense, user: Option<string>, created: Expense)
    ensures var after := Add(st, payload, user, Ok(created)).state;
      && GetSummary(after).count == GetSummary(st).count + 1
      && GetSummary(after).total == GetSummary(st).total + created.amount
  {
    SummaryAfterPrepend(created, st.expenses);
  }
}
