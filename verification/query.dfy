/** The query description a fetch builds from optional filter criteria:
    a fixed table, column list and ordering, narrowed by one constraint
    for each filter field that is present and non-empty. Evaluating the
    query happens in the backend and is not modelled. */
module ExpenseQuery {
  import opened ExpenseTypes

  datatype Direction = Ascending | Descending

  datatype OrderBy = OrderBy(column: string, direction: Direction)

  /** The four constraint forms the fetch can add. `ILike` carries the
      complete pattern sent to the backend, wildcards included. */
  datatype Constraint =
    | Eq(column: string, value: string)
    | Gte(column: string, value: string)
    | Lte(column: string, value: string)
    | ILike(column: string, pattern: string)

  datatype Query = Query(
    table: string,
    columns: string,
    ordering: seq<OrderBy>,
    constraints: seq<Constraint>)

  /** JavaScript truthiness of an optional string field: an absent field
      and the empty string both count as "not set". */
  predicate Set(o: Option<string>) {
    o.Some? && o.value != ""
  }

  /** The criteria actually used: an absent filter means no criteria. */
  function CriteriaOf(filter: Option<Filter>): Filter {
    if filter.Some? then filter.value else NoCriteria
  }

  /** Number of fields of `f` that narrow the query. */
  function SetFieldCount(f: Filter): nat {
    (if Set(f.category) then 1 else 0) + (if Set(f.startDate) then 1 else 0)
    + (if Set(f.endDate) then 1 else 0) + (if Set(f.search) then 1 else 0)
  }

  /** The substring pattern: the search text between two `%` wildcards. */
  function Wildcarded(search: string): (pattern: string)
    ensures |pattern| == |search| + 2
    ensures pattern[0] == '%' && pattern[|pattern| - 1] == '%'
    ensures pattern[1..|pattern| - 1] == search
  {
    "%" + search + "%"
  }

  /** The category constraint, when the category is set. */
  function CategoryPart(f: Filter): (p: seq<Constraint>)
    ensures |p| == (if Set(f.category) then 1 else 0)
    ensures forall c :: c in p <==> Set(f.category) && c == Eq("category", f.category.value)
  {
    if Set(f.category) then [Eq("category", f.category.value)] else []
  }

  /** The inclusive lower date bound, when the start date is set. */
  function StartPart(f: Filter): (p: seq<Constraint>)
    ensures |p| == (if Set(f.startDate) then 1 else 0)
    ensures forall c :: c in p <==> Set(f.startDate) && c == Gte("date", f.startDate.value)
  {
    if Set(f.startDate) then [Gte("date", f.startDate.value)] else []
  }

  /** The inclusive upper date bound, when the end date is set. */
  function EndPart(f: Filter): (p: seq<Constraint>)
    ensures |p| == (if Set(f.endDate) then 1 else 0)
    ensures forall c :: c in p <==> Set(f.endDate) && c == Lte("date", f.endDate.value)
  {
    if Set(f.endDate) then [Lte("date", f.endDate.value)] else []
  }

  /** The case-insensitive substring match, when the search is set. The
      search text is not escaped, so `%` and `_` in it stay wildcards. */
  function SearchPart(f: Filter): (p: seq<Constraint>)
    ensures |p| == (if Set(f.search) then 1 else 0)
    ensures forall c :: c in p <==> Set(f.search) && c == ILike("description", Wildcarded(f.search.value))
  {
    if Set(f.search) then [ILike("description", Wildcarded(f.search.value))] else []
  }

  /** The constraint list of criteria `f`, in the order the fetch adds them. */
  function Parts(f: Filter): seq<Constraint> {
    CategoryPart(f) + (StartPart(f) + (EndPart(f) + SearchPart(f)))
  }

  /** Builds the query of a fetch: newest date first, newest creation
      time first among equal dates; then category equality, date lower
      bound, date upper bound and description substring, in that order,
      each only when its field is set. */
  function BuildQuery(filter: Option<Filter>): (q: Query)
    ensures q.table == "expenses" && q.columns == "*"
    ensures q.ordering == [OrderBy("date", Descending), OrderBy("created_at", Descending)]
    ensures |q.constraints| == SetFieldCount(CriteriaOf(filter))
  {
    var f := CriteriaOf(filter);
    Query(
      "expenses",
      "*",
      [OrderBy("date", Descending), OrderBy("created_at", Descending)],
      Parts(f))
  }

  /** Each set field adds its own constraint and nothing else adds one:
      category equality, inclusive date bounds, and a description match
      against the search text wrapped in `%` wildcards. */
  lemma QueryConstraintsIff(filter: Option<Filter>)
    ensures forall v :: Eq("category", v) in BuildQuery(filter).constraints
                        <==> CriteriaOf(filter).category == Some(v) && v != ""
    ensures forall v :: Gte("date", v) in BuildQuery(filter).constraints
                        <==> CriteriaOf(filter).startDate == Some(v) && v != ""
    ensures forall v :: Lte("date", v) in BuildQuery(filter).constraints
                        <==> CriteriaOf(filter).endDate == Some(v) && v != ""
    ensures forall v :: ILike("description", Wildcarded(v)) in BuildQuery(filter).constraints
                        <==> CriteriaOf(filter).search == Some(v) && v != ""
    ensures forall c :: c in BuildQuery(filter).constraints ==> c in AllowedConstraints(CriteriaOf(filter))
  {
    var f := CriteriaOf(filter);
    assert BuildQuery(filter).constraints == Parts(f);
    CategoryIff(f);
    StartIff(f);
    EndIff(f);
    SearchIff(f);
    PartsAllowed(f);
  }

  lemma CategoryIff(f: Filter)
    ensures forall v :: Eq("category", v) in Parts(f) <==> f.category == Some(v) && v != ""
  {
  }

  lemma StartIff(f: Filter)
    ensures forall v :: Gte("date", v) in Parts(f) <==> f.startDate == Some(v) && v != ""
  {
  }

  lemma EndIff(f: Filter)
    ensures forall v :: Lte("date", v) in Parts(f) <==> f.endDate == Some(v) && v != ""
  {
  }

  lemma PartsAllowed(f: Filter)
    ensures forall c :: c in Parts(f) ==> c in AllowedConstraints(f)
  {
  }

  lemma SearchIff(f: Filter)
    ensures forall v :: ILike("description", Wildcarded(v)) in Parts(f) <==> f.search == Some(v) && v != ""
  {
    forall v | ILike("description", Wildcarded(v)) in Parts(f)
      ensures f.search == Some(v)
    {
      assert ILike("description", Wildcarded(v)) in SearchPart(f);
      assert Wildcarded(v) == Wildcarded(f.search.value);
    }
  }

  /** Every constraint a criteria value may contribute, set or not. */
  function AllowedConstraints(f: Filter): set<Constraint> {
    (if f.category.Some? then {Eq("category", f.category.value)} else {})
    + (if f.startDate.Some? then {Gte("date", f.startDate.value)} else {})
    + (if f.endDate.Some? then {Lte("date", f.endDate.value)} else {})
    + (if f.search.Some? then {ILike("description", Wildcarded(f.search.value))} else {})
  }

  /** The criteria with every unset field made absent. */
  function Normalize(f: Filter): (n: Filter)
    ensures SetFieldCount(n) == SetFieldCount(f)
    ensures n.category.Some? <==> Set(f.category)
    ensures n.startDate.Some? <==> Set(f.startDate)
    ensures n.endDate.Some? <==> Set(f.endDate)
    ensures n.search.Some? <==> Set(f.search)
  {
    Filter(
      if Set(f.category) then f.category else None,
      if Set(f.startDate) then f.startDate else None,
      if Set(f.endDate) then f.endDate else None,
      if Set(f.search) then f.search else None)
  }

  /** Reads the criteria back out of a constraint list; later constraints
      of the same form win. A pattern shorter than two characters cannot
      come from a wildcarded search and is read as an empty search. */
  function CriteriaFrom(cs: seq<Constraint>): Filter {
    if cs == [] then NoCriteria
    else
      var rest := CriteriaFrom(cs[1..]);
      match cs[0]
      case Eq(_, v) => if rest.category.Some? then rest else rest.(category := Some(v))
      case Gte(_, v) => if rest.startDate.Some? then rest else rest.(startDate := Some(v))
      case Lte(_, v) => if rest.endDate.Some? then rest else rest.(endDate := Some(v))
      case ILike(_, p) =>
        if rest.search.Some? then rest
        else rest.(search := Some(if |p| >= 2 then p[1..|p| - 1] else ""))
  }

  /** The query records exactly the set fields of the filter: reading the
      criteria back from the query gives the normalised criteria. */
  lemma CriteriaRoundTrip(filter: Option<Filter>)
    ensures CriteriaFrom(BuildQuery(filter).constraints) == Normalize(CriteriaOf(filter))
  {
    var f := CriteriaOf(filter);
    CriteriaFromParts(f);
  }

  lemma CriteriaFromParts(f: Filter)
    ensures CriteriaFrom(CategoryPart(f) + (StartPart(f) + (EndPart(f) + SearchPart(f)))) == Normalize(f)
  {
    var n := Normalize(f);
    var p1, p2, p3, p4 := CategoryPart(f), StartPart(f), EndPart(f), SearchPart(f);
    SearchStep(f);
    var r4 := NoCriteria.(search := n.search);
    EndStep(f, p4);
    var r3 := r4.(endDate := n.endDate);
    assert CriteriaFrom(p3 + p4) == r3;
    StartStep(f, p3 + p4);
    var r2 := r3.(startDate := n.startDate);
    assert CriteriaFrom(p2 + (p3 + p4)) == r2;
    CategoryStep(f, p2 + (p3 + p4));
    assert CriteriaFrom(p1 + (p2 + (p3 + p4))) == r2.(category := n.category) == n;
  }

  lemma SearchStep(f: Filter)
    ensures CriteriaFrom(SearchPart(f)) == NoCriteria.(search := Normalize(f).search)
  {
    if Set(f.search) {
      var p := SearchPart(f);
      assert p[1..] == [];
    }
  }

  lemma EndStep(f: Filter, rest: seq<Constraint>)
    requires CriteriaFrom(rest).endDate == None
    ensures CriteriaFrom(EndPart(f) + rest) == CriteriaFrom(rest).(endDate := Normalize(f).endDate)
  {
    if Set(f.endDate) {
      assert (EndPart(f) + rest)[1..] == rest;
    } else {
      assert EndPart(f) + rest == rest;
    }
  }

  lemma StartStep(f: Filter, rest: seq<Constraint>)
    requires CriteriaFrom(rest).startDate == None
    ensures CriteriaFrom(StartPart(f) + rest) == CriteriaFrom(rest).(startDate := Normalize(f).startDate)
  {
    if Set(f.startDate) {
      assert (StartPart(f) + rest)[1..] == rest;
    } else {
      assert StartPart(f) + rest == rest;
    }
  }

  lemma CategoryStep(f: Filter, rest: seq<Constraint>)
    requires CriteriaFrom(rest).category == None
    ensures CriteriaFrom(CategoryPart(f) + rest) == CriteriaFrom(rest).(category := Normalize(f).category)
  {
    if Set(f.category) {
      assert (CategoryPart(f) + rest)[1..] == rest;
    } else {
      assert CategoryPart(f) + rest == rest;
    }
  }

  /** Unset and absent fields are interchangeable: the query depends only
      on the normalised criteria. */
  lemma QueryIgnoresUnsetFields(filter: Option<Filter>)
    ensures BuildQuery(filter) == BuildQuery(Some(Normalize(CriteriaOf(filter))))
  {
  }

  /** Two filters build the same query exactly when they set the same
      fields to the same values. */
  lemma SameQueryIffSameCriteria(f: Option<Filter>, g: Option<Filter>)
    ensures BuildQuery(f) == BuildQuery(g) <==> Normalize(CriteriaOf(f)) == Normalize(CriteriaOf(g))
  {
    CriteriaRoundTrip(f);
    CriteriaRoundTrip(g);
    QueryIgnoresUnsetFields(f);
    QueryIgnoresUnsetFields(g);
  }

  /** Omitting the filter, passing an empty object, and passing only empty
      strings all build the unconstrained query. */
  lemma NoCriteriaNoConstraints()
    ensures BuildQuery(None) == BuildQuery(Some(NoCriteria))
    ensures BuildQuery(Some(Filter(Some(""), Some(""), Some(""), Some("")))) == BuildQuery(None)
    ensures BuildQuery(None).constraints == []
  {
  }
}
