/** The "simple" entity-relation query builder of ODK Aggregate
    (org.opendatakit.common.ermodel.simple.Query).

    A `Query` is bound to one relation and accumulates filters and sorts;
    its terminal operations hand them to the datastore engine and turn the
    engine's rows into entities. The engine is not part of this model: it
    stands here as an abstract row store (`Store`) whose answer to a query is
    the list of stored rows that satisfy every filter, in storage order, cut
    to the limit. */
module ErModel {
  import opened Wrappers

  // ---------------------------------------------------------------------
  // Schema and data
  // ---------------------------------------------------------------------

  /** A value held in a column, or passed as a filter argument (Java `null`
      is `VNull`). */
  datatype Value = VNull | VString(s: string) | VInteger(i: int)

  datatype DataType = STRING | INTEGER

  datatype IndexType = NONE | HASH

  /** One column of a relation, as `new DataField(name, type, nullable)`. */
  datatype DataField = DataField(name: string, dataType: DataType, nullable: bool, indexType: IndexType)
  {
    /** `setIndexable(type)`: the same field with the given index, returned for chaining. */
    function SetIndexable(t: IndexType): (f: DataField)
      ensures f.name == name && f.dataType == dataType && f.nullable == nullable
      ensures f.indexType == t
    {
      this.(indexType := t)
    }
  }

  /** A named schema: its identity is (namespace, name), its columns are ordered. */
  datatype Relation = Relation(namespace: string, name: string, fields: seq<DataField>)

  /** A raw row of the engine: column name to value. A column the row does
      not hold reads as `VNull`. */
  type Row = map<string, Value>

  /** The materialised entity of one engine row (`Entity.fromEntity`). */
  datatype Entity = Entity(relationName: string, values: Row)

  /** NOT_EQUAL is not declared by the query builder itself; it is the extra
      operator that DbTableAcl.queryNotEqual relies on. */
  datatype FilterOperation =
    | EQUAL | NOT_EQUAL | GREATER_THAN | GREATER_THAN_OR_EQUAL | LESS_THAN | LESS_THAN_OR_EQUAL

  datatype Direction = ASCENDING | DESCENDING

  datatype Filter =
    | Compare(field: DataField, op: FilterOperation, value: Value)
    | ValueSet(field: DataField, values: seq<Value>)

  datatype Sort = Sort(field: DataField, direction: Direction)

  /** The exceptions the builder lets through. */
  datatype Error =
    | IllegalArgument(parameter: string)   // Check.notNullOrEmpty on a null or empty argument
    | UnknownAttribute(name: string)       // relation.getDataField on a name outside the schema
    | DatastoreException(message: string)  // ODKDatastoreException

  const NO_RESULTS := "called get() and query results contained no results"
  const MORE_THAN_ONE := "called get() and query results contained more than one result"
  /** Stands for whatever failure the engine reports when it cannot be reached. */
  const UNREACHABLE := "datastore unreachable"

  /** The datastore as the engine sees it at execution time. */
  datatype Store = Store(rows: seq<Row>, reachable: bool)

  /** `Entity.fromEntity`: the entity keeps the relation's name and the row's
      values, so distinct rows never materialise as the same entity. */
  function FromEntity(relation: Relation, row: Row): (e: Entity)
    ensures e.relationName == relation.name && e.values == row
  {
    Entity(relation.name, row)
  }

  /** `entities` is `rows` materialised one for one and in order. */
  predicate Materializes(relation: Relation, rows: seq<Row>, entities: seq<Entity>)
  {
    |entities| == |rows| &&
    forall i :: 0 <= i < |rows| ==> entities[i] == FromEntity(relation, rows[i])
  }

  // ---------------------------------------------------------------------
  // Resolving attribute names
  // ---------------------------------------------------------------------

  predicate HasField(relation: Relation, name: string)
  {
    exists i :: 0 <= i < |relation.fields| && relation.fields[i].name == name
  }

  /** The first column of `fields` called `name`. */
  function FindField(fields: seq<DataField>, name: string): (r: Option<DataField>)
    ensures r.Some? ==> r.value in fields && r.value.name == name
    ensures r.None? <==> forall i :: 0 <= i < |fields| ==> fields[i].name != name
  {
    if fields == [] then None
    else if fields[0].name == name then Some(fields[0])
    else FindField(fields[1..], name)
  }

  /** A field is found by its own name when no earlier field shares it. */
  lemma {:induction false} FindFieldAt(fields: seq<DataField>, i: nat)
    requires i < |fields|
    requires forall j :: 0 <= j < i ==> fields[j].name != fields[i].name
    ensures FindField(fields, fields[i].name) == Some(fields[i])
  {
    if i > 0 {
      FindFieldAt(fields[1..], i - 1);
    }
  }

  /** `relation.getDataField(name)`: fails on a name the schema does not hold. */
  function GetDataField(relation: Relation, name: string): (r: Result<DataField, Error>)
    ensures r.Success? <==> HasField(relation, name)
    ensures r.Success? ==> r.value in relation.fields && r.value.name == name
    ensures r.Failure? ==> r.error == UnknownAttribute(name)
  {
    match FindField(relation.fields, name)
    case Some(f) => Success(f)
    case None => Failure(UnknownAttribute(name))
  }

  /** The argument check and lookup every builder call starts with:
      `Check.notNullOrEmpty(attributeName)` and then `getDataField`. */
  function ResolveAttribute(relation: Relation, attributeName: Option<string>): (r: Result<DataField, Error>)
    ensures (attributeName.None? || attributeName.value == "") ==> r == Failure(IllegalArgument("attributeName"))
    ensures attributeName.Some? && attributeName.value != "" && !HasField(relation, attributeName.value) ==>
              r == Failure(UnknownAttribute(attributeName.value))
    ensures r.Success? <==> attributeName.Some? && attributeName.value != "" && HasField(relation, attributeName.value)
    ensures r.Success? ==> r.value in relation.fields && r.value.name == attributeName.value
  {
    if attributeName.None? || attributeName.value == "" then Failure(IllegalArgument("attributeName"))
    else GetDataField(relation, attributeName.value)
  }

  /** The checks of `include`: the name first, then the value collection,
      then the lookup. */
  function CheckInclude(relation: Relation, attributeName: Option<string>, values: Option<seq<Value>>): (r: Result<DataField, Error>)
    ensures (attributeName.None? || attributeName.value == "") ==> r == Failure(IllegalArgument("attributeName"))
    ensures attributeName.Some? && attributeName.value != "" && (values.None? || values.value == []) ==>
              r == Failure(IllegalArgument("values"))
    ensures r.Success? <==>
              attributeName.Some? && attributeName.value != "" && values.Some? && values.value != [] &&
              HasField(relation, attributeName.value)
    ensures r.Success? ==> r == ResolveAttribute(relation, attributeName)
  {
    if attributeName.None? || attributeName.value == "" then Failure(IllegalArgument("attributeName"))
    else if values.None? || values.value == [] then Failure(IllegalArgument("values"))
    else GetDataField(relation, attributeName.value)
  }

  // ---------------------------------------------------------------------
  // The engine: which rows a list of filters selects
  // ---------------------------------------------------------------------

  /** The value a row holds in the column called `name`; a column the row
      does not hold reads as `VNull`. */
  function ColumnValue(row: Row, name: string): Value
  {
    if name in row then row[name] else VNull
  }

  function FieldValue(row: Row, field: DataField): Value
  {
    ColumnValue(row, field.name)
  }

  /** Lexicographic order on strings, character by character, comparing
      Unicode code points. */
  predicate StringLess(a: string, b: string)
  {
    if a == [] then b != []
    else if b == [] then false
    else if a[0] != b[0] then a[0] < b[0]
    else StringLess(a[1..], b[1..])
  }

  /** Ordering comparisons hold only between two integers or two strings. */
  predicate ValueLess(a: Value, b: Value)
  {
    match (a, b)
    case (VInteger(x), VInteger(y)) => x < y
    case (VString(x), VString(y)) => StringLess(x, y)
    case _ => false
  }

  predicate Satisfies(row: Row, filter: Filter)
  {
    match filter
    case ValueSet(f, vs) => FieldValue(row, f) in vs
    case Compare(f, op, v) =>
      var x := FieldValue(row, f);
      match op
      case EQUAL => x == v
      case NOT_EQUAL => x != v
      case GREATER_THAN => ValueLess(v, x)
      case GREATER_THAN_OR_EQUAL => ValueLess(v, x) || x == v
      case LESS_THAN => ValueLess(x, v)
      case LESS_THAN_OR_EQUAL => ValueLess(x, v) || x == v
  }

  predicate MatchesAll(row: Row, filters: seq<Filter>)
  {
    forall i :: 0 <= i < |filters| ==> Satisfies(row, filters[i])
  }

  /** The rows that satisfy every filter, in storage order. */
  function Select(rows: seq<Row>, filters: seq<Filter>): (r: seq<Row>)
    ensures |r| <= |rows|
    ensures forall row :: row in r ==> row in rows && MatchesAll(row, filters)
    ensures forall row :: row in rows && MatchesAll(row, filters) ==> row in r
  {
    if rows == [] then []
    else
      var rest := Select(rows[1..], filters);
      if MatchesAll(rows[0], filters) then [rows[0]] + rest else rest
  }

  /** The rows that satisfy one filter, in storage order. */
  function Where(rows: seq<Row>, filter: Filter): seq<Row>
  {
    if rows == [] then []
    else if Satisfies(rows[0], filter) then [rows[0]] + Where(rows[1..], filter)
    else Where(rows[1..], filter)
  }

  /** A limit of 0 means no limit; otherwise at most the first `limit` rows. */
  function Limit(rows: seq<Row>, limit: nat): (r: seq<Row>)
    ensures |r| <= |rows| && r == rows[..|r|]
    ensures limit == 0 ==> r == rows
    ensures limit > 0 ==> |r| == if |rows| < limit then |rows| else limit
  {
    if limit == 0 || |rows| <= limit then rows else rows[..limit]
  }

  /** `relation.executeQuery(query, limit)`: the engine's error passes through
      unchanged; otherwise the first rows that satisfy every filter, in
      storage order, at most `limit` of them and all of them for 0. */
  function ExecuteQuery(store: Store, filters: seq<Filter>, limit: nat): (r: Result<seq<Row>, Error>)
    ensures r.Failure? <==> !store.reachable
    ensures r.Failure? ==> r.error == DatastoreException(UNREACHABLE)
    ensures r.Success? ==> |r.value| <= |Select(store.rows, filters)|
    ensures r.Success? ==> r.value == Select(store.rows, filters)[..|r.value|]
    ensures r.Success? && limit > 0 ==> |r.value| == if |Select(store.rows, filters)| < limit then |Select(store.rows, filters)| else limit
    ensures r.Success? && limit == 0 ==> r.value == Select(store.rows, filters)
    ensures r.Success? ==> forall row :: row in r.value ==> row in store.rows && MatchesAll(row, filters)
  {
    if store.reachable then Success(Limit(Select(store.rows, filters), limit))
    else Failure(DatastoreException(UNREACHABLE))
  }

  /** The values of one column across `rows`, in order. */
  function Project(rows: seq<Row>, field: DataField): (r: seq<Value>)
    ensures |r| == |rows|
    ensures forall i :: 0 <= i < |rows| ==> r[i] == FieldValue(rows[i], field)
  {
    seq(|rows|, i requires 0 <= i < |rows| => FieldValue(rows[i], field))
  }

  /** `vs` without repetitions, each value at its first occurrence. */
  function Distinct(vs: seq<Value>): (r: seq<Value>)
    ensures forall v :: v in r <==> v in vs
    ensures forall i, j :: 0 <= i < j < |r| ==> r[i] != r[j]
  {
    if vs == [] then []
    else
      var rest := Distinct(vs[..|vs| - 1]);
      assert vs == vs[..|vs| - 1] + [vs[|vs| - 1]];
      if vs[|vs| - 1] in rest then rest else rest + [vs[|vs| - 1]]
  }

  /** `query.executeDistinctValueForDataField(field)`: the engine's error
      passes through; otherwise the column's values over the matching rows,
      each once. */
  function ExecuteDistinct(store: Store, filters: seq<Filter>, field: DataField): (r: Result<seq<Value>, Error>)
    ensures r.Failure? <==> !store.reachable
    ensures r.Failure? ==> r.error == DatastoreException(UNREACHABLE)
    ensures r.Success? ==> forall i, j :: 0 <= i < j < |r.value| ==> r.value[i] != r.value[j]
    ensures r.Success? ==> forall v :: v in r.value <==> v in Project(Select(store.rows, filters), field)
  {
    if store.reachable then Success(Distinct(Project(Select(store.rows, filters), field)))
    else Failure(DatastoreException(UNREACHABLE))
  }

  // ---------------------------------------------------------------------
  // Lemmas about the engine
  // ---------------------------------------------------------------------

  lemma MatchesAllSnoc(row: Row, filters: seq<Filter>, filter: Filter)
    ensures MatchesAll(row, filters + [filter]) <==> MatchesAll(row, filters) && Satisfies(row, filter)
  {
    var fs := filters + [filter];
    if MatchesAll(row, filters) && Satisfies(row, filter) {
      forall i | 0 <= i < |fs| ensures Satisfies(row, fs[i]) {
        if i < |filters| { assert fs[i] == filters[i]; }
      }
    }
    if MatchesAll(row, fs) {
      assert Satisfies(row, fs[|filters|]);
      forall i | 0 <= i < |filters| ensures Satisfies(row, filters[i]) {
        assert fs[i] == filters[i];
      }
    }
  }

  /** With no filters the engine selects every row. */
  lemma {:induction false} SelectNoFilters(rows: seq<Row>)
    ensures Select(rows, []) == rows
  {
    if rows != [] {
      SelectNoFilters(rows[1..]);
    }
  }

  /** Adding a filter narrows the selection of earlier filters by that one
      filter, keeping the order: filters accumulate. */
  lemma {:induction false} SelectSnoc(rows: seq<Row>, filters: seq<Filter>, filter: Filter)
    ensures Select(rows, filters + [filter]) == Where(Select(rows, filters), filter)
  {
    if rows != [] {
      SelectSnoc(rows[1..], filters, filter);
      MatchesAllSnoc(rows[0], filters, filter);
      var rest := Select(rows[1..], filters);
      if MatchesAll(rows[0], filters) {
        assert Select(rows, filters) == [rows[0]] + rest;
        assert ([rows[0]] + rest)[1..] == rest;
      }
    }
  }

  /** A row passes a freshly added filter exactly when it passed the earlier
      filters and satisfies the new one. */
  lemma SelectSnocMembers(rows: seq<Row>, filters: seq<Filter>, filter: Filter, row: Row)
    ensures row in Select(rows, filters + [filter]) <==> row in Select(rows, filters) && Satisfies(row, filter)
  {
    MatchesAllSnoc(row, filters, filter);
  }

  /** After `include(name, values)` a row is selected only if its value for
      that column is one of `values`. */
  lemma IncludeMembers(rows: seq<Row>, filters: seq<Filter>, field: DataField, values: seq<Value>, row: Row)
    ensures row in Select(rows, filters + [ValueSet(field, values)]) <==>
              row in Select(rows, filters) && FieldValue(row, field) in values
  {
    SelectSnocMembers(rows, filters, ValueSet(field, values), row);
  }

  /** The distinct values are exactly the column values of the rows that
      satisfy every filter. */
  lemma DistinctMembers(rows: seq<Row>, filters: seq<Filter>, field: DataField, v: Value)
    ensures v in Distinct(Project(Select(rows, filters), field)) <==>
              exists row :: row in rows && MatchesAll(row, filters) && FieldValue(row, field) == v
  {
    var sel := Select(rows, filters);
    var p := Project(sel, field);
    if v in p {
      var k :| 0 <= k < |p| && p[k] == v;
      assert sel[k] in rows && MatchesAll(sel[k], filters);
    }
    if exists row :: row in rows && MatchesAll(row, filters) && FieldValue(row, field) == v {
      var row :| row in rows && MatchesAll(row, filters) && FieldValue(row, field) == v;
      var k :| 0 <= k < |sel| && sel[k] == row;
      assert p[k] == v;
    }
  }

  /** A limit of one never lets more than one row through, so two stored rows
      with the same key reach `get()` as a single row. */
  lemma LimitOneHidesDuplicates(store: Store, filters: seq<Filter>)
    requires store.reachable
    ensures |ExecuteQuery(store, filters, 1).value| <= 1
    ensures |Select(store.rows, filters)| >= 2 ==> ExecuteQuery(store, filters, 1).value == [Select(store.rows, filters)[0]]
  {
  }

  /** A concrete case: two identical rows, both selected, yet the engine
      answers a limit-1 query with one of them. */
  lemma DuplicateRowsExample()
    ensures var row := map["TABLE_ID" := VString("t1")];
            var store := Store([row, row], true);
            |Select(store.rows, [])| == 2 && ExecuteQuery(store, [], 1) == Success([row])
  {
    var row := map["TABLE_ID" := VString("t1")];
    SelectNoFilters([row, row]);
  }

  // ---------------------------------------------------------------------
  // The builder
  // ---------------------------------------------------------------------

  class Query {
    /** The relation to query. */
    const relation: Relation
    /** The filters handed to the underlying datastore query, in call order. */
    var filters: seq<Filter>
    /** The sorts handed to the underlying datastore query, in call order. */
    var sorts: seq<Sort>

    constructor (relation: Relation)
      ensures this.relation == relation && filters == [] && sorts == []
    {
      this.relation := relation;
      filters := [];
      sorts := [];
    }

    method Equal(attributeName: Option<string>, value: Value) returns (r: Result<Query, Error>)
      modifies this
      ensures r.Success? <==> ResolveAttribute(relation, attributeName).Success?
      ensures r.Success? ==> r.value == this
      ensures r.Success? ==> filters == old(filters) + [Compare(ResolveAttribute(relation, attributeName).value, EQUAL, value)]
      ensures r.Failure? ==> r.error == ResolveAttribute(relation, attributeName).error && filters == old(filters)
      ensures sorts == old(sorts)
    {
      r := AddFilter(attributeName, EQUAL, value);
    }

    method GreaterThan(attributeName: Option<string>, value: Value) returns (r: Result<Query, Error>)
      modifies this
      ensures r.Success? <==> ResolveAttribute(relation, attributeName).Success?
      ensures r.Success? ==> r.value == this
      ensures r.Success? ==> filters == old(filters) + [Compare(ResolveAttribute(relation, attributeName).value, GREATER_THAN, value)]
      ensures r.Failure? ==> r.error == ResolveAttribute(relation, attributeName).error && filters == old(filters)
      ensures sorts == old(sorts)
    {
      r := AddFilter(attributeName, GREATER_THAN, value);
    }

    method GreaterThanOrEqual(attributeName: Option<string>, value: Value) returns (r: Result<Query, Error>)
      modifies this
      ensures r.Success? <==> ResolveAttribute(relation, attributeName).Success?
      ensures r.Success? ==> r.value == this
      ensures r.Success? ==> filters == old(filters) + [Compare(ResolveAttribute(relation, attributeName).value, GREATER_THAN_OR_EQUAL, value)]
      ensures r.Failure? ==> r.error == ResolveAttribute(relation, attributeName).error && filters == old(filters)
      ensures sorts == old(sorts)
    {
      r := AddFilter(attributeName, GREATER_THAN_OR_EQUAL, value);
    }

    method LessThan(attributeName: Option<string>, value: Value) returns (r: Result<Query, Error>)
      modifies this
      ensures r.Success? <==> ResolveAttribute(relation, attributeName).Success?
      ensures r.Success? ==> r.value == this
      ensures r.Success? ==> filters == old(filters) + [Compare(ResolveAttribute(relation, attributeName).value, LESS_THAN, value)]
      ensures r.Failure? ==> r.error == ResolveAttribute(relation, attributeName).error && filters == old(filters)
      ensures sorts == old(sorts)
    {
      r := AddFilter(attributeName, LESS_THAN, value);
    }

    method LessThanOrEqual(attributeName: Option<string>, value: Value) returns (r: Result<Query, Error>)
      modifies this
      ensures r.Success? <==> ResolveAttribute(relation, attributeName).Success?
      ensures r.Success? ==> r.value == this
      ensures r.Success? ==> filters == old(filters) + [Compare(ResolveAttribute(relation, attributeName).value, LESS_THAN_OR_EQUAL, value)]
      ensures r.Failure? ==> r.error == ResolveAttribute(relation, attributeName).error && filters == old(filters)
      ensures sorts == old(sorts)
    {
      r := AddFilter(attributeName, LESS_THAN_OR_EQUAL, value);
    }

    /** The operator DbTableAcl.queryNotEqual calls; it is assumed to behave
        like the other comparison methods. */
    method NotEqual(attributeName: Option<string>, value: Value) returns (r: Result<Query, Error>)
      modifies this
      ensures r.Success? <==> ResolveAttribute(relation, attributeName).Success?
      ensures r.Success? ==> r.value == this
      ensures r.Success? ==> filters == old(filters) + [Compare(ResolveAttribute(relation, attributeName).value, NOT_EQUAL, value)]
      ensures r.Failure? ==> r.error == ResolveAttribute(relation, attributeName).error && filters == old(filters)
      ensures sorts == old(sorts)
    {
      r := AddFilter(attributeName, NOT_EQUAL, value);
    }

    /** Checks the name, resolves it, appends one filter and returns this
        query; a rejected call changes nothing. */
    method AddFilter(attributeName: Option<string>, op: FilterOperation, value: Value) returns (r: Result<Query, Error>)
      modifies this
      ensures r.Success? <==> ResolveAttribute(relation, attributeName).Success?
      ensures r.Success? ==> r.value == this
      ensures r.Success? ==> filters == old(filters) + [Compare(ResolveAttribute(relation, attributeName).value, op, value)]
      ensures r.Failure? ==> r.error == ResolveAttribute(relation, attributeName).error && filters == old(filters)
      ensures sorts == old(sorts)
    {
      if attributeName.None? || attributeName.value == "" {
        return Failure(IllegalArgument("attributeName"));
      }
      var attribute := GetDataField(relation, attributeName.value);
      if attribute.Failure? {
        return Failure(attribute.error);
      }
      filters := filters + [Compare(attribute.value, op, value)];
      r := Success(this);
    }

    method SortAscending(attributeName: Option<string>) returns (r: Result<Query, Error>)
      modifies this
      ensures r.Success? <==> ResolveAttribute(relation, attributeName).Success?
      ensures r.Success? ==> r.value == this
      ensures r.Success? ==> sorts == old(sorts) + [Sort(ResolveAttribute(relation, attributeName).value, ASCENDING)]
      ensures r.Failure? ==> r.error == ResolveAttribute(relation, attributeName).error && sorts == old(sorts)
      ensures filters == old(filters)
    {
      r := AddSort(attributeName, ASCENDING);
    }

    method SortDescending(attributeName: Option<string>) returns (r: Result<Query, Error>)
      modifies this
      ensures r.Success? <==> ResolveAttribute(relation, attributeName).Success?
      ensures r.Success? ==> r.value == this
      ensures r.Success? ==> sorts == old(sorts) + [Sort(ResolveAttribute(relation, attributeName).value, DESCENDING)]
      ensures r.Failure? ==> r.error == ResolveAttribute(relation, attributeName).error && sorts == old(sorts)
      ensures filters == old(filters)
    {
      r := AddSort(attributeName, DESCENDING);
    }

    method AddSort(attributeName: Option<string>, direction: Direction) returns (r: Result<Query, Error>)
      modifies this
      ensures r.Success? <==> ResolveAttribute(relation, attributeName).Success?
      ensures r.Success? ==> r.value == this
      ensures r.Success? ==> sorts == old(sorts) + [Sort(ResolveAttribute(relation, attributeName).value, direction)]
      ensures r.Failure? ==> r.error == ResolveAttribute(relation, attributeName).error && sorts == old(sorts)
      ensures filters == old(filters)
    {
      if attributeName.None? || attributeName.value == "" {
        return Failure(IllegalArgument("attributeName"));
      }
      var attribute := GetDataField(relation, attributeName.value);
      if attribute.Failure? {
        return Failure(attribute.error);
      }
      sorts := sorts + [Sort(attribute.value, direction)];
      r := Success(this);
    }

    /** Narrows the query to rows whose value for the attribute is among `values`. */
    method Include(attributeName: Option<string>, values: Option<seq<Value>>) returns (r: Result<Query, Error>)
      modifies this
      ensures r.Success? <==> CheckInclude(relation, attributeName, values).Success?
      ensures r.Success? ==> r.value == this
      ensures r.Success? ==> filters == old(filters) + [ValueSet(CheckInclude(relation, attributeName, values).value, values.value)]
      ensures r.Failure? ==> r.error == CheckInclude(relation, attributeName, values).error && filters == old(filters)
      ensures sorts == old(sorts)
    {
      if attributeName.None? || attributeName.value == "" {
        return Failure(IllegalArgument("attributeName"));
      }
      if values.None? || values.value == [] {
        return Failure(IllegalArgument("values"));
      }
      var attribute := GetDataField(relation, attributeName.value);
      if attribute.Failure? {
        return Failure(attribute.error);
      }
      filters := filters + [ValueSet(attribute.value, values.value)];
      r := Success(this);
    }

    /** Runs the query with a limit (0 for none) and materialises every row
        the engine returns, one for one and in order. */
    method Execute(store: Store, limit: nat) returns (r: Result<seq<Entity>, Error>)
      ensures r.Failure? <==> ExecuteQuery(store, filters, limit).Failure?
      ensures r.Failure? ==> r.error == ExecuteQuery(store, filters, limit).error
      ensures r.Success? ==> Materializes(relation, ExecuteQuery(store, filters, limit).value, r.value)
      ensures r.Success? && limit > 0 ==> |r.value| <= limit
      ensures r.Success? ==> forall e :: e in r.value ==> e.values in store.rows && MatchesAll(e.values, filters)
      ensures r.Success? && limit == 0 ==>
                forall row :: row in store.rows && MatchesAll(row, filters) ==> FromEntity(relation, row) in r.value
    {
      var engineRows := ExecuteQuery(store, filters, limit);
      if engineRows.Failure? {
        return Failure(engineRows.error);
      }
      var rows := engineRows.value;
      var entities: seq<Entity> := [];
      for i := 0 to |rows|
        invariant |entities| == i
        invariant forall k :: 0 <= k < i ==> entities[k] == FromEntity(relation, rows[k])
      {
        entities := entities + [FromEntity(relation, rows[i])];
      }
      r := Success(entities);
      forall e | e in entities
        ensures e.values in store.rows && MatchesAll(e.values, filters)
      {
        var k :| 0 <= k < |entities| && entities[k] == e;
        assert rows[k] in Select(store.rows, filters);
      }
      if limit == 0 {
        forall row | row in store.rows && MatchesAll(row, filters)
          ensures FromEntity(relation, row) in entities
        {
          var k :| 0 <= k < |rows| && rows[k] == row;
          assert entities[k] == FromEntity(relation, row);
        }
      }
    }

    /** `execute()`: the same as `execute(0)`, every matching row. */
    method ExecuteAll(store: Store) returns (r: Result<seq<Entity>, Error>)
      ensures r.Failure? <==> !store.reachable
      ensures r.Failure? ==> r.error == DatastoreException(UNREACHABLE)
      ensures r.Success? ==> Materializes(relation, Select(store.rows, filters), r.value)
    {
      r := Execute(store, 0);
    }

    /** True when the query has at least one result. */
    method Exists(store: Store) returns (r: Result<bool, Error>)
      ensures r.Failure? <==> !store.reachable
      ensures r.Failure? ==> r.error == DatastoreException(UNREACHABLE)
      ensures r.Success? ==> (r.value <==> exists row :: row in store.rows && MatchesAll(row, filters))
    {
      var results := ExecuteAll(store);
      if results.Failure? {
        return Failure(results.error);
      }
      if results.value == [] {
        r := Success(false);
      } else {
        r := Success(true);
        assert Select(store.rows, filters)[0] in Select(store.rows, filters);
      }
    }

    /** `get()` as written: it runs `execute(1)`, so the engine never returns
        more than one row and the "more than one result" check cannot fire;
        with several matching rows it returns the first. */
    method Get(store: Store) returns (r: Result<Entity, Error>)
      ensures !store.reachable ==> r == Failure(DatastoreException(UNREACHABLE))
      ensures store.reachable && Select(store.rows, filters) == [] ==> r == Failure(DatastoreException(NO_RESULTS))
      ensures store.reachable && Select(store.rows, filters) != [] ==>
                r == Success(FromEntity(relation, Select(store.rows, filters)[0]))
    {
      var results := Execute(store, 1);
      if results.Failure? {
        return Failure(results.error);
      }
      if results.value == [] {
        return Failure(DatastoreException(NO_RESULTS));
      }
      if |results.value| > 1 {
        return Failure(DatastoreException(MORE_THAN_ONE));
      }
      r := Success(results.value[0]);
    }

    /** `get()` as its documentation describes it: a limit of two lets the
        size check see a second match and reject it. */
    method GetUnique(store: Store) returns (r: Result<Entity, Error>)
      ensures !store.reachable ==> r == Failure(DatastoreException(UNREACHABLE))
      ensures store.reachable && |Select(store.rows, filters)| == 0 ==> r == Failure(DatastoreException(NO_RESULTS))
      ensures store.reachable && |Select(store.rows, filters)| > 1 ==> r == Failure(DatastoreException(MORE_THAN_ONE))
      ensures store.reachable && |Select(store.rows, filters)| == 1 ==>
                r == Success(FromEntity(relation, Select(store.rows, filters)[0]))
    {
      var results := Execute(store, 2);
      if results.Failure? {
        return Failure(results.error);
      }
      if results.value == [] {
        return Failure(DatastoreException(NO_RESULTS));
      }
      if |results.value| > 1 {
        return Failure(DatastoreException(MORE_THAN_ONE));
      }
      r := Success(results.value[0]);
    }

    /** The distinct values of one column among the matching rows. A
        datastore failure is swallowed and answered with an empty list; the
        argument check and the lookup still fail. */
    method GetDistinct(store: Store, attributeName: Option<string>) returns (r: Result<seq<Value>, Error>)
      ensures ResolveAttribute(relation, attributeName).Failure? ==>
                r == Failure(ResolveAttribute(relation, attributeName).error)
      ensures ResolveAttribute(relation, attributeName).Success? && !store.reachable ==> r == Success([])
      ensures ResolveAttribute(relation, attributeName).Success? && store.reachable ==>
                r.Success? &&
                (forall i, j :: 0 <= i < j < |r.value| ==> r.value[i] != r.value[j]) &&
                forall v :: v in r.value <==>
                  exists row :: row in store.rows && MatchesAll(row, filters) &&
                                FieldValue(row, ResolveAttribute(relation, attributeName).value) == v
    {
      if attributeName.None? || attributeName.value == "" {
        return Failure(IllegalArgument("attributeName"));
      }
      var dataField := GetDataField(relation, attributeName.value);
      if dataField.Failure? {
        return Failure(dataField.error);
      }
      var distinct := ExecuteDistinct(store, filters, dataField.value);
      match distinct
      case Failure(_) =>
        r := Success([]);
      case Success(vs) =>
        r := Success(vs);
        forall v
          ensures v in vs <==>
                    exists row :: row in store.rows && MatchesAll(row, filters) && FieldValue(row, dataField.value) == v
        {
          DistinctMembers(store.rows, filters, dataField.value, v);
        }
    }
  }
}
