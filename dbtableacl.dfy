/** The access-control relation of ODK Tables
    (org.opendatakit.aggregate.odktables.relation.DbTableAcl): a fixed
    four-column schema and the lookups built on the query builder. */
module DbTableAcl {
  import opened Wrappers
  import opened ErModel

  const TABLE_ID := "TABLE_ID"
  const SCOPE_TYPE := "SCOPE_TYPE"
  const SCOPE_VALUE := "SCOPE_VALUE"
  const ROLE := "ROLE"

  const RELATION_NAME := "TABLE_ACL"
  /** Stands for RUtil.NAMESPACE, whose value is not part of this model. */
  const NAMESPACE := "RUTIL_NAMESPACE"

  /** The value of the static `dataFields` list once it is initialised. */
  function DataFields(): seq<DataField>
  {
    [ DataField(TABLE_ID, STRING, false, NONE).SetIndexable(HASH),
      DataField(SCOPE_TYPE, STRING, false, NONE),
      DataField(SCOPE_VALUE, STRING, true, NONE),
      DataField(ROLE, STRING, false, NONE) ]
  }

  /** The static initialiser: four STRING columns in a fixed order; only
      SCOPE_VALUE is nullable and only TABLE_ID carries a hash index. */
  method InitDataFields() returns (fields: seq<DataField>)
    ensures fields == DataFields()
    ensures |fields| == 4
    ensures fields[0].name == TABLE_ID && fields[1].name == SCOPE_TYPE
    ensures fields[2].name == SCOPE_VALUE && fields[3].name == ROLE
    ensures forall i :: 0 <= i < |fields| ==> fields[i].dataType == STRING
    ensures forall i :: 0 <= i < |fields| ==> (fields[i].nullable <==> fields[i].name == SCOPE_VALUE)
    ensures forall i :: 0 <= i < |fields| ==> (fields[i].indexType == HASH <==> fields[i].name == TABLE_ID)
  {
    fields := [];
    fields := fields + [DataField(TABLE_ID, STRING, false, NONE).SetIndexable(HASH)];
    fields := fields + [DataField(SCOPE_TYPE, STRING, false, NONE)];
    fields := fields + [DataField(SCOPE_VALUE, STRING, true, NONE)];
    fields := fields + [DataField(ROLE, STRING, false, NONE)];
  }

  /** `getRelation`: the TABLE_ACL relation over `dataFields`, whose four
      column names are pairwise distinct. */
  function AclRelation(): (r: Relation)
    ensures r.namespace == NAMESPACE && r.name == RELATION_NAME
    ensures |r.fields| == 4
    ensures forall i, j :: 0 <= i < j < |r.fields| ==> r.fields[i].name != r.fields[j].name
  {
    Relation(NAMESPACE, RELATION_NAME, DataFields())
  }

  /** Each ACL column name resolves to its own entry of `dataFields`. */
  lemma ResolveAclColumn(i: nat)
    requires i < 4
    ensures ResolveAttribute(AclRelation(), Some(DataFields()[i].name)) == Success(DataFields()[i])
  {
    var fs := DataFields();
    assert forall j :: 0 <= j < i ==> fs[j].name != fs[i].name;
    FindFieldAt(fs, i);
  }

  /** A Java string argument as a filter value (`null` is `VNull`). */
  function StringValue(s: Option<string>): Value
  {
    match s
    case Some(x) => VString(x)
    case None => VNull
  }

  /** Reference definition: the rows whose column `name` holds `v`, in order. */
  function RowsWith(rows: seq<Row>, name: string, v: Value): (r: seq<Row>)
  {
    if rows == [] then []
    else if ColumnValue(rows[0], name) == v then [rows[0]] + RowsWith(rows[1..], name, v)
    else RowsWith(rows[1..], name, v)
  }

  /** Reference definition: the rows whose column `name` does not hold `v`, in order. */
  function RowsWithout(rows: seq<Row>, name: string, v: Value): (r: seq<Row>)
  {
    if rows == [] then []
    else if ColumnValue(rows[0], name) != v then [rows[0]] + RowsWithout(rows[1..], name, v)
    else RowsWithout(rows[1..], name, v)
  }

  lemma RowsWithMembers(rows: seq<Row>, name: string, v: Value, row: Row)
    ensures row in RowsWith(rows, name, v) <==> row in rows && ColumnValue(row, name) == v
  {
  }

  lemma RowsWithoutMembers(rows: seq<Row>, name: string, v: Value, row: Row)
    ensures row in RowsWithout(rows, name, v) <==> row in rows && ColumnValue(row, name) != v
  {
  }

  lemma {:induction false} WhereEqual(rows: seq<Row>, field: DataField, v: Value)
    ensures Where(rows, Compare(field, EQUAL, v)) == RowsWith(rows, field.name, v)
  {
    if rows != [] {
      WhereEqual(rows[1..], field, v);
    }
  }

  lemma {:induction false} WhereNotEqual(rows: seq<Row>, field: DataField, v: Value)
    ensures Where(rows, Compare(field, NOT_EQUAL, v)) == RowsWithout(rows, field.name, v)
  {
    if rows != [] {
      WhereNotEqual(rows[1..], field, v);
    }
  }

  /** Equality filters added one after another select the rows that hold
      every value, in storage order. */
  lemma SelectEqual1(rows: seq<Row>, f1: DataField, v1: Value)
    ensures Select(rows, [Compare(f1, EQUAL, v1)]) == RowsWith(rows, f1.name, v1)
  {
    SelectNoFilters(rows);
    assert [] + [Compare(f1, EQUAL, v1)] == [Compare(f1, EQUAL, v1)];
    SelectSnoc(rows, [], Compare(f1, EQUAL, v1));
    WhereEqual(rows, f1, v1);
  }

  lemma SelectEqual2(rows: seq<Row>, f1: DataField, v1: Value, f2: DataField, v2: Value)
    ensures Select(rows, [Compare(f1, EQUAL, v1), Compare(f2, EQUAL, v2)]) ==
              RowsWith(RowsWith(rows, f1.name, v1), f2.name, v2)
  {
    SelectEqual1(rows, f1, v1);
    assert [Compare(f1, EQUAL, v1), Compare(f2, EQUAL, v2)] == [Compare(f1, EQUAL, v1)] + [Compare(f2, EQUAL, v2)];
    SelectSnoc(rows, [Compare(f1, EQUAL, v1)], Compare(f2, EQUAL, v2));
    WhereEqual(RowsWith(rows, f1.name, v1), f2, v2);
  }

  lemma SelectEqual3(rows: seq<Row>, f1: DataField, v1: Value, f2: DataField, v2: Value, f3: DataField, v3: Value)
    ensures Select(rows, [Compare(f1, EQUAL, v1), Compare(f2, EQUAL, v2), Compare(f3, EQUAL, v3)]) ==
              RowsWith(RowsWith(RowsWith(rows, f1.name, v1), f2.name, v2), f3.name, v3)
  {
    SelectEqual2(rows, f1, v1, f2, v2);
    var two := [Compare(f1, EQUAL, v1), Compare(f2, EQUAL, v2)];
    assert [Compare(f1, EQUAL, v1), Compare(f2, EQUAL, v2), Compare(f3, EQUAL, v3)] == two + [Compare(f3, EQUAL, v3)];
    SelectSnoc(rows, two, Compare(f3, EQUAL, v3));
    WhereEqual(Select(rows, two), f3, v3);
  }

  /** The rows `getAcl` looks at: one table, one scope type, one scope value. */
  function AclMatches(rows: seq<Row>, tableId: Option<string>, scopeType: Option<string>, scopeValue: Option<string>): seq<Row>
  {
    RowsWith(RowsWith(RowsWith(rows, TABLE_ID, StringValue(tableId)), SCOPE_TYPE, StringValue(scopeType)),
             SCOPE_VALUE, StringValue(scopeValue))
  }

  /** `query.equal(column, value)` on the ACL relation for the column at
      position `i` of the schema; the name is in the schema, so the call
      cannot fail. */
  method EqualColumn(query: Query, i: nat, v: Value)
    requires i < 4 && query.relation == AclRelation()
    modifies query
    ensures query.filters == old(query.filters) + [Compare(DataFields()[i], EQUAL, v)]
    ensures query.sorts == old(query.sorts)
  {
    ResolveAclColumn(i);
    var _ := query.Equal(Some(DataFields()[i].name), v);
  }

  /** `query(tableId)`: every ACL row of the table, no limit. */
  method QueryTable(store: Store, tableId: Option<string>) returns (r: Result<seq<Entity>, Error>)
    ensures r.Failure? <==> !store.reachable
    ensures r.Failure? ==> r.error == DatastoreException(UNREACHABLE)
    ensures r.Success? ==> Materializes(AclRelation(), RowsWith(store.rows, TABLE_ID, StringValue(tableId)), r.value)
  {
    var query := new Query(AclRelation());
    EqualColumn(query, 0, StringValue(tableId));
    ghost var f1 := Compare(DataFields()[0], EQUAL, StringValue(tableId));
    assert query.filters == [f1];
    r := query.ExecuteAll(store);
    SelectEqual1(store.rows, DataFields()[0], StringValue(tableId));
  }

  /** `query(tableId, scopeType)`: the ACL rows of one table and scope type. */
  method QueryScope(store: Store, tableId: Option<string>, scopeType: Option<string>) returns (r: Result<seq<Entity>, Error>)
    ensures r.Failure? <==> !store.reachable
    ensures r.Failure? ==> r.error == DatastoreException(UNREACHABLE)
    ensures r.Success? ==>
              Materializes(AclRelation(),
                           RowsWith(RowsWith(store.rows, TABLE_ID, StringValue(tableId)), SCOPE_TYPE, StringValue(scopeType)),
                           r.value)
  {
    var query := new Query(AclRelation());
    EqualColumn(query, 0, StringValue(tableId));
    ghost var f1 := Compare(DataFields()[0], EQUAL, StringValue(tableId));
    assert query.filters == [f1];
    EqualColumn(query, 1, StringValue(scopeType));
    ghost var f2 := Compare(DataFields()[1], EQUAL, StringValue(scopeType));
    assert query.filters == [f1, f2];
    r := query.ExecuteAll(store);
    SelectEqual2(store.rows, DataFields()[0], StringValue(tableId), DataFields()[1], StringValue(scopeType));
  }

  /** `queryNotEqual(role)`: the ACL rows whose ROLE is not `role.name()`. */
  method QueryNotEqual(store: Store, roleName: string) returns (r: Result<seq<Entity>, Error>)
    ensures r.Failure? <==> !store.reachable
    ensures r.Failure? ==> r.error == DatastoreException(UNREACHABLE)
    ensures r.Success? ==> Materializes(AclRelation(), RowsWithout(store.rows, ROLE, VString(roleName)), r.value)
    ensures r.Success? ==> forall e :: e in r.value ==> ColumnValue(e.values, ROLE) != VString(roleName)
  {
    ResolveAclColumn(3);
    var query := new Query(AclRelation());
    var ne := query.NotEqual(Some(ROLE), VString(roleName));
    var filter := Compare(DataFields()[3], NOT_EQUAL, VString(roleName));
    assert query.filters == [] + [filter];
    r := query.ExecuteAll(store);
    SelectNoFilters(store.rows);
    SelectSnoc(store.rows, [], filter);
    WhereNotEqual(store.rows, DataFields()[3], VString(roleName));
    if r.Success? {
      forall e | e in r.value
        ensures ColumnValue(e.values, ROLE) != VString(roleName)
      {
        var k :| 0 <= k < |r.value| && r.value[k] == e;
        RowsWithoutMembers(store.rows, ROLE, VString(roleName), e.values);
      }
    }
  }

  /** `getAcl` as written: the ACL entity for one table and scope. It never
      yields a null entity: with no matching row it raises through `get()`;
      with several matching rows it returns the first, since `get()` only
      ever sees one. */
  method GetAcl(store: Store, tableId: Option<string>, scopeType: Option<string>, scopeValue: Option<string>)
    returns (r: Result<Entity, Error>)
    ensures !store.reachable ==> r == Failure(DatastoreException(UNREACHABLE))
    ensures store.reachable && AclMatches(store.rows, tableId, scopeType, scopeValue) == [] ==>
              r == Failure(DatastoreException(NO_RESULTS))
    ensures store.reachable && AclMatches(store.rows, tableId, scopeType, scopeValue) != [] ==>
              r == Success(FromEntity(AclRelation(), AclMatches(store.rows, tableId, scopeType, scopeValue)[0]))
  {
    var query := new Query(AclRelation());
    EqualColumn(query, 0, StringValue(tableId));
    ghost var f1 := Compare(DataFields()[0], EQUAL, StringValue(tableId));
    assert query.filters == [f1];
    EqualColumn(query, 1, StringValue(scopeType));
    ghost var f2 := Compare(DataFields()[1], EQUAL, StringValue(scopeType));
    assert query.filters == [f1, f2];
    EqualColumn(query, 2, StringValue(scopeValue));
    ghost var f3 := Compare(DataFields()[2], EQUAL, StringValue(scopeValue));
    assert query.filters == [f1, f2, f3];
    SelectEqual3(store.rows, DataFields()[0], StringValue(tableId), DataFields()[1], StringValue(scopeType),
                 DataFields()[2], StringValue(scopeValue));
    assert Select(store.rows, query.filters) == AclMatches(store.rows, tableId, scopeType, scopeValue);
    r := query.Get(store);
  }

  /** `getAcl` over the corrected `get()`: a key held by two or more rows is
      rejected instead of answered with the first of them. */
  method GetAclUnique(store: Store, tableId: Option<string>, scopeType: Option<string>, scopeValue: Option<string>)
    returns (r: Result<Entity, Error>)
    ensures !store.reachable ==> r == Failure(DatastoreException(UNREACHABLE))
    ensures store.reachable && |AclMatches(store.rows, tableId, scopeType, scopeValue)| == 0 ==>
              r == Failure(DatastoreException(NO_RESULTS))
    ensures store.reachable && |AclMatches(store.rows, tableId, scopeType, scopeValue)| > 1 ==>
              r == Failure(DatastoreException(MORE_THAN_ONE))
    ensures store.reachable && |AclMatches(store.rows, tableId, scopeType, scopeValue)| == 1 ==>
              r == Success(FromEntity(AclRelation(), AclMatches(store.rows, tableId, scopeType, scopeValue)[0]))
  {
    var query := new Query(AclRelation());
    EqualColumn(query, 0, StringValue(tableId));
    ghost var f1 := Compare(DataFields()[0], EQUAL, StringValue(tableId));
    assert query.filters == [f1];
    EqualColumn(query, 1, StringValue(scopeType));
    ghost var f2 := Compare(DataFields()[1], EQUAL, StringValue(scopeType));
    assert query.filters == [f1, f2];
    EqualColumn(query, 2, StringValue(scopeValue));
    ghost var f3 := Compare(DataFields()[2], EQUAL, StringValue(scopeValue));
    assert query.filters == [f1, f2, f3];
    SelectEqual3(store.rows, DataFields()[0], StringValue(tableId), DataFields()[1], StringValue(scopeType),
                 DataFields()[2], StringValue(scopeValue));
    assert Select(store.rows, query.filters) == AclMatches(store.rows, tableId, scopeType, scopeValue);
    r := query.GetUnique(store);
  }
}
