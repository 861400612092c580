# ODK Aggregate: query builder, table ACL relation, JSON element formatter

This project models three pieces of ODK Aggregate in Dafny and proves
properties of the model.

- **ErModel** (`ermodel.dfy`) models the "simple" entity-relation query builder,
  `org.opendatakit.common.ermodel.simple.Query`.
  - A `Query` object is bound to one relation. Its builder methods validate an
    attribute name, resolve it against the relation's schema, and append a filter
    or a sort to the query's own state, `filters: seq<Filter>` and `sorts: seq<Sort>`.
  - The terminal operations hand that state to the datastore engine: `execute`,
    `execute(limit)`, `get`, `exists` and `getDistinct`.
  - The engine stands here as an abstract row store (`Store`). It answers a query
    with the stored rows that satisfy every filter, in storage order, cut to the
    limit; a limit of 0 means no limit. It can also be unreachable, which stands
    for any ODKDatastoreException.
- **DbTableAcl** (`dbtableacl.dfy`) models the ODK Tables access-control relation.
  - It has a fixed four-column schema: TABLE_ID, SCOPE_TYPE, SCOPE_VALUE and ROLE.
  - Its three queries and `getAcl` are built on the query builder, and are proved
    to select exactly the rows that reference definitions (`RowsWith`,
    `RowsWithout`) describe.
- **ElementFormat** (`elementformat.dfy`) models `JsonElementFormatter`.
  - The `format*` calls append to an append-only `Row`. Mostly they append
    `"name":"value"` fragments. Two cases append a bare value instead: a combined
    GPS point, and the null that `formatBinary` appends for a missing submission
    or one without attachments. `formatUid` and `formatRepeats` append nothing,
    and `formatBinary` sometimes appends nothing.
  - Read-back functions (`ParsePair`, `Split`, `DigitsValue`) serve as inverses, so
    what is appended can be proved to decode to the inputs.
- `wrappers.dfy` holds `Option`, `Result` and `Outcome` (pass or a thrown exception).

Java `null` is modelled as `None` or as `VNull`. A thrown exception is modelled as a
`Failure`/`Fail` result:
- `IllegalArgument` for `Check.notNullOrEmpty`;
- `UnknownAttribute` for `getDataField` on a name outside the schema;
- `DatastoreException` for `ODKDatastoreException`;
- `NullPointerException` for a null GPS coordinate that is dereferenced.

Where a javadoc and the code disagree, the model follows the code.
- The javadoc of `get()` (Query.java:204-211) says it throws when the query
  matches more than one entity. The code asks the engine for at most one row, so
  it never does (see Findings). `Get` and `GetAcl` keep the behaviour as written.
  `GetUnique` and `GetAclUnique` are the corrected versions, which reject a
  second match.
- The javadoc of `DbTableAcl.getAcl` (DbTableAcl.java:84) says it returns null
  when no ACL exists. The code calls `get()`, which throws in that case.
  `GetAcl` states the throw. No member models the documented null result.

## Model

| member | source | states |
|---|---|---|
| ErModel.DataField.SetIndexable | src/main/java/org/opendatakit/aggregate/odktables/relation/DbTableAcl.java:44 | defined as the stand-in for `DataField.setIndexable`: the same column with only its index type replaced |
| ErModel.FindField | src/main/java/org/opendatakit/common/ermodel/simple/Query.java:131 | a column is found exactly when the schema holds one of that name, and it is a schema column with that name |
| ErModel.GetDataField | src/main/java/org/opendatakit/common/ermodel/simple/Query.java:131 | succeeds iff the relation holds the name, yielding a column of that name; otherwise fails with UnknownAttribute(name) |
| ErModel.ResolveAttribute | src/main/java/org/opendatakit/common/ermodel/simple/Query.java:129-131 | a null or empty name fails with IllegalArgument("attributeName") before any lookup; an unknown one fails with UnknownAttribute; success exactly for a non-empty name in the schema |
| ErModel.CheckInclude | src/main/java/org/opendatakit/common/ermodel/simple/Query.java:197-199 | checks in source order: the name first, then a null or empty value collection (IllegalArgument("values")), then the lookup |
| ErModel.FromEntity | src/main/java/org/opendatakit/common/ermodel/simple/Query.java:272 | defined as the stand-in for `Entity.fromEntity`: the relation's name paired with exactly the row's values |
| ErModel.ExecuteQuery | src/main/java/org/opendatakit/common/ermodel/simple/Query.java:267-268 | the engine's error passes through; otherwise a prefix of the rows matching every filter, min(limit, matches) long, all of them for limit 0 |
| ErModel.ExecuteDistinct | src/main/java/org/opendatakit/common/ermodel/simple/Query.java:293 | the engine's error passes through; otherwise the column's values over the matching rows, each exactly once |
| ErModel.Select | src/main/java/org/opendatakit/common/ermodel/simple/Query.java:267-268 | the engine's rows are stored rows satisfying every filter, and every such row is among them; never more rows than stored |
| ErModel.Limit | src/main/java/org/opendatakit/common/ermodel/simple/Query.java:251-268 | a prefix of the selection; all of it for limit 0, otherwise min(limit, size) rows |
| ErModel.Distinct | src/main/java/org/opendatakit/common/ermodel/simple/Query.java:293 | holds the same values as its input and no value twice |
| ErModel.SelectNoFilters | src/main/java/org/opendatakit/common/ermodel/simple/Query.java:28-33 | a freshly created query, with no filters, selects every stored row in order |
| ErModel.SelectSnoc | src/main/java/org/opendatakit/common/ermodel/simple/Query.java:126-134 | appending a filter narrows the previous selection by that filter, keeping order: filters combine by conjunction |
| ErModel.SelectSnocMembers | src/main/java/org/opendatakit/common/ermodel/simple/Query.java:126-134 | a row survives a new filter iff it passed the earlier ones and satisfies the new one |
| ErModel.IncludeMembers | src/main/java/org/opendatakit/common/ermodel/simple/Query.java:195-202 | after include(name, values) a row is selected iff it was before and its column value is one of values |
| ErModel.DistinctMembers | src/main/java/org/opendatakit/common/ermodel/simple/Query.java:287-298 | a value is among the distinct values iff some stored row matching every filter holds it in that column |
| ErModel.LimitOneHidesDuplicates | src/main/java/org/opendatakit/common/ermodel/simple/Query.java:214-224 | execute(1) yields at most one row; with two or more matches it yields only the first |
| ErModel.DuplicateRowsExample | src/main/java/org/opendatakit/common/ermodel/simple/Query.java:214-224 | two identical matching rows, answered with one row by a limit-1 query |
| ErModel.Query.constructor | src/main/java/org/opendatakit/common/ermodel/simple/Query.java:28-33 | a new query on the relation with no filters and no sorts |
| ErModel.Query.Equal | src/main/java/org/opendatakit/common/ermodel/simple/Query.java:45-48 | on a resolvable name appends exactly one EQUAL filter on that column and returns this query; otherwise fails with the resolution's error and leaves the filters as they were; sorts never change |
| ErModel.Query.GreaterThan | src/main/java/org/opendatakit/common/ermodel/simple/Query.java:60-63 | as Equal, with GREATER_THAN |
| ErModel.Query.GreaterThanOrEqual | src/main/java/org/opendatakit/common/ermodel/simple/Query.java:76-80 | as Equal, with GREATER_THAN_OR_EQUAL |
| ErModel.Query.LessThan | src/main/java/org/opendatakit/common/ermodel/simple/Query.java:92-95 | as Equal, with LESS_THAN |
| ErModel.Query.LessThanOrEqual | src/main/java/org/opendatakit/common/ermodel/simple/Query.java:108-112 | as Equal, with LESS_THAN_OR_EQUAL |
| ErModel.Query.NotEqual | src/main/java/org/opendatakit/aggregate/odktables/relation/DbTableAcl.java:72 | as Equal, with NOT_EQUAL (the operator queryNotEqual calls) |
| ErModel.Query.AddFilter | src/main/java/org/opendatakit/common/ermodel/simple/Query.java:126-134 | validation precedes mutation: success iff the name resolves, then exactly one filter appended; a rejected call changes nothing |
| ErModel.Query.SortAscending | src/main/java/org/opendatakit/common/ermodel/simple/Query.java:144-147 | on a resolvable name appends one ASCENDING sort and returns this query; filters never change |
| ErModel.Query.SortDescending | src/main/java/org/opendatakit/common/ermodel/simple/Query.java:157-160 | on a resolvable name appends one DESCENDING sort and returns this query; filters never change |
| ErModel.Query.AddSort | src/main/java/org/opendatakit/common/ermodel/simple/Query.java:172-179 | success iff the name resolves, then exactly one sort appended; a rejected call changes nothing |
| ErModel.Query.Include | src/main/java/org/opendatakit/common/ermodel/simple/Query.java:195-202 | succeeds iff the include checks pass, then appends one value-set filter with those values; otherwise the check's error and no change |
| ErModel.Query.Execute | src/main/java/org/opendatakit/common/ermodel/simple/Query.java:265-276 | fails iff the engine fails, with its error; otherwise one entity per engine row in order, at most limit of them, each from a stored row matching every filter, and with limit 0 every matching row is present |
| ErModel.Query.ExecuteAll | src/main/java/org/opendatakit/common/ermodel/simple/Query.java:251-254 | fails iff the store is unreachable, with the engine's DatastoreException passed through; otherwise the entities of all matching rows in storage order |
| ErModel.Query.Exists | src/main/java/org/opendatakit/common/ermodel/simple/Query.java:232-242 | true iff some stored row satisfies every filter; fails iff the store is unreachable, with the engine's DatastoreException passed through |
| ErModel.Query.Get | src/main/java/org/opendatakit/common/ermodel/simple/Query.java:212-226 | as written: no match fails with the "no results" error; otherwise the first matching row's entity, even when several rows match |
| ErModel.Query.GetUnique | src/main/java/org/opendatakit/common/ermodel/simple/Query.java:212-226 | as documented: no match and several matches fail with their messages; exactly one match yields that entity |
| ErModel.Query.GetDistinct | src/main/java/org/opendatakit/common/ermodel/simple/Query.java:287-298 | argument and lookup errors propagate; a datastore failure is answered with an empty list; otherwise no repeated value, and a value appears iff some matching row holds it |
| DbTableAcl.InitDataFields | src/main/java/org/opendatakit/aggregate/odktables/relation/DbTableAcl.java:41-48 | four STRING columns TABLE_ID, SCOPE_TYPE, SCOPE_VALUE, ROLE in that order; only SCOPE_VALUE is nullable and only TABLE_ID has a HASH index |
| DbTableAcl.ResolveAclColumn | src/main/java/org/opendatakit/aggregate/odktables/relation/DbTableAcl.java:43-47 | each schema column's name resolves to that very column, so the builder calls on the ACL relation cannot fail |
| DbTableAcl.RowsWithMembers | src/main/java/org/opendatakit/aggregate/odktables/relation/DbTableAcl.java:57 | a row is in RowsWith iff it is stored and holds the value in that column |
| DbTableAcl.RowsWithoutMembers | src/main/java/org/opendatakit/aggregate/odktables/relation/DbTableAcl.java:72 | a row is in RowsWithout iff it is stored and does not hold the value in that column |
| DbTableAcl.WhereEqual | src/main/java/org/opendatakit/aggregate/odktables/relation/DbTableAcl.java:57 | the engine's selection for one EQUAL filter is the reference RowsWith |
| DbTableAcl.WhereNotEqual | src/main/java/org/opendatakit/aggregate/odktables/relation/DbTableAcl.java:72 | the engine's selection for one NOT_EQUAL filter is the reference RowsWithout |
| DbTableAcl.SelectEqual1 | src/main/java/org/opendatakit/aggregate/odktables/relation/DbTableAcl.java:55-59 | one equality filter selects RowsWith of that column and value |
| DbTableAcl.SelectEqual2 | src/main/java/org/opendatakit/aggregate/odktables/relation/DbTableAcl.java:61-67 | two equality filters select the rows holding both values, in storage order |
| DbTableAcl.SelectEqual3 | src/main/java/org/opendatakit/aggregate/odktables/relation/DbTableAcl.java:87-96 | three equality filters select the rows holding all three values, in storage order |
| DbTableAcl.EqualColumn | src/main/java/org/opendatakit/aggregate/odktables/relation/DbTableAcl.java:90-92 | equal(column, value) on the ACL relation always appends the EQUAL filter for that schema column |
| DbTableAcl.QueryTable | src/main/java/org/opendatakit/aggregate/odktables/relation/DbTableAcl.java:55-59 | fails iff the store is unreachable, with the engine's DatastoreException; otherwise the entities of exactly the rows of that table, in order |
| DbTableAcl.QueryScope | src/main/java/org/opendatakit/aggregate/odktables/relation/DbTableAcl.java:61-67 | fails iff the store is unreachable, with the engine's DatastoreException; otherwise the entities of exactly the rows of that table and scope type, in order |
| DbTableAcl.QueryNotEqual | src/main/java/org/opendatakit/aggregate/odktables/relation/DbTableAcl.java:69-75 | fails iff the store is unreachable, with the engine's DatastoreException; otherwise the entities of exactly the rows whose ROLE differs from the role's name; none of them holds that role |
| DbTableAcl.GetAcl | src/main/java/org/opendatakit/aggregate/odktables/relation/DbTableAcl.java:87-96 | as written: an unreachable store and no matching row both throw (never null); otherwise the entity of the first row matching table, scope type and scope value, even when several match |
| DbTableAcl.GetAclUnique | src/main/java/org/opendatakit/aggregate/odktables/relation/DbTableAcl.java:87-96 | over the corrected `get()`: no match and two or more matches throw with their messages; exactly one match yields its entity |
| DbTableAcl.AclRelation | src/main/java/org/opendatakit/aggregate/odktables/relation/DbTableAcl.java:50-53 | the TABLE_ACL relation in its namespace, with four columns whose names are pairwise distinct |
| ElementFormat.LongText | src/org/opendatakit/aggregate/format/element/JsonElementFormatter.java:166-168 | Long.toString: a leading minus sign exactly for a negative number, then decimal digits without a leading zero |
| ElementFormat.NaturalText | src/org/opendatakit/aggregate/format/element/JsonElementFormatter.java:166-168 | decimal digits only, at least one, no leading zero |
| ElementFormat.NaturalTextValue | src/org/opendatakit/aggregate/format/element/JsonElementFormatter.java:166-168 | the digits read back as the number |
| ElementFormat.LongTextValue | src/org/opendatakit/aggregate/format/element/JsonElementFormatter.java:166-168 | Long.toString starts with '-' exactly for negative numbers, and its digits read back as the magnitude |
| ElementFormat.ParseJsonPair | src/org/opendatakit/aggregate/format/element/JsonElementFormatter.java:181-196 | a fragment whose name holds no quote reads back as that name and value (null included) |
| ElementFormat.PairOfParse | src/org/opendatakit/aggregate/format/element/JsonElementFormatter.java:181-196 | whatever reads back as a pair is exactly that pair's fragment, and its name holds no quote |
| ElementFormat.JoinSnoc | src/org/opendatakit/aggregate/format/element/JsonElementFormatter.java:108-114 | appending one more part adds exactly one separator and the part |
| ElementFormat.SplitJoin | src/org/opendatakit/aggregate/format/element/JsonElementFormatter.java:104-116 | parts free of a one-character separator are recovered by splitting the joined text |
| ElementFormat.ChoiceTexts | src/org/opendatakit/aggregate/format/element/JsonElementFormatter.java:113 | defined as what `StringBuilder.append` adds per choice: one text per choice, "null" for a null one |
| ElementFormat.ChoicesReadBack | src/org/opendatakit/aggregate/format/element/JsonElementFormatter.java:104-116 | choices holding no space are recovered from the space-joined value |
| ElementFormat.SeparatedEntriesReadBack | src/org/opendatakit/aggregate/format/element/JsonElementFormatter.java:132-146 | the separated GPS layout has two entries plus one per included extra, each reading back as the suffixed name and its coordinate |
| ElementFormat.Row.constructor | src/org/opendatakit/aggregate/format/element/JsonElementFormatter.java:25 | the assumed starting state of the imported `Row` collaborator: no formatted values |
| ElementFormat.Row.AddFormattedValue | src/org/opendatakit/aggregate/format/element/JsonElementFormatter.java:83 | appends exactly one value and keeps every earlier one |
| ElementFormat.JsonElementFormatter.constructor | src/org/opendatakit/aggregate/format/element/JsonElementFormatter.java:67-72 | the three GPS options are kept as given |
| ElementFormat.JsonElementFormatter.FormatUid | src/org/opendatakit/aggregate/format/element/JsonElementFormatter.java:75-77 | the row is left unchanged |
| ElementFormat.JsonElementFormatter.FormatBinary | src/org/opendatakit/aggregate/format/element/JsonElementFormatter.java:80-95 | no submission or no attachment appends null; exactly one attachment with a non-empty blob appends its Base64 fragment; a single empty or missing blob, or several attachments, append nothing |
| ElementFormat.JsonElementFormatter.FormatBoolean | src/org/opendatakit/aggregate/format/element/JsonElementFormatter.java:98-101 | appends one fragment with "true"/"false", or a null value |
| ElementFormat.JsonElementFormatter.FormatChoices | src/org/opendatakit/aggregate/format/element/JsonElementFormatter.java:104-116 | appends one fragment whose value is the choices joined by single spaces, with no leading or trailing space |
| ElementFormat.JsonElementFormatter.FormatDate | src/org/opendatakit/aggregate/format/element/JsonElementFormatter.java:119-122 | appends one fragment with the date's text, or a null value |
| ElementFormat.JsonElementFormatter.FormatDecimal | src/org/opendatakit/aggregate/format/element/JsonElementFormatter.java:125-128 | appends one fragment with the decimal's text, or a null value |
| ElementFormat.JsonElementFormatter.FormatGeoPoint | src/org/opendatakit/aggregate/format/element/JsonElementFormatter.java:131-163 | a null point throws and appends nothing; separated: the separated entries; combined: null without latitude or longitude, otherwise "lat, long[, alt][, acc]", throwing with nothing appended when an included extra is null |
| ElementFormat.JsonElementFormatter.AddSeparated | src/org/opendatakit/aggregate/format/element/JsonElementFormatter.java:132-146 | appends exactly the separated entries, in order latitude, longitude, altitude, accuracy |
| ElementFormat.JsonElementFormatter.AddCombined | src/org/opendatakit/aggregate/format/element/JsonElementFormatter.java:147-161 | appends the comma-and-space-joined coordinates, or null, or throws with the row unchanged |
| ElementFormat.JsonElementFormatter.FormatLong | src/org/opendatakit/aggregate/format/element/JsonElementFormatter.java:166-168 | appends one fragment with the number's decimal text, or a null value |
| ElementFormat.JsonElementFormatter.FormatRepeats | src/org/opendatakit/aggregate/format/element/JsonElementFormatter.java:171-174 | the row is left unchanged |
| ElementFormat.JsonElementFormatter.FormatString | src/org/opendatakit/aggregate/format/element/JsonElementFormatter.java:177-179 | appends one fragment with the string, or a null value |
| ElementFormat.JsonElementFormatter.AddToJsonValueToRow | src/org/opendatakit/aggregate/format/element/JsonElementFormatter.java:181-196 | appends exactly one entry, `"name":"value"` or `"name":` for null, and nothing else |

## Left out

- The datastore engine is abstract. Its storage order stands in for whatever order it returns rows in.
- Sorts are recorded on the query, but the abstract engine does not apply them to the result order.
- Entity.fromEntity is modelled as pairing the relation's name with the row. The Entity class is not part of this model.
- The `Relation` constructor, `createQuery` and `getRelation` are taken not to fail. Their own datastore errors are not modelled, and neither is `Check.notNull(relation)`, since a `relation` argument is never null here.
- `Check.notNull(op)` and `Check.notNull(direction)` are left out. `addFilter` and `addSort` are private, and every caller passes an enumeration constant (Query.java:47, 62, 78, 94, 110, 146, 159), so those checks cannot fail.
- ErModel.Query.Execute: the limit is a `nat`, so a negative Java `int` limit is not modelled.
- ErModel.Query.NotEqual: `notEqual` is not defined in the query builder shown in the source; it is assumed to behave like the other comparison methods.
- The CallingContext argument and the query's debug label are dropped, because they do not affect the result.
- DbTableAcl.NAMESPACE is a placeholder: the value of RUtil.NAMESPACE is not part of this model.
- The values of the BasicConsts, FormatConsts and GeoPoint constants are assumed as `"`, `:`, `,`, a space, the empty string, `-`, `Latitude`, `Longitude`, `Altitude` and `Accuracy`. Those classes are not part of this model.
- `Date.toString` and `BigDecimal.toString` are carried as the text inside `Date` and `Decimal`, not computed.
- Base64 encoding is a function parameter of FormatBinary, not an implementation.
- `getBlob` cannot fail in the model, so its ODKDatastoreException is not modelled.
- A null property name is not modelled: the name is a `string`. In the source, `StringBuilder.append` and string concatenation render a null name as the text "null", giving a `"null":…` fragment.
- A null choices list is not modelled. It would throw NullPointerException in `formatChoices`.
- DbTableAcl.QueryNotEqual: takes the role's name, so a null role, which throws NullPointerException at `role.name()`, is not modelled.
- ErModel.StringLess orders strings by Unicode code point. Java's `compareTo` compares UTF-16 code units, so the two orders differ for characters above U+FFFF against characters from U+E000 to U+FFFF.
- No JSON escaping exists in the source. ParseJsonPair therefore needs a property name free of quotes, and a value that holds quotes produces a fragment that is not valid JSON.
- The `Row` class (org.opendatakit.aggregate.format.Row) is not part of this model. It is taken to be an append-only list of formatted values that starts out empty.
- A formatter's fields are `const`, because nothing after the constructor changes them.

## Findings

| source | as written | input that shows it | evidently intended | confidence | as-written member | corrected member |
|---|---|---|---|---|---|---|
| src/main/java/org/opendatakit/common/ermodel/simple/Query.java:214-224 | `get()` calls `execute(1)`, so the engine returns at most one row and the "more than one result" check can never fire | a store holding two identical rows matching the query: `get()` returns the first instead of failing | fetch at least two rows (`execute(2)`) so a second match is seen and rejected | not executed | ErModel.Query.Get, DbTableAcl.GetAcl, ErModel.LimitOneHidesDuplicates, ErModel.DuplicateRowsExample | ErModel.Query.GetUnique, DbTableAcl.GetAclUnique |
