/** The query-projection resolver of `packages/medusa/src/utils/get-query-config.ts`.

    `prepareListQuery` turns a validated client request (`fields`, `expand`,
    `order`, `limit`, `offset`) and a per-resource configuration into a list
    descriptor (`select`, `relations`, `skip`, `take`, `order`) and a
    remote-query descriptor (a flat field list with `"<relation>.*"` markers
    and a pagination block), or fails with an `INVALID_DATA` error naming the
    offending fields. `prepareRetrieveQuery` reuses it without pagination, and
    `pickByConfig` projects a record onto the selected keys.

    The functions below are the specification of each step; the methods follow
    the source's loops over mutable sets and are proved to compute the same. */
module GetQueryConfig {
  import opened Wrappers
  import opened Strings
  import opened OrderedSets

  /** `limit = 50`: the destructuring default of the request's limit. */
  const DefaultRequestLimit := 50

  /** A request value that may be left out (`undefined`) or sent as `null`;
      the destructuring defaults of the source apply only to `undefined`. */
  datatype Nullable<T> = Undefined | Null | Value(value: T)

  /** The validated request; `fields`, `expand` and `order` are comma- or
      dash-separated strings when present. */
  datatype Request = Request(
    fields: Option<string>,
    expand: Option<string>,
    order: Option<string>,
    limit: Nullable<int>,
    offset: Nullable<int>)

  /** The per-resource configuration. `allowed` and `defaults` are the legacy
      names of `allowedFields` and `defaultFields`; a missing array is empty and
      a missing `isList` is false. */
  datatype QueryConfig = QueryConfig(
    allowed: seq<string>,
    defaults: seq<string>,
    defaultFields: seq<string>,
    defaultLimit: Option<int>,
    allowedFields: seq<string>,
    allowedRelations: seq<string>,
    defaultRelations: seq<string>,
    isList: bool)

  /** What the external `stringToSelectRelationObject` returns for a field list. */
  datatype SelectRelation = SelectRelation(select: seq<string>, relations: seq<string>)

  datatype Direction = Asc | Desc

  /** The two `INVALID_DATA` errors the resolver raises. */
  datatype QueryError =
    | FieldsNotValid(fields: seq<string>)
    | OrderFieldNotValid(field: string)

  datatype ListConfig = ListConfig(
    select: Option<seq<string>>,
    relations: seq<string>,
    skip: Nullable<int>,
    take: Nullable<int>,
    order: map<string, Direction>)

  /** The remote query's pagination block; `{}` is `NoPagination`. */
  datatype Pagination =
    | Paginate(skip: Nullable<int>, take: Nullable<int>, order: map<string, Direction>)
    | NoPagination

  datatype RemoteQueryConfig = RemoteQueryConfig(fields: seq<string>, pagination: Pagination)

  datatype ListQuery = ListQuery(listConfig: ListConfig, remoteQueryConfig: RemoteQueryConfig)

  datatype RetrieveConfig = RetrieveConfig(select: Option<seq<string>>, relations: seq<string>)

  datatype RetrieveQuery = RetrieveQuery(retrieveConfig: RetrieveConfig, remoteQueryConfig: RemoteQueryConfig)

  /** The text of the error the source throws. */
  function Message(e: QueryError): string {
    match e
    case FieldsNotValid(fields) => "Requested fields [" + Join(fields, ", ") + "] are not valid"
    case OrderFieldNotValid(field) => "Order field " + field + " is not valid"
  }

  // ---------------------------------------------------------------------------
  // Configuration aliases

  /** `allowed.length ? allowed : allowedFields` */
  function AllowedFields(c: QueryConfig): seq<string> {
    if |c.allowed| > 0 then c.allowed else c.allowedFields
  }

  /** `defaults.length ? defaults : defaultFields` */
  function DefaultFields(c: QueryConfig): seq<string> {
    if |c.defaults| > 0 then c.defaults else c.defaultFields
  }

  // ---------------------------------------------------------------------------
  // Requested fields

  /** The pieces of a comma-separated request value, empty pieces dropped. */
  function Tokens(s: string): seq<string> {
    NonEmpty(Split(s, ','))
  }

  predicate HasModifier(token: string) {
    StartsWithChar(token, '-') || StartsWithChar(token, '+') || StartsWithChar(token, '*')
  }

  /** The requested fields replace the defaults when there are none, or when
      any of them carries no `+`, `-` or `*` modifier. */
  predicate ShouldReplace(customFields: seq<string>) {
    |customFields| == 0 || exists i :: 0 <= i < |customFields| && !HasModifier(customFields[i])
  }

  /** `field.replace(/^[+-]/, "")`: at most one leading sign removed. */
  function StripSign(field: string): string {
    if StartsWithChar(field, '+') || StartsWithChar(field, '-') then field[1..] else field
  }

  function StripSigns(fields: seq<string>): (r: seq<string>)
    ensures |r| == |fields|
    ensures forall i :: 0 <= i < |r| ==> r[i] == StripSign(fields[i])
  {
    if fields == [] then [] else [StripSign(fields[0])] + StripSigns(fields[1..])
  }

  /** One step of the incremental edit: `+x` adds `x`, `-x` deletes `x`, and
      any other token (a `*` one) is added as it is. */
  function ApplyModifier(allFields: seq<string>, field: string): seq<string> {
    if StartsWithChar(field, '+') then Add(allFields, field[1..])
    else if StartsWithChar(field, '-') then Delete(allFields, field[1..])
    else Add(allFields, field)
  }

  /** The incremental edit applied token by token, in request order. */
  function ApplyModifiers(allFields: seq<string>, customFields: seq<string>): (r: seq<string>)
    ensures NoDups(allFields) ==> NoDups(r)
    decreases |customFields|
  {
    if customFields == [] then allFields
    else
      var n := |customFields| - 1;
      ApplyModifier(ApplyModifiers(allFields, customFields[..n]), customFields[n])
  }

  /** The field set before the star fields are moved out: the defaults, edited
      or replaced by the requested fields, with `created_at` (for lists) and
      `id` forced in when fields were requested. */
  function RequestedFields(fields: Option<string>, c: QueryConfig): (r: seq<string>)
    ensures NoDups(r)
    ensures fields.Some? ==> "id" in r
    ensures fields.Some? && c.isList ==> "created_at" in r
    ensures fields.None? ==> Elems(r) == Elems(DefaultFields(c))
  {
    var defaults := FromSeq(DefaultFields(c));
    match fields
    case None => defaults
    case Some(f) =>
      var customFields := Tokens(f);
      var merged :=
        if ShouldReplace(customFields) then FromSeq(StripSigns(customFields))
        else ApplyModifiers(defaults, customFields);
      var withCreatedAt := if c.isList then Add(merged, "created_at") else merged;
      Add(withCreatedAt, "id")
  }

  // ---------------------------------------------------------------------------
  // Star fields

  predicate IsStar(field: string) {
    StartsWithChar(field, '*')
  }

  /** The fields that stay in the field set once the star fields are moved out. */
  function Scalars(fields: seq<string>): (r: seq<string>)
    ensures forall x :: x in r <==> x in fields && !IsStar(x)
    ensures NoDups(fields) ==> NoDups(r)
    decreases |fields|
  {
    if fields == [] then []
    else
      var n := |fields| - 1;
      var rest := Scalars(fields[..n]);
      assert fields == fields[..n] + [fields[n]];
      assert NoDups(fields) ==> NoDups(fields[..n]) && fields[n] !in fields[..n];
      if IsStar(fields[n]) then rest else Add(rest, fields[n])
  }

  /** The star fields with their `*` removed, in field-set order. */
  function StarFields(fields: seq<string>): (r: seq<string>)
    ensures forall y :: y in r <==> "*" + y in fields
    ensures NoDups(fields) ==> NoDups(r)
    decreases |fields|
  {
    if fields == [] then []
    else
      var n := |fields| - 1;
      var rest := StarFields(fields[..n]);
      var last := fields[n];
      assert fields == fields[..n] + [last];
      assert NoDups(fields) ==> NoDups(fields[..n]) && last !in fields[..n];
      if IsStar(last) then
        assert last == "*" + last[1..];
        assert forall y :: "*" + y == last ==> y == last[1..];
        Add(rest, last[1..])
      else
        assert forall y :: "*" + y != last;
        rest
  }

  /** `f + ".*"` for each star field: "all properties of this relation". */
  function StarMarkers(starFields: seq<string>): (r: seq<string>)
    ensures |r| == |starFields|
    ensures forall i :: 0 <= i < |r| ==> r[i] == starFields[i] + ".*"
  {
    if starFields == [] then [] else [starFields[0] + ".*"] + StarMarkers(starFields[1..])
  }

  // ---------------------------------------------------------------------------
  // Field allow-list

  /** Some allowed entry is a plain string prefix of the field. */
  predicate PrefixAllowed(field: string, allowedFields: seq<string>) {
    exists a :: a in allowedFields && StartsWith(field, a)
  }

  /** A field passes when it is allowed as it is, or, when it is not the name
      of a star field, when an allowed entry is a prefix of it. */
  predicate Accepted(field: string, allowedFields: seq<string>, starFields: seq<string>) {
    field in allowedFields || (field !in starFields && PrefixAllowed(field, allowedFields))
  }

  /** The fields that fail the allow-list, in the order they are checked. */
  function Rejected(fields: seq<string>, allowedFields: seq<string>, starFields: seq<string>): (r: seq<string>)
    ensures forall x :: x in r <==> x in fields && !Accepted(x, allowedFields, starFields)
    ensures |r| <= |fields|
    decreases |fields|
  {
    if fields == [] then []
    else
      var n := |fields| - 1;
      assert fields == fields[..n] + [fields[n]];
      Rejected(fields[..n], allowedFields, starFields)
        + (if Accepted(fields[n], allowedFields, starFields) then [] else [fields[n]])
  }

  /** The field errors: checked only when the allow-list is non-empty. */
  function NotAllowedFields(allFields: seq<string>, starFields: seq<string>, allowedFields: seq<string>): seq<string> {
    if |allowedFields| > 0 then Rejected(allFields + starFields, allowedFields, starFields) else []
  }

  // ---------------------------------------------------------------------------
  // Relations

  /** The relation set: the derived relations, the default relations and the
      star fields, unless `expand` is given, which replaces them all. */
  function AllRelations(relations: seq<string>, defaultRelations: seq<string>, starFields: seq<string>, expand: Option<string>): seq<string> {
    match expand
    case Some(e) => FromSeq(Tokens(e))
    case None => FromSeq(relations + defaultRelations + starFields)
  }

  /** The relation errors: only checked when `allowedRelations` is non-empty,
      against the allowed fields and the allowed relations together. */
  function NotAllowedRelations(allRelations: seq<string>, c: QueryConfig): seq<string> {
    if |c.allowedRelations| > 0
    then Difference(allRelations, Elems(AllowedFields(c)) + Elems(c.allowedRelations))
    else []
  }

  // ---------------------------------------------------------------------------
  // Order

  /** The field an order key sorts on: for a key starting with `-`, the second
      piece of `order.split("-")`; otherwise the key itself. */
  function OrderField(order: string): string {
    if StartsWithChar(order, '-') then
      assert order[0] == '-';
      Split(order, '-')[1]
    else order
  }

  /** The sort map: `created_at` descending by default. */
  function OrderBy(order: Option<string>): map<string, Direction> {
    match order
    case None => map["created_at" := Desc]
    case Some(o) => if StartsWithChar(o, '-') then map[OrderField(o) := Desc] else map[o := Asc]
  }

  /** The order error: checked against the configuration's own `allowedFields`
      (not the legacy `allowed` alias), and only when that list is non-empty. */
  function OrderError(order: Option<string>, c: QueryConfig): Option<QueryError> {
    if order.Some? && |c.allowedFields| > 0 && OrderField(order.value) !in c.allowedFields
    then Some(OrderFieldNotValid(OrderField(order.value)))
    else None
  }

  // ---------------------------------------------------------------------------
  // Pagination

  /** `offset = 0`: a left-out offset is 0, a `null` one stays `null`. */
  function Skip(offset: Nullable<int>): Nullable<int> {
    if offset.Undefined? then Value(0) else offset
  }

  /** `limit ?? defaultLimit` after `limit = 50`: the configured default limit
      is only reached by an explicit `null`. */
  function Take(limit: Nullable<int>, c: QueryConfig): Nullable<int> {
    match limit
    case Undefined => Value(DefaultRequestLimit)
    case Null => if c.defaultLimit.Some? then Value(c.defaultLimit.value) else Undefined
    case Value(n) => Value(n)
  }

  // ---------------------------------------------------------------------------
  // The whole resolution

  /** `prepareListQuery`, as a function of the request, the configuration and
      the external `stringToSelectRelationObject`. */
  function PreparedListQuery(validated: Request, queryConfig: QueryConfig, toSelectRelation: seq<string> -> SelectRelation): Result<ListQuery, QueryError> {
    var allowedFields := AllowedFields(queryConfig);
    var requested := RequestedFields(validated.fields, queryConfig);
    var allFields := Scalars(requested);
    var starFields := StarFields(requested);
    var notAllowedFields := NotAllowedFields(allFields, starFields, allowedFields);
    if |allFields| > 0 && |notAllowedFields| > 0 then Failure(FieldsNotValid(notAllowedFields))
    else
      var selectRelation := toSelectRelation(allFields);
      var allRelations := AllRelations(selectRelation.relations, queryConfig.defaultRelations, starFields, validated.expand);
      var notAllowedRelations := NotAllowedRelations(allRelations, queryConfig);
      if |allRelations| > 0 && |notAllowedRelations| > 0 then Failure(FieldsNotValid(notAllowedRelations))
      else
        var orderError := OrderError(validated.order, queryConfig);
        if orderError.Some? then Failure(orderError.value)
        else
          var orderBy := OrderBy(validated.order);
          var skip := Skip(validated.offset);
          var take := Take(validated.limit, queryConfig);
          Success(ListQuery(
            ListConfig(
              if |selectRelation.select| > 0 then Some(selectRelation.select) else None,
              allRelations, skip, take, orderBy),
            RemoteQueryConfig(
              allFields + StarMarkers(starFields),
              if queryConfig.isList then Paginate(skip, take, orderBy) else NoPagination)))
  }

  // ---------------------------------------------------------------------------
  // The source's loops over its mutable sets

  /** `customFields.forEach(...)` on `allFields`: the incremental edit. */
  method ApplyModifiersInOrder(defaults: seq<string>, customFields: seq<string>) returns (allFields: seq<string>)
    ensures allFields == ApplyModifiers(defaults, customFields)
  {
    allFields := defaults;
    var i := 0;
    while i < |customFields|
      invariant 0 <= i <= |customFields|
      invariant allFields == ApplyModifiers(defaults, customFields[..i])
    {
      var field := customFields[i];
      if StartsWithChar(field, '+') {
        allFields := Add(allFields, field[1..]);
      } else if StartsWithChar(field, '-') {
        allFields := Delete(allFields, field[1..]);
      } else {
        allFields := Add(allFields, field);
      }
      ApplyModifiersStep(defaults, customFields, i);
      i := i + 1;
    }
    assert customFields[..i] == customFields;
  }

  /** One more token applies one more modifier. */
  lemma ApplyModifiersStep(defaults: seq<string>, customFields: seq<string>, i: nat)
    requires i < |customFields|
    ensures ApplyModifiers(defaults, customFields[..i + 1])
         == ApplyModifier(ApplyModifiers(defaults, customFields[..i]), customFields[i])
  {
    assert customFields[..i + 1][..i] == customFields[..i];
  }

  /** `allFields.forEach(...)`: each star field is deleted from the field set
      and added, without its `*`, to the star fields. Deleting the element being
      visited does not disturb a JavaScript set's iteration, so the loop visits
      every field of the set it started with. */
  method ExtractStarFields(fields: seq<string>) returns (allFields: seq<string>, starFields: seq<string>)
    requires NoDups(fields)
    ensures allFields == Scalars(fields)
    ensures starFields == StarFields(fields)
  {
    allFields := fields;
    starFields := [];
    var i := 0;
    while i < |fields|
      invariant 0 <= i <= |fields|
      invariant allFields == Scalars(fields[..i]) + fields[i..]
      invariant starFields == StarFields(fields[..i])
    {
      allFields, starFields := VisitField(fields, i, allFields, starFields);
      i := i + 1;
    }
    assert fields[..i] == fields;
  }

  /** The `forEach` callback of `ExtractStarFields` on the field at `i`: a star
      field is added, without its `*`, to the star fields and deleted from the
      field set; any other field changes nothing. Both sets then describe the
      fields visited so far. */
  method VisitField(fields: seq<string>, i: nat, allFields: seq<string>, starFields: seq<string>)
    returns (allFields': seq<string>, starFields': seq<string>)
    requires NoDups(fields) && i < |fields|
    requires allFields == Scalars(fields[..i]) + fields[i..]
    requires starFields == StarFields(fields[..i])
    ensures allFields' == Scalars(fields[..i + 1]) + fields[i + 1..]
    ensures starFields' == StarFields(fields[..i + 1])
  {
    var field := fields[i];
    allFields', starFields' := allFields, starFields;
    if IsStar(field) {
      StarStep(fields, i);
      starFields' := Add(starFields, field[1..]);
      allFields' := Delete(allFields, field);
    } else {
      ScalarStep(fields, i);
    }
  }

  /** A star field met by `ExtractStarFields` joins the star set and leaves
      the field set. */
  lemma StarStep(fields: seq<string>, i: nat)
    requires NoDups(fields) && i < |fields| && IsStar(fields[i])
    ensures StarFields(fields[..i + 1]) == Add(StarFields(fields[..i]), fields[i][1..])
    ensures Scalars(fields[..i + 1]) + fields[i + 1..] == Delete(Scalars(fields[..i]) + fields[i..], fields[i])
  {
    assert fields[..i + 1][..i] == fields[..i];
    ScalarsStep(fields, i);
  }

  /** Any other field leaves both sets as they are. */
  lemma ScalarStep(fields: seq<string>, i: nat)
    requires NoDups(fields) && i < |fields| && !IsStar(fields[i])
    ensures StarFields(fields[..i + 1]) == StarFields(fields[..i])
    ensures Scalars(fields[..i + 1]) + fields[i + 1..] == Scalars(fields[..i]) + fields[i..]
  {
    assert fields[..i + 1][..i] == fields[..i];
    ScalarsStep(fields, i);
  }

  /** What one visit of `ExtractStarFields` does to the remaining field set:
      a star field is deleted from it, any other field stays. */
  lemma ScalarsStep(fields: seq<string>, i: nat)
    requires NoDups(fields) && i < |fields|
    ensures IsStar(fields[i]) ==>
      Scalars(fields[..i + 1]) + fields[i + 1..] == Delete(Scalars(fields[..i]) + fields[i..], fields[i])
    ensures !IsStar(fields[i]) ==>
      Scalars(fields[..i + 1]) + fields[i + 1..] == Scalars(fields[..i]) + fields[i..]
  {
    var field := fields[i];
    assert fields[..i + 1][..i] == fields[..i];
    assert fields[i..] == [field] + fields[i + 1..];
    assert field !in fields[..i] && field !in fields[i + 1..];
    assert field !in Scalars(fields[..i]);
    assert Scalars(fields[..i]) + fields[i..] == Scalars(fields[..i]) + [field] + fields[i + 1..];
    if IsStar(field) {
      assert Scalars(fields[..i + 1]) == Scalars(fields[..i]);
      DeleteOnly(Scalars(fields[..i]), field, fields[i + 1..]);
    } else {
      assert Scalars(fields[..i + 1]) == Scalars(fields[..i]) + [field];
    }
  }

  /** `[...allFields, ...starFields].forEach(...)`: collect the fields the
      allow-list refuses, in the order they are visited. */
  method CollectNotAllowedFields(allFields: seq<string>, starFields: seq<string>, allowedFields: seq<string>)
    returns (notAllowedFields: seq<string>)
    ensures notAllowedFields == Rejected(allFields + starFields, allowedFields, starFields)
  {
    var candidates := allFields + starFields;
    notAllowedFields := [];
    for i := 0 to |candidates|
      invariant notAllowedFields == Rejected(candidates[..i], allowedFields, starFields)
    {
      var field := candidates[i];
      assert candidates[..i + 1][..i] == candidates[..i];
      var hasAllowedField := field in allowedFields;
      if !hasAllowedField {
        if field in starFields {
          notAllowedFields := notAllowedFields + [field];
        } else {
          var fieldStartsWithAllowedField := exists a :: a in allowedFields && StartsWith(field, a);
          if !fieldStartsWithAllowedField {
            notAllowedFields := notAllowedFields + [field];
          }
        }
      }
    }
    assert candidates[..|candidates|] == candidates;
  }

  /** The field set of `prepareListQuery` before the star fields are moved
      out: the defaults, replaced or edited by the requested fields, with
      `created_at` and `id` forced in when fields were requested. */
  method ResolveRequestedFields(fields: Option<string>, queryConfig: QueryConfig) returns (allFields: seq<string>)
    ensures allFields == RequestedFields(fields, queryConfig)
  {
    allFields := FromSeq(DefaultFields(queryConfig));
    if fields.Some? {
      var customFields := Tokens(fields.value);
      if ShouldReplace(customFields) {
        allFields := FromSeq(StripSigns(customFields));
      } else {
        allFields := ApplyModifiersInOrder(allFields, customFields);
      }
      if queryConfig.isList {
        allFields := Add(allFields, "created_at");
      }
      allFields := Add(allFields, "id");
    }
  }

  /** The relation set of `prepareListQuery` and the relations it refuses. */
  method ResolveRelations(relations: seq<string>, starFields: seq<string>, expand: Option<string>, queryConfig: QueryConfig)
    returns (allRelations: seq<string>, notAllowedRelations: seq<string>)
    ensures allRelations == AllRelations(relations, queryConfig.defaultRelations, starFields, expand)
    ensures notAllowedRelations == NotAllowedRelations(allRelations, queryConfig)
  {
    allRelations := FromSeq(relations + queryConfig.defaultRelations + starFields);
    if expand.Some? {
      allRelations := FromSeq(Tokens(expand.value));
    }
    notAllowedRelations := [];
    if |queryConfig.allowedRelations| > 0 {
      notAllowedRelations := Difference(allRelations, Elems(AllowedFields(queryConfig)) + Elems(queryConfig.allowedRelations));
    }
  }

  /** The sort map of `prepareListQuery` and the order error it raises, if any. */
  method ResolveOrder(order: Option<string>, queryConfig: QueryConfig)
    returns (orderBy: map<string, Direction>, orderError: Option<QueryError>)
    ensures orderBy == OrderBy(order)
    ensures orderError == OrderError(order, queryConfig)
  {
    orderBy := map[];
    orderError := None;
    if order.Some? {
      var orderField := order.value;
      if StartsWithChar(order.value, '-') {
        orderField := OrderField(order.value);
        orderBy := map[orderField := Desc];
      } else {
        orderBy := map[order.value := Asc];
      }
      if |queryConfig.allowedFields| > 0 && orderField !in queryConfig.allowedFields {
        orderError := Some(OrderFieldNotValid(orderField));
      }
    } else {
      orderBy := orderBy["created_at" := Desc];
    }
  }

  /** `prepareListQuery`: the steps of the source in their order, rebinding
      the field set, the relation set and the sort map as it does. */
  method PrepareListQuery(validated: Request, queryConfig: QueryConfig, toSelectRelation: seq<string> -> SelectRelation)
    returns (r: Result<ListQuery, QueryError>)
    ensures r == PreparedListQuery(validated, queryConfig, toSelectRelation)
  {
    var allowedFields := AllowedFields(queryConfig);
    var allFields := ResolveRequestedFields(validated.fields, queryConfig);
    var starFields;
    allFields, starFields := ExtractStarFields(allFields);

    var notAllowedFields: seq<string> := [];
    if |allowedFields| > 0 {
      notAllowedFields := CollectNotAllowedFields(allFields, starFields, allowedFields);
    }
    if |allFields| > 0 && |notAllowedFields| > 0 {
      return Failure(FieldsNotValid(notAllowedFields));
    }

    var selectRelation := toSelectRelation(allFields);
    var allRelations, notAllowedRelations := ResolveRelations(selectRelation.relations, starFields, validated.expand, queryConfig);
    if |allRelations| > 0 && |notAllowedRelations| > 0 {
      return Failure(FieldsNotValid(notAllowedRelations));
    }

    var orderBy, orderError := ResolveOrder(validated.order, queryConfig);
    if orderError.Some? {
      return Failure(orderError.value);
    }

    var skip := Skip(validated.offset);
    var take := Take(validated.limit, queryConfig);
    r := Success(ListQuery(
      ListConfig(
        if |selectRelation.select| > 0 then Some(selectRelation.select) else None,
        allRelations, skip, take, orderBy),
      RemoteQueryConfig(
        allFields + StarMarkers(starFields),
        if queryConfig.isList then Paginate(skip, take, orderBy) else NoPagination)));
  }

  /** `prepareRetrieveQuery`: the list resolution with the same `select`,
      `relations` and remote fields, and an empty pagination block. */
  function PrepareRetrieveQuery(validated: Request, queryConfig: QueryConfig, toSelectRelation: seq<string> -> SelectRelation)
    : (r: Result<RetrieveQuery, QueryError>)
    ensures var list := PreparedListQuery(validated, queryConfig, toSelectRelation);
      && (r.Failure? <==> list.Failure?)
      && (r.Failure? ==> r.error == list.error)
      && (r.Success? ==>
            && r.value.retrieveConfig.select == list.value.listConfig.select
            && r.value.retrieveConfig.relations == list.value.listConfig.relations
            && r.value.remoteQueryConfig.fields == list.value.remoteQueryConfig.fields
            && r.value.remoteQueryConfig.pagination == NoPagination)
  {
    match PreparedListQuery(validated, queryConfig, toSelectRelation)
    case Failure(e) => Failure(e)
    case Success(q) =>
      Success(RetrieveQuery(
        RetrieveConfig(q.listConfig.select, q.listConfig.relations),
        RemoteQueryConfig(q.remoteQueryConfig.fields, NoPagination)))
  }

  // ---------------------------------------------------------------------------
  // pickByConfig

  /** A record, or an array of records, as handed to `pickByConfig`. */
  datatype Picked<V> = One(record: map<string, V>) | Many(records: seq<map<string, V>>)

  /** `pick(o, keys)` on top-level keys: the entries of `o` whose key is listed. */
  function Pick<V>(o: map<string, V>, keys: seq<string>): (r: map<string, V>)
    ensures r.Keys == o.Keys * Elems(keys)
    ensures forall k :: k in r ==> r[k] == o[k]
  {
    map k | k in o && k in keys :: o[k]
  }

  function PickAll<V>(records: seq<map<string, V>>, keys: seq<string>): (r: seq<map<string, V>>)
    ensures |r| == |records|
    ensures forall i :: 0 <= i < |r| ==> r[i] == Pick(records[i], keys)
  {
    if records == [] then [] else [Pick(records[0], keys)] + PickAll(records[1..], keys)
  }

  /** The keys `pickByConfig` keeps: `select` followed by `relations`. */
  function PickKeys(select: Option<seq<string>>, relations: Option<seq<string>>): seq<string> {
    (if select.Some? then select.value else []) + (if relations.Some? then relations.value else [])
  }

  /** `pickByConfig`: with no keys the input comes back as it is; otherwise
      each record keeps only the configured keys, and an array keeps its length. */
  function PickByConfig<V>(obj: Picked<V>, select: Option<seq<string>>, relations: Option<seq<string>>): (r: Picked<V>)
    ensures |PickKeys(select, relations)| == 0 ==> r == obj
    ensures r.One? <==> obj.One?
    ensures r.Many? ==> |r.records| == |obj.records|
    ensures |PickKeys(select, relations)| > 0 && r.One? ==>
      r.record.Keys == obj.record.Keys * Elems(PickKeys(select, relations))
    ensures |PickKeys(select, relations)| > 0 && r.Many? ==>
      forall i :: 0 <= i < |r.records| ==> r.records[i].Keys == obj.records[i].Keys * Elems(PickKeys(select, relations))
    ensures r.One? ==> forall k :: k in r.record ==> k in obj.record && r.record[k] == obj.record[k]
    ensures r.Many? ==> forall i, k :: 0 <= i < |r.records| && k in r.records[i] ==>
      k in obj.records[i] && r.records[i][k] == obj.records[i][k]
  {
    var fields := PickKeys(select, relations);
    if |fields| > 0 then
      match obj
      case Many(records) => Many(PickAll(records, fields))
      case One(record) => One(Pick(record, fields))
    else obj
  }
}
