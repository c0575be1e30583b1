/** Properties of the query-projection resolver of
    `packages/medusa/src/utils/get-query-config.ts`, stated over the
    specification functions that the resolver's methods are proved to compute. */
module GetQueryConfigProperties {
  import opened Wrappers
  import opened Strings
  import opened OrderedSets
  import opened GetQueryConfig

  // ---------------------------------------------------------------------------
  // Replacing the defaults

  /** The forced fields added to a merged field set. */
  lemma ForcedFields(merged: seq<string>, isList: bool)
    ensures Elems(Add(if isList then Add(merged, "created_at") else merged, "id"))
         == Elems(merged) + {"id"} + (if isList then {"created_at"} else {})
  {
  }

  /** When the requested fields replace the defaults, the field set is the
      requested tokens with one leading sign removed, plus the forced fields,
      whatever the defaults were. */
  lemma ReplacementSemantics(fields: string, c: QueryConfig, other: QueryConfig)
    requires ShouldReplace(Tokens(fields))
    requires other.isList == c.isList
    ensures Elems(RequestedFields(Some(fields), c))
         == Elems(StripSigns(Tokens(fields))) + {"id"} + (if c.isList then {"created_at"} else {})
    ensures RequestedFields(Some(fields), c) == RequestedFields(Some(fields), other)
  {
    var tokens := Tokens(fields);
    var merged := FromSeq(StripSigns(tokens));
    assert RequestedFields(Some(fields), c) == Add(if c.isList then Add(merged, "created_at") else merged, "id");
    ForcedFields(merged, c.isList);
  }

  /** The field set of a replacement, once its tokens are known. */
  lemma Replaced(fields: string, c: QueryConfig, tokens: seq<string>, merged: seq<string>)
    requires Tokens(fields) == tokens && ShouldReplace(tokens)
    requires FromSeq(StripSigns(tokens)) == merged
    ensures RequestedFields(Some(fields), c) == Add(if c.isList then Add(merged, "created_at") else merged, "id")
  {
  }

  /** A field list with no non-empty piece (such as `","`) also replaces the
      defaults: only the forced fields remain. */
  lemma EmptyFieldListReplaces(c: QueryConfig)
    ensures RequestedFields(Some(","), c) == if c.isList then ["created_at", "id"] else ["id"]
  {
    CommaHasNoTokens();
    assert ShouldReplace([]);
    assert FromSeq(StripSigns([])) == [];
    Replaced(",", c, [], []);
    OnlyForced(c.isList);
  }

  /** The forced fields on their own. */
  lemma OnlyForced(isList: bool)
    ensures Add(if isList then Add([], "created_at") else [], "id") == if isList then ["created_at", "id"] else ["id"]
  {
    assert "id" != "created_at" by { assert "id"[0] != "created_at"[0]; }
  }

  /** `","` splits into two empty pieces, neither of which is kept. */
  lemma CommaHasNoTokens()
    ensures Tokens(",") == []
  {
    assert Split(",", ',') == [[], []] by {
      assert ","[1..] == [];
    }
  }

  // ---------------------------------------------------------------------------
  // Editing the defaults

  /** What the last token naming `x` does to it: `Some(true)` when it adds `x`
      (`+x`, or the verbatim token `x`), `Some(false)` when it deletes it
      (`-x`), `None` when no token names `x`. */
  function LastEffect(customFields: seq<string>, x: string): Option<bool>
    decreases |customFields|
  {
    if customFields == [] then None
    else
      var n := |customFields| - 1;
      var t := customFields[n];
      if StartsWithChar(t, '+') && t[1..] == x then Some(true)
      else if !StartsWithChar(t, '+') && StartsWithChar(t, '-') && t[1..] == x then Some(false)
      else if !StartsWithChar(t, '+') && !StartsWithChar(t, '-') && t == x then Some(true)
      else LastEffect(customFields[..n], x)
  }

  /** In an incremental edit the last token naming a field decides whether it
      is in the set; a field no token names keeps its default membership. */
  lemma {:induction false} IncrementalMembership(defaults: seq<string>, customFields: seq<string>, x: string)
    ensures x in ApplyModifiers(defaults, customFields)
        <==> LastEffect(customFields, x) == Some(true) || (LastEffect(customFields, x).None? && x in defaults)
    decreases |customFields|
  {
    if customFields != [] {
      var n := |customFields| - 1;
      IncrementalMembership(defaults, customFields[..n], x);
      var before := ApplyModifiers(defaults, customFields[..n]);
      var t := customFields[n];
      assert x in Elems(before) <==> x in before;
      if StartsWithChar(t, '+') {
        assert Elems(Add(before, t[1..])) == Elems(before) + {t[1..]};
      } else if StartsWithChar(t, '-') {
        var after := Delete(before, t[1..]);
        assert Elems(after) == Elems(before) - {t[1..]};
        assert x in after <==> x in Elems(after);
      } else {
        assert Elems(Add(before, t)) == Elems(before) + {t};
      }
    }
  }

  /** With every requested token carrying a modifier, a field is in the
      requested set when it is forced in, or when the last token naming it adds
      it, or when no token names it and it is a default field. */
  lemma IncrementalSemantics(fields: string, c: QueryConfig, x: string)
    requires !ShouldReplace(Tokens(fields))
    ensures x in RequestedFields(Some(fields), c)
        <==> || x == "id"
             || (c.isList && x == "created_at")
             || LastEffect(Tokens(fields), x) == Some(true)
             || (LastEffect(Tokens(fields), x).None? && x in DefaultFields(c))
  {
    var defaults := FromSeq(DefaultFields(c));
    var merged := ApplyModifiers(defaults, Tokens(fields));
    var requested := RequestedFields(Some(fields), c);
    assert requested == Add(if c.isList then Add(merged, "created_at") else merged, "id");
    assert x in requested <==> x == "id" || (c.isList && x == "created_at") || x in merged by {
      ForcedFields(merged, c.isList);
      assert x in requested <==> x in Elems(requested);
      assert x in merged <==> x in Elems(merged);
    }
    assert x in defaults <==> x in DefaultFields(c) by {
      assert x in defaults <==> x in Elems(defaults);
      assert x in DefaultFields(c) <==> x in Elems(DefaultFields(c));
    }
    IncrementalMembership(defaults, Tokens(fields), x);
  }

  // ---------------------------------------------------------------------------
  // Star fields and the remote field list

  /** After the extraction no remaining field starts with `*`, every star field
      is recorded without its `*`, and nothing else is lost. */
  lemma StarExtraction(fields: seq<string>)
    requires NoDups(fields)
    ensures forall x :: x in Scalars(fields) ==> !IsStar(x)
    ensures forall f :: f in fields && IsStar(f) ==> f[1..] in StarFields(fields)
    ensures forall f :: f in fields ==> f in Scalars(fields) || (IsStar(f) && f[1..] in StarFields(fields))
    ensures NoDups(Scalars(fields)) && NoDups(StarFields(fields))
  {
    forall f | f in fields && IsStar(f) ensures f[1..] in StarFields(fields) {
      assert f == "*" + f[1..];
    }
  }

  /** The remote field list built from a field set: the fields that are not
      star fields, then a marker for each star field. */
  lemma MarkersLayout(requested: seq<string>)
    ensures var scalars := Scalars(requested);
      var stars := StarFields(requested);
      var fields := scalars + StarMarkers(stars);
      && |fields| == |scalars| + |stars|
      && (forall i :: 0 <= i < |scalars| ==> fields[i] == scalars[i] && !IsStar(fields[i]) && fields[i] in requested)
      && (forall j :: 0 <= j < |stars| ==> fields[|scalars| + j] == stars[j] + ".*" && "*" + stars[j] in requested)
  {
    var scalars := Scalars(requested);
    var stars := StarFields(requested);
    var fields := scalars + StarMarkers(stars);
    forall i | 0 <= i < |scalars| ensures fields[i] == scalars[i] && !IsStar(fields[i]) && fields[i] in requested {
      assert scalars[i] in scalars;
    }
    forall j | 0 <= j < |stars| ensures fields[|scalars| + j] == stars[j] + ".*" && "*" + stars[j] in requested {
      assert stars[j] in stars;
    }
  }

  /** The remote field list of a successful resolution, by stages. */
  lemma RemoteFieldsOf(v: Request, c: QueryConfig, toSelectRelation: seq<string> -> SelectRelation, q: ListQuery)
    requires PreparedListQuery(v, c, toSelectRelation) == Success(q)
    ensures var requested := RequestedFields(v.fields, c);
      q.remoteQueryConfig.fields == Scalars(requested) + StarMarkers(StarFields(requested))
  {
  }

  /** The remote query's field list is the remaining fields, then one
      `"<relation>.*"` entry per star field, in that order. */
  lemma RemoteFieldsLayout(v: Request, c: QueryConfig, toSelectRelation: seq<string> -> SelectRelation, q: ListQuery)
    requires PreparedListQuery(v, c, toSelectRelation) == Success(q)
    ensures var requested := RequestedFields(v.fields, c);
      var scalars := Scalars(requested);
      var stars := StarFields(requested);
      var fields := q.remoteQueryConfig.fields;
      && |fields| == |scalars| + |stars|
      && (forall i :: 0 <= i < |scalars| ==> fields[i] == scalars[i] && !IsStar(fields[i]) && fields[i] in requested)
      && (forall j :: 0 <= j < |stars| ==> fields[|scalars| + j] == stars[j] + ".*" && "*" + stars[j] in requested)
  {
    RemoteFieldsOf(v, c, toSelectRelation, q);
    MarkersLayout(RequestedFields(v.fields, c));
  }

  // ---------------------------------------------------------------------------
  // The allow-list checks

  /** The field check lets the request through: it is skipped for an empty
      allow-list, and its error is only raised when fields remain after the
      star fields are moved out. */
  predicate PassesFieldCheck(v: Request, c: QueryConfig) {
    var requested := RequestedFields(v.fields, c);
    var scalars := Scalars(requested);
    !(|scalars| > 0 && |NotAllowedFields(scalars, StarFields(requested), AllowedFields(c))| > 0)
  }

  /** The relation check lets the request through. */
  predicate PassesRelationCheck(v: Request, c: QueryConfig, toSelectRelation: seq<string> -> SelectRelation) {
    var requested := RequestedFields(v.fields, c);
    var allRelations := AllRelations(toSelectRelation(Scalars(requested)).relations, c.defaultRelations, StarFields(requested), v.expand);
    !(|allRelations| > 0 && |NotAllowedRelations(allRelations, c)| > 0)
  }

  /** The resolution succeeds exactly when the field check, the relation check
      and the order check all pass, and the checks fail in that order. */
  lemma FailureOrder(v: Request, c: QueryConfig, toSelectRelation: seq<string> -> SelectRelation)
    ensures PreparedListQuery(v, c, toSelectRelation).Success?
        <==> PassesFieldCheck(v, c) && PassesRelationCheck(v, c, toSelectRelation) && OrderError(v.order, c).None?
    ensures !PassesFieldCheck(v, c) ==>
      var requested := RequestedFields(v.fields, c);
      PreparedListQuery(v, c, toSelectRelation)
        == Failure(FieldsNotValid(NotAllowedFields(Scalars(requested), StarFields(requested), AllowedFields(c))))
    ensures PassesFieldCheck(v, c) && !PassesRelationCheck(v, c, toSelectRelation) ==>
      var requested := RequestedFields(v.fields, c);
      var allRelations := AllRelations(toSelectRelation(Scalars(requested)).relations, c.defaultRelations, StarFields(requested), v.expand);
      PreparedListQuery(v, c, toSelectRelation) == Failure(FieldsNotValid(NotAllowedRelations(allRelations, c)))
    ensures PassesFieldCheck(v, c) && PassesRelationCheck(v, c, toSelectRelation) && OrderError(v.order, c).Some? ==>
      PreparedListQuery(v, c, toSelectRelation) == Failure(OrderError(v.order, c).value)
  {
  }

  /** The refused fields are listed exactly, and the list is empty exactly
      when every field is accepted. */
  lemma RejectedExactly(fields: seq<string>, allowed: seq<string>, stars: seq<string>)
    ensures forall f :: f in Rejected(fields, allowed, stars) <==> f in fields && !Accepted(f, allowed, stars)
    ensures |Rejected(fields, allowed, stars)| == 0 <==> forall f :: f in fields ==> Accepted(f, allowed, stars)
  {
    if !forall f :: f in fields ==> Accepted(f, allowed, stars) {
      var f :| f in fields && !Accepted(f, allowed, stars);
      assert f in Rejected(fields, allowed, stars);
    }
  }

  /** On a list, the forced `created_at` is checked like any requested field:
      when the allow-list is non-empty and no entry of it is a prefix of
      `created_at` (nor `created_at` itself), every request with `fields`
      fails, and the error names `created_at`. */
  lemma ForcedCreatedAtRefused(v: Request, c: QueryConfig, toSelectRelation: seq<string> -> SelectRelation)
    requires c.isList && v.fields.Some? && |AllowedFields(c)| > 0
    requires forall a :: a in AllowedFields(c) ==> !StartsWith("created_at", a)
    ensures PreparedListQuery(v, c, toSelectRelation).Failure?
    ensures var e := PreparedListQuery(v, c, toSelectRelation).error;
      e.FieldsNotValid? && "created_at" in e.fields
  {
    var requested := RequestedFields(v.fields, c);
    var allowed := AllowedFields(c);
    assert "created_at" in requested;
    assert !IsStar("created_at");
    assert "created_at" in Scalars(requested);
    assert "created_at" !in allowed by {
      assert StartsWith("created_at", "created_at");
    }
    assert !PrefixAllowed("created_at", allowed);
    var checked := Scalars(requested) + StarFields(requested);
    assert "created_at" in checked;
    assert "created_at" in Rejected(checked, allowed, StarFields(requested));
    assert !PassesFieldCheck(v, c);
    FailureOrder(v, c, toSelectRelation);
  }

  /** Field validation: with a non-empty allow-list and some field left after
      the star fields are moved out, the request fails exactly when some field
      or star field is refused, and the error lists exactly the refused ones. */
  lemma FieldValidation(v: Request, c: QueryConfig)
    ensures var requested := RequestedFields(v.fields, c);
      var scalars := Scalars(requested);
      var stars := StarFields(requested);
      var allowed := AllowedFields(c);
      && (|allowed| > 0 && |scalars| > 0 ==>
            (PassesFieldCheck(v, c) <==> forall f :: f in scalars + stars ==> Accepted(f, allowed, stars)))
      && (!PassesFieldCheck(v, c) ==>
            forall f :: f in NotAllowedFields(scalars, stars, allowed) <==> f in scalars + stars && !Accepted(f, allowed, stars))
      && (|allowed| == 0 || |scalars| == 0 ==> PassesFieldCheck(v, c))
  {
    var requested := RequestedFields(v.fields, c);
    RejectedExactly(Scalars(requested) + StarFields(requested), AllowedFields(c), StarFields(requested));
  }

  /** The raw string-prefix test accepts a field that merely starts with an
      allowed name: `variantsX` passes when `variants` is allowed. */
  lemma PrefixMatchIsRaw()
    ensures Accepted("variantsX", ["variants"], [])
    ensures !Accepted("variants", ["variants.title"], [])
  {
    assert StartsWith("variantsX", "variants");
  }

  /** A star field needs an exact allow-list entry; so does a plain field that
      has the same name as a star field. */
  lemma StarFieldsNeedExactMatch(field: string, allowed: seq<string>, stars: seq<string>)
    requires field in stars
    ensures Accepted(field, allowed, stars) <==> field in allowed
  {
  }

  /** The relation set holds each relation once: the `expand` tokens when
      `expand` is given, otherwise the derived relations, the default
      relations and the star fields. */
  lemma AllRelationsElems(derived: seq<string>, defaultRelations: seq<string>, stars: seq<string>, expand: Option<string>)
    ensures NoDups(AllRelations(derived, defaultRelations, stars, expand))
    ensures expand.Some? ==> Elems(AllRelations(derived, defaultRelations, stars, expand)) == Elems(Tokens(expand.value))
    ensures expand.None? ==>
      Elems(AllRelations(derived, defaultRelations, stars, expand)) == Elems(derived) + Elems(defaultRelations) + Elems(stars)
  {
    ElemsConcat(derived, defaultRelations);
    ElemsConcat(derived + defaultRelations, stars);
  }

  /** A relation set that passes the relation check lies within the allowed
      fields and the allowed relations whenever relations are restricted. */
  lemma RelationsWithinAllowList(allRelations: seq<string>, c: QueryConfig)
    requires !(|allRelations| > 0 && |NotAllowedRelations(allRelations, c)| > 0)
    requires |c.allowedRelations| > 0
    ensures forall r :: r in allRelations ==> r in AllowedFields(c) || r in c.allowedRelations
  {
    if |allRelations| > 0 {
      var allowed := Elems(AllowedFields(c)) + Elems(c.allowedRelations);
      assert Difference(allRelations, allowed) == [];
      assert Elems(allRelations) - allowed == {};
      assert Elems(allRelations) <= allowed by {
        forall r | r in Elems(allRelations) ensures r in allowed {
          assert r !in Elems(allRelations) - allowed;
        }
      }
      forall r | r in allRelations ensures r in AllowedFields(c) || r in c.allowedRelations {
        assert r in Elems(allRelations);
        assert r in allowed;
        assert r in Elems(AllowedFields(c)) ==> r in AllowedFields(c);
        assert r in Elems(c.allowedRelations) ==> r in c.allowedRelations;
      }
    }
  }

  /** A relation outside the allow-lists is refused when relations are
      restricted, and the error lists exactly the refused relations. */
  lemma RelationsOutsideAllowList(allRelations: seq<string>, c: QueryConfig, r: string)
    requires |c.allowedRelations| > 0
    requires r in allRelations && r !in AllowedFields(c) && r !in c.allowedRelations
    ensures |allRelations| > 0 && |NotAllowedRelations(allRelations, c)| > 0
    ensures forall x :: (x in NotAllowedRelations(allRelations, c)
      <==> x in allRelations && x !in AllowedFields(c) && x !in c.allowedRelations)
  {
    var allowed := Elems(AllowedFields(c)) + Elems(c.allowedRelations);
    var bad := Difference(allRelations, allowed);
    assert r in Elems(allRelations);
    assert r in Elems(bad);
    forall x ensures x in bad <==> x in allRelations && x !in AllowedFields(c) && x !in c.allowedRelations {
      assert x in bad <==> x in Elems(bad);
      assert x in allRelations <==> x in Elems(allRelations);
    }
  }

  /** The relation check in both directions: it always passes when no
      relations are allowed explicitly, whatever the field allow-list says;
      otherwise it passes exactly when every relation is an allowed field or
      an allowed relation. */
  lemma RelationCheckExactly(v: Request, c: QueryConfig, toSelectRelation: seq<string> -> SelectRelation)
    ensures |c.allowedRelations| == 0 ==> PassesRelationCheck(v, c, toSelectRelation)
    ensures var requested := RequestedFields(v.fields, c);
      var allRelations := AllRelations(toSelectRelation(Scalars(requested)).relations, c.defaultRelations, StarFields(requested), v.expand);
      |c.allowedRelations| > 0 ==>
        (PassesRelationCheck(v, c, toSelectRelation) <==>
          forall r :: r in allRelations ==> r in AllowedFields(c) || r in c.allowedRelations)
  {
    var requested := RequestedFields(v.fields, c);
    var allRelations := AllRelations(toSelectRelation(Scalars(requested)).relations, c.defaultRelations, StarFields(requested), v.expand);
    if |c.allowedRelations| > 0 {
      if PassesRelationCheck(v, c, toSelectRelation) {
        RelationsWithinAllowList(allRelations, c);
      } else {
        assert |NotAllowedRelations(allRelations, c)| > 0;
        var r := NotAllowedRelations(allRelations, c)[0];
        assert r in Elems(NotAllowedRelations(allRelations, c));
        assert r in allRelations && r !in AllowedFields(c) && r !in c.allowedRelations by {
          assert r in Elems(allRelations);
          assert r !in Elems(AllowedFields(c)) && r !in Elems(c.allowedRelations);
        }
      }
    }
  }

  /** The resolved relations of a successful resolution. */
  lemma RelationResolution(v: Request, c: QueryConfig, toSelectRelation: seq<string> -> SelectRelation, q: ListQuery)
    requires PreparedListQuery(v, c, toSelectRelation) == Success(q)
    ensures var requested := RequestedFields(v.fields, c);
      var derived := toSelectRelation(Scalars(requested)).relations;
      var relations := q.listConfig.relations;
      && NoDups(relations)
      && (v.expand.Some? ==> Elems(relations) == Elems(Tokens(v.expand.value)))
      && (v.expand.None? ==>
            Elems(relations) == Elems(derived) + Elems(c.defaultRelations) + Elems(StarFields(requested)))
      && (|c.allowedRelations| > 0 ==>
            forall r :: r in relations ==> r in AllowedFields(c) || r in c.allowedRelations)
  {
    var requested := RequestedFields(v.fields, c);
    var derived := toSelectRelation(Scalars(requested)).relations;
    var relations := AllRelations(derived, c.defaultRelations, StarFields(requested), v.expand);
    assert q.listConfig.relations == relations;
    assert !(|relations| > 0 && |NotAllowedRelations(relations, c)| > 0);
    AllRelationsElems(derived, c.defaultRelations, StarFields(requested), v.expand);
    if |c.allowedRelations| > 0 {
      RelationsWithinAllowList(relations, c);
    }
  }

  // ---------------------------------------------------------------------------
  // Order

  /** The sort map has one entry: `created_at` descending by default, `f`
      descending for `"-f"` when `f` holds no further dash, and the key itself
      ascending otherwise. */
  lemma OrderResolution(order: Option<string>)
    ensures |OrderBy(order).Keys| == 1
    ensures order.None? ==> OrderBy(order) == map["created_at" := Desc]
    ensures order.Some? && !StartsWithChar(order.value, '-') ==> OrderBy(order) == map[order.value := Asc]
    ensures order.Some? && StartsWithChar(order.value, '-') && '-' !in order.value[1..] ==>
      OrderField(order.value) == order.value[1..] && OrderBy(order) == map[order.value[1..] := Desc]
  {
    if order.Some? && StartsWithChar(order.value, '-') && '-' !in order.value[1..] {
      var o := order.value;
      assert o == [] + ['-'] + o[1..];
      SplitAtFirst([], '-', o[1..]);
      SplitWithoutSeparator(o[1..], '-');
    }
  }

  /** A descending key is cut at its next dash: `"-a-b"` sorts on `a`. */
  lemma OrderFieldStopsAtDash(a: string, b: string)
    requires '-' !in a
    ensures OrderField("-" + a + "-" + b) == a
  {
    var o := "-" + a + "-" + b;
    assert o == [] + ['-'] + (a + ['-'] + b);
    SplitAtFirst([], '-', a + ['-'] + b);
    SplitAtFirst(a, '-', b);
  }

  /** The order key is checked against the configuration's own
      `allowedFields` only: with that list empty any key passes, even when the
      legacy `allowed` list restricts the fields. */
  lemma OrderValidation(order: Option<string>, c: QueryConfig)
    ensures order.None? || |c.allowedFields| == 0 ==> OrderError(order, c).None?
    ensures order.Some? && |c.allowedFields| > 0 ==>
      (OrderError(order, c).None? <==> OrderField(order.value) in c.allowedFields)
    ensures OrderError(order, c).Some? ==> OrderError(order, c).value == OrderFieldNotValid(OrderField(order.value))
  {
  }

  // ---------------------------------------------------------------------------
  // Descriptors

  /** Pagination and `select`: `skip` is the offset (0 when left out), `take`
      is the limit (50 when left out, the configured default only for an
      explicit `null`), `select` is left out exactly when the derived select
      list is empty, and the remote query is paginated exactly for lists. */
  lemma Descriptors(v: Request, c: QueryConfig, toSelectRelation: seq<string> -> SelectRelation, q: ListQuery)
    requires PreparedListQuery(v, c, toSelectRelation) == Success(q)
    ensures q.listConfig.skip == if v.offset.Undefined? then Value(0) else v.offset
    ensures v.limit.Undefined? ==> q.listConfig.take == Value(DefaultRequestLimit)
    ensures v.limit.Null? ==> q.listConfig.take == if c.defaultLimit.Some? then Value(c.defaultLimit.value) else Undefined
    ensures v.limit.Value? ==> q.listConfig.take == v.limit
    ensures var select := toSelectRelation(Scalars(RequestedFields(v.fields, c))).select;
      && (q.listConfig.select.None? <==> |select| == 0)
      && (q.listConfig.select.Some? ==> q.listConfig.select.value == select)
    ensures q.listConfig.order == OrderBy(v.order)
    ensures q.remoteQueryConfig.pagination.Paginate? <==> c.isList
    ensures c.isList ==>
      q.remoteQueryConfig.pagination == Paginate(q.listConfig.skip, q.listConfig.take, q.listConfig.order)
  {
  }

  // ---------------------------------------------------------------------------
  // Idempotence

  /** Splitting a comma-join of non-empty, comma-free fields and dropping
      empty pieces gives the fields back. */
  lemma TokensOfJoin(fields: seq<string>)
    requires |fields| >= 1
    requires forall x :: x in fields ==> x != [] && ',' !in x
    ensures Tokens(Join(fields, ",")) == fields
  {
    forall i | 0 <= i < |fields| ensures ',' !in fields[i] && fields[i] != [] {
      assert fields[i] in fields;
    }
    SplitJoin(fields, ',');
    NonEmptyKeepsNonEmpty(fields);
  }

  /** Removing a leading sign leaves unsigned fields as they are. */
  lemma StripSignsOfUnsigned(fields: seq<string>)
    requires forall x :: x in fields ==> !StartsWithChar(x, '+') && !StartsWithChar(x, '-')
    ensures StripSigns(fields) == fields
  {
    forall i | 0 <= i < |fields| ensures StripSigns(fields)[i] == fields[i] {
      assert fields[i] in fields;
    }
  }

  /** A request whose tokens are distinct, unsigned and already hold the
      forced fields, one of them without a modifier, resolves to the tokens. */
  lemma TokensResolveToThemselves(fields: seq<string>, c: QueryConfig, request: string)
    requires Tokens(request) == fields
    requires NoDups(fields) && "id" in fields && (c.isList ==> "created_at" in fields)
    requires ShouldReplace(fields) && StripSigns(fields) == fields
    ensures RequestedFields(Some(request), c) == fields
  {
    FromSeqOfNoDups(fields);
  }

  /** A plain list of distinct, unsigned fields that already holds the forced
      fields is resolved to itself. */
  lemma PlainFieldsResolveToThemselves(fields: seq<string>, c: QueryConfig)
    requires NoDups(fields) && "id" in fields && (c.isList ==> "created_at" in fields)
    requires forall x :: x in fields ==> x != [] && ',' !in x && !StartsWithChar(x, '+') && !StartsWithChar(x, '-')
    ensures RequestedFields(Some(Join(fields, ",")), c) == fields
  {
    TokensOfJoin(fields);
    var k :| 0 <= k < |fields| && fields[k] == "id";
    assert !HasModifier(fields[k]);
    StripSignsOfUnsigned(fields);
    TokensResolveToThemselves(fields, c, Join(fields, ","));
  }

  /** Feeding the resolved fields back as a plain comma-separated field list
      gives the same fields, provided none of them is empty, holds a comma or
      starts with a sign. */
  lemma ReplacementIsIdempotent(fields: string, c: QueryConfig)
    requires var scalars := Scalars(RequestedFields(Some(fields), c));
      forall x :: x in scalars ==> x != [] && ',' !in x && !StartsWithChar(x, '+') && !StartsWithChar(x, '-')
    ensures var scalars := Scalars(RequestedFields(Some(fields), c));
      && RequestedFields(Some(Join(scalars, ",")), c) == scalars
      && Scalars(RequestedFields(Some(Join(scalars, ",")), c)) == scalars
      && StarFields(RequestedFields(Some(Join(scalars, ",")), c)) == []
  {
    var requested := RequestedFields(Some(fields), c);
    var scalars := Scalars(requested);
    assert "id" in scalars;
    assert c.isList ==> "created_at" in scalars;
    PlainFieldsResolveToThemselves(scalars, c);
    ScalarsOfScalars(scalars);
  }

  /** A field list without star fields is left as it is by the extraction. */
  lemma {:induction false} ScalarsOfScalars(fields: seq<string>)
    requires NoDups(fields)
    requires forall i :: 0 <= i < |fields| ==> !IsStar(fields[i])
    ensures Scalars(fields) == fields
    ensures StarFields(fields) == []
    decreases |fields|
  {
    if fields != [] {
      var n := |fields| - 1;
      assert fields == fields[..n] + [fields[n]];
      assert fields[n] in fields && fields[n] !in fields[..n];
      assert NoDups(fields[..n]);
      ScalarsOfScalars(fields[..n]);
    }
  }

  // ---------------------------------------------------------------------------
  // pickByConfig

  /** Picking twice with the same configuration keeps what the first pick kept. */
  lemma PickByConfigIdempotent<V>(obj: Picked<V>, select: Option<seq<string>>, relations: Option<seq<string>>)
    ensures var once := PickByConfig(obj, select, relations);
      PickByConfig(once, select, relations) == once
  {
    var keys := PickKeys(select, relations);
    if |keys| > 0 {
      match obj
      case One(record) =>
        PickTwice(record, keys);
      case Many(records) =>
        var once := PickAll(records, keys);
        var twice := PickAll(once, keys);
        forall i | 0 <= i < |twice|
          ensures twice[i] == once[i]
        {
          PickTwice(records[i], keys);
        }
    }
  }

  /** `pick` keeps nothing a second pick with the same keys would drop. */
  lemma PickTwice<V>(o: map<string, V>, keys: seq<string>)
    ensures Pick(Pick(o, keys), keys) == Pick(o, keys)
  {
    var once := Pick(o, keys);
    assert Pick(once, keys).Keys == once.Keys;
  }
}
