/** Worked requests against small configurations, stated as lemmas over the
    resolver's specification. */
module GetQueryConfigExamples {
  import opened Wrappers
  import opened Strings
  import opened OrderedSets
  import opened GetQueryConfig
  import opened GetQueryConfigProperties

  /** A configuration with only default fields, an allow-list and `isList` set. */
  function Config(defaultFields: seq<string>, allowedFields: seq<string>, isList: bool): QueryConfig {
    QueryConfig([], [], defaultFields, None, allowedFields, [], [], isList)
  }

  /** Two non-empty comma-free pieces joined by a comma tokenize to themselves. */
  lemma TokensOfPair(a: string, b: string)
    requires a != [] && b != [] && ',' !in a && ',' !in b
    ensures Tokens(a + [','] + b) == [a, b]
  {
    SplitAtFirst(a, ',', b);
    SplitWithoutSeparator(b, ',');
    NonEmptyKeepsNonEmpty([a, b]);
  }

  /** A non-empty comma-free request value is a single token. */
  lemma TokensOfSingle(a: string)
    requires a != [] && ',' !in a
    ensures Tokens(a) == [a]
  {
    SplitWithoutSeparator(a, ',');
    NonEmptyKeepsNonEmpty([a]);
  }

  /** A non-empty comma-free value with a modifier is one token, and that
      token edits the defaults rather than replacing them. */
  lemma SingleModifiedToken(t: string)
    requires t != [] && ',' !in t && HasModifier(t)
    ensures Tokens(t) == [t] && !ShouldReplace([t])
  {
    TokensOfSingle(t);
    assert HasModifier([t][0]);
  }

  /** The field set of an edit, once its tokens and their effect are known. */
  lemma Edited(fields: string, c: QueryConfig, tokens: seq<string>, defaults: seq<string>, merged: seq<string>)
    requires Tokens(fields) == tokens && !ShouldReplace(tokens)
    requires FromSeq(DefaultFields(c)) == defaults && ApplyModifiers(defaults, tokens) == merged
    ensures RequestedFields(Some(fields), c) == Add(if c.isList then Add(merged, "created_at") else merged, "id")
  {
  }

  /** A refused field after accepted ones is the only one refused. */
  lemma RefusedLast(fields: seq<string>, allowed: seq<string>, x: string)
    requires Rejected(fields, allowed, []) == []
    requires !Accepted(x, allowed, [])
    ensures Rejected(fields + [x], allowed, []) == [x]
  {
    assert (fields + [x])[..|fields|] == fields;
  }

  lemma TokensOfEdit()
    ensures Tokens("+c,-a") == ["+c", "-a"]
  {
    assert "+c,-a" == "+c" + [','] + "-a";
    SplitAtFirst("+c", ',', "-a");
    SplitWithoutSeparator("-a", ',');
  }

  /** `+c` appends `c` to `a, b`, then `-a` removes `a` and closes the gap. */
  lemma EditOfDefaults()
    ensures ApplyModifiers(["a", "b"], ["+c", "-a"]) == ["b", "c"]
  {
    assert ["+c", "-a"][..1] == ["+c"];
    assert ["+c"][..0] == [];
    assert "c" !in ["a", "b"] by {
      assert "c"[0] != "a"[0] && "c"[0] != "b"[0];
    }
    assert ApplyModifiers(["a", "b"], ["+c"]) == ["a", "b", "c"];
    assert "b" != "a" by { assert "b"[0] != "a"[0]; }
    assert "c" != "a" by { assert "c"[0] != "a"[0]; }
    assert ["a", "b", "c"][1..] == ["b", "c"];
    assert ["b", "c"][1..] == ["c"];
  }

  /** `+c,-a` is two tokens, both with a modifier, so they edit the defaults. */
  lemma IncrementalTokens()
    ensures Tokens("+c,-a") == ["+c", "-a"] && !ShouldReplace(["+c", "-a"])
  {
    TokensOfEdit();
    assert HasModifier(["+c", "-a"][0]) && HasModifier(["+c", "-a"][1]);
  }

  /** The defaults `a, b` are a set already. */
  lemma IncrementalDefaults()
    ensures FromSeq(DefaultFields(Config(["a", "b"], [], false))) == ["a", "b"]
  {
    assert "a" != "b" by { assert "a"[0] != "b"[0]; }
    FromSeqOfNoDups(["a", "b"]);
  }

  /** `id` is new to the edited set, so it goes to the end. */
  lemma IdAfterEdit()
    ensures Add(["b", "c"], "id") == ["b", "c", "id"]
  {
    assert "id"[0] != "b"[0] && "id"[0] != "c"[0];
  }

  /** `+c,-a` on the defaults `a, b` adds `c`, drops `a` and forces `id` in. */
  lemma IncrementalExample()
    ensures RequestedFields(Some("+c,-a"), Config(["a", "b"], [], false)) == ["b", "c", "id"]
  {
    IncrementalTokens();
    IncrementalDefaults();
    EditOfDefaults();
    Edited("+c,-a", Config(["a", "b"], [], false), ["+c", "-a"], ["a", "b"], ["b", "c"]);
    IdAfterEdit();
  }

  /** The external collaborator as the examples use it: every field selected,
      no relation derived. */
  function SelectOnly(fields: seq<string>): SelectRelation {
    SelectRelation(fields, [])
  }


  /** A `*` token is added to the field set as it is. */
  lemma StarEdit()
    ensures ApplyModifiers([], ["*variants"]) == ["*variants"]
    ensures Add(["*variants"], "id") == ["*variants", "id"]
  {
    assert ["*variants"][..0] == [];
    assert !StartsWithChar("*variants", '+') && !StartsWithChar("*variants", '-');
    assert "id"[0] != "*variants"[0];
  }

  /** `*variants` on a configuration without defaults: the token is added as
      it is, then `id` is forced in. */
  lemma StarRequested()
    ensures RequestedFields(Some("*variants"), Config([], [], false)) == ["*variants", "id"]
  {
    var c := Config([], [], false);
    SingleModifiedToken("*variants");
    StarEdit();
    assert DefaultFields(c) == [];
    Edited("*variants", c, ["*variants"], [], ["*variants"]);
  }

  /** The star field leaves the field set and becomes `variants`. */
  lemma StarSplit(requested: seq<string>)
    requires requested == ["*variants", "id"]
    ensures Scalars(requested) == ["id"]
    ensures StarFields(requested) == ["variants"]
  {
    assert requested[..1] == ["*variants"];
    assert ["*variants"][..0] == [];
    assert IsStar(requested[0]) && !IsStar(requested[1]);
    assert "*variants"[1..] == "variants";
  }

  /** `*variants` asks for every property of the `variants` relation: it leaves
      the field set, becomes a relation, and reaches the remote query as
      `variants.*` after the forced `id`. */
  lemma StarExample()
    ensures PreparedListQuery(Request(Some("*variants"), None, None, Undefined, Undefined), Config([], [], false), SelectOnly)
      == Success(ListQuery(
           ListConfig(Some(["id"]), ["variants"], Value(0), Value(50), map["created_at" := Desc]),
           RemoteQueryConfig(["id", "variants.*"], NoPagination)))
  {
    StarRequested();
    StarSplit(["*variants", "id"]);
    StarRelations();
    StarChecks();
    Assembled(Request(Some("*variants"), None, None, Undefined, Undefined), Config([], [], false), SelectOnly,
              ["*variants", "id"], ["id"], ["variants"], ["variants"]);
    StarShape();
  }

  lemma StarRelations()
    ensures AllRelations([], [], ["variants"], None) == ["variants"]
    ensures StarMarkers(["variants"]) == ["variants.*"]
  {
    assert [] + [] + ["variants"] == ["variants"];
    assert ["variants"][..0] == [];
    assert "variants" + ".*" == "variants.*";
  }

  /** Without allow-lists every check passes. */
  lemma StarChecks()
    ensures NotAllowedFields(["id"], ["variants"], AllowedFields(Config([], [], false))) == []
    ensures NotAllowedRelations(["variants"], Config([], [], false)) == []
    ensures OrderError(None, Config([], [], false)) == None
  {
  }

  /** The descriptors the star request's stages build. */
  lemma StarShape()
    ensures var c := Config([], [], false);
      var select := SelectOnly(["id"]).select;
      && ListConfig(if |select| > 0 then Some(select) else None, ["variants"], Skip(Undefined), Take(Undefined, c), OrderBy(None))
         == ListConfig(Some(["id"]), ["variants"], Value(0), Value(50), map["created_at" := Desc])
      && RemoteQueryConfig(["id"] + StarMarkers(["variants"]),
                           if c.isList then Paginate(Skip(Undefined), Take(Undefined, c), OrderBy(None)) else NoPagination)
         == RemoteQueryConfig(["id", "variants.*"], NoPagination)
  {
    StarRelations();
    assert ["id"] + ["variants.*"] == ["id", "variants.*"];
  }

  /** A request whose stages are known resolves to the query they build. */
  lemma Assembled(v: Request, c: QueryConfig, toSelectRelation: seq<string> -> SelectRelation,
                  requested: seq<string>, allFields: seq<string>, starFields: seq<string>, allRelations: seq<string>)
    requires RequestedFields(v.fields, c) == requested
    requires Scalars(requested) == allFields && StarFields(requested) == starFields
    requires NotAllowedFields(allFields, starFields, AllowedFields(c)) == []
    requires AllRelations(toSelectRelation(allFields).relations, c.defaultRelations, starFields, v.expand) == allRelations
    requires NotAllowedRelations(allRelations, c) == []
    requires OrderError(v.order, c) == None
    ensures var select := toSelectRelation(allFields).select;
      var order := OrderBy(v.order);
      PreparedListQuery(v, c, toSelectRelation) == Success(ListQuery(
        ListConfig(if |select| > 0 then Some(select) else None, allRelations, Skip(v.offset), Take(v.limit, c), order),
        RemoteQueryConfig(allFields + StarMarkers(starFields),
                          if c.isList then Paginate(Skip(v.offset), Take(v.limit, c), order) else NoPagination)))
  {
  }

  /** A request whose field check fails resolves to that failure. */
  lemma Refused(v: Request, c: QueryConfig, toSelectRelation: seq<string> -> SelectRelation,
                requested: seq<string>, allFields: seq<string>, starFields: seq<string>, notAllowed: seq<string>)
    requires RequestedFields(v.fields, c) == requested
    requires Scalars(requested) == allFields && StarFields(requested) == starFields
    requires NotAllowedFields(allFields, starFields, AllowedFields(c)) == notAllowed
    requires |allFields| > 0 && |notAllowed| > 0
    ensures PreparedListQuery(v, c, toSelectRelation) == Failure(FieldsNotValid(notAllowed))
  {
  }

  /** `id,price` is two plain tokens, which replace the defaults. */
  lemma RejectionInputs()
    ensures Tokens("id,price") == ["id", "price"] && ShouldReplace(["id", "price"])
  {
    assert "id,price" == "id" + [','] + "price";
    TokensOfPair("id", "price");
    assert !HasModifier(["id", "price"][0]);
  }

  lemma RejectionFieldSet()
    ensures FromSeq(StripSigns(["id", "price"])) == ["id", "price"]
    ensures Add(["id", "price"], "id") == ["id", "price"]
  {
    assert StripSigns(["id", "price"]) == ["id", "price"];
    assert "id" != "price" by { assert "id"[0] != "price"[0]; }
    FromSeqOfNoDups(["id", "price"]);
  }

  /** `id,price` carries a plain field, so it replaces the (empty) defaults. */
  lemma RejectionRequested()
    ensures RequestedFields(Some("id,price"), Config([], ["id", "name"], false)) == ["id", "price"]
  {
    RejectionInputs();
    RejectionFieldSet();
    Replaced("id,price", Config([], ["id", "name"], false), ["id", "price"], ["id", "price"]);
  }

  /** `price` is neither allowed nor prefixed by an allowed field. */
  lemma RejectionCheck()
    ensures NotAllowedFields(["id", "price"], [], AllowedFields(Config([], ["id", "name"], false))) == ["price"]
  {
    assert AllowedFields(Config([], ["id", "name"], false)) == ["id", "name"];
    assert ["id", "price"] + [] == ["id"] + ["price"];
    assert Rejected(["id"], ["id", "name"], []) == [] by {
      RejectedNone(["id"], ["id", "name"]);
    }
    assert !Accepted("price", ["id", "name"], []) by {
      assert "price" != "id" && "price" != "name" by {
        assert "price"[0] != "id"[0] && "price"[0] != "name"[0];
      }
      assert !StartsWith("price", "id") by { assert "price"[0] != "id"[0]; }
      assert !StartsWith("price", "name") by { assert "price"[0] != "name"[0]; }
    }
    RefusedLast(["id"], ["id", "name"], "price");
  }

  lemma PriceMessage()
    ensures Message(FieldsNotValid(["price"])) == "Requested fields [price] are not valid"
  {
    assert Join(["price"], ", ") == "price";
  }

  /** The field set `id, price` holds no star field. */
  lemma RejectionStages()
    ensures Scalars(["id", "price"]) == ["id", "price"]
    ensures StarFields(["id", "price"]) == []
  {
    assert NoDups(["id", "price"]);
    assert !IsStar(["id", "price"][0]) && !IsStar(["id", "price"][1]);
    ScalarsOfScalars(["id", "price"]);
  }

  /** With the allow-list `id, name`, asking for `id,price` fails and names
      `price` alone. */
  lemma RejectionExample()
    ensures PreparedListQuery(Request(Some("id,price"), None, None, Undefined, Undefined), Config([], ["id", "name"], false), SelectOnly)
      == Failure(FieldsNotValid(["price"]))
    ensures Message(FieldsNotValid(["price"])) == "Requested fields [price] are not valid"
  {
    RejectionRequested();
    RejectionStages();
    RejectionCheck();
    Refused(Request(Some("id,price"), None, None, Undefined, Undefined), Config([], ["id", "name"], false), SelectOnly,
            ["id", "price"], ["id", "price"], [], ["price"]);
    PriceMessage();
  }

  lemma TitleEdit()
    ensures ApplyModifiers(["id", "sku"], ["+title"]) == ["id", "sku", "title"]
  {
    assert ["+title"][..0] == [];
    assert "+title"[1..] == "title";
    assert "title" !in ["id", "sku"] by { assert "title"[0] != "id"[0] && "title"[0] != "sku"[0]; }
  }

  lemma ForcedIntoTitleEdit()
    ensures Add(Add(["id", "sku", "title"], "created_at"), "id") == ["id", "sku", "title", "created_at"]
  {
    assert "created_at" !in ["id", "sku", "title"] by {
      assert "created_at"[0] != "id"[0] && "created_at"[0] != "sku"[0] && "created_at"[0] != "title"[0];
    }
    assert "id" in ["id", "sku", "title", "created_at"];
  }


  /** The defaults `id, sku` are a set already. */
  lemma IdSkuDefaults()
    ensures FromSeq(DefaultFields(Config(["id", "sku"], ["id", "sku", "title"], true))) == ["id", "sku"]
  {
    assert "id" != "sku" by { assert "id"[0] != "sku"[0]; }
    FromSeqOfNoDups(["id", "sku"]);
  }

  /** `+title` edits the defaults `id, sku`; the list forces `created_at` and
      `id` in. */
  lemma CreatedAtRequested()
    ensures RequestedFields(Some("+title"), Config(["id", "sku"], ["id", "sku", "title"], true))
      == ["id", "sku", "title", "created_at"]
  {
    SingleModifiedToken("+title");
    IdSkuDefaults();
    TitleEdit();
    Edited("+title", Config(["id", "sku"], ["id", "sku", "title"], true), ["+title"], ["id", "sku"], ["id", "sku", "title"]);
    ForcedIntoTitleEdit();
  }

  /** Only `created_at` fails the allow-list `id, sku, title`. */
  lemma CreatedAtCheck()
    ensures NotAllowedFields(["id", "sku", "title", "created_at"], [], AllowedFields(Config(["id", "sku"], ["id", "sku", "title"], true)))
      == ["created_at"]
  {
    assert AllowedFields(Config(["id", "sku"], ["id", "sku", "title"], true)) == ["id", "sku", "title"];
    assert ["id", "sku", "title", "created_at"] + [] == ["id", "sku", "title"] + ["created_at"];
    RejectedNone(["id", "sku", "title"], ["id", "sku", "title"]);
    assert !Accepted("created_at", ["id", "sku", "title"], []) by {
      assert "created_at"[0] != "id"[0] && "created_at"[0] != "sku"[0] && "created_at"[0] != "title"[0];
      assert !StartsWith("created_at", "id");
      assert !StartsWith("created_at", "sku");
      assert !StartsWith("created_at", "title");
    }
    RefusedLast(["id", "sku", "title"], ["id", "sku", "title"], "created_at");
  }

  /** The field set of `+title` holds no star field. */
  lemma CreatedAtStages()
    ensures Scalars(["id", "sku", "title", "created_at"]) == ["id", "sku", "title", "created_at"]
    ensures StarFields(["id", "sku", "title", "created_at"]) == []
  {
    var requested := ["id", "sku", "title", "created_at"];
    assert NoDups(requested);
    assert !IsStar(requested[0]) && !IsStar(requested[1]) && !IsStar(requested[2]) && !IsStar(requested[3]);
    ScalarsOfScalars(requested);
  }

  /** `+title` on a list whose allow-list leaves out `created_at` fails: the
      forced `created_at` is itself refused. */
  lemma ForcedCreatedAtIsChecked()
    ensures PreparedListQuery(Request(Some("+title"), None, None, Undefined, Undefined),
                              Config(["id", "sku"], ["id", "sku", "title"], true), SelectOnly)
      == Failure(FieldsNotValid(["created_at"]))
  {
    var requested := ["id", "sku", "title", "created_at"];
    CreatedAtRequested();
    CreatedAtStages();
    CreatedAtCheck();
    Refused(Request(Some("+title"), None, None, Undefined, Undefined), Config(["id", "sku"], ["id", "sku", "title"], true), SelectOnly,
            requested, requested, [], ["created_at"]);
  }

  /** Fields that are all allowed as they are leave nothing to refuse. */
  lemma RejectedNone(fields: seq<string>, allowed: seq<string>)
    requires forall x :: x in fields ==> x in allowed
    ensures Rejected(fields, allowed, []) == []
  {
    RejectedExactly(fields, allowed, []);
  }

  // ---------------------------------------------------------------------------
  // A field set that does not survive the round trip

  /** `++a` is one `+` token; it adds `+a`, with its second sign kept. */
  lemma DoubleSignAdds()
    ensures RequestedFields(Some("++a"), Config([], [], false)) == ["+a", "id"]
  {
    SingleModifiedToken("++a");
    assert FromSeq<string>([]) == [];
    assert ["++a"][..0] == [];
    assert "++a"[1..] == "+a";
    assert ApplyModifiers([], ["++a"]) == ["+a"];
    Edited("++a", Config([], [], false), ["++a"], [], ["+a"]);
    assert "id"[0] != "+a"[0];
  }

  /** `+a,id` holds a plain token, so it replaces the defaults, and the sign of
      `+a` is stripped. */
  lemma SignedFieldSentBack()
    ensures RequestedFields(Some("+a,id"), Config([], [], false)) == ["a", "id"]
  {
    assert "+a,id" == "+a" + [','] + "id";
    TokensOfPair("+a", "id");
    assert !HasModifier(["+a", "id"][1]);
    assert StripSigns(["+a", "id"]) == ["a", "id"];
    assert "a" != "id" by { assert "a"[0] != "id"[0]; }
    FromSeqOfNoDups(["a", "id"]);
    Replaced("+a,id", Config([], [], false), ["+a", "id"], ["a", "id"]);
  }

  /** Sending back the fields `++a` resolves to, comma-joined, gives other
      fields: the round trip of `ReplacementIsIdempotent` needs unsigned
      fields. */
  lemma SignedFieldsAreNotIdempotent()
    ensures var scalars := Scalars(RequestedFields(Some("++a"), Config([], [], false)));
      && scalars == ["+a", "id"]
      && Join(scalars, ",") == "+a,id"
      && RequestedFields(Some(Join(scalars, ",")), Config([], [], false)) != scalars
  {
    DoubleSignAdds();
    SignedScalars();
    SignedFieldSentBack();
    assert ["a", "id"][0] != ["+a", "id"][0] by { assert "a"[0] != "+a"[0]; }
  }

  /** `+a, id` holds no star field, and comma-joined it reads `+a,id`. */
  lemma SignedScalars()
    ensures Scalars(["+a", "id"]) == ["+a", "id"]
    ensures Join(["+a", "id"], ",") == "+a,id"
  {
    assert "+a" != "id" by { assert "+a"[0] != "id"[0]; }
    assert NoDups(["+a", "id"]);
    assert !IsStar(["+a", "id"][0]) && !IsStar(["+a", "id"][1]);
    ScalarsOfScalars(["+a", "id"]);
  }

  /** A lone `+` adds the empty field. */
  lemma PlusAddsEmptyField()
    ensures RequestedFields(Some("+"), Config([], [], false)) == ["", "id"]
  {
    SingleModifiedToken("+");
    assert FromSeq<string>([]) == [];
    assert ["+"][..0] == [];
    assert "+"[1..] == "";
    assert ApplyModifiers([], ["+"]) == [""];
    Edited("+", Config([], [], false), ["+"], [], [""]);
  }

  /** `,id` sent back keeps only its non-empty piece, `id`. */
  lemma EmptyFieldSentBack()
    ensures RequestedFields(Some(",id"), Config([], [], false)) == ["id"]
  {
    assert ",id" == "" + [','] + "id";
    SplitAtFirst("", ',', "id");
    SplitWithoutSeparator("id", ',');
    assert Tokens(",id") == ["id"];
    assert !HasModifier(["id"][0]);
    assert StripSigns(["id"]) == ["id"];
    FromSeqOfNoDups(["id"]);
    Replaced(",id", Config([], [], false), ["id"], ["id"]);
  }

  /** The empty field that `+` resolves to is lost when the fields are sent
      back: the round trip of `ReplacementIsIdempotent` needs non-empty
      fields. */
  lemma EmptyFieldsAreNotIdempotent()
    ensures var scalars := Scalars(RequestedFields(Some("+"), Config([], [], false)));
      && scalars == ["", "id"]
      && Join(scalars, ",") == ",id"
      && RequestedFields(Some(Join(scalars, ",")), Config([], [], false)) != scalars
  {
    PlusAddsEmptyField();
    EmptyScalars();
    EmptyFieldSentBack();
  }

  /** `"", id` holds no star field, and comma-joined it reads `,id`. */
  lemma EmptyScalars()
    ensures Scalars(["", "id"]) == ["", "id"]
    ensures Join(["", "id"], ",") == ",id"
  {
    assert NoDups(["", "id"]);
    assert !IsStar(["", "id"][0]) && !IsStar(["", "id"][1]);
    ScalarsOfScalars(["", "id"]);
  }
}
