/** The export command's query options: either individual options (type
    names, ids, bounding box, counter, LoDs, appearance, SQL select) or one
    XML query, never both. `preprocess` enforces the exclusion and delegates
    to the nested options; `toQueryConfig` assembles a query configuration.

    Each nested option is reduced to what this class reads from it: the
    value its conversion returns (None for a Java null) and the outcome of
    its own `preprocess`. */
module QueryOptions {
  import opened Wrappers
  import opened Beans

  datatype TypeNamesOption = TypeNamesOption(featureTypeFilter: BeanRef, preprocessed: Outcome<string>)
  datatype ResourceIdOption = ResourceIdOption(idOperator: Option<BeanRef>, preprocessed: Outcome<string>)
  datatype BoundingBoxOption = BoundingBoxOption(spatialOperator: Option<BeanRef>, preprocessed: Outcome<string>)
  datatype CounterOption = CounterOption(counterFilter: BeanRef, preprocessed: Outcome<string>)
  datatype LodOption = LodOption(lodFilter: BeanRef, preprocessed: Outcome<string>)
  datatype AppearanceOption = AppearanceOption(exportAppearances: bool, appearanceFilter: BeanRef, preprocessed: Outcome<string>)
  datatype SqlSelectOption = SqlSelectOption(selectOperator: Option<BeanRef>, preprocessed: Outcome<string>)
  datatype XmlQueryOption = XmlQueryOption(queryConfig: QueryConfig, preprocessed: Outcome<string>)

  /** The selection predicates the individual options contribute. */
  datatype Predicate = ResourceId(op: BeanRef) | Spatial(op: BeanRef) | SqlSelect(op: BeanRef)

  /** A query configuration; `selectionFilter` holds the operands of the
      AND operator of the selection filter. */
  datatype QueryConfig = QueryConfig(
    featureTypeFilter: Option<BeanRef>,
    counterFilter: Option<BeanRef>,
    lodFilter: Option<BeanRef>,
    appearanceFilter: Option<BeanRef>,
    selectionFilter: Option<seq<Predicate>>)

  /** The argument groups picocli fills in; None is an absent group. */
  datatype QueryOption = QueryOption(
    typeNames: Option<TypeNamesOption>,
    ids: Option<ResourceIdOption>,
    boundingBox: Option<BoundingBoxOption>,
    counter: Option<CounterOption>,
    lods: Option<LodOption>,
    appearance: Option<AppearanceOption>,
    sqlSelect: Option<SqlSelectOption>,
    xmlQuery: Option<XmlQueryOption>)

  /** The individual options, in the order `preprocess` checks them. */
  datatype OptionKind = TypeNames | Ids | BoundingBox | Counter | Lods | Appearance | SqlSelectKind

  function Rank(k: OptionKind): nat
  {
    match k
    case TypeNames => 0
    case Ids => 1
    case BoundingBox => 2
    case Counter => 3
    case Lods => 4
    case Appearance => 5
    case SqlSelectKind => 6
  }

  predicate Present(q: QueryOption, k: OptionKind)
  {
    match k
    case TypeNames => q.typeNames.Some?
    case Ids => q.ids.Some?
    case BoundingBox => q.boundingBox.Some?
    case Counter => q.counter.Some?
    case Lods => q.lods.Some?
    case Appearance => q.appearance.Some?
    case SqlSelectKind => q.sqlSelect.Some?
  }

  /** Some individual (non-XML) option is given. */
  predicate AnyIndividualOption(q: QueryOption)
  {
    q.typeNames.Some? || q.ids.Some? || q.boundingBox.Some? || q.counter.Some?
    || q.lods.Some? || q.appearance.Some? || q.sqlSelect.Some?
  }

  /** An individual option is given exactly when one of the kinds is. */
  lemma AnyIndividualOptionIsSomeKind(q: QueryOption)
    ensures AnyIndividualOption(q) <==> exists k :: Present(q, k)
  {
    if AnyIndividualOption(q) {
      var k := if q.typeNames.Some? then TypeNames else if q.ids.Some? then Ids
               else if q.boundingBox.Some? then BoundingBox else if q.counter.Some? then Counter
               else if q.lods.Some? then Lods else if q.appearance.Some? then Appearance else SqlSelectKind;
      assert Present(q, k);
    }
  }

  datatype QueryError = Exclusive(kind: OptionKind) | Nested(message: string)

  function Message(e: QueryError): string
  {
    match e
    case Exclusive(TypeNames) => "Error: --type-names and --xml-query are mutually exclusive (specify only one)"
    case Exclusive(Ids) => "Error: --ids and --xml-query are mutually exclusive (specify only one)"
    case Exclusive(BoundingBox) => "Error: --bbox and --xml-query are mutually exclusive (specify only one)"
    case Exclusive(Counter) => "Error: Counter options and --xml-query are mutually exclusive (specify only one)"
    case Exclusive(Lods) => "Error: --lods and --xml-query are mutually exclusive (specify only one)"
    case Exclusive(Appearance) => "Error: Appearance options and --xml-query are mutually exclusive (specify only one)"
    case Exclusive(SqlSelectKind) => "Error: --sql-select and --xml-query are mutually exclusive (specify only one)"
    case Nested(message) => message
  }

  /** The nested `preprocess` calls this option makes, in order: the XML
      query (when it passed the exclusion checks), then type names, bounding
      box, counter and LoDs. */
  function Delegated(q: QueryOption): seq<Outcome<string>>
  {
    (if q.xmlQuery.Some? then [q.xmlQuery.value.preprocessed] else [])
    + ((if q.typeNames.Some? then [q.typeNames.value.preprocessed] else [])
       + ((if q.boundingBox.Some? then [q.boundingBox.value.preprocessed] else [])
          + ((if q.counter.Some? then [q.counter.value.preprocessed] else [])
             + (if q.lods.Some? then [q.lods.value.preprocessed] else []))))
  }

  /** The first failing outcome of a sequence of nested calls. */
  function FirstFailure(outcomes: seq<Outcome<string>>): (r: Outcome<string>)
    ensures r.Pass? <==> forall i :: 0 <= i < |outcomes| ==> outcomes[i].Pass?
  {
    if outcomes == [] then Pass
    else if outcomes[0].Fail? then outcomes[0]
    else FirstFailure(outcomes[1..])
  }

  /** A reported failure is the earliest failing call. */
  lemma {:induction false} FirstFailureIsEarliest(outcomes: seq<Outcome<string>>)
    requires FirstFailure(outcomes).Fail?
    ensures exists i :: 0 <= i < |outcomes| && outcomes[i] == FirstFailure(outcomes)
                        && forall j :: 0 <= j < i ==> outcomes[j].Pass?
  {
    if outcomes[0].Pass? {
      var rest := outcomes[1..];
      FirstFailureIsEarliest(rest);
      var i :| 0 <= i < |rest| && rest[i] == FirstFailure(rest) && forall j :: 0 <= j < i ==> rest[j].Pass?;
      assert outcomes[i + 1] == FirstFailure(outcomes);
      forall j | 0 <= j < i + 1 ensures outcomes[j].Pass? {
        if j > 0 { assert outcomes[j] == rest[j - 1]; }
      }
    } else {
      assert outcomes[0] == FirstFailure(outcomes);
    }
  }

  /** Calls made one after another fail at the first part's failure, if
      any, and otherwise at the second part's. */
  lemma {:induction false} FirstFailureAppend(a: seq<Outcome<string>>, b: seq<Outcome<string>>)
    ensures FirstFailure(a + b) == if FirstFailure(a).Fail? then FirstFailure(a) else FirstFailure(b)
  {
    if a != [] {
      assert (a + b)[0] == a[0];
      if a[0].Pass? {
        assert (a + b)[1..] == a[1..] + b;
        FirstFailureAppend(a[1..], b);
      }
    } else {
      assert a + b == b;
    }
  }

  function Lift(o: Outcome<string>): Outcome<QueryError>
  {
    match o
    case Pass => Pass
    case Fail(m) => Fail(Nested(m))
  }

  /** `preprocess`: with an XML query, the first individual option given
      (in checking order) is reported as exclusive; otherwise the first
      nested failure is reported. */
  function Preprocess(q: QueryOption): (r: Outcome<QueryError>)
    ensures r.Pass? ==> q.xmlQuery.Some? ==> !AnyIndividualOption(q)
    ensures r.Fail? && r.error.Exclusive? ==> q.xmlQuery.Some? && Present(q, r.error.kind)
  {
    if q.xmlQuery.Some? && q.typeNames.Some? then Fail(Exclusive(TypeNames))
    else if q.xmlQuery.Some? && q.ids.Some? then Fail(Exclusive(Ids))
    else if q.xmlQuery.Some? && q.boundingBox.Some? then Fail(Exclusive(BoundingBox))
    else if q.xmlQuery.Some? && q.counter.Some? then Fail(Exclusive(Counter))
    else if q.xmlQuery.Some? && q.lods.Some? then Fail(Exclusive(Lods))
    else if q.xmlQuery.Some? && q.appearance.Some? then Fail(Exclusive(Appearance))
    else if q.xmlQuery.Some? && q.sqlSelect.Some? then Fail(Exclusive(SqlSelectKind))
    else if q.xmlQuery.Some? && q.xmlQuery.value.preprocessed.Fail? then Fail(Nested(q.xmlQuery.value.preprocessed.error))
    else if q.typeNames.Some? && q.typeNames.value.preprocessed.Fail? then Fail(Nested(q.typeNames.value.preprocessed.error))
    else if q.boundingBox.Some? && q.boundingBox.value.preprocessed.Fail? then Fail(Nested(q.boundingBox.value.preprocessed.error))
    else if q.counter.Some? && q.counter.value.preprocessed.Fail? then Fail(Nested(q.counter.value.preprocessed.error))
    else if q.lods.Some? && q.lods.value.preprocessed.Fail? then Fail(Nested(q.lods.value.preprocessed.error))
    else Pass
  }

  /** An XML query together with an individual option is rejected as an
      exclusion naming a given option; a nested failure is the outcome of
      one of the delegated calls; and the options pass exactly when there is
      no conflict and every delegated call passes. */
  lemma PreprocessOutcome(q: QueryOption)
    ensures var r := Preprocess(q);
            && (q.xmlQuery.Some? && AnyIndividualOption(q) ==> r.Fail? && r.error.Exclusive? && Present(q, r.error.kind))
            && (r.Fail? && r.error.Nested? ==> Fail(r.error.message) in Delegated(q))
            && (r.Pass? <==> (q.xmlQuery.Some? ==> !AnyIndividualOption(q))
                             && forall i :: 0 <= i < |Delegated(q)| ==> Delegated(q)[i].Pass?)
  {
  }

  /** With an XML query, the first individual option given, in checking
      order, is the one reported. */
  lemma PreprocessReportsFirstConflict(q: QueryOption, k: OptionKind)
    requires q.xmlQuery.Some? && Present(q, k)
    requires forall k' :: Rank(k') < Rank(k) ==> !Present(q, k')
    ensures Preprocess(q) == Fail(Exclusive(k))
  {
    assert Rank(TypeNames) == 0 && Rank(Ids) == 1 && Rank(BoundingBox) == 2 && Rank(Counter) == 3
           && Rank(Lods) == 4 && Rank(Appearance) == 5;
  }

  /** Without a conflict, `preprocess` reports the earliest failing nested
      call. */
  lemma PreprocessReportsFirstNestedFailure(q: QueryOption)
    requires q.xmlQuery.None? || !AnyIndividualOption(q)
    ensures Preprocess(q) == Lift(FirstFailure(Delegated(q)))
  {
    var t := if q.typeNames.Some? then [q.typeNames.value.preprocessed] else [];
    var b := if q.boundingBox.Some? then [q.boundingBox.value.preprocessed] else [];
    var c := if q.counter.Some? then [q.counter.value.preprocessed] else [];
    var l := if q.lods.Some? then [q.lods.value.preprocessed] else [];
    if q.xmlQuery.Some? {
      assert Delegated(q) == [q.xmlQuery.value.preprocessed];
    } else {
      assert Delegated(q) == t + (b + (c + l));
      FirstFailureAppend(c, l);
      FirstFailureAppend(b, c + l);
      FirstFailureAppend(t, b + (c + l));
    }
  }

  /** The id, appearance and SQL-select options are never asked to
      preprocess themselves: their own outcomes do not affect the result. */
  lemma PreprocessIgnoresUndelegated(q: QueryOption, ids: Outcome<string>, app: Outcome<string>, sql: Outcome<string>)
    ensures var q' := q.(ids := if q.ids.Some? then Some(q.ids.value.(preprocessed := ids)) else None,
                         appearance := if q.appearance.Some? then Some(q.appearance.value.(preprocessed := app)) else None,
                         sqlSelect := if q.sqlSelect.Some? then Some(q.sqlSelect.value.(preprocessed := sql)) else None);
            Preprocess(q') == Preprocess(q)
  {
  }

  /** After a successful `preprocess`, `toQueryConfig` has exactly one
      source: an XML query excludes every individual option. */
  lemma PreprocessedSourcesExclusive(q: QueryOption)
    requires Preprocess(q).Pass?
    ensures !(q.xmlQuery.Some? && AnyIndividualOption(q))
  {
    PreprocessOutcome(q);
  }

  /** The predicates `toQueryConfig` collects: ids, then bounding box, then
      SQL select, each only when its option is given and converts to a
      non-null operator. */
  function CollectedPredicates(q: QueryOption): seq<Predicate>
  {
    (if q.ids.Some? && q.ids.value.idOperator.Some? then [ResourceId(q.ids.value.idOperator.value)] else [])
    + (if q.boundingBox.Some? && q.boundingBox.value.spatialOperator.Some? then [Spatial(q.boundingBox.value.spatialOperator.value)] else [])
    + (if q.sqlSelect.Some? && q.sqlSelect.value.selectOperator.Some? then [SqlSelect(q.sqlSelect.value.selectOperator.value)] else [])
  }

  /** At most one predicate per option, each present exactly when its
      option is given with a non-null operator, in the order ids, bounding
      box, SQL select. */
  lemma CollectedPredicatesAre(q: QueryOption)
    ensures var r := CollectedPredicates(q);
            && |r| <= 3
            && (forall p :: p in r <==>
                  || (q.ids.Some? && q.ids.value.idOperator.Some? && p == ResourceId(q.ids.value.idOperator.value))
                  || (q.boundingBox.Some? && q.boundingBox.value.spatialOperator.Some? && p == Spatial(q.boundingBox.value.spatialOperator.value))
                  || (q.sqlSelect.Some? && q.sqlSelect.value.selectOperator.Some? && p == SqlSelect(q.sqlSelect.value.selectOperator.value)))
            && (forall i, j :: 0 <= i < j < |r| ==> PredicateRank(r[i]) < PredicateRank(r[j]))
  {
  }

  function PredicateRank(p: Predicate): nat
  {
    match p
    case ResourceId(_) => 0
    case Spatial(_) => 1
    case SqlSelect(_) => 2
  }

  /** The configuration `toQueryConfig` builds from the individual options:
      each filter comes from its option when given, the appearance filter
      only when appearances are exported, and the AND selection filter
      holds the collected predicates when there is at least one. */
  function IndividualConfig(q: QueryOption): QueryConfig
  {
    var predicates := CollectedPredicates(q);
    QueryConfig(
      if q.typeNames.Some? then Some(q.typeNames.value.featureTypeFilter) else None,
      if q.counter.Some? then Some(q.counter.value.counterFilter) else None,
      if q.lods.Some? then Some(q.lods.value.lodFilter) else None,
      if q.appearance.Some? && q.appearance.value.exportAppearances then Some(q.appearance.value.appearanceFilter) else None,
      if predicates != [] then Some(predicates) else None)
  }

  /** A filter of the built configuration is set exactly when its option is
      given, and then holds that option's value. */
  lemma IndividualConfigFilters(q: QueryOption)
    ensures var c := IndividualConfig(q);
            && (c.featureTypeFilter.Some? <==> q.typeNames.Some?)
            && (q.typeNames.Some? ==> c.featureTypeFilter == Some(q.typeNames.value.featureTypeFilter))
            && (c.counterFilter.Some? <==> q.counter.Some?)
            && (q.counter.Some? ==> c.counterFilter == Some(q.counter.value.counterFilter))
            && (c.lodFilter.Some? <==> q.lods.Some?)
            && (q.lods.Some? ==> c.lodFilter == Some(q.lods.value.lodFilter))
            && (c.appearanceFilter.Some? <==> q.appearance.Some? && q.appearance.value.exportAppearances)
            && (c.appearanceFilter.Some? ==> c.appearanceFilter == Some(q.appearance.value.appearanceFilter))
            && (c.selectionFilter.Some? <==> CollectedPredicates(q) != [])
            && (c.selectionFilter.Some? ==> c.selectionFilter.value == CollectedPredicates(q))
  {
  }

  /** `toQueryConfig`. With an individual option given it builds a fresh
      configuration from the individual options; otherwise it delegates to
      the XML query, and None stands for the null dereference when there is
      none. The flag says whether the global export-appearances setting is
      switched off, which an appearance option without export does. */
  method ToQueryConfig(q: QueryOption) returns (config: Option<QueryConfig>, clearExportAppearances: bool)
    ensures AnyIndividualOption(q) ==> config == Some(IndividualConfig(q))
    ensures !AnyIndividualOption(q) ==> config == if q.xmlQuery.Some? then Some(q.xmlQuery.value.queryConfig) else None
    ensures clearExportAppearances <==> q.appearance.Some? && !q.appearance.value.exportAppearances
  {
    clearExportAppearances := false;
    if AnyIndividualOption(q) {
      var c := QueryConfig(None, None, None, None, None);
      var predicates: seq<Predicate> := [];

      if q.typeNames.Some? {
        c := c.(featureTypeFilter := Some(q.typeNames.value.featureTypeFilter));
      }

      if q.ids.Some? {
        var idOperator := q.ids.value.idOperator;
        if idOperator.Some? {
          predicates := predicates + [ResourceId(idOperator.value)];
        }
      }

      if q.boundingBox.Some? {
        var spatialOperator := q.boundingBox.value.spatialOperator;
        if spatialOperator.Some? {
          predicates := predicates + [Spatial(spatialOperator.value)];
        }
      }

      assert predicates + (if q.sqlSelect.Some? && q.sqlSelect.value.selectOperator.Some? then [SqlSelect(q.sqlSelect.value.selectOperator.value)] else [])
             == CollectedPredicates(q);

      if q.counter.Some? {
        c := c.(counterFilter := Some(q.counter.value.counterFilter));
      }

      if q.lods.Some? {
        c := c.(lodFilter := Some(q.lods.value.lodFilter));
      }

      if q.appearance.Some? {
        if q.appearance.value.exportAppearances {
          c := c.(appearanceFilter := Some(q.appearance.value.appearanceFilter));
        } else {
          clearExportAppearances := true;
        }
      }

      if q.sqlSelect.Some? {
        var selectOperator := q.sqlSelect.value.selectOperator;
        if selectOperator.Some? {
          predicates := predicates + [SqlSelect(selectOperator.value)];
        }
      }

      assert predicates == CollectedPredicates(q);
      if predicates != [] {
        c := c.(selectionFilter := Some(predicates));
      }

      config := Some(c);
    } else {
      if q.xmlQuery.Some? {
        config := Some(q.xmlQuery.value.queryConfig);
      } else {
        config := None;
      }
    }
  }
}
