/** The two query-string binders of the list options: `ListArgsModelBinder`
    fills a `ListArgs`/`SearchArgs` object (paging, sorting, search and
    filters) from the request's query pairs, and `ListArgsPageOnlyModelBinder`
    fills only the paging of a `ListArgsPageOnly`. Each pair is dispatched on
    its lower-cased key; a bad paging value or search type raises a user error
    and stops the binding where it is. */
module ListOptions {
  import opened Wrappers
  import opened Text

  /** The OrderCloud `SearchType` enumeration. */
  datatype SearchType = AnyTerm | AllTermsAnyField | AllTermsSameField | ExactPhrase | ExactPhrasePrefix

  function SearchTypeName(t: SearchType): string
  {
    match t
    case AnyTerm => "AnyTerm"
    case AllTermsAnyField => "AllTermsAnyField"
    case AllTermsSameField => "AllTermsSameField"
    case ExactPhrase => "ExactPhrase"
    case ExactPhrasePrefix => "ExactPhrasePrefix"
  }

  /** The member name in lower case, the form `Enum.TryParse` compares when it ignores case. */
  function LowerName(t: SearchType): string
  {
    match t
    case AnyTerm => "anyterm"
    case AllTermsAnyField => "alltermsanyfield"
    case AllTermsSameField => "alltermssamefield"
    case ExactPhrase => "exactphrase"
    case ExactPhrasePrefix => "exactphraseprefix"
  }

  lemma LowerNameIsLowerCaseName(t: SearchType)
    ensures LowerName(t) == Lower(SearchTypeName(t))
  {
    match t
    case AnyTerm => LowerMatches("AnyTerm", "anyterm");
    case AllTermsAnyField => LowerMatches("AllTermsAnyField", "alltermsanyfield");
    case AllTermsSameField => LowerMatches("AllTermsSameField", "alltermssamefield");
    case ExactPhrase => LowerMatches("ExactPhrase", "exactphrase");
    case ExactPhrasePrefix => LowerMatches("ExactPhrasePrefix", "exactphraseprefix");
  }

  /** `Enum.TryParse(value, ignoreCase: true, out SearchType)` on member names. */
  function ParseSearchType(value: string): (r: Option<SearchType>)
    ensures r.Some? ==> Lower(value) == LowerName(r.value)
    ensures r.None? ==> forall t: SearchType :: Lower(value) != LowerName(t)
  {
    var v := Lower(value);
    if v == LowerName(AnyTerm) then Some(AnyTerm)
    else if v == LowerName(AllTermsAnyField) then Some(AllTermsAnyField)
    else if v == LowerName(AllTermsSameField) then Some(AllTermsSameField)
    else if v == LowerName(ExactPhrase) then Some(ExactPhrase)
    else if v == LowerName(ExactPhrasePrefix) then Some(ExactPhrasePrefix)
    else None
  }

  /** One `(key, value)` entry of the request's query collection. */
  datatype QueryPair = QueryPair(key: string, value: string)

  /** A `ListFilter` built from a query pair the binder does not recognise. */
  datatype ListFilter = ListFilter(key: string, value: string)

  /** The `UserErrorException`s the binders raise. */
  datatype UserError = PageInvalid | PageSizeInvalid | SearchTypeInvalid

  const MaxPageSize: int := 100

  /** The bindable properties of a list-arguments object. */
  datatype ArgsState = ArgsState(
    page: int,
    pageSize: int,
    sortBy: seq<string>,
    search: string,
    searchOn: string,
    searchType: SearchType,
    filters: seq<ListFilter>)

  /** The paging properties of a `ListArgsPageOnly`. */
  datatype PageArgs = PageArgs(page: int, pageSize: int)

  /** Where a binding stopped: the arguments as they were then, and the error, if any. */
  datatype Bound<S> = Bound(args: S, error: Option<UserError>)

  // ---------------------------------------------------------------------------
  // What a single pair does

  /** The case labels of the binders' `switch (key.ToLower())`. */
  datatype KeyKind = SortByKey | PageKey | PageSizeKey | SearchKey | SearchOnKey | SearchTypeKey | OtherKey

  function KindOf(key: string): (kind: KeyKind)
  {
    var k := Lower(key);
    if k == "sortby" then SortByKey
    else if k == "page" then PageKey
    else if k == "pagesize" then PageSizeKey
    else if k == "search" then SearchKey
    else if k == "searchon" then SearchOnKey
    else if k == "searchtype" then SearchTypeKey
    else OtherKey
  }

  /** Each case is selected by exactly its label, in any letter case; every other key
      reaches the `default` branch. */
  lemma KindOfNamesCases(key: string)
    ensures KindOf(key) == SortByKey <==> Lower(key) == "sortby"
    ensures KindOf(key) == PageKey <==> Lower(key) == "page"
    ensures KindOf(key) == PageSizeKey <==> Lower(key) == "pagesize"
    ensures KindOf(key) == SearchKey <==> Lower(key) == "search"
    ensures KindOf(key) == SearchOnKey <==> Lower(key) == "searchon"
    ensures KindOf(key) == SearchTypeKey <==> Lower(key) == "searchtype"
  {
  }

  predicate ValidPage(value: string)
  {
    ParseInt(value).Some? && ParseInt(value).value >= 1
  }

  predicate ValidPageSize(value: string)
  {
    ParseInt(value).Some? && 1 <= ParseInt(value).value <= MaxPageSize
  }

  /** Keys that the full binder stores in `Filters` rather than in a property. */
  predicate IsFilterKey(hasSearchType: bool, key: string)
  {
    var kind := KindOf(key);
    kind == OtherKey || (kind == SearchTypeKey && !hasSearchType)
  }

  /** Pairs the full binder accepts without raising a user error. */
  predicate Acceptable(hasSearchType: bool, p: QueryPair)
  {
    var kind := KindOf(p.key);
    && (kind == PageKey ==> ValidPage(p.value))
    && (kind == PageSizeKey ==> ValidPageSize(p.value))
    && (kind == SearchTypeKey && hasSearchType ==> ParseSearchType(p.value).Some?)
  }

  /** The error raised for a rejected pair, chosen by its key. */
  function ErrorFor(key: string): UserError
  {
    match KindOf(key)
    case PageKey => PageInvalid
    case PageSizeKey => PageSizeInvalid
    case _ => SearchTypeInvalid
  }

  function FilterOf(hasSearchType: bool, p: QueryPair): seq<ListFilter>
  {
    if IsFilterKey(hasSearchType, p.key) then [ListFilter(p.key, p.value)] else []
  }

  /** One iteration of `ListArgsModelBinder.LoadFromQueryString`'s loop. */
  function Step(a: ArgsState, hasSearchType: bool, p: QueryPair): (r: Result<ArgsState, UserError>)
    ensures r.Success? <==> Acceptable(hasSearchType, p)
    ensures r.Failure? ==> r.error == ErrorFor(p.key)
    ensures r.Success? ==> r.value.filters == a.filters + FilterOf(hasSearchType, p)
  {
    match KindOf(p.key)
    case SortByKey => Success(a.(sortBy := Distinct(Split(p.value, ','))))
    case PageKey =>
      var i := ParseInt(p.value);
      if i.Some? && i.value >= 1 then Success(a.(page := i.value)) else Failure(PageInvalid)
    case PageSizeKey =>
      var i := ParseInt(p.value);
      if i.Some? && i.value >= 1 && i.value <= MaxPageSize then Success(a.(pageSize := i.value))
      else Failure(PageSizeInvalid)
    case SearchKey => Success(a.(search := p.value))
    case SearchOnKey => Success(a.(searchOn := p.value))
    case SearchTypeKey =>
      if hasSearchType then
        var t := ParseSearchType(p.value);
        if t.Some? then Success(a.(searchType := t.value)) else Failure(SearchTypeInvalid)
      else Success(a.(filters := a.filters + [ListFilter(p.key, p.value)]))
    case OtherKey => Success(a.(filters := a.filters + [ListFilter(p.key, p.value)]))
  }

  // ---------------------------------------------------------------------------
  // The whole query

  /** The filters of a query, in query order: one per pair whose key names no property. */
  function Filters(q: seq<QueryPair>, hasSearchType: bool): seq<ListFilter>
  {
    if q == [] then [] else FilterOf(hasSearchType, q[0]) + Filters(q[1..], hasSearchType)
  }

  lemma {:induction false} FiltersAppend(q: seq<QueryPair>, p: QueryPair, hasSearchType: bool)
    ensures Filters(q + [p], hasSearchType) == Filters(q, hasSearchType) + FilterOf(hasSearchType, p)
  {
    if q != [] {
      assert (q + [p])[1..] == q[1..] + [p];
      FiltersAppend(q[1..], p, hasSearchType);
    }
  }

  lemma FiltersOfInit(q: seq<QueryPair>, hasSearchType: bool)
    requires q != []
    ensures Filters(q, hasSearchType) == Filters(q[..|q| - 1], hasSearchType) + FilterOf(hasSearchType, q[|q| - 1])
  {
    assert q == q[..|q| - 1] + [q[|q| - 1]];
    FiltersAppend(q[..|q| - 1], q[|q| - 1], hasSearchType);
  }

  /** Where binding stands after one more pair, given where it stood before. */
  function Next(b: Bound<ArgsState>, hasSearchType: bool, p: QueryPair): Bound<ArgsState>
  {
    if b.error.Some? then b
    else
      match Step(b.args, hasSearchType, p)
      case Success(next) => Bound(next, None)
      case Failure(e) => Bound(b.args, Some(e))
  }

  /** One more pair leaves binding without error exactly when it had none and the pair is
      acceptable, and then adds that pair's filter, if any. */
  lemma NextStep(b: Bound<ArgsState>, hasSearchType: bool, p: QueryPair)
    ensures Next(b, hasSearchType, p).error.None? <==> b.error.None? && Acceptable(hasSearchType, p)
    ensures Next(b, hasSearchType, p).error.None? ==>
      Next(b, hasSearchType, p).args.filters == b.args.filters + FilterOf(hasSearchType, p)
  {
  }

  /** `ListArgsModelBinder.LoadFromQueryString` over the pairs of `q`, in order, starting
      from `a`: the arguments after the last pair, or where the first rejected pair stopped it. */
  function Load(q: seq<QueryPair>, a: ArgsState, hasSearchType: bool): Bound<ArgsState>
    decreases |q|
  {
    if q == [] then Bound(a, None) else Next(Load(q[..|q| - 1], a, hasSearchType), hasSearchType, q[|q| - 1])
  }

  /** Every pair of the query is acceptable. */
  predicate AllAcceptable(q: seq<QueryPair>, hasSearchType: bool)
  {
    forall i :: 0 <= i < |q| ==> Acceptable(hasSearchType, q[i])
  }

  lemma AllAcceptableSnoc(q: seq<QueryPair>, hasSearchType: bool)
    requires q != []
    ensures AllAcceptable(q, hasSearchType)
        <==> AllAcceptable(q[..|q| - 1], hasSearchType) && Acceptable(hasSearchType, q[|q| - 1])
  {
    assert forall i :: 0 <= i < |q| - 1 ==> q[..|q| - 1][i] == q[i];
  }

  /** Binding succeeds exactly when every pair of the query is acceptable. */
  lemma {:induction false} LoadSucceedsIff(q: seq<QueryPair>, a: ArgsState, hasSearchType: bool)
    ensures Load(q, a, hasSearchType).error.None? <==> AllAcceptable(q, hasSearchType)
  {
    if q != [] {
      var init := q[..|q| - 1];
      LoadSucceedsIff(init, a, hasSearchType);
      NextStep(Load(init, a, hasSearchType), hasSearchType, q[|q| - 1]);
      AllAcceptableSnoc(q, hasSearchType);
    }
  }

  /** After a successful binding the filters are the earlier ones followed by one filter
      per pair whose key names no property, in query order. */
  lemma {:induction false} LoadCollectsFilters(q: seq<QueryPair>, a: ArgsState, hasSearchType: bool)
    requires Load(q, a, hasSearchType).error.None?
    ensures Load(q, a, hasSearchType).args.filters == a.filters + Filters(q, hasSearchType)
  {
    if q != [] {
      var init, last := q[..|q| - 1], q[|q| - 1];
      FiltersOfInit(q, hasSearchType);
      NextStep(Load(init, a, hasSearchType), hasSearchType, last);
      LoadCollectsFilters(init, a, hasSearchType);
    }
  }

  /** Binding one more pair: the step of that pair applied where the shorter query left off. */
  lemma LoadSnoc(q: seq<QueryPair>, p: QueryPair, a: ArgsState, hasSearchType: bool)
    ensures Load(q + [p], a, hasSearchType) == Next(Load(q, a, hasSearchType), hasSearchType, p)
  {
    assert (q + [p])[..|q|] == q;
  }

  /** Once a prefix of the query has raised an error, the rest of the query is not read. */
  lemma {:induction false} LoadStopsOnError(q: seq<QueryPair>, n: nat, a: ArgsState, hasSearchType: bool)
    requires n <= |q| && Load(q[..n], a, hasSearchType).error.Some?
    ensures Load(q, a, hasSearchType) == Load(q[..n], a, hasSearchType)
    decreases |q| - n
  {
    if n < |q| {
      assert q[..n + 1][..n] == q[..n];
      LoadStopsOnError(q, n + 1, a, hasSearchType);
    } else {
      assert q[..n] == q;
    }
  }

  predicate FirstRejected(q: seq<QueryPair>, hasSearchType: bool, k: int)
  {
    && 0 <= k < |q|
    && !Acceptable(hasSearchType, q[k])
    && forall j :: 0 <= j < k ==> Acceptable(hasSearchType, q[j])
  }

  /** A failed binding stopped at the first rejected pair, raised that pair's error,
      and left the arguments as the pairs before it had set them. */
  lemma {:induction false} LoadFailsAtFirstRejected(q: seq<QueryPair>, a: ArgsState, hasSearchType: bool)
    requires Load(q, a, hasSearchType).error.Some?
    ensures exists k :: (FirstRejected(q, hasSearchType, k)
      && Load(q, a, hasSearchType) == Bound(Load(q[..k], a, hasSearchType).args, Some(ErrorFor(q[k].key))))
  {
    var init, last := q[..|q| - 1], q[|q| - 1];
    assert q == init + [last];
    LoadSnoc(init, last, a, hasSearchType);
    var b := Load(init, a, hasSearchType);
    LoadSucceedsIff(init, a, hasSearchType);
    if b.error.Some? {
      LoadFailsAtFirstRejected(init, a, hasSearchType);
      var k :| FirstRejected(init, hasSearchType, k)
        && b == Bound(Load(init[..k], a, hasSearchType).args, Some(ErrorFor(init[k].key)));
      assert init[..k] == q[..k] && init[k] == q[k];
      assert FirstRejected(q, hasSearchType, k);
    } else {
      var k := |q| - 1;
      assert q[..k] == init;
      assert !Acceptable(hasSearchType, last);
      assert FirstRejected(q, hasSearchType, k);
      assert Load(q, a, hasSearchType) == Bound(Load(q[..k], a, hasSearchType).args, Some(ErrorFor(q[k].key)));
    }
  }

  /** The value of the last pair whose key is of the given kind. */
  function LastValue(q: seq<QueryPair>, kind: KeyKind): Option<string>
  {
    if q == [] then None
    else if KindOf(q[|q| - 1].key) == kind then Some(q[|q| - 1].value)
    else LastValue(q[..|q| - 1], kind)
  }

  lemma StepSetsPaging(a: ArgsState, hasSearchType: bool, p: QueryPair)
    requires Step(a, hasSearchType, p).Success?
    ensures var r := Step(a, hasSearchType, p).value;
      && r.page == (if KindOf(p.key) == PageKey then ParseInt(p.value).value else a.page)
      && r.pageSize == (if KindOf(p.key) == PageSizeKey then ParseInt(p.value).value else a.pageSize)
  {
  }

  /** After a successful binding, `Page` and `PageSize` hold the parsed value of the
      last pair that names them, within their bounds, and keep their earlier value
      when no pair names them. */
  lemma {:induction false} LoadSetsPaging(q: seq<QueryPair>, a: ArgsState, hasSearchType: bool)
    requires Load(q, a, hasSearchType).error.None?
    ensures var r := Load(q, a, hasSearchType).args;
      && (LastValue(q, PageKey).None? ==> r.page == a.page)
      && (LastValue(q, PageKey).Some? ==> ParseInt(LastValue(q, PageKey).value) == Some(r.page) && 1 <= r.page)
      && (LastValue(q, PageSizeKey).None? ==> r.pageSize == a.pageSize)
      && (LastValue(q, PageSizeKey).Some? ==>
            ParseInt(LastValue(q, PageSizeKey).value) == Some(r.pageSize) && 1 <= r.pageSize <= MaxPageSize)
  {
    if q != [] {
      var init, last := q[..|q| - 1], q[|q| - 1];
      assert q == init + [last];
      LoadSnoc(init, last, a, hasSearchType);
      assert Load(init, a, hasSearchType).error.None?;
      LoadSetsPaging(init, a, hasSearchType);
      StepSetsPaging(Load(init, a, hasSearchType).args, hasSearchType, last);
    }
  }

  lemma StepSetsSortBy(a: ArgsState, hasSearchType: bool, p: QueryPair)
    requires Step(a, hasSearchType, p).Success?
    ensures var r := Step(a, hasSearchType, p).value;
      r.sortBy == (if KindOf(p.key) == SortByKey then Distinct(Split(p.value, ',')) else a.sortBy)
  {
  }

  /** After a successful binding, `SortBy` is the de-duplicated comma split of the last
      `sortBy` value, and keeps its earlier value when no pair names it. */
  lemma {:induction false} LoadSetsSortBy(q: seq<QueryPair>, a: ArgsState, hasSearchType: bool)
    requires Load(q, a, hasSearchType).error.None?
    ensures var r := Load(q, a, hasSearchType).args;
      && (LastValue(q, SortByKey).None? ==> r.sortBy == a.sortBy)
      && (LastValue(q, SortByKey).Some? ==> r.sortBy == Distinct(Split(LastValue(q, SortByKey).value, ',')))
  {
    if q != [] {
      var init, last := q[..|q| - 1], q[|q| - 1];
      assert q == init + [last];
      LoadSnoc(init, last, a, hasSearchType);
      assert Load(init, a, hasSearchType).error.None?;
      LoadSetsSortBy(init, a, hasSearchType);
      StepSetsSortBy(Load(init, a, hasSearchType).args, hasSearchType, last);
    }
  }

  lemma StepSetsSearch(a: ArgsState, hasSearchType: bool, p: QueryPair)
    requires Step(a, hasSearchType, p).Success?
    ensures var r := Step(a, hasSearchType, p).value;
      && r.search == (if KindOf(p.key) == SearchKey then p.value else a.search)
      && r.searchOn == (if KindOf(p.key) == SearchOnKey then p.value else a.searchOn)
  {
  }

  /** After a successful binding, `Search` and `SearchOn` are the last values given for
      them, and keep their earlier values when no pair names them. */
  lemma {:induction false} LoadSetsSearch(q: seq<QueryPair>, a: ArgsState, hasSearchType: bool)
    requires Load(q, a, hasSearchType).error.None?
    ensures var r := Load(q, a, hasSearchType).args;
      && (LastValue(q, SearchKey).None? ==> r.search == a.search)
      && (LastValue(q, SearchKey).Some? ==> r.search == LastValue(q, SearchKey).value)
      && (LastValue(q, SearchOnKey).None? ==> r.searchOn == a.searchOn)
      && (LastValue(q, SearchOnKey).Some? ==> r.searchOn == LastValue(q, SearchOnKey).value)
  {
    if q != [] {
      var init, last := q[..|q| - 1], q[|q| - 1];
      assert q == init + [last];
      LoadSnoc(init, last, a, hasSearchType);
      assert Load(init, a, hasSearchType).error.None?;
      LoadSetsSearch(init, a, hasSearchType);
      StepSetsSearch(Load(init, a, hasSearchType).args, hasSearchType, last);
    }
  }

  lemma StepSetsSearchType(a: ArgsState, hasSearchType: bool, p: QueryPair)
    requires Step(a, hasSearchType, p).Success?
    ensures var r := Step(a, hasSearchType, p).value;
      r.searchType == (if hasSearchType && KindOf(p.key) == SearchTypeKey then ParseSearchType(p.value).value
                       else a.searchType)
  {
  }

  /** After a successful binding of a model with a `SearchType` property, it holds the
      member named by the last `searchType` value; a model without one never changes it. */
  lemma {:induction false} LoadSetsSearchType(q: seq<QueryPair>, a: ArgsState, hasSearchType: bool)
    requires Load(q, a, hasSearchType).error.None?
    ensures var r := Load(q, a, hasSearchType).args;
      && (!hasSearchType || LastValue(q, SearchTypeKey).None? ==> r.searchType == a.searchType)
      && (hasSearchType && LastValue(q, SearchTypeKey).Some? ==>
            ParseSearchType(LastValue(q, SearchTypeKey).value) == Some(r.searchType))
  {
    if q != [] {
      var init, last := q[..|q| - 1], q[|q| - 1];
      assert q == init + [last];
      LoadSnoc(init, last, a, hasSearchType);
      assert Load(init, a, hasSearchType).error.None?;
      LoadSetsSearchType(init, a, hasSearchType);
      StepSetsSearchType(Load(init, a, hasSearchType).args, hasSearchType, last);
    }
  }

  predicate PagingInBounds(page: int, pageSize: int)
  {
    1 <= page && 1 <= pageSize <= MaxPageSize
  }

  /** Binding never takes paging out of bounds, whether it succeeds or stops at an error. */
  lemma {:induction false} LoadKeepsPagingInBounds(q: seq<QueryPair>, a: ArgsState, hasSearchType: bool)
    requires PagingInBounds(a.page, a.pageSize)
    ensures var r := Load(q, a, hasSearchType).args; PagingInBounds(r.page, r.pageSize)
  {
    if q != [] {
      LoadKeepsPagingInBounds(q[..|q| - 1], a, hasSearchType);
    }
  }

  /** Keys are matched in any letter case: a key that names a property acts the same
      as any other spelling of it. */
  lemma KeysIgnoreCase(a: ArgsState, hasSearchType: bool, key1: string, key2: string, value: string)
    requires EqualsIgnoreCase(key1, key2) && !IsFilterKey(hasSearchType, key1)
    ensures Step(a, hasSearchType, QueryPair(key1, value)) == Step(a, hasSearchType, QueryPair(key2, value))
  {
  }

  /** A `page` pair carrying the decimal rendering of an in-range positive number sets the page to it. */
  lemma PagePairSetsPage(q: seq<QueryPair>, a: ArgsState, hasSearchType: bool, key: string, n: nat)
    requires KindOf(key) == PageKey && 1 <= n <= Int32Max
    requires Load(q, a, hasSearchType).error.None?
    ensures Load(q + [QueryPair(key, Format(n))], a, hasSearchType)
         == Bound(Load(q, a, hasSearchType).args.(page := n), None)
  {
    ParseFormat(n);
    var q' := q + [QueryPair(key, Format(n))];
    assert q'[..|q'| - 1] == q;
  }

  // ---------------------------------------------------------------------------
  // The page-only binder

  predicate IsPagingKey(key: string)
  {
    KindOf(key) == PageKey || KindOf(key) == PageSizeKey
  }

  predicate PagingAcceptable(p: QueryPair)
  {
    && (KindOf(p.key) == PageKey ==> ValidPage(p.value))
    && (KindOf(p.key) == PageSizeKey ==> ValidPageSize(p.value))
  }

  /** One iteration of `ListArgsPageOnlyModelBinder.LoadFromQueryString`'s loop. */
  function PageOnlyStep(a: PageArgs, p: QueryPair): (r: Result<PageArgs, UserError>)
    ensures r.Success? <==> PagingAcceptable(p)
    ensures r.Failure? ==> r.error == ErrorFor(p.key)
    ensures !IsPagingKey(p.key) ==> r == Success(a)
  {
    match KindOf(p.key)
    case PageKey =>
      var i := ParseInt(p.value);
      if i.Some? && i.value >= 1 then Success(a.(page := i.value)) else Failure(PageInvalid)
    case PageSizeKey =>
      var i := ParseInt(p.value);
      if i.Some? && i.value >= 1 && i.value <= MaxPageSize then Success(a.(pageSize := i.value))
      else Failure(PageSizeInvalid)
    case _ => Success(a)
  }

  function NextPageOnly(b: Bound<PageArgs>, p: QueryPair): Bound<PageArgs>
  {
    if b.error.Some? then b
    else
      match PageOnlyStep(b.args, p)
      case Success(next) => Bound(next, None)
      case Failure(e) => Bound(b.args, Some(e))
  }

  /** `ListArgsPageOnlyModelBinder.LoadFromQueryString` over the pairs of `q`, in order. */
  function LoadPageOnly(q: seq<QueryPair>, a: PageArgs): Bound<PageArgs>
    decreases |q|
  {
    if q == [] then Bound(a, None) else NextPageOnly(LoadPageOnly(q[..|q| - 1], a), q[|q| - 1])
  }

  /** Page-only binding succeeds exactly when every paging pair is valid. */
  lemma {:induction false} LoadPageOnlySucceedsIff(q: seq<QueryPair>, a: PageArgs)
    ensures LoadPageOnly(q, a).error.None? <==> forall i :: 0 <= i < |q| ==> PagingAcceptable(q[i])
  {
    if q != [] {
      var init := q[..|q| - 1];
      LoadPageOnlySucceedsIff(init, a);
      assert forall i :: 0 <= i < |init| ==> init[i] == q[i];
    }
  }

  lemma {:induction false} LoadPageOnlyStopsOnError(q: seq<QueryPair>, n: nat, a: PageArgs)
    requires n <= |q| && LoadPageOnly(q[..n], a).error.Some?
    ensures LoadPageOnly(q, a) == LoadPageOnly(q[..n], a)
    decreases |q| - n
  {
    if n < |q| {
      assert q[..n + 1][..n] == q[..n];
      LoadPageOnlyStopsOnError(q, n + 1, a);
    } else {
      assert q[..n] == q;
    }
  }

  /** The pairs of `q` whose key is `page` or `pageSize`, in order. */
  function PagingPairs(q: seq<QueryPair>): (r: seq<QueryPair>)
    ensures forall i :: 0 <= i < |r| ==> IsPagingKey(r[i].key)
    ensures forall p :: p in r <==> p in q && IsPagingKey(p.key)
  {
    if q == [] then []
    else PagingPairs(q[..|q| - 1]) + (if IsPagingKey(q[|q| - 1].key) then [q[|q| - 1]] else [])
  }

  /** The page-only binder reads nothing but the paging pairs: dropping every other
      pair from the query changes neither the outcome nor the arguments. */
  lemma {:induction false} LoadPageOnlyIgnoresOtherKeys(q: seq<QueryPair>, a: PageArgs)
    ensures LoadPageOnly(q, a) == LoadPageOnly(PagingPairs(q), a)
  {
    if q != [] {
      var init, last := q[..|q| - 1], q[|q| - 1];
      LoadPageOnlyIgnoresOtherKeys(init, a);
      var p := PagingPairs(init);
      if IsPagingKey(last.key) {
        assert (p + [last])[..|p|] == p;
      } else {
        assert p + [] == p;
      }
    }
  }

  /** Binding never takes the page-only paging out of bounds. */
  lemma {:induction false} LoadPageOnlyKeepsPagingInBounds(q: seq<QueryPair>, a: PageArgs)
    requires PagingInBounds(a.page, a.pageSize)
    ensures var r := LoadPageOnly(q, a).args; PagingInBounds(r.page, r.pageSize)
  {
    if q != [] {
      LoadPageOnlyKeepsPagingInBounds(q[..|q| - 1], a);
    }
  }

  /** Wherever the full binder succeeds, the page-only binder succeeds on the same
      query and sets the same page and page size. */
  lemma {:induction false} PageOnlyAgreesWithFullBinder(q: seq<QueryPair>, a: ArgsState, hasSearchType: bool)
    requires Load(q, a, hasSearchType).error.None?
    ensures var r := Load(q, a, hasSearchType).args;
      LoadPageOnly(q, PageArgs(a.page, a.pageSize)) == Bound(PageArgs(r.page, r.pageSize), None)
  {
    if q != [] {
      PageOnlyAgreesWithFullBinder(q[..|q| - 1], a, hasSearchType);
    }
  }

  // ---------------------------------------------------------------------------
  // The objects the binders fill in place

  /** A `ListArgs<T>` (when `hasSearchType` is false) or a `SearchArgs<T>` (when it is true). */
  class ListArgs {
    var page: int
    var pageSize: int
    var sortBy: seq<string>
    var search: string
    var searchOn: string
    var searchType: SearchType
    var filters: seq<ListFilter>
    /** Whether the model type declares a `SearchType` property. */
    const hasSearchType: bool

    constructor (hasSearchType: bool, initial: ArgsState)
      ensures State() == initial && this.hasSearchType == hasSearchType
    {
      this.hasSearchType := hasSearchType;
      page, pageSize, sortBy := initial.page, initial.pageSize, initial.sortBy;
      search, searchOn, searchType, filters := initial.search, initial.searchOn, initial.searchType, initial.filters;
    }

    function State(): ArgsState
      reads this
    {
      ArgsState(page, pageSize, sortBy, search, searchOn, searchType, filters)
    }
  }

  class ListArgsPageOnly {
    var page: int
    var pageSize: int

    constructor (initial: PageArgs)
      ensures State() == initial
    {
      page, pageSize := initial.page, initial.pageSize;
    }

    function State(): PageArgs
      reads this
    {
      PageArgs(page, pageSize)
    }
  }

  /** One pass of `ListArgsModelBinder.LoadFromQueryString`'s `switch`: binds the pair
      `(key, value)` into `listArgs`, or reports the user error it throws and changes nothing. */
  method BindPair(listArgs: ListArgs, key: string, value: string) returns (error: Option<UserError>)
    modifies listArgs
    ensures Bound(listArgs.State(), error)
         == Next(Bound(old(listArgs.State()), None), listArgs.hasSearchType, QueryPair(key, value))
  {
    error := None;
    var kind := KindOf(key);
    if kind == SortByKey {
      listArgs.sortBy := Distinct(Split(value, ','));
    } else if kind == PageKey {
      var i := ParseInt(value);
      if i.Some? && i.value >= 1 {
        listArgs.page := i.value;
      } else {
        error := Some(PageInvalid);
      }
    } else if kind == PageSizeKey {
      var i := ParseInt(value);
      if i.Some? && i.value >= 1 && i.value <= MaxPageSize {
        listArgs.pageSize := i.value;
      } else {
        error := Some(PageSizeInvalid);
      }
    } else if kind == SearchKey {
      listArgs.search := value;
    } else if kind == SearchOnKey {
      listArgs.searchOn := value;
    } else if kind == SearchTypeKey && listArgs.hasSearchType {
      var t := ParseSearchType(value);
      if t.Some? {
        listArgs.searchType := t.value;
      } else {
        error := Some(SearchTypeInvalid);
      }
    } else {
      listArgs.filters := listArgs.filters + [ListFilter(key, value)];
    }
  }

  /** `ListArgsModelBinder.LoadFromQueryString`: clears `Filters`, then binds the query
      pairs one by one; a returned error is the user error thrown at the first rejected
      pair, with the arguments left as the earlier pairs set them. */
  method LoadFromQueryString(query: seq<QueryPair>, listArgs: ListArgs) returns (error: Option<UserError>)
    modifies listArgs
    ensures var b := Load(query, old(listArgs.State()).(filters := []), listArgs.hasSearchType);
      listArgs.State() == b.args && error == b.error
  {
    listArgs.filters := [];
    ghost var start := listArgs.State();
    var n := 0;
    while n < |query|
      invariant 0 <= n <= |query|
      invariant Load(query[..n], start, listArgs.hasSearchType) == Bound(listArgs.State(), None)
    {
      assert query[..n + 1] == query[..n] + [query[n]];
      LoadSnoc(query[..n], query[n], start, listArgs.hasSearchType);
      error := BindPair(listArgs, query[n].key, query[n].value);
      if error.Some? {
        LoadStopsOnError(query, n + 1, start, listArgs.hasSearchType);
        return;
      }
      n := n + 1;
    }
    assert query[..n] == query;
    return None;
  }

  /** One pass of `ListArgsPageOnlyModelBinder.LoadFromQueryString`'s `switch`. */
  method BindPagingPair(listArgs: ListArgsPageOnly, key: string, value: string) returns (error: Option<UserError>)
    modifies listArgs
    ensures Bound(listArgs.State(), error) == NextPageOnly(Bound(old(listArgs.State()), None), QueryPair(key, value))
  {
    error := None;
    var kind := KindOf(key);
    if kind == PageKey {
      var i := ParseInt(value);
      if i.Some? && i.value >= 1 {
        listArgs.page := i.value;
      } else {
        error := Some(PageInvalid);
      }
    } else if kind == PageSizeKey {
      var i := ParseInt(value);
      if i.Some? && i.value >= 1 && i.value <= MaxPageSize {
        listArgs.pageSize := i.value;
      } else {
        error := Some(PageSizeInvalid);
      }
    }
  }

  /** `ListArgsPageOnlyModelBinder.LoadFromQueryString`: binds `page` and `pageSize` and
      skips every other pair. */
  method LoadPageOnlyFromQueryString(query: seq<QueryPair>, listArgs: ListArgsPageOnly)
    returns (error: Option<UserError>)
    modifies listArgs
    ensures var b := LoadPageOnly(query, old(listArgs.State()));
      listArgs.State() == b.args && error == b.error
  {
    ghost var start := listArgs.State();
    var n := 0;
    while n < |query|
      invariant 0 <= n <= |query|
      invariant LoadPageOnly(query[..n], start) == Bound(listArgs.State(), None)
    {
      assert query[..n + 1][..n] == query[..n];
      error := BindPagingPair(listArgs, query[n].key, query[n].value);
      if error.Some? {
        LoadPageOnlyStopsOnError(query, n + 1, start);
        return;
      }
      n := n + 1;
    }
    assert query[..n] == query;
    return None;
  }
}
