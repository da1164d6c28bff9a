/**
 * The cards list page (app/cards/page.tsx) as the state it keeps: the
 * URLSearchParams that drive the list request, the search box, the tag bar,
 * the date range, the fetched cards and pagination, and the URLs it pushes.
 * Each handler copies the parameters, edits them and pushes the result; the
 * edits are the functions `ParamsFor*`, specified key by key.
 */
module CardsList {
  import opened Wrappers
  import opened SearchParams
  import opened JsNumber
  import opened BusinessCardTypes
  import opened CardsNormalize
  import opened CardsQuery
  import opened Pagination

  /** A JavaScript Date, as its time value in milliseconds. */
  type Date = int

  /** The calendar's selection: either bound may be missing. */
  datatype DateRange = DateRange(from: Option<Date>, to: Option<Date>)

  const ListRequestPath := "/business_cards"

  const DefaultPagination := PaginationInfo(1, 1, 0, true)

  /** How the list request ended. */
  datatype CardsOutcome =
    | FetchThrew
    | NotOk(status: int)
    | JsonFailed
    | Ok(doc: CardsDocument, info: PaginationInfo)

  /** How the tag request ended: any failure, or the tag resources. */
  datatype TagsOutcome = TagsFailed | TagsOk(resources: seq<TagResource>)

  /** The URL a handler pushes: the list path and the serialized parameters. */
  function Url(p: Params): string {
    CardsPath + "?" + Serialize(p)
  }

  // ---------------------------------------------------------------------------
  // The parameter edits of the four handlers

  function ParamsForPage(p: Params, page: int): Params {
    Set(p, "page", IntToString(page))
  }

  function ParamsForQ(p: Params, q: string): Params {
    var c := Set(Set(p, "q", q), "page", "1");
    if q == "" then Delete(c, "q") else c
  }

  function ParamsForTags(p: Params, tags: seq<SearchTag>): Params {
    Set(Delete(p, "tags[]") + Pairs("tags[]", TagFilter(tags)), "page", "1")
  }

  function DateParam(name: string, d: Option<Date>, format: Date -> string, p: Params): Params {
    if d.Some? then Set(p, name, format(d.value)) else Delete(p, name)
  }

  function FromOf(range: Option<DateRange>): Option<Date> {
    if range.Some? then range.value.from else None
  }

  function ToOf(range: Option<DateRange>): Option<Date> {
    if range.Some? then range.value.to else None
  }

  function ParamsForDates(p: Params, range: Option<DateRange>, format: Date -> string): Params {
    var c := Set(p, "page", "1");
    DateParam("meeting_date_to", ToOf(range), format, DateParam("meeting_date_from", FromOf(range), format, c))
  }

  /** onChangePage: `page` becomes the given number; every other parameter is kept. */
  lemma PageEdit(p: Params, page: int, k: string)
    ensures GetAll(ParamsForPage(p, page), k) == if k == "page" then [IntToString(page)] else GetAll(p, k)
    ensures Others(ParamsForPage(p, page), QueryNames) == Others(p, QueryNames)
  {
    GetAllSet(p, "page", IntToString(page), k);
    OthersSet(p, "page", IntToString(page), QueryNames);
  }

  /**
   * onChangeQ: `q` becomes the typed text, or disappears when the text is
   * empty; the page goes back to 1; every other parameter is kept.
   */
  lemma QEdit(p: Params, q: string, k: string)
    ensures GetAll(ParamsForQ(p, q), k) ==
      if k == "q" then (if q == "" then [] else [q])
      else if k == "page" then ["1"]
      else GetAll(p, k)
    ensures Others(ParamsForQ(p, q), QueryNames) == Others(p, QueryNames)
  {
    var c := Set(Set(p, "q", q), "page", "1");
    GetAllSet(p, "q", q, k);
    GetAllSet(Set(p, "q", q), "page", "1", k);
    GetAllDelete(c, "q", k);
    OthersSet(p, "q", q, QueryNames);
    OthersSet(Set(p, "q", q), "page", "1", QueryNames);
    OthersDelete(c, "q", QueryNames);
  }

  /**
   * onClickSearchTag: the `tags[]` values become the clicked selection's
   * filter, the page goes back to 1, every other parameter is kept.
   */
  lemma TagsEdit(p: Params, tags: seq<SearchTag>, k: string)
    ensures GetAll(ParamsForTags(p, tags), k) ==
      if k == "tags[]" then TagFilter(tags)
      else if k == "page" then ["1"]
      else GetAll(p, k)
    ensures Others(ParamsForTags(p, tags), QueryNames) == Others(p, QueryNames)
  {
    var d := Delete(p, "tags[]");
    var c := d + Pairs("tags[]", TagFilter(tags));
    GetAllDelete(p, "tags[]", k);
    GetAllPairs("tags[]", TagFilter(tags), k);
    GetAllConcat(d, Pairs("tags[]", TagFilter(tags)), k);
    GetAllSet(c, "page", "1", k);
    OthersDelete(p, "tags[]", QueryNames);
    OthersPairs("tags[]", TagFilter(tags));
    OthersConcat(d, Pairs("tags[]", TagFilter(tags)), QueryNames);
    OthersSet(c, "page", "1", QueryNames);
  }

  lemma TagsKeepQ(p: Params, tags: seq<SearchTag>)
    ensures GetAll(ParamsForTags(p, tags), "q") == GetAll(p, "q")
  {
    TagsEdit(p, tags, "q");
  }

  lemma DatesKeepQ(p: Params, range: Option<DateRange>, format: Date -> string)
    ensures GetAll(ParamsForDates(p, range, format), "q") == GetAll(p, "q")
  {
    DatesEdit(p, range, format, "q");
  }

  lemma DateParamEdit(name: string, d: Option<Date>, format: Date -> string, p: Params, k: string)
    requires name in QueryNames
    ensures GetAll(DateParam(name, d, format, p), k) ==
      if k == name then (if d.Some? then [format(d.value)] else []) else GetAll(p, k)
    ensures Others(DateParam(name, d, format, p), QueryNames) == Others(p, QueryNames)
  {
    if d.Some? {
      GetAllSet(p, name, format(d.value), k);
      OthersSet(p, name, format(d.value), QueryNames);
    } else {
      GetAllDelete(p, name, k);
      OthersDelete(p, name, QueryNames);
    }
  }

  /**
   * onChangeMeetingDatesRange: each bound of the range is written formatted,
   * or removed when the bound (or the whole range) is missing; the page goes
   * back to 1; every other parameter is kept.
   */
  lemma DatesEdit(p: Params, range: Option<DateRange>, format: Date -> string, k: string)
    ensures GetAll(ParamsForDates(p, range, format), k) ==
      if k == "meeting_date_from" then (if FromOf(range).Some? then [format(FromOf(range).value)] else [])
      else if k == "meeting_date_to" then (if ToOf(range).Some? then [format(ToOf(range).value)] else [])
      else if k == "page" then ["1"]
      else GetAll(p, k)
    ensures Others(ParamsForDates(p, range, format), QueryNames) == Others(p, QueryNames)
  {
    var c := Set(p, "page", "1");
    var e := DateParam("meeting_date_from", FromOf(range), format, c);
    GetAllSet(p, "page", "1", k);
    OthersSet(p, "page", "1", QueryNames);
    DateParamEdit("meeting_date_from", FromOf(range), format, c, k);
    DateParamEdit("meeting_date_to", ToOf(range), format, e, k);
  }

  // ---------------------------------------------------------------------------
  // Reloading a pushed URL

  /** At most one value, and a non-empty one. */
  predicate OneValue(vs: seq<string>) {
    |vs| <= 1 && forall v <- vs :: v != ""
  }

  /** Every value would pass `!isNaN(Number(v))`. */
  predicate NumericValues(vs: seq<string>) {
    forall v <- vs :: IsNumeric(v)
  }

  /** The `q` values the load effect stores. */
  lemma RestoredSearch(query: Params)
    ensures GetAll(RestoredParams(query), "q") == OptionalValues(Get(query, "q"))
  {
    RestoredParamsReads(query);
  }

  /** Parameters that the load effect accepts and rebuilds as they are. */
  predicate Canonical(p: Params) {
    && OneValue(GetAll(p, "page")) && NumericValues(GetAll(p, "page"))
    && OneValue(GetAll(p, "q")) && "null" !in GetAll(p, "q")
    && "" !in GetAll(p, "tags[]") && NumericValues(GetAll(p, "tags[]"))
    && OneValue(GetAll(p, "meeting_date_from"))
    && OneValue(GetAll(p, "meeting_date_to"))
  }

  /** The values a `get` result contributes when the load effect keeps it. */
  function OptionalValues(o: Option<string>): seq<string> {
    if Truthy(o) then [o.value] else []
  }

  lemma {:induction false} KeptTagsIdentity(tags: seq<string>)
    requires forall t <- tags :: t != "" && IsNumeric(t)
    ensures KeptTags(tags) == tags
  {
    if tags != [] {
      var init, last := tags[..|tags| - 1], tags[|tags| - 1];
      forall t | t in init
        ensures t != "" && IsNumeric(t)
      {
        assert t in tags;
      }
      KeptTagsIdentity(init);
      assert last in tags;
      assert KeptTags(tags) == KeptTags(init) + [last];
      assert init + [last] == tags;
    }
  }

  lemma OneValueRestored(vs: seq<string>, o: Option<string>)
    requires OneValue(vs)
    requires o == if vs == [] then None else Some(vs[0])
    ensures OptionalValues(o) == vs
  {
    if vs != [] {
      assert vs[0] in vs;
    }
  }

  lemma CanonicalIsValid(p: Params)
    requires Canonical(p)
    ensures QueryValid(p)
  {
    GetFirst(p, "page");
    GetFirst(p, "q");
    OneValueRestored(GetAll(p, "page"), Get(p, "page"));
    OneValueRestored(GetAll(p, "q"), Get(p, "q"));
  }

  /**
   * Reloading a canonical URL is not redirected and rebuilds every parameter
   * the page understands with the same values.
   */
  lemma ReloadRestores(p: Params)
    requires Canonical(p)
    ensures QueryValid(p)
    ensures GetAll(RestoredParams(p), "page") == GetAll(p, "page")
    ensures GetAll(RestoredParams(p), "q") == GetAll(p, "q")
    ensures GetAll(RestoredParams(p), "tags[]") == GetAll(p, "tags[]")
    ensures GetAll(RestoredParams(p), "meeting_date_from") == GetAll(p, "meeting_date_from")
    ensures GetAll(RestoredParams(p), "meeting_date_to") == GetAll(p, "meeting_date_to")
  {
    CanonicalIsValid(p);
    RestoredParamsReads(p);
    GetFirst(p, "page");
    GetFirst(p, "q");
    GetFirst(p, "meeting_date_from");
    GetFirst(p, "meeting_date_to");
    OneValueRestored(GetAll(p, "page"), Get(p, "page"));
    OneValueRestored(GetAll(p, "q"), Get(p, "q"));
    OneValueRestored(GetAll(p, "meeting_date_from"), Get(p, "meeting_date_from"));
    OneValueRestored(GetAll(p, "meeting_date_to"), Get(p, "meeting_date_to"));
    KeptTagsIdentity(GetAll(p, "tags[]"));
  }

  lemma CanonicalFromOptions(r: Params, page: Option<string>, q: Option<string>, tags: seq<string>,
                             from: Option<string>, to: Option<string>)
    requires GetAll(r, "page") == OptionalValues(page) && (Truthy(page) ==> IsNumeric(page.value))
    requires GetAll(r, "q") == OptionalValues(q) && (Truthy(q) ==> q.value != "null")
    requires GetAll(r, "tags[]") == tags && forall t <- tags :: t != "" && IsNumeric(t)
    requires GetAll(r, "meeting_date_from") == OptionalValues(from)
    requires GetAll(r, "meeting_date_to") == OptionalValues(to)
    ensures Canonical(r)
  {
  }

  /** What the load effect stores from a valid URL is canonical. */
  lemma LoadIsCanonical(query: Params)
    requires QueryValid(query)
    ensures Canonical(RestoredParams(query))
  {
    var tags := KeptTags(GetAll(query, "tags[]"));
    RestoredParamsReads(query);
    forall t | t in tags
      ensures t != "" && IsNumeric(t)
    {
      KeptTagsMembers(GetAll(query, "tags[]"), t);
    }
    CanonicalFromOptions(RestoredParams(query), Get(query, "page"), Get(query, "q"), tags,
      Get(query, "meeting_date_from"), Get(query, "meeting_date_to"));
  }

  /** Changing the page keeps the parameters canonical. */
  lemma PageKeepsCanonical(p: Params, page: int)
    requires Canonical(p)
    ensures Canonical(ParamsForPage(p, page))
  {
    var r := ParamsForPage(p, page);
    PageEdit(p, page, "page");
    PageEdit(p, page, "q");
    PageEdit(p, page, "tags[]");
    PageEdit(p, page, "meeting_date_from");
    PageEdit(p, page, "meeting_date_to");
    SignOfString(page);
    IntToStringIsNumeric(page);
    assert OneValue([IntToString(page)]) && NumericValues([IntToString(page)]);
    CanonicalByKeys(r, [IntToString(page)], GetAll(p, "q"), GetAll(p, "tags[]"),
      GetAll(p, "meeting_date_from"), GetAll(p, "meeting_date_to"));
  }

  /** Typing any search text except "null" keeps the parameters canonical. */
  lemma QKeepsCanonical(p: Params, q: string)
    requires Canonical(p) && q != "null"
    ensures Canonical(ParamsForQ(p, q))
  {
    QEdit(p, q, "page");
    QEdit(p, q, "q");
    QEdit(p, q, "tags[]");
    QEdit(p, q, "meeting_date_from");
    QEdit(p, q, "meeting_date_to");
    PageOneValue();
    var qs := if q == "" then [] else [q];
    assert OneValue(qs) && "null" !in qs;
    CanonicalByKeys(ParamsForQ(p, q), ["1"], qs, GetAll(p, "tags[]"),
      GetAll(p, "meeting_date_from"), GetAll(p, "meeting_date_to"));
  }

  /** Typing "null" pushes a URL whose reload is redirected to the bare list. */
  lemma QNullNotReloadable(p: Params)
    ensures !QueryValid(ParamsForQ(p, "null"))
  {
    QEdit(p, "null", "q");
    GetFirst(ParamsForQ(p, "null"), "q");
  }

  lemma PageOneValue()
    ensures OneValue(["1"]) && NumericValues(["1"])
  {
    assert LeadingDigits("1") == 1;
  }

  /** The `tags[]` values a click writes are printed ids: non-empty and numeric. */
  lemma TagFilterValues(tags: seq<SearchTag>)
    ensures "" !in TagFilter(tags) && NumericValues(TagFilter(tags))
  {
    forall v | v in TagFilter(tags)
      ensures v != "" && IsNumeric(v)
    {
      SelectedIdsMembers(tags, v);
      var j :| 0 <= j < |tags| && tags[j].selected && IntToString(tags[j].tag.id) == v;
      SignOfString(tags[j].tag.id);
      IntToStringIsNumeric(tags[j].tag.id);
    }
  }

  lemma CanonicalByKeys(r: Params, page: seq<string>, q: seq<string>, tags: seq<string>,
                        from: seq<string>, to: seq<string>)
    requires GetAll(r, "page") == page && OneValue(page) && NumericValues(page)
    requires GetAll(r, "q") == q && OneValue(q) && "null" !in q
    requires GetAll(r, "tags[]") == tags && "" !in tags && NumericValues(tags)
    requires GetAll(r, "meeting_date_from") == from && OneValue(from)
    requires GetAll(r, "meeting_date_to") == to && OneValue(to)
    ensures Canonical(r)
  {
  }

  /** Clicking a tag keeps the parameters canonical. */
  lemma TagsKeepCanonical(p: Params, tags: seq<SearchTag>)
    requires Canonical(p)
    ensures Canonical(ParamsForTags(p, tags))
  {
    TagsEdit(p, tags, "page");
    TagsEdit(p, tags, "q");
    TagsEdit(p, tags, "tags[]");
    TagsEdit(p, tags, "meeting_date_from");
    TagsEdit(p, tags, "meeting_date_to");
    PageOneValue();
    TagFilterValues(tags);
    CanonicalByKeys(ParamsForTags(p, tags), ["1"], GetAll(p, "q"), TagFilter(tags),
      GetAll(p, "meeting_date_from"), GetAll(p, "meeting_date_to"));
  }

  /** Choosing dates keeps the parameters canonical when the formatter never yields "". */
  lemma DatesKeepCanonical(p: Params, range: Option<DateRange>, format: Date -> string)
    requires Canonical(p)
    requires FromOf(range).Some? ==> format(FromOf(range).value) != ""
    requires ToOf(range).Some? ==> format(ToOf(range).value) != ""
    ensures Canonical(ParamsForDates(p, range, format))
  {
    DatesEdit(p, range, format, "page");
    DatesEdit(p, range, format, "q");
    DatesEdit(p, range, format, "tags[]");
    DatesEdit(p, range, format, "meeting_date_from");
    DatesEdit(p, range, format, "meeting_date_to");
    PageOneValue();
    var from := if FromOf(range).Some? then [format(FromOf(range).value)] else [];
    var to := if ToOf(range).Some? then [format(ToOf(range).value)] else [];
    assert OneValue(from) && OneValue(to);
    CanonicalByKeys(ParamsForDates(p, range, format), ["1"], GetAll(p, "q"), GetAll(p, "tags[]"), from, to);
  }

  // ---------------------------------------------------------------------------

  /** The `forEach` that appends the id of every selected tag, in bar order. */
  method AppendSelected(p: Params, tags: seq<SearchTag>) returns (r: Params)
    ensures r == p + Pairs("tags[]", SelectedIds(tags))
  {
    r := p;
    var i := 0;
    while i < |tags|
      invariant 0 <= i <= |tags|
      invariant r == p + Pairs("tags[]", SelectedIds(tags[..i]))
    {
      assert tags[..i + 1][..i] == tags[..i];
      if tags[i].selected {
        PairsSnoc("tags[]", SelectedIds(tags[..i]), IntToString(tags[i].tag.id));
        r := Append(r, "tags[]", IntToString(tags[i].tag.id));
      }
      i := i + 1;
    }
    assert tags[..|tags|] == tags;
  }

  /** onChangePage's copy and edit: the number's string always parses, so `page` is always written. */
  method EditPage(params: Params, page: int) returns (copied: Params)
    ensures copied == ParamsForPage(params, page)
  {
    copied := Set(params, "page", IntToString(page));
    GetAllSet(params, "page", IntToString(page), "page");
    IntToStringIsNumeric(page);
    GetFirst(copied, "page");
    var current := Get(copied, "page");
    if current.Some? && !IsNumeric(current.value) {
      copied := Delete(copied, "page");
    }
  }

  /** onChangeQ's copy and edit. */
  method EditQ(params: Params, q: string) returns (copied: Params)
    ensures copied == ParamsForQ(params, q)
  {
    copied := Set(params, "q", q);
    GetAllSet(params, "q", q, "q");
    GetAllSet(copied, "page", "1", "q");
    copied := Set(copied, "page", "1");
    GetFirst(copied, "q");
    var current := Get(copied, "q");
    if current == Some("") || current.None? {
      copied := Delete(copied, "q");
    }
  }

  /** onClickSearchTag's copy and edit, given the toggled bar. */
  method EditTags(params: Params, newSearchTags: seq<SearchTag>) returns (copied: Params)
    ensures copied == ParamsForTags(params, newSearchTags)
  {
    copied := Delete(params, "tags[]");
    var selectedCount := |SelectedIds(newSearchTags)|;
    ghost var deleted := copied;
    if selectedCount != 0 && selectedCount != |newSearchTags| {
      assert TagFilter(newSearchTags) == SelectedIds(newSearchTags);
      copied := AppendSelected(copied, newSearchTags);
    } else {
      assert TagFilter(newSearchTags) == [];
      assert deleted + Pairs("tags[]", TagFilter(newSearchTags)) == deleted;
    }
    copied := Set(copied, "page", "1");
  }

  /** onChangeMeetingDatesRange's copy and edit; `range?.from` and `range?.to` are FromOf and ToOf. */
  method EditDates(params: Params, range: Option<DateRange>, format: Date -> string) returns (copied: Params)
    ensures copied == ParamsForDates(params, range, format)
  {
    copied := Set(params, "page", "1");
    var from, to := FromOf(range), ToOf(range);
    if from.Some? {
      copied := Set(copied, "meeting_date_from", format(from.value));
    } else {
      copied := Delete(copied, "meeting_date_from");
    }
    assert copied == DateParam("meeting_date_from", from, format, Set(params, "page", "1"));
    if to.Some? {
      copied := Set(copied, "meeting_date_to", format(to.value));
    } else {
      copied := Delete(copied, "meeting_date_to");
    }
  }

  class CardsPage {
    var params: Params
    var search: string
    var searchTags: seq<SearchTag>
    var meetingDatesRange: Option<DateRange>
    var businessCards: Option<seq<BusinessCard>>
    var isLoadingBusinessCards: bool
    var paginationInfo: PaginationInfo
    /** URLs pushed onto the browser history, oldest first. */
    var history: seq<string>
    /** Paths passed to the router, oldest first. */
    var navigations: seq<string>

    /** The search box shows the `q` filter: no `q` exactly when the box is empty. */
    ghost predicate Valid()
      reads this
    {
      GetAll(params, "q") == if search == "" then [] else [search]
    }

    constructor ()
      ensures Valid()
      ensures params == [] && search == "" && searchTags == []
      ensures meetingDatesRange == Some(DateRange(None, None))
      ensures businessCards == Some([]) && isLoadingBusinessCards
      ensures paginationInfo == DefaultPagination
      ensures history == [] && navigations == []
    {
      params := [];
      search := "";
      searchTags := [];
      meetingDatesRange := Some(DateRange(None, None));
      businessCards := Some([]);
      isLoadingBusinessCards := true;
      paginationInfo := DefaultPagination;
      history := [];
      navigations := [];
    }

    /**
     * The load effect: an invalid URL sends the router to the bare list and
     * changes nothing else; a valid one restores the parameters, the search
     * box and the date range (each bound parsed by `parse`).
     */
    method Mount(query: Params, parse: string -> Date)
      requires Valid()
      modifies this
      ensures Valid()
      ensures !QueryValid(query) ==>
        && navigations == old(navigations) + [CardsPath]
        && unchanged(this`params, this`search, this`meetingDatesRange)
      ensures QueryValid(query) ==>
        && navigations == old(navigations)
        && params == RestoredParams(query)
        && search == (if Get(query, "q").Some? then Get(query, "q").value else "")
        && meetingDatesRange == Some(DateRange(
             if Truthy(Get(query, "meeting_date_from")) then Some(parse(Get(query, "meeting_date_from").value)) else None,
             if Truthy(Get(query, "meeting_date_to")) then Some(parse(Get(query, "meeting_date_to").value)) else None))
      ensures unchanged(this`searchTags, this`businessCards, this`isLoadingBusinessCards)
      ensures unchanged(this`paginationInfo, this`history)
    {
      var out := RestoreQuery(query);
      if out.Redirect? {
        navigations := navigations + [out.path];
        return;
      }
      meetingDatesRange := Some(DateRange(
        if out.dateFrom.Some? then Some(parse(out.dateFrom.value)) else None,
        if out.dateTo.Some? then Some(parse(out.dateTo.value)) else None));
      search := out.search;
      params := out.params;
    }

    /**
     * fetchBusinessCards: clear the list, show the skeletons, request the list
     * for the current parameters and store the normalized cards and their
     * pagination. Any failure empties the list and resets the pagination; the
     * skeletons are hidden once the request itself has resolved, so a request
     * that throws leaves them on.
     */
    method FetchBusinessCards(outcome: CardsOutcome) returns (request: string)
      requires Valid()
      modifies this
      ensures Valid()
      ensures request == ListRequestPath + "?" + Serialize(params)
      ensures businessCards == Some(if outcome.Ok? then Normalize(outcome.doc) else [])
      ensures paginationInfo == if outcome.Ok? then outcome.info else DefaultPagination
      ensures isLoadingBusinessCards == outcome.FetchThrew?
      ensures unchanged(this`params, this`search, this`searchTags, this`meetingDatesRange)
      ensures unchanged(this`history, this`navigations)
    {
      businessCards := None;
      isLoadingBusinessCards := true;
      request := ListRequestPath + "?" + Serialize(params);
      if outcome.FetchThrew? {
        businessCards := Some([]);
        paginationInfo := DefaultPagination;
        return;
      }
      isLoadingBusinessCards := false;
      if !outcome.Ok? {
        businessCards := Some([]);
        paginationInfo := DefaultPagination;
        return;
      }
      businessCards := Some(Normalize(outcome.doc));
      paginationInfo := outcome.info;
    }

    /** fetchTags: the tag bar lists every tag, selected as the current `tags[]` says; empty on failure. */
    method FetchTags(outcome: TagsOutcome)
      requires Valid()
      modifies this
      ensures Valid()
      ensures searchTags == if outcome.TagsOk? then SelectSearchTags(outcome.resources, params) else []
      ensures unchanged(this`params, this`search, this`meetingDatesRange, this`businessCards)
      ensures unchanged(this`isLoadingBusinessCards, this`paginationInfo, this`history)
      ensures unchanged(this`navigations)
    {
      if outcome.TagsOk? {
        searchTags := SelectSearchTags(outcome.resources, params);
      } else {
        searchTags := [];
      }
    }

    /** onChangePage: store the edited parameters and push them. */
    method OnChangePage(page: int)
      requires Valid()
      modifies this
      ensures Valid()
      ensures params == ParamsForPage(old(params), page)
      ensures history == old(history) + [Url(params)]
      ensures unchanged(this`search, this`searchTags, this`meetingDatesRange)
      ensures unchanged(this`businessCards, this`isLoadingBusinessCards, this`paginationInfo)
      ensures unchanged(this`navigations)
    {
      var copied := EditPage(params, page);
      PageEdit(params, page, "q");
      params := copied;
      history := history + [Url(params)];
    }

    /** onChangeQ: write (or drop) `q`, go back to page 1, and show the text in the box. */
    method OnChangeQ(q: string)
      requires Valid()
      modifies this
      ensures Valid()
      ensures params == ParamsForQ(old(params), q) && search == q
      ensures history == old(history) + [Url(params)]
      ensures unchanged(this`searchTags, this`meetingDatesRange, this`businessCards)
      ensures unchanged(this`isLoadingBusinessCards, this`paginationInfo, this`navigations)
    {
      var copied := EditQ(params, q);
      QEdit(params, q, "q");
      params := copied;
      search := q;
      history := history + [Url(params)];
    }

    /**
     * onClickSearchTag: flip every tag with the clicked name, rewrite the
     * `tags[]` filter from the new selection, and go back to page 1.
     */
    method OnClickSearchTag(tag: SearchTag)
      requires Valid()
      modifies this
      ensures Valid()
      ensures searchTags == ToggleByName(old(searchTags), tag.tag.name)
      ensures params == ParamsForTags(old(params), searchTags)
      ensures history == old(history) + [Url(params)]
      ensures unchanged(this`search, this`meetingDatesRange, this`businessCards)
      ensures unchanged(this`isLoadingBusinessCards, this`paginationInfo, this`navigations)
    {
      var newSearchTags := ToggleByName(searchTags, tag.tag.name);
      var copied := EditTags(params, newSearchTags);
      TagsKeepQ(params, newSearchTags);
      params := copied;
      searchTags := newSearchTags;
      history := history + [Url(params)];
    }

    /** onChangeMeetingDatesRange: write or drop each bound, go back to page 1, keep the range. */
    method OnChangeMeetingDatesRange(range: Option<DateRange>, format: Date -> string)
      requires Valid()
      modifies this
      ensures Valid()
      ensures params == ParamsForDates(old(params), range, format)
      ensures meetingDatesRange == range
      ensures history == old(history) + [Url(params)]
      ensures unchanged(this`search, this`searchTags, this`businessCards)
      ensures unchanged(this`isLoadingBusinessCards, this`paginationInfo, this`navigations)
    {
      var copied := EditDates(params, range, format);
      DatesKeepQ(params, range, format);
      params := copied;
      meetingDatesRange := range;
      history := history + [Url(params)];
    }
  }
}
