/**
 * The pure rules of the cards list page (app/cards/page.tsx) that tie its
 * filter state to the URL query: validation and rebuilding of the query on
 * first load, which search tags are selected, the tag toggle and the
 * `tags[]` filter a selection produces.
 */
module CardsQuery {
  import opened Wrappers
  import opened SearchParams
  import opened JsNumber
  import opened BusinessCardTypes

  const CardsPath := "/cards"

  /** The query names the list page understands. */
  const QueryNames: set<string> := {"page", "q", "tags[]", "meeting_date_from", "meeting_date_to"}

  /** JavaScript truthiness of a `get` result: present and non-empty. */
  predicate Truthy(o: Option<string>) {
    o.Some? && o.value != ""
  }

  /** None of the three redirect conditions of the load effect holds. */
  predicate QueryValid(query: Params) {
    && !(Truthy(Get(query, "page")) && !IsNumeric(Get(query, "page").value))
    && !(Truthy(Get(query, "q")) && Get(query, "q").value == "null")
    && forall t <- GetAll(query, "tags[]") :: IsNumeric(t)
  }

  /** The `tags[]` values the rebuild keeps: non-empty and numeric, in order. */
  function KeptTags(tags: seq<string>): (kept: seq<string>)
    ensures |kept| <= |tags|
  {
    if tags == [] then []
    else
      var last := tags[|tags| - 1];
      KeptTags(tags[..|tags| - 1]) + (if last != "" && IsNumeric(last) then [last] else [])
  }

  function OptionalPair(name: string, o: Option<string>): Params {
    if Truthy(o) then [(name, o.value)] else []
  }

  /** The parameter list the load effect stores for a valid query. */
  function RestoredParams(query: Params): Params {
    OptionalPair("page", Get(query, "page"))
    + OptionalPair("q", Get(query, "q"))
    + Pairs("tags[]", KeptTags(GetAll(query, "tags[]")))
    + OptionalPair("meeting_date_from", Get(query, "meeting_date_from"))
    + OptionalPair("meeting_date_to", Get(query, "meeting_date_to"))
  }

  /** What the load effect does: go back to the bare list path, or restore this state. */
  datatype LoadOutcome =
    | Redirect(path: string)
    | Restore(params: Params, search: string, dateFrom: Option<string>, dateTo: Option<string>)

  /**
   * The load effect: reject a non-numeric page, `q == "null"` or a non-numeric
   * `tags[]` value by redirecting to `/cards`; otherwise rebuild the list.
   */
  method RestoreQuery(query: Params) returns (out: LoadOutcome)
    ensures out.Redirect? <==> !QueryValid(query)
    ensures out.Redirect? ==> out.path == CardsPath
    ensures out.Restore? ==>
      && out.params == RestoredParams(query)
      && out.search == (if Get(query, "q").Some? then Get(query, "q").value else "")
      && out.dateFrom == (if Truthy(Get(query, "meeting_date_from")) then Get(query, "meeting_date_from") else None)
      && out.dateTo == (if Truthy(Get(query, "meeting_date_to")) then Get(query, "meeting_date_to") else None)
    ensures out.Restore? ==> GetAll(out.params, "q") == if out.search == "" then [] else [out.search]
  {
    var page := Get(query, "page");
    var q := Get(query, "q");
    var tags := GetAll(query, "tags[]");
    var from := Get(query, "meeting_date_from");
    var to := Get(query, "meeting_date_to");

    if Truthy(page) && !IsNumeric(page.value) {
      return Redirect(CardsPath);
    }
    if Truthy(q) && q.value == "null" {
      return Redirect(CardsPath);
    }
    var numeric := AllNumeric(tags);
    if !numeric {
      return Redirect(CardsPath);
    }

    var newParams := Rebuild(page, q, tags, from, to);
    assert newParams == RestoredParams(query);
    RestoredGetAllKey(query, "q");
    out := Restore(newParams, if q.Some? then q.value else "",
                   if Truthy(from) then from else None, if Truthy(to) then to else None);
  }

  /**
   * The rebuild of the parameter list from the values the load effect read:
   * the page when it is truthy and numeric, `q` when truthy, the kept tags,
   * then each truthy date bound.
   */
  method Rebuild(page: Option<string>, q: Option<string>, tags: seq<string>,
                 from: Option<string>, to: Option<string>) returns (newParams: Params)
    ensures newParams ==
      OptionalPair("page", if Truthy(page) && IsNumeric(page.value) then page else None)
      + OptionalPair("q", q) + Pairs("tags[]", KeptTags(tags))
      + OptionalPair("meeting_date_from", from) + OptionalPair("meeting_date_to", to)
  {
    var head := RebuildHead(page, q);
    newParams := AppendTags(head, tags);
    LacksDateNames(head, KeptTags(tags), "meeting_date_from");
    LacksDateNames(head, KeptTags(tags), "meeting_date_to");
    newParams := AddDates(newParams, from, to);
  }

  /** The first two steps of the rebuild: the page when truthy and numeric, then `q` when truthy. */
  method RebuildHead(page: Option<string>, q: Option<string>) returns (head: Params)
    ensures head == OptionalPair("page", if Truthy(page) && IsNumeric(page.value) then page else None)
      + OptionalPair("q", q)
    ensures forall i | 0 <= i < |head| :: head[i].0 in {"page", "q"}
  {
    head := [];
    if Truthy(page) && IsNumeric(page.value) {
      head := Set(head, "page", page.value);
    }
    if Truthy(q) {
      assert GetAll(head, "q") == [];
      GetFirst(head, "q");
      head := Set(head, "q", q.value);
    }
  }

  /** The last two steps of the rebuild: each truthy date bound, on a list that has neither yet. */
  method AddDates(body: Params, from: Option<string>, to: Option<string>) returns (r: Params)
    requires GetAll(body, "meeting_date_from") == [] && GetAll(body, "meeting_date_to") == []
    ensures r == body + OptionalPair("meeting_date_from", from) + OptionalPair("meeting_date_to", to)
  {
    r := body;
    if Truthy(from) {
      SetAbsent(r, "meeting_date_from", from.value);
      r := Set(r, "meeting_date_from", from.value);
    }
    assert r == body + OptionalPair("meeting_date_from", from);
    if Truthy(to) {
      GetAllConcat(body, OptionalPair("meeting_date_from", from), "meeting_date_to");
      GetAllOptionalPair("meeting_date_from", from, "meeting_date_to");
      SetAbsent(r, "meeting_date_to", to.value);
      r := Set(r, "meeting_date_to", to.value);
    }
  }

  /** The `forEach` over the `tags[]` values that redirects at the first NaN one. */
  method AllNumeric(tags: seq<string>) returns (numeric: bool)
    ensures numeric <==> forall t <- tags :: IsNumeric(t)
  {
    var i := 0;
    while i < |tags|
      invariant 0 <= i <= |tags|
      invariant forall j | 0 <= j < i :: IsNumeric(tags[j])
    {
      if !IsNumeric(tags[i]) {
        return false;
      }
      i := i + 1;
    }
    return true;
  }

  /** The `forEach` that appends every non-empty numeric tag value, in order. */
  method AppendTags(p: Params, tags: seq<string>) returns (r: Params)
    ensures r == p + Pairs("tags[]", KeptTags(tags))
  {
    r := p;
    var i := 0;
    while i < |tags|
      invariant 0 <= i <= |tags|
      invariant r == p + Pairs("tags[]", KeptTags(tags[..i]))
    {
      var tag := tags[i];
      assert tags[..i + 1][..i] == tags[..i];
      if tag != "" && IsNumeric(tag) {
        PairsSnoc("tags[]", KeptTags(tags[..i]), tag);
        r := Append(r, "tags[]", tag);
      }
      i := i + 1;
    }
    assert tags[..|tags|] == tags;
  }

  lemma PairsSnoc(name: string, values: seq<string>, v: string)
    ensures Pairs(name, values + [v]) == Pairs(name, values) + [(name, v)]
  {
  }

  lemma LacksDateNames(head: Params, kept: seq<string>, name: string)
    requires forall i | 0 <= i < |head| :: head[i].0 in {"page", "q"}
    requires name !in {"page", "q", "tags[]"}
    ensures GetAll(head + Pairs("tags[]", kept), name) == []
  {
    GetAllConcat(head, Pairs("tags[]", kept), name);
    GetAllPairs("tags[]", kept, name);
    NoSuchName(head, name);
  }

  lemma {:induction false} NoSuchName(p: Params, name: string)
    requires forall i | 0 <= i < |p| :: p[i].0 != name
    ensures GetAll(p, name) == []
  {
    if p != [] {
      NoSuchName(p[1..], name);
    }
  }

  // ---------------------------------------------------------------------------
  // What the restored list holds

  /** A kept tag is exactly a non-empty numeric value of the original list. */
  lemma {:induction false} KeptTagsMembers(tags: seq<string>, t: string)
    ensures t in KeptTags(tags) <==> t in tags && t != "" && IsNumeric(t)
  {
    if tags != [] {
      var init := tags[..|tags| - 1];
      KeptTagsMembers(init, t);
      assert tags == init + [tags[|tags| - 1]];
    }
  }

  /** The kept tags keep the URL's order: keeping distributes over concatenation. */
  lemma {:induction false} KeptTagsConcat(a: seq<string>, b: seq<string>)
    ensures KeptTags(a + b) == KeptTags(a) + KeptTags(b)
  {
    if b == [] {
      assert a + b == a;
    } else {
      var init := b[..|b| - 1];
      assert (a + b)[..|a + b| - 1] == a + init;
      assert (a + b)[|a + b| - 1] == b[|b| - 1];
      KeptTagsConcat(a, init);
    }
  }

  lemma GetAllOptionalPair(name: string, o: Option<string>, k: string)
    ensures GetAll(OptionalPair(name, o), k) == if k == name && Truthy(o) then [o.value] else []
  {
  }

  lemma OthersOptionalPair(name: string, o: Option<string>)
    requires name in QueryNames
    ensures Others(OptionalPair(name, o), QueryNames) == []
  {
  }

  lemma RestoredGetAll(query: Params, k: string)
    ensures GetAll(RestoredParams(query), k)
      == GetAll(OptionalPair("page", Get(query, "page")), k)
       + GetAll(OptionalPair("q", Get(query, "q")), k)
       + GetAll(Pairs("tags[]", KeptTags(GetAll(query, "tags[]"))), k)
       + GetAll(OptionalPair("meeting_date_from", Get(query, "meeting_date_from")), k)
       + GetAll(OptionalPair("meeting_date_to", Get(query, "meeting_date_to")), k)
  {
    var a := OptionalPair("page", Get(query, "page"));
    var b := OptionalPair("q", Get(query, "q"));
    var c := Pairs("tags[]", KeptTags(GetAll(query, "tags[]")));
    var d := OptionalPair("meeting_date_from", Get(query, "meeting_date_from"));
    var e := OptionalPair("meeting_date_to", Get(query, "meeting_date_to"));
    GetAllConcat(a + b + c + d, e, k);
    GetAllConcat(a + b + c, d, k);
    GetAllConcat(a + b, c, k);
    GetAllConcat(a, b, k);
  }

  lemma RestoredGetAllKey(query: Params, k: string)
    ensures GetAll(RestoredParams(query), k)
      == (if k == "page" && Truthy(Get(query, "page")) then [Get(query, "page").value] else [])
       + (if k == "q" && Truthy(Get(query, "q")) then [Get(query, "q").value] else [])
       + (if k == "tags[]" then KeptTags(GetAll(query, "tags[]")) else [])
       + (if k == "meeting_date_from" && Truthy(Get(query, "meeting_date_from")) then [Get(query, "meeting_date_from").value] else [])
       + (if k == "meeting_date_to" && Truthy(Get(query, "meeting_date_to")) then [Get(query, "meeting_date_to").value] else [])
  {
    RestoredGetAll(query, k);
    GetAllOptionalPair("page", Get(query, "page"), k);
    GetAllOptionalPair("q", Get(query, "q"), k);
    GetAllPairs("tags[]", KeptTags(GetAll(query, "tags[]")), k);
    GetAllOptionalPair("meeting_date_from", Get(query, "meeting_date_from"), k);
    GetAllOptionalPair("meeting_date_to", Get(query, "meeting_date_to"), k);
  }

  lemma RestoredOthers(query: Params)
    ensures Others(RestoredParams(query), QueryNames) == []
  {
    var a := OptionalPair("page", Get(query, "page"));
    var b := OptionalPair("q", Get(query, "q"));
    var c := Pairs("tags[]", KeptTags(GetAll(query, "tags[]")));
    var d := OptionalPair("meeting_date_from", Get(query, "meeting_date_from"));
    var e := OptionalPair("meeting_date_to", Get(query, "meeting_date_to"));
    OthersConcat(a + b + c + d, e, QueryNames);
    OthersConcat(a + b + c, d, QueryNames);
    OthersConcat(a + b, c, QueryNames);
    OthersConcat(a, b, QueryNames);
    OthersOptionalPair("page", Get(query, "page"));
    OthersOptionalPair("q", Get(query, "q"));
    OthersPairs("tags[]", KeptTags(GetAll(query, "tags[]")));
    OthersOptionalPair("meeting_date_from", Get(query, "meeting_date_from"));
    OthersOptionalPair("meeting_date_to", Get(query, "meeting_date_to"));
  }

  /**
   * After a successful load: `page` and `q` only when non-empty, the non-empty
   * `tags[]` in order, each date bound only when non-empty, and nothing else.
   */
  lemma RestoredParamsReads(query: Params)
    ensures GetAll(RestoredParams(query), "page")
      == if Truthy(Get(query, "page")) then [Get(query, "page").value] else []
    ensures GetAll(RestoredParams(query), "q")
      == if Truthy(Get(query, "q")) then [Get(query, "q").value] else []
    ensures GetAll(RestoredParams(query), "tags[]") == KeptTags(GetAll(query, "tags[]"))
    ensures GetAll(RestoredParams(query), "meeting_date_from")
      == if Truthy(Get(query, "meeting_date_from")) then [Get(query, "meeting_date_from").value] else []
    ensures GetAll(RestoredParams(query), "meeting_date_to")
      == if Truthy(Get(query, "meeting_date_to")) then [Get(query, "meeting_date_to").value] else []
    ensures Others(RestoredParams(query), QueryNames) == []
  {
    RestoredGetAllKey(query, "page");
    RestoredGetAllKey(query, "q");
    RestoredGetAllKey(query, "tags[]");
    RestoredGetAllKey(query, "meeting_date_from");
    RestoredGetAllKey(query, "meeting_date_to");
    RestoredOthers(query);
  }

  lemma {:induction false} OthersPairs(name: string, values: seq<string>)
    requires name in QueryNames
    ensures Others(Pairs(name, values), QueryNames) == []
  {
    if values != [] {
      assert Pairs(name, values)[1..] == Pairs(name, values[1..]);
      OthersPairs(name, values[1..]);
    }
  }

  // ---------------------------------------------------------------------------
  // Search tags

  /** A tag of the filter bar with its transient selection flag. */
  datatype SearchTag = SearchTag(tag: Tag, selected: bool)

  /** fetchTags: every tag resource, selected when its string id is among the `tags[]` values. */
  function SelectSearchTags(resources: seq<TagResource>, params: Params): (r: seq<SearchTag>)
    ensures |r| == |resources|
    ensures forall i | 0 <= i < |r| :: r[i].tag == resources[i].attributes
  {
    seq(|resources|, i requires 0 <= i < |resources| =>
      SearchTag(resources[i].attributes, resources[i].id in GetAll(params, "tags[]")))
  }

  /**
   * After a valid URL is loaded, a fetched tag shows as selected exactly when
   * its id was one of the URL's non-empty `tags[]` values.
   */
  lemma SelectionAfterLoad(resources: seq<TagResource>, query: Params, i: nat)
    requires QueryValid(query)
    requires i < |resources|
    ensures SelectSearchTags(resources, RestoredParams(query))[i].selected
      <==> resources[i].id != "" && resources[i].id in GetAll(query, "tags[]")
  {
    RestoredParamsReads(query);
    KeptTagsMembers(GetAll(query, "tags[]"), resources[i].id);
  }

  /** The click handler's flip of `selected` on every tag carrying the clicked name. */
  function ToggleByName(tags: seq<SearchTag>, name: string): (r: seq<SearchTag>)
    ensures |r| == |tags|
  {
    seq(|tags|, i requires 0 <= i < |tags| =>
      if tags[i].tag.name == name then tags[i].(selected := !tags[i].selected) else tags[i])
  }

  /** Clicking the same tag twice restores every flag. */
  lemma ToggleTwice(tags: seq<SearchTag>, name: string)
    ensures ToggleByName(ToggleByName(tags, name), name) == tags
  {
  }

  /** The ids (as `id.toString()`) of the selected tags, in list order. */
  function SelectedIds(tags: seq<SearchTag>): (ids: seq<string>)
    ensures |ids| <= |tags|
  {
    if tags == [] then []
    else
      var last := tags[|tags| - 1];
      SelectedIds(tags[..|tags| - 1]) + (if last.selected then [IntToString(last.tag.id)] else [])
  }

  /** The `tags[]` values the click handler appends: none when zero or all tags are selected. */
  function TagFilter(tags: seq<SearchTag>): seq<string> {
    var ids := SelectedIds(tags);
    if |ids| == 0 || |ids| == |tags| then [] else ids
  }

  lemma {:induction false} SelectedIdsMembers(tags: seq<SearchTag>, x: string)
    ensures x in SelectedIds(tags) <==>
      exists j | 0 <= j < |tags| :: tags[j].selected && IntToString(tags[j].tag.id) == x
  {
    if tags != [] {
      var init := tags[..|tags| - 1];
      SelectedIdsMembers(init, x);
      if exists j | 0 <= j < |tags| :: tags[j].selected && IntToString(tags[j].tag.id) == x {
        var j :| 0 <= j < |tags| && tags[j].selected && IntToString(tags[j].tag.id) == x;
        if j < |init| {
          assert init[j] == tags[j];
        }
      }
    }
  }

  /** The ids are written in bar order: collecting distributes over concatenation. */
  lemma {:induction false} SelectedIdsConcat(a: seq<SearchTag>, b: seq<SearchTag>)
    ensures SelectedIds(a + b) == SelectedIds(a) + SelectedIds(b)
  {
    if b == [] {
      assert a + b == a;
    } else {
      var init := b[..|b| - 1];
      assert (a + b)[..|a + b| - 1] == a + init;
      assert (a + b)[|a + b| - 1] == b[|b| - 1];
      SelectedIdsConcat(a, init);
    }
  }

  lemma {:induction false} SelectedIdsCount(tags: seq<SearchTag>)
    ensures |SelectedIds(tags)| == 0 <==> forall j | 0 <= j < |tags| :: !tags[j].selected
    ensures |SelectedIds(tags)| == |tags| <==> forall j | 0 <= j < |tags| :: tags[j].selected
  {
    if tags != [] {
      var init := tags[..|tags| - 1];
      SelectedIdsCount(init);
      assert forall j | 0 <= j < |init| :: init[j] == tags[j];
    }
  }

  /** The filter is dropped from the URL exactly when no tag or every tag is selected. */
  lemma TagFilterOmitted(tags: seq<SearchTag>)
    ensures TagFilter(tags) == [] <==>
      (forall j | 0 <= j < |tags| :: !tags[j].selected) || (forall j | 0 <= j < |tags| :: tags[j].selected)
  {
    SelectedIdsCount(tags);
  }

  /**
   * The round trip through the URL: when the tags re-fetched after a click are
   * the same resources as the bar (ids printed from their numeric ids, no two
   * alike), the recomputed selection equals the clicked one, except that a
   * selection of none or of every tag comes back as nothing selected.
   */
  lemma UrlRoundTrip(resources: seq<TagResource>, tags: seq<SearchTag>, params: Params)
    requires |tags| == |resources|
    requires forall i | 0 <= i < |tags| :: tags[i].tag == resources[i].attributes
    requires forall i | 0 <= i < |resources| :: resources[i].id == IntToString(resources[i].attributes.id)
    requires forall i, j | 0 <= i < j < |resources| :: resources[i].attributes.id != resources[j].attributes.id
    requires GetAll(params, "tags[]") == TagFilter(tags)
    ensures TagFilter(tags) != [] ==> SelectSearchTags(resources, params) == tags
    ensures TagFilter(tags) == [] ==> forall i | 0 <= i < |tags| :: !SelectSearchTags(resources, params)[i].selected
  {
    var r := SelectSearchTags(resources, params);
    if TagFilter(tags) != [] {
      forall i | 0 <= i < |tags|
        ensures r[i] == tags[i]
      {
        SelectedAgain(resources, tags, i);
      }
    }
  }

  /** With ids printed from distinct numeric ids, a resource's id is selected exactly when its own tag is. */
  lemma {:induction false} SelectedAgain(resources: seq<TagResource>, tags: seq<SearchTag>, i: nat)
    requires |tags| == |resources| && i < |tags|
    requires forall k | 0 <= k < |tags| :: tags[k].tag == resources[k].attributes
    requires resources[i].id == IntToString(resources[i].attributes.id)
    requires forall k | 0 <= k < |resources| && k != i :: resources[k].attributes.id != resources[i].attributes.id
    ensures resources[i].id in SelectedIds(tags) <==> tags[i].selected
  {
    var id := resources[i].id;
    SelectedIdsMembers(tags, id);
    if id in SelectedIds(tags) {
      var j :| 0 <= j < |tags| && tags[j].selected && IntToString(tags[j].tag.id) == id;
      IntToStringInjective(tags[j].tag.id, resources[i].attributes.id);
      assert j == i;
    } else {
      assert !tags[i].selected;
    }
  }
}
