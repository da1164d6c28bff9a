# matomeishi-next in Dafny

A model of the browser-side rules of matomeishi, a Next.js client for storing
scanned business cards. It covers:

- the cards list page (`app/cards/page.tsx`):
  - the URL query it validates and rebuilds on load;
  - the four handlers that rewrite its URLSearchParams and push the result to
    the browser history;
  - the merge of a JSON:API compound document (the `included` member) into flat
    card records;
  - the tag bar's selection rule;
  - the reset after a failed request.
- the Pagination row (`components/pagination.tsx`).
- the authentication context and the `withAuth` gate (`contexts/authContext.tsx`,
  `components/withAuth.tsx`).
- the subscriptions page's button table and its handlers
  (`app/subscriptions/page.tsx`).
- the new-card upload form (`app/cards/new/page.tsx`).

Layout, one module per file:

| file | module | models |
|---|---|---|
| `wrappers.dfy` | `Wrappers` | `Option` |
| `search_params.dfy` | `SearchParams` | the URLSearchParams list (WHATWG URL Standard, section 6.2): `get`, `getAll`, `set`, `append`, `delete`, `toString` |
| `js_number.dfy` | `JsNumber` | the `isNaN(Number(s))` test on decimal strings and `n.toString()` on integers |
| `business_card.dfy` | `BusinessCardTypes` | the records of `types/BusinessCard.ts` |
| `cards_normalize.dfy` | `CardsNormalize` | the `included` merge |
| `cards_query.dfy` | `CardsQuery` | load validation and rebuild; tag selection, toggle and filter |
| `cards_page.dfy` | `CardsList` | the list page's state cells as class `CardsPage`, plus the parameter edits of its handlers |
| `pagination.dfy` | `Pagination` | the Pagination row |
| `auth_context.dfy` | `AuthContext` | class `AuthProvider` |
| `with_auth.dfy` | `WithAuth` | the withAuth decision |
| `subscriptions.dfy` | `Subscriptions` | the panel and footers, and class `SubscriptionsPage` |
| `new_card.dfy` | `NewCard` | class `NewCardPage` |

Pages whose handlers overwrite React state cells are classes: each cell is a
field, and each handler is a method whose `ensures` gives the whole new state.
The network, the router and the history are modelled in three ways:

- A server reply is a method parameter: an outcome datatype with one case per
  way the `await` chain can end.
- A pushed URL or router path is appended to a `history` or `navigations`
  field.
- A request sent is a returned value.

Behaviour of the code that the model keeps:

- The list page hides the skeletons only once `fetch` has resolved (line 136).
  A request that rejects empties the list but leaves `isLoadingBusinessCards`
  true.
- The new-card form catches no errors. An upload whose request or JSON parse
  rejects leaves `analyzing` true, so the form stays disabled. A body that
  parses but holds no `data.attributes`, such as an error reply, re-enables the
  form. The read of `code` then throws, so nothing is opened.
- The subscription handlers read `currentSubscription.subscription_id`. Without
  a current record that read throws, and nothing is sent.

The new-card page sends nothing unless both images are present
(`app/cards/new/page.tsx:66-74`), and the model follows the page.

## Model

| member | source | states |
|---|---|---|
| SearchParams.Get | app/cards/page.tsx:56-60 | no contract; `get` is specified by GetFirst |
| SearchParams.GetAll | app/cards/page.tsx:58 | no more values than pairs; specified by GetAllConcat, GetAllPairs and the GetAll* lemmas of each operation |
| SearchParams.Set | app/cards/page.tsx:85-108 | no contract; specified by GetAllSet, OthersSet and SetAbsent |
| SearchParams.ReplaceFirst | app/cards/page.tsx:85-108 | no contract; the in-place half of `set`, specified by GetAllReplaceFirst and OthersReplaceFirst |
| SearchParams.Append | app/cards/page.tsx:97 | no contract; specified by GetAllAppend and OthersAppend |
| SearchParams.Serialize | app/cards/page.tsx:304 | no contract; `toString` as a plain join, see "## Left out" |
| SearchParams.GetFirst | app/cards/page.tsx:56-60 | `get` is the first value `getAll` returns, or null when there is none |
| SearchParams.Delete | app/cards/page.tsx:348 | `delete` never lengthens the list |
| SearchParams.DeleteRemoves | app/cards/page.tsx:348 | `delete` leaves no pair with that name |
| SearchParams.GetAllConcat | app/cards/page.tsx:82-109 | `getAll` on a list built in two parts is the first part's values followed by the second's |
| SearchParams.GetAllDelete | app/cards/page.tsx:299 | after `delete(name)`, `getAll(name)` is empty and every other name reads as before |
| SearchParams.GetAllReplaceFirst | app/cards/page.tsx:295 | replacing the first pair of a present name leaves exactly one value for it and other names untouched |
| SearchParams.GetAllSet | app/cards/page.tsx:295 | after `set(name, v)`, `getAll(name)` is `[v]` and every other name reads as before |
| SearchParams.GetAllAppend | app/cards/page.tsx:352 | `append(name, v)` adds `v` at the end of `getAll(name)` only |
| SearchParams.GetAllPairs | app/cards/page.tsx:93-99 | a run of pairs with one name reads back as its values under that name and as nothing under others |
| SearchParams.SetAbsent | app/cards/page.tsx:103 | `set` of an absent name is an append at the end |
| SearchParams.OthersConcat | app/cards/page.tsx:82-109 | pairs outside a set of names split over a concatenation |
| SearchParams.OthersDelete | app/cards/page.tsx:348 | `delete` of a listed name keeps every pair outside the list, in order |
| SearchParams.OthersReplaceFirst | app/cards/page.tsx:295 | replacing a listed name keeps every pair outside the list, in order |
| SearchParams.OthersSet | app/cards/page.tsx:357 | `set` of a listed name keeps every pair outside the list, in order |
| SearchParams.OthersAppend | app/cards/page.tsx:352 | `append` of a listed name keeps every pair outside the list, in order |
| SearchParams.GetAllOthers | app/cards/page.tsx:294 | filtering out other names does not change the values of a name outside them |
| JsNumber.IsNumeric | app/cards/page.tsx:64 | no contract; the NaN test, specified by KeptTagsMembers and IntToStringIsNumeric |
| JsNumber.IntToString | app/cards/page.tsx:295 | no contract; `toString` of an integer, specified by DecimalDigitsValue, SignOfString, IntToStringInjective and IntToStringIsNumeric |
| JsNumber.LeadingDigits | app/cards/page.tsx:64 | the digit prefix is no longer than the string |
| JsNumber.LeadingDigitsPrefix | app/cards/page.tsx:64 | the digit prefix is all digits and is followed by a non-digit or the end |
| JsNumber.DigitChar | app/cards/page.tsx:295 | a digit below ten prints as a digit character |
| JsNumber.DecimalDigits | app/cards/page.tsx:295 | a natural number prints as a non-empty string |
| JsNumber.DecimalDigitsAreDigits | app/cards/page.tsx:295 | a natural number prints as digits only |
| JsNumber.DecimalDigitsValue | app/cards/page.tsx:295 | reading the printed digits back gives the number |
| JsNumber.SignOfString | app/cards/page.tsx:295 | a printed integer is non-empty and starts with '-' exactly when negative |
| JsNumber.IntToStringInjective | app/cards/page.tsx:352 | two tag ids print alike only when they are equal |
| JsNumber.AllDigitsLeading | app/cards/page.tsx:64 | in an all-digit string the digit prefix is the whole string |
| JsNumber.IntToStringIsNumeric | app/cards/page.tsx:298 | a printed integer never fails the NaN test |
| CardsNormalize.RelationshipIds | app/cards/page.tsx:214 | one id per relationship entry |
| CardsNormalize.TagsFor | app/cards/page.tsx:215 | the resolved tags never outnumber the included resources |
| CardsNormalize.Normalize | app/cards/page.tsx:210-219 | one record per card, in input order, each its own attributes apart from `tags` |
| CardsNormalize.NormalizeTags | app/cards/page.tsx:213-218 | card i carries a tag iff an `included` resource whose id is in card i's own relationship list has it as its attributes |
| CardsNormalize.TagsForMembers | app/cards/page.tsx:215 | a tag is attached iff some included resource with a listed id carries it, so ids missing from `included` add nothing |
| CardsNormalize.TagsForConcat | app/cards/page.tsx:215 | resolution keeps the order of `included` |
| CardsNormalize.TagsForIdSet | app/cards/page.tsx:214-215 | only the set of related ids matters, not their order or repeats |
| CardsNormalize.TagsForNoIds | app/cards/page.tsx:214-215 | an empty relationship list gives no tags |
| CardsNormalize.TagsForExample | app/cards/page.tsx:210-219 | relationships 7, 4 against included 4, 7, 9 give tags 4 then 7 |
| CardsQuery.KeptTags | app/cards/page.tsx:93-99 | the rebuild never adds `tags[]` values |
| CardsQuery.KeptTagsMembers | app/cards/page.tsx:93-99 | a `tags[]` value is kept iff it was in the URL, non-empty and numeric |
| CardsQuery.KeptTagsConcat | app/cards/page.tsx:94-99 | the kept tags keep the URL's order: keeping distributes over concatenation |
| CardsQuery.QueryValid | app/cards/page.tsx:62-79 | no contract; the three load checks, specified by RestoreQuery and CanonicalIsValid |
| CardsQuery.RestoredParams | app/cards/page.tsx:82-109 | no contract; the rebuilt list, specified by Rebuild and RestoredParamsReads |
| CardsQuery.RestoreQuery | app/cards/page.tsx:55-117 | redirect to `/cards` iff the page is a non-empty NaN, `q` is "null" or some tag is NaN; otherwise the rebuilt list, the search text (`q` or "") and the truthy date bounds, with the box text and the rebuilt `q` in agreement |
| CardsQuery.AllNumeric | app/cards/page.tsx:76 | true iff every `tags[]` value passes the NaN test |
| CardsQuery.Rebuild | app/cards/page.tsx:82-109 | the rebuilt list is the truthy numeric page, the truthy `q`, the kept tags and the truthy bounds, in that order |
| CardsQuery.RebuildHead | app/cards/page.tsx:82-92 | the list starts with the truthy numeric page and then the truthy `q`, and holds no other name |
| CardsQuery.AddDates | app/cards/page.tsx:101-109 | on a list without date bounds, each truthy bound is appended, `from` before `to` |
| CardsQuery.AppendTags | app/cards/page.tsx:94-99 | the loop appends exactly the kept tags, in order |
| CardsQuery.RestoredParamsReads | app/cards/page.tsx:82-116 | the rebuilt list holds `page` and `q` only when non-empty, the non-empty tags in order, each date bound only when non-empty, and nothing else |
| CardsQuery.SelectSearchTags | app/cards/page.tsx:264-274 | one search tag per fetched tag, in order, each carrying that resource's attributes |
| CardsQuery.SelectionAfterLoad | app/cards/page.tsx:266-274 | after a valid load, a fetched tag is selected iff its string id was a non-empty `tags[]` value of the URL |
| CardsQuery.ToggleByName | app/cards/page.tsx:333-342 | the toggle keeps the tag count |
| CardsQuery.ToggleTwice | app/cards/page.tsx:333-342 | clicking the same name twice restores every flag |
| CardsQuery.SelectedIds | app/cards/page.tsx:350-354 | never more ids than tags |
| CardsQuery.SelectedIdsConcat | app/cards/page.tsx:350-354 | the ids are collected in bar order: collecting distributes over concatenation |
| CardsQuery.SelectedIdsMembers | app/cards/page.tsx:350-354 | an id is appended iff some selected tag prints to it |
| CardsQuery.SelectedIdsCount | app/cards/page.tsx:347-350 | no ids iff no tag is selected; as many ids as tags iff every tag is selected |
| CardsQuery.TagFilter | app/cards/page.tsx:344-354 | no contract; the `tags[]` values a click writes, specified by TagFilterOmitted, TagFilterValues and UrlRoundTrip |
| CardsQuery.TagFilterOmitted | app/cards/page.tsx:347-355 | the `tags[]` filter is empty iff no tag or every tag is selected |
| CardsQuery.UrlRoundTrip | app/cards/page.tsx:266-274 | re-fetching the same tags under the pushed filter gives back the clicked selection, or nothing selected when none or all were selected |
| CardsQuery.SelectedAgain | app/cards/page.tsx:266-274 | with ids printed from distinct numeric ids, a fetched tag's id is among the selected ids iff its own tag was selected |
| CardsList.Url | app/cards/page.tsx:304 | no contract; the pushed URL, specified by the handlers' history ensures |
| CardsList.ParamsForPage | app/cards/page.tsx:294-300 | no contract; specified by PageEdit and EditPage |
| CardsList.ParamsForQ | app/cards/page.tsx:311-320 | no contract; specified by QEdit and EditQ |
| CardsList.ParamsForTags | app/cards/page.tsx:344-357 | no contract; specified by TagsEdit and EditTags |
| CardsList.ParamsForDates | app/cards/page.tsx:369-387 | no contract; specified by DatesEdit and EditDates |
| CardsList.PageEdit | app/cards/page.tsx:293-300 | onChangePage sets `page` to the number and keeps every other key and unknown pair |
| CardsList.QEdit | app/cards/page.tsx:310-320 | onChangeQ sets `q`, or drops it for empty text, sets `page` to "1" and keeps the rest |
| CardsList.TagsEdit | app/cards/page.tsx:344-357 | onClickSearchTag makes `tags[]` the selection's filter, sets `page` to "1" and keeps the rest |
| CardsList.DateParamEdit | app/cards/page.tsx:377-387 | a defined bound is written formatted and a missing one deleted, nothing else changes |
| CardsList.DatesEdit | app/cards/page.tsx:368-387 | onChangeMeetingDatesRange writes or drops each bound, sets `page` to "1" and keeps the rest |
| CardsList.KeptTagsIdentity | app/cards/page.tsx:93-99 | the rebuild keeps a list of non-empty numeric tags unchanged |
| CardsList.OneValueRestored | app/cards/page.tsx:84-92 | a single non-empty value survives the truthiness test of the rebuild |
| CardsList.CanonicalIsValid | app/cards/page.tsx:64-79 | a canonical list passes the load validation |
| CardsList.ReloadRestores | app/cards/page.tsx:55-117 | reloading a canonical URL is not redirected and rebuilds every known key with the same values |
| CardsList.CanonicalFromOptions | app/cards/page.tsx:82-109 | single truthy values plus numeric tags make a canonical list |
| CardsList.LoadIsCanonical | app/cards/page.tsx:82-116 | what a valid load stores is canonical |
| CardsList.PageKeepsCanonical | app/cards/page.tsx:293-300 | onChangePage keeps the list canonical |
| CardsList.QKeepsCanonical | app/cards/page.tsx:310-320 | onChangeQ with any text but "null" keeps the list canonical |
| CardsList.QNullNotReloadable | app/cards/page.tsx:69-72 | searching for "null" pushes a URL whose reload redirects to `/cards` |
| CardsList.TagsKeepCanonical | app/cards/page.tsx:344-357 | onClickSearchTag keeps the list canonical |
| CardsList.DatesKeepCanonical | app/cards/page.tsx:368-387 | onChangeMeetingDatesRange keeps the list canonical when dates format to non-empty text |
| CardsList.RestoredSearch | app/cards/page.tsx:89-92 | the rebuilt `q` is the URL's `q` when truthy |
| CardsList.TagsKeepQ | app/cards/page.tsx:344-357 | a tag click leaves `q` alone |
| CardsList.DatesKeepQ | app/cards/page.tsx:368-387 | a date change leaves `q` alone |
| CardsList.TagFilterValues | app/cards/page.tsx:350-354 | every `tags[]` value a click writes is a non-empty numeric string |
| CardsList.EditPage | app/cards/page.tsx:294-300 | the copy with `page` set; the NaN check never deletes it, since a printed integer always parses |
| CardsList.EditQ | app/cards/page.tsx:311-320 | the copy with `q` set, `page` set to "1", and `q` dropped again for empty text |
| CardsList.EditTags | app/cards/page.tsx:344-357 | the copy without `tags[]`, then the filter of the new bar, then `page` set to "1" |
| CardsList.EditDates | app/cards/page.tsx:369-387 | the copy with `page` set to "1" and each bound written or deleted |
| CardsList.AppendSelected | app/cards/page.tsx:350-354 | the loop appends the id of every selected tag, in bar order |
| CardsList.CardsPage.constructor | app/cards/page.tsx:37-50 | the initial state cells, with the search box in sync with `q` |
| CardsList.CardsPage.Mount | app/cards/page.tsx:55-117 | an invalid URL adds one router push to `/cards` and changes nothing else; a valid one stores the rebuilt list, the search text and the parsed bounds |
| CardsList.CardsPage.FetchBusinessCards | app/cards/page.tsx:130-249 | requests `/business_cards?` plus the current list; success stores the normalized cards and pagination; any failure stores `[]` and the default pagination; loading stays on only when the request rejects |
| CardsList.CardsPage.FetchTags | app/cards/page.tsx:252-288 | the tag bar becomes the fetched tags selected by the current `tags[]`, or empty on failure |
| CardsList.CardsPage.OnChangePage | app/cards/page.tsx:293-305 | params become the edited list of PageEdit, exactly that list is pushed after `/cards?`, and the box stays in sync with `q` |
| CardsList.CardsPage.OnChangeQ | app/cards/page.tsx:310-326 | params become the edited list of QEdit, the box shows the text, and that list is pushed |
| CardsList.CardsPage.OnClickSearchTag | app/cards/page.tsx:331-363 | the bar is toggled by name, params become the edited list of TagsEdit for the new bar, and that list is pushed |
| CardsList.CardsPage.OnChangeMeetingDatesRange | app/cards/page.tsx:368-393 | params become the edited list of DatesEdit, the range is stored, and that list is pushed |
| Pagination.Render | components/pagination.tsx:19-25 | no contract; the row for a given next-button guard, shared by Layout and IntendedLayout |
| Pagination.Layout | components/pagination.tsx:19-25 | no contract; the row as written, specified by the Layout* lemmas, EllipsisMarksGap, NoHiddenGaps and PenultimateHidesLast |
| Pagination.IntendedLayout | components/pagination.tsx:23 | no contract; the corrected row, specified by IntendedReachable and IntendedIncreasing |
| Pagination.LayoutShowsCurrent | components/pagination.tsx:22 | the current page is always shown, as the only button without a click target |
| Pagination.LayoutIncreasing | components/pagination.tsx:19-25 | page numbers strictly increase left to right |
| Pagination.LayoutTargetsInRange | components/pagination.tsx:19-25 | with 1 <= currentPage <= totalPages every click passes a page in [1, totalPages] |
| Pagination.LayoutEllipses | components/pagination.tsx:20-24 | a leading "..." iff currentPage > 3, a trailing one iff currentPage < totalPages - 2 |
| Pagination.EllipsisMarksGap | components/pagination.tsx:19-25 | every "..." stands between two buttons that skip at least one page |
| Pagination.NoHiddenGaps | components/pagination.tsx:19-25 | for consistent info, adjacent buttons without "..." are consecutive pages |
| Pagination.LayoutReachable | components/pagination.tsx:19-25 | "1" and the previous page iff currentPage > 1; next iff not last and currentPage < totalPages - 1; last iff currentPage < totalPages - 1 |
| Pagination.PenultimateHidesLast | components/pagination.tsx:23-25 | on page totalPages - 1 no button shows the last page |
| Pagination.PenultimateExample | components/pagination.tsx:19-25 | page 9 of 10 renders 1, ..., 8, 9 |
| Pagination.IntendedReachable | components/pagination.tsx:23-25 | with the next-page guard relaxed, the next and the last page are reachable iff a next page exists |
| Pagination.IntendedIncreasing | components/pagination.tsx:19-25 | the corrected row is still strictly increasing |
| AuthContext.Reported | contexts/authContext.tsx:25-26 | a reported user is never undefined |
| AuthContext.Step | contexts/authContext.tsx:25-28 | no contract; one callback, specified by AfterReports |
| AuthContext.After | contexts/authContext.tsx:21-28 | no contract; the context after a history of callbacks, specified by AfterReports and LoadingNeverReturns |
| AuthContext.AfterReports | contexts/authContext.tsx:21-28 | loading iff no report yet; the user is undefined before and the last reported one after |
| AuthContext.LoadingNeverReturns | contexts/authContext.tsx:22-27 | once false, loading stays false under any later reports |
| AuthContext.AuthProvider.constructor | contexts/authContext.tsx:14-22 | starts undefined and loading, like the context default, with no reports yet |
| AuthContext.AuthProvider.OnAuthStateChanged | contexts/authContext.tsx:25-28 | stores the reported user, clears loading, and keeps the exposed `{ user, loading }` equal to the context after all reports so far |
| WithAuth.Evaluate | components/withAuth.tsx:19-37 | no contract; one evaluation, specified by EvaluateTable and GateOverHistory |
| WithAuth.EvaluateTable | components/withAuth.tsx:19-37 | loading view and no push while loading; push "/" for no user; push "/cards" for a user on "/"; otherwise none; at most one push; wrapped view once loaded |
| WithAuth.GateOverHistory | components/withAuth.tsx:19-37 | combined with the provider, the decision depends only on whether and whom it last reported |
| Subscriptions.Panel | app/subscriptions/page.tsx:122-158 | no contract; specified by PanelTable |
| Subscriptions.FreeFooter | app/subscriptions/page.tsx:209-211 | no contract; specified by FreeFooterSingle and FreeOffers |
| Subscriptions.ProFooter | app/subscriptions/page.tsx:247-251 | no contract; specified by ProCount and ProOffers |
| Subscriptions.UnlimitedFooter | app/subscriptions/page.tsx:288-291 | no contract; specified by UnlimitedCount and UnlimitedOffers |
| Subscriptions.Footers | app/subscriptions/page.tsx:208-291 | no contract; specified by FootersOffers, CurrentPlanAtMostOnce and CancellingFreezesPlans |
| Subscriptions.PanelTable | app/subscriptions/page.tsx:122-158 | panel iff a subscription; Reactivate iff cancelling; Cancel the downgrade iff downgrade pending; Cancel your subscription iff neither |
| Subscriptions.FreeFooterSingle | app/subscriptions/page.tsx:209-211 | exactly one Free button: Current Plan, Downgrade (cancels) or the disabled Will start on |
| Subscriptions.CountLabelConcat | app/subscriptions/page.tsx:208-291 | label counts add over concatenated footers |
| Subscriptions.CurrentPlanAtMostOnce | app/subscriptions/page.tsx:209-289 | "Current Plan" at most once: on Free iff no subscription, on Pro or Unlimited iff not cancelling on that plan |
| Subscriptions.ProCount | app/subscriptions/page.tsx:247-251 | the Pro footer shows "Current Plan" iff not cancelling on pro |
| Subscriptions.UnlimitedCount | app/subscriptions/page.tsx:288-291 | the Unlimited footer shows "Current Plan" iff not cancelling on unlimited |
| Subscriptions.OffersConcat | app/subscriptions/page.tsx:208-291 | a button list offers an action iff one of its two parts does |
| Subscriptions.FreeOffers | app/subscriptions/page.tsx:209-211 | the Free card's only enabled action is the cancelling downgrade of a live subscription |
| Subscriptions.ProOffers | app/subscriptions/page.tsx:247-251 | the Pro card offers the Pro payment form iff no subscription, and the downgrade iff live on unlimited with no downgrade pending; nothing else |
| Subscriptions.UnlimitedOffers | app/subscriptions/page.tsx:288-291 | the Unlimited card offers the Unlimited payment form iff no subscription, and the upgrade iff live on pro; nothing else |
| Subscriptions.FootersOffers | app/subscriptions/page.tsx:208-291 | the three cards together offer what one of them offers |
| Subscriptions.GetStartedOnlyWithout | app/subscriptions/page.tsx:247-288 | a subscriber sees no "Get Started" button |
| Subscriptions.GetStartedPrices | app/subscriptions/page.tsx:247-288 | the Pro and Unlimited payment forms are offered iff there is no subscription, each with its own card's price id and never the other's |
| Subscriptions.PlanChangeOffers | app/subscriptions/page.tsx:249-290 | upgrade iff not cancelling on pro; downgrade iff not cancelling, no pending downgrade, on unlimited |
| Subscriptions.CancellingFreezesPlans | app/subscriptions/page.tsx:210-291 | while cancelling, every footer button is disabled |
| Subscriptions.SubscriptionsPage.constructor | app/subscriptions/page.tsx:28-29 | no subscription and no selected price |
| Subscriptions.SubscriptionsPage.FetchCurrent | app/subscriptions/page.tsx:31-44 | a returned record replaces the current one; a failure changes nothing |
| Subscriptions.SubscriptionsPage.Post | app/subscriptions/page.tsx:49-98 | without a record nothing is sent; otherwise the request carries its id and a returned record replaces it |
| Subscriptions.SubscriptionsPage.Cancel | app/subscriptions/page.tsx:49-59 | posts the id to `/subscriptions/cancel` and stores the returned record |
| Subscriptions.SubscriptionsPage.ReactivateCurrent | app/subscriptions/page.tsx:62-72 | posts the id to `/subscriptions/reactivate` and stores the returned record |
| Subscriptions.SubscriptionsPage.ChangePlanTo | app/subscriptions/page.tsx:75-85 | posts the id and plan type to `/subscriptions/change_plan` and stores the returned record |
| Subscriptions.SubscriptionsPage.CancelPendingDowngrade | app/subscriptions/page.tsx:88-98 | posts the id to `/subscriptions/cancel_downgrade` and stores the returned record |
| Subscriptions.SubscriptionsPage.SelectPrice | app/subscriptions/page.tsx:101-103 | stores the chosen price id and nothing else |
| NewCard.NewCardPage.constructor | app/cards/new/page.tsx:32-34 | both slots empty, not analyzing, nothing sent or opened |
| NewCard.NewCardPage.OnUploadImage | app/cards/new/page.tsx:39-57 | a null list or a running analysis changes nothing; otherwise only the chosen side takes the first file (empty for an empty list) |
| NewCard.NewCardPage.Submit | app/cards/new/page.tsx:61-96 | sends exactly the two stored files iff both are present; stays analyzing iff sent |
| NewCard.NewCardPage.OnReply | app/cards/new/page.tsx:98-101 | a rejected request or body leaves the form disabled; any parsed body re-enables it; only a created card's body navigates, to `/cards/{code}`; the pages opened stay those of the created cards in reply order |
| NewCard.CardPath | app/cards/new/page.tsx:101 | no contract; the created card's page path |
| NewCard.CreatedPaths | app/cards/new/page.tsx:98-101 | one page at most per reply; specified by CreatedPathsMembers |
| NewCard.CreatedPathsMembers | app/cards/new/page.tsx:98-101 | a page is opened iff some reply created the card whose page it is |

## Left out

- Network, tokens, toasts and console output: `fetch`, `getIdToken`, `toast` and `console` are not modelled. Each request's result is a parameter.
- A `getIdToken` that rejects sends no request at all. `CardsList.CardsPage.FetchBusinessCards` returns, and `NewCard.NewCardPage.Submit` appends to `uploads`, the request the page builds, even for an outcome where the token read is what failed.
- Asynchrony: each handler runs to completion in one step. Interleaved replies are not modelled, including the stale-response race of superseded list requests. The exception is the new-card upload, which is split into Submit and OnReply.
- `withAuth` effect dependencies: the effect lists `[loading, user, router]`, not the pathname, so it re-runs only when those change. `WithAuth.Evaluate` is one evaluation.
- JsNumber.IntToString prints every digit of an unbounded integer. JavaScript's `toString` switches to exponent form from 1e21 upwards. Page numbers and tag ids never get that large.
- `JsNumber.IsNumeric` covers only the decimal part of JavaScript's string-to-number conversion: optional sign, digits, one optional '.', and "" (which converts to 0). Strings that JavaScript also converts to a number, such as those with surrounding whitespace, exponents (`1e3`), hex (`0x10`) or "Infinity", are classed as NaN by the model. So the model redirects `?page=1e3` or `?tags[]=0x10`, which the page itself loads.
- `SearchParams.Serialize` joins `name=value` with `&` and does not percent-encode (WHATWG URL Standard, section 5.2).
- Dates: `new Date(...)` and `format.asString('yyyy-MM-dd', ...)` come from the host and a library. They are the function parameters `parse` and `format`. A Date is its time value.
- `CardsList.CardsPage.OnChangePage` takes an integer page. The Pagination row only ever passes integers, so NaN input is not modelled.
- `NewCard.NewCardPage.Submit` requires the form to be idle. The page disables the submit button and both file inputs while analyzing (`app/cards/new/page.tsx:142,164,182`).
- Markup beyond the button tables and the Pagination row is not modelled: card rows, skeletons, the empty-list message, and showing Pagination only for a non-empty list.
- CSV export, the Stripe checkout form, the tags page, sign-in and sign-out, and the layout-only pages are not part of this model.
- `BusinessCard` timestamps are strings, not Dates.

## Findings

| source | as written | input that shows it | evidently intended | confidence | as-written member | corrected member |
|---|---|---|---|---|---|---|
| components/pagination.tsx:23 | the next-page button needs `currentPage < totalPages - 1`, and the last-page button (line 25) needs the same | `{currentPage: 9, totalPages: 10, isLastPage: false}` renders 1, ..., 8, 9, so page 10 cannot be reached | the next-page button shows whenever a next page exists (`currentPage < totalPages`) | not executed | Pagination.PenultimateHidesLast | Pagination.IntendedReachable |
