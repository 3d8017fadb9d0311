# Dashboard chatbot: dialog flow and Power BI link builder

This project models the logic of the dashboard chatbot in
`chatbot-master/code/src/App.tsx`. The chatbot asks the user to pick a
dashboard. It normalises that choice into a dashboard key (lower case, each
whitespace run turned into `_`, the first `.` removed) and asks for a filter.
It then reads a free-text request and opens the dashboard's Power BI report
with an OData-style `&filter=` clause. The clause is built from the first
catalog dimension the request mentions and from that dimension's values that
the request mentions.

The modules follow the pieces of the file:

- `Catalog` holds the three constant tables `powerBILinks`, `filterKeywords` and `filterValues`.
- `Links` models `getPowerBILink`.
- `Matcher` models `getFilters` and `getFilterValues`. Their index loops are methods, proved against the specification function `Matching`.
- `FilterClause` models `addFilters`, together with a decoder for the clause it writes.
- `Naming` models the two normalisation expressions used by `start` and by the dashboard states.
- `Flow` models the named states as a datatype, one step as the function `Transition`, and a whole conversation as `Run`.
- `Dialog.Conversation` is the conversation record `{name, type}` as a class. Each `path` handler is a method that updates the class's fields in place.
- `Strings` and `Wrappers` hold the helpers: ASCII lower-casing, substring search, `Option` and `Outcome`.

Calls that throw a `TypeError` in the source are not turned into
preconditions. They are modelled as error outcomes: `Outcome.TypeError` for
the lookups and `Step.Fault` for a transition that throws.

Three consequences of the code are worth stating, because a reader might
expect otherwise:

- **No dimension mentioned.** When the request mentions no dimension, `getFilters(...)[0]` is `undefined` (App.tsx:179), and `filterValues[name][undefined].map` throws (App.tsx:74). So `please_wait_*` throws instead of opening the bare link (`Flow.PleaseWaitOutcome`).
- **Dashboards without a dimension catalog.** `cost_analysis` and `production` have links (App.tsx:7-16) but no entry in `filterKeywords` (App.tsx:18-21), so `filterKeywords[name].map` throws (App.tsx:61). Their `please_wait_*` states therefore always throw.
- **Reaching `unknown_dashboard`.** `start` returns the normalised input as the next state's name (App.tsx:118-121). A name that is not a state is handed to the chat library and never reaches a `please_wait_*` state. There are two ways in. An input that normalises to `unknown_dashboard`, such as "Unknown Dashboard", goes straight there, because `unknown_dashboard` is a key of the flow (App.tsx:286; `Flow.TypedUnknownDashboard`). An input that normalises to the name of a `please_wait_*` state skips the dashboard state; that state finds no link for the stored name and moves to `unknown_dashboard` (App.tsx:196-198; `Flow.TypedStateName`).

The worked example for value matching uses the request "show DEW and PRIL".

## Model

| member | source | states |
|---|---|---|
| Catalog.KeywordsHaveValues | chatbot-master/code/src/App.tsx:18-53 | every dashboard in `filterKeywords` has a `filterValues` entry, every dimension it lists has a value list, and no dimension list repeats an entry |
| Catalog.ValuesWellFormed | chatbot-master/code/src/App.tsx:23-53 | no value list in `filterValues` repeats an entry or contains a single quote |
| Links.GetPowerBILink | chatbot-master/code/src/App.tsx:7-57 | a link is returned exactly for `sales_revenue`, `production`, `cost_analysis` and `raw_material`, and it is the configured, non-empty URL; every other name gives null and nothing throws |
| Matcher.MatchingMembers | chatbot-master/code/src/App.tsx:59-83 | an entry is selected exactly when it is in the catalog list and its lower-cased text occurs in the lower-cased input |
| Matcher.MatchingInCatalogOrder | chatbot-master/code/src/App.tsx:64-68 | the selection is a subsequence of the catalog list, so it keeps catalog order rather than input order |
| Matcher.MatchingNoDuplicates | chatbot-master/code/src/App.tsx:64-68 | a duplicate-free catalog list gives a duplicate-free selection |
| Matcher.MatchingIgnoresCase | chatbot-master/code/src/App.tsx:59-83 | inputs with the same lower-cased form select the same entries |
| Matcher.MatchingSnoc | chatbot-master/code/src/App.tsx:64-68 | one more loop iteration appends the next catalog entry exactly when the input mentions it |
| Matcher.CollectMatches | chatbot-master/code/src/App.tsx:60-69 | the push loop over the lower-cased catalog returns exactly the selection `Matching` |
| Matcher.GetFilters | chatbot-master/code/src/App.tsx:59-70 | throws exactly when the name has no `filterKeywords` entry, and otherwise returns the mentioned dimensions in catalog order |
| Matcher.GetFilterValues | chatbot-master/code/src/App.tsx:72-83 | throws exactly when the name or the dimension (absent or unknown) has no `filterValues` list, and otherwise returns the mentioned values in catalog order |
| MatcherExamples.SalesDimensionsExample | chatbot-master/code/src/App.tsx:18-70 | "show me segment and company data" selects `["Company", "Segment"]`, in catalog order |
| MatcherExamples.CompaniesExample | chatbot-master/code/src/App.tsx:72-83 | "show DEW and PRIL" selects `["DEW", "PRIL"]` among the companies |
| FilterClause.AddFilters | chatbot-master/code/src/App.tsx:85-93 | the link is always a prefix of the result, and the result equals the link exactly when there are no values |
| FilterClause.ParseJoined | chatbot-master/code/src/App.tsx:89 | the comma-joined list of quoted values reads back as the same values, in order |
| FilterClause.AddFiltersRoundTrip | chatbot-master/code/src/App.tsx:85-93 | for one value (`eq`) or several (`in (...)`), the clause after `&filter=<table>/<dimension>` decodes to exactly the given quote-free values |
| FilterClause.CatalogFiltersRoundTrip | chatbot-master/code/src/App.tsx:23-93 | any non-empty selection of one dimension's catalog values round-trips through the clause |
| FilterClause.OneValueExample | chatbot-master/code/src/App.tsx:86-87 | one company gives `&filter=PRILFY2023/Company eq 'DEW'` |
| FilterClause.TwoValuesExample | chatbot-master/code/src/App.tsx:88-90 | two companies give `&filter=PRILFY2023/Company in ('DEW','PRIL')` |
| Naming.TrimLeadingSpace | chatbot-master/code/src/App.tsx:115 | the rest of a whitespace run is a suffix that starts with a non-space, and everything dropped was whitespace |
| Naming.CollapseSpace | chatbot-master/code/src/App.tsx:113-131 | the result has no whitespace |
| Naming.CollapseKeepsLower | chatbot-master/code/src/App.tsx:113-131 | collapsing whitespace in lower-case text leaves it lower case |
| Naming.CollapseNoSpace | chatbot-master/code/src/App.tsx:115 | text without whitespace is left unchanged |
| Naming.CollapseRun | chatbot-master/code/src/App.tsx:115 | a maximal whitespace run between a word and the rest becomes exactly one `_` |
| Naming.RemoveFirst | chatbot-master/code/src/App.tsx:116 | without the character the text is unchanged; otherwise exactly the first occurrence is removed: the text before it is kept and the text after it follows directly |
| Naming.DashboardName | chatbot-master/code/src/App.tsx:113-116 | the normalised choice has no whitespace and no upper-case letter |
| Naming.FilterType | chatbot-master/code/src/App.tsx:131 | the normalised filter choice has no whitespace and no upper-case letter |
| Naming.DashboardNameFixedPoint | chatbot-master/code/src/App.tsx:113-116 | a string is left unchanged by normalisation exactly when it is lower case with no whitespace and no `.` |
| Naming.DashboardNameIdempotent | chatbot-master/code/src/App.tsx:113-116 | normalising twice gives the same as normalising once when the result has no `.` |
| Naming.SalesRevenueExamples | chatbot-master/code/src/App.tsx:113-116 | "Sales Revenue" and "Sales Revenue." both become `sales_revenue` |
| Flow.StateNamed | chatbot-master/code/src/App.tsx:106-299 | a name resolves to the flow state registered under it |
| Flow.StateNamedName | chatbot-master/code/src/App.tsx:106-299 | every flow state is found again under its own name |
| Flow.FetchAndOpen | chatbot-master/code/src/App.tsx:176-199 | `unknown_dashboard` exactly when there is no link; a throw exactly when there is a link but no dimension catalog or no dimension mentioned; otherwise `end`, opening a URL that starts with the link |
| Flow.OpenedLinkCarriesFilter | chatbot-master/code/src/App.tsx:176-283 | when `please_wait_*` reaches `end`, the opened URL is the link when no value was mentioned, and otherwise the link with a clause on the dashboard's table and the first mentioned dimension that decodes to the mentioned values |
| Flow.FilteredUrl | chatbot-master/code/src/App.tsx:184-190 | the URL built from a dimension's mentioned catalog values is the bare link or a clause that decodes to those values |
| Flow.Transition | chatbot-master/code/src/App.tsx:106-299 | only `please_wait_*` throws or opens a URL; only `start` changes the name, to the normalised choice it also returns; only the dashboard states change the type, to the normalised filter choice, and they go to their `please_wait_*` state; `please_wait_*` keeps the record and answers with `FetchAndOpen` on the stored name; `unknown_dashboard` goes to `end`; `end` and `loop` go to `loop` |
| Flow.LoopForever | chatbot-master/code/src/App.tsx:296-299 | `loop` is a sink that keeps the record |
| Flow.EndLeadsToLoop | chatbot-master/code/src/App.tsx:291-299 | after `end` the conversation stays in `loop` |
| Flow.UnknownDashboardLeadsToEnd | chatbot-master/code/src/App.tsx:286-299 | `unknown_dashboard` leads to `end` and then to `loop` |
| Flow.StartOptionNames | chatbot-master/code/src/App.tsx:106-122 | each of the four offered options normalises to its dashboard's key and names that dashboard's state |
| Flow.PleaseWaitOutcome | chatbot-master/code/src/App.tsx:176-283 | for each dashboard, `please_wait_*` reaches `end` exactly when the dashboard has a dimension catalog and a dimension is mentioned, and throws otherwise |
| Flow.PleaseWaitRun | chatbot-master/code/src/App.tsx:176-199 | the last step of a dialog ends at `end` with the record kept, or crashes |
| Flow.ChooseFilterRun | chatbot-master/code/src/App.tsx:128-134 | a dashboard state stores the normalised filter choice and continues at its `please_wait_*` state |
| Flow.DialogFromName | chatbot-master/code/src/App.tsx:106-199 | a three-input dialog whose first input names a dashboard ends at `end` with record `{dashboard key, normalised filter choice}` exactly when that dashboard completes, and crashes otherwise |
| Flow.DialogFromOption | chatbot-master/code/src/App.tsx:109-283 | the same dialog started with any of the four offered options; `cost_analysis` and `production` always crash |
| Flow.StateNameUnlinked | chatbot-master/code/src/App.tsx:176-199 | no `please_wait_*` state name has a link |
| Flow.UnlinkedRun | chatbot-master/code/src/App.tsx:196-198 | with a stored name that has no link, `please_wait_*` moves to `unknown_dashboard` |
| Flow.TypedStateName | chatbot-master/code/src/App.tsx:106-199 | typing a `please_wait_*` state name at `start` lands in `unknown_dashboard` on the next input |
| Flow.TypedUnknownDashboard | chatbot-master/code/src/App.tsx:106-289 | an input that normalises to `unknown_dashboard` at `start` goes straight to that state, with that string stored as the name |
| Flow.UnknownDashboardTyped | chatbot-master/code/src/App.tsx:113-116 | "Unknown Dashboard" normalises to `unknown_dashboard` |
| Dialog.Conversation.constructor | chatbot-master/code/src/App.tsx:97-100 | the record starts with an empty name and type |
| Dialog.Conversation.Start | chatbot-master/code/src/App.tsx:110-122 | stores the normalised choice as the name, keeps the type, and returns the same string |
| Dialog.Conversation.ChooseFilter | chatbot-master/code/src/App.tsx:128-170 | stores the normalised filter choice as the type, keeps the name, and returns the dashboard's `please_wait_*` name |
| Dialog.Conversation.PleaseWait | chatbot-master/code/src/App.tsx:176-283 | the lookup, matching and clause-building calls give exactly the step `FetchAndOpen` describes, including the throws |
| Dialog.Conversation.Path | chatbot-master/code/src/App.tsx:106-299 | each handler's new record and returned step are exactly those of `Transition` |

## Left out

- The JSX and the `ChatBot` component (lines 302-326): presentation, and the component's source is not part of this model.
- `window.open` and `newWindow.location.href`: browser side effects. The URL that would be opened is returned as `Step.openUrl` instead. A blocked pop-up makes `window.open` return null, and then `newWindow.location.href` throws (App.tsx:194). The model does not capture this: `Flow.FetchAndOpen` returns `end` in that case too.
- `console.log`, the two-second `transition` delays, and the prompt `message`/`options` texts: cosmetic or static. The options of `start` appear only as `Flow.StartOptions`.
- React `useState` re-render and closure semantics: the record is one object updated in sequence.
- What the chat library does when `start` returns a name that is not a flow state: that is library behaviour, so `Flow.Run` stops with `Unrouted(name)`.
- The URL strings are kept verbatim but treated as opaque.
- Naming.DashboardName: JavaScript's `\s` and `toLowerCase` cover all of Unicode. The model treats as whitespace only the space and the characters tab through carriage return, and lower-cases only ASCII letters.
- Naming.FilterType: the same ASCII restriction applies.
- Matcher.Mentions: the same ASCII restriction applies.
- Lookups of inherited JavaScript object properties such as `constructor` as dashboard or dimension names: each catalog is modelled as a plain map with only its own keys.
