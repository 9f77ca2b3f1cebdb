# University placement dashboard: companies list and sidebar

A Dafny model of the logic of a placement-management admin dashboard. The
dashboard keeps its company records in the companies page's local state.
It narrows them by a free-text search and by filter selects. It replaces the
whole list when a company is added or edited. The model covers:

- the company filter engine (`applyFilters`). It is a stable, conjunctive filter:
  - a case-insensitive substring search over name or industry, applied only to a non-empty term;
  - exact-match filters on type, tier and industry, applied only to a truthy value;
  - an exact filter on `isActive`, applied whenever the key is present.
- the page state as a class. `companies`, `filteredCompanies`, `searchTerm`,
  `filters`, `selectedCompany` and `showCompanyForm` are its fields. Its
  methods are the search and select handlers, "Clear Filters", the add and
  edit handlers and the form open/close actions, including the empty-state card's own "Add Company" button.
- the empty-state message shown when nothing is listed;
- the sidebar's role filter over the menu and its active-link test.

Files:

- `wrappers.dfy`: `Option`, which stands for a present or absent JavaScript property.
- `seqs.dfy`: `Filter`, the behaviour of `Array.prototype.filter`, with its laws.
- `strings.dfy`: ASCII `Lower`, `StartsWith`, `Includes`.
- `companies.dfy`: the companies page.
- `scenarios.dfy`: the filter applied to the page's own sample companies.
- `sidebar.dfy`: the sidebar.

The staged pipeline exists twice on purpose. `FilterCompanies` is a pure
function that runs the stages exactly as the page does.
`CompaniesPage.ApplyFilters` is the method that reassigns a local variable
stage by stage. `FilterCompaniesIsConjunction` proves that the stages amount
to one filter by the conjunction `Retained`. Most properties of the filter
engine are derived from that lemma.

The React effect that re-runs `applyFilters` after each change of
`companies`, `searchTerm` or `filters` is modelled by its outcome. Every
method that changes `companies`, `searchTerm` or `filters` ends by calling
`ApplyFilters`. The form actions change none of these, so `Valid()` still
holds after them. The class invariant
`Valid()` says that `filteredCompanies` is the filter of the current state.

Three behaviours of the code are easy to miss:

- The `type`, `tier` and `industry` stages test truthiness, so a key set to
  `''` imposes no constraint. Only `isActive` is tested against `undefined`.
- The empty-state test counts keys, so a key whose value is `''` still
  selects "Try adjusting your search or filters".
- The Status select sets `isActive` to `value == 'true'`. Choosing its empty
  option therefore keeps only inactive companies rather than removing the
  filter. `CompaniesPage.SetStatusFilter` states this.

The clock is a parameter: `Date.now()` gives the new id and `new Date()`
gives the creation date.

## Model

| member | source | states |
|---|---|---|
| Seqs.Filter | app/companies/page.tsx:100-120 | a stage's result holds exactly the elements of its input that satisfy the stage's predicate, and is no longer than the input |
| Seqs.FilterIsSubsequence | app/companies/page.tsx:97-120 | a filter result is a subsequence of its input: nothing invented, nothing reordered |
| Seqs.FilterCounts | app/companies/page.tsx:97-120 | a filter keeps each satisfying element exactly as often as it occurs, and no other element |
| Seqs.FilterKeepsAll | app/companies/page.tsx:97-120 | a predicate true of every element keeps the input unchanged |
| Seqs.FilterKeepsNone | app/companies/page.tsx:97-120 | a predicate true of no element leaves the empty list |
| Seqs.FilterCongruent | app/companies/page.tsx:97-120 | predicates that agree on the input give the same result |
| Seqs.FilterFuse | app/companies/page.tsx:106-120 | two filters in a row are one filter by their conjunction |
| Seqs.FilterStage | app/companies/page.tsx:106-120 | a guarded stage (skipped when its guard is false) extends the running conjunction by its predicate, or by nothing |
| Seqs.FilterConcat | app/companies/page.tsx:134 | filtering a concatenation is concatenating the filtered parts |
| Seqs.FilterIdempotent | components/layout/Sidebar.tsx:22-24 | filtering twice by the same predicate equals filtering once |
| Strings.Lower | app/companies/page.tsx:101-102 | lower-casing keeps the length and lowers each character (ASCII letters only) |
| Strings.LowerIdempotent | app/companies/page.tsx:101-102 | lower-casing a lower-cased string changes nothing |
| Strings.StartsWith | components/layout/Sidebar.tsx:57 | `startsWith`; no ensures of its own; see Sidebar.IsActiveLinkIff, Sidebar.ActiveOnSelfAndBelow and Sidebar.SiblingNotActive |
| Strings.Includes | app/companies/page.tsx:101-102 | `includes`, as a left-to-right scan; no ensures of its own; see Strings.IncludesIffOccurs and Strings.IncludesNeedsFirstChar |
| Strings.IncludesIffOccurs | app/companies/page.tsx:101-102 | `includes` holds exactly when the needle occurs at some index of the haystack |
| Strings.IncludesNeedsFirstChar | app/companies/page.tsx:101-102 | a non-empty needle whose first character is absent from the haystack is not included |
| Companies.HasAnyKey | app/companies/page.tsx:275 | `Object.keys(filters).length > 0`; no ensures of its own; see Companies.EmptyState and Companies.EmptyStateText |
| Companies.MatchesSearch | app/companies/page.tsx:100-103 | the search stage's test; no ensures of its own; see Companies.MatchesSearchIffHit and Companies.MissingFirstCharMeansNoMatch |
| Companies.FilterCompanies | app/companies/page.tsx:96-123 | `applyFilters`, stage by stage; no ensures of its own; see Companies.FilterCompaniesIsConjunction and Companies.FilterCompaniesMembers |
| Companies.FilterCompaniesIsConjunction | app/companies/page.tsx:96-123 | the five guarded stages equal one stable filter by the conjunction of search, type, tier, industry and status |
| Companies.FilterCompaniesMembers | app/companies/page.tsx:97-120 | a company is in the result exactly when it is in the list and passes every active criterion; the result is an order-preserving subsequence, never longer |
| Companies.FilterCompaniesIdentity | app/companies/page.tsx:96-123 | with an empty term and criteria that impose nothing (including `{}`), the result is the whole list in the same order |
| Companies.MatchesSearchIffHit | app/companies/page.tsx:100-103 | the search test holds exactly when the lower-cased term occurs in the lower-cased name or industry |
| Companies.MissingFirstCharMeansNoMatch | app/companies/page.tsx:100-103 | a company whose lower-cased name and industry lack the term's first character does not match |
| Companies.SearchExact | app/companies/page.tsx:99-104 | any term, the empty one included, keeps exactly those companies, among the ones the criteria keep, whose name or industry contains it, ignoring case |
| Companies.SearchIgnoresCase | app/companies/page.tsx:101-102 | the term and its lower-cased form give the same result |
| Companies.TypeFilterExact | app/companies/page.tsx:106-108 | a non-empty type keeps exactly the companies of that type; `''` imposes nothing |
| Companies.TierFilterExact | app/companies/page.tsx:110-112 | a non-empty tier keeps exactly the companies of that tier; `''` imposes nothing |
| Companies.IndustryFilterExact | app/companies/page.tsx:114-116 | a non-empty industry keeps exactly the companies of that industry; `''` imposes nothing |
| Companies.ActiveFilterExact | app/companies/page.tsx:118-120 | a present status, `false` included, keeps exactly the companies with that status |
| Companies.CriteriaConjunctive | app/companies/page.tsx:106-120 | criteria on disjoint keys combine by intersection: one filter by the union of the criteria equals filtering by one, then by the other |
| Companies.FilterAfterAppend | app/companies/page.tsx:125-134 | appending a company appends it to the filtered list exactly when it passes the filters |
| Companies.EmptyState | app/companies/page.tsx:270-278 | a message appears only for an empty list; "Try adjusting" iff the term is non-empty or some key is present (even `''`), otherwise "Get started" |
| Companies.EmptyStateText | app/companies/page.tsx:270-278 | the card's text is absent iff the list is non-empty; it is "Try adjusting your search or filters" iff the list is empty and the term is non-empty or some key is present, and "Get started by adding your first company" iff the list is empty, the term empty and no key present |
| Companies.GetStartedOnlyWhenNoCompanies | app/companies/page.tsx:270-278 | "Get started" is shown only when there are no companies at all |
| Companies.NoMatchShowsTryAdjusting | app/companies/page.tsx:270-278 | a non-empty term that matches no company leads to "Try adjusting" |
| Companies.MergePatch | app/companies/page.tsx:143 | `{ ...company, ...companyData }`; no ensures of its own; see Companies.MergePatchLaws and Companies.UpdateCompanies |
| Companies.MergePatchLaws | app/companies/page.tsx:141-145 | merging the empty payload is the identity; merging a payload twice equals merging it once |
| Companies.NewCompany | app/companies/page.tsx:125-133 | the new record is active, created now, with no contacts or jobs, whatever the payload says; the clock's id is used unless the payload has an id; every other field, website, logo and last contact date included, comes from the payload |
| Companies.UpdateCompanies | app/companies/page.tsx:141-145 | the edited list has the same length; companies with another id are unchanged and those with the id are merged with the payload |
| Companies.UpdateMissingIdIsIdentity | app/companies/page.tsx:141-145 | editing an id that no company has leaves the list as it was |
| Companies.UpdateIdempotent | app/companies/page.tsx:141-145 | re-submitting the same edit (one that keeps the id) changes nothing more |
| Companies.UpdateKeepsOthers | app/companies/page.tsx:141-145 | the companies with other ids form the same list, in the same order, before and after an edit |
| Companies.CompaniesPage.constructor | app/companies/page.tsx:76-83 | the page starts with the sample companies, all shown, an empty search, `{}` and no selection |
| Companies.CompaniesPage.ApplyFilters | app/companies/page.tsx:96-123 | the stored list is the staged filter of the current list, term and criteria |
| Companies.CompaniesPage.SetSearchTerm | app/companies/page.tsx:183-184 | the term changes, nothing else does, and the list is re-filtered |
| Companies.CompaniesPage.SetTypeFilter | app/companies/page.tsx:212-213 | the type key is set to the chosen value, other keys kept, and the list is re-filtered |
| Companies.CompaniesPage.SetTierFilter | app/companies/page.tsx:223-224 | the tier key is set to the chosen value, other keys kept, and the list is re-filtered |
| Companies.CompaniesPage.SetStatusFilter | app/companies/page.tsx:233-234 | the status key becomes `value == 'true'`, so every listed company then has exactly that status; the empty option keeps only inactive ones |
| Companies.CompaniesPage.ClearFilters | app/companies/page.tsx:238-241 | the criteria become `{}`; with an empty term the whole list is shown again |
| Companies.CompaniesPage.OpenAddForm | app/companies/page.tsx:153-157 | the form opens with no selection |
| Companies.CompaniesPage.SelectForEdit | app/companies/page.tsx:259-262 | the clicked company is selected and the form opens |
| Companies.CompaniesPage.OpenFormFromEmptyState | app/companies/page.tsx:279 | the empty-state "Add Company" button opens the form and leaves the selection as it is |
| Companies.CompaniesPage.CloseForm | app/companies/page.tsx:289-292 | the form closes and the selection clears |
| Companies.CompaniesPage.AddCompany | app/companies/page.tsx:125-136 | the list grows by one record at the end; the old records are an unchanged prefix; the filtered list grows by that record exactly when it passes the filters; the form closes |
| Companies.CompaniesPage.EditCompany | app/companies/page.tsx:138-149 | with no selection nothing changes; otherwise the companies with the selected id are merged with the payload, the length and order are kept, the form closes and the selection clears |
| Companies.CompaniesPage.CurrentEmptyState | app/companies/page.tsx:270-278 | when the page shows "Get started", the company list is empty |
| CompanyScenarios.FilterTwo | app/companies/page.tsx:96-123 | on a two-company list, each company is kept or dropped on its own, in order |
| CompanyScenarios.MicrosoftPassesTecAndDream | app/companies/page.tsx:27-50 | the sample Microsoft record passes search "tec" with type "dream" |
| CompanyScenarios.TecAndDreamKeepsMicrosoft | app/companies/page.tsx:27-73 | on the sample data, search "tec" with type "dream" keeps only Microsoft |
| CompanyScenarios.MicrosoftMatchesMicro | app/companies/page.tsx:27-50 | "MICRO" matches Microsoft's name regardless of case |
| CompanyScenarios.TcsMissesMicro | app/companies/page.tsx:51-72 | "MICRO" matches neither TCS's name nor its industry |
| CompanyScenarios.MicroFindsMicrosoft | app/companies/page.tsx:27-73 | on the sample data, search "MICRO" keeps only Microsoft |
| CompanyScenarios.MicrosoftMissesZzz | app/companies/page.tsx:27-50 | "zzz" matches neither Microsoft's name nor its industry |
| CompanyScenarios.TcsMissesZzz | app/companies/page.tsx:51-72 | "zzz" matches neither TCS's name nor its industry |
| CompanyScenarios.UnknownTermShowsTryAdjusting | app/companies/page.tsx:270-278 | on the sample data, search "zzz" lists nothing and shows "Try adjusting" |
| Sidebar.EffectiveRole | components/layout/Sidebar.tsx:18 | a missing role is `super_admin`; a given role is used as is |
| Sidebar.FilteredMenuItems | components/layout/Sidebar.tsx:22-24 | the role filter over the menu; no ensures of its own; see Sidebar.FilteredMenuItemsExact, Sidebar.FilteredMenuItemsIdempotent and Sidebar.DefaultRoleIsSuperAdmin |
| Sidebar.FilteredMenuItemsExact | components/layout/Sidebar.tsx:22-24 | an item is shown exactly when its roles include the user's role; the shown items keep menu order and are never more than the menu |
| Sidebar.FilteredMenuItemsIdempotent | components/layout/Sidebar.tsx:22-24 | filtering the shown items again by the same role changes nothing |
| Sidebar.DefaultRoleIsSuperAdmin | components/layout/Sidebar.tsx:18-24 | with no role the sidebar shows what `super_admin` sees |
| Sidebar.IsActiveLink | components/layout/Sidebar.tsx:57 | the active-link test; no ensures of its own; see Sidebar.IsActiveLinkIff, Sidebar.ActiveOnSelfAndBelow and Sidebar.SiblingNotActive |
| Sidebar.IsActiveLinkIff | components/layout/Sidebar.tsx:57 | a link is active iff the path equals it, or continues it with '/' right after its last character |
| Sidebar.ActiveOnSelfAndBelow | components/layout/Sidebar.tsx:57 | a link is active on its own path and on every path `href + "/" + rest` |
| Sidebar.SiblingNotActive | components/layout/Sidebar.tsx:57 | a path that continues the link with any character other than '/' is not active |

## Left out

- View markup is left out: JSX, CSS classes, cards, modals, the `Select` and `SearchInput` widgets, and icon lookup by name (components/layout/Sidebar.tsx:56).
- The React scheduler is left out: when `useEffect` runs, and batching of state updates. Each state change is followed by `ApplyFilters` at once.
- `Date.now()` and `new Date()` are parameters of `AddCompany`.
- The "Export" action only writes to the console. The card's "View" action navigates with `window.location`. Both are I/O.
- The header subtitle counts the listed and the active companies (app/companies/page.tsx:176). It is display text.
- The `showFilters`, `viewMode` and `isLoading` state is left out: it only drives rendering.
- Strings.Lower: lowers only the ASCII letters A-Z. Full Unicode `toLowerCase` (other scripts, special casing) is not modelled.
- The `MENU_ITEMS` constant is not part of this model. The menu is a parameter of every sidebar member.
- Companies.NewCompany: requires a payload that supplies name, website, industry, type and tier. A payload without them would build a record with `undefined` fields, which the typed record cannot hold.
- Companies.CompaniesPage.AddCompany: requires a payload that supplies name, website, industry, type and tier, as Companies.NewCompany does. The source accepts any payload and builds a record whose missing fields are `undefined`. If `name` is missing, or `industry` is missing on a company whose name does not match the term, the next search with a non-empty term throws, because `applyFilters` calls `toLowerCase()` on `undefined` (app/companies/page.tsx:101-102). The typed record cannot hold `undefined`, so that failure is not modelled.
- Payload fields that a `Company` does not have are not modelled. Each payload field is present or absent; a present `undefined` is not modelled, except for `logo` and `lastContactDate`, where `Some(None)` is a present `undefined`.
- A job posting is modelled by its id only. The `Job` type is not part of this model.
- The page has no control that sets the industry filter. The industry stage is still modelled, since the state can hold that key.
- components/companies/CompanyProfile.tsx, components/layout/MainLayout.tsx, app/page.tsx and app/students/[id]/page.tsx are not part of this model. They hold mock loading, a layout toggle, a redirect and a separate page.
