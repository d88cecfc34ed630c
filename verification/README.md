# BookBrainz entity editor: the Publication wizard and the Series section

This project models, in Dafny, two pieces of client-side logic of the
BookBrainz site, the collaborative editor for a bibliographic database:

- **The legacy Publication creation wizard** (`publication.jsx`). It is a
  three-tab form: Aliases, then Data, then Revision Note. Its component state
  is `tab`, `aliasesValid`, `dataValid`, `waiting` and `error`. Changing tab
  re-reads the validity of the Aliases and Data steps. Submitting builds a
  payload from the three steps, shows a spinner and posts the payload. The
  answer either sends the browser to the login page or to the new
  publication, or it is stored as the error.
- **The Series section** of the entity editor (`series-section.tsx`). Before
  rendering it does the following:
  - it builds a stub of the entity being edited;
  - on a copy of the store's series items, it renames the entity in creation
    to its current draft name;
  - it sorts the items by `position` (ordering type 2) or by `number`;
  - it builds the options of the Ordering Type and Series Type selectors;
  - it disables the Series Type selector while there are items.
  Its handlers dispatch store actions. Choosing ordering type 1 (Automatic)
  also dispatches a re-sort.

Files:

- `options.dfy`: the `Option` datatype.
- `publication_payload.dfy` (module `PublicationPayload`): the posted payload
  and the redirect chosen from the response. These are pure functions with
  lemmas.
- `publication_wizard.dfy` (module `PublicationWizard`):
  - the class `Wizard`, whose methods are the component's handlers;
  - the view that render derives from the state;
  - which navigation controls render puts on which tab, with the proof that
    these controls keep the wizard on tabs 1 to 3.
- `series_sort.dfy` (module `SeriesSort`): the in-place sort of the displayed
  items by a comparator.
- `series_section.dfy` (module `SeriesSection`): entities, relationships, the
  rename step (a loop over an array copy), the derivation of the displayed
  list, the option lists and the dispatched actions.

Collaborators become parameters:

- The steps' `valid()` and `getValue()` become method arguments.
- JavaScript `parseInt` is a function `string -> Option<int>`, where `None`
  stands for `NaN`.
- The comparator built by `sortRelationshipOrdinal` is a parameter that is
  assumed to be a total preorder.
- `attachAttribToRelForDisplay` is a function applied to each item.

The effects on the world become data:

- the POST is appended to the wizard's `requests` log, and its outcome is an
  `Outcome` value passed to `Wizard.Resolve`;
- the browser redirect is a `Navigation` value stored in `location`.

The model follows the code as written, including these behaviours:

- Every posted alias has `primary = true`; primary is not a per-alias choice.
- `handleSubmit` checks neither validity nor `waiting`. The only guard is the
  disabled submit button of the Revision Note step. A second call posts a
  second request.
- A failed request leaves `waiting` true.
- Ordering type 2 sorts by `position`. Every other value, not only 1, sorts by
  `number`.

## Model

| member | source | states |
|---|---|---|
| `PublicationPayload.MapAliases` | src/client/components/forms/publication.jsx:46-54 | the mapped list has the rows' length, and entry i is row i mapped: its name, its sort name, its parsed language, not default, primary |
| `PublicationPayload.AliasPayloads` | src/client/components/forms/publication.jsx:46-63 | the posted aliases keep the rows' length and order; each keeps `name`, `sortName` and the parsed language; every alias has `primary = true`; `dflt` is true exactly at index 0 |
| `PublicationPayload.MappedAliasesHaveNoDefault` | src/client/components/forms/publication.jsx:46-54 | before the index-0 update, no mapped alias is default |
| `PublicationPayload.ExactlyOneDefault` | src/client/components/forms/publication.jsx:61-63 | a non-empty alias list has exactly one default alias; an empty one has none |
| `PublicationPayload.BuildPayload` | src/client/components/forms/publication.jsx:42-59 | the request body: the alias list above, the parsed publication type, the disambiguation and annotation from the Data step, and the revision note |
| `PublicationPayload.InitialAliases` | src/client/components/forms/publication.jsx:82-91 | without a publication there are no rows (`null`); with one, the rows are the `creator` prop's aliases in order, with `sort_name` as `sortName` and no language; with a publication and no creator, render throws (`CreatorMissing`) |
| `PublicationPayload.PrefilledAliasesPosted` | src/client/components/forms/publication.jsx:84-90 | submitting the prefilled rows unchanged posts the creator's names and sort names in order, with no language, all primary, and only the first default |
| `PublicationPayload.RedirectFor` | src/client/components/forms/publication.jsx:70-76 | a response without a body or without an entity replaces the location with `/login`; any other response sets `href` to a publication page |
| `PublicationPayload.RedirectNamesCreatedEntity` | src/client/components/forms/publication.jsx:71-75 | the page reached is `/publication/` plus exactly the returned `entity_gid`; a login redirect never reads as an entity page |
| `PublicationWizard.TabAfter` | src/client/components/forms/publication.jsx:30-38 | `nextClick` moves to tab + 1, `backClick` to tab - 1, and `handleTab` to the given key |
| `PublicationWizard.WiredEventStaysInRange` | src/client/components/forms/publication.jsx:104-119 | from tabs 1 to 3, a control that render shows on the current tab leads to a tab in 1 to 3 |
| `PublicationWizard.WiredEventsStayInRange` | src/client/components/forms/publication.jsx:104-119 | any sequence of controls, each shown when used, keeps the wizard on tabs 1 to 3 |
| `PublicationWizard.EndTabsLackOutwardControl` | src/client/components/forms/publication.jsx:117-119 | Revision Note has no "next" and Aliases has no "back"; were they wired, the tab would leave 1 to 3 (4 and 0) |
| `PublicationWizard.ViewOf` | src/client/components/forms/publication.jsx:93-119 | the spinner shows iff `waiting`; the active key is `tab`; a tab's warning shows iff its flag is false; submit is enabled iff both flags are true |
| `PublicationWizard.SubmitEnabledIffNoWarning` | src/client/components/forms/publication.jsx:93-108 | submit is enabled exactly when neither tab shows its warning icon |
| `PublicationWizard.ExactlyOneStepVisible` | src/client/components/forms/publication.jsx:117-119 | step k is visible iff `tab` is k; exactly one step is visible iff `tab` is in 1 to 3 |
| `PublicationWizard.Wizard.constructor` | src/client/components/forms/publication.jsx:15-22 | the initial state: tab 1, both flags true, not waiting, no error, nothing posted, no redirect |
| `PublicationWizard.Wizard.View` | src/client/components/forms/publication.jsx:93-119 | over the component's fields: the spinner shows iff `waiting`; the active key is `tab`; each warning shows iff its flag is false; submit is enabled iff no warning shows; the Revision Note step offers an enabled submit iff `tab` is 3 and both flags are true; exactly one step is visible iff `tab` is in 1 to 3 |
| `PublicationWizard.Wizard.SetTab` | src/client/components/forms/publication.jsx:23-29 | `tab` becomes t; both flags are overwritten with the steps' current `valid()`; `waiting`, `error`, requests and location are unchanged |
| `PublicationWizard.Wizard.BackClick` | src/client/components/forms/publication.jsx:30-32 | `tab` becomes the old tab - 1, both flags are re-read from the steps, and nothing else changes |
| `PublicationWizard.Wizard.NextClick` | src/client/components/forms/publication.jsx:33-35 | `tab` becomes the old tab + 1, both flags are re-read from the steps, and nothing else changes |
| `PublicationWizard.Wizard.HandleTab` | src/client/components/forms/publication.jsx:36-38 | `tab` becomes the selected nav key, both flags are re-read from the steps, and nothing else changes |
| `PublicationWizard.Wizard.Navigate` | src/client/components/forms/publication.jsx:103-119 | a control runs the handler render wired to it; a control shown on the current tab keeps the wizard on tabs 1 to 3 |
| `PublicationWizard.Wizard.HandleSubmit` | src/client/components/forms/publication.jsx:39-69 | `waiting` becomes true and exactly one request with the built payload is appended, without checking the flags or `waiting`; nothing else changes |
| `PublicationWizard.Wizard.Resolve` | src/client/components/forms/publication.jsx:70-79 | success sets the redirect chosen by the response; failure sets only `error`; `waiting` stays as it was in both cases |
| `PublicationWizard.FailedSubmissionLeavesSpinner` | src/client/components/forms/publication.jsx:65-79 | after a submission fails, the spinner is still shown, and exactly one request was posted |
| `SeriesSection.UpperFirst` | src/client/entity-editor/series-section/series-section.tsx:119 | the length is kept, the first character is upper-cased, and the rest is unchanged |
| `SeriesSection.UpperFirstIdempotent` | src/client/entity-editor/series-section/series-section.tsx:119 | upper-casing the first letter twice equals doing it once |
| `SeriesSection.BaseEntity` | src/client/entity-editor/series-section/series-section.tsx:113-120 | the stub has the entity's `bbid`, the draft name as `defaultAlias.name`, the disambiguation comment, and the entity type with its first letter upper-cased |
| `SeriesSection.NewEndpoint` | src/client/entity-editor/series-section/series-section.tsx:129 | an item has an endpoint in creation iff its source or target lacks a `bbid`; it is the source when the source lacks one, and otherwise the target when the target lacks one |
| `SeriesSection.RenameNewEndpoint` | src/client/entity-editor/series-section/series-section.tsx:126-135 | only the first endpoint without a `bbid` changes, and its alias name becomes the draft name; an item with no such endpoint is unchanged; the row, type and attributes are kept |
| `SeriesSection.RenameItems` | src/client/entity-editor/series-section/series-section.tsx:125-136 | the length is kept; all items pass through unchanged when the entity has a `bbid`; items with no endpoint in creation always pass through unchanged |
| `SeriesSection.RenameNewEndpointIdempotent` | src/client/entity-editor/series-section/series-section.tsx:126-135 | renaming an item twice equals renaming it once |
| `SeriesSection.RenameItemsIdempotent` | src/client/entity-editor/series-section/series-section.tsx:125-136 | the rename step is idempotent |
| `SeriesSection.RenameInPlace` | src/client/entity-editor/series-section/series-section.tsx:126-135 | the loop leaves every array cell renamed as `RenameNewEndpoint` says |
| `SeriesSection.SortKeyFor` | src/client/entity-editor/series-section/series-section.tsx:140-145 | items are sorted by position iff the ordering type is 2, and by number for every other value |
| `SeriesSection.Attached` | src/client/entity-editor/series-section/series-section.tsx:138 | the display attributes are attached to each item, keeping length and order |
| `SeriesSort.SortInPlace` | src/client/entity-editor/series-section/series-section.tsx:140-145 | after the in-place sort the array is sorted by the comparator and is a permutation of what it held |
| `SeriesSection.DisplayedItems` | src/client/entity-editor/series-section/series-section.tsx:121-145 | the displayed list is a permutation of the store's items, renamed and with attributes attached; it is sorted by the comparator the ordering type selects; the store's list is a value and is not changed |
| `SeriesSection.OrderingTypeOptions` | src/client/entity-editor/series-section/series-section.tsx:146-149 | one option per ordering type, in order, with `label` as the label and `id` as the value |
| `SeriesSection.OrderingTypeOptionsRoundTrip` | src/client/entity-editor/series-section/series-section.tsx:146-149 | the ordering types can be read back from their options, so the mapping loses nothing |
| `SeriesSection.SeriesTypeOptions` | src/client/entity-editor/series-section/series-section.tsx:150-153 | exactly Author, Work, Edition, EditionGroup and Publisher, in that order, each labelled by itself |
| `SeriesSection.SeriesTypeOptionsDistinct` | src/client/entity-editor/series-section/series-section.tsx:150-153 | no series type is offered twice |
| `SeriesSection.SeriesTypeDisabled` | src/client/entity-editor/series-section/series-section.tsx:183 | the Series Type selector is disabled iff the displayed list is non-empty |
| `SeriesSection.RenderSection` | src/client/entity-editor/series-section/series-section.tsx:113-202 | the values handed to the children: the base entity, the sorted displayed items, the two option lists, and the selector disabled exactly when the store holds any item |
| `SeriesSection.OnOrderTypeChange` | src/client/entity-editor/series-section/series-section.tsx:222-227 | `updateOrderType(value)` is always dispatched first; a re-sort is dispatched iff the chosen value is 1, and then it is `sortSeriesItems(null, null)` |
| `SeriesSection.Dispatch` | src/client/entity-editor/series-section/series-section.tsx:219-233 | each handler's action sequence: `onOrderTypeChange` as above; `onSortSeriesItems` dispatches `sortSeriesItems(oldIndex, newIndex)`; `onSeriesTypeChange` dispatches `updateSeriesType` of the chosen value; `onEdit`, `onRemove` and `onSeriesItemAdd` dispatch `editSeriesItem(data, rowID)`, `removeSeriesItem(rowID)` and `addSeriesItem(data)` |
| `SeriesSection.OneActionPerEventExceptAutomatic` | src/client/entity-editor/series-section/series-section.tsx:219-233 | every handler dispatches one action, except choosing ordering type 1, which dispatches two with the re-sort last |

## Left out

- Rendering is not modelled: React, react-bootstrap `Nav`, react-select,
  the loading spinner element and the `SeriesEditor` child are left out.
  Only the values render computes and passes on are modelled.
- The superagent POST, its promise and `window.location` are not modelled as
  I/O. A request is an entry in `Wizard.requests`. Its settlement is an
  `Outcome` given to `Wizard.Resolve`. A redirect is a `Navigation` value.
- `e.preventDefault()` in `handleSubmit` is a browser event call and is left
  out.
- The validity rules and values of the Aliases, PublicationData and
  RevisionNote steps are not part of this model. Their `valid()` and
  `getValue()` results are arguments.
- `handleSubmit` calls the Aliases step's `getValue()` twice. The model
  assumes both calls return the same rows and reads them once.
- `handleChange` is not defined by the component, so the form's change
  handler is unset. There is nothing to model.
- JavaScript `parseInt` is a parameter, not a reimplementation. A `null`
  language gives `None`, standing for `NaN`.
- JavaScript truthiness is reduced to `Option`. A missing, `null` or falsy
  `body`/`entity` is `None`, `props.publication` is a boolean, and an
  absent `props.creator` is `None`.
- In the rename step an absent `bbid` is `None`. A `null` bbid (as opposed to
  `undefined`) is not distinguished, although `===` would not match it.
- SeriesSection.UpperFirst: upper-cases ASCII `a`-`z` only. It does not
  model the full Unicode `toUpperCase` used by lodash's `upperFirst`, which
  can also change a string's length.
- `attachAttribToRelForDisplay` is not part of this model. It is a
  per-item function parameter. The model assumes it neither reorders nor
  drops items.
- `sortRelationshipOrdinal` is not part of this model. Its comparator is a
  parameter, assumed to be a total preorder.
- SeriesSort.SortInPlace: states that the result is sorted and a permutation,
  but not that the sort is stable, which `Array.prototype.sort` also
  guarantees.
- The Redux store, its reducers and `mapStateToProps` are not modelled.
  The state values are parameters, and only the dispatched action sequence
  is modelled.
- PublicationWizard.Wired: assumes that a step hidden by its `visible`
  prop shows no clickable "next" or "back" button. The step components
  are not part of this model, and the proof that the wizard stays on tabs
  1 to 3 depends on this.
- The other handlers of the Series section (`onEdit`, `onRemove`,
  `onSeriesItemAdd`, `onSeriesTypeChange`) are modelled only by the single
  action each one dispatches.
- The server's achievement routes, the alias row component and the Series
  API tests are not part of this model. They are HTTP, database and
  presentation code around helpers that are not shown.
