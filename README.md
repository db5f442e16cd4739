# Tool-rental storefront: the logic under the pages

This project is a Dafny model of the logic in a React storefront for renting
construction tools. A customer browses a catalog, books a tool for a range of
days and pays a daily rate. Administrators manage tools and orders. The model
covers:

- Booking:
  - expanding a booking's inclusive day range;
  - the days that bookings block in the date pickers and on the availability calendar;
  - the inclusive day count and the price;
  - the rule deciding when a booking may be submitted.
- Catalog:
  - the four-way filter (text, category, price band, availability);
  - the four sort orders;
  - the sidebar filter's state transitions.
- Admin area:
  - the substring searches and status filters of the order and tool tables;
  - the label and colour mappings of order and payment statuses;
  - the line-item total;
  - the availability switch and the delete guard.
- Tool form: the validation rules, the image guards and the upload-once rule.
- Request hooks (`useApi`, `useApiList`): the request-state machine, the
  parameter merge and paging.

Calendar dates are integer day numbers. Prices are integers. `toLowerCase` is
`Text.Lower`. It lowers ASCII and Russian letters, so every search in the
model ignores letter case the way the pages do. `includes` is `Text.Includes`.

Each asynchronous call becomes an input of the operation that awaits it. That
input is a `Completion` (returned or threw), an `Option` (None when it threw),
or a `bool` (whether the server accepted the change).

React component state becomes a class with one field per `useState`. Each
handler is a method that states the whole new state. The pure parts,
filters, mappings and price arithmetic, are functions with lemmas about them.

Module layout:

| module | models |
|---|---|
| `Api` | the `Tool`, `Order` and `Booking` records |
| `Days` | `getDatesBetween` and the unavailable-date builder, which the booking form and the calendar share |
| `BookingForm`, `AvailabilityCalendar` | the booking form and the availability calendar |
| `CatalogFilter`, `Catalog` | the catalog sidebar and the catalog page |
| `OrderLabels` | the identical switches of `RecentOrders.tsx` and `OrdersTable.tsx`, and the badge tables of `OrdersTableWithApi.tsx` |
| `OrdersAdmin`, `OrdersTable` | the two order tables |
| `AdminTools` | the tool search and list changes shared by the three tool tables |
| `ToolsManagement`, `ProductsTableWithApi`, `ProductsTable` | the three tool tables |
| `ToolForm` | the tool form |
| `UseApi` | the two hooks |
| `Text`, `Seqs`, `Optional` | lowercasing and substring search, `filter` with its lemmas, and an option type |

## Model

| member | source | states |
|---|---|---|
| Days.GetDatesBetween | src/components/BookingForm.tsx:183-193 | the loop returns exactly `DaysFrom(start, end)`, the run start, start+1, …, end |
| Days.DaysFromLength | src/components/BookingForm.tsx:187 | the run has end − start + 1 days when start ≤ end, and is empty when start > end |
| Days.DaysFromAt | src/components/ToolAvailabilityCalendar.tsx:55-65 | the k-th day of the run is start + k |
| Days.DaysFromMembers | src/components/ToolAvailabilityCalendar.tsx:55-65 | a day is in the run iff start ≤ day ≤ end |
| Days.DaysFromConsecutive | src/components/BookingForm.tsx:188-191 | consecutive days differ by exactly one, so the run ascends |
| Days.CollectUnavailableDates | src/components/BookingForm.tsx:66-76 | the `forEach` loop returns `UnavailableDates(bookings)`, the concatenation in booking order of the days of every non-cancelled booking |
| Days.UnavailableDatesAppend | src/components/ToolAvailabilityCalendar.tsx:29-39 | the days of two booking lists back to back are their two results back to back |
| Days.UnavailableDatesMembers | src/components/ToolAvailabilityCalendar.tsx:29-39 | a day is unavailable iff some non-cancelled booking's inclusive range holds it |
| Days.CancelledBookingAddsNothing | src/components/ToolAvailabilityCalendar.tsx:31 | inserting a cancelled booking anywhere in the list leaves the unavailable days unchanged |
| Days.ActiveBookingBlocksItsDays | src/components/BookingForm.tsx:69-73 | every day of a non-cancelled booking is unavailable |
| BookingForm.DaysDifference | src/components/BookingForm.tsx:195-198 | the day count is ≥ 1, equals 1 iff the dates are equal, and is the length of the inclusive run between them |
| BookingForm.DaysDifferenceSymmetric | src/components/BookingForm.tsx:195-198 | the day count does not depend on the order of the two dates |
| BookingForm.Recalculate | src/components/BookingForm.tsx:92-110 | with both dates, days = the day count and price = days × pricePerDay when the tool is loaded; the price is kept while the tool is missing; a missing date gives 0 and 0 |
| BookingForm.PriceChargesEachDay | src/components/BookingForm.tsx:99-101 | the price is pricePerDay once for every day of the inclusive range |
| BookingForm.RentalExamples | src/components/BookingForm.tsx:92-101 | one day at 500 costs 500; the 5th to the 8th at 500 is 4 days costing 2000 |
| BookingForm.PickersRefuseBookedDays | src/components/BookingForm.tsx:255-262 | neither date picker offers any day of a non-cancelled booking |
| BookingForm.SubmitRequest | src/components/BookingForm.tsx:145-165 | a request exists iff both dates and the tool are present and availability is true; it is pending, carries the quoted price, both dates, the tool id and the placeholder customer 1 |
| BookingForm.NoBookingWithoutAvailability | src/components/BookingForm.tsx:145-152 | an unknown or negative availability answer always blocks submission |
| BookingForm.BookingFormState.constructor | src/components/BookingForm.tsx:34-45 | the form starts with no tool, no dates, no blocked days, availability unknown and zero totals |
| BookingForm.BookingFormState.LoadToolData | src/components/BookingForm.tsx:55-89 | a loaded tool is stored; the blocked days become `UnavailableDates` of the fetched bookings only when both fetches succeeded; loading ends in every case |
| BookingForm.BookingFormState.SelectStartDate | src/components/BookingForm.tsx:255-262 | the start picker stores only a day that is not blocked and not before today |
| BookingForm.BookingFormState.SelectEndDate | src/components/BookingForm.tsx:289-296 | the end picker stores only a day that is not blocked and not before the start date, or before today when no start date is set |
| BookingForm.BookingFormState.CheckAvailability | src/components/BookingForm.tsx:113-139 | nothing happens without both dates and the tool; otherwise the server's answer is stored, and a failed request stores false |
| BookingForm.BookingFormState.OnSelectionChanged | src/components/BookingForm.tsx:92-110 | the totals become `Recalculate(...)`; a missing date clears availability; otherwise availability is checked, and the checking flag is clear afterwards |
| BookingForm.BookingFormState.HandleSubmit | src/components/BookingForm.tsx:142-180 | the request sent is `SubmitRequest(...)`; only a created booking clears the dates and the customer fields |
| AvailabilityCalendar.CalendarState.constructor | src/components/ToolAvailabilityCalendar.tsx:16-18 | no bookings, no booked days, loading |
| AvailabilityCalendar.CalendarState.FetchBookings | src/components/ToolAvailabilityCalendar.tsx:21-52 | on success the booked days are `UnavailableDates` of the fetched bookings; a failed fetch keeps the previous values; loading is false afterwards |
| AvailabilityCalendar.CalendarState.CalendarStyle | src/components/ToolAvailabilityCalendar.tsx:68-76 | a day gets the red class iff some non-cancelled booking covers it, otherwise no class |
| AvailabilityCalendar.FailedFetchShowsNothing | src/components/ToolAvailabilityCalendar.tsx:40-46 | a calendar whose first fetch failed paints no day as booked |
| CatalogFilter.HandleCategoryChange | src/components/CatalogFilter.tsx:41-53 | checking appends the category; unchecking removes every occurrence and keeps the order and the count of every other category; the checkbox then shows the new value; the other fields are copied |
| CatalogFilter.HandlePriceChange | src/components/CatalogFilter.tsx:55-63 | the price band becomes the slider's first two values; the other fields are copied |
| CatalogFilter.HandleAvailabilityChange | src/components/CatalogFilter.tsx:65-73 | availability becomes the checkbox value; the other fields are copied |
| CatalogFilter.ResetFilters | src/components/CatalogFilter.tsx:75-84 | the reset state has no categories, the band [0, 5000] and no availability filter, which is the initial state |
| CatalogFilter.CheckThenUncheck | src/components/CatalogFilter.tsx:41-53 | checking and then unchecking an unchecked category restores the state |
| CatalogFilter.NoDuplicateCategories | src/components/CatalogFilter.tsx:42-44 | the category list never gets a duplicate, since only unchecked boxes can be checked |
| Catalog.ApplyFiltersIsSubseq | src/pages/Catalog.tsx:114-145 | the filtered list is an order-preserving subsequence of the catalog |
| Catalog.ApplyFiltersMembers | src/pages/Catalog.tsx:121-143 | a tool is kept iff (a) the query is empty or the lowercased name or description contains it, (b) no category is selected or its category is, (c) its price is in the band, and (d) availability is not required or it is available |
| Catalog.OnlyAvailableNarrows | src/pages/Catalog.tsx:139-141 | requiring availability yields a subsequence of the unrestricted result |
| Catalog.HandleSearch | src/pages/Catalog.tsx:158-168 | the search ignores the sidebar: no categories, band [0, 5000], no availability filter; a tool is shown iff it matches the query and is priced in the band, in catalog order |
| Catalog.ClearSearch | src/pages/Catalog.tsx:191-201 | the query becomes "" and the search is rerun with it; with every price in [0, 5000] the whole catalog is shown |
| Catalog.ClearSearchShowsBand | src/pages/Catalog.tsx:191-201 | with the query cleared, a catalog priced inside the band is shown whole and in order |
| Catalog.ResetMatchesSearch | src/pages/Catalog.tsx:147-156 | the sidebar's reset followed by `handleFilterChange` shows exactly what the search shows |
| Catalog.NameLeqTotal | src/pages/Catalog.tsx:182 | the name order relates every pair of names |
| Catalog.NameLeqTransitive | src/pages/Catalog.tsx:182 | the name order is transitive |
| Catalog.PrecedesTotal | src/pages/Catalog.tsx:174-186 | every comparator relates every pair of tools |
| Catalog.PrecedesTransitive | src/pages/Catalog.tsx:174-186 | every comparator is transitive |
| Catalog.AdjacentToSorted | src/pages/Catalog.tsx:174-186 | a list whose neighbours are in order is in order throughout |
| Catalog.SortInPlace | src/pages/Catalog.tsx:173-186 | sorting the copied array in place leaves its neighbours in the chosen order and keeps the same tools |
| Catalog.HandleSort | src/pages/Catalog.tsx:170-189 | the result is a permutation of the shown tools in the chosen order: price ascending, price descending, name, or ascending id for any other option |
| OrderLabels.StatusLabelInjective | src/components/admin/RecentOrders.tsx:97-110 | the four order statuses get four different labels |
| OrderLabels.PaymentStatusLabelInjective | src/components/admin/RecentOrders.tsx:112-123 | the three payment statuses get three different labels |
| OrderLabels.StatusColorInjective | src/components/admin/RecentOrders.tsx:69-82 | each order status has its own colour, none of them the gray fallback |
| OrderLabels.PaletteAgrees | src/components/admin/OrdersTable.tsx:192-218 | an order is green iff completed, like a paid payment, and red iff cancelled, like an unpaid one; no order shares the refunded gray |
| OrderLabels.StatusBadgeColourAgrees | src/components/admin/OrdersTableWithApi.tsx:66-71 | the server-backed page paints status badges exactly as the other order lists do |
| OrderLabels.PaymentBadgeColourAgrees | src/components/admin/OrdersTableWithApi.tsx:73-77 | its payment badges match the other lists except for unpaid, which is yellow there |
| OrderLabels.BadgeLabelsAgreeWithLists | src/components/admin/OrdersTableWithApi.tsx:169-199 | badge texts are distinct per status; they differ from the other lists' labels only for completed and refunded |
| OrdersAdmin.FilteredOrdersMembers | src/components/admin/OrdersTableWithApi.tsx:201-208 | an order is listed iff the status filter is "" or names its status, and the search is "" or the lowercased customer name, email or id contains it |
| OrdersAdmin.FilteredOrdersIsSubseq | src/components/admin/OrdersTableWithApi.tsx:201 | the listed orders are an order-preserving subsequence of the loaded ones |
| OrdersAdmin.NoFilterListsAll | src/components/admin/OrdersTableWithApi.tsx:201-208 | with status filter "" and search "" every order is listed, in order |
| OrdersAdmin.UnknownStatusListsNothing | src/components/admin/OrdersTableWithApi.tsx:203 | a status filter that names no status lists nothing |
| OrdersAdmin.StatusFilterSelectsStatus | src/components/admin/OrdersTableWithApi.tsx:201-208 | filtering by a status's name lists exactly the loaded orders of that status that pass the search |
| OrdersAdmin.SingleUnitLineIsQuote | src/components/admin/OrdersTableWithApi.tsx:469-474 | one unit over the inclusive day count costs what the booking form quotes |
| OrdersAdmin.OrdersPage.constructor | src/components/admin/OrdersTableWithApi.tsx:79-86 | status filter "", search "", no selection, dialogs closed, `pending` and `unpaid` preset |
| OrdersAdmin.OrdersPage.HandleSearch | src/components/admin/OrdersTableWithApi.tsx:119-121 | the list is reloaded with page 1, size 10 and `{search}` on top of the stored parameters; success applies the answer, failure keeps the items |
| OrdersAdmin.OrdersPage.HandleFilterChange | src/components/admin/OrdersTableWithApi.tsx:123-126 | the status filter is stored and the list is reloaded with page 1, size 10 and `{status}`; success applies the answer, failure keeps the items |
| OrdersAdmin.OrdersPage.HandleViewDetails | src/components/admin/OrdersTableWithApi.tsx:128-131 | the order is selected and the details dialog opens |
| OrdersAdmin.OrdersPage.HandleOpenStatusChange | src/components/admin/OrdersTableWithApi.tsx:133-137 | the dialog opens with newStatus preset to the order's status |
| OrdersAdmin.OrdersPage.HandleOpenPaymentStatusChange | src/components/admin/OrdersTableWithApi.tsx:139-143 | the dialog opens with newPaymentStatus preset to the order's payment status |
| OrdersAdmin.OrdersPage.ConfirmStatusChange | src/components/admin/OrdersTableWithApi.tsx:145-155 | nothing happens without a selection; otherwise (id, newStatus) is sent; only success closes the dialog and refreshes, after which the list hook is settled on the reload and the items are the reloaded answer applied; a failed update or reload keeps the items; page and size never change |
| OrdersAdmin.OrdersPage.ConfirmPaymentStatusChange | src/components/admin/OrdersTableWithApi.tsx:157-167 | the same for (id, newPaymentStatus), including the reloaded items and the list hook state |
| OrdersTable.AnyItemMatchesIff | src/components/admin/OrdersTable.tsx:255 | `items.some(...)` holds iff some item name contains the search |
| OrdersTable.FilteredOrdersMembers | src/components/admin/OrdersTable.tsx:248-264 | an order is listed iff (a) the search is "" or the lowercased id, customer, email or some item contains it, (b) the status filter is "all" or names its status, and (c) the payment filter is "all" or names its payment status |
| OrdersTable.FilteredOrdersIsSubseq | src/components/admin/OrdersTable.tsx:248 | the listed orders keep their order |
| OrdersTable.InitialStateListsAll | src/components/admin/OrdersTable.tsx:157-159 | with "", "all", "all" every order is listed, in order |
| OrdersTable.StatusFilterNarrows | src/components/admin/OrdersTable.tsx:259 | choosing one status lists a subsequence of what "all" lists |
| OrdersTable.ActionsOffered | src/components/admin/OrdersTable.tsx:375-389 | "complete" is missing iff the order is completed, "cancel" iff it is cancelled; at least one is always offered, both iff pending or processing |
| AdminTools.FilteredToolsMembers | src/components/admin/ToolsManagement.tsx:90-95 | a tool is listed iff its lowercased name, category or description contains the lowercased search |
| AdminTools.FilteredToolsIsSubseq | src/components/admin/ToolsManagement.tsx:90 | the listed tools are an order-preserving subsequence |
| AdminTools.EmptySearchListsAll | src/components/admin/ProductsTableWithApi.tsx:135-140 | the empty search lists every tool, in order |
| AdminTools.SearchIgnoresCase | src/components/admin/ProductsTable.tsx:110-112 | searches that differ only in letter case list the same tools |
| AdminTools.EmptyCatalogMessageIsTruthful | src/components/admin/ToolsManagement.tsx:251-257 | over an empty table, the "empty catalog" message appears only when there are no tools at all, and a non-empty catalog always gets the "not found" message, with a non-empty search |
| AdminTools.SetAvailability | src/components/admin/ToolsManagement.tsx:123-130 | the tools with that id get the new availability; every other tool is kept; the length is unchanged |
| AdminTools.ToggleTwiceRestores | src/components/admin/ToolsManagement.tsx:123-125 | switching a tool's availability twice restores the list |
| AdminTools.RemoveToolMembers | src/components/admin/ToolsManagement.tsx:110-120 | deleting removes exactly the tools with that id and keeps the rest in order |
| ToolsManagement.ToolsPage.constructor | src/components/admin/ToolsManagement.tsx:52-56 | empty search, no selection, dialogs closed |
| ToolsManagement.ToolsPage.HandleEditTool | src/components/admin/ToolsManagement.tsx:98-101 | the tool is selected and the edit dialog opens |
| ToolsManagement.ToolsPage.HandleDeleteClick | src/components/admin/ToolsManagement.tsx:104-107 | the tool is selected and the delete dialog opens |
| ToolsManagement.ToolsPage.HandleConfirmDelete | src/components/admin/ToolsManagement.tsx:110-120 | with no selection nothing happens; otherwise its id is sent, and only success closes the dialog and removes the tool |
| ToolsManagement.ToolsPage.HandleToggleAvailability | src/components/admin/ToolsManagement.tsx:123-130 | (id, !available) is sent; on success the list has that availability switched |
| ToolsManagement.SwitchFlipsOneTool | src/components/admin/ToolsManagement.tsx:288-292 | the switch of a listed tool (ids unique) flips exactly that tool and keeps every other one |
| ProductsTableWithApi.ProductsPage.constructor | src/components/admin/ProductsTableWithApi.tsx:48-73 | empty search, delete dialog closed, no selection, an empty list with no parameters, |
| ProductsTableWithApi.ProductsPage.HandleSearch | src/components/admin/ProductsTableWithApi.tsx:84-88 | the list is reloaded with page 1, size 10 and `{search}` on top of the stored parameters; success applies the answer, failure keeps the items |
| ProductsTableWithApi.ProductsPage.HandleToggleAvailability | src/components/admin/ProductsTableWithApi.tsx:97-109 | (id, !available) is sent; only success refreshes, after which the list hook is settled on the reload and the items are the reloaded answer applied; a failed toggle or reload keeps the items |
| ProductsTableWithApi.ProductsPage.ConfirmDelete | src/components/admin/ProductsTableWithApi.tsx:111-126 | nothing happens without a selection; otherwise its id is sent, and only success refreshes and closes the dialog, with the items then the reloaded answer applied; a failed delete or reload keeps the items |
| ProductsTable.EmptySearchListsSix | src/components/admin/ProductsTable.tsx:25-80 | the empty search lists all six products, in order |
| ProductsTable.FilteredProductsMembers | src/components/admin/ProductsTable.tsx:108-113 | a product is listed iff its name, category or description matches; the result is an order-preserving subsequence |
| ProductsTable.SearchIgnoresCaseHere | src/components/admin/ProductsTable.tsx:110-112 | matching ignores letter case |
| ToolForm.FieldErrors | src/components/admin/ToolForm.tsx:42-48 | no errors iff valid; one message per failing rule: name < 3 characters, description < 10, price not positive, no category |
| ToolForm.DefaultsFailEveryRule | src/components/admin/ToolForm.tsx:79-85 | the blank form fails all four rules, and `available` defaults to true |
| ToolForm.CheckImage | src/components/admin/ToolForm.tsx:136-157 | no file, then larger than 5·1024·1024 bytes, then a type other than jpeg, png or webp, each refused in that order; otherwise accepted |
| ToolForm.AcceptedTypes | src/components/admin/ToolForm.tsx:149-150 | within the size limit, exactly the three image types are accepted |
| ToolForm.UploadHappensOnce | src/components/admin/ToolForm.tsx:179-201 | the first successful upload of a selection returns its URL and sets the flag; every later upload keeps the flag and returns the preview |
| ToolForm.NoFileSavesPreview | src/components/admin/ToolForm.tsx:180-182 | without a selected file nothing is uploaded and the preview, or "", is saved |
| ToolForm.RetriedSaveSendsPreview | src/components/admin/ToolForm.tsx:180-201 | after an upload went through and the save failed, a retried save sends the preview (the data URL), not the uploaded URL, which is never stored |
| ToolForm.SaveKind | src/components/admin/ToolForm.tsx:227-233 | a save updates iff the tool id is truthy (0 creates), with the same payload either way |
| ToolForm.ToolFormState.constructor | src/components/admin/ToolForm.tsx:70-85 | the default values, no image, no preview, not uploading, nothing uploaded |
| ToolForm.ToolFormState.LoadTool | src/components/admin/ToolForm.tsx:104-133 | in edit mode a fetched tool fills the form, and its image, if non-empty, becomes the preview |
| ToolForm.ToolFormState.HandleImageChange | src/components/admin/ToolForm.tsx:136-169 | a refused file changes nothing; an accepted one is selected, previewed and marked not uploaded |
| ToolForm.ToolFormState.HandleImageRemove | src/components/admin/ToolForm.tsx:172-176 | selection, preview and the upload flag are cleared |
| ToolForm.ToolFormState.UploadImage | src/components/admin/ToolForm.tsx:179-212 | returns `UploadResult(...)` and leaves the flag `UploadFlag(...)`; without a new image, or once uploaded, nothing changes; otherwise uploading ends and the flag records success |
| ToolForm.ToolFormState.OnSubmit | src/components/admin/ToolForm.tsx:215-249 | the save is `SubmitCall` with the upload's result; only a successful create resets values, image, preview and the upload flag; otherwise the upload flag records whether a new image got uploaded; the uploading flag is clear once an upload ran |
| UseApi.Idle | src/hooks/useApi.ts:16-20 | no data, no error, not loading |
| UseApi.Loading | src/hooks/useApi.ts:27 | entering `execute`: no data, no error, loading |
| UseApi.Settled | src/hooks/useApi.ts:29-56 | success: the data and no error; failure: the recorded error and no data; never both, never loading |
| UseApi.ApiHook.Execute | src/hooks/useApi.ts:24-62 | the state ends `Settled(outcome)`, and the outcome is returned or rethrown unchanged |
| UseApi.ApiHook.Reset | src/hooks/useApi.ts:67-69 | the state returns to `Idle` |
| UseApi.LoadParams | src/hooks/useApi.ts:88-93 | sent parameters: the stored ones, overridden by the additional ones, overridden by page and pageSize |
| UseApi.ReloadParams | src/components/admin/OrdersTableWithApi.tsx:119-126 | a search or filter reload sends page 1, size 10 and the new value, keeps every other stored parameter, and sends nothing else |
| UseApi.TotalCountsItems | src/hooks/useApi.ts:99-106 | a total that matched the items still matches after a load, iff the server did not report a non-zero total different from the number of items sent |
| UseApi.ResponseReplacesItems | src/hooks/useApi.ts:99-106 | an array, or an object with an items array, replaces the items wholesale; any other answer keeps items and total |
| UseApi.ReloadKeepsFilters | src/hooks/useApi.ts:95-117 | a later refresh repeats the filter parameters of the previous load |
| UseApi.ApiList.constructor | src/hooks/useApi.ts:78-82 | no items, the initial parameters, total 0, page 1, size 10 |
| UseApi.ApiList.LoadItems | src/hooks/useApi.ts:86-113 | parameters are stored as `LoadParams` even when the call fails; success applies the response and returns it, except that a truthy non-object answer returns [] like a failure; failure returns [] and keeps the items; page and size stay |
| UseApi.ApiList.Refresh | src/hooks/useApi.ts:115-117 | reloads with the current page, size and parameters; page and size stay; the items follow the answer as in `LoadItems` |
| UseApi.ApiList.ChangePage | src/hooks/useApi.ts:119-122 | stores the page and reloads it |
| UseApi.ApiList.ChangePageSize | src/hooks/useApi.ts:124-128 | stores the size, returns to page 1 and reloads |
| Text.IncludesIff | src/pages/Catalog.tsx:124-126 | `includes` holds iff the needle occurs at some index of the haystack |
| Text.MatchesIgnoresCase | src/components/admin/ToolsManagement.tsx:90-95 | lowercasing either the field or the query beforehand changes no match |
| Api.StatusNamesDistinct | src/lib/api.ts:35-36 | distinct statuses have distinct server names, so comparing names compares statuses |

## Left out

- Network, storage and authentication in `src/lib/api.ts` are not modelled. Each call's answer is an input of the operation that awaits it.
- The list fetchers `toolsApi.getAll` and `ordersApi.getAll` take no arguments (`src/lib/api.ts:88`, `src/lib/api.ts:125`). The page, size, search and status parameters that `useApiList` stores and passes are therefore dropped before the request. The server does not filter by them, and the model leaves the response unconstrained by them.
- Where the bookings overlap is decided is out of scope. The server decides it (`src/lib/api.ts:176-181`), and the booking form stores only its boolean answer, so the model has no local overlap check.
- JS `Date` is not modelled: millisecond differences, `Math.ceil`, time zones, daylight-saving time and date formatting. Days are integers, and the day count is stated on integers.
- `toLowerCase` is modelled for ASCII and Russian letters only. Other scripts keep their letters.
- `localeCompare` is modelled as code-point order. That order is total and transitive, which is all the name sort needs. Locale collation is not modelled.
- Prices are integers: JS floating point and `z.coerce.number()` are not modelled.
- zod's `min` counts UTF-16 code units, but the model counts characters. The two agree for the Russian and ASCII text these forms hold.
- Rendering is not modelled: JSX, toasts, the details dialog layout, icons, `isSubmitting`, the `onSuccess` callbacks and the error screens.
- `FileReader` is not modelled. Its data URL is an input, stored at once rather than when the reader finishes.
- The upload's `setTimeout` delay and its `Date.now()` URL are not modelled. The upload's outcome is an input.
- Effects are not modelled as such. Each call, effect or handler is one sequential step. Effect dependency timing and interleaved requests are not modelled.
- The switches' `default` branches are not modelled because statuses are enumerations, so those branches cannot be reached.
- The mock orders of `OrdersTable.tsx` are not reproduced. Their `totalDays` count days exclusively, unlike the booking form, and nothing here relates them.
- The search filter matches on the `search` text as it is typed. A search reload runs only when the search button is pressed. The model keeps both, as the pages do.
- After an accepted toggle or delete, the managed tool list is modelled as the server's list with that change applied. The reload that fetches it is not modelled.
- CatalogFilter.HandlePriceChange requires at least two slider values. The slider always reports both ends of the range, so the case of fewer values never arises.
- Catalog.HandleSort does not claim a stable sort. JS `sort` is stable, but for equal keys the model only promises some permutation in the chosen order.
- The unavailable days form a list in booking order, as in the code, not a set. A day can appear twice when two bookings overlap. Every property above is about membership.
