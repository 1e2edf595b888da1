# Admin dashboard core, modelled in Dafny

This project models the logic of a React admin dashboard for an online shop. Everything else in it is presentation. The model covers:

- **The shared store (`AdminContext`).** It loads seven lists in one all-or-nothing refresh: products, categories, suppliers, customers, feedbacks, orders and vouchers. It also tracks the active view, a loading flag and an error message.
- **The statistics view.** It computes this month's completed revenue, the growth rate against last month, and the count of completed orders.
- **The API service.** This is the route table of every backend call, plus `handleApiResponse`. That function unwraps `data.data` of read responses, or falls back to an empty list, and replaces any failure with one fixed error.
- **The editing state machines.** These are the product add and edit forms, the category/supplier view and the voucher view. For each, the model covers the form state, which backend call a submit makes, and what state follows success or failure.
- **The list views.**
  - The feedback, customer and order views turn records into rows.
  - `renderStars` draws a five-star rating.
  - Loading takes precedence over an error, and an error over the rows.
- **The dashboard's `renderView` switch.** It maps the active view identifier to a view.

## How the model is organised

- **Pure logic** is datatypes and functions with named results: route selection, response unwrapping, aggregation, row formatting, payload building and view dispatch.
- **Component state** is a `class` whose fields are the component's `useState` variables. Each event handler is a method with a `modifies` clause that states the complete new state. The `AdminStore.CompleteRefresh` method assigns the store's fields one by one, as the source's setters do.
- **The one explicit accumulation loop in the source** is the `totalRevenue` `for` loop. The `filter`, `map` and `reduce` calls elsewhere are modelled as recursive functions. It is a method with a loop invariant, proved equal to the fold `SumTotals`.
- **Asynchronous calls** are parameters. Every awaited promise is given to the handler as a `Settled` value: `Fulfilled(value)` or `Rejected(reason)`. The same applies to the Cloudinary upload result, the browser's `confirm` answer and the current date. The models state what follows from each outcome.
- **JavaScript behaviour** is written out where the code depends on it:
  - the truthiness of `data?.data || []` and of `if (error)`;
  - `Number(string)` as `ToNumber`;
  - `number.toString()` as `IntToString`;
  - `Array.prototype.toString` as `JoinComma`;
  - `substring(0, 10)` as `DatePart`.

Modules, one per file:

- `Wrappers`: `Option`.
- `Numbers`: decimal strings and `Number`.
- `Types`: the records of `src/types`.
- `Api`: the route table and response handling.
- `AdminContext`: the store.
- `Stats`: the statistics view.
- `ImageList`: image list filtering and comma joining.
- `EditProductForm` and `AddProductForm`.
- `CategorySupplierView` and `VoucherView`.
- `Rendering`: screen precedence and avatar URLs.
- `FeedbackView`, `CustomersView` and `OrdersView`.
- `Dashboard`.

## Model

| member | source | states |
|---|---|---|
| Api.Route | src/services/api.ts:24-131 | The route table: each of the 24 exported calls with its HTTP method and its path, fixed or with the id appended to a fixed prefix. |
| Api.Invoke | src/services/api.ts:24-131 | What an exported call returns: reads give the `handleApiResponse` result, other calls the raw response. It rejects exactly when the request does. |
| Api.RecognizeRoute | src/services/api.ts:24-131 | The route table can be read backwards: the request every API function sends identifies the function and its id argument. |
| Api.RouteInjective | src/services/api.ts:24-131 | Two calls never issue the same request value: the same method, path template and id mean the same function with the same id. |
| Api.UrlInjective | src/services/api.ts:24-131 | Two calls with the same method never send the same URL text, even once an id is appended to a template: equal text means the same function with the same id. |
| Api.ProductByIdNotAll | src/services/api.ts:28-31 | `getProductById` never hits the URL of `getAllProducts`, whatever the id. |
| Api.ProductsByCategoryNotAll | src/services/api.ts:28-34 | `getProductsByCategory` never hits the URL of `getAllProducts`, whatever the id. |
| Api.ProductByIdNotByCategory | src/services/api.ts:30-34 | `getProductById` and `getProductsByCategory` never send the same URL, whatever the ids. |
| Api.ProductFeedbacksNotAll | src/services/api.ts:102-105 | `getProductFeedbacks` never hits the URL of `getAllFeedbacks`, whatever the product id. |
| Api.CategoryUpdateNotOrderUpdate | src/services/api.ts:69-99 | `updateCategory` and `updateOrderStatus` never send the same URL, whatever the ids. |
| Api.MethodByKind | src/services/api.ts:24-131 | Reads use GET, login and creates use POST, updates use PUT and deletes use DELETE. Exactly the GET calls go through `handleApiResponse`. |
| Api.IdAppendedVerbatim | src/services/api.ts:30-34 | A URL carries an id exactly when the function takes one. It is the fixed prefix followed by the id unchanged, with no encoding. |
| Api.DeleteVoucherOutsideVoucherPrefix | src/services/api.ts:130-131 | Deleting a voucher uses `/deleteVoucher/{id}`, which is outside the `/vouchers` prefix. |
| Api.VoucherCallsUnderVoucherPrefix | src/services/api.ts:116-128 | Listing, creating and updating vouchers all use URLs under `/vouchers`. |
| Api.HandleApiResponse | src/services/api.ts:13-21 | The call rejects exactly when the request fails, always with the fixed error "An error occurred while fetching data.". Otherwise it yields the payload of `data.data` when that is truthy, and an empty list when it is missing or falsy. |
| Api.ReadList | src/services/api.ts:13-21 | A list read rejects exactly when the request fails, always with the fixed error message. Otherwise it yields the list in `data.data` when that is truthy, and an empty list when it is missing or falsy. |
| Api.ReadsNormalise | src/services/api.ts:28-118 | Every read operation is routed through `handleApiResponse`: failures become the fixed error, and successes are unwrapped. |
| Api.WritesPassThrough | src/services/api.ts:24-131 | Writes and login return the raw response or reject with the original reason, untouched. |
| AdminContext.ErrorMessage | src/context/AdminContext.tsx:57 | The shown message: an `Error`'s own message, or "An error occurred" for any other thrown value. |
| AdminContext.Refreshed | src/context/AdminContext.tsx:35-70 | The state `fetchData` leaves: all seven lists from the reads and no error when every read succeeds, otherwise empty lists and the message of the first failure. Loading is off and the view is kept. |
| AdminContext.AdminStore.constructor | src/context/AdminContext.tsx:24-33 | The store starts on the "dashboard" view with all seven lists empty, loading, and no error. |
| AdminContext.AdminStore.BeginRefresh | src/context/AdminContext.tsx:37 | Starting a refresh only sets the loading flag. |
| AdminContext.AdminStore.CompleteRefresh | src/context/AdminContext.tsx:38-69 | If all seven reads succeed, each list takes its read and the error is cleared. If any fails, every list is emptied and the error is the message of the first failed read. Loading ends either way and the active view is kept. |
| AdminContext.AdminStore.Refresh | src/context/AdminContext.tsx:35-70 | A whole refresh ends in the `Refreshed` state of the old state and the reads. |
| AdminContext.AdminStore.SetActiveView | src/context/AdminContext.tsx:24 | Switching views changes only the active view. |
| AdminContext.RefreshAllOrNothing | src/context/AdminContext.tsx:35-70 | After a refresh, either there is no error and all seven lists hold the reads, or there is an error and all lists are empty. Loading is off and the view is kept. |
| AdminContext.RefreshForgetsPrevious | src/context/AdminContext.tsx:48-66 | A refresh's result depends only on the reads and the active view, not on any earlier lists or error. |
| AdminContext.LastCompletionWins | src/context/AdminContext.tsx:35-70 | Of two refreshes, the one that completes last determines the state. |
| AdminContext.RefreshIdempotent | src/context/AdminContext.tsx:35-70 | Applying the same reads twice gives the same state as once. |
| AdminContext.FailedRefreshMessage | src/context/AdminContext.tsx:56-66 | When the reads come from the API service and one fails, the store shows "An error occurred while fetching data." and holds empty lists. |
| AdminContext.UseAdmin | src/context/AdminContext.tsx:98-104 | `useAdmin` throws "useAdmin must be used within an AdminProvider" exactly when there is no provider, and otherwise returns the provided store. |
| Stats.SumTotals | src/components/views/StatsView.tsx:32 | The sum of the order totals, added left to right. With no negative total it is not negative. |
| Stats.RevenueByMonth | src/components/views/StatsView.tsx:22-33 | `getRevenueByMonth`: the sum of the totals of the orders completed in that month. |
| Stats.TotalRevenue | src/components/views/StatsView.tsx:8-13 | The loop's total is the sum of all order totals, `SumTotals`. |
| Stats.SumTotalsAppend | src/components/views/StatsView.tsx:8-13 | The sum of totals is additive over concatenation. |
| Stats.PreviousMonth | src/components/views/StatsView.tsx:15-19 | "Last month" is exactly one calendar month before today. |
| Stats.PreviousMonthRollover | src/components/views/StatsView.tsx:17-19 | January's previous month is December of the previous year. Any other month goes back one month in the same year. |
| Stats.MonthIndexInjective | src/components/views/StatsView.tsx:15-19 | A (year, month) pair is determined by its month count, so one month back is unambiguous. |
| Stats.CompletedOrdersIn | src/components/views/StatsView.tsx:24-31 | The filter keeps exactly those orders with status "1" whose month and year match. |
| Stats.CompletedOrdersAppend | src/components/views/StatsView.tsx:24-31 | Filtering distributes over concatenation and keeps order. |
| Stats.RevenueByMonthAdditive | src/components/views/StatsView.tsx:22-33 | The revenue of two lists of orders together is the sum of their revenues. |
| Stats.RevenueByMonthSingle | src/components/views/StatsView.tsx:22-33 | A single order contributes its total exactly when it is completed in that month, and 0 otherwise. |
| Stats.RevenueWithoutMatches | src/components/views/StatsView.tsx:22-33 | With no completed orders in the month, that month's revenue is 0. |
| Stats.RevenueAtMostTotal | src/components/views/StatsView.tsx:8-33 | With non-negative totals, a month's revenue lies between 0 and the total revenue. |
| Stats.DeliveredOrdersCount | src/components/views/StatsView.tsx:45 | The delivered-order count is at most the number of orders. |
| Stats.DeliveredCountsAll | src/components/views/StatsView.tsx:45 | The count equals the number of orders exactly when every order has status "1". |
| Stats.GrowthRate | src/components/views/StatsView.tsx:40-42 | The growth rate is 0 when last month's revenue is 0, which is falsy. |
| Stats.GrowthSignTracksRevenue | src/components/views/StatsView.tsx:40-69 | With revenue last month, the label reads "+" exactly when this month's revenue is at least last month's. |
| Stats.GrowthExamples | src/components/views/StatsView.tsx:40-42 | Worked values: 100 against 0 gives 0, and 150 against 100 gives +50%. |
| Stats.StatsPanel | src/components/views/StatsView.tsx:36-83 | The headline revenue is this month's completed revenue. The growth rate compares it with last month's completed revenue, and the sign is "+" exactly when the rate is non-negative. With revenue last month, the sign is "+" exactly when revenue did not fall. The delivered count is the number of completed orders, and the customer count is passed through. |
| Stats.HeadlineIsNotTotalRevenue | src/components/views/StatsView.tsx:8-59 | The "total revenue" card shows this month's completed revenue, which can differ from the computed `totalRevenue`. |
| Numbers.NatToDecimal | src/components/views/forms/EditProductForm.tsx:18-23 | A natural number's string is non-empty, all digits, and has no leading zero. |
| Numbers.ToNumber | src/components/views/VoucherView.tsx:42-44 | `Number` reads an all-digit string as its decimal value. A leading minus never gives a positive number. Strings in other forms are `Untracked`. |
| Numbers.DecimalRoundTrip | src/components/views/forms/EditProductForm.tsx:18-23 | Reading back the decimal string of a natural gives the same natural. |
| Numbers.IntStringRoundTrip | src/components/views/VoucherView.tsx:42-82 | `Number(n.toString())` is `n` for every integer. |
| Numbers.IntToStringInjective | src/components/views/VoucherView.tsx:80-82 | Different integers have different strings. |
| ImageList.Without | src/components/views/forms/AddProductForm.tsx:83-88 | Removing an image never lengthens the list. |
| ImageList.WithoutAppend | src/components/views/forms/AddProductForm.tsx:86 | Filtering distributes over concatenation. |
| ImageList.WithoutRemovesExactly | src/components/views/forms/EditProductForm.tsx:113-119 | Removing a URL deletes every copy of it and keeps every other image with its multiplicity. A URL that is not present leaves the list unchanged. |
| ImageList.WithoutIdempotent | src/components/views/forms/EditProductForm.tsx:113-119 | Removing the same URL twice is the same as once. |
| ImageList.SplitComma | src/components/views/forms/EditProductForm.tsx:35 | Splitting at commas gives at least one part. |
| ImageList.SplitAppendCommaFree | src/components/views/forms/EditProductForm.tsx:35 | Appending comma-free text extends the last part. |
| ImageList.SplitAppendComma | src/components/views/forms/EditProductForm.tsx:35 | Appending a comma starts a new, empty part. |
| ImageList.JoinSplitRoundTrip | src/components/views/forms/EditProductForm.tsx:35-60 | A non-empty list of comma-free URLs can be recovered from the joined `images` string. |
| ImageList.SplitAfterComma | src/components/views/forms/EditProductForm.tsx:35 | A comma followed by comma-free text adds exactly that text as a new last part. |
| ImageList.EmptyListsJoinAlike | src/components/views/forms/EditProductForm.tsx:35-60 | The joined string cannot always be read back: `[]` and `[""]` both join to "". |
| ImageList.CommaUrlSplits | src/components/views/forms/EditProductForm.tsx:35-60 | A URL containing a comma comes back from the join as two URLs. |
| EditProductForm.WithField | src/components/views/forms/EditProductForm.tsx:72-75 | A change sets the named field to the typed value and leaves every other field and the images unchanged. |
| EditProductForm.InitialForm | src/components/views/forms/EditProductForm.tsx:16-25 | The form built from the product: numbers as their strings, the category and supplier ids, and a copy of the image list or an empty one. |
| EditProductForm.PayloadOf | src/components/views/forms/EditProductForm.tsx:35-60 | The update body: the product id and the form's fields as entered, with the images joined by commas. |
| EditProductForm.EditProductForm.constructor | src/components/views/forms/EditProductForm.tsx:16-27 | The form starts from the product: prices and counts as strings, the image list or an empty one, preview equal to the images, and not loading. |
| EditProductForm.EditProductForm.HandleChange | src/components/views/forms/EditProductForm.tsx:72-75 | A change edits one text field and keeps the preview in step with the images. |
| EditProductForm.EditProductForm.UploadImage | src/components/views/forms/EditProductForm.tsx:77-104 | A successful upload appends its URL to both the images and the preview. A failed one changes nothing. |
| EditProductForm.EditProductForm.RemoveImage | src/components/views/forms/EditProductForm.tsx:113-119 | Removing an image filters it from both the images and the preview. |
| EditProductForm.EditProductForm.HandleSubmit | src/components/views/forms/EditProductForm.tsx:29-70 | Submit sends the form's fields as strings with the images joined by commas. It reports success exactly when the update succeeds, and loading ends either way. |
| EditProductForm.UntouchedNumbersRoundTrip | src/components/views/forms/EditProductForm.tsx:18-59 | Submitting an untouched form sends price, quantity and discount strings that read back as the product's numbers. |
| EditProductForm.SubmittedImagesRecoverable | src/components/views/forms/EditProductForm.tsx:35-60 | The submitted `images` string splits back into the form's image list when that list is non-empty and comma-free. |
| AddProductForm.WithField | src/components/views/forms/AddProductForm.tsx:43-46 | A change sets the named field only. |
| AddProductForm.AddProductForm.constructor | src/components/views/forms/AddProductForm.tsx:14-23 | The form starts empty and not loading. |
| AddProductForm.AddProductForm.HandleChange | src/components/views/forms/AddProductForm.tsx:43-46 | A change edits one field of the form. |
| AddProductForm.AddProductForm.UploadImage | src/components/views/forms/AddProductForm.tsx:48-74 | A successful upload appends its URL. A failed one changes nothing. |
| AddProductForm.AddProductForm.RemoveImage | src/components/views/forms/AddProductForm.tsx:83-88 | Removing an image filters every copy of it out. |
| AddProductForm.AddProductForm.HandleSubmit | src/components/views/forms/AddProductForm.tsx:25-41 | Submit sends the form with price and quantity converted by `Number`. It reports success exactly when the create succeeds, and loading ends either way. |
| AddProductForm.PayloadOf | src/components/views/forms/AddProductForm.tsx:29-33 | The create body: the form spread, with price and quantity replaced by `Number` of the typed text. |
| AddProductForm.PayloadConvertsOnlyNumbers | src/components/views/forms/AddProductForm.tsx:29-33 | Typed integer price and quantity arrive as those integers. |
| AddProductForm.PayloadKeepsTextFields | src/components/views/forms/AddProductForm.tsx:29-33 | For every form, the name, images, category, supplier and description are sent exactly as entered. |
| AddProductForm.EmptyFormPayload | src/components/views/forms/AddProductForm.tsx:14-33 | Submitting the empty form sends zero price and quantity, because `Number("")` is 0. |
| CategorySupplierView.CategoryCall | src/components/views/CategorySupplierView.tsx:39-43 | Submitting while editing a category updates that category. Otherwise it adds one. |
| CategorySupplierView.SupplierCall | src/components/views/CategorySupplierView.tsx:61-65 | Submitting while editing a supplier updates that supplier. Otherwise it adds one. |
| CategorySupplierView.DeleteHandler | src/components/views/CategorySupplierView.tsx:79-101 | A delete is sent exactly when the user confirms, as a DELETE. The store is refreshed exactly when the delete succeeds. |
| CategorySupplierView.CategorySupplierView.constructor | src/components/views/CategorySupplierView.tsx:17-33 | The view opens on the categories tab with both forms closed and empty. |
| CategorySupplierView.CategorySupplierView.SelectTab | src/components/views/CategorySupplierView.tsx:129 | Switching tabs changes only the tab. |
| CategorySupplierView.CategorySupplierView.SubmitCategory | src/components/views/CategorySupplierView.tsx:35-55 | Submit sends the category form through the add or update call. On success the form is closed and reset and the store refreshed. On failure the form stays as it was. The supplier side is untouched. |
| CategorySupplierView.CategorySupplierView.SubmitSupplier | src/components/views/CategorySupplierView.tsx:57-77 | As for categories, for the supplier form. |
| CategorySupplierView.CategorySupplierView.EditCategory | src/components/views/CategorySupplierView.tsx:103-111 | Editing opens the form filled from the category. |
| CategorySupplierView.CategorySupplierView.EditSupplier | src/components/views/CategorySupplierView.tsx:113-119 | Editing opens the form filled from the supplier. |
| CategorySupplierView.CategorySupplierView.OpenAddCategory | src/components/views/CategorySupplierView.tsx:150-154 | "Add Category" opens an empty form that is not in edit mode. |
| CategorySupplierView.CategorySupplierView.CancelCategory | src/components/views/CategorySupplierView.tsx:280-331 | Closing the form resets it and leaves edit mode. |
| CategorySupplierView.CategorySupplierView.OpenAddSupplier | src/components/views/CategorySupplierView.tsx:223-226 | "Add Supplier" opens an empty form that is not in edit mode. |
| CategorySupplierView.CategorySupplierView.CancelSupplier | src/components/views/CategorySupplierView.tsx:358-387 | Closing the form resets it and leaves edit mode. |
| CategorySupplierView.CategorySupplierView.SetCategoryName | src/components/views/CategorySupplierView.tsx:296 | Typing changes only the name. |
| CategorySupplierView.CategorySupplierView.SetCategoryBrand | src/components/views/CategorySupplierView.tsx:307 | Typing changes only the brand. |
| CategorySupplierView.CategorySupplierView.SetCategoryImage | src/components/views/CategorySupplierView.tsx:318 | Typing an image URL replaces the whole image list with that one URL. |
| CategorySupplierView.CategorySupplierView.SetSupplierName | src/components/views/CategorySupplierView.tsx:374 | Typing sets the supplier name. |
| VoucherView.WithField | src/components/views/VoucherView.tsx:101-104 | A change sets the named field only. |
| VoucherView.DatePart | src/components/views/VoucherView.tsx:83-84 | `substring(0, 10)` is the first ten characters, or the whole string when it is shorter, and a prefix of it. |
| VoucherView.EditFormOf | src/components/views/VoucherView.tsx:77-85 | The form filled from a voucher: code and description, the three numbers as strings, and the first ten characters of each date. |
| VoucherView.PayloadOf | src/components/views/VoucherView.tsx:40-53 | The create or update body: the form spread, with the three numbers replaced by `Number` of the typed text. |
| VoucherView.SubmitCall | src/components/views/VoucherView.tsx:39-55 | Submitting while editing updates that voucher. Otherwise it creates one. |
| VoucherView.VoucherView.constructor | src/components/views/VoucherView.tsx:8-20 | The view starts closed, not loading, with no vouchers and an empty form. |
| VoucherView.VoucherView.FetchVouchers | src/components/views/VoucherView.tsx:26-33 | A successful fetch replaces the list. A failed one keeps it. |
| VoucherView.VoucherView.HandleSubmit | src/components/views/VoucherView.tsx:35-73 | Submit sends the form with the three numbers converted. On success it refetches, closes and resets. On failure it keeps the modal and form. Loading ends either way. |
| VoucherView.VoucherView.HandleEdit | src/components/views/VoucherView.tsx:75-87 | Editing opens the modal with the form filled from the voucher. |
| VoucherView.VoucherView.HandleChange | src/components/views/VoucherView.tsx:101-104 | A change edits one field. |
| VoucherView.VoucherView.OpenCreate | src/components/views/VoucherView.tsx:110-123 | "Create" opens an empty form that is not in edit mode. |
| VoucherView.VoucherView.Cancel | src/components/views/VoucherView.tsx:285-288 | Cancel closes the modal and leaves edit mode, but keeps the typed form. |
| VoucherView.EditSubmitRoundTrip | src/components/views/VoucherView.tsx:40-85 | Editing a voucher and submitting unchanged sends back its code, description and numbers. |
| VoucherView.DatePartIsDay | src/components/views/VoucherView.tsx:83-84 | The date part of an ISO instant is its `YYYY-MM-DD` day. |
| VoucherView.CreateExample | src/components/views/VoucherView.tsx:48-53 | A worked create: typed numbers are sent as numbers. |
| Rendering.ScreenOf | src/components/views/FeedbackView.tsx:48-54 | Loading shows the loading screen. Otherwise a non-empty error shows the error. The rows show exactly when neither applies. |
| Rendering.Avatar | src/components/views/CustomersView.tsx:16 | An avatar URL is the avatar service prefix followed by the name. |
| Rendering.AvatarInjective | src/components/views/FeedbackView.tsx:31 | Different names give different avatar URLs. |
| FeedbackView.FormatFeedbacks | src/components/views/FeedbackView.tsx:23-32 | One row per feedback, in order, each taken from that feedback. |
| FeedbackView.FeedbackView.constructor | src/components/views/FeedbackView.tsx:18 | The view starts with no rows. |
| FeedbackView.FeedbackView.OnFeedbacksChanged | src/components/views/FeedbackView.tsx:20-36 | The rows are recomputed only when the list is non-empty. An empty list keeps the old rows. |
| FeedbackView.RenderStars | src/components/views/FeedbackView.tsx:38-46 | Always five stars. |
| FeedbackView.StarsFillPrefix | src/components/views/FeedbackView.tsx:38-46 | A rating r from 0 to 5 fills exactly the first r stars. |
| FeedbackView.StarsSaturate | src/components/views/FeedbackView.tsx:38-46 | Ratings at or below 0 fill no star, and ratings of 5 or more fill all five. |
| FeedbackView.FailedRefreshHidesStaleRows | src/components/views/FeedbackView.tsx:20-54 | After a failed refresh the old rows stay in state, but the view shows the error, not those rows. |
| CustomersView.FormatCustomer | src/components/views/CustomersView.tsx:10-17 | The cart count is the cart list's length, or 0 when there is none. |
| CustomersView.FormatCustomers | src/components/views/CustomersView.tsx:10-17 | One row per customer, in order. |
| CustomersView.CustomersView.constructor | src/components/views/CustomersView.tsx:6 | The view starts with no rows. |
| CustomersView.CustomersView.OnCustomersChanged | src/components/views/CustomersView.tsx:8-21 | The rows are recomputed only when the list is non-empty. |
| CustomersView.RowsKeepIdentity | src/components/views/CustomersView.tsx:10-17 | Each row keeps the customer's id, username, email, and an avatar built from the username. |
| OrdersView.FormatOrder | src/components/views/OrdersView.tsx:22-29 | A row's item count is the number of products, and its total and status are the order's. |
| OrdersView.FormatOrders | src/components/views/OrdersView.tsx:22-29 | One row per fetched order, in order. |
| OrdersView.OrdersView.Mount | src/components/views/OrdersView.tsx:16-36 | The list starts empty. A successful fetch fills it with the formatted orders, and a failed one leaves it empty. |
| OrdersView.RowsKeepTotals | src/components/views/OrdersView.tsx:22-29 | The rows' totals add up to the orders' total revenue. |
| Dashboard.RenderView | src/components/Dashboard.tsx:14-33 | `renderView`: each of the seven identifiers has its own view, and any other identifier shows the statistics view. |
| Dashboard.MenuSelectsOwnView | src/components/Dashboard.tsx:14-33 | Each of the seven menu identifiers selects its own view. The seven views are distinct, and every view is reachable. |
| Dashboard.UnknownIdShowsStats | src/components/Dashboard.tsx:30-31 | Any other identifier falls back to the statistics view. |
| Dashboard.InitialViewIsStats | src/components/Dashboard.tsx:16-17 | The store's initial view renders the statistics view. |

## Left out

- Network transport is not modelled. The axios instance, base URL and headers are out, as is the Cloudinary upload request. Each awaited promise is an input: `Settled`, or `Option` for an upload URL.
- `Promise.all` timing is not modelled. When several reads fail, the store's message is that of the first failed read in list order. In the source it is whichever rejects first in time. Every read fails with the same fixed message, so the shown error is the same.
- Toasts, `console` logging, `e.preventDefault()` and the `onClose`/`onSuccess` callbacks are side effects and are not modelled. The exception is the category and supplier submits, which return the message they would show. The `window.confirm` answer is an input.
- Dates are shown through `toLocaleDateString` and `toLocaleString`, and the growth rate through `toFixed(2)`. These depend on locale and floating-point formatting. Dates are an abstract (year, month) or an opaque string. The growth rate is an exact `real`, not a 64-bit float.
- Numbers.ToNumber: only "" and optionally signed digit strings are read. Every other string is `Untracked`. That includes strings `Number` reads as integers, such as "1e3", "0x10" and " 5", as well as fractions and NaN. They are not modelled, because prices and counts are treated as integers typed in decimal.
- Numbers.IntToString: integers are unbounded. The source's exponent notation from 1e21 and precision loss above 2^53 are not modelled.
- The `instanceof File` branch of the product edit submit is not modelled. `formData.images` is always an array, so that branch never runs.
- The sidebar and the `App` layout are presentation only and are not modelled. The menu identifiers are kept, in `Dashboard.MenuIds`.
- The products list view (`src/components/views/ProductsView.tsx`) is outside the modelled core. Its `handleDelete` (lines 14-25) confirms, calls `deleteProduct`, shows a toast and refreshes the store on success. That is the shape `CategorySupplierView.DeleteHandler` models for categories and suppliers.
- Commented-out code is not modelled: order status updates and voucher deletion.
- Reading a single product or a category's products goes through the same generic unwrapping as the lists: `Unwrapped` payload or empty list. Nothing in the core uses their results.
- Null or missing nested fields are not modelled: the records here always have them. In the source their absence throws, and where it throws differs. For a feedback without `user`, it throws in the feedback view's formatting effect. For an order without `user` or `products`, it throws inside the `try` of `src/components/views/OrdersView.tsx:21-31`, so the error is caught and the order list stays as it was. For a product without `category` or `supplier`, it throws in the edit form's state initialiser (`src/components/views/forms/EditProductForm.tsx:20-21`).
- Every `number` field of the records is an integer here: price, quantity, discount, rating, total, discountValue, minimumOrder and usageLimit. The source's `number` admits fractions. A fractional rating such as 3.5 fills four stars in `renderStars`, because star `index` (counting from 0) is filled when `index < rating`, which holds for 0 to 3. Order totals are summed as floating-point numbers in the statistics view. Neither is modelled.
- VoucherView.VoucherView.HandleEdit: the stored `startDate` and `endDate` are taken to be already in the canonical `toISOString()` form (UTC, ending in `Z`). `VoucherView.EditFormOf` therefore cuts the stored text directly. The source first parses it with `new Date(...)` and prints it again with `toISOString()`. The model does not capture that an offset date such as "2024-03-01T01:00:00+07:00" becomes the UTC day 2024-02-29. It also does not capture that an unparsable date throws a `RangeError`. In that case `setEditingVoucher(voucher)` has already run, while `showForm` and `formData` stay as they were. The modal still opens, in edit mode on that voucher with the previous form, because it is shown whenever `editingVoucher` is set (`src/components/views/VoucherView.tsx:183`). Submitting would then send the stale form as an update to that voucher.
- The statistics view's `totalRevenue` is computed but never shown. It is modelled, and `Stats.HeadlineIsNotTotalRevenue` records that the card shows the month's revenue instead.
- Customers and feedback keep rows from an earlier non-empty list when the list becomes empty. This is modelled, not corrected, and `FeedbackView.FailedRefreshHidesStaleRows` shows that such rows stay hidden behind the error.
