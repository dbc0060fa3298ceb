# Mining fleet portal: verified model of the front-end logic

The portal is a React front-end for a mining operation. Administrators manage an IoT product catalogue and maintenance requests, and watch fuel and vehicle telemetry. Customers browse products, fill a cart and file maintenance requests.

This project models the logic inside those components in Dafny. The markup is left out. It covers:

- the session store of `useAuthState`: restore, login, register, logout and update;
- the cart page and the add-to-cart of the product detail view;
- the filter pipelines, status counts and create, update and delete operations of the maintenance and product pages;
- the telemetry threshold table and the alerts derived from it;
- the registration and maintenance-request forms: validation, prefill and error clearing.

Modules follow the source files:

| module | file | form |
|---|---|---|
| `Types` | types.dfy | records of src/types/index.ts |
| `Storage` | storage.dfy | `localStorage` as a class over a map from keys to stored values |
| `Basics` | basics.dfy | option, filter, subsequence lemmas, the error-clearing update |
| `Text` | text.dfy | `trim`, `toLowerCase`, `includes`, `String(n)`, `padStart`, the e-mail pattern |
| `Auth` | auth.dfy | class `Session` |
| `Cart` | cart.dfy | class `CartPage`; totals as folds |
| `ProductDetail` | product_detail.dfy | method `AddToCart`; class `QuantitySelector` |
| `Maintenance` | maintenance.dfy | filter functions; class `MaintenanceCatalog` |
| `MaintenanceForm` | maintenance_form.dfy | validation function; class `RequestFormState` |
| `Products` | products.dfy | filter functions; class `ProductCatalog` |
| `Monitoring` | monitoring.dfy | grading function; loop `GenerateAlerts`; class `MonitoringBoard` |
| `RegisterForm` | register_form.dfy | validation function; class `RegisterFormState` |

## Modelling choices

- Time, randomness and dialogs are inputs:
  - Timestamps, `Date.now()` values and generated ids are parameters (`stamp`, `now`, `millis`, `lineId`, `newId`).
  - The drawn telemetry values and the `Math.random()` rolls of the alerts are parameters.
  - The answer to `window.confirm` is a parameter.
- Storage values are JSON decoded in the abstract. A stored value is a cart, a user, or some other text. Any other text in the cart or user key is the path where `JSON.parse` fails.
- Money (prices, costs) is a whole number of rupiah (`int`). Telemetry values are `real`.
- A field's error is cleared by setting it to the empty message, not by deleting the key, as the source does.

## Model

| member | source | states |
|---|---|---|
| Auth.FindByEmail | src/hooks/useAuth.ts:92 | `None` exactly when no user has the e-mail; otherwise the first user with it |
| Auth.DemoAccounts | src/hooks/useAuth.ts:65-92 | exactly the two demo e-mails are found; the admin address yields the admin-role account, the user address the user-role account |
| Auth.TokenNotEmpty | src/hooks/useAuth.ts:95 | the stored token is never empty, so it always counts as present on restore |
| Auth.RegisteredUser | src/hooks/useAuth.ts:131-140 | a registered user always has role `user`, is active, takes name, e-mail and phone from the form, and has no avatar or address |
| Auth.PatchLaws | src/hooks/useAuth.ts:177 | merging an empty update changes nothing; merging twice equals merging once; each of the ten fields keeps its value when the update omits it and takes the supplied value otherwise |
| Auth.Session.constructor | src/hooks/useAuth.ts:22-26 | the session starts signed out and loading |
| Auth.Session.Restore | src/hooks/useAuth.ts:28-58 | authenticated iff both keys are present and the user decodes; a decode failure removes both keys and signs out; otherwise storage is untouched; loading ends false in every branch; the session invariant holds |
| Auth.Session.Login | src/hooks/useAuth.ts:60-124 | true iff the e-mail is a demo user's and the password is `password`; on success that user is signed in and both keys are written; on failure the session is signed out and storage is untouched |
| Auth.Session.Register | src/hooks/useAuth.ts:126-163 | always succeeds, signing in the new `user`-role account (id from one clock reading) and writing it and a token (from a second reading); no other key changes |
| Auth.Session.Logout | src/hooks/useAuth.ts:165-173 | both keys removed and the session signed out, unconditionally |
| Auth.Session.UpdateUser | src/hooks/useAuth.ts:175-184 | no-op without a user; otherwise the merged user is stored and kept in the session with both flags unchanged; the session invariant is preserved |
| Cart.TotalsAppend | src/components/cart/CartPage.tsx:57-58 | both totals are 0 on the empty cart and add up over a cart split in two |
| Cart.TotalsCons | src/components/cart/CartPage.tsx:57-58 | a leading line adds its quantity to the item total and price times quantity to the amount |
| Cart.WithQuantity | src/components/cart/CartPage.tsx:33-35 | same length; every line with the id gets the new quantity and keeps every other field; every other line is unchanged |
| Cart.RemoveLineSpec | src/components/cart/CartPage.tsx:40 | removal keeps exactly the lines with another id, each as often as it occurs, in their original order; no line with the id remains; an absent id changes nothing |
| Cart.RemoveLineTotals | src/components/cart/CartPage.tsx:39-42 | removal takes exactly the removed lines' quantities and amounts off the totals |
| Cart.SetQuantityItems | src/components/cart/CartPage.tsx:33-36 | after setting quantity q, the item total is the other lines' total plus q per matching line |
| Cart.SetQuantityAmount | src/components/cart/CartPage.tsx:33-36 | after setting quantity q, the amount is the other lines' amount plus q times the matching lines' unit prices |
| Cart.CartPage.constructor | src/components/cart/CartPage.tsx:10-11 | the page starts with no lines and loading |
| Cart.CartPage.Load | src/components/cart/CartPage.tsx:13-20 | a missing or empty saved value leaves the cart empty and ends loading; a saved cart is loaded; text that is not JSON fails and leaves the page loading; a saved user fails after loading has ended |
| Cart.CartPage.UpdateCart | src/components/cart/CartPage.tsx:22-25 | the lines are replaced and the `cart` key holds exactly them |
| Cart.CartPage.UpdateQuantity | src/components/cart/CartPage.tsx:27-37 | a quantity of 0 or less acts as removal; otherwise the quantity is set on the matching lines; the stored cart equals the lines in memory |
| Cart.CartPage.RemoveItem | src/components/cart/CartPage.tsx:39-42 | the lines with the id are removed and the stored cart equals the lines in memory |
| Cart.CartPage.ClearCart | src/components/cart/CartPage.tsx:44-48 | when confirmed the cart is empty and stored empty; otherwise nothing changes |
| ProductDetail.FindIndex | src/components/products/ProductDetail.tsx:44 | -1 iff no line has the product; otherwise the index of the first line for it |
| ProductDetail.AddToCart | src/components/products/ProductDetail.tsx:31-70 | nothing happens unless the viewer has role `user`; an unreadable saved cart fails without writing; otherwise the cart with the product added is written to `cart` |
| ProductDetail.AddMergesIntoFirstLine | src/components/products/ProductDetail.tsx:46-48 | with a line for the product, the first such line grows by the quantity; its price, the other lines and the length are unchanged |
| ProductDetail.AddAppendsNewLine | src/components/products/ProductDetail.tsx:49-58 | without a line for the product, exactly one line is appended, for that product, at its current price |
| ProductDetail.AddRaisesTotals | src/components/products/ProductDetail.tsx:44-58 | adding raises the item total by exactly the quantity, and the amount by the quantity times the receiving line's unit price |
| ProductDetail.SelectorStaysInRange | src/components/products/ProductDetail.tsx:164-185 | decrement, increment and typed input keep a quantity in [1, stock]; a typed value already in range is kept |
| ProductDetail.QuantitySelector.constructor | src/components/products/ProductDetail.tsx:13 | the quantity starts at 1 |
| ProductDetail.QuantitySelector.Decrement | src/components/products/ProductDetail.tsx:166 | the quantity is decremented with a floor of 1 and stays within [1, stock] |
| ProductDetail.QuantitySelector.Increment | src/components/products/ProductDetail.tsx:181 | the quantity is incremented with a cap of stock and stays within [1, stock] |
| ProductDetail.QuantitySelector.Type | src/components/products/ProductDetail.tsx:174 | the typed value is clamped to [1, stock], NaN or 0 reading as 1 |
| Maintenance.FilterRequestsIsFilter | src/components/maintenance/MaintenancePage.tsx:119-147 | the chain of four conditional filters equals one filter by the conjunction of the active stages |
| Maintenance.ListedIff | src/components/maintenance/MaintenancePage.tsx:119-147 | listed iff in the collection, owned by the viewer when the viewer has role `user`, hit by a non-empty search in title, description or id, and matching any status or priority other than `all` |
| Maintenance.ListedIsStableSubsequence | src/components/maintenance/MaintenancePage.tsx:120-146 | the list is an order-preserving subsequence of the collection, and refiltering it changes nothing |
| Maintenance.AdminSeesEverything | src/components/maintenance/MaintenancePage.tsx:122-125 | an admin's list equals the unscoped list, and with no control set it is the whole collection |
| Maintenance.ListedAreEditable | src/components/maintenance/MaintenancePage.tsx:431 | a signed-in viewer may edit every listed request; a `user` sees only requests they own |
| Maintenance.StatusCountsPartition | src/components/maintenance/MaintenancePage.tsx:248-250 | the counts of the five statuses add up to the collection size |
| Maintenance.ShownCountsWithinTotal | src/components/maintenance/MaintenancePage.tsx:248-250 | pending, in-progress and completed counts together never exceed the total |
| Maintenance.ListedCountWithinCount | src/components/maintenance/MaintenancePage.tsx:248-250 | a status count over the filtered list never exceeds that count over the collection |
| Maintenance.NewRequestIdShape | src/components/maintenance/MaintenancePage.tsx:235 | the id is "MR" plus decimal digits denoting count + 1, padded to at least three digits; five characters below 999 requests |
| Maintenance.NewRequestIdInjective | src/components/maintenance/MaintenancePage.tsx:235 | different collection sizes give different ids |
| Maintenance.NewIdRepeatsAfterDelete | src/components/maintenance/MaintenancePage.tsx:235 | after deleting the first request, the next created request gets the id the last request already has |
| Maintenance.SaveUnchangedForm | src/components/maintenance/MaintenancePage.tsx:227-230 | saving an untouched prefilled form gives the request back with a new update time; each absent optional field (cost, date, assignee, notes) comes back at its default |
| Maintenance.UpdatedRequests | src/components/maintenance/MaintenancePage.tsx:227-231 | same length; requests with the edited id get the form merged over them; every other request is unchanged |
| Maintenance.UpdateKeepsIdentity | src/components/maintenance/MaintenancePage.tsx:227-231 | an update keeps every id, owner, status and creation time; the edited request takes all eight form fields and the new update time; an absent id changes nothing |
| Maintenance.NewRequest | src/components/maintenance/MaintenancePage.tsx:234-242 | a created request has the given id, the signed-in user as owner, status `pending`, all eight form fields, and creation and update time now |
| Maintenance.DeleteSpec | src/components/maintenance/MaintenancePage.tsx:218-222 | deletion keeps exactly the requests with another id, each as often as it occurs, in order; none with the id remains; an absent id changes nothing |
| Maintenance.SaveKeepsOwners | src/components/maintenance/MaintenancePage.tsx:224-246 | create and update keep every request's `userId` equal to its user's id |
| Maintenance.DeleteKeepsOwners | src/components/maintenance/MaintenancePage.tsx:218-222 | so does delete |
| Maintenance.MaintenanceCatalog.constructor | src/components/maintenance/MaintenancePage.tsx:23-32 | the page starts with no requests and loading |
| Maintenance.MaintenanceCatalog.Load | src/components/maintenance/MaintenancePage.tsx:111-115 | the sample requests are installed and loading ends |
| Maintenance.MaintenanceCatalog.SaveRequest | src/components/maintenance/MaintenancePage.tsx:224-246 | editing maps the update over the collection; creating appends one new request with the count-based id; creating with nobody signed in changes nothing; owner consistency is preserved |
| Maintenance.MaintenanceCatalog.DeleteRequest | src/components/maintenance/MaintenancePage.tsx:218-222 | when confirmed, the requests with the id are removed; otherwise nothing changes; owner consistency is preserved |
| MaintenanceForm.PrefilledFrom | src/components/maintenance/MaintenanceForm.tsx:25-38 | title, description, category and priority are copied; absent optional fields become 0 or the empty string |
| MaintenanceForm.EditTouchesOneField | src/components/maintenance/MaintenanceForm.tsx:92-98 | a change sets the named field to the edited value (an unparsable cost to 0) and alters no other |
| MaintenanceForm.RequestErrors | src/components/maintenance/MaintenanceForm.tsx:54-68 | a title or description error iff it is blank after trimming; a cost error iff the cost is negative; no other key; the fixed message for each |
| MaintenanceForm.NoErrorsIffAcceptable | src/components/maintenance/MaintenanceForm.tsx:69-70 | the error record is empty iff the form is acceptable |
| MaintenanceForm.RefusedIffAllSpace | src/components/maintenance/MaintenanceForm.tsx:57-63 | a title or description is refused iff it is nothing but white space |
| MaintenanceForm.EmptyFormErrors | src/components/maintenance/MaintenanceForm.tsx:12-21 | a fresh form is refused for title and description only; its cost of 0 passes |
| MaintenanceForm.RequestFormState.constructor | src/components/maintenance/MaintenanceForm.tsx:12-22 | the form starts with category `repair`, priority `medium`, cost 0, empty texts and no errors |
| MaintenanceForm.RequestFormState.Prefill | src/components/maintenance/MaintenanceForm.tsx:25-38 | a request prop replaces the form with its prefill; a null prop leaves it |
| MaintenanceForm.RequestFormState.HandleChange | src/components/maintenance/MaintenanceForm.tsx:92-107 | the edit is applied; the edited field's error, if any, is blanked; every other error is kept |
| MaintenanceForm.RequestFormState.ValidateForm | src/components/maintenance/MaintenanceForm.tsx:54-71 | the error record shown is the form's; the result is true iff the form is acceptable |
| MaintenanceForm.RequestFormState.Submit | src/components/maintenance/MaintenanceForm.tsx:73-90 | the form data is handed on iff the form is acceptable |
| Products.FilterProductsIsFilter | src/components/products/ProductList.tsx:95-110 | the two conditional filters equal one filter by the conjunction of the active stages |
| Products.ListedIff | src/components/products/ProductList.tsx:95-110 | listed iff in the collection, hit by a non-empty search in name or description, and in the selected category unless it is `all` |
| Products.SearchIgnoresId | src/components/products/ProductList.tsx:99-102 | the id is not searched: products differing only in id are listed alike |
| Products.ListedIsStableSubsequence | src/components/products/ProductList.tsx:96-109 | the list is an order-preserving subsequence of the collection, and refiltering it changes nothing |
| Products.UpdatedProducts | src/components/products/ProductList.tsx:143-147 | same length; products with the edited id get the form merged over them; every other product is unchanged |
| Products.UpdateSpec | src/components/products/ProductList.tsx:141-147 | an update keeps ids and creation times; the edited product takes all seven form fields (name, description, price, category, stock, image URL, active flag) and the new update time; every other product is unchanged; an absent id changes nothing |
| Products.NewProduct | src/components/products/ProductList.tsx:150-155 | a created product has the given id and time stamps, and merging its own form data over it changes nothing |
| Products.DeleteSpec | src/components/products/ProductList.tsx:129-133 | deletion keeps exactly the products with another id, each as often as it occurs, in order; none with the id remains; an absent id changes nothing |
| Products.ProductCatalog.constructor | src/components/products/ProductList.tsx:10-18 | the page starts with no products and loading |
| Products.ProductCatalog.Load | src/components/products/ProductList.tsx:87-91 | the sample products are installed and loading ends |
| Products.ProductCatalog.SaveProduct | src/components/products/ProductList.tsx:140-159 | editing maps the update over the collection; creating appends exactly one product at the end |
| Products.ProductCatalog.DeleteProduct | src/components/products/ProductList.tsx:129-133 | when confirmed, the products with the id are removed; otherwise nothing changes |
| Monitoring.MaintenanceNeverCritical | src/components/monitoring/MonitoringPage.tsx:72-75 | as written, a maintenance reading is never critical; 70 is graded a warning |
| Monitoring.MaintenanceBands | src/components/monitoring/MonitoringPage.tsx:74 | corrected: below 75 critical, [75, 80) warning, otherwise normal; a lower value is never less severe |
| Monitoring.SensorThresholds | src/components/monitoring/MonitoringPage.tsx:39-50 | engine temperature, vibration and the other sensor rows are graded strictly above their bounds; 110 °C is a warning and 95 °C normal |
| Monitoring.WarningOnlyRows | src/components/monitoring/MonitoringPage.tsx:51-79 | speed, load and fuel flow warn above 50, 45 and 35 and are never critical; an unknown type is always normal |
| Monitoring.VoltageBands | src/components/monitoring/MonitoringPage.tsx:58-61 | voltage outside [210, 240] is critical; otherwise outside [220, 235] a warning; otherwise normal |
| Monitoring.FuelLevelBands | src/components/monitoring/MonitoringPage.tsx:64-66 | fuel level below 25 % is critical and [25, 40) a warning |
| Monitoring.SeverityMonotone | src/components/monitoring/MonitoringPage.tsx:38-79 | rows graded from above never get less severe as the value rises; the fuel level never gets less severe as it falls |
| Monitoring.SensorsUnaffected | src/components/monitoring/MonitoringPage.tsx:24-31 | no sensor on the page is of the maintenance type, so the corrected grading agrees with the code for every generated reading |
| Monitoring.ReadingIdsDistinct | src/components/monitoring/MonitoringPage.tsx:82 | readings at different indices get different ids |
| Monitoring.Readings | src/components/monitoring/MonitoringPage.tsx:33-96 | one reading per sensor, in order, with id `sensor-<i+1>`, the sensor's kind, name, unit and location, the given value, and the status the code's table gives it, which is also the corrected table's status; ids pairwise distinct |
| Monitoring.GenerateAlerts | src/components/monitoring/MonitoringPage.tsx:99-125 | the loop pushes exactly the alerts of the reference definition, in reading order |
| Monitoring.AlertsMatchFlagged | src/components/monitoring/MonitoringPage.tsx:102-122 | one alert per non-normal reading, in order; each alert has id "alert-" plus the reading's id, the reading's status as its type, and the matching title |
| Monitoring.CountsPartition | src/components/monitoring/MonitoringPage.tsx:201-203 | the critical, warning and normal counts add up to the number of readings; the alert count is critical plus warning |
| Monitoring.StatusPartition | src/components/monitoring/MonitoringPage.tsx:201-203 | every reading has exactly one status, and the non-normal readings are the critical plus the warning ones |
| Monitoring.MonitoringBoard.constructor | src/components/monitoring/MonitoringPage.tsx:17-20 | the page starts with no readings and no alerts, loading |
| Monitoring.MonitoringBoard.LoadData | src/components/monitoring/MonitoringPage.tsx:127-139 | the readings, their alerts and the refresh time are replaced, and loading ends |
| RegisterForm.OnlyClearedIsEmpty | src/components/auth/RegisterForm.tsx:79 | only the cleared message shows as the empty string, so a cleared field counts as having no error |
| RegisterForm.RegistrationErrors | src/components/auth/RegisterForm.tsx:23-45 | errors for blank name; blank or malformed e-mail (one message); missing password or one under six UTF-16 code units (one message); mismatched confirmation; never for phone |
| RegisterForm.NoErrorsIffAcceptable | src/components/auth/RegisterForm.tsx:46-47 | the error record is empty iff the form is acceptable |
| RegisterForm.EmptyRegistrationErrors | src/components/auth/RegisterForm.tsx:11-17 | a fresh form is refused for name, e-mail and password, each with its "required" message |
| RegisterForm.NameRefusedIffAllSpace | src/components/auth/RegisterForm.tsx:26-28 | a name is refused iff it is nothing but white space |
| RegisterForm.AcceptedEmailShape | src/components/auth/RegisterForm.tsx:30-34 | an accepted e-mail holds an '@' with a non-space before it, then at least two characters later a '.' with a non-space after it |
| RegisterForm.RegisterFormState.constructor | src/components/auth/RegisterForm.tsx:11-21 | the form starts empty with no errors |
| RegisterForm.RegisterFormState.HandleChange | src/components/auth/RegisterForm.tsx:71-85 | the named field takes the value; its error, if any, is blanked; every other error is kept |
| RegisterForm.RegisterFormState.ValidateForm | src/components/auth/RegisterForm.tsx:23-48 | the error record shown is the form's; the result is true iff the form is acceptable |
| RegisterForm.RegisterFormState.Submit | src/components/auth/RegisterForm.tsx:50-69 | registration happens iff the form is acceptable; then the session holds exactly the new user, authenticated and not loading, and storage gains exactly the user and token keys; an invalid form leaves the session and storage unchanged |
| Basics.ClearedError | src/components/auth/RegisterForm.tsx:79-84 | the same keys; the named field's entry, if present, becomes the cleared value; every other entry is kept |
| Text.BlankIffAllSpace | src/components/auth/RegisterForm.tsx:26 | `!s.trim()` holds iff every character is white space |
| Text.EmailPatternMeans | src/components/auth/RegisterForm.tsx:32 | the search for `\S+@\S+\.\S+` succeeds iff some '@' and a later '.' have non-space text around and between them |
| Text.Lower | src/components/maintenance/MaintenancePage.tsx:130 | lowering keeps the length and lowers each character |
| Text.PadStart | src/components/maintenance/MaintenancePage.tsx:235 | the result is at least the width; the text is kept as the suffix; the prefix is all fill |
| Text.NatToStringRoundTrip | src/components/maintenance/MaintenancePage.tsx:235 | reading the decimal digits of `String(n)` gives back n |
| Auth.DemoUsers | src/hooks/useAuth.ts:65-90 | definition: the two demo accounts in search order; specified by Auth.DemoAccounts |
| Auth.Token | src/hooks/useAuth.ts:95 | definition: `'demo_token_' + Date.now()`; specified by Auth.TokenNotEmpty |
| Auth.Patched | src/hooks/useAuth.ts:177 | definition: `{ ...user, ...userData }`; specified by Auth.PatchLaws |
| Cart.TotalItems | src/components/cart/CartPage.tsx:58 | definition: the item-count fold; specified by Cart.TotalsAppend, Cart.RemoveLineTotals and Cart.SetQuantityItems |
| Cart.TotalAmount | src/components/cart/CartPage.tsx:57 | definition: the price-times-quantity fold; specified by Cart.TotalsAppend, Cart.RemoveLineTotals and Cart.SetQuantityAmount |
| Cart.WithoutLine | src/components/cart/CartPage.tsx:40 | definition: the filter by other id; specified by Cart.RemoveLineSpec and Cart.RemoveLineTotals |
| ProductDetail.SavedCart | src/components/products/ProductDetail.tsx:41 | definition: the stored cart, empty when nothing is stored, none when it does not read as a cart; used by ProductDetail.AddToCart |
| ProductDetail.NewLine | src/components/products/ProductDetail.tsx:51-57 | definition: the appended line; specified by ProductDetail.AddAppendsNewLine |
| ProductDetail.WithAdded | src/components/products/ProductDetail.tsx:44-58 | definition: merge into the first line or append; specified by ProductDetail.AddMergesIntoFirstLine, ProductDetail.AddAppendsNewLine and ProductDetail.AddRaisesTotals |
| ProductDetail.AddSectionShown | src/components/products/ProductDetail.tsx:159 | definition: the add section's display condition; tied to the add and the selector by ProductDetail.AddFromSection |
| ProductDetail.AddFromSection | src/components/products/ProductDetail.tsx:159-200 | the add button of the shown section is never refused by the role gate; it fails exactly when the saved cart is unreadable, and otherwise the saved cart gains the selector's quantity, which lies in [1, stock] |
| ProductDetail.Decremented | src/components/products/ProductDetail.tsx:166 | definition: `Math.max(1, quantity - 1)`; specified by ProductDetail.SelectorStaysInRange |
| ProductDetail.Incremented | src/components/products/ProductDetail.tsx:181 | definition: `Math.min(stock, quantity + 1)`; specified by ProductDetail.SelectorStaysInRange |
| ProductDetail.Typed | src/components/products/ProductDetail.tsx:174 | definition: the clamped typed quantity; specified by ProductDetail.SelectorStaysInRange |
| Maintenance.FilterRequests | src/components/maintenance/MaintenancePage.tsx:119-147 | definition: the four-stage filter chain; specified by Maintenance.FilterRequestsIsFilter and Maintenance.ListedIff |
| Maintenance.SearchHit | src/components/maintenance/MaintenancePage.tsx:129-133 | definition: the lowercased term in the lowercased title, description or id; used by Maintenance.ListedIff |
| Maintenance.CanEdit | src/components/maintenance/MaintenancePage.tsx:431 | definition: admin or owner; specified by Maintenance.ListedAreEditable |
| Maintenance.StatusCount | src/components/maintenance/MaintenancePage.tsx:248-250 | definition: the number of requests with a status; specified by Maintenance.StatusCountsPartition |
| Maintenance.NewRequestId | src/components/maintenance/MaintenancePage.tsx:235 | definition: the count-based id; specified by Maintenance.NewRequestIdShape and Maintenance.NewRequestIdInjective |
| Maintenance.MergeForm | src/components/maintenance/MaintenancePage.tsx:229 | definition: the form's fields over the request with a new update time; specified by Maintenance.UpdateKeepsIdentity and Maintenance.SaveUnchangedForm |
| Maintenance.WithoutRequest | src/components/maintenance/MaintenancePage.tsx:220 | definition: the filter by other id; specified by Maintenance.DeleteSpec |
| Maintenance.CountIdBreaksDistinct | src/components/maintenance/MaintenancePage.tsx:235 | as written: after deleting the first of two or more requests, the next created request shares its id with an existing one |
| Maintenance.FreeNumber | src/components/maintenance/MaintenancePage.tsx:235 | corrected numbering: the first number from the count on whose id is unused; the count itself when its id is unused |
| Maintenance.FreshRequestId | src/components/maintenance/MaintenancePage.tsx:235 | corrected: an id no request has, equal to the count-based id whenever that one is free |
| Maintenance.FreshIdKeepsIdsDistinct | src/components/maintenance/MaintenancePage.tsx:234-243 | corrected: creating a request keeps all ids distinct, whatever was deleted before |
| MaintenanceForm.Applied | src/components/maintenance/MaintenanceForm.tsx:95-98 | definition: one change applied to the form; specified by MaintenanceForm.EditTouchesOneField |
| MaintenanceForm.Acceptable | src/components/maintenance/MaintenanceForm.tsx:57-67 | definition: the three checks passed; tied to the error record by MaintenanceForm.NoErrorsIffAcceptable |
| Products.FilterProducts | src/components/products/ProductList.tsx:95-110 | definition: the two-stage filter chain; specified by Products.FilterProductsIsFilter and Products.ListedIff |
| Products.ProductSearchHit | src/components/products/ProductList.tsx:99-102 | definition: the lowercased term in the lowercased name or description; used by Products.ListedIff |
| Products.MergeProduct | src/components/products/ProductList.tsx:145 | definition: the form's fields over the product with a new update time; specified by Products.UpdateSpec |
| Products.WithoutProduct | src/components/products/ProductList.tsx:131 | definition: the filter by other id; specified by Products.DeleteSpec |
| Monitoring.ClassifyAsWritten | src/components/monitoring/MonitoringPage.tsx:38-79 | definition: the threshold table exactly as written; specified by Monitoring.MaintenanceNeverCritical and, through Monitoring.SensorsUnaffected, by the band lemmas |
| Monitoring.Classify | src/components/monitoring/MonitoringPage.tsx:72-75 | definition: the table with the maintenance row corrected; specified by Monitoring.MaintenanceBands, Monitoring.SensorThresholds, Monitoring.WarningOnlyRows, Monitoring.VoltageBands and Monitoring.FuelLevelBands |
| Monitoring.Reading | src/components/monitoring/MonitoringPage.tsx:81-95 | definition: one generated reading, graded by the table as written; specified by Monitoring.Readings |
| Monitoring.AlertFor | src/components/monitoring/MonitoringPage.tsx:103-121 | definition: the alert for one reading, if any; specified by Monitoring.AlertsMatchFlagged |
| Monitoring.AlertsFor | src/components/monitoring/MonitoringPage.tsx:99-125 | definition: the alerts of some readings in order; the loop Monitoring.GenerateAlerts is proved equal to it, and Monitoring.AlertsMatchFlagged specifies it |
| Monitoring.StatusCount | src/components/monitoring/MonitoringPage.tsx:201-203 | definition: the number of readings with a status; specified by Monitoring.CountsPartition |
| RegisterForm.Acceptable | src/components/auth/RegisterForm.tsx:23-47 | definition: the four checks passed; tied to the error record by RegisterForm.NoErrorsIffAcceptable |
| RegisterForm.WithField | src/components/auth/RegisterForm.tsx:73-76 | definition: `{ ...prev, [name]: value }`; used by RegisterForm.RegisterFormState.HandleChange |
| RegisterForm.SurrogatePairsCountTwice | src/components/auth/RegisterForm.tsx:38 | three characters outside the Basic Multilingual Plane pass the length check, three letters do not |
| Basics.FilterMultiset | src/components/cart/CartPage.tsx:40 | `filter` keeps each passing element as often as it occurs and drops every other |
| Text.Trim | src/components/auth/RegisterForm.tsx:26 | definition: `trim` over ASCII white space; specified by Text.TrimStartSpec, Text.TrimEndSpec and Text.BlankIffAllSpace |
| Text.TrimStartSpec | src/components/auth/RegisterForm.tsx:26 | the leading part removed is all white space, and what is kept does not start with white space |
| Text.TrimEndSpec | src/components/auth/RegisterForm.tsx:26 | the trailing part removed is all white space, and what is kept does not end with white space |
| Text.Contains | src/components/maintenance/MaintenancePage.tsx:130 | definition: `includes` as an occurrence at some position |
| Text.EmailPatternMatches | src/components/auth/RegisterForm.tsx:32 | definition: the unanchored search for `\S+@\S+\.\S+`; specified by Text.EmailPatternMeans |
| Text.Utf16Length | src/components/auth/RegisterForm.tsx:38 | `length` in UTF-16 code units: between the character count and twice it, zero only for the empty text |
| Text.Utf16LengthBmp | src/components/auth/RegisterForm.tsx:38 | on Basic Multilingual Plane text the UTF-16 length is the character count |
| Text.NatToString | src/components/maintenance/MaintenancePage.tsx:235 | `String(n)`: at least one decimal digit, no leading zero; specified by Text.NatToStringRoundTrip |

## Left out

- Auth.Session.Restore: a stored `auth_user` that parses but is not a user, such as a saved cart array, is treated like text that does not parse: both keys are cleared and the session is signed out. The source signs in with that value as the user; the model's session can only hold a user.
- JSON text is not modelled. A stored value is a decoded cart, a decoded user, or other text. A user key holding the JSON `null` is not modelled; the source would then sign in with no user.
- The alert `message` text is left out. It needs JavaScript's number-to-string formatting of a floating-point value.
- Monitoring.Readings: the reading keeps the value it was graded on. The rounding to two decimals is floating point.
- The trend and last-maintenance metadata of a reading are not modelled; they are random.
- `Math.random` is not modelled; drawn values and rolls are inputs.
- `Date.now` and `toISOString` are not modelled; they are inputs. `register` reads the clock twice, and the model takes two readings. Each `createdAt` and `updatedAt` pair shares one time stamp; the source takes two readings that can differ by a millisecond.
- `setTimeout` and `setInterval` are not modelled. The loading flags are modelled only at their start and end points.
- The `isLoading` flags of `login`, `register` and the two forms' submits are not modelled. Nothing reads them in between, in a model without concurrency.
- MaintenanceForm.FormEdit: `parseFloat` is modelled as an optional whole number, `None` for NaN. The value is not parsed from text.
- ProductDetail.QuantitySelector.Type: `parseInt` is modelled the same way.
- Text.Lower, Text.IsSpace and Text.Trim work on ASCII only. Text.Utf16Length counts code units as JavaScript does. Unicode case mapping and Unicode white space are not modelled.
- The `catch` branches of `login` and `register` are not modelled. They run only when `localStorage` throws, and the storage model never throws.
- RegisterForm.RegisterFormState.Submit: the two `general` errors are not modelled. Registration never fails in the model, so they are unreachable.
- Cart.CartPage.Load: an unreadable saved cart is reported as a `false` result. For text that is not JSON the source throws, uncaught, from the effect, so nothing is set. For a value that parses but is not a list, such as a saved user, the source sets it as the cart, ends loading, and then throws while rendering the totals; the model ends loading and keeps the old lines, since its cart can only hold lines.
- The admin-only display of the add, edit and delete buttons of the product page (src/components/products/ProductList.tsx:187 and 268) is rendering and is not modelled. The save and delete handlers do not check the role, and Products.ProductCatalog.SaveProduct and DeleteProduct take no viewer.
- The confirmation dialogs and the success alerts are not modelled; the dialog's answer is an input.
- Closing the views after a save or an add is not modelled.
- The show/hide and selection state of the pages is not modelled: form open, detail open, product or request being edited.
- The sample products and requests are a parameter of `Load`; their literal contents are not modelled.
- src/components/products/ProductForm.tsx, which builds the product form data, is not part of this model. `ProductFormData` lists the fields a save merges.
- Rendering, currency and date formatting, and the colour and label lookups are not modelled.

## Findings

| source | as written | input that shows it | evidently intended | confidence | as-written member | corrected member |
|---|---|---|---|---|---|---|
| src/components/monitoring/MonitoringPage.tsx:74 | `value < 80 ? 'warning' : value < 75 ? 'critical' : 'normal'` tests 80 first, so the critical branch is unreachable | a `maintenance` reading of 70 is graded `warning` | below 75 critical, below 80 warning, otherwise normal | not executed | Monitoring.MaintenanceNeverCritical | Monitoring.MaintenanceBands |
| src/components/maintenance/MaintenancePage.tsx:235 | a new request's id is numbered from `requests.length + 1`, which a deletion lowers | requests MR001 and MR002; delete MR001, then create: the new request gets MR002, which the remaining request already has | a new request gets an id no request has | not executed | Maintenance.CountIdBreaksDistinct | Maintenance.FreshIdKeepsIdsDistinct |

Maintenance.MaintenanceCatalog.SaveRequest keeps the numbering as written, since that is what the page does. Maintenance.FreshRequestId is the corrected numbering; it coincides with the written one whenever the count-based id is free.
