# EMOWEB in Dafny

EMOWEB has two parts, and this project models the core of each.

The first part is an emotion-tracking robot head, `src/proto/emoweb.py`:
- a pan/tilt rig sweeps the room until a camera finds a face;
- the detected face is validated and its position smoothed over five frames;
- the pose is corrected while the face stabilises, and the servos then lock;
- the face crop is classified, and a debouncer decides when the shown emotion changes.

The second part is the shop and account web application:
- the Express routes for authentication, the cart, orders, the account and user management;
- the React pages that call them: the cart and product panels, the admin product/order and user pages, and the profile and password forms.

## How the model is organised

Module by module:
- `PanTilt`, `FaceTracking` and `EmotionTracking` follow `emoweb.py`.
  - The rig's shared pose globals are a `Rig` class.
  - The tracking loop's state is a `Tracker` class, and one pass of the loop is `Tracker.Frame`.
  - The sweep thread's loop body is `Rig.ScanTick`.
  - The cascade detectors and the emotion classifier are abstract inputs: the box lists they found and the (index, confidence) reading they return.
  - The clock is a `now` parameter.
- `Auth` models the JWT middleware. Verifying a token is a parameter `verify`.
- `ShopTables` and `Users` hold the database tables, as classes (`Shop` and `UserTable`) whose fields the route methods update.
- `CartRoutes`, `OrderRoutes`, `AccountRoutes` and `AdminRoutes` model one handler per route. Each returns the HTTP status it answers with.
- `Pricing` holds the money rules that the server and the cart page share.
- The page modules are `CartView`, `QuantityStepper`, `OrderAdminView`, `AccountsView`, `Forms` and `PasswordForms`.
  - A page's state is a class.
  - The server's answer is the parameter `accepted`.
  - Requests a page sends are appended to a `sent` log.
- `Wrappers`, `Text` and `Seqs` hold the JavaScript meanings of `x || y`, truthiness, `toLowerCase`, `includes`, `trim`, `replace(/\D/g, "")`, `slice` and `filter`.

## Properties proved

Robot head:
- The sweep never takes pan or tilt out of range. Pan moves by exactly one step per pass between reversals.
- A validated face's smoothed centre stays inside the frame.
- The crop of a smoothed face is never empty, so the classifier always runs once the servos are locked.
- The servos lock exactly when the last frame comes more than 0.05 s after the first smoothed face. They never move once locked.
- The debouncer keeps an emotion until it has been seen three times. After that, one confident different reading replaces it.

Server:
- Each route's status is given as an exact condition, with its error paths.
- Adding to the cart changes the user's quantity of that product by exactly the added amount and nothing else.
- Update, delete and clear leave every other user's cart untouched.
- Checkout and order creation keep every order's fee, total and item subtotals consistent with the pricing rules.
- A user can only read their own orders.
- Usernames and emails stay unique across create and update.
- An admin can never delete or deactivate their own row; the super admin can.

Pages:
- The cart page shows the same subtotal, shipping and total that checkout records.
- The admin page's required-field check is exactly the server's.
- A password that the user's form accepts never fails the server's field checks.
- The search filters are idempotent and always find a row by its own number or name.

## Model

| member | source | states |
|---|---|---|
| Wrappers.OrEmpty | server/src/routes/cart.js:66 | `x \|\| ''`: the text when it is present and non-empty, otherwise the empty string |
| Wrappers.OrNull | server/src/routes/admin.js:91-102 | `x \|\| null`: a present non-empty text is kept, anything else becomes NULL |
| Wrappers.OrElse | server/src/routes/admin.js:103 | `x \|\| fallback`: the text when it is truthy, otherwise the fallback |
| Text.ToLower | src/backend/dashboards/admindash/components/AccountSettings.jsx:331 | the same length, with every character folded to lower case |
| Text.DigitsOnly | src/backend/dashboards/admindash/components/AccountSettings.jsx:285 | only digits remain, and each digit occurs exactly as often as in the input; with `DigitsOnlyAppend`, in their original order |
| Text.DigitsOnlyAppend | src/backend/dashboards/admindash/components/AccountSettings.jsx:285 | the digits of a concatenation are the digits of each part in turn, so the order of the digits is kept |
| Text.DigitsOnlyOfDigits | src/backend/dashboards/admindash/components/AccountSettings.jsx:285 | a string that is already all digits is unchanged |
| Text.Take | src/backend/dashboards/admindash/components/AccountSettings.jsx:291 | `slice(0, n)`: a prefix of length min(n, \|s\|) |
| Text.NatToString | src/backend/dashboards/admindash/components/ProductSettings.jsx:206 | a non-empty string of digits with no leading zero whose decimal value is the number |
| Text.NatToStringInjective | src/backend/dashboards/admindash/components/ProductSettings.jsx:206 | different numbers print as different strings |
| Seqs.Filter | src/backend/dashboards/userdash/components/Cart.jsx:73 | the kept elements all pass the predicate, every passing element is kept, and nothing is added (sub-multiset) |
| Seqs.FilterAll | src/backend/dashboards/admindash/components/ProductSettings.jsx:202-224 | filtering a list whose elements all pass returns the list unchanged |
| Seqs.FilterAppend | src/backend/dashboards/userdash/components/Cart.jsx:73 | filtering distributes over concatenation, so relative order is kept |
| PanTilt.Clamp | src/proto/emoweb.py:196-211 | the result lies in [lo, hi]; an in-range angle is kept; a low one becomes lo and a high one becomes hi |
| PanTilt.NextTilt | src/proto/emoweb.py:247-250 | the tilt steps by 5 or wraps to its minimum, and stays in range |
| PanTilt.Sweep | src/proto/emoweb.py:236-260 | pan stays in [0, 180]; away from a bound it moves exactly one 0.5° step; a bound is hit exactly when the step reaches it, and the direction then reverses; tilt changes only at a reversal |
| PanTilt.ReversalTag | src/proto/emoweb.py:241-255 | "A2" exactly when the step reaches the pan maximum, "A3" exactly when it reaches the minimum, nothing between bounds |
| PanTilt.SweepRightRun | src/proto/emoweb.py:227-270 | moving right below the maximum, k passes add exactly k steps and leave tilt alone |
| PanTilt.SweepLeftRun | src/proto/emoweb.py:227-270 | moving left above the minimum, k passes subtract exactly k steps |
| PanTilt.SweepsStayInRange | src/proto/emoweb.py:227-270 | any number of passes from an in-range pose stays in range |
| PanTilt.Rig.constructor | src/proto/emoweb.py:133-135 | start-up pose (90, 20), scanning, heading right |
| PanTilt.Rig.PanGoto | src/proto/emoweb.py:326-345 | both targets are clamped, stored as the pose and returned; scanning is untouched |
| PanTilt.Rig.ScanTick | src/proto/emoweb.py:236-270 | while scanning, the pose becomes `Sweep` of the old pose and the reversal tag is returned; otherwise nothing changes |
| FaceTracking.TruncDiv | src/proto/emoweb.py:403-406 | Python's `int(a / n)`: the quotient truncated toward zero |
| FaceTracking.FaceDetect | src/proto/emoweb.py:348-369 | the first box of the first detector that found any, in the order frontal, profile, alternate frontal; no face exactly when all three are empty |
| FaceTracking.FaceDetectFirstWins | src/proto/emoweb.py:348-369 | once the frontal detector finds a face, the later detectors cannot change the result |
| FaceTracking.ValidateFace | src/proto/emoweb.py:372-388 | a face that passes the size, margin and inside-the-image checks has its centre sample in the frame and at least the minimum size |
| FaceTracking.ValidFaceCentreInside | src/proto/emoweb.py:372-388 | a validated box's centre lies inside the image, at least half the minimum size from each edge |
| FaceTracking.PushSample | src/proto/emoweb.py:391-400 | a detection's centre is appended; the window never exceeds 5 and drops its oldest sample when full; no detection leaves it unchanged |
| FaceTracking.Smoothed | src/proto/emoweb.py:402-409 | an average is returned exactly when the window holds 5 samples |
| FaceTracking.AverageInFrame | src/proto/emoweb.py:402-409 | the truncated average of in-frame samples is in frame and at least 30×30 |
| FaceTracking.SmoothedSteadyFace | src/proto/emoweb.py:391-409 | a full window of one repeated sample smooths to that sample: a face that holds still is not moved by the averaging |
| FaceTracking.ShouldMoveServo | src/proto/emoweb.py:412-415 | the squared distance from the last centre exceeds 15 squared; a move needs some displacement |
| FaceTracking.ShouldMoveServoBounds | src/proto/emoweb.py:412-415 | more than 15 px along either axis always moves; a move needs more than 15 px in total; no displacement never moves |
| FaceTracking.GetServoOffset | src/proto/emoweb.py:214-222 | zero at the centre; positive exactly for a target before the centre and negative exactly for one after it |
| FaceTracking.ServoOffsetWithinHalfFov | src/proto/emoweb.py:214-222 | for a target inside the frame, the offset is at most half the field of view |
| EmotionTracking.Debounce | src/proto/emoweb.py:700-720 | a weak reading is ignored; a repeat adds one; a different emotion replaces the current one (with one repeat) exactly when the current one has 3 or more repeats |
| EmotionTracking.DebounceStreak | src/proto/emoweb.py:700-720 | while the accepted readings agree, the emotion stays and the repeats grow by the number of accepted readings |
| EmotionTracking.DebounceStuck | src/proto/emoweb.py:714-720 | below 3 repeats, other emotions can never take over |
| EmotionTracking.DebounceSwitch | src/proto/emoweb.py:714-720 | from 3 repeats, weak readings followed by one confident different reading switch the emotion |
| EmotionTracking.DebounceAllAppend | src/proto/emoweb.py:700-720 | running the debouncer over two runs of readings is running it over each in turn |
| EmotionTracking.FreshStartIgnoresOthers | src/proto/emoweb.py:592-594 | from the start state (Neutral, 0), readings that never confidently show Neutral change nothing |
| EmotionTracking.DebounceTakeOver | src/proto/emoweb.py:700-720 | once agreeing accepted readings bring the repeats to three, one confident reading of another emotion makes it current with one repeat |
| EmotionTracking.GateStep | src/proto/emoweb.py:655-682 | the timer starts once and is kept; a lock happens only after more than 0.05 s and is kept; the gate stays consistent |
| EmotionTracking.GateRunLocked | src/proto/emoweb.py:655-682 | with a running timer and a monotone clock, the gate is locked after a run exactly when it was locked before or the last frame is past the delay |
| EmotionTracking.GateFromIdle | src/proto/emoweb.py:655-682 | from no face, the servos are locked exactly when the last frame is more than 0.05 s after the first |
| EmotionTracking.CropOf | src/proto/emoweb.py:685-690 | the crop lies inside the frame and is no larger than the face |
| EmotionTracking.CropOfInFrame | src/proto/emoweb.py:685-697 | an in-frame smoothed face always gives a non-empty crop |
| EmotionTracking.Tracker.constructor | src/proto/emoweb.py:584-604 | an empty window, the last centre at the frame centre, Neutral, and the pose (90, 20) |
| EmotionTracking.Tracker.Smooth | src/proto/emoweb.py:645 | the window becomes `PushSample`, and the result is `Smoothed` of it |
| EmotionTracking.Tracker.LoseFace | src/proto/emoweb.py:723-738 | window, timer and flags are reset, the repeats are forgotten, the last emotion is kept and the sweep resumes |
| EmotionTracking.Tracker.Correct | src/proto/emoweb.py:661-677 | above the movement threshold the pose moves by the clamped field-of-view offsets and the new centre is remembered; otherwise nothing changes |
| EmotionTracking.Tracker.Classify | src/proto/emoweb.py:685-720 | the emotion state becomes `Debounce` of the old state and the reading |
| EmotionTracking.Tracker.Follow | src/proto/emoweb.py:650-722 | the gate steps; the debouncer runs exactly on frames past the delay; the pose never changes once locked |
| EmotionTracking.Tracker.Frame | src/proto/emoweb.py:636-738 | outside the search window nothing happens; a lost face resets the tracker and resumes the sweep; a valid face stops the sweep; the gate and the debouncer run only with a smoothed face; the pose moves only while stabilising |
| Auth.GetToken | server/src/middleware/auth.js:5-11 | a `Bearer ` header gives the rest of the header; otherwise the non-empty cookie token, or nothing |
| Auth.BearerWins | server/src/middleware/auth.js:5-11 | a bearer header wins over any cookie |
| Auth.NonBearerIgnored | server/src/middleware/auth.js:5-11 | a header that is not a bearer header is as good as no header |
| Auth.RequireAuth | server/src/middleware/auth.js:13-24 | passes exactly when a non-empty token verifies, with its payload as the user; any other case is 401 |
| Auth.IsAdmin | server/src/middleware/auth.js:54 | admin or super_admin role, or the super-admin flag; the flag alone is enough |
| Auth.IsSuperAdmin | server/src/middleware/auth.js:35 | the flag and the id "super-admin" together; such a payload also passes the admin test |
| Auth.RequireAdmin | server/src/middleware/auth.js:45-64 | passes exactly when authenticated and the role is admin or super_admin or the super-admin flag is set; 401 exactly when not authenticated, 403 otherwise |
| Auth.RequireSuperAdmin | server/src/middleware/auth.js:26-43 | passes exactly when authenticated with the flag set and the id "super-admin"; 401 or 403 otherwise |
| Auth.SuperAdminPassesAdmin | server/src/middleware/auth.js:26-64 | for the super admin, both guards give the same answer |
| Auth.PlainUserRefused | server/src/middleware/auth.js:26-64 | a verified plain user is refused with 403 by both guards |
| ShopTables.CartOf | server/src/routes/cart.js:159-162 | exactly the user's rows, in table order |
| ShopTables.CartOfOthers | server/src/routes/cart.js:135 | exactly the other users' rows, in table order |
| ShopTables.CartLines | server/src/routes/cart.js:170-174 | one priced line per cart row |
| ShopTables.ItemsOf | server/src/routes/orders.js:89-100 | exactly the items of one order, in table order |
| ShopTables.ItemsOfAppend | server/src/routes/orders.js:89-100 | the items of an order in two runs of rows are the items in each run |
| ShopTables.ItemsOfAll | server/src/routes/orders.js:89-100 | items all of one order are its whole item list |
| ShopTables.ItemsOfNone | server/src/routes/orders.js:89-100 | items of other orders contribute nothing |
| ShopTables.ItemsSubtotalAppend | server/src/routes/cart.js:192-200 | item subtotals add up over concatenation |
| ShopTables.ItemFor | server/src/routes/cart.js:193-198 | an item's subtotal is price times quantity |
| ShopTables.CartItems | server/src/routes/cart.js:192-200 | one order item per cart row, in order, each with its own subtotal |
| ShopTables.CartItemsSubtotal | server/src/routes/cart.js:170-200 | the stored item subtotals add up to the cart's subtotal |
| ShopTables.NewOrder | server/src/routes/cart.js:182-187 | a new order is pending, priced by the shipping rules for its subtotal, and has the address `\|\| ''` |
| ShopTables.PlaceOrderKeepsConsistent | server/src/routes/cart.js:182-200 | recording a priced order with matching items keeps every order's fee, total and item subtotals consistent |
| ShopTables.Shop.constructor | server/src/routes/cart.js:159-162 | empty tables, which are consistent |
| Pricing.Subtotal | server/src/routes/orders.js:137-141 | the sum of price times quantity over the lines; its properties are `SubtotalAppend`, `SubtotalNonNegative` and `SubtotalSwap` |
| Pricing.SubtotalAppend | server/src/routes/orders.js:137-141 | subtotals add up over concatenation |
| Pricing.SubtotalNonNegative | server/src/routes/orders.js:137-141 | non-negative prices and quantities give a non-negative subtotal |
| Pricing.SubtotalSwap | server/src/routes/orders.js:137-141 | the subtotal does not depend on the order of the lines |
| Pricing.ShippingFee | server/src/routes/orders.js:143-144 | free exactly from 100 on, otherwise 10 |
| Pricing.Total | server/src/routes/orders.js:145 | the subtotal plus the fee, never below the subtotal |
| Pricing.SumSubtotal | server/src/routes/orders.js:137-141 | the accumulating loop computes the subtotal |
| CartRoutes.FindCartRow | server/src/routes/cart.js:43-48 | the first row of the user for that product, and nothing exactly when there is none |
| CartRoutes.QuantityOfAppend | server/src/routes/cart.js:63-67 | appending a row adds its quantity to its own user and product only |
| CartRoutes.QuantityOfUpdate | server/src/routes/cart.js:50-55 | updating a row's quantity changes only its own user and product |
| CartRoutes.AddRows | server/src/routes/cart.js:43-74 | the user's existing row for the product keeps the cart's length, a new product appends exactly one row with the given fields, and rows for other users or products are untouched |
| CartRoutes.AddRowsQuantity | server/src/routes/cart.js:33-79 | an add grows the user's quantity of that product by exactly the added amount; every other quantity is unchanged |
| CartRoutes.AddRowsConsistent | server/src/routes/cart.js:33-79 | adding keeps ids unique and each product at most once per cart |
| CartRoutes.Add | server/src/routes/cart.js:33-79 | 400 with nothing changed for a missing field; otherwise the rows are merged or a row appended, with 200 and the merged row's id or 201 and the new id |
| CartRoutes.CountOwned | server/src/routes/cart.js:93-97 | zero exactly when no row has that id and owner |
| CartRoutes.SetQuantity | server/src/routes/cart.js:92-95 | exactly the rows with that id and owner get the new quantity |
| CartRoutes.SetQuantityLeavesOthers | server/src/routes/cart.js:92-95 | no other user's cart changes |
| CartRoutes.Update | server/src/routes/cart.js:82-106 | 400 for a missing or non-positive quantity; otherwise the quantity is set, with 404 exactly when no row matched |
| CartRoutes.RemoveOwned | server/src/routes/cart.js:114-117 | exactly the rows with that id and owner are removed |
| CartRoutes.RemoveOwnedCount | server/src/routes/cart.js:114-121 | a delete removes exactly as many rows as it reports affected |
| CartRoutes.RemoveOwnedLeavesOthers | server/src/routes/cart.js:114-117 | no other user's cart changes |
| CartRoutes.CartOfAppend | server/src/routes/cart.js:159-162 | a user's rows in two runs are their rows in each run |
| CartRoutes.RemoveOwnedConsistent | server/src/routes/cart.js:114-117 | removing rows keeps the cart consistent |
| CartRoutes.Delete | server/src/routes/cart.js:109-128 | the owned row is removed, with 404 exactly when none matched |
| CartRoutes.CartOfOthersConsistent | server/src/routes/cart.js:135 | clearing keeps the cart consistent |
| CartRoutes.ClearOnlyOwnCart | server/src/routes/cart.js:131-142 | the user's cart becomes empty and every other cart is unchanged |
| CartRoutes.Clear | server/src/routes/cart.js:131-142 | 200; only the user's rows are removed |
| CartRoutes.WriteItems | server/src/routes/cart.js:192-200 | the item loop appends exactly `CartItems` of the rows |
| CartRoutes.Checkout | server/src/routes/cart.js:145-224 | 201 exactly with a payment method and a non-empty cart: one priced pending order, its items, and the user's cart emptied; otherwise 400 and nothing changes |
| OrderRoutes.GetOrder | server/src/routes/orders.js:60-112 | found exactly when the order exists and belongs to the user, with its items |
| OrderRoutes.GetOrderOwnerOnly | server/src/routes/orders.js:60-112 | the owner sees the order and anyone else gets 404 |
| OrderRoutes.ListOrders | server/src/routes/orders.js:7-57 | exactly the user's orders, each with its items |
| OrderRoutes.ListAgreesWithGet | server/src/routes/orders.js:7-112 | an order is listed exactly when it can be read, and with the same contents |
| OrderRoutes.RequestLines | server/src/routes/orders.js:137-141 | one priced line per request item |
| OrderRoutes.RequestOrderItems | server/src/routes/orders.js:158-166 | one order item per request item, with the image `\|\| ''` |
| OrderRoutes.RequestItemsSubtotal | server/src/routes/orders.js:137-166 | the stored item subtotals add up to the order's subtotal |
| OrderRoutes.WriteRequestItems | server/src/routes/orders.js:158-166 | the item loop appends exactly `RequestOrderItems` |
| OrderRoutes.Create | server/src/routes/orders.js:115-187 | 201 exactly with a non-empty item list and a payment method: one priced pending order and its items, with the cart untouched; otherwise 400 and nothing changes |
| Users.UserTable.constructor | server/src/routes/admin.js:72-105 | empty tables, ids from 1 |
| AdminRoutes.AddressOrNull | server/src/routes/admin.js:96-102 | each of the seven address columns keeps a present non-empty text and is NULL otherwise |
| AdminRoutes.MissingRequired | server/src/routes/admin.js:28 | first name, last name, username, email or password missing or empty; when none is, the username, email and password are present |
| AdminRoutes.CreatedRow | server/src/routes/admin.js:72-105 | the new row is active and not deactivated, and its role is an allowed one, "user" by default |
| AdminRoutes.CreateUser | server/src/routes/admin.js:8-119 | 201 exactly when the required fields are present, the role is allowed and the username and email are free; the row goes in under the next id, and uniqueness is kept |
| AdminRoutes.EditedRow | server/src/routes/admin.js:303-335 | the sent names, username, email, contact number and role are stored as sent; the middle initial and the other address columns `\|\| null`; the password and status are kept |
| AdminRoutes.UpdateUser | server/src/routes/admin.js:238-372 | 200 exactly for an allowed role, an existing id and a username and email no other user holds; 404 exactly for an unknown id; uniqueness is kept |
| AdminRoutes.ActorId | server/src/routes/admin.js:378 | the super admin acts as "super-admin", anyone else as their token's id |
| AdminRoutes.SelfGuardCases | server/src/routes/admin.js:392 | only a plain admin is stopped, and exactly on their own row |
| AdminRoutes.DeleteUser | server/src/routes/admin.js:375-458 | 200 exactly for an existing row that is not the actor's own; the row is copied to deleted_users with who deleted it, then removed |
| AdminRoutes.Toggled | server/src/routes/admin.js:483-486 | the active flag is negated and every other column kept |
| AdminRoutes.ToggleStatus | server/src/routes/admin.js:461-500 | 200 exactly for an existing row that is not the actor's own; the row becomes `Toggled` and its new flag is returned; the request body is never read |
| AccountRoutes.RowId | server/src/routes/account.js:33-39 | the token's id names a row exactly when it is a numeric id present in users |
| AccountRoutes.PasswordChangeError | server/src/routes/account.js:9-46 | the guards in order: 401 without an id, 403 for the super admin, 400 for missing passwords or a new one shorter than 6, 404 for no row, 401 for a wrong password; it passes exactly when all of them do |
| AccountRoutes.WrongPasswordRefused | server/src/routes/account.js:42-46 | a wrong old password is always refused with 401 |
| AccountRoutes.ChangePassword | server/src/routes/account.js:8-62 | an error leaves the table unchanged; success stores the new hash in the user's row only |
| AccountRoutes.PeriodRefused | server/src/routes/account.js:80 | a missing period or one outside 1 to 14 days; a period that passes is a positive number of days |
| AccountRoutes.Deactivate | server/src/routes/account.js:65-109 | 200 exactly for a signed-in user other than the super admin asking for 1 to 14 days; their row, if any, becomes inactive until today plus the days, which is returned |
| CartView.WithQuantity | src/backend/dashboards/userdash/components/Cart.jsx:52-56 | the items with that id get the new quantity; every other item is unchanged |
| CartView.Without | src/backend/dashboards/userdash/components/Cart.jsx:73 | exactly the items with other ids, in order |
| CartView.WithoutAbsent | src/backend/dashboards/userdash/components/Cart.jsx:73 | removing an absent id changes nothing |
| CartView.WithoutAppend | src/backend/dashboards/userdash/components/Cart.jsx:73 | removal distributes over concatenation |
| CartView.ItemLines | src/backend/dashboards/userdash/components/Cart.jsx:116-118 | one priced line per item |
| CartView.ReduceSubtotal | src/backend/dashboards/userdash/components/Cart.jsx:116-118 | the left fold of price times quantity; `ReduceSubtotalIsSubtotal` proves it equal to the server's subtotal |
| CartView.ReduceSubtotalIsSubtotal | src/backend/dashboards/userdash/components/Cart.jsx:116-118 | the page's left fold equals the server's subtotal |
| CartView.ShownShipping | src/backend/dashboards/userdash/components/Cart.jsx:120-123 | free exactly from 100 on, otherwise 10 |
| CartView.ShownTotal | src/backend/dashboards/userdash/components/Cart.jsx:125-127 | the subtotal plus the shown shipping |
| CartView.ItemsOfRows | server/src/routes/cart.js:7-30 | one listed item per cart row |
| CartView.ShownTotalsMatchCheckout | src/backend/dashboards/userdash/components/Cart.jsx:116-127 | the page's subtotal, shipping and total equal those checkout records for the same rows |
| CartView.ButtonsKeepQuantitiesPositive | src/backend/dashboards/userdash/components/Cart.jsx:197-198 | the enabled buttons only send quantities that keep every item at 1 or more |
| CartView.CartPage.constructor | src/backend/dashboards/userdash/components/Cart.jsx:36-60 | the list starts as loaded |
| CartView.CartPage.UpdateQuantity | src/backend/dashboards/userdash/components/Cart.jsx:36-60 | on success only the matching items' quantity changes; otherwise nothing changes |
| CartView.CartPage.RemoveItem | src/backend/dashboards/userdash/components/Cart.jsx:62-77 | on success the items with that id are gone; otherwise nothing changes |
| CartView.CartPage.Checkout | src/backend/dashboards/userdash/components/Cart.jsx:79-110 | a placed order empties the list; a refused one keeps it |
| QuantityStepper.Stepped | src/main/products/OrderPanel.jsx:8-13 | the change is applied exactly when the result is at least 1 |
| QuantityStepper.DisabledIffIgnored | src/main/products/CartPanel.jsx:7-46 | the decrement button is disabled exactly when a decrement would be ignored |
| QuantityStepper.TotalPrice | src/main/products/OrderPanel.jsx:26 | a non-negative unit price times a quantity of at least 1 is at least the unit price |
| QuantityStepper.Stepper.constructor | src/main/products/CartPanel.jsx:5 | the quantity starts at 1 |
| QuantityStepper.Stepper.Change | src/main/products/CartPanel.jsx:7-12 | the quantity becomes `Stepped` and stays at 1 or more |
| OrderAdminView.Decide | src/backend/dashboards/admindash/components/ProductSettings.jsx:306-332 | refused exactly when going from shipped or delivered back to pending or processing; a confirmation exactly for shipped or delivered; otherwise sent |
| OrderAdminView.FilterOrders | src/backend/dashboards/admindash/components/ProductSettings.jsx:215-224 | a blank search keeps the list; otherwise exactly the matching orders, a sub-multiset |
| OrderAdminView.FilterUsers | src/backend/dashboards/admindash/components/ProductSettings.jsx:202-213 | a blank search keeps the list; otherwise exactly the matching users, a sub-multiset |
| OrderAdminView.FilterOrdersIdempotent | src/backend/dashboards/admindash/components/ProductSettings.jsx:215-224 | searching the result again changes nothing |
| OrderAdminView.FilterUsersIdempotent | src/backend/dashboards/admindash/components/ProductSettings.jsx:202-213 | searching the result again changes nothing |
| OrderAdminView.IncludesSelf | src/backend/dashboards/admindash/components/ProductSettings.jsx:218 | every string includes itself |
| OrderAdminView.OrderNumberFindsOrder | src/backend/dashboards/admindash/components/ProductSettings.jsx:215-224 | searching for an order's own number finds it |
| OrderAdminView.UsernameFindsUser | src/backend/dashboards/admindash/components/ProductSettings.jsx:202-213 | searching for a user's own username finds them |
| OrderAdminView.EditedDescription | src/backend/dashboards/admindash/components/ProductSettings.jsx:987-992 | an edit is taken exactly when it is at most 150 characters; a description never grows past 150 |
| OrderAdminView.SettingsPage.constructor | src/backend/dashboards/admindash/components/ProductSettings.jsx:306-332 | no dialog, no notification, nothing sent |
| OrderAdminView.StatusAnswer | src/backend/dashboards/admindash/components/ProductSettings.jsx:334-358 | the failure message exactly for a refusal, the stock message exactly for an accepted update that decremented stock, and "Order status updated" otherwise |
| OrderAdminView.SettingsPage.UpdateOrderStatus | src/backend/dashboards/admindash/components/ProductSettings.jsx:306-358 | a refusal shows the error; shipped or delivered opens the dialog; anything else is sent and the server's answer sets the `StatusAnswer` notification |
| OrderAdminView.SettingsPage.ConfirmStatusChange | src/backend/dashboards/admindash/components/ProductSettings.jsx:360-369 | the waiting change is sent, the server's answer sets the `StatusAnswer` notification, and the dialog closes |
| OrderAdminView.SettingsPage.CancelStatusChange | src/backend/dashboards/admindash/components/ProductSettings.jsx:371-373 | the dialog closes and nothing is sent |
| OrderAdminView.SettingsPage.TypeDescription | src/backend/dashboards/admindash/components/ProductSettings.jsx:987-992 | the description becomes `EditedDescription` |
| Forms.CodeMaxLength | src/backend/dashboards/admindash/components/AccountSettings.jsx:38-55 | a length exactly for the 15 listed codes, between 9 and 11 |
| Forms.MaxLength | src/backend/dashboards/admindash/components/AccountSettings.jsx:286-288 | at most 15, and exactly 15 for a missing or unlisted code |
| Forms.SanitizeContact | src/backend/dashboards/admindash/components/AccountSettings.jsx:282-297 | only digits, at most the country's length, a prefix of the digits typed, and all of them when they fit |
| Forms.SanitizeIdempotent | src/backend/dashboards/admindash/components/AdminProfileSettings.jsx:164-184 | sanitising a sanitised number changes nothing |
| Forms.SanitizeKeepsValidNumber | src/backend/dashboards/userdash/components/ProfileSettings.jsx:111-131 | digits of an allowed length are kept exactly |
| Forms.Changed | src/backend/dashboards/userdash/components/ProfileSettings.jsx:111-131 | only the named field changes; a contact number is sanitised |
| Forms.FormData.constructor | src/backend/dashboards/userdash/components/ProfileSettings.jsx:111-131 | the form starts with the given fields |
| Forms.FormData.Change | src/backend/dashboards/admindash/components/AdminProfileSettings.jsx:164-184 | the form becomes `Changed` |
| Forms.FormData.SelectRole | src/backend/dashboards/admindash/components/AccountSettings.jsx:299-301 | a cleared role select means "user" |
| Forms.FormData.SelectCountryCode | src/backend/dashboards/userdash/components/ProfileSettings.jsx:140-145 | a cleared country code means "+63" |
| Forms.FormData.SelectRegion | src/backend/dashboards/admindash/components/AdminProfileSettings.jsx:186-191 | a cleared region means "" |
| Forms.FormData.Clear | src/backend/dashboards/userdash/components/ProfileSettings.jsx:532-543 | every field is empty except the country code "+63", and the picture field is dropped |
| Forms.CheckImage | src/backend/dashboards/userdash/components/ProfileSettings.jsx:147-177 | accepted exactly when at most 1 MiB, of an allowed type and at most 3000×3000; the size is checked first, then the type |
| Forms.ImagePicker.constructor | src/backend/dashboards/admindash/components/AdminProfileSettings.jsx:200-230 | no image and no message |
| Forms.ImagePicker.Choose | src/backend/dashboards/admindash/components/AdminProfileSettings.jsx:200-230 | a refused file only sets its message; an accepted one replaces the image and clears the message |
| AccountsView.TabUsers | src/backend/dashboards/admindash/components/AccountSettings.jsx:318-328 | active, deactivated or deleted users according to the tab |
| AccountsView.FilteredUsers | src/backend/dashboards/admindash/components/AccountSettings.jsx:318-340 | the tab's users, narrowed by a non-blank search to exactly the matching ones |
| AccountsView.TabsPartitionUsers | src/backend/dashboards/admindash/components/AccountSettings.jsx:318-340 | a live user matching the search is in exactly one of the active and deactivated tabs |
| AccountsView.RequiredFilledMatchesServer | src/backend/dashboards/admindash/components/AccountSettings.jsx:252-280 | the page's required-field check holds exactly when the server's check passes on the body sent |
| AccountsView.NextStatus | src/backend/dashboards/admindash/components/AccountSettings.jsx:213 | 0 exactly for an active user, otherwise 1 |
| AccountsView.StoredFlag | src/backend/dashboards/admindash/components/AccountSettings.jsx:80 | `is_active` as the page receives it: 1 exactly for an active user, 0 otherwise |
| AccountsView.NextStatusIsToggle | src/backend/dashboards/admindash/components/AccountSettings.jsx:199-213 | for a listed user whose flag is the stored row's, the status the button asks for is the flag `PUT /users/:id/status` stores (`AdminRoutes.Toggled`) |
| AccountsView.AccountsPage.constructor | src/backend/dashboards/admindash/components/AccountSettings.jsx:8-11 | the dialog closed, no notification, nothing sent |
| AccountsView.AccountsPage.OpenAddModal | src/backend/dashboards/admindash/components/AccountSettings.jsx:232-250 | the form is reset to a blank user with country code +63 and role "user", and the dialog opens |
| AccountsView.BlankNewUserRefused | src/backend/dashboards/admindash/components/AccountSettings.jsx:232-258 | the blank form fails the required-field check, so saving it at once sends nothing |
| AccountsView.AccountsPage.SaveNewUser | src/backend/dashboards/admindash/components/AccountSettings.jsx:252-280 | without every required field an error is shown and nothing sent; otherwise the form is sent, an acceptance shows the success message and closes the dialog, and a refusal shows the server's message or "Failed to create user" |
| PasswordForms.NewPasswordError | src/backend/dashboards/admindash/components/AdminProfileSettings.jsx:361-367 | no error exactly when the new password is given, at least 6 long and different from the current one |
| PasswordForms.ConfirmError | src/backend/dashboards/admindash/components/AdminProfileSettings.jsx:368-372 | no error exactly when the confirmation is given and equals the new password |
| PasswordForms.PasswordErrors | src/backend/dashboards/admindash/components/AdminProfileSettings.jsx:356-372 | one non-empty error for each field that fails its check, and no others |
| PasswordForms.NoErrorsMeansValid | src/backend/dashboards/admindash/components/AdminProfileSettings.jsx:356-377 | the form is sent exactly when all fields are filled, the new password is long enough and different, and it is confirmed |
| PasswordForms.AdminPasswordForm.constructor | src/backend/dashboards/admindash/components/AdminProfileSettings.jsx:27-37 | empty fields, no errors, the form closed |
| PasswordForms.AdminPasswordForm.Toggle | src/backend/dashboards/admindash/components/AdminProfileSettings.jsx:458 | the form is shown or hidden, and nothing else changes |
| PasswordForms.AdminPasswordForm.Type | src/backend/dashboards/admindash/components/AdminProfileSettings.jsx:338-352 | the field takes the value, and only that field's error is cleared |
| PasswordForms.AdminPasswordForm.Submit | src/backend/dashboards/admindash/components/AdminProfileSettings.jsx:354-420 | errors are shown and nothing is sent; or the change is sent, and success clears the fields and closes the form; a refusal about the current password goes under that field |
| PasswordForms.UserPasswordError | src/backend/dashboards/userdash/components/AccountSettings.jsx:58-75 | the three checks in order: all filled, matching, at least 6 long |
| PasswordForms.UserFormPassesServerChecks | src/backend/dashboards/userdash/components/AccountSettings.jsx:58-82 | a request the form lets through never gets the server's 400 |
| PasswordForms.UserPasswordForm.constructor | src/backend/dashboards/userdash/components/AccountSettings.jsx:45-51 | empty fields, no message |
| PasswordForms.UserPasswordForm.Submit | src/backend/dashboards/userdash/components/AccountSettings.jsx:53-107 | a failed check shows its message and sends nothing; success shows the confirmation and empties the fields; a refusal shows the server's error or a generic one |

## Left out

- Threads and sleeps: the sweep thread and the tracking loop are modelled as single steps (`Rig.ScanTick`, `Tracker.Frame`). Their interleaving on the shared pose is not modelled.
- Camera, OpenCV and TFLite are not modelled. Detection and classification are inputs. The video stream, frame broadcast, window drawing and FPS counter are out.
- GPIO LEDs, the OLED/Arduino animation controller, music and the Flask/SocketIO broadcasts are output only and not modelled.
- `angle_to_pulse` and the pigpio pulse widths are not modelled. `set_servo_angle` is modelled by its clamp only.
- Floating point: angles, money and confidences are Dafny `real`, with no IEEE rounding.
- `sqrt` in `should_move_servo` is replaced by a squared comparison. This is the same test for a non-negative distance.
- EmotionTracking.Tracker.Frame: one clock reading per frame. The source reads the clock several times in one frame.
- `timer_face` and the camera size are configuration values defined outside the file. They are constructor parameters.
- SQL, transactions and connection handling are not modelled. A table is a sequence or map, and an `UPDATE`/`DELETE` is a function over the matching rows.
- Status 500 error paths are not modelled.
- The auto-increment ids come from counters, whatever the database would actually assign.
- bcrypt and JWT are not modelled. Comparing and hashing a password, and verifying a token, are parameters.
- The order number's timestamp and random part are a parameter.
- The `ORDER BY ... DESC` orderings of the GET routes are not modelled.
  - `GET /api/cart` is `CartOf` in table order.
  - `ListOrders` is a map keyed by order id.
- `GET /users`, `GET /users/deleted` and `GET /users/:id` of server/src/routes/admin.js are not modelled. They only read, and the user search over their result is modelled as `AccountsView.FilteredUsers`.
- Deactivate: `deactivated_until` is a day number (`today + days`), not a date-time.
- The clearing of the login cookie after deactivation is not modelled.
- `fetch` and JSX rendering are not modelled.
  - A page's requests are a log.
  - The server's answer is a boolean, or the error text it returns.
  - Network failures (the `catch` branches) count as a refusal without an error text; their own "Network error" messages are not modelled.
- The admin profile page sends its password change to `/api/auth/change-password`. server/src/routes/auth.js is not part of this model, so only the form's side is modelled.
- Text: `toLowerCase` folds ASCII letters only, and no Unicode normalisation is done.
- MySQL's case-insensitive collation is not modelled. Uniqueness of usernames and emails is exact string equality.
- CartRoutes.FindCartRow: matches `product_name` by exact string equality, where `WHERE product_name = ?` compares under the column's collation. Names differing only in case are merged by the database but not by the model.
- AccountsView.ListedUser: the username is always a string. The page calls `toLowerCase()` on it unguarded, so a user without a username makes the real search throw; the model does not capture that crash.
- The add-user dialog's cancel button and the loading of the user lists on the admin users page are not modelled.
- `countryCodes.find` is a fixed lookup (`Forms.CodeMaxLength`) of the fifteen codes the pages list. The United States and Canada share +1, and both allow 10 digits.
- `EmotionTracking.Debounce` follows the code. A different emotion seen before the current one has three repeats is ignored: it does not reset the counter.
- `OrderAdminView.UserMatches` follows the template literal. A user with a missing first or last name has the text "null" in the full name, so a search for "null" finds them.
- The product editing, product image upload and profile save requests of the pages are not modelled. They are forwarded to routes outside this model.
