# Pet-Mart in Dafny

A Dafny model of the core of Pet-Mart, a pet shop with a Spring backend and a React front end. The model covers these parts.

- **The session shopping cart.** `CartInfo` holds the cart. `CartService` binds a cart to each HTTP session and keeps a durable copy per user.
- **The REST cart endpoints.** These are in `CartController`.
- **The server-rendered shop and its checkout.** These are in `MainController`, with `OrderDAO` storing orders.
- **Product storage.** `ProductDAO` stores products, with the admin product form of `AdminController`.
- **Random product codes and upload file names.** These come from `ApiController` and `AdminController`.
- **Reservations.** This covers the `Reservation` entity, `ReservationService`, the admin `ReservationController` and the customer's own reservation endpoints in `ApiController`.
- **The public product lookup.** This is in `RestApiController`.
- **The contact endpoint.** This is in `ContactController`.
- **The validators and filters of the React pages.** These are on the sign-up, sign-in, contact, pet-finder and admin-dashboard pages.

The modelling follows the form of the source.
- Objects whose fields change are classes. Examples are the cart, the session, the repositories, the controllers and the React components' state.
- The methods of those classes are proved against value-level functions. For example, `CartLines.AfterAdd` is the specification of `CartInfo.addProduct`.
- The lemmas about those functions state what the operations mean. Examples:
  - the quantity held per product code;
  - that every other line is untouched;
  - the totals;
  - the order of the pet list;
  - which rows a clear removes;
  - when a sign-up becomes an admin.
- Values the program gets from outside are parameters:
  - clock readings, random draws and the result of a file copy or a database save;
  - the answer of the login service and the browser's email check.
- Prices are integers (see "Left out").

Some behaviours of the program are stated as lemmas because they are easy to miss.
- The sign-up page trims the admin secret key before comparing it, and the server does not. A key with a leading space passes the page, and the server then registers an ordinary user (`RegisterPage.PaddedKeyRegistersUser`).
- The contact page lets a whitespace-only name through, and the endpoint refuses it (`ContactPage.BlankNamePassesPage`).
- The server-rendered checkout numbers its order with the cart's own `orderNum`. Two carts that nobody numbered both store order 0 (`Shop.UnnumberedCheckoutsCollide`).
- The admin dashboard counts only lower-case statuses. Pets stored as "AVAILABLE" are in no counter (`AdminPage.CapitalStatusesNotCounted`).

## Model

| member | source | states |
|---|---|---|
| CartLines.IndexOf | src/main/java/com/example/demo/model/CartInfo.java:63-70 | the index found is a line for the code and the first one, or -1 when no line has the code |
| CartLines.LookupAtIndex | src/main/java/com/example/demo/model/CartInfo.java:63-70 | the quantity held for a code is that of the line findLineByCode finds, and none when it finds none |
| CartLines.AddProductEffect | src/main/java/com/example/demo/model/CartInfo.java:72-99 | addProduct: a new code gets exactly the given quantity; a present code gets the delta and loses its line at <= 0; codes stay unique and every other code's quantity is unchanged |
| CartLines.UpdateProductEffect | src/main/java/com/example/demo/model/CartInfo.java:105-115 | updateProduct: an absent code changes nothing; <= 0 removes the line; otherwise the quantity is set; other codes unchanged |
| CartLines.RemoveProductEffect | src/main/java/com/example/demo/model/CartInfo.java:117-122 | removeProduct: a missing code changes nothing, a present code loses exactly its line, others are unchanged, and removing twice equals removing once |
| CartLines.ServiceAddEffect | src/main/java/com/example/demo/service/CartService.java:125-149 | the service add appends or adds the delta whatever its sign, never removes a line and keeps the others |
| CartLines.AddVariantsAgree | src/main/java/com/example/demo/service/CartService.java:125-149 | the service add and CartInfo.addProduct give the same lines unless the new quantity would be <= 0 |
| CartLines.ApplyFormConcat | src/main/java/com/example/demo/model/CartInfo.java:148-159 | applying the form lines in two parts is applying them all, in order |
| CartLines.ApplyFormSkipsInactionable | src/main/java/com/example/demo/model/CartInfo.java:148-159 | null form lines and lines without a product have no effect |
| CartLines.ApplyFormEffect | src/main/java/com/example/demo/model/CartInfo.java:148-159 | updateQuantity keeps one line per code and leaves every code the form does not mention as it was |
| CartLines.ServiceAddTotals | src/main/java/com/example/demo/service/CartService.java:191-202 | after a service add the quantity total moves by exactly the delta and the amount total by delta times the line's price |
| CartLines.RemoveTotals | src/main/java/com/example/demo/service/CartService.java:165-182 | removing a line takes exactly its quantity and its amount off the totals |
| CartLines.LookupWithout | src/main/java/com/example/demo/model/CartInfo.java:117-122 | dropping the lines of one code does not change what any other code holds |
| Cart.CartInfo.constructor | src/main/java/com/example/demo/model/CartInfo.java:19-21 | a new cart is the empty cart: no lines, order number 0, no customer, zero totals |
| Cart.CartInfo.FromData | src/main/java/com/example/demo/service/CartService.java:67-83 | a cart read back from its stored form holds exactly that data |
| Cart.CartInfo.FindLineByCode | src/main/java/com/example/demo/model/CartInfo.java:63-70 | the loop returns the first line for the code, and a non-negative index exactly when some line has it |
| Cart.CartInfo.AddProduct | src/main/java/com/example/demo/model/CartInfo.java:72-99 | the lines become AfterAdd of the old lines and nothing else changes |
| Cart.CartInfo.UpdateProduct | src/main/java/com/example/demo/model/CartInfo.java:105-115 | the lines become AfterUpdate of the old lines |
| Cart.CartInfo.RemoveProduct | src/main/java/com/example/demo/model/CartInfo.java:117-122 | the lines become AfterRemove of the old lines |
| Cart.CartInfo.IsEmpty | src/main/java/com/example/demo/model/CartInfo.java:124-126 | the cart is empty exactly when it holds no product code |
| Cart.CartInfo.IsValidCustomer | src/main/java/com/example/demo/model/CartInfo.java:128-130 | a valid customer is present and marked valid; with no customer the cart is never valid |
| Cart.CartInfo.GetQuantityTotal | src/main/java/com/example/demo/model/CartInfo.java:132-138 | the loop's sum is the total quantity of the lines |
| Cart.CartInfo.GetAmountTotal | src/main/java/com/example/demo/model/CartInfo.java:140-146 | the loop's sum is the total amount of the lines |
| Cart.CartInfo.UpdateQuantity | src/main/java/com/example/demo/model/CartInfo.java:148-159 | each usable form line is applied as updateProduct, in order; a null form changes nothing |
| CartSessions.LoadCart | src/main/java/com/example/demo/service/CartService.java:67-83 | the stored cart is found exactly when the user has a row whose data deserialises |
| CartSessions.WithLines | src/main/java/com/example/demo/service/CartService.java:191-202 | after an edit the stored totals equal the totals of the new lines; the order number and customer are kept |
| CartSessions.CartService.GetCartInSession | src/main/java/com/example/demo/service/CartService.java:42-60 | get-or-create: a bound cart is returned unchanged; otherwise the restored or empty cart is bound as a new object |
| CartSessions.CartService.SaveCartToPersistentStorage | src/main/java/com/example/demo/service/CartService.java:85-97 | a successful save upserts the user's row with the cart's data; a failure changes nothing |
| CartSessions.CartService.RemoveCartInSession | src/main/java/com/example/demo/service/CartService.java:102-109 | the user's durable row is deleted and the session cart unbound, so the next cart is empty |
| CartSessions.CartService.StoreLastOrderedCartInSession | src/main/java/com/example/demo/service/CartService.java:114-116 | the cart becomes the session's last ordered cart |
| CartSessions.CartService.UpdateCartTotals | src/main/java/com/example/demo/service/CartService.java:191-202 | both stored totals are recomputed from the lines |
| CartSessions.CartService.FindLine | src/main/java/com/example/demo/service/CartService.java:184-189 | the first line for the code, or -1 exactly when none has it |
| CartSessions.CartService.AddProductToCart | src/main/java/com/example/demo/service/CartService.java:125-149 | an unknown code fails with nothing changed; otherwise the line gets the delta, the totals are refreshed and a session with a user saves its durable copy |
| CartSessions.CartService.AddToLines | src/main/java/com/example/demo/service/CartService.java:130-142 | a code with no line gets a new line with the quantity appended, an existing line gets the quantity added; the totals then match the new lines |
| CartSessions.CartService.UpdateProductQuantity | src/main/java/com/example/demo/service/CartService.java:151-163 | the session cart's lines become AfterUpdate, the totals are refreshed and the durable copy is untouched |
| CartSessions.CartService.RemoveProduct | src/main/java/com/example/demo/service/CartService.java:165-182 | a null or blank code fails first, then a code without a line; otherwise the line is removed and the totals refreshed |
| CartEndpoints.CartController.GetCart | src/main/java/com/example/demo/controller/CartController.java:26-37 | answers 200 with the session cart, created if need be |
| CartEndpoints.CartController.AddToCart | src/main/java/com/example/demo/controller/CartController.java:40-57 | a missing quantity or code, or an unknown product, answers 500 with the session as it was; otherwise the service add happens, the cart is returned, and only the session user's durable copy is rewritten, when the save succeeds |
| CartEndpoints.CartController.UpdateCart | src/main/java/com/example/demo/controller/CartController.java:60-77 | a missing quantity answers 500 untouched; otherwise the quantity update is applied |
| CartEndpoints.CartController.RemoveFromCart | src/main/java/com/example/demo/controller/CartController.java:80-111 | a blank code is a 400, an empty cart a 400 "Cart is empty", a code not in the cart a 500 with the cart unchanged; otherwise the line is removed |
| CartEndpoints.CartController.ClearCart | src/main/java/com/example/demo/controller/CartController.java:114-125 | the session cart is unbound and the next one is empty; only the session user's durable copy is deleted, every other user's stays |
| CartEndpoints.CartController.Checkout | src/main/java/com/example/demo/controller/CartController.java:128-146 | a cart without lines answers 400 and stays; otherwise the cart is cleared and no order is recorded |
| Orders.DetailOf | src/main/java/com/example/demo/dao/OrderDAO.java:54-63 | a detail copies the line's code, name, price and quantity, and its amount is price times quantity |
| Orders.DetailsOf | src/main/java/com/example/demo/dao/OrderDAO.java:51-64 | one detail per cart line, in line order |
| Orders.DetailsAmountIsTotal | src/main/java/com/example/demo/dao/OrderDAO.java:43-64 | the details' amounts add up to the cart's amount total, which becomes the order amount |
| Orders.SnapshotLines | src/main/java/com/example/demo/dao/OrderDAO.java:51-64 | the loop builds exactly the details of the cart lines |
| Orders.MaxOrderNum | src/main/java/com/example/demo/dao/OrderDAO.java:26-34 | the largest order number, attained by some order, or 0 when there are none |
| Orders.UniqueOrderNums | src/main/java/com/example/demo/dao/OrderDAO.java:37-41 | the invariant that no two orders share a number (a predicate; kept by NextOrderNumFresh and SaveOrder) |
| Orders.NextOrderNumFresh | src/main/java/com/example/demo/dao/OrderDAO.java:37-41 | max + 1 exceeds every existing number, so order numbers stay unique |
| Orders.OrderFrom | src/main/java/com/example/demo/dao/OrderDAO.java:37-64 | the order carries the number, the date, the cart's amount total, the customer fields and the line snapshot |
| Orders.OrderDAO.SaveOrder | src/main/java/com/example/demo/dao/OrderDAO.java:37-71 | no customer fails before persisting; a failed persist rolls back; a stored order has a fresh number, which is stamped on the cart, and numbers stay unique |
| ProductStore.FindProduct | src/main/java/com/example/demo/dao/ProductDAO.java:33-42 | the product with this code, or None exactly when no product has it |
| ProductStore.FindProductInfo | src/main/java/com/example/demo/dao/ProductDAO.java:44-47 | the summary of the product with this code, or None exactly when none has it |
| ProductStore.ReferenceCount | src/main/java/com/example/demo/dao/ProductDAO.java:110-117 | positive exactly when some order detail names the code |
| ProductStore.Matching | src/main/java/com/example/demo/dao/ProductDAO.java:140-158 | keeps exactly the rows whose lower-cased name contains the lower-cased term (each as often as in the table), or every row for a null or blank term |
| ProductStore.SortByDateDesc | src/main/java/com/example/demo/dao/ProductDAO.java:149 | newest first, and the same rows |
| ProductStore.PageOf | src/main/java/com/example/demo/dao/ProductDAO.java:160-161 | at most the page size of rows, taken consecutively from the offset |
| ProductStore.PagesConcatenate | src/main/java/com/example/demo/dao/ProductDAO.java:160-161 | two adjacent pages together are the page spanning both |
| ProductStore.Ranked | src/main/java/com/example/demo/dao/ProductDAO.java:144-158 | the matching rows newest first: as many as match, each as often as it matches, each a matching table row |
| ProductStore.QueryRows | src/main/java/com/example/demo/dao/ProductDAO.java:140-168 | the page is exactly the window of the sorted matches from the offset: min(pageSize, matches - offset) rows, row k being match offset+k |
| ProductStore.QueryProducts | src/main/java/com/example/demo/dao/ProductDAO.java:140-168 | the total counts every matching row, whatever the page; the content is the page's rows as summaries, one per row and in the page's order |
| ProductStore.UnfilteredQueryCountsAll | src/main/java/com/example/demo/dao/ProductDAO.java:170-172 | without a name filter the total is the table size |
| ProductStore.PagesSpan | src/main/java/com/example/demo/dao/ProductDAO.java:160-161 | consecutive pages of a list, requested one after another, together are the one page that spans them all |
| ProductStore.QueryPagesAreWindows | src/main/java/com/example/demo/dao/ProductDAO.java:140-168 | whatever the offset, the query's page there is the window of the sorted matches at that offset |
| ProductStore.PagesCoverMatches | src/main/java/com/example/demo/dao/ProductDAO.java:140-168 | once the pages cover the match count, the query's pages 0, 1, 2, ... concatenated are exactly the sorted matches, each row once |
| ProductStore.ProductDAO.Save | src/main/java/com/example/demo/dao/ProductDAO.java:50-95 | an unknown pet type or a failed upload aborts with the table unchanged; otherwise the product under the form's code, new or existing, takes the form's fields and the image path |
| ProductStore.ProductDAO.Delete | src/main/java/com/example/demo/dao/ProductDAO.java:98-132 | a blank or unknown code is refused; a product named by an order detail is refused and kept; a failed image delete aborts; otherwise exactly that product is removed |
| ProductCodes.Pad3 | src/main/java/com/example/demo/controller/ApiController.java:511-518 | the three-digit zero-padded form of a draw |
| ProductCodes.Pad3Value | src/main/java/com/example/demo/controller/ApiController.java:511-518 | the three digits read back give the draw |
| ProductCodes.CodeFor | src/main/java/com/example/demo/controller/ApiController.java:511-518 | the code of a draw is "P" and three digits that read back as the draw |
| ProductCodes.CodeForInjective | src/main/java/com/example/demo/controller/ApiController.java:511-518 | different draws give different codes |
| ProductCodes.FirstFreeCode | src/main/java/com/example/demo/controller/ApiController.java:511-518 | the code of the first draw whose code is free: shaped "P"+3 digits and not taken, or None when every draw is taken |
| ProductCodes.GenerateProductCode | src/main/java/com/example/demo/controller/AdminController.java:236-243 | the do-while loop returns the first free code among the draws |
| ProductCodes.FileExtension | src/main/java/com/example/demo/controller/ApiController.java:520-524 | "" for a missing name or one without '.', else the suffix from the last '.', which contains no other '.' |
| ProductCodes.AddedImageName | src/main/java/com/example/demo/controller/ApiController.java:393 | the name addProduct gives an upload: code, '_', clock reading, then the original's extension with its dot (no contract of its own) |
| ProductCodes.SaveFileNameAsWritten | src/main/java/com/example/demo/controller/ApiController.java:489-496 | saveFile's name as written: another "." before an extension that already has one (no contract of its own; see SaveFileNameDoubleDot) |
| ProductCodes.SaveFileName | src/main/java/com/example/demo/controller/ApiController.java:489-496 | saveFile's name with the extension appended once (no contract of its own; see SaveFileNameIntended) |
| ProductCodes.SaveFileNameDoubleDot | src/main/java/com/example/demo/controller/ApiController.java:489-509 | as written, "cat.jpg" for P001 at time 5 is stored as "P001_5..jpg", unlike the name addProduct gives |
| ProductCodes.SaveFileNameIntended | src/main/java/com/example/demo/controller/ApiController.java:489-509 | the corrected name equals addProduct's, and its extension is the original's |
| ProductCodes.AdminUploadName | src/main/java/com/example/demo/controller/AdminController.java:215-234 | the admin upload is named clock reading, '_', then the original name, or "unknown_" and an earlier reading |
| Admin.FormOf | src/main/java/com/example/demo/entity/ProductForm.java:36-48 | the edit form of a product names its pet type so that it parses back, and is not new |
| Admin.ProductFormFor | src/main/java/com/example/demo/controller/AdminController.java:135-150 | the form is new exactly for an empty or unknown code, else the stored product's form |
| Admin.BuiltProduct | src/main/java/com/example/demo/controller/AdminController.java:154-201 | the saved product takes the code, the date, the image and the form's fields |
| Admin.FormRoundTrip | src/main/java/com/example/demo/controller/AdminController.java:135-201 | saving an unedited edit form reproduces the product apart from its date |
| Admin.AdminController.SaveAccount | src/main/java/com/example/demo/controller/AdminController.java:75-119 | mismatched passwords, then an admin role without the key, then a known email are refused with the table unchanged; a failing save shows its message and stores nothing; otherwise an active account is added; no admin without the key |
| Admin.AdminController.ValidateSecretKey | src/main/java/com/example/demo/controller/AdminController.java:125-131 | valid exactly when the request's secretKey equals the admin key |
| Admin.AdminController.ProductSave | src/main/java/com/example/demo/controller/AdminController.java:154-201 | binding errors, unknown pet types, a failed upload and a failing save show the form again with the table unchanged; otherwise the product is stored under a free code or the form's code, dated now, keeping the old image when no upload comes |
| Admin.AdminController.ProductDelete | src/main/java/com/example/demo/controller/AdminController.java:204-213 | always back to the product list; a failing delete shows its message and removes nothing; otherwise the code's row is removed, with no order-reference guard |
| Shop.ConfirmationGuard | src/main/java/com/example/demo/controller/MainController.java:145-165 | an empty cart goes to the cart page, a cart without a valid customer to the customer form, and only a non-empty cart with a valid customer passes |
| Shop.UnnumberedCheckoutsCollide | src/main/java/com/example/demo/controller/MainController.java:157-196 | two checkouts of unnumbered carts store orders with the same number |
| Shop.MainController.BuyProduct | src/main/java/com/example/demo/controller/MainController.java:69-81 | an empty or unknown code changes nothing; a known product is added once via CartInfo |
| Shop.MainController.RemoveProductHandler | src/main/java/com/example/demo/controller/MainController.java:84-96 | an empty or unknown code changes nothing; a known product loses its line |
| Shop.MainController.ShoppingCartUpdateQty | src/main/java/com/example/demo/controller/MainController.java:99-105 | the submitted form's quantities are applied to the session cart |
| Shop.MainController.ShoppingCartHandler | src/main/java/com/example/demo/controller/MainController.java:108-112 | the cart page shows the session cart |
| Shop.MainController.ShoppingCartCustomerForm | src/main/java/com/example/demo/controller/MainController.java:115-124 | an empty cart goes back; otherwise the form is prefilled from the cart's customer |
| Shop.MainController.ShoppingCartCustomerSave | src/main/java/com/example/demo/controller/MainController.java:127-142 | binding errors re-show the form and leave the cart; otherwise the valid customer becomes the cart's |
| Shop.MainController.ShoppingCartConfirmationReview | src/main/java/com/example/demo/controller/MainController.java:145-154 | the guard decides, else the review page |
| Shop.MainController.ShoppingCartConfirmationSave | src/main/java/com/example/demo/controller/MainController.java:157-196 | after the guard, a stored order (numbered by the cart) removes the session cart and keeps it as last ordered; a failed save keeps everything |
| Shop.MainController.ShoppingCartFinalize | src/main/java/com/example/demo/controller/MainController.java:199-206 | the last ordered cart, or back to the cart page |
| Reservations.ParseStatus | src/main/java/com/example/demo/entity/Reservation.java:85-97 | a string names a status exactly when its upper case is that status's name |
| Reservations.ParseStatusAnyCase | src/main/java/com/example/demo/entity/Reservation.java:85-97 | every status name, in any mix of ASCII cases, parses to its status |
| Reservations.IgnoreCaseMatchesParse | src/main/java/com/example/demo/controller/ReservationController.java:71-82 | the controller's equalsIgnoreCase tests agree with the entity's parse for ACCEPTED and REJECTED |
| Reservations.Reservation.constructor | src/main/java/com/example/demo/entity/Reservation.java:11-40 | a new entity has no id, no status, no product and no items, and empty customer strings |
| Reservations.Reservation.Load | src/main/java/com/example/demo/entity/Reservation.java:11-40 | an entity loaded from a row holds exactly that row's data |
| Reservations.Reservation.Data | src/main/java/com/example/demo/entity/Reservation.java:13-40 | the entity's eleven columns as one row value (no contract of its own) |
| Reservations.Reservation.SetCustomerName | src/main/java/com/example/demo/entity/Reservation.java:49-51 | sets customerName and, by its frame, no other field |
| Reservations.Reservation.SetCustomerEmail | src/main/java/com/example/demo/entity/Reservation.java:53-55 | sets customerEmail and no other field |
| Reservations.Reservation.SetCustomerPhone | src/main/java/com/example/demo/entity/Reservation.java:57-59 | sets customerPhone and no other field |
| Reservations.Reservation.SetCustomerAddress | src/main/java/com/example/demo/entity/Reservation.java:61-63 | sets customerAddress and no other field |
| Reservations.Reservation.SetPreferredVisitDate | src/main/java/com/example/demo/entity/Reservation.java:65-67 | sets preferredVisitDate and no other field |
| Reservations.Reservation.SetMessage | src/main/java/com/example/demo/entity/Reservation.java:69-71 | sets message and no other field |
| Reservations.Reservation.SetReservationDate | src/main/java/com/example/demo/entity/Reservation.java:73-75 | sets reservationDate and no other field |
| Reservations.Reservation.SetProduct | src/main/java/com/example/demo/entity/Reservation.java:77-79 | sets the linked product and no other field |
| Reservations.Reservation.SetReservedItemsDetails | src/main/java/com/example/demo/entity/Reservation.java:81-83 | sets reservedItemsDetails and no other field |
| Stores.ReservationRepository.Save | src/main/java/com/example/demo/entity/Reservation.java:13-15 | an entity without an id is inserted under the next identity value, written back to it and new to the table; one with an id overwrites its row; the rows stay keyed by id |
| Reservations.Reservation.SetStatus | src/main/java/com/example/demo/entity/Reservation.java:85-97 | an enum is stored; a parsable string stores its status; an unknown string or any other argument throws with the status unchanged |
| ReservationServices.LinkedProduct | src/main/java/com/example/demo/service/ReservationService.java:34-68 | the reservation links the first line's product exactly when it still exists |
| ReservationServices.ByEmail | src/main/java/com/example/demo/service/ReservationService.java:90-92 | exactly the rows whose customer email is the given one |
| ReservationServices.NewPendingReservation | src/main/java/com/example/demo/service/ReservationService.java:34-68 | the new entity holds the customer's details, the date, PENDING, the lines and the link |
| ReservationServices.ReservationService.CreateReservationFromCart | src/main/java/com/example/demo/service/ReservationService.java:34-68 | an empty or missing cart, then a missing or invalid customer, are refused; a failing save propagates its exception and stores nothing; otherwise a PENDING reservation is added under a new id and nothing else changes |
| ReservationServices.ReservationService.GetReservationById | src/main/java/com/example/demo/service/ReservationService.java:74-77 | the stored row, or a not-found error for an unknown id |
| ReservationServices.ReservationService.UpdateReservation | src/main/java/com/example/demo/service/ReservationService.java:79-81 | the entity's row is overwritten with its data |
| ReservationServices.ReservationService.UpdateReservationStatus | src/main/java/com/example/demo/service/ReservationService.java:83-87 | an unknown id, then a null status, fail and change nothing; otherwise only that row's status changes, whatever it was |
| ReservationServices.ReservationService.GetReservationsByCustomerEmail | src/main/java/com/example/demo/service/ReservationService.java:90-92 | only stored rows of that customer |
| ReservationServices.ReservationService.DeleteReservation | src/main/java/com/example/demo/service/ReservationService.java:94-97 | an unknown id fails; otherwise exactly that row goes |
| ReservationEndpoints.ProductStatusAfter | src/main/java/com/example/demo/controller/ReservationController.java:76-86 | accepted pets become ADOPTED, rejected ones AVAILABLE, pending keeps the product's status |
| ReservationEndpoints.ReservationController.GetAllReservations | src/main/java/com/example/demo/controller/ReservationController.java:33-44 | every reservation |
| ReservationEndpoints.ReservationController.GetReservationById | src/main/java/com/example/demo/controller/ReservationController.java:114-128 | 200 with the row exactly for a known id, else 404 |
| ReservationEndpoints.ReservationController.UpdateReservationStatus | src/main/java/com/example/demo/controller/ReservationController.java:48-110 | a missing status, an unknown id or an unparsable status answer 400 with nothing saved; otherwise the status is saved, then the linked product follows |
| ReservationEndpoints.ReservationController.FollowProduct | src/main/java/com/example/demo/controller/ReservationController.java:76-86 | ACCEPTED in any case makes the product ADOPTED, REJECTED makes it AVAILABLE, any other status leaves it; the row is saved only when it exists and the store accepts it, else nothing changes |
| ApiEndpoints.MissingRequired | src/main/java/com/example/demo/controller/ApiController.java:86-92 | some one of email, password, firstName, lastName and phone is null or blank (a predicate; RegisterUser answers 400 exactly then) |
| ApiEndpoints.RegisteredRole | src/main/java/com/example/demo/controller/ApiController.java:108-112 | admin exactly when the role is "ADMIN" or "ROLE_ADMIN" in any case and the key equals the server's |
| ApiEndpoints.AdminRoleAnyCase | src/main/java/com/example/demo/controller/ApiController.java:108 | any ASCII case mix of "admin" asks for the admin role |
| ApiEndpoints.ActiveOf | src/main/java/com/example/demo/controller/ApiController.java:237-265 | exactly the customer's PENDING reservations |
| ApiEndpoints.SettledIds | src/main/java/com/example/demo/controller/ApiController.java:301-323 | exactly the customer's ACCEPTED or REJECTED reservations |
| ApiEndpoints.ClearKeepsActive | src/main/java/com/example/demo/controller/ApiController.java:301-323 | clearing keeps all of the customer's active reservations |
| ApiEndpoints.ClearKeepsOthers | src/main/java/com/example/demo/controller/ApiController.java:301-323 | clearing leaves every other customer's reservations untouched |
| ApiEndpoints.ClearLeavesNoSettled | src/main/java/com/example/demo/controller/ApiController.java:301-323 | after clearing, the customer has no settled reservation |
| ApiEndpoints.ApiController.RegisterUser | src/main/java/com/example/demo/controller/ApiController.java:75-123 | a blank required field or a known email is a 400 with nothing stored; a missing role or a failing save is a 400 "Registration failed: " with the exception's message and nothing stored; otherwise an active account with the computed role is added |
| ApiEndpoints.ApiController.GetUserActiveReservations | src/main/java/com/example/demo/controller/ApiController.java:237-265 | 200 with exactly the caller's PENDING reservations |
| ApiEndpoints.ApiController.WithdrawReservation | src/main/java/com/example/demo/controller/ApiController.java:269-297 | unknown id 500, someone else's 403, settled 400, each with nothing changed; otherwise exactly that row is deleted |
| ApiEndpoints.ApiController.ClearCompletedReservations | src/main/java/com/example/demo/controller/ApiController.java:301-323 | the loop deletes exactly the caller's settled reservations |
| RestEndpoints.RestApiController.GetProduct | src/main/java/com/example/demo/controller/RestApiController.java:53-59 | 404 for an unknown code, else the product's summary |
| RestEndpoints.RestApiController.CreateReservation | src/main/java/com/example/demo/controller/RestApiController.java:64-88 | an empty cart answers 400, and an invalid customer or a failing save 500 with the exception's message, each keeping the cart; otherwise a PENDING reservation is stored under a new id, holding the submitted customer's name, email, phone, address, visit date and message, the clock reading, the cart lines and the first line's product, and only then the cart and its durable copy are cleared |
| ContactEndpoints.Field | src/main/java/com/example/demo/controller/ContactController.java:25-35 | a field is present exactly when its key is in the body |
| ContactEndpoints.MissingField | src/main/java/com/example/demo/controller/ContactController.java:30-36 | some one of name, email, phone, subject and message is null or blank (a predicate; HandleContactForm answers 400 exactly then) |
| ContactEndpoints.ContactOf | src/main/java/com/example/demo/controller/ContactController.java:38-43 | the stored contact copies the five fields verbatim |
| ContactEndpoints.ContactController.HandleContactForm | src/main/java/com/example/demo/controller/ContactController.java:25-61 | a null or blank field is a 400 with nothing saved; a failed save a 500; otherwise the contact is appended |
| ContactEndpoints.ContactController.GetAllContacts | src/main/java/com/example/demo/controller/ContactController.java:64-74 | every stored contact |
| Domain.ParsePetType | src/main/java/com/example/demo/entity/Product.java:16-18 | the pet type whose name is exactly the string, or None when no type has that name |
| Domain.CustomerInfoOf | src/main/java/com/example/demo/model/CustomerInfo.java:21-27 | copies name, address, email, phone and validity, leaving the other fields unset |
| FormRules.JsBlankIsTrimmedEmpty | frontend/src/pages/Register.jsx:51 | a value fails `!value.trim()` exactly when trimming leaves nothing |
| FormRules.EmailCheckMatchesPattern | frontend/src/pages/Register.jsx:85-86 | the character-by-character email check agrees with the address pattern |
| FormRules.PhoneNotBlank | frontend/src/pages/Register.jsx:96-99 | a phone matching the pattern is never blank |
| FormRules.EmailNotBlank | frontend/src/pages/Register.jsx:81-86 | an address matching the pattern is never blank |
| RegisterPage.NameError | frontend/src/pages/Register.jsx:51-78 | no error exactly when the name is not blank, 2 to 50 characters, letters and spaces |
| RegisterPage.EmailError | frontend/src/pages/Register.jsx:81-93 | no error exactly when the address matches the pattern and has at most 100 characters |
| RegisterPage.PhoneError | frontend/src/pages/Register.jsx:96-102 | no error exactly when ten digits start with 8 or 9 |
| RegisterPage.PasswordError | frontend/src/pages/Register.jsx:105-126 | no error exactly for 8 to 50 characters with a lower-case and an upper-case letter, a digit and a special character |
| RegisterPage.ConfirmError | frontend/src/pages/Register.jsx:129-135 | no error exactly when the confirmation is non-empty and equals the password |
| RegisterPage.SecretKeyError | frontend/src/pages/Register.jsx:138-146 | no error exactly for a user sign-up or a trimmed key equal to the page's key |
| RegisterPage.RecordEmpty | frontend/src/pages/Register.jsx:46-149 | recording a rule leaves the errors empty exactly when they were empty and the rule passed |
| RegisterPage.NoErrorsIffRulesHold | frontend/src/pages/Register.jsx:46-150 | the errors object is empty exactly when every field rule holds |
| RegisterPage.PayloadOf | frontend/src/pages/Register.jsx:152-185 | the payload copies the fields and sends role ADMIN for the admin toggle, USER otherwise, with the key untrimmed |
| RegisterPage.PaddedWordTrims | frontend/src/pages/Register.jsx:142 | trimming a word with one leading space gives the word |
| RegisterPage.PaddedKeyRegistersUser | frontend/src/pages/Register.jsx:138-185 | a key " ADMIN123" passes the page, and the server registers a user, not an admin |
| RegisterPage.AdminPayloadRegistersAdmin | frontend/src/pages/Register.jsx:152-185 | an admin sign-up with exactly the server's key becomes an admin |
| RegisterPage.Note | frontend/src/pages/Register.jsx:46-149 | one rule: a failure is recorded under its key and clears isValid |
| RegisterPage.WithField | frontend/src/pages/Register.jsx:187-190 | the named field takes the value, every other field keeps its own |
| RegisterPage.RegisterForm.constructor | frontend/src/pages/Register.jsx:21-44 | the form starts empty, as a user sign-up, with no error shown |
| RegisterPage.RegisterForm.ValidateForm | frontend/src/pages/Register.jsx:46-150 | the shown errors become the rule errors and the answer is true exactly when every rule holds |
| RegisterPage.RegisterForm.HandleChange | frontend/src/pages/Register.jsx:187-198 | the edited field takes the value and only that field's shown error is cleared |
| RegisterPage.RegisterForm.HandleUserTypeChange | frontend/src/pages/Register.jsx:212-217 | the type changes; the key and its error are cleared |
| RegisterPage.RegisterForm.HandleSubmit | frontend/src/pages/Register.jsx:152-185 | a payload is sent exactly when every rule holds, and it is the form's payload |
| SignInPage.EmailMessage | frontend/src/pages/SignIn.jsx:30-39 | no message exactly when the address matches the pattern; empty gives "Email is required" |
| SignInPage.PasswordMessage | frontend/src/pages/SignIn.jsx:41-48 | no message exactly for 6 or more characters |
| SignInPage.SignInForm.Validate | frontend/src/pages/SignIn.jsx:26-51 | both messages are shown and the form is valid exactly when both rules hold |
| SignInPage.SignInForm.HandleSubmit | frontend/src/pages/SignIn.jsx:53-77 | login is called exactly for a valid form; a user goes home, no user shows the bad-credentials text, an exception its message or the generic text |
| ContactPage.PhoneHint | frontend/src/pages/Contact.jsx:31-38 | no hint exactly for ten digits starting with 8 or 9 |
| ContactPage.MessageHint | frontend/src/pages/Contact.jsx:41-50 | no hint exactly for 20 to 500 characters, with the short or long text otherwise |
| ContactPage.NativeValid | frontend/src/pages/Contact.jsx:280-363 | the browser's form check: every field required, name 2 to 50 and subject 5 to 100 characters, the email accepted (a predicate) |
| ContactPage.SentFormReachesEndpoint | frontend/src/pages/Contact.jsx:280-363 | a form the browser accepts has every field, and the endpoint still refuses it exactly when some field is whitespace only |
| ContactPage.BlankNamePassesPage | frontend/src/pages/Contact.jsx:286-293 | a name of two spaces passes every page check and is refused by the endpoint |
| ContactPage.ContactForm.HandleChange | frontend/src/pages/Contact.jsx:23-50 | the field takes the value; only a phone or message edit re-checks that field |
| ContactPage.ContactForm.HandleSubmit | frontend/src/pages/Contact.jsx:52-84 | sends exactly when the browser accepts and no hint is shown; a 200 clears the form, a failure or non-2xx shows the alert and keeps it |
| FindPet.Filter | frontend/src/pages/FindPet.jsx:82-101 | keeps exactly the elements that pass, every copy of each, as a subsequence |
| FindPet.SubsequenceTransitive | frontend/src/pages/FindPet.jsx:82-101 | a filter of a filter keeps the original order |
| FindPet.Available | frontend/src/pages/FindPet.jsx:60-64 | exactly the listed products whose status is "available" in any case, every copy, in order |
| FindPet.Shown | frontend/src/pages/FindPet.jsx:82-101 | exactly the products of the chosen type (unless ALL) whose name or description contains the term (unless empty), every copy of each, in the listing's order |
| FindPet.ResetShowsAll | frontend/src/pages/FindPet.jsx:305-308 | after the reset to "ALL" and an empty term, every available product is shown, in order |
| FindPet.EmptyTermMatches | frontend/src/pages/FindPet.jsx:89-98 | the empty term matches every product |
| FindPet.CartCodes | frontend/src/pages/FindPet.jsx:44-52 | the cart's product codes, line by line, or none without a cart |
| FindPet.AddedToCartIffLine | frontend/src/pages/FindPet.jsx:263 | a card is flagged exactly when a cart line has its code |
| AdminPage.CountStatus | frontend/src/pages/Admin.jsx:51-56 | the count is 0 exactly when no pet has the status and the size exactly when all do |
| AdminPage.StatsOf | frontend/src/pages/Admin.jsx:51-56 | the total and the three exact-status counters |
| AdminPage.CapitalStatusesNotCounted | frontend/src/pages/Admin.jsx:51-56 | pets whose status is in capitals are in no counter |
| AdminPage.StatusColor | frontend/src/pages/Admin.jsx:58-69 | warning, success, danger for the three statuses and secondary exactly for any other |
| AdminPage.ActionsFor | frontend/src/pages/Admin.jsx:681-714 | accept and reject are offered exactly for a pending reservation |
| AdminPage.CompareMeansPrecedes | frontend/src/pages/Admin.jsx:163-170 | the comparator is <= 0 exactly when pending comes first, then newer |
| AdminPage.PrecedesTotal | frontend/src/pages/Admin.jsx:163-170 | any two reservations are ordered one way or the other |
| AdminPage.PendingFirst | frontend/src/pages/Admin.jsx:157-177 | in the sorted list every pending reservation comes before every other |
| AdminPage.SortReservations | frontend/src/pages/Admin.jsx:157-177 | the list is in comparator order and holds the same reservations |
| AdminPage.EditFormOf | frontend/src/pages/Admin.jsx:240-255 | absent fields take defaults; an absent or empty status becomes "available", any other is lower-cased |
| AdminPage.EditFormLowersStatus | frontend/src/pages/Admin.jsx:251 | a stored "AVAILABLE" edits as "available" |
| AdminPage.CountersWithinTotal | frontend/src/pages/Admin.jsx:51-56 | the three status counters together never exceed the number of pets |
| AdminPage.Dashboard.Counters | frontend/src/pages/Admin.jsx:51-56 | the total is the pet count and the three counters together do not exceed it |
| AdminPage.Dashboard.FetchReservations | frontend/src/pages/Admin.jsx:157-177 | the reservations shown are the fetched ones, in list order |
| AdminPage.Dashboard.HandleEdit | frontend/src/pages/Admin.jsx:240-255 | the pet is selected, its edit form filled in, and the dialog opened |

## Left out

- Prices and amounts are Java `double`s in the shop. They are integers here, so rounding is not modelled and only facts of exact arithmetic carry over.
- Java `int` and `long` overflow is not modelled. Order numbers, quantities and totals are unbounded integers.
- Null references are modelled only where the code tests for them or throws on them. Those cases are `Option` values. Other Java nulls and the messages of null-pointer exceptions are not modelled.
- JSON serialisation of carts and reservation items is not modelled. A stored cart is its data or an unreadable row, and reserved items are the cart lines themselves.
- File-system work is not modelled: creating directories, copying and deleting image files. Only the file names and the success or failure of the copy or delete (a parameter) are modelled.
- Clock readings and `Random` draws are parameters: `now`, `millis` and the sequence `draws`.
- Admin.AdminController.ProductSave: it requires that the draws reach a free code for a new product. The source's do-while loop keeps drawing and never stops when every code is taken.
- ProductCodes.GenerateProductCode: a finite draw sequence that runs out answers None, where the source would go on drawing.
- Authentication and sessions of users are not modelled. This covers `ApiController.authenticateUser`, `getCurrentUser` and `logout`, password encoding (the encoder's output is a parameter) and the admin bootstrap at sign-in. The caller's email and the session's user id are inputs.
- These `ApiController` endpoints are not modelled: `getUserReservations`, `getProducts`, `addProduct`, `updateProduct` and `deleteProduct`. Only their file naming is modelled: `addProduct`'s as `ProductCodes.AddedImageName`, and `saveFile`'s as written as `ProductCodes.SaveFileNameAsWritten`, with the corrected name `ProductCodes.SaveFileName` beside it.
- Concurrency is not modelled. That includes the race between two `saveOrder` calls that both read the same maximum order number. Each request runs alone.
- Transactions are modelled by their outcome only: a failing call leaves the tables as they were.
- The admin dialog's blank pet form starts its price as the empty string. The model's form price is an integer, so `AdminPage.EMPTY_PET_FORM` uses 0 for it.
- The order details are a `HashSet` in the shop. Here they are a sequence in cart-line order, because the set's iteration order is not observable in the model.
- `queryProducts` uses a SQL LIKE pattern. The term's own `%` and `_` wildcards are read literally here.
- Rows with equal creation dates keep their table order here. The database gives no order for ties.
- Lower- and upper-casing map ASCII letters only in the React pages. Every other character is left as it is, where JavaScript maps all of Unicode.
- ProductStore.Matches: the product-name filter lower-cases the term and the names by ASCII letters only (`Text.Lower`). Java's `toLowerCase` and SQL `lower` map all of Unicode, so a term holding the Kelvin sign is lowered to "k" in the shop and kept as it is here.
- On the Java side, `toUpperCase` (`Text.JavaUpper`, used by `Reservations.ParseStatus`) and `equalsIgnoreCase` (`Text.EqualsIgnoreCase`) map ASCII letters plus the few non-ASCII characters whose Java case mapping yields an ASCII letter: dotless i and long s when upper-casing, and also dotted capital I and the Kelvin sign when lower-casing inside `equalsIgnoreCase`. Every other character is left as it is.
- JavaScript string lengths count UTF-16 code units. Here they count characters, which is the same for text in the Basic Multilingual Plane.
- The browser's validity check for `type="email"` is the parameter `emailOk` of `ContactPage.ContactForm.HandleSubmit`.
- ContactPage.ContactForm.HandleSubmit: the alert text and the page's rendering of `showAlert` are not modelled.
- The Customer entity is bound by Spring form binding. Here it is a plain record passed in, together with whether binding found errors (`hasErrors`).
- The `Order` entity's generated id is not modelled. An order is identified by its number.
- The order in which a delete removes dependent rows is not modelled, and neither is the database's enforcement of foreign keys.
- On the admin page, `new Date(...)` of a reservation date is given as a millisecond number. An unparsable date (NaN) is not modelled.
- The rest of the React pages is not modelled: styling, toasts, navigation, and the pet add/edit submit and delete handlers of Admin.jsx. Their calls to the API are not modelled either.
- SignInPage.SignInForm.HandleSubmit: the login call is its answer (`reply`), and the state updated on success (`updateAuthState`) is not modelled.
- CartSessions.CartService.GetLastOrderedCartInSession is a plain read of the session attribute and carries no contract of its own. What it returns after a store is stated by `StoreLastOrderedCartInSession` and `ShoppingCartFinalize`.

## Findings

| source | as written | input that shows it | evidently intended | confidence | as-written member | corrected member |
|---|---|---|---|---|---|---|
| src/main/java/com/example/demo/controller/ApiController.java:489-509 | `saveFile` puts "." before an extension that `getFileExtension` already returns with its dot | code "P001", clock 5, upload "cat.jpg" gives "P001_5..jpg" | "P001_5.jpg", the name `addProduct` gives the same upload | high, not executed | ProductCodes.SaveFileNameDoubleDot | ProductCodes.SaveFileNameIntended |
