# Dimino marketplace core, modelled in Dafny

Dimino is a Next.js marketplace for fish delicacies. This project models its core in Dafny 4 and proves properties of the model. The core covers:

- the shopper's cart (a client store of cart lines keyed by dish id);
- the server route handlers:
  - order inquiries;
  - seller provisioning;
  - user registration;
  - the seller's own profile;
  - products, cities and fish kinds;
  - the audit log and its pagination;
- the storefront and admin decision logic:
  - the availability check;
  - the stock badge;
  - the category filter and the item-count wording;
  - the admin menu;
  - the product creation form;
  - the image carousel, the media gallery and the dish page.

## How the system is represented

The database is the class `Store.Db`. It has one `seq` field per table, kept in insertion order. A `findFirst` / `findUnique` is therefore the first matching row, and a `findMany` without `orderBy` returns the whole sequence.

Route handlers that write are methods. They take the `Db` and change only the fields named in their `modifies` clauses, such as `db`users` or `db`sellers`. Each write handler has a pure partner:

- a `...Refusal` function giving the reply of the first guard that fails, in the order the handler checks them;
- a function giving the row it inserts.

The properties are proved about these partners.

Inputs from outside the model are method parameters:

- The session is an explicit actor, `Option<Session(role, userId)>`.
- The id the store gives a new row, the clock (`now`) and the bcrypt hash output are plain values.
- A store failure that matters is a flag. `insertFails` covers the order insert and the seller insert; `db.auditWritable` covers the audit append.

JavaScript truthiness of an optional string is `Common.Present`: not null, not undefined and not `''`. `x || fallback` and `x ?? fallback` on such values are written out where they occur.

Client components that keep state become classes, with the state as fields and the handlers as methods:

- the cart store (`Cart.CartStore`);
- the product form (`ProductForm.ProductFormPage`);
- the carousel, the gallery and the dish page.

Their props are `const` fields. The decision logic beside them consists of functions and lemmas.

## Model

| member | source | states |
|---|---|---|
| Cart.AddNewDishAppends | app/hooks/useCart.ts:25-36 | adding a dish not in the cart appends exactly `{id, name, weight, quantity: 1}` after the unchanged earlier lines |
| Cart.AddExistingDishIncrements | app/hooks/useCart.ts:16-24 | adding a dish already in the cart keeps length and order and raises only that dish's quantity, by one |
| Cart.AddKeepsInvariant | app/hooks/useCart.ts:14-37 | `addToCart` keeps ids unique and quantities positive |
| Cart.FilterKeepsUniqueIds | app/hooks/useCart.ts:42 | dropping lines with `filter` keeps ids unique |
| Cart.UpdateQuantityInvariant | app/hooks/useCart.ts:38-43 | after `updateQuantity` every line is positive and ids stay unique; a quantity ≤ 0 removes the dish |
| Cart.OneMoreIsAdd | app/hooks/useCart.ts:16-42 | in a cart without duplicate lines, `updateQuantity` to one more than a line holds gives the same list as `addToCart` of that dish |
| Cart.UpdatePositiveQuantity | app/hooks/useCart.ts:40-42 | a positive quantity changes only the matching line's quantity; length, order and other lines are kept |
| Cart.RemoveDropsExactly | app/hooks/useCart.ts:44-47 | `removeFromCart` drops the dish, keeps every other line, and keeps the rest in order |
| Cart.RemoveIdempotent | app/hooks/useCart.ts:44-47 | removing the same dish twice is removing it once |
| Cart.CartStore.constructor | app/hooks/useCart.ts:13 | the store starts empty and valid |
| Cart.CartStore.AddToCart | app/hooks/useCart.ts:14-37 | the new list is `WithDishAdded` of the old one, and the invariant holds |
| Cart.CartStore.UpdateQuantity | app/hooks/useCart.ts:38-43 | the new list is `WithQuantity` of the old one, and the invariant holds |
| Cart.CartStore.RemoveFromCart | app/hooks/useCart.ts:44-47 | the new list is `WithoutDish` of the old one, and the invariant holds |
| Cart.CartStore.ClearCart | app/hooks/useCart.ts:48 | the cart is empty |
| OrdersRoute.Upper | app/api/orders/route.ts:55 | upper-casing keeps the length and maps each character through `UpperChar` |
| OrdersRoute.OrderNumberIsUpperTail | app/api/orders/route.ts:55 | the order number is the last `min(6, len)` characters of the id, upper-cased |
| OrdersRoute.OrderItemsOf | app/api/orders/route.ts:38-43 | one order item per cart line, in order, with `productId = id` and the same quantity |
| OrdersRoute.Rejection | app/api/orders/route.ts:20-28 | 400 when name, phone or email is missing or empty; with those given, 500 when `items` is missing (reading `.length` throws), 400 when the item list is empty or no city is given; passes exactly when every field is given and the list is non-empty |
| OrdersRoute.SubmitInquiry | app/api/orders/route.ts:14-73 | success exactly for a valid body and a successful insert; otherwise 400 (validation) or 500 (any failure), and nothing is stored |
| OrdersRoute.StoredOrderFields | app/api/orders/route.ts:31-44 | the stored order keeps id, name, email and phone, has `cityId = selectedCity`, the comment or `''` when it is missing, and exactly `OrderItemsOf` of the cart lines |
| OrdersRoute.NonPositiveQuantityStored | app/api/orders/route.ts:38-43 | a line with quantity 0 or less is stored as is; quantities are not validated |
| SellersRoute.ListSellers | app/api/sellers/route.ts:8-42 | an admin gets every seller row; anyone else gets 401 |
| SellersRoute.ProvisionRefusal | app/api/sellers/route.ts:49-94 | the guards pass exactly for an admin giving both ids of an existing user and city where the user has no seller row yet |
| SellersRoute.ProvisionGuardOrder | app/api/sellers/route.ts:49-94 | guard order: 401 non-admin, 400 missing ids, 404 unknown user, 404 unknown city, 400 already a seller |
| SellersRoute.CreateSeller | app/api/sellers/route.ts:45-138 | a refusal changes nothing. Otherwise the role becomes SELLER, then either the seller row and one CREATE/SELLER audit entry are appended, or the insert fails with 500 and the role change stays |
| SellersRoute.SecondProvisionRefused | app/api/sellers/route.ts:84-94 | provisioning the same user again after a success is refused with 400 |
| SellersRoute.ProvisionKeepsOneSellerPerUser | app/api/sellers/route.ts:84-107 | a successful provisioning keeps at most one seller row per user |
| SellersRoute.FailedInsertLeavesRoleWithoutRow | app/api/sellers/route.ts:96-119 | when the insert fails the user has role SELLER and no seller row: the two writes are not atomic |
| RegisterRoute.RegisterRefusal | app/api/auth/register/route.ts:13-42 | registration proceeds exactly for an admin giving an email and a password, with that email not yet registered; otherwise 401 or 400 |
| RegisterRoute.NewUser | app/api/auth/register/route.ts:45-55 | the new user stores the hash as password; name defaults to null and role to USER |
| RegisterRoute.ViewOf | app/api/auth/register/route.ts:100-107 | the reply carries id, email, name and role, and its type has no password field |
| RegisterRoute.RegisteredSeller | app/api/auth/register/route.ts:68-80 | a seller row is created exactly for a SELLER when a city exists, attached to the first city |
| RegisterRoute.RegistrationAudits | app/api/auth/register/route.ts:57-96 | one USER entry, plus a SELLER entry for a seller whose entity id is the seller row, or the user id when there is no city |
| RegisterRoute.Register | app/api/auth/register/route.ts:8-117 | a refusal changes nothing; otherwise one user, the optional seller row and the audit entries are appended and the reply is the password-free view |
| RegisterRoute.CreateAccount | app/api/auth/register/route.ts:45-96 | after the guards: the user row is appended, then the seller row for a SELLER when a city exists, and the registration's audit entries when the log is writable |
| RegisterRoute.RegisterKeepsEmailsUnique | app/api/auth/register/route.ts:31-55 | a successful registration keeps emails unique |
| RegisterRoute.DuplicateEmailRefused | app/api/auth/register/route.ts:37-42 | an already registered email is refused with 400 |
| RegisterRoute.SellerWithoutCity | app/api/auth/register/route.ts:88-96 | a SELLER registered with no city gets no seller row, but still gets a SELLER audit entry with the user's id |
| SellersMeRoute.MeRefusal | app/api/sellers/me/route.ts:11-49 | 401 without a session, 403 for roles other than SELLER/ADMIN, 404 without a seller row; passes exactly otherwise |
| SellersMeRoute.AdminWithoutRowRefused | app/api/sellers/me/route.ts:25-49 | an admin without a seller row also gets 404 |
| SellersMeRoute.GetProfile | app/api/sellers/me/route.ts:7-59 | a caller passing the guards gets their own seller row |
| SellersMeRoute.MergeProfile | app/api/sellers/me/route.ts:100-104 | each of address, phone and working hours takes the body value unless null/undefined; id, userId and cityId are kept |
| SellersMeRoute.MergeIdempotent | app/api/sellers/me/route.ts:100-104 | applying the same patch twice equals applying it once |
| SellersMeRoute.EmptyPatchKeepsRow | app/api/sellers/me/route.ts:100-104 | an empty patch leaves the row unchanged |
| SellersMeRoute.EmptyStringOverwrites | app/api/sellers/me/route.ts:101 | an empty string does overwrite a stored address |
| SellersMeRoute.MergeKeepsOneSellerPerUser | app/api/sellers/me/route.ts:96-104 | a patch keeps at most one seller row per user |
| SellersMeRoute.PatchProfile | app/api/sellers/me/route.ts:62-126 | the same three guards run before any write; then only the caller's row is replaced by the merged row |
| ProductsRoute.NewestFirstPreorder | app/api/products/route.ts:41-43 | "newer createdAt first" is a total preorder, so the sort is well defined |
| ProductsRoute.ListProducts | app/api/products/route.ts:8-54 | a product is listed exactly when it matches every filter given, each as often as in the table; the list is newest first; with no filter it is the whole table |
| ProductsRoute.ProductRefusal | app/api/products/route.ts:61-111 | 401 for roles other than SELLER/ADMIN, 400 for a falsy name, description or weight, 404 for a seller without a row, 400 for an admin missing ids; passes exactly otherwise |
| ProductsRoute.Placement | app/api/products/route.ts:85-111 | a seller's product goes to their own seller id and city; an admin's goes to the ids in the body |
| ProductsRoute.NewProduct | app/api/products/route.ts:114-130 | the fields are copied; inStock defaults to true, an empty fishId becomes null, and absent media gives no media rows |
| ProductsRoute.CreateProduct | app/api/products/route.ts:57-165 | a refusal changes nothing; otherwise one product and one CREATE/PRODUCT audit entry are appended |
| ProductsRoute.SellerPlacementIgnoresBody | app/api/products/route.ts:85-99 | for a seller, the sellerId and cityId in the body change nothing |
| ProductsRoute.WeightGuardIsTruthiness | app/api/products/route.ts:74-79 | weight 0 is refused, while a negative weight passes the check |
| CitiesRoute.ListCities | app/api/cities/route.ts:7-18 | every city, with no authorization check |
| CitiesRoute.CityRefusal | app/api/cities/route.ts:25-52 | 401 for non-admins, 400 for a missing name, 400 for a name already taken; passes exactly for an admin giving a name not yet taken |
| CitiesRoute.CreateCity | app/api/cities/route.ts:21-67 | a refusal changes nothing; otherwise exactly one city is appended, and no audit entry is written |
| CitiesRoute.CreateKeepsNamesUnique | app/api/cities/route.ts:42-59 | a successful creation keeps city names unique |
| CitiesRoute.TakenNameRefused | app/api/cities/route.ts:47-52 | an existing name is refused with 400 |
| FishRoute.ByNamePreorder | app/api/fish/route.ts:10-14 | name order is a total preorder |
| FishRoute.ListFish | app/api/fish/route.ts:8-23 | every fish kind exactly once, sorted by name ascending |
| FishRoute.FishRefusal | app/api/fish/route.ts:30-57 | 401 for non-admins, 400 for a missing name, 400 for a name already taken; passes exactly for an admin giving a name not yet taken |
| FishRoute.TakenNameRefused | app/api/fish/route.ts:52-57 | an existing name is refused with 400 |
| FishRoute.CreateFish | app/api/fish/route.ts:26-81 | a refusal changes nothing; otherwise one fish and one CREATE/FISH audit entry are appended |
| FishRoute.CreateKeepsNamesUnique | app/api/fish/route.ts:47-62 | a successful creation keeps fish names unique |
| AuditRoute.NewerFirstPreorder | app/api/audit/route.ts:44-46 | "newer first" is a total preorder |
| AuditRoute.Scoped | app/api/audit/route.ts:23-26 | an admin sees every entry; any other role sees exactly its own entries, in their log order (a subsequence of the log) |
| AuditRoute.PageCountBounds | app/api/audit/route.ts:57 | `totalPages * limit >= total > (totalPages - 1) * limit` when there are entries, and 0 pages exactly when there are none |
| AuditRoute.Offset | app/api/audit/route.ts:20 | skip is `(page - 1) * limit`, 0 on page 1 |
| AuditRoute.Slice | app/api/audit/route.ts:47-48 | skip/take returns at most `take` consecutive rows starting at `skip` |
| AuditRoute.PageRows | app/api/audit/route.ts:32-49 | a page holds at most `limit` scoped entries, taken from the newest-first order at the page's offset |
| AuditRoute.ListAudits | app/api/audit/route.ts:6-67 | 401 exactly without a session; page defaults to 1 and limit to 10; total counts exactly the scoped entries |
| AuditRoute.PageNewestFirst | app/api/audit/route.ts:44-46 | every page is newest first |
| AuditRoute.PagesTileEntries | app/api/audit/route.ts:20-57 | the k-th scoped entry appears on page `k / limit + 1`, and that page is within `totalPages` |
| AuditRoute.NonAdminSeesOwnEntriesOnly | app/api/audit/route.ts:23-26 | a non-admin's page holds only entries with their own user id |
| Audit.EntryFor | lib/audit.ts:23-30 | the stored entry copies its fields, with a missing entity id stored as `''` |
| Audit.LogAuditAction | lib/audit.ts:15-35 | the entry is appended when the store accepts it; otherwise nothing changes and no error reaches the caller |
| Audit.DescriptionLayout | lib/audit.ts:40-62 | the description is `<entity label> "<name>" был <verb>`, for every action and every entity type including ORDER |
| Audit.DescriptionInjective | lib/audit.ts:45-61 | different (action, entity type, name) triples give different descriptions, so distinct actions give distinct verbs |
| AvailabilityResult.StoreEntry | app/components/ui/ProductAvailabilityResult.tsx:86-94 | a store entry copies the store id and name; missing address and phone become `''`, missing hours `10:00 - 20:00`; inStock comes from the product and preOrderOnly is its negation |
| AvailabilityResult.StoreEntries | app/components/ui/ProductAvailabilityResult.tsx:86-94 | one entry per store of the city, in store order |
| AvailabilityResult.ProductFor | app/components/ui/ProductAvailabilityResult.tsx:82 | `find`: a city product with the id, or none when no product has it |
| AvailabilityResult.Availability | app/components/ui/ProductAvailabilityResult.tsx:80-102 | there are never more results than cart lines |
| AvailabilityResult.AvailabilityPerKeptLine | app/components/ui/ProductAvailabilityResult.tsx:80-102 | one result per cart line whose dish the city offers, in cart order, each the result built for that line |
| AvailabilityResult.ResultFields | app/components/ui/ProductAvailabilityResult.tsx:96-100 | each result carries its product's id and name and lists every store in store order with the product's flags |
| AvailabilityResult.UnofferedLineDropped | app/components/ui/ProductAvailabilityResult.tsx:82-102 | a dish the city does not offer has no result |
| AvailabilityResult.EntriesNeverUnavailable | app/components/ui/ProductAvailabilityResult.tsx:92-93 | exactly one of inStock and preOrderOnly holds, so no entry shows "Нет в наличии" |
| AvailabilityResult.HandleClose | app/components/ui/ProductAvailabilityResult.tsx:117-121 | closing the dialog empties the cart |
| StockStatus.StatusBadge | app/components/StockStatus.tsx:16-60 | "Под заказ" exactly when preOrderOnly holds, "В наличии" exactly when inStock holds without it, "Нет в наличии" exactly when neither holds |
| StockStatus.TextsDistinct | app/components/StockStatus.tsx:27-58 | the three badge texts are distinct |
| AdminSidebar.IsActiveMeaning | app/components/AdminSidebar.tsx:16-18 | an entry is active exactly on its own path or on a path continuing it with `/` |
| AdminSidebar.BarePrefixInactive | app/components/AdminSidebar.tsx:16-18 | `/admin/productsX` does not activate `/admin/products` |
| AdminSidebar.DashboardAlwaysActive | app/components/AdminSidebar.tsx:16-23 | `/admin` is active on every path under `/admin/` |
| AdminSidebar.VisibleMenu | app/components/AdminSidebar.tsx:225-231 | nothing unless admin or seller; otherwise exactly the entries the role may see, in menu order |
| AdminSidebar.AdminMenu | app/components/AdminSidebar.tsx:20-216 | an admin sees every entry but the seller profile: 8 entries |
| AdminSidebar.SellerMenu | app/components/AdminSidebar.tsx:20-216 | a seller sees the three shared entries and their profile: 4 entries |
| AdminSidebar.HeaderText | app/components/AdminSidebar.tsx:221 | "Панель продавца" exactly for a seller, "Администрирование" otherwise |
| ShopPage.ClientMediaType | app/shop/page.tsx:53 | the media type is lower-cased: IMAGE to image, VIDEO to video |
| ShopPage.ToDish | app/shop/page.tsx:44-60 | a missing fishId becomes `''`, media keep url and order with the type lower-cased, and availability mirrors inStock with no stores |
| ShopPage.ToDishes | app/shop/page.tsx:44-60 | one dish per product, in order |
| ShopPage.LoadProducts | app/shop/page.tsx:23-70 | no city: no request and loading ends; with a city, the city's products are requested; a failed request keeps the dishes shown |
| ShopPage.CategoryFilterMeaning | app/shop/page.tsx:99-106 | with no or an empty filter every dish is kept; otherwise exactly the dishes of that fish kind; always a subsequence |
| ShopPage.CountWord | app/shop/page.tsx:145-150 | "товар" exactly for 1, "товара" exactly for 2 to 4, "товаров" exactly for 0 and from 5 on |
| ShopPage.CountWordTwentyOne | app/shop/page.tsx:146-150 | 21 and 22 read "товаров": the rule looks at the whole count, not its last digit |
| ProductForm.TrimStart | app/admin/products/create/page.tsx:157 | leading white space is removed and nothing else |
| ProductForm.DigitRun | app/admin/products/create/page.tsx:120 | the longest prefix made of digits of the radix |
| ProductForm.Decimal | app/admin/products/create/page.tsx:120 | the decimal text of a number is non-empty digits with no leading zero |
| ProductForm.DecimalValue | app/admin/products/create/page.tsx:120 | decimal text denotes its number |
| ProductForm.ParseDecimalDigits | app/admin/products/create/page.tsx:120 | `parseInt` reads a string of decimal digits as its value |
| ProductForm.WeightRoundTrip | app/admin/products/create/page.tsx:120 | the weight input reads back every natural number it displays |
| ProductForm.NonNumericWeightIsZero | app/admin/products/create/page.tsx:120 | non-numeric text and empty text give weight 0 |
| ProductForm.TrailingTextIgnored | app/admin/products/create/page.tsx:120 | `12kg` gives 12 |
| ProductForm.NegativeWeight | app/admin/products/create/page.tsx:120 | ` -5` gives -5 |
| ProductForm.HexWeight | app/admin/products/create/page.tsx:120 | `0x1A` gives 26 |
| ProductForm.TrimStartEmpty | app/admin/products/create/page.tsx:157 | `trim()` gives `''` exactly for all-white-space text |
| ProductForm.ValidMediaMeaning | app/admin/products/create/page.tsx:157 | a media input is submitted exactly when its url has a non-space character |
| ProductForm.ValidMediaKeepsOrder | app/admin/products/create/page.tsx:157 | the submitted inputs keep the order they have in the form |
| ProductForm.Payload | app/admin/products/create/page.tsx:167-170 | media are sent exactly when some are valid, and then they are the valid ones |
| ProductForm.SubmittedBodyPassesFieldCheck | app/admin/products/create/page.tsx:151-154 | a body the form sends always passes the server's name, description and weight check |
| ProductForm.ProductFormPage.constructor | app/admin/products/create/page.tsx:42-52 | the form starts with the initial fields and one blank IMAGE media input |
| ProductForm.ProductFormPage.AddMediaField | app/admin/products/create/page.tsx:136-138 | appends a blank IMAGE input and leaves the rest unchanged |
| ProductForm.ProductFormPage.RemoveMediaField | app/admin/products/create/page.tsx:140-146 | `splice(index, 1)` happens only while more than one input is left, so the list never becomes empty |
| ProductForm.ProductFormPage.HandleMediaChange | app/admin/products/create/page.tsx:126-134 | only the named field of the input at the index changes |
| ProductForm.ProductFormPage.HandleChange | app/admin/products/create/page.tsx:109-124 | exactly one form field is replaced; the weight stores `parseInt(value) \|\| 0` |
| ProductForm.ProductFormPage.PrefillSeller | app/admin/products/create/page.tsx:83-94 | a seller's id and city are prefilled from their own seller record |
| ProductForm.ProductFormPage.HandleSubmit | app/admin/products/create/page.tsx:148-170 | submission is blocked exactly when name or description is empty or weight ≤ 0; otherwise it sends the payload |
| ProductForm.RemoveLastInputKept | app/admin/products/create/page.tsx:140-146 | removing the only input leaves it in place |
| CyclicIndex.Next | app/components/ui/Carousel.tsx:19-21 | from the last position to 0, otherwise one forward; in range and equal to `(i + 1) mod n` |
| CyclicIndex.Prev | app/components/ui/Carousel.tsx:15-17 | from 0 to the last position, otherwise one back; in range and equal to `(i - 1) mod n` |
| CyclicIndex.PrevUndoesNext | app/components/ui/Carousel.tsx:15-21 | previous after next, and next after previous, return the original index |
| CyclicIndex.NextTimesIsModulo | app/components/MediaGallery.tsx:27-29 | k presses of next advance the index by k modulo n |
| CyclicIndex.NextFullCycle | app/components/MediaGallery.tsx:27-29 | n presses of next return to the starting index |
| CarouselView.Carousel.constructor | app/components/ui/Carousel.tsx:12-13 | the carousel starts on the first image |
| CarouselView.Carousel.HandlePrevious | app/components/ui/Carousel.tsx:15-17 | the index moves by `Prev` and stays on the list |
| CarouselView.Carousel.HandleNext | app/components/ui/Carousel.tsx:19-21 | the index moves by `Next` and stays on the list |
| CarouselView.Carousel.HandleDot | app/components/ui/Carousel.tsx:57-65 | clicking dot i sets the index to i |
| CarouselView.Carousel.Render | app/components/ui/Carousel.tsx:23-68 | nothing for no images; otherwise the current image, with arrows and one dot per image only for several images, the current dot highlighted |
| MediaGalleryView.ThumbnailSrc | app/components/MediaGallery.tsx:95-108 | a video thumbnail uses its thumbnailUrl when that is non-empty and its url otherwise; an image uses its url |
| MediaGalleryView.MediaGallery.constructor | app/components/MediaGallery.tsx:20-21 | the gallery starts on the first item |
| MediaGalleryView.MediaGallery.HandlePrevious | app/components/MediaGallery.tsx:23-25 | the index moves by `Prev` and stays on the list |
| MediaGalleryView.MediaGallery.HandleNext | app/components/MediaGallery.tsx:27-29 | the index moves by `Next` and stays on the list |
| MediaGalleryView.MediaGallery.HandleThumbnailClick | app/components/MediaGallery.tsx:31-33 | clicking thumbnail i sets the index to i |
| MediaGalleryView.MediaGallery.Render | app/components/MediaGallery.tsx:35-113 | nothing for an empty list; otherwise the current item, with arrows and one thumbnail per item in order only for several items, the current one highlighted |
| DishDetailsPage.AllMediaGroups | app/components/ui/DishDetails.tsx:24-26 | the combined list holds every video first, then every image |
| DishDetailsPage.AllMediaKeepsOrder | app/components/ui/DishDetails.tsx:24-26 | the video group and the image group each keep the order the items have in the dish's media |
| DishDetailsPage.AllMediaPermutes | app/components/ui/DishDetails.tsx:24-26 | the combined list has the same length and the same items, with multiplicity, as the dish's media |
| DishDetailsPage.MainMedia | app/components/ui/DishDetails.tsx:27 | null exactly when the list is empty or the index is off it |
| DishDetailsPage.PlaceholderExactlyWithoutMedia | app/components/ui/DishDetails.tsx:88 | with the index on the list, the placeholder shows exactly when the dish has no media |
| DishDetailsPage.FirstImageUrl | app/components/ui/DishDetails.tsx:102 | the url of the first image (no image comes before it), none when there is no image |
| DishDetailsPage.StripThumbnailSrc | app/components/ui/DishDetails.tsx:166-188 | a video's strip thumbnail shows the first image's url when non-empty, otherwise its own url |
| DishDetailsPage.StripItem | app/components/ui/DishDetails.tsx:156 | strip thumbnail i pictures item i of the dish's media |
| DishDetailsPage.ThumbnailShowsOtherItem | app/components/ui/DishDetails.tsx:156-164 | with an image before a video, thumbnail 0 pictures the image while the main view shows the video |
| DishDetailsPage.CorrectedStripItem | app/components/ui/DishDetails.tsx:156 | the corrected strip runs over the reordered list |
| DishDetailsPage.CorrectedThumbnailShowsItsItem | app/components/ui/DishDetails.tsx:156-164 | with the corrected strip, clicking thumbnail i shows the item it pictures, and every item has a thumbnail |
| DishDetailsPage.CurrentQuantity | app/components/ui/DishDetails.tsx:23-29 | the quantity on the dish's cart line, 0 when the dish is not in the cart |
| DishDetailsPage.CurrentQuantityOfLine | app/components/ui/DishDetails.tsx:23-29 | in a cart without duplicate lines, it is the quantity of the dish's line |
| DishDetailsPage.ZeroQuantityRemoves | app/hooks/useCart.ts:38-43 | asking for quantity 0 removes exactly the dish's line |
| DishDetailsPage.MinusAtOneRemoves | app/components/ui/DishDetails.tsx:227 | minus on a dish with one unit takes the dish out of the cart |
| DishDetailsPage.PlusMatchesAdd | app/components/ui/DishDetails.tsx:238 | plus has the same effect as adding the dish to the cart |
| DishDetailsPage.AvailabilityText | app/components/ui/DishDetails.tsx:83 | "В наличии" for a dish in stock, "Под заказ" otherwise |
| DishDetailsPage.AvailabilityTextIsStockBadge | app/components/ui/DishDetails.tsx:83 | the dish page badge reads like the stock badge with preOrderOnly the negation of inStock |
| DishDetailsPage.DishDetails.constructor | app/components/ui/DishDetails.tsx:19-20 | the page starts on the first item, and the city is the query parameter or `''` |
| DishDetailsPage.DishDetails.HandlePreviousImage | app/components/ui/DishDetails.tsx:43-47 | the index moves by `Prev` modulo the media count |
| DishDetailsPage.DishDetails.HandleNextImage | app/components/ui/DishDetails.tsx:49-53 | the index moves by `Next` modulo the media count |
| DishDetailsPage.DishDetails.HandleSelect | app/components/ui/DishDetails.tsx:145-164 | clicking dot or thumbnail i sets the index to i |
| DishDetailsPage.DishDetails.HandleAddToCart | app/components/ui/DishDetails.tsx:31-35 | the cart gets the dish added |
| DishDetailsPage.DishDetails.HandleMinus | app/components/ui/DishDetails.tsx:37-41 | asks the cart for the current quantity minus one |
| DishDetailsPage.DishDetails.HandlePlus | app/components/ui/DishDetails.tsx:37-41 | asks the cart for the current quantity plus one |
| DishDetailsPage.DishDetails.BackTarget | app/components/ui/DishDetails.tsx:56-62 | `/shop?city=<city>` when a city is set, history back otherwise |

## Findings

| source | as written | input that shows it | evidently intended | confidence | as-written member | corrected member |
|---|---|---|---|---|---|---|
| app/components/ui/DishDetails.tsx:156-164 | the main view shows `allMedia[index]` (videos first), while the dots and the mobile thumbnail strip run over `dish.media` in its original order | media `[image a.jpg, video b.mp4]`: thumbnail 0 pictures the image and is highlighted, but the main view shows the video | the strip runs over the same reordered list as the main view, so a thumbnail shows what it pictures | medium, not executed | DishDetailsPage.ThumbnailShowsOtherItem | DishDetailsPage.CorrectedThumbnailShowsItsItem |

## Left out

- Rendering: JSX, styling, icons, aria labels, toasts, dialogs and router pushes. The category-name fetch of the shop page is left out too. Only the decisions that choose what is shown are modelled.
- Malformed request bodies. `request.json()` throwing gives 500 in every route. This is modelled only for the order inquiry and the profile PATCH, where the body is an `Option`.
- Store failures beyond the order insert, the seller insert and the audit append. Read failures give 500; they are not modelled.
- Prisma `include`/`select` expansions. Replies carry the row alone, without the joined user, city, fish or media records.
- Database uniqueness constraints. Only the explicit checks in the code are modelled; `findUnique` is the first match.
- Concurrency and races between requests or React effects.
- bcrypt: the hash output is a parameter of `RegisterRoute.Register`.
- Dates: `createdAt` is an integer key supplied as `now`.
- OrdersRoute.Upper: upper-cases ASCII letters only. Order ids are lower-case alphanumerics, and full Unicode case mapping is not modelled.
- FishRoute.ListFish: sorts by code-point order, not by the database collation.
- AuditRoute.ListAudits: requires a page and limit of at least 1 when they are given. `parseInt` giving NaN, 0 or a negative value is not modelled.
- ProductForm.ProductFormPage.HandleMediaChange: requires an index of an existing input. The page only calls it with rendered indices; a larger index would make a sparse array in JavaScript.
- Fractional weights: the product body's `weight` is an integer. A fractional JSON number, which the route would store as is, is not modelled.
- ProductForm.ParseInt: reads ASCII digits with unbounded integers. Precision loss beyond 2^53 is not modelled.
- SellersMeRoute.PatchProfile: updates the row found by user id in place. Prisma updates by the row's id, which is the same row while seller ids are unique.
- The carousel, gallery and dish page take their list as a fixed prop. A parent changing the list while an index is kept is not modelled.
- The admin CRUD pages, mock and seed data, and type-only files are not part of this model.
