# eyeHub core, modelled in Dafny

eyeHub is an eyewear storefront with a virtual try-on. This project models
and proves the parts of it that make decisions or rearrange lists:

- **Live try-on page** (`src/pages/VirtualTryOnPage.tsx`, module `TryOn`):
  - the face-shape classifier over three landmark ratios;
  - the frame-style recommendation table and the "show only recommended" view;
  - cyclic previous/next product navigation;
  - the overlay sizing and centring;
  - the page's state fields (class `TryOnSession`), including the intended rule that a face shape is classified once and kept until Re-analyze, and the callback as actually registered, which re-classifies on every frame (see Findings);
  - the screenshot, which flips the video but not the overlay (see Findings).
- **Photo try-on page** (`src/pages/VirtualTryOnPage.v2.tsx`, module `PhotoTryOn`):
  - the three flags that choose the idle, camera or photo panel, and the camera, capture, upload and reset handlers that change them (class `PhotoSession`);
  - the placement of the frame bitmap on a still image;
  - the horizontal flip of captures, which is the same flip the preview applies.
- **Catalog page** (`src/pages/ProductListPage.tsx`, module `ProductList`):
  - optional filters applied one after another to a local list, then an in-place sort (an insertion sort over an `array`);
  - checkbox toggling and the Clear Filters reset;
  - the distinct brand, shape and frame-type lists.
- **Mock backend** (`src/api/mock/mockApi.ts`, module `MockApi`):
  - a fixed catalog, plus user and order tables that the create, update, order and wishlist calls change in place (class `MockBackend`);
  - the lookups, modelled as functions of those tables.
- **Client wishlist** (`src/context/WishlistContext.tsx`, module `Wishlist`): the guest path and the signed-in path of add and remove, and the membership query (class `WishlistStore`).
- **Checkout** (`src/pages/CheckoutPage.tsx`, module `Checkout`): shipping, tax and the final total, and the guard sequence of `handlePlaceOrder`, which builds the order data and clears the cart (class `CheckoutPage`).

Shared pieces:

- Module `Seqs` holds the JavaScript array operations the code relies on (`filter`, `findIndex`/`find`, `Array.from(new Set(...))`, `filter(v => v !== x)`, and a chain of conditional filters), with their facts.
- Module `Models` holds the records from `src/models/*`.

Inputs the code receives from the browser or the backend are parameters of the model:

- face detections and the camera's answer;
- whether a canvas or element is mounted;
- a file the user picked;
- API responses, or the fact that a call threw;
- random numbers and today's date.

Every operation that has a class is proved against pure functions, and the lemmas state the properties those functions have.

Toggling a checkbox value twice returns the list only when the value was absent. When it was present, the value comes back at the end of the list, so the list is the same only as a multiset (`ProductList.ToggleTwice`, `ProductList.ToggleTwiceReorders`).

## Model

| member | source | states |
|---|---|---|
| TryOn.Classify | src/pages/VirtualTryOnPage.tsx:171-191 | each of heart, square, round and oval holds exactly on its region of ratio space (both directions), so exactly one category is returned for any ratios |
| TryOn.LongBand | src/pages/VirtualTryOnPage.tsx:171-176 | a length/width ratio of 1.35 or more (1.35 included) gives heart exactly when jaw/cheek < 0.9, otherwise oval |
| TryOn.WideBand | src/pages/VirtualTryOnPage.tsx:177-182 | a ratio of 1.15 or less (1.15 included) gives square exactly when jaw/forehead >= 0.95, otherwise round |
| TryOn.MiddleBand | src/pages/VirtualTryOnPage.tsx:183-191 | strictly between 1.15 and 1.35: heart iff jaw/cheek < 0.85, else square iff jaw/forehead >= 0.95, else oval; never round |
| TryOn.ClassifierExamples | src/pages/VirtualTryOnPage.tsx:171-191 | concrete ratio triples land in the expected categories, one per branch |
| TryOn.ClassifierIsLocal | src/pages/VirtualTryOnPage.tsx:149-168 | the classification depends only on landmarks 234, 454, 10, 152, 172, 397, 21 and 251 |
| TryOn.ClassifierIgnoresSides | src/pages/VirtualTryOnPage.tsx:159-168 | swapping every left/right measured pair leaves the classification unchanged (widths are absolute differences) |
| TryOn.FlipXInvolution | src/pages/VirtualTryOnPage.tsx:351-353 | the horizontal flip x -> width - x applied twice is the identity |
| TryOn.FlipXOnto | src/pages/VirtualTryOnPage.tsx:351-353 | the flip maps [0, width] onto itself |
| TryOn.CanvasFlipIsPreviewFlip | src/pages/VirtualTryOnPage.v2.tsx:93-96 | `scale(-1, 1)` plus drawing at -width puts camera column c at width - c, the same column the preview's CSS flip shows it at: a capture or screenshot shows the preview's orientation, not the camera's |
| TryOn.ClassifierMirrorInvariant | src/pages/VirtualTryOnPage.tsx:147-192 | a face and its horizontal flip classify alike |
| TryOn.FrameRecommendations | src/pages/VirtualTryOnPage.tsx:195-203 | the table is non-empty exactly for the four shape names, and no list repeats a style |
| TryOn.RecommendationsForEveryShape | src/pages/VirtualTryOnPage.tsx:195-203 | every classifier outcome has 5, 4, 4 or 5 recommendations (oval, round, square, heart) |
| TryOn.CatEyeSpellingNeverRecommended | src/pages/VirtualTryOnPage.tsx:197-200 | the catalog spelling 'Cat Eye' is never a recommended tag, so such products never pass the recommended-only filter |
| TryOn.EyewearOnly | src/pages/VirtualTryOnPage.tsx:40-42 | the page's list is the order-preserving subsequence of eyeglasses and sunglasses, exactly the filter by category (so every copy is kept) |
| TryOn.RecommendedProducts | src/pages/VirtualTryOnPage.tsx:395-400 | with the toggle off or no recommendations, the list unchanged; otherwise the order-preserving subsequence whose shape is one of the tags, exactly the filter by shape |
| TryOn.IndexOfId | src/pages/VirtualTryOnPage.tsx:375 | the index of the first product with the id, or -1 exactly when none has it |
| TryOn.PrevIndex | src/pages/VirtualTryOnPage.tsx:376 | the previous index modulo the length; from 0 or a missing selection it is the last |
| TryOn.NextIndex | src/pages/VirtualTryOnPage.tsx:383 | the next index modulo the length; from the last or a missing selection it is 0 |
| TryOn.NavigationWraps | src/pages/VirtualTryOnPage.tsx:373-385 | on a non-empty list both moves land on a listed product; last -> first, first -> last, unknown -> first (next) or last (prev) |
| TryOn.IndexOfUniqueId | src/pages/VirtualTryOnPage.tsx:375 | with unique ids, finding a product's id gives back its own position |
| TryOn.PrevAfterNext | src/pages/VirtualTryOnPage.tsx:373-385 | with unique ids, prev after next and next after prev return the same product |
| TryOn.PlaceLiveOverlay | src/pages/VirtualTryOnPage.tsx:252-285 | centred at the pixel midpoint of the two outer eye corners; width is 1.5 times the eye distance, height 0.4 times the width; lenses symmetric at -width/4 and +width/4, with radii width/3 and height/2 |
| TryOn.LiveOverlayCentred | src/pages/VirtualTryOnPage.tsx:252-288 | the centre is the pixel midpoint of landmarks 33 and 263: both corners lie half the eye distance from it, opposite each other |
| TryOn.EyeDistanceExample | src/pages/VirtualTryOnPage.tsx:252-258 | corners 0.2 apart on a 1000-pixel canvas are 200 pixels apart and give a 300-pixel frame |
| TryOn.TryOnSession.constructor | src/pages/VirtualTryOnPage.tsx:16-23 | the initial field values, with the cache invariant holding |
| TryOn.TryOnSession.LoadProducts | src/pages/VirtualTryOnPage.tsx:35-56 | on success the list becomes the eyewear subsequence and its first item, if any, is selected; a failed load keeps the old list; loading ends false on every path |
| TryOn.TryOnSession.InitializeCamera | src/pages/VirtualTryOnPage.tsx:59-143 | the camera stays enabled exactly when the elements were mounted and the device was acquired; loading ends false |
| TryOn.TryOnSession.OnFaceDetectedSeeing | src/pages/VirtualTryOnPage.tsx:217-320 | the handler's body run against the shape and product it sees: no canvas or product: nothing; no face: cleared and faceDetected false; a face: the overlay placed as above and captioned with the seen product's name; it classifies (and toasts) exactly when the seen shape is '' |
| TryOn.TryOnSession.OnFaceDetected | src/pages/VirtualTryOnPage.tsx:217-320 | the handler reading the current state: classified only when no shape is cached, captioned with the product selected now |
| TryOn.TryOnSession.SetShowRecommendations | src/pages/VirtualTryOnPage.tsx:523-524 | the checkbox sets the recommended-only flag and keeps the cache invariant |
| TryOn.TryOnSession.ReAnalyze | src/pages/VirtualTryOnPage.tsx:532-536 | clears the shape, the recommendations and the recommended-only flag |
| TryOn.TryOnSession.HandlePrevProduct | src/pages/VirtualTryOnPage.tsx:373-378 | the selection becomes the previous product as defined above; nothing happens without a selection |
| TryOn.TryOnSession.HandleNextProduct | src/pages/VirtualTryOnPage.tsx:380-385 | the selection becomes the next product as defined above; nothing happens without a selection |
| TryOn.TryOnSession.SelectProduct | src/pages/VirtualTryOnPage.tsx:610-613 | clicking a displayed card selects it, and it is one of the page's products |
| TryOn.CachedAcrossDetections | src/pages/VirtualTryOnPage.tsx:231-240 | intended: two detections in a row keep the first detection's shape and recommendations |
| TryOn.ClassifiesEveryDetection | src/pages/VirtualTryOnPage.tsx:112 | as registered, with the closure of the render that enabled the camera: two detections in a row both classify, the second's shape wins, and the caption still names the product selected at registration after Next |
| TryOn.ScreenshotAsWritten | src/pages/VirtualTryOnPage.tsx:350-359 | the face lands at its preview column, the frame at the camera's column |
| TryOn.ScreenshotMisplacesFrame | src/pages/VirtualTryOnPage.tsx:350-359 | as written, frame and face coincide iff the eyes are exactly mid-image; otherwise they are width - 2 * centerX apart |
| TryOn.ScreenshotMisplacementExample | src/pages/VirtualTryOnPage.tsx:350-359 | eyes at 0.2 and 0.3 of a 1280-wide frame: face at column 960, frame at 320 |
| TryOn.ScreenshotMirroredDespiteDocs | src/pages/VirtualTryOnPage.tsx:342-368 | the screenshot promised as non-mirrored puts the face at the flipped column width - centerX, which is the camera's column only when the face is exactly mid-image |
| TryOn.ScreenshotCorrected | src/pages/VirtualTryOnPage.tsx:342-368 | as documented (video drawn without the flip): face and frame both at the camera's column centerX, so the frame sits on the face, where the as-written overlay already is |
| TryOn.ScreenshotCorrectedUnmirrors | src/pages/VirtualTryOnPage.tsx:342-368 | the documented screenshot is the mirror image of the preview and of the as-written screenshot's video layer |
| PhotoTryOn.VisiblePanel | src/pages/VirtualTryOnPage.v2.tsx:229-269 | idle iff !cameraEnabled && !photoMode, camera iff cameraEnabled && !photoMode, photo iff photoMode |
| PhotoTryOn.ExactlyOnePanel | src/pages/VirtualTryOnPage.v2.tsx:229-269 | for every flag combination exactly one of the three render conditions holds |
| PhotoTryOn.PlacePhotoOverlay | src/pages/VirtualTryOnPage.v2.tsx:181-210 | centred at the pixel midpoint of the two outer eye corners; width is 2 times the eye distance, height half the width, drawn at (-w/2, -h/2) from the translated origin, so the bitmap is centred there |
| PhotoTryOn.PhotoAndLivePlacementAgree | src/pages/VirtualTryOnPage.v2.tsx:198-210 | same centre as the live overlay; 4/3 as wide and 5/3 as tall |
| PhotoTryOn.DrawEyewearOnPhoto | src/pages/VirtualTryOnPage.v2.tsx:156-212 | no canvas: nothing; otherwise the canvas is sized to the image, and a frame is drawn exactly when there are landmarks, a product and a set product image ref |
| PhotoTryOn.PhotoSession.constructor | src/pages/VirtualTryOnPage.v2.tsx:12-17 | starts idle, with no photo, no stream and not loading |
| PhotoTryOn.PhotoSession.StartCamera | src/pages/VirtualTryOnPage.v2.tsx:59-79 | as written: cameraEnabled true and isLoading false on every path; a stream is attached only if the video element was already mounted |
| PhotoTryOn.PhotoSession.StartCameraAfterMount | src/pages/VirtualTryOnPage.v2.tsx:59-79 | waiting for the element: a stream is attached whenever the device is granted and no photo is shown |
| PhotoTryOn.PhotoSession.CapturePhoto | src/pages/VirtualTryOnPage.v2.tsx:82-110 | with a video and a context: photo mode on, photo set, camera off, stream released, and the detection effect runs; otherwise nothing changes |
| PhotoTryOn.PhotoSession.HandleUpload | src/pages/VirtualTryOnPage.v2.tsx:113-123 | no file changes nothing; a file sets the photo and photo mode, so the detection effect runs, and never touches cameraEnabled |
| PhotoTryOn.PhotoSession.ResetPhoto | src/pages/VirtualTryOnPage.v2.tsx:215-219 | photo mode off, no photo, camera off, so the idle panel is shown and detection stops; the result does not depend on the old state |
| PhotoTryOn.OpenCameraFromIdle | src/pages/VirtualTryOnPage.v2.tsx:59-79 | from a fresh page, Open Camera shows the camera panel but never attaches a stream |
| PhotoTryOn.OpenCameraFromIdleAfterMount | src/pages/VirtualTryOnPage.v2.tsx:59-79 | with the corrected handler, the stream is attached exactly when the device is granted |
| PhotoTryOn.CaptureThenReset | src/pages/VirtualTryOnPage.v2.tsx:82-219 | after opening the camera, a capture shows the photo panel; a reset, and a second reset, show the idle panel |
| ProductList.InitialFilters | src/pages/ProductListPage.tsx:20-26 | the initial filters: the URL category, empty lists, price range [0, 200] |
| ProductList.Filtered | src/pages/ProductListPage.tsx:53-78 | the reference result: an order-preserving subsequence holding exactly the products that pass every active condition, exactly the filter by their conjunction |
| ProductList.SortByKey | src/pages/ProductListPage.tsx:81-90 | the in-place sort leaves the array ordered by the key and a permutation of its old contents |
| ProductList.InsertLast | src/pages/ProductListPage.tsx:81-90 | one insertion step extends the sorted prefix by one element and permutes the array |
| ProductList.ApplyFilters | src/pages/ProductListPage.tsx:52-78 | the step-by-step filtering equals the single filter by the conjunction; empty category/lists impose nothing and the price range is closed |
| ProductList.ApplyFiltersAndSort | src/pages/ProductListPage.tsx:52-100 | a permutation of the filtered list, with the same members; price-low gives non-decreasing price, price-high non-increasing price, rating non-increasing rating; other keys keep the filtered order |
| ProductList.Toggle | src/pages/ProductListPage.tsx:106-114 | a present value is removed everywhere and the rest kept in order, every copy of them (exactly `Seqs.Without`); an absent one is appended |
| ProductList.ToggleNoDup | src/pages/ProductListPage.tsx:106-114 | toggling keeps a checkbox list duplicate-free |
| ProductList.ToggleTwice | src/pages/ProductListPage.tsx:106-114 | on a duplicate-free list, toggling an absent value twice gives the list back; a present one comes back at the end, the same multiset |
| ProductList.ToggleTwiceReorders | src/pages/ProductListPage.tsx:106-114 | ["A", "B"] with "A" toggled twice is ["B", "A"] |
| ProductList.ToggleFilter | src/pages/ProductListPage.tsx:106-114 | only the named checkbox list changes; category and price range are kept |
| ProductList.ClearFilters | src/pages/ProductListPage.tsx:226-233 | the result is the initial state for the current category |
| ProductList.ClearedFiltersKeep | src/pages/ProductListPage.tsx:226-233 | after clearing, a product is listed iff it is in the category (any, if none) and priced from 0 to 200 inclusive |
| ProductList.PriceRangeInclusive | src/pages/ProductListPage.tsx:76-78 | a product priced exactly at either bound is kept |
| ProductList.UniqueListsFacts | src/pages/ProductListPage.tsx:102-104 | each distinct list is duplicate-free and holds exactly the values that occur; brands come in first-occurrence order |
| Seqs.FilterIsSubseq | src/pages/ProductListPage.tsx:57 | `filter` keeps order: its result is a subsequence of its input |
| Seqs.FilterFilter | src/pages/ProductListPage.tsx:56-78 | two filters in a row are one filter by the conjunction |
| Seqs.DedupFacts | src/pages/ProductListPage.tsx:102-104 | `Array.from(new Set(xs))` is duplicate-free and has the same members as `xs` |
| Seqs.DedupOrder | src/pages/ProductListPage.tsx:102-104 | the distinct values come in the order of their first occurrence |
| Seqs.Without | src/api/mock/mockApi.ts:190 | every occurrence is removed, every other member kept, in order (exactly the filter `v => v !== x`) |
| Seqs.FilterMultiset | src/api/mock/mockApi.ts:139 | a filter keeps every copy of a kept element and no copy of a dropped one |
| Seqs.PipelineIsFilter | src/api/mock/mockApi.ts:11-30 | a chain of conditional filters is one filter by the conjunction of its active steps |
| Seqs.FilterConcat | src/api/mock/mockApi.ts:139 | filtering an appended list filters each part |
| MockApi.ParseNatToString | src/api/mock/mockApi.ts:73 | the decimal rendering of a counter reads back as the counter |
| MockApi.GeneratedIdsDiffer | src/api/mock/mockApi.ts:73 | ids generated from different counters differ |
| MockApi.PatchLaws | src/api/mock/mockApi.ts:100 | an empty `updates` changes nothing, and applying the same updates twice is applying them once |
| MockApi.GetProducts | src/api/mock/mockApi.ts:9-33 | the order-preserving subsequence of the catalog that matches every truthy key by equality or bound; the six-step chain equals one filter by the query |
| MockApi.ZeroPriceBoundsIgnored | src/api/mock/mockApi.ts:19-24 | a minimum or maximum price of 0 is falsy and ignored: it gives the same list as no bound |
| MockApi.NoQueryIsCatalog | src/api/mock/mockApi.ts:9-33 | with no keys the whole catalog is returned, in order |
| MockApi.GetProductById | src/api/mock/mockApi.ts:35-42 | succeeds iff some product has the id, with the first such product; else 'Product not found' |
| MockApi.GetFeaturedProducts | src/api/mock/mockApi.ts:49-52 | the first four catalog entries, or all of them if fewer |
| MockApi.LoginUser | src/api/mock/mockApi.ts:55-63 | succeeds iff some row matches both email and password, returning the first such row without its password |
| MockApi.GetUserProfile | src/api/mock/mockApi.ts:84-92 | succeeds iff some row has the id, returning the first without its password |
| MockApi.CreateKeepsEmailsDistinct | src/api/mock/mockApi.ts:67-78 | refusing taken emails keeps the table's emails distinct |
| MockApi.LoginAfterCreate | src/api/mock/mockApi.ts:55-82 | a created account logs in at once with its email and password, and the login returns the created record |
| MockApi.WishlistLaws | src/api/mock/mockApi.ts:172-192 | add leaves the id present, never duplicates and is idempotent; remove drops every copy and is idempotent; add then remove is remove |
| MockApi.GetWishlist | src/api/mock/mockApi.ts:162-170 | unknown user: 'User not found'; else the catalog products whose id is in the first matching user's wishlist, in catalog order (exactly that filter of the catalog) |
| MockApi.DefaultTimeline | src/api/mock/mockApi.ts:113-119 | five steps, the first completed and dated today, the others open and undated |
| MockApi.CheckoutOrderDefaults | src/api/mock/mockApi.ts:106-126 | an order from the checkout's four keys is 'processing' with only the first timeline step done and carries the sent user, total, items and address |
| MockApi.GetOrderById | src/api/mock/mockApi.ts:128-135 | succeeds iff some order has the key as id or order number, with the first such order |
| MockApi.GetUserOrders | src/api/mock/mockApi.ts:137-141 | exactly that user's orders, in the order they were placed (exactly the filter by user) |
| MockApi.GetOrderStatus | src/api/mock/mockApi.ts:143-159 | by order number only: status, timeline, delivery date and tracking number of the first match |
| MockApi.PlacedOrderFound | src/api/mock/mockApi.ts:106-141 | a placed order with a fresh id is found by that id and is appended to its user's orders only |
| MockApi.MockBackend.constructor | src/api/mock/mockApi.ts:3 | the tables start as the fixtures given |
| MockApi.MockBackend.CreateUser | src/api/mock/mockApi.ts:65-82 | a taken email fails with the table unchanged; otherwise exactly one row is appended (id u(n+1) unless supplied, empty wishlist and orders), and distinct emails and duplicate-free wishlists stay so |
| MockApi.MockBackend.UpdateUserProfile | src/api/mock/mockApi.ts:94-103 | an unknown id fails with no change; otherwise only the first matching row is replaced by its patched version |
| MockApi.MockBackend.PlaceOrder | src/api/mock/mockApi.ts:106-126 | always succeeds and appends exactly the new order |
| MockApi.MockBackend.AddToWishlist | src/api/mock/mockApi.ts:172-182 | unknown user: no change; else only that user's wishlist gains the id if absent, and duplicate-free wishlists stay so |
| MockApi.MockBackend.RemoveFromWishlist | src/api/mock/mockApi.ts:184-192 | unknown user: no change; else every copy of the id leaves that user's wishlist, the rest in order |
| Wishlist.InList | src/context/WishlistContext.tsx:86-88 | true iff some item has the id |
| Wishlist.RemoveById | src/context/WishlistContext.tsx:70-84 | every item with the id goes, the others stay in order (exactly the filter by id) |
| Wishlist.GuestAddLaws | src/context/WishlistContext.tsx:63-66 | a guest add is a no-op for a listed id and appends otherwise; ids stay distinct; adding twice equals adding once |
| Wishlist.RemoveLaws | src/context/WishlistContext.tsx:70-84 | removing is idempotent, removing after a guest add is just removing, and distinct ids stay distinct |
| Wishlist.SignedInAddDuplicates | src/context/WishlistContext.tsx:51-57 | the signed-in add appends with no duplicate check, so appending a product whose id is already listed leaves two items with that id |
| Wishlist.WishlistStore.constructor | src/context/WishlistContext.tsx:17-21 | the list starts as what local storage held, or empty |
| Wishlist.WishlistStore.IsInWishlist | src/context/WishlistContext.tsx:86-88 | true iff some item has the id |
| Wishlist.WishlistStore.LoadUserWishlist | src/context/WishlistContext.tsx:36-49 | with a user, a successful response replaces the list and anything else keeps it; loading ends false |
| Wishlist.WishlistStore.AddToWishlist | src/context/WishlistContext.tsx:51-68 | signed in: the product is appended whenever the call returns, even with success false, and nothing changes if it throws; guest: the duplicate-free add |
| Wishlist.WishlistStore.RemoveFromWishlist | src/context/WishlistContext.tsx:70-84 | both paths drop every item with the id (a thrown signed-in call changes nothing), after which isInWishlist is false |
| Checkout.Shipping | src/pages/CheckoutPage.tsx:50 | shipping is 0 exactly when the total is at least 50, otherwise 10 |
| Checkout.FinalTotalBands | src/pages/CheckoutPage.tsx:50-52 | the final total is 1.08 times the cart plus 10 below 50, 1.08 times the cart from 50; it grows within each band |
| Checkout.CrossingThresholdLowersTotal | src/pages/CheckoutPage.tsx:50-52 | a cart just under 50 pays more in total than a cart of exactly 50 |
| Checkout.OrderItems | src/pages/CheckoutPage.tsx:70-76 | one order line per cart line, in order, with productId := id and the same name, price, quantity and image |
| Checkout.GuardIgnoresCountry | src/pages/CheckoutPage.tsx:60-63 | an empty street, city, state or zip fails the guard; the country never matters |
| Checkout.CheckoutOrderStored | src/pages/CheckoutPage.tsx:67-80 | the stored order carries the user, the final total, the cart lines and the address, and starts 'processing' with one timeline step done |
| Checkout.CheckoutPage.constructor | src/pages/CheckoutPage.tsx:21-22 | no modal, not loading, the cart as given |
| Checkout.CheckoutPage.HandlePlaceOrder | src/pages/CheckoutPage.tsx:54-94 | no user: the auth modal and nothing sent; an incomplete address: an error and nothing sent; else the built order is sent, the cart is cleared only on success, and loading ends false |

## Left out

- Browser and device calls are parameters or left out. These are the FaceMesh detector, `CameraUtils`, `getUserMedia`, playing and stopping tracks, every canvas drawing call, `toDataURL`, downloads and `FileReader`. A detection is a landmark sequence or none; a camera request is granted or not; a file read is a data URL or none.
- `Math.sqrt` and `Math.atan2` are not computed. The eye distance is a parameter, tied to the landmarks by `e >= 0` and `e * e == dx * dx + dy * dy`. The rotation angle is not modelled.
- Floating point: ratios, prices and pixel positions are exact reals. Rounding, `NaN` and `Infinity` (a zero face or forehead width) are outside the model, which is why the classifier requires non-zero widths.
- React scheduling and effects are not modelled in general. Each handler's state updates take effect in order within one call. Render timing decides behaviour in two places, both in Findings: the photo page's camera handler, and the live page's detector callback, which keeps the state of the render that registered it. The callback is modelled by passing the state it sees (`TryOn.TryOnSession.OnFaceDetectedSeeing`).
- The delays, `Math.random` and `Date` in the mock backend are parameters: digits for the order and tracking numbers, and strings for today's and the delivery date. `getCategories` only returns a fixture list and is not modelled.
- `localStorage` in the wishlist is not modelled: the saved list is a constructor parameter and writing it back is omitted.
- The cart context (`src/context/CartContext.tsx`) is not part of this model. Its items and total are inputs of the checkout, and `clearCart` is modelled as emptying the page's copy of the cart.
- Toasts and navigation: only the checkout's toast text and the order number it navigates to are kept. Other toasts are omitted. Of the live page's screenshot, only where the face and the frame land is modelled, not the drawing or the download.
- The v2 page's product loading and image caching repeat the live page's loading (modelled as `TryOn.TryOnSession.LoadProducts`) and are not modelled again. Its detection effect is modelled as the condition under which it runs (`PhotoTryOn.PhotoSession.DetectionRuns`) and the drawing it triggers (`PhotoTryOn.DrawEyewearOnPhoto`).
- The fixtures (`src/api/mock/mockData.ts`) are not modelled. Only the 'Cat Eye' spelling at line 103 is used, as a concrete witness.
- `src/api/ApiFacade.ts`, `src/context/UserContext.tsx`, and the display-only pages and components are not modelled.
- ProductList.ApplyFiltersAndSort: does not state that equal keys keep their filtered order, although JavaScript's sort is stable. Only sortedness and permutation are proved.
- MockApi.MockBackend.PlaceOrder: the random order and tracking numbers are plain naturals. The model does not restrict them to the six and twelve digits that `Math.floor(100000 + Math.random() * 900000)` and its tracking counterpart produce.
- MockApi.MockBackend.UpdateUserProfile: an update cannot set `phone` or `address` back to `undefined`, because a key present in the patch always holds a value here.
- TryOn.TryOnSession.SelectProduct: requires the card to be in the displayed list. It does not restrict the card to the first nine entries the grid renders.

## Findings

| source | as written | input that shows it | evidently intended | confidence | as-written member | corrected member |
|---|---|---|---|---|---|---|
| src/pages/VirtualTryOnPage.v2.tsx:59-79 | `startCamera` sets `cameraEnabled` and reads `videoRef.current` in the same turn. The video element is rendered only when `cameraEnabled && !photoMode` (line 254), and the button that calls the handler exists only in the idle panel (line 229), so the element is never mounted yet and the handler returns before requesting the camera. | Click "Open Camera" on a fresh page with the camera granted: the camera panel appears, no stream is ever attached, and capturing draws an empty frame. | Wait for the video element to mount before looking it up, as the live page does at src/pages/VirtualTryOnPage.tsx:64-65, so that a granted camera is attached. | not executed | PhotoTryOn.OpenCameraFromIdle | PhotoTryOn.OpenCameraFromIdleAfterMount |
| src/pages/VirtualTryOnPage.tsx:112 | `initializeCamera` registers `onFaceDetected` with the detector once. That closure keeps the `faceShape` and `selectedProduct` of the render in which the camera was enabled, and `faceShape` is '' then on a fresh page. So the `!faceShape` test at line 232 passes on every frame with a face: each such frame classifies again, stores the shape and shows a toast. The caption at line 316 keeps naming the product selected at that time. | Enable the camera with a product selected and keep a face in view for two frames, pressing Next in between: both frames classify and toast, and the second caption still names the first product. | Classify once and keep the shape until Re-analyze, as the comment at line 231 says, and caption the product selected now. This is `onFaceDetected` reading current state, for example through a ref. | not executed | TryOn.ClassifiesEveryDetection | TryOn.CachedAcrossDetections |
| src/pages/VirtualTryOnPage.tsx:342-368 | The comments at lines 342, 350 and 352 and the toast at line 368 promise a screenshot without the mirror effect. The code draws the video through `scale(-1, 1)`, which is the preview's own flip, so the saved face is mirrored after all. It then copies the overlay canvas, whose frame is drawn in camera columns, without any flip, so the frame misses the face. The photo page's capture has the same mismatch: its comment at src/pages/VirtualTryOnPage.v2.tsx:92 says non-mirrored, but the code at lines 93-96 applies the same flip. | Take a screenshot with the eyes at 0.2 and 0.3 of a 1280-pixel-wide frame: the face is centred at column 960, and the frame is drawn at column 320. | Draw the video without the flip, as the comments and the toast say: the face and the frame both stay at the camera's column, and the frame sits on the face. | not executed | TryOn.ScreenshotMisplacesFrame | TryOn.ScreenshotCorrected |
