# A verified model of the ecommerce-react storefront core

This project models the logic of a small React storefront in Dafny. It covers
six parts of the storefront:

- **Product list page.** One effect derives the shown products from the
  fetched catalog. It applies a case-insensitive search on title and
  description, then an exact category filter, then one of three stable sorts.
  The category selector lists the distinct non-empty categories in catalog
  order.
- **Checkout page.** Twelve text fields, each with its own validation rule.
  The page keeps an error map. The input handler edits one field and blanks
  that field's error. The submit handler either shows the success toast,
  clears the cart and goes home, or only shows the error toast.
- **Product detail page.** A quantity selector that never drops below 1. The
  add-to-cart handler calls `addToCart` once per unit and then shows a toast.
  "Buy now" does the same and then opens the cart.
- **Review provider.** Reviews go in front of the list. `getProductReviews`
  selects one product's reviews. `getAverageRating` returns their mean, or 0
  when there are none.
- **Order provider.** Orders go in front of the list with status `pending`.
  `getOrderById` returns the first match.
- **Auth provider.** Login and sign-up produce mock users. Logout empties the
  user slot. `isAuthenticated` is `!!user`.

All three providers mirror their state into `localStorage`. The model gives
them one shared `LocalStorage` object. Each provider loads from it when it
mounts and writes back after every change, as its effect does.

Module layout:
- `Sequences`: the `filter` and `Set` idioms.
- `Sorting`: the stable `Array.prototype.sort`.
- `Text`: whitespace, digits, `trim`, lower case and number formatting.
- `Catalog`: the product list page.
- `Checkout`: the checkout page.
- `Effects`: toasts, cart calls and navigation, returned as values.
- `Reviews`, `Orders` and `Users`: the records and the pure operations on them.
- `Storage`: `localStorage`.
- `ReviewContext`, `OrderContext` and `AuthContext`: the providers.
- `ProductDetail`: the product detail page.

Notes on the model:
- State that the source updates in place is a class with a `modifies` clause
  on each method that changes state: the checkout form, the three
  providers, the detail page and the storage.
- Derivations that only compute are functions, with lemmas about them.
- Handlers return the effects they cause: `Effects.Effect` values such as
  `ShowToast`, `AddToCart`, `ClearCart` and `Navigate`.
- The clock (`Date.now()`) is a parameter `now: nat`, in milliseconds.

## Model

| member | source | states |
|---|---|---|
| Sequences.Filter | src/pages/ProductsPage.tsx:47-57 | the result is a subsequence of the input, every kept element passes the test, and each element keeps all of its copies exactly when it passes |
| Sequences.Distinct | src/pages/ProductsPage.tsx:31 | `Array.from(new Set(xs))`: no duplicates, the same members as the input, listed in the order of their first occurrence |
| Sorting.SortByKeyCorrect | src/pages/ProductsPage.tsx:60-66 | the sort is ascending by key, is a permutation of its input, and keeps elements of equal key in input order (stability) |
| Sorting.SortOfSortedIsIdentity | src/pages/ProductsPage.tsx:60-66 | a list already in key order comes back unchanged |
| Sorting.SortByKey | src/pages/ProductsPage.tsx:60-66 | the insertion sort returns its input ascending by key and as a permutation of it |
| Text.TrimNonEmptyIff | src/pages/CheckoutPage.tsx:68 | `s.trim()` is non-empty exactly when `s` holds a non-whitespace character |
| Text.Trim | src/pages/CheckoutPage.tsx:68 | `trim()` returns the block of the input left after cutting leading and trailing whitespace; it neither starts nor ends with whitespace |
| Text.RemoveNonDigits | src/pages/CheckoutPage.tsx:73 | `replace(/\D/g, '')` keeps, in order, every copy of exactly the ASCII digits of the input |
| Text.RemoveWhitespace | src/pages/CheckoutPage.tsx:80 | `replace(/\s/g, '')` keeps, in order, every copy of exactly the non-whitespace characters of the input |
| Text.Utf16Length | src/pages/CheckoutPage.tsx:80 | `.length` counts one code unit per character of the Basic Multilingual Plane and two per other character, so it lies between the character count and twice it, and equals it for BMP-only text |
| Text.Lower | src/pages/ProductsPage.tsx:49-50 | `toLowerCase` maps each character on its own and keeps the length |
| Text.Contains | src/pages/ProductsPage.tsx:49-50 | `includes` holds exactly when the haystack is some text, the needle, then some text; the empty needle is in every string, and a needle longer than the haystack is in none |
| Text.LowerIdempotent | src/pages/ProductsPage.tsx:49-50 | lowercasing an already lowercased string changes nothing |
| Text.PrefixedIdInjective | src/context/OrderContext.tsx:34 | ids made of a prefix and a timestamp differ whenever the timestamps do |
| Catalog.SearchFilter | src/pages/ProductsPage.tsx:47-52 | an empty term keeps everything; otherwise each product is kept with all its copies exactly when its lowercased title or description contains the lowercased term |
| Catalog.MatchesSearch | src/pages/ProductsPage.tsx:48-51 | the empty term matches every product; a match needs the term to fit in the title or in a present description |
| Catalog.SearchIgnoresCase | src/pages/ProductsPage.tsx:48-51 | a term and its lowercased form match the same products |
| Catalog.CategoryFilter | src/pages/ProductsPage.tsx:55-57 | `'all'` keeps everything; otherwise exactly the products of that category are kept, in order |
| Catalog.Filtered | src/pages/ProductsPage.tsx:47-57 | both filters together keep, in catalog order, every copy of exactly the products that pass both |
| Catalog.FilterAndSort | src/pages/ProductsPage.tsx:43-69 | the result holds exactly the filtered products. It is ascending by price for `price-low`, descending by price for `price-high`, and descending by `rating?.rate \|\| 0` for `rating`. Ties keep catalog order, and any other key leaves the filtered order alone |
| Catalog.Categories | src/pages/ProductsPage.tsx:31 | `data.map(p => p.category)`: one entry per product, in catalog order, holding its category or `""` when it has none |
| Catalog.CategoryLabels | src/pages/ProductsPage.tsx:31 | `.filter(Boolean)` on the mapped categories: a subsequence of them, in catalog order, holding every copy of each non-empty category and no `""`; so exactly the present, non-empty categories |
| Catalog.UniqueCategories | src/pages/ProductsPage.tsx:31 | the selector's categories: no duplicates, exactly the non-empty categories some product has, in order of first appearance |
| Checkout.With | src/pages/CheckoutPage.tsx:58 | `{ ...prev, [name]: value }` sets the named field and no other |
| Checkout.RequiredFieldValidIff | src/pages/CheckoutPage.tsx:68-83 | each of the seven plain fields passes exactly when it holds a non-whitespace character |
| Checkout.EmailValidIff | src/pages/CheckoutPage.tsx:70-72 | the email passes exactly when the unanchored `\S+@\S+\.\S+` matches somewhere in it |
| Checkout.PhoneValidIff | src/pages/CheckoutPage.tsx:73-75 | the phone passes exactly when it holds at least ten ASCII digits, whatever else it holds |
| Checkout.CardNumberValidIff | src/pages/CheckoutPage.tsx:80-82 | the card number passes exactly when its non-whitespace characters take exactly 16 UTF-16 code units, whatever those characters are; for text of the Basic Multilingual Plane, exactly when it has 16 non-whitespace characters |
| Checkout.ExpiryValidIff | src/pages/CheckoutPage.tsx:84-86 | the expiry passes exactly when it is two digits, a slash and two digits; the month is not range-checked |
| Checkout.CvvValidIff | src/pages/CheckoutPage.tsx:87-89 | the CVV passes exactly when it is three or four digits |
| Checkout.FormErrors | src/pages/CheckoutPage.tsx:66-89 | the error map has an entry for exactly the fields whose rule fails, each with that field's message |
| Checkout.FormErrorsEmptyIff | src/pages/CheckoutPage.tsx:92 | the key count is zero exactly when every rule passes |
| Checkout.CheckoutForm.constructor | src/pages/CheckoutPage.tsx:29-44 | all twelve fields start empty and there are no errors |
| Checkout.CheckoutForm.HandleInputChange | src/pages/CheckoutPage.tsx:56-63 | the named field takes the value and no other field changes. A non-empty error on that field becomes `''` and keeps its key; otherwise the errors are untouched. No other error changes |
| Checkout.CheckoutForm.ValidateForm | src/pages/CheckoutPage.tsx:65-93 | the form is unchanged and the errors become exactly the failing fields' messages. The answer is true exactly when every rule passes, which is exactly when the new error map is empty |
| Checkout.CheckoutForm.HandleSubmit | src/pages/CheckoutPage.tsx:95-108 | a valid form yields the success toast, then `clearCart`, then navigation to `/`; an invalid one yields only the error toast. The form is unchanged, the errors become exactly the failing fields' messages, and the cart is cleared exactly when the form is valid |
| Reviews.NewReview | src/context/ReviewContext.tsx:34-42 | the new review has id `REV-<now>`, user id `now`, date `now`, and the given product, rating, user name and comment |
| Reviews.ProductReviews | src/context/ReviewContext.tsx:46-48 | in list order, every copy of exactly the reviews of that product |
| Reviews.Ratings | src/context/ReviewContext.tsx:53 | the ratings, one per review, in order |
| Reviews.Mean | src/context/ReviewContext.tsx:50-55 | 0 for no ratings; otherwise the mean times the count equals the sum |
| Reviews.AverageRating | src/context/ReviewContext.tsx:50-55 | `getAverageRating` on a list: 0 when the product has no reviews, otherwise the sum of its ratings over their count |
| Reviews.ProductReviewsPrepend | src/context/ReviewContext.tsx:43 | prepending a review puts it in front of its own product's selection and changes no other product's selection |
| Reviews.MeanPrepend | src/context/ReviewContext.tsx:50-55 | after one more rating, the mean is the old sum plus the new rating, over the old count plus one |
| Reviews.AverageAfterAdd | src/context/ReviewContext.tsx:43-55 | after `addReview`, the product's average is the mean of the new rating followed by its earlier ones |
| Reviews.AverageOfOtherProduct | src/context/ReviewContext.tsx:43-55 | after `addReview`, every other product keeps its average |
| Reviews.SumBounds | src/context/ReviewContext.tsx:53 | ratings within `[lo, hi]` sum to between `lo` and `hi` times their count |
| Reviews.MeanBounds | src/context/ReviewContext.tsx:54 | the mean of ratings within `[lo, hi]` lies within `[lo, hi]` |
| Reviews.AverageRatingBounds | src/context/ReviewContext.tsx:50-55 | a reviewed product's average lies between the lowest and highest rating stored |
| ReviewContext.ReloadRestoresReviews | src/context/ReviewContext.tsx:24-31 | what the persist effect stores is what the next load returns |
| ReviewContext.LoadReviews | src/context/ReviewContext.tsx:24-27 | the lazy initialiser returns the stored review list when one is stored under `reviews`, and `[]` otherwise |
| ReviewContext.ReviewProvider.constructor | src/context/ReviewContext.tsx:24-31 | the list is the stored list, or `[]` when none is stored, and it is written back under `reviews` with no other key touched |
| ReviewContext.ReviewProvider.AddReview | src/context/ReviewContext.tsx:33-44 | the new review goes in front of the list and the list is persisted under `reviews`; no other key changes |
| ReviewContext.ReviewProvider.GetProductReviews | src/context/ReviewContext.tsx:46-48 | in list order, every copy of exactly the provider's reviews of that product |
| ReviewContext.ReviewProvider.GetAverageRating | src/context/ReviewContext.tsx:50-55 | 0 when the product has no reviews, otherwise the sum of their ratings over their count |
| Orders.NewOrder | src/context/OrderContext.tsx:32-42 | the new order has id `ORD-<now>` and status pending, and keeps the items, total and address |
| Orders.FindOrder | src/context/OrderContext.tsx:44-46 | no answer exactly when no order has the id; otherwise the order at the first index carrying the id, which is in the list and carries the id |
| Orders.FindNewOrder | src/context/OrderContext.tsx:39-45 | right after `addOrder`, the new id finds the new order |
| Orders.FindOtherOrder | src/context/OrderContext.tsx:39-45 | prepending an order changes no other id's lookup |
| Orders.OrderIdsDistinct | src/context/OrderContext.tsx:34 | two order ids are equal exactly when their timestamps are; orders placed in the same millisecond share an id |
| OrderContext.ReloadRestoresOrders | src/context/OrderContext.tsx:23-30 | what the persist effect stores is what the next load returns |
| OrderContext.LoadOrders | src/context/OrderContext.tsx:23-26 | the lazy initialiser returns the stored order list when one is stored under `orders`, and `[]` otherwise |
| OrderContext.OrderProvider.constructor | src/context/OrderContext.tsx:23-30 | the history is the stored list, or `[]` when none is stored, and it is written back under `orders` with no other key touched |
| OrderContext.OrderProvider.AddOrder | src/context/OrderContext.tsx:32-46 | the new pending order goes in front and is persisted. `getOrderById` then finds it under its id and answers every other id as before |
| OrderContext.OrderProvider.GetOrderById | src/context/OrderContext.tsx:44-46 | none exactly when no order in the history has the id, otherwise the order at the first index carrying it |
| Users.LoginUser | src/context/AuthContext.tsx:41-47 | login gives user 1, John Doe, with the entered email and token `mock-jwt-token-<now>`, whatever the password |
| Users.SignupUser | src/context/AuthContext.tsx:63-69 | sign-up gives the entered email and names, id `now` and token `mock-jwt-token-<now>`, whatever the password |
| Users.SessionTokensDistinct | src/context/AuthContext.tsx:46 | tokens are equal exactly when their timestamps are |
| Storage.LocalStorage.constructor | src/context/AuthContext.tsx:24 | the storage starts with the given entries |
| Storage.LocalStorage.SetItem | src/context/AuthContext.tsx:30 | the key holds the value and no other key changes |
| Storage.LocalStorage.RemoveItem | src/context/AuthContext.tsx:32 | the key is gone and no other key changes |
| AuthContext.SyncedEntries | src/context/AuthContext.tsx:28-34 | with a user, the key `user` holds it; without one the key is absent; every other key is untouched |
| AuthContext.LoadUser | src/context/AuthContext.tsx:23-26 | the lazy initialiser returns a user exactly when one is stored under `user`, and then that user |
| AuthContext.ReloadRestoresSession | src/context/AuthContext.tsx:23-34 | after the sync effect, a reload restores exactly the same user slot |
| AuthContext.SyncIdempotent | src/context/AuthContext.tsx:23-34 | mounting a second time loads the same user and leaves the storage as the first mount did |
| AuthContext.AuthProvider.constructor | src/context/AuthContext.tsx:23-34 | the slot is the stored user, or none, and the sync effect then runs once |
| AuthContext.AuthProvider.SyncStorage | src/context/AuthContext.tsx:28-34 | the storage becomes the synced form of the slot, so a reload would restore it |
| AuthContext.AuthProvider.Login | src/context/AuthContext.tsx:36-52 | resolves true, signs in the mock user, persists it and makes `isAuthenticated` true |
| AuthContext.AuthProvider.Signup | src/context/AuthContext.tsx:54-74 | resolves true, signs in the new account, persists it and makes `isAuthenticated` true |
| AuthContext.AuthProvider.Logout | src/context/AuthContext.tsx:76-78 | the slot is emptied, `user` is removed from storage with no other key touched, and `isAuthenticated` becomes false |
| AuthContext.AuthProvider.IsAuthenticated | src/context/AuthContext.tsx:87 | `!!user` is true exactly when a user is signed in |
| ProductDetail.RunBounds | src/pages/ProductDetailPage.tsx:88-100 | from a quantity of at least 1, any presses of `-` and `+` keep it at least 1 and add at most one per press |
| ProductDetail.StepsUndo | src/pages/ProductDetailPage.tsx:88-100 | `-` undoes `+`; `+` undoes `-` above 1; `-` at 1 stays at 1 |
| ProductDetail.Step | src/pages/ProductDetailPage.tsx:88-100 | `-` gives the larger of 1 and one less than the quantity; `+` gives one more |
| ProductDetail.AddToCartEffects | src/pages/ProductDetailPage.tsx:34-41 | no product gives no effect. A product and quantity `q` give exactly `q` `addToCart` calls with it, then the toast `Added <q> item(s) to cart! 🎉` |
| ProductDetail.ProductDetailPage.constructor | src/pages/ProductDetailPage.tsx:12-14 | the quantity starts at 1, so the page starts valid (quantity at least 1) |
| ProductDetail.ProductDetailPage.Decrement | src/pages/ProductDetailPage.tsx:89 | the quantity becomes `max(1, q - 1)`, so it is at least 1 afterwards |
| ProductDetail.ProductDetailPage.Increment | src/pages/ProductDetailPage.tsx:96 | the quantity becomes `q + 1` and stays at least 1 |
| ProductDetail.ProductDetailPage.HandleAddToCart | src/pages/ProductDetailPage.tsx:34-41 | on a valid page, the loop produces exactly the effects `AddToCartEffects` specifies: with a product, `quantity` add-to-cart calls and then the toast |
| ProductDetail.ProductDetailPage.HandleBuyNow | src/pages/ProductDetailPage.tsx:43-46 | the add-to-cart effects, then navigation to `/cart` |

## Left out

- Network fetches. The fetched catalog is a parameter of `Catalog.FilterAndSort`, and the fetched product is a parameter of the detail page's constructor. Loading and error states are not modelled.
- The cart and wishlist providers. `CartContext` is not part of this model. `Orders.CartItem` is an opaque type, and `addToCart` and `clearCart` appear only as `Effects.Effect` values.
- Timers. The 1000 ms delay in `login` and `signup` and the 2000 ms delay before `clearCart` are not modelled. Each operation takes effect at once, in the order the effects list gives. So is the race where a logout lands inside the login delay.
- React batching and stale closures. Each handler reads the state as it was when the handler ran, and the persist effect runs right after each change.
- JSON. Stored values are kept as records, so `JSON.stringify` and `JSON.parse` are the identity. Malformed stored text is not modelled, and a stored value of the wrong shape loads as empty.
- Dates. `new Date().toISOString()` is the millisecond count `now`, not an ISO string.
- Reviews.NewReview, Orders.NewOrder, Users.SignupUser: every clock read inside one `addReview`, `addOrder` or `signup` call is taken as the single instant `now`. The source reads `Date.now()` (or `new Date()`) two or three times per call, and those reads may fall in different milliseconds. So the model's agreement between a review's id, user id and date, between an order's id and date, and between a new user's id and token is not promised by the source.
- Money. Subtotal, tax and total arithmetic are left out. Prices and ratings are exact reals, so floating-point rounding is not modelled.
- Text.Lower: lower-cases ASCII letters only; full Unicode case mapping is not modelled.
- Checkout.FormErrors: the twelve `if` statements of `validateForm` become one map comprehension. Key insertion order is not modelled because only the key count is used.
- The checkout page showing an empty-cart message instead of the form when the cart is empty.
- `Array.prototype.sort` sorting a fresh copy in place. It is modelled as a value; its result is fully determined because the sort is stable.
- Rendering, styling, routing and the presentation components.
