# Storefront client cart and checkout, modelled in Dafny

This project models the client side of a small storefront (React, JavaScript):
the shop context that holds the cart and the orders, the checkout page's
two-phase submit (create the order, then start the M-Pesa payment), the cart
page's merge of placeholder cart lines with full product records, and the
collection page's category filter and price sort.

Each network call becomes an input: a `Reply<T>` is either the response body
(`Answered(data)`) or the rejection that reaches the handler's `catch` block
(`Threw`). Each handler returns the `Request` it issues, so the model says
which endpoint it uses and what it sends. The two functions the pages use but
the context does not provide are treated as oracles. `fetchProductById` is a
function parameter `string -> Fetched`. `setCartItemQuantity` is recorded as
the call made.

Files, one module each:

- `wrappers.dfy`: `Option` and `Reply`.
- `shop_context.dfy`: entities, the projection of server cart items, the totals, and class `Shop` (`products`, `cart`, `orders`) with one method per handler.
- `checkout.dfy`: the shipping form and class `CheckoutPage` (`shippingInfo`, `loading`, `message`) with `HandleSubmit`.
- `cart_checkout.dfy`: hydration of placeholder lines and class `CartCheckoutPage` (`loading`, `cartDetails`).
- `collection.dfy`: the category filter, an in-place price sort on an array, and the effect body `ShowProducts`.

## Where the code and its design description differ

The model follows the code in each case.

- `createOrder` empties the cart as soon as the reply carries an `order`, before any payment (src/Context/ShopContext.jsx:137-140). So after a checkout whose payment fails, the cart is already empty. The checkout handler itself calls `clearCart` only after a successful payment. `CheckoutPage.HandleSubmit` states both facts. The design says the cart must survive a failed payment; the code does not do that.
- A reply with `success: false` that still carries an `order` makes the context record the order and empty the cart. The checkout page then reports "Failed to create order. Try again."
- If `success` is true but no `order` is present, reading `order._id` throws. The page reports "An error occurred. Try again." and attempts no payment.
- A cart line counts as a placeholder when its name is missing, empty or `"N/A"`, because `!item.name` is also true for `""`.
- A server cart item whose `productId` is `null` makes the projection throw. `myCart` then empties the cart. `addToCart` returns false. `removeFromCart` and `updateCartItemQuantity` leave the cart alone.
- The client has no single-flight or sequence-number guard. It does not enforce one line per product, and it merges no quantities itself. It does no deduplication of orders. None of this is claimed.

## Model

| member | source | states |
|---|---|---|
| ShopContext.Project | src/Context/ShopContext.jsx:31-36 | The projection succeeds exactly when every item's product reference is populated. It then keeps length and order, and each line takes `productId = _id` and copies name, price and quantity; a null reference is the thrown TypeError |
| ShopContext.GetTotalItems | src/Context/ShopContext.jsx:129 | The reduce equals the reference sum of the line quantities, and is 0 for the empty cart |
| ShopContext.GetTotalPrice | src/Context/ShopContext.jsx:130 | The reduce equals the reference sum of price × quantity, and is 0 for the empty cart |
| ShopContext.ReduceItemsIsSum | src/Context/ShopContext.jsx:129 | The left fold from any start value equals that start value plus the sum of quantities |
| ShopContext.ReducePriceIsSum | src/Context/ShopContext.jsx:130 | The left fold from any start value equals that start value plus the sum of subtotals |
| ShopContext.TotalsAppend | src/Context/ShopContext.jsx:129-130 | Both totals are additive over concatenated carts |
| ShopContext.SumQuantitiesPointwise | src/Context/ShopContext.jsx:129 | Two carts whose lines have the same quantities, position by position, have the same item count |
| ShopContext.TotalsBounds | src/Context/ShopContext.jsx:129-130 | With quantities ≥ 1 and prices ≥ 0, the item count is at least the number of lines and the total price is non-negative |
| ShopContext.ProjectTotalItems | src/Context/ShopContext.jsx:30-37 | The item count of an installed cart is the sum of the reply items' quantities |
| ShopContext.Shop.constructor | src/Context/ShopContext.jsx:9-11 | Products, cart and orders start empty |
| ShopContext.Shop.FetchProducts | src/Context/ShopContext.jsx:17-24 | Installs `products` when the reply has them; otherwise nothing changes |
| ShopContext.Shop.MyCart | src/Context/ShopContext.jsx:27-45 | Installs the projected cart on `success && items`; sets the cart to `[]` when unsuccessful, without items, when the projection throws, or when the call throws |
| ShopContext.Shop.FetchOrders | src/Context/ShopContext.jsx:48-55 | Replaces the orders with any body that is present; otherwise unchanged |
| ShopContext.Shop.AddToCart | src/Context/ShopContext.jsx:58-79 | Sends an add request. Returns true exactly when the reply's cart is installed; otherwise returns false with the cart unchanged |
| ShopContext.Shop.RemoveFromCart | src/Context/ShopContext.jsx:82-98 | Sends a remove request. Installs the reply's cart on `success && items`; otherwise leaves the cart unchanged |
| ShopContext.Shop.ClearCart | src/Context/ShopContext.jsx:100-107 | Empties the cart unless the request throws, in which case the cart is unchanged |
| ShopContext.Shop.UpdateCartItemQuantity | src/Context/ShopContext.jsx:109-127 | A quantity ≤ 0 sends the remove request, with removeFromCart's effect. Otherwise it sends an update request and installs the reply's cart or leaves the cart unchanged |
| ShopContext.Shop.CreateOrder | src/Context/ShopContext.jsx:133-146 | Returns the body, or `{success:false}` on a throw. An order in the reply goes in front of `orders` and empties the cart; with no order, both are unchanged |
| ShopContext.Shop.PayWithMpesa | src/Context/ShopContext.jsx:148-156 | Sends the STK push with the given order id and phone. Returns the body, or an unsuccessful result on a throw |
| ShopContext.Shop.Init | src/Context/ShopContext.jsx:159-170 | Loads products, then the cart, then the orders, with each step's effect |
| Checkout.Update | src/Pages/Checkout/Checkout.jsx:17-20 | Editing a field sets that field and keeps every other field |
| Checkout.InitialApartmentAllowed | src/Pages/Checkout/Checkout.jsx:109-119 | The form starts on "Apartment A", the first of exactly four distinct options |
| Checkout.ApartmentStaysAllowed | src/Pages/Checkout/Checkout.jsx:109-119 | An edit coming from the select keeps the apartment among the four options |
| Checkout.CheckoutPage.constructor | src/Pages/Checkout/Checkout.jsx:8-15 | Initial shipping info `("", "", "Apartment A", "")`, not loading, empty message |
| Checkout.CheckoutPage.HandleChange | src/Pages/Checkout/Checkout.jsx:17-20 | `shippingInfo` becomes the old info with one field updated |
| Checkout.CheckoutPage.HandleSubmit | src/Pages/Checkout/Checkout.jsx:22-57 | Empty cart: no call and no change. Otherwise: createOrder("Mpesa", shippingInfo) first; on `!success` no payment and the failure message; with no order, the error message; otherwise payment with the order's id and `shippingInfo.phone`; clearCart only after payment success; the failure message otherwise. `loading` is false on every exit after the guard; the context's orders and cart change only through createOrder |
| CartCheckout.Hydrate | src/Pages/Cartcheckout/Cartcheckout.jsx:16-28 | Same length and order as the cart, and id and quantity are kept per line. Only placeholder lines are looked up; other lines are returned unchanged. A found product is merged while keeping the cart's quantity; a missing product leaves the placeholder as it was. The result is absent exactly when some placeholder lookup rejects |
| CartCheckout.LookupOnlyForPlaceholders | src/Pages/Cartcheckout/Cartcheckout.jsx:19-25 | Lookups that agree on the placeholder lines' ids give the same hydration, so no other id matters |
| CartCheckout.HydrateIdempotent | src/Pages/Cartcheckout/Cartcheckout.jsx:16-28 | Hydrating the hydrated lines again with the same lookup yields them unchanged |
| CartCheckout.HydratePreservesTotalItems | src/Pages/Cartcheckout/Cartcheckout.jsx:22 | The hydrated details have the cart's item count |
| CartCheckout.CartCheckoutPage.constructor | src/Pages/Cartcheckout/Cartcheckout.jsx:10-11 | Not loading, no details |
| CartCheckout.CartCheckoutPage.LoadCartDetails | src/Pages/Cartcheckout/Cartcheckout.jsx:15-29 | Publishes the hydrated cart; keeps the old details when the hydration rejects |
| CartCheckout.CartCheckoutPage.HandleIncrease | src/Pages/Cartcheckout/Cartcheckout.jsx:34-43 | Adds one unit through addToCart, with its effect; `loading` ends false |
| CartCheckout.CartCheckoutPage.HandleDecrease | src/Pages/Cartcheckout/Cartcheckout.jsx:45-54 | Removes the whole line through removeFromCart (a remove request, not a decrement); `loading` ends false |
| CartCheckout.CartCheckoutPage.HandleQuantityChange | src/Pages/Cartcheckout/Cartcheckout.jsx:56-66 | A quantity ≤ 0 makes no call and leaves `loading` alone. Otherwise it calls setCartItemQuantity with the line's id and the quantity, and `loading` ends false |
| Collection.FilterCategory | src/Pages/Collection/Collection.jsx:22-24 | Keeps exactly the products of the category, each with its multiplicity in the catalog |
| Collection.FilterIsSubsequence | src/Pages/Collection/Collection.jsx:21-25 | The filtered list is a subsequence of the catalog: order kept, nothing added |
| Collection.Selected | src/Pages/Collection/Collection.jsx:18-25 | "All" keeps every product in order. Any other filter keeps exactly the products of that category. Either way the result is a subsequence of the catalog |
| Collection.SortByPrice | src/Pages/Collection/Collection.jsx:28-32 | After the in-place sort the array is ordered by the comparator's key and is a permutation of its old contents |
| Collection.ShowProducts | src/Pages/Collection/Collection.jsx:15-35 | The shown list is a permutation of the selected list. It is non-increasing in price for "price-high", non-decreasing for "price-low", and exactly the selected list for any other option |

## Left out

- HTTP transport, the bearer token read from `localStorage`, `alert`, `console` and toasts are I/O. Each reply is an input value, and a request is modelled without its token.
- React rendering, `useEffect`/`useState` scheduling, routing, the login page, the orders page, the card component and the protected-route redirect are UI with no cart logic.
- Concurrent clicks and interleaved async responses: each handler is one atomic step. The source has no sequencing logic to verify.
- Prices and quantities are whole numbers (`int`). Floating-point arithmetic and `Number` coercion, such as a `NaN` quantity from the input, are not modelled.
- `fetchProductById` and `setCartItemQuantity` are not provided by the context. The first is an oracle of the model (found, nothing, or rejected). The second is recorded as the call made, and its effect on the cart is not modelled, since the code gives it none.
- A cart reply whose `productId` is a bare id string (not populated) is not modelled. Only populated documents and `null` are.
- Spreading a product record into a cart line also copies keys the model does not list (its `_id`, description and so on). Only the displayed fields, name, price, category and images, are modelled.
- Orders are opaque apart from their `_id`.
- Collection.ShowProducts: does not state that equal-priced products keep their filtered order, although `Array.prototype.sort` is stable and `SortByPrice` only swaps strictly out-of-order neighbours.
- The catalog passed to the collection page is a `seq`, a value, so the fact that the effect does not mutate its input holds by construction rather than being a stated property.
- `addToCart`'s default quantity of 1 is applied by its caller (`HandleIncrease` passes 1).
