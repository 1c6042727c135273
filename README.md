# Recipe storefront cart, in Dafny

This project models the client-side cart of the recipe storefront, in two parts.

- **The cart provider** (`src/context/CartContext.jsx`) keeps a local mirror of the signed-in user's server cart and a loading flag. It has five operations, each guarded on a user being signed in:
  - `fetchCart` re-reads the cart;
  - `addToCart` posts an item, then re-fetches;
  - `removeFromCart` deletes an entry, then filters it out locally;
  - `updateQuantity` puts a quantity, then patches it locally;
  - `clearCart` deletes every entry one by one, then empties the cart.

  Two derived values are folds over the cart: `cartTotal`, with its price fallback chain, and `cartItemCount`. `useCart` throws outside a provider.
- **The API configuration** (`src/config/api.js`) picks the backend base URL from the build environment. It also holds the table of endpoint paths and `createApiUrl`, which joins the two.

Files:
- `js_values.dfy` (module `JsValues`): undefined/null values, thrown errors, and JavaScript truthiness for strings and numbers.
- `api.dfy` (module `Api`): base URL selection, the endpoint table as a datatype with its paths, `createApiUrl`, and the facts about the URLs they build.
- `cart.dfy` (module `Cart`): cart entries, the price fallback, the two folds, and the `filter` and `map` the operations apply. It also holds the lemmas relating them.
- `cart_context.dfy` (module `CartContext`): the provider as a class, whose methods update `cart`, `loading` and a log of the requests issued, plus `useCart`.

Each network call is a parameter of the operation that makes it. The parameter gives its outcome: whether it succeeded and, for a read, the data returned. `clearCart` is given the set of positions whose delete throws.

Every request is logged with its verb, its endpoint and its JSON body. `Url` recovers the address it was sent to.

A valid provider is one that is not loading and whose every logged request targets the cart resource. `LogUnderCartRoot` proves that every such URL starts with the base followed by `/api/cart/`.

Base URL selection follows `src/config/api.js:2-12` as written:
- outside production the localhost address is used, even when `VITE_API_URL` is set;
- in production, `VITE_API_URL` is used when it is a non-empty string;
- otherwise the Railway default is used.

`VITE_API_URL` is ignored outside production, and the production fallback is the Railway URL, not localhost.

## Model

| member | source | states |
|---|---|---|
| Api.ApiBaseUrl | src/config/api.js:2-12 | localhost outside production; in production a truthy `VITE_API_URL`, else the Railway default; never empty |
| Api.Path | src/config/api.js:17-41 | every endpoint path, static or templated, begins with `/api/` |
| Api.CreateApiUrl | src/config/api.js:44-46 | the URL is the base followed by the path: the base is a prefix, the lengths add, and the path is what follows the base |
| Api.CreateApiUrlInjective | src/config/api.js:44-46 | under one base, equal URLs come only from equal paths |
| Api.CartItemExtendsCart | src/config/api.js:27-28 | `CART_ITEM(u, i)` is `CART(u) + "/" + i`, so `CART(u)` is a prefix of it, and both lie under `/api/cart/` |
| Api.OrderTemplatesPlaceParameter | src/config/api.js:31-33 | the orders templates put their parameter after `/api/orders/` or `/api/orders/user/`, or between `/api/orders/` and `/cancel` |
| Api.PathInjectiveWithinTemplate | src/config/api.js:24-40 | within one template, equal paths come only from equal parameters (for cart items, of the same user) |
| Api.CancelOrderOverlapsUserOrders | src/config/api.js:32-33 | the table is ambiguous across templates: cancelling order `user` and listing the orders of user `cancel` share a path |
| Api.TrailingSlashDoublesSlash | src/config/api.js:17-46 | a base ending in `/` yields `//api/` where base and path meet |
| Api.ProdDefaultDoublesSlash | src/config/api.js:7 | every URL built on the Railway default contains `//api/` right after its host |
| Cart.FetchedCart | src/context/CartContext.jsx:28-34 | the cart after a fetch is the data returned when there is some; a failure or null data leaves it empty |
| Cart.UnitPrice | src/context/CartContext.jsx:107 | the unit price is 0, the food item's price, or the entry's own price |
| Cart.FoodPriceTakesPrecedence | src/context/CartContext.jsx:107 | a truthy food item price is used whatever the entry's own price |
| Cart.UnitPriceZeroIff | src/context/CartContext.jsx:107 | the unit price is 0 exactly when neither price is truthy |
| Cart.CartTotal | src/context/CartContext.jsx:105-110 | the left fold equals the sum of unit price times quantity; 0 for the empty cart |
| Cart.CartItemCount | src/context/CartContext.jsx:112-114 | the left fold equals the sum of the quantities; 0 for the empty cart |
| Cart.ReduceIsSum | src/context/CartContext.jsx:106-114 | a `reduce` from an accumulator equals the accumulator plus the sum |
| Cart.UnpricedCartTotalsZero | src/context/CartContext.jsx:105-110 | a cart with no truthy price anywhere totals 0 |
| Cart.Removed | src/context/CartContext.jsx:67 | the filter keeps exactly the entries whose id differs, and never grows the cart |
| Cart.Matching | src/context/CartContext.jsx:67 | the entries the filter drops are exactly those carrying the id |
| Cart.RemovedAppend | src/context/CartContext.jsx:67 | the filter distributes over concatenation, so the kept entries keep their relative order |
| Cart.RemovedAbsent | src/context/CartContext.jsx:67 | removing an id no entry carries changes nothing |
| Cart.RemovedIdempotent | src/context/CartContext.jsx:67 | removing twice is removing once |
| Cart.SumSplitsById | src/context/CartContext.jsx:67 | kept and dropped entries partition the cart's length and any per-entry sum |
| Cart.RemoveLowersAggregates | src/context/CartContext.jsx:105-114 | a removal lowers the item count and the total by exactly what the dropped entries contributed |
| Cart.WithQuantity | src/context/CartContext.jsx:95-99 | the map keeps length and order, gives matching entries quantity `q` with every other field kept, and leaves the rest identical |
| Cart.UpdateKeepsIds | src/context/CartContext.jsx:95-99 | every position keeps its id |
| Cart.UpdateIdempotent | src/context/CartContext.jsx:95-99 | setting the same quantity twice is setting it once |
| Cart.RemoveAfterUpdate | src/context/CartContext.jsx:67-99 | removing an id after updating it is the same as removing it |
| Cart.UpdateSetsItemCount | src/context/CartContext.jsx:95-114 | after the update the item count is that of the other entries plus `q` per matching entry |
| CartContext.CartRequestUnderCartRoot | src/config/api.js:27-28 | every request on the cart or one of its entries goes to a URL under the base followed by `/api/cart/` |
| CartContext.DeleteRequests | src/context/CartContext.jsx:78-80 | `clearCart` prepares one delete per entry, in cart order |
| CartContext.DeleteUrlsDistinct | src/context/CartContext.jsx:78-80 | entries with distinct ids are deleted through distinct URLs |
| CartContext.FirstFailure | src/context/CartContext.jsx:78-83 | the first throwing delete: every earlier one succeeded, and it is past the end only when none throws |
| CartContext.CartProvider.constructor | src/context/CartContext.jsx:15-42 | the provider starts empty and not loading, and the mount effect fetches once for the signed-in user |
| CartContext.CartProvider.FetchCart | src/context/CartContext.jsx:22-38 | with no user, the cart is emptied and nothing is sent; otherwise one GET is sent, the cart is what the fetch yields, and loading is false afterwards |
| CartContext.CartProvider.SetUser | src/context/CartContext.jsx:20-42 | an unchanged user id runs no effect: nothing is sent and the cart is kept; a different id re-runs the fetch for that id (emptying the cart and sending nothing when it is falsy) |
| CartContext.CartProvider.AddToCart | src/context/CartContext.jsx:44-59 | with no user, nothing is sent or changed; a failed post leaves the cart unchanged; a successful one replaces the cart by a fresh fetch, never by a local append |
| CartContext.CartProvider.RemoveFromCart | src/context/CartContext.jsx:62-71 | with a user, one DELETE is sent; on success the cart is filtered by id; on failure or with no user the cart is unchanged |
| CartContext.CartProvider.SendDeletes | src/context/CartContext.jsx:78-80 | the deletes are sent in cart order, up to and including the first that throws, and no further |
| CartContext.CartProvider.ClearCart | src/context/CartContext.jsx:73-85 | with no user nothing happens; the cart empties only when every delete succeeded; when the k-th throws, the deletes before it and the k-th itself were sent and the cart is unchanged |
| CartContext.CartProvider.UpdateQuantity | src/context/CartContext.jsx:87-103 | with no user or a quantity below 1, nothing is sent or changed; otherwise one PUT is sent, and on success the quantity is patched in place |
| CartContext.LogUnderCartRoot | src/context/CartContext.jsx:22-103 | every request a valid provider has issued went to a URL under its base followed by `/api/cart/` |
| CartContext.UseCart | src/context/CartContext.jsx:131-137 | the provider in scope, or exactly the "useCart must be used within a CartProvider" error when there is none |

## Left out

- `src/components/SearchField.jsx`, `src/pages/auth/Login.jsx` and `src/pages/auth/Signup.jsx` are not part of this model. They hold UI forms, validation rules handed to a form library, and debounce timing.
- HTTP is not modelled: each axios call is an outcome parameter.
- `alert` and `console.error` are not modelled; they change no state.
- React's state, effect, memo, callback and context plumbing are replaced by class fields and method calls. Re-rendering is not modelled.
  - The mount effect runs inside the constructor.
  - A new user id from the session is the `SetUser` method, which re-fetches only when the id changed.
  - `useCart` takes the context value as a parameter.
- Concurrency is not modelled: operations run one at a time, to completion. Overlapping async operations racing on the same cart are not captured.
  - So `loading` is true only in the middle of `FetchCart`, and every method ends with it false.
- Prices are JavaScript floating-point numbers. They are modelled as integers, e.g. minor currency units. Rounding is not captured.
- Ids are modelled as strings, already in the form a template literal would print them. This loses two distinctions the source makes:
  - a numeric user id `0` is falsy for `!userId` (src/context/CartContext.jsx:23, 45, 63, 74, 88), but the string `"0"` passes `HasUser`;
  - the strict `!==` and `===` of src/context/CartContext.jsx:67 and 97 tell a numeric id from its string form, while the model treats them as the same id.
- `import.meta.env` becomes the `Api.Env` parameter. `API_BASE_URL` is the provider's `baseUrl`, fixed at construction.
- `CartContext.CartProvider.AddToCart` takes the food item's id directly, not the food item object. It takes the quantity explicitly: the default of 1 is the caller passing 1.
- Request bodies are typed values, not JSON text.
