# Storefront stores: cart and catalog

This project models the two state modules of a small Nuxt storefront's
frontend (`frontend/store/cart.js` and `frontend/store/product.js`) and
proves what they do.

- **Cart store.** It holds an ordered list of products with duplicates
  allowed. `productAdd` appends to the list. `productRemove` runs
  `splice(indexOf(product), 1)` on it. `productClear` replaces it with an
  empty list. The `totalPrice` getter folds the prices with `reduce`. The
  `checkout` action posts the products and clears the cart when the
  response has status 200 and a true `success` flag.
- **Catalog store.** It holds the product list last fetched. `setProducts`
  replaces the list. The `getProducts` action fetches it and commits under
  the same success condition.

How the model is built:

- Products are a class with constant fields. JavaScript compares objects
  by identity under `===`, and so does Dafny for class references. So
  `indexOf` finds only the very object that was added, and `seq<Product>`
  equality is exact.
- Each store's state is a class with a `products: seq<Product>` field.
  The mutations and actions are methods that reassign that field.
- The HTTP call is not modelled. Each action takes the settled response as
  an input: `NoResponse` (a transport error with no `err.response`) or
  `Received(status, success, body)`.
- On `NoResponse`, reading `response.status` throws. The action's promise
  then rejects (`Rejected`) before anything is committed.
- Both actions commit under one condition, `Responses.Succeeded`: a
  response with status 200 and a true `success` flag. `ProductStore.Fetched`
  is the reference definition of one fetch's effect on the catalog, and
  `ProductStore.FetchedAll` is the effect of several fetches in order.
  `Catalog.GetProducts` is proved against `Fetched`, and
  `ProductStore.FetchTwice` connects two calls of it to `FetchedAll`.
- `indexOf` and `splice` follow the ECMAScript array methods. This includes
  a negative `splice` start counting back from the end.

**Removing an absent product is not a no-op.** `indexOf` returns -1, and
`splice(-1, 1)` removes the last entry of a non-empty cart. See
`CartStore.Removed`, `CartStore.TotalAfterRemove` and
`CartStore.RemoveLookalike`.

## Model

| member | source | states |
|---|---|---|
| `ArrayBuiltins.IndexOf` | frontend/store/cart.js:10 | the result is -1 exactly when the product is absent; otherwise it is an index holding the product, with no earlier occurrence |
| `ArrayBuiltins.SpliceStart` | frontend/store/cart.js:10 | a splice start counts back from the end when negative, stops at 0 below the start and at the length above the end |
| `ArrayBuiltins.SpliceCount` | frontend/store/cart.js:10 | the number removed is the delete count clamped to what lies between the start and the end |
| `ArrayBuiltins.Spliced` | frontend/store/cart.js:10 | after a splice, the elements before the start are unchanged, later ones move down by the number removed, and the length shrinks by that number |
| `ArrayBuiltins.SpliceOneAt` | frontend/store/cart.js:10 | `splice(i, 1)` at a valid index removes exactly element `i` |
| `ArrayBuiltins.SpliceOneFromEnd` | frontend/store/cart.js:10 | `splice(-1, 1)` removes the last element of a non-empty list and leaves an empty list empty |
| `Products.Product.constructor` | app/app.js:16-32 | a product carries the id, name and price it was built with |
| `CartStore.SumFrom` | frontend/store/cart.js:18-20 | the left-to-right `reduce` of prices from an accumulator equals the accumulator plus the sum of the prices |
| `CartStore.Removed` | frontend/store/cart.js:9-11 | removal drops the first occurrence of a present product and nothing else; for an absent product it drops the last entry of a non-empty list; an empty list stays empty; the length shrinks by one unless the list was empty |
| `CartStore.Cart.constructor` | frontend/store/cart.js:1-3 | a fresh cart is empty |
| `CartStore.Cart.ProductAdd` | frontend/store/cart.js:6-8 | the new list is the old list followed by the product |
| `CartStore.Cart.ProductRemove` | frontend/store/cart.js:9-11 | the new list is what `splice(indexOf(product), 1)` leaves of the old list, as characterised by `Removed` |
| `CartStore.Cart.ProductClear` | frontend/store/cart.js:12-14 | the list is empty afterwards, whatever it held |
| `CartStore.Cart.TotalPrice` | frontend/store/cart.js:17-21 | the getter's value is the sum of the entries' prices (0 for an empty cart) |
| `CartStore.Cart.Checkout` | frontend/store/cart.js:23-35 | the cart is cleared if and only if the response has status 200 and a true success flag, whatever list was posted; otherwise it is unchanged; the action rejects exactly when there is no response |
| `CartStore.SumAppend` | frontend/store/cart.js:19 | the total of a concatenation is the sum of the totals |
| `CartStore.TotalAfterAdd` | frontend/store/cart.js:6-20 | adding a product raises the total by exactly its price |
| `CartStore.SumWithout` | frontend/store/cart.js:19 | dropping the entry at an index lowers the total by exactly that entry's price |
| `CartStore.TotalAfterRemovePresent` | frontend/store/cart.js:9-20 | removing a product that is in the cart lowers the total by exactly its price |
| `CartStore.TotalAfterRemoveAbsent` | frontend/store/cart.js:9-20 | removing a product that is not in a non-empty cart lowers the total by the last entry's price |
| `CartStore.TotalAfterRemove` | frontend/store/cart.js:9-20 | removal lowers the total by the product's price when it is present, by the last entry's price when it is absent, and an empty cart stays at 0 |
| `CartStore.AddThenRemove` | frontend/store/cart.js:6-11 | adding a product not already in the cart and then removing it restores the list exactly |
| `CartStore.SumNonNegative` | frontend/store/cart.js:18-20 | with non-negative prices, the total is non-negative |
| `CartStore.CheckoutScenario` | frontend/store/cart.js:5-35 | a cart of products priced 100 and 200 totals 300, and a successful checkout leaves it empty |
| `CartStore.RemoveLookalike` | frontend/store/cart.js:9-11 | removing an equal-looking but distinct product object removes the last entry instead of the matching one |
| `ProductStore.Catalog.constructor` | frontend/store/product.js:1-3 | the catalog starts empty |
| `ProductStore.Catalog.SetProducts` | frontend/store/product.js:6-8 | the catalog becomes exactly the given list, with no merge |
| `ProductStore.Catalog.GetProducts` | frontend/store/product.js:12-21 | the catalog becomes the response's list when status is 200 and the success flag is true, and is unchanged otherwise; the action rejects exactly when there is no response |
| `ProductStore.FetchReplacesOnSuccess` | frontend/store/product.js:18-19 | a fetch replaces the catalog exactly when the response has status 200 and a true success flag; a non-200 status, a false flag and a missing response each leave the catalog unchanged |
| `ProductStore.SecondFetchWins` | frontend/store/product.js:6-20 | after two fetches of which the second succeeds, the catalog is the second response's list |
| `ProductStore.FetchTwice` | frontend/store/product.js:12-21 | two `getProducts` actions in a row leave the catalog that the two responses decide in order, from the catalog held before |
| `ProductStore.LastSuccessWins` | frontend/store/product.js:6-20 | over any sequence of fetches, the catalog is the list of the last successful response, or the initial catalog when none succeeded |

## Left out

- The Express server (`app/app.js`) is not modelled. It holds only fixed JSON routes and `app.listen`. Its product shape sets the fields of `Product`.
- The axios requests are not modelled. Neither are the promise chain or the suspension at `await`. Each action takes the settled response as a parameter, and the list posted by `checkout` is only an argument that is sent.
- Concurrent or overlapping actions are not modelled. The model is sequential.
- The Vuex/Nuxt machinery is not modelled: `commit`, store registration and reactivity. A commit is a direct method call.
- Prices are integers, not JavaScript floating-point numbers. All prices in the code are integers.
- `response.data.success` is modelled as a boolean. JavaScript truthiness of other values is not modelled.
- Malformed response bodies are not modelled. A body with no `data` object, or with `data.data.products` missing, is outside the model. In the code, the second case would commit `undefined` as the catalog.
- The array of removed elements that `splice` returns is not modelled. The store ignores it.
