# Product controller model

A Dafny model of the request-handling layer of a small product-catalog service:
the five Express handlers that list, read, create, update and delete products
in the DynamoDB table `Products` (`backend/src/controllers/productController.ts`).

Each handler is modelled in two halves, split where the source awaits the store:

- a **step** from the request (the optional route parameter `id` and the body
  fields `id`, `name`, `price`) to either an early response (400) or the one
  store command it sends: `Scan`, `Get`, `Put`, `Update` or `Delete`, always on
  table `"Products"`;
- a **reply** from the store's outcome (a failure, or a reply that may carry
  `Items`, `Item` or `Attributes`) to the status and JSON body.

`ProductController.Handle` composes the two into an exchange: the command sent,
if any, and the response. The store outcome is an input; nothing simulates
a table.

Request fields are JavaScript values (`JsValue.Value`), so the two presence
tests the code uses can be told apart. `createProduct` uses `!x`, which is
JavaScript truthiness and rejects `0`, `""`, `null`, `false` and `NaN` as well
as an absent field. `updateProduct` uses `x === undefined`, which accepts all
of those.

The partial-update builder of `updateProduct` is modelled twice:

- `UpdateExpression.BuildUpdate` is the imperative method. It pushes clauses
  and assigns into the two dictionaries field by field, as the source does.
- The functions `Clauses`, `Expression`, `AttributeNames` and
  `AttributeValues` specify what the method produces.

`SplitClauses` cuts a string at every `", "`. On non-empty lists of
comma-free clauses it is the inverse of the join. It is not an inverse on the
empty list, which joins to `""` and splits to `[""]`, nor on clauses that
contain `", "`. The lemmas prove that, once a field is supplied, the `SET`
expression reads back as exactly the clauses of the supplied fields.

Three behaviours of the handlers worth noting:

- The route parameter is refused when it is empty as well as when it is
  absent.
- The 201 and update answers are wrapped as `{ message, product }` and are not
  the bare item.
- The update answer carries whatever `Attributes` the store returned.

## Model

| member | source | states |
|---|---|---|
| `JsValue.TruthyVersusSupplied` | backend/src/controllers/productController.ts:97-114 | Update's `!== undefined` acceptance is strictly weaker than create's truthiness acceptance (line 58). Every truthy value is supplied. The values that are supplied but falsy are exactly null, false, 0, NaN and "". |
| `JsValue.Truthy` | backend/src/controllers/productController.ts:58 | `x` is falsy, so `!x` is true, exactly for the six values undefined, null, false, 0, NaN and "" (the falsy values a parsed request body can carry). Every other value is truthy. |
| `JsValue.Supplied` | backend/src/controllers/productController.ts:97 | `x !== undefined` holds for every truthy value. It also holds for the falsy values other than undefined (lines 108 and 114 use the same test). |
| `JsValue.IdPresent` | backend/src/controllers/productController.ts:29 | `!id` on a route parameter: it is present exactly when ToBoolean holds of the string given, or of undefined when none is given. The same test is at lines 92 and 148. |
| `Store.KeyOf` | backend/src/controllers/productController.ts:33-38 | The key `{ id }` has the single attribute `id`, bound to the route parameter. |
| `UpdateExpression.Clauses` | backend/src/controllers/productController.ts:104-117 | There is one clause per supplied field, and the name clause comes first. `"#name = :name"` is present iff `name` is supplied, and `"price = :price"` iff `price` is. No other clause appears. The list is empty iff neither field is supplied. |
| `UpdateExpression.AttributeNames` | backend/src/controllers/productController.ts:105-110 | The alias map has `#name` iff `name` is supplied. Its only possible entry is `#name` → `"name"`. |
| `UpdateExpression.JoinClauses` | backend/src/controllers/productController.ts:121 | `join(", ")` gives `""` for no clauses. Otherwise the result starts with the first clause, and its length is the clauses' total length plus one two-character separator between each two neighbours. |
| `UpdateExpression.Expression` | backend/src/controllers/productController.ts:121 | The expression always starts with `SET `. Once a field is supplied, it reads back as exactly the clauses of the supplied fields, and that list is never empty (by the `Clauses` contract). |
| `UpdateExpression.AttributeValues` | backend/src/controllers/productController.ts:106-117 | The value map has `:name` iff `name` is supplied and `:price` iff `price` is. Each key is bound to the supplied value, and there are no other keys. |
| `UpdateExpression.BuildUpdate` | backend/src/controllers/productController.ts:104-121 | The step-by-step builder produces exactly the specified expression, alias map and value map. |
| `UpdateExpression.SplitJoin` | backend/src/controllers/productController.ts:121 | Cutting the `", "`-joined string of a non-empty list of comma-free clauses gives back that list. |
| `UpdateExpression.PlaceholdersMatchClauses` | backend/src/controllers/productController.ts:108-117 | `#name` and `:name` are bound iff the name clause uses them. `:price` is bound iff the price clause uses it. |
| `ProductController.GetAllProductsStep` | backend/src/controllers/productController.ts:14 | The listing never refuses. It always sends a `Scan` of `Products`, with no filter. |
| `ProductController.GetAllProductsReply` | backend/src/controllers/productController.ts:12-22 | A scan that returns answers 200 with the store's `Items`. A failure answers 500 `{ error: "Failed to fetch products" }`. |
| `ProductController.GetProductStep` | backend/src/controllers/productController.ts:28-38 | A missing or empty `id` is refused with 400 "ID is required". Any other `id` sends `Get` on `Products` with key `{ id }`. |
| `ProductController.GetProductReply` | backend/src/controllers/productController.ts:40-50 | A found item answers 200 with that item. No item answers 404 "Product not found". A failure answers 500. |
| `ProductController.NewProduct` | backend/src/controllers/productController.ts:64-71 | The created item has exactly the attributes `id`, `name` and `price`, bound to the body's fields. |
| `ProductController.CreateProductStep` | backend/src/controllers/productController.ts:56-74 | The request is refused with 400 iff `id`, `name` or `price` is falsy. Otherwise it sends `Put` of `{ id, name, price }` on `Products`. |
| `ProductController.CreateProductReply` | backend/src/controllers/productController.ts:73-82 | A put that returns answers 201 "Product added" with the item that was put. A failure answers 500. |
| `ProductController.UpdateProductStep` | backend/src/controllers/productController.ts:89-102 | The `id` is checked first. Only then is the request refused, when both fields are undefined. It sends an `Update` on `Products` by key `{ id }` with `ALL_NEW` iff `id` is present and a field is supplied. |
| `ProductController.UpdateCommand` | backend/src/controllers/productController.ts:118-129 | The params object is an `Update` on `Products` by key `{ id }` with `ALL_NEW`. Once a field is supplied, its expression reads back as the non-empty clause list. The alias map is sent iff `name` is supplied, as `{"#name": "name"}`. The value map is sent iff a field is supplied, and it is then exactly the supplied bindings. |
| `ProductController.UpdateProductReply` | backend/src/controllers/productController.ts:131-140 | An update that returns answers 200 "Product updated" with the store's `Attributes`. A failure answers 500. |
| `ProductController.DeleteProductStep` | backend/src/controllers/productController.ts:147-159 | A missing or empty `id` is refused with 400. Any other `id` sends `Delete` on `Products` with key `{ id }`. |
| `ProductController.DeleteProductReply` | backend/src/controllers/productController.ts:158-165 | Any delete that returns answers 200 "Product deleted". A failure answers 500. |
| `ProductController.Handle` | backend/src/controllers/productController.ts:12-165 | Every answer is one of the handler's own status codes: 200/500 for the listing, 200/400/404/500 for a lookup, 201/400/500 for creation, 200/400/500 for update and deletion. The answer is 400 iff no command was sent, so validation never reaches the store. Once a command is sent, the answer is 500 iff the store failed (lines 18-20, 48-50, 80-82, 138-140, 163-165). |
| `ControllerProperties.MissingIdRejected` | backend/src/controllers/productController.ts:28-32 | Get, update and delete answer 400 "ID is required" and send nothing when `id` is missing or empty. The same check is at lines 92-95 and 148-151. |
| `ControllerProperties.GetProductAnswers` | backend/src/controllers/productController.ts:40-50 | A lookup sends one `Get` by key. It answers 200 with the found item, 404 when there is none, and 500 on failure. |
| `ControllerProperties.CreateRejectsFalsyFields` | backend/src/controllers/productController.ts:58-63 | Creation sends nothing and answers 400 iff a field is falsy, so a price of 0 and an empty name are refused. |
| `ControllerProperties.CreatePutsAndEchoes` | backend/src/controllers/productController.ts:64-79 | An accepted creation puts exactly `{ id, name, price }` into `Products`. Its 201 answer echoes that same item. |
| `ControllerProperties.UpdateValidation` | backend/src/controllers/productController.ts:92-102 | The `id` check precedes the field check. The request is refused only when both fields are undefined. A command is sent iff `id` is present and a field is supplied. |
| `ControllerProperties.UpdateCommandWellFormed` | backend/src/controllers/productController.ts:104-129 | The expression reads back as a non-empty clause list, name clause first and iff supplied, price clause iff supplied. The alias map is sent iff `name` is supplied, as `{"#name": "name"}`. The value map is always sent and binds exactly the supplied values (details below). |
| `ControllerProperties.DeleteIgnoresExistence` | backend/src/controllers/productController.ts:158-162 | A delete that returns answers 200 "Product deleted" whatever the store's reply says. There is no existence check. |
| `ControllerProperties.CommandDecidedBeforeStore` | backend/src/controllers/productController.ts:12-165 | The command sent depends on the request alone, and every command addresses `Products`. A refused request is refused the same way whatever the store would say. |
| `ControllerProperties.CreateAcceptedImpliesUpdateAccepted` | backend/src/controllers/productController.ts:58-102 | Every body that creation accepts, update also accepts when `id` is present. |
| `ControllerProperties.FalsyFieldsCreateVersusUpdate` | backend/src/controllers/productController.ts:58-117 | Take any request with a present `id` and a price of 0 or an empty name. Creation refuses it with 400 and sends nothing. Update sends it and binds `:price` to 0 or `:name` to "" as given. |

What `ControllerProperties.UpdateCommandWellFormed` states about an accepted
update's command:

- The expression is `SET ` and a non-empty clause list.
- The name clause is present iff `name` is supplied, and it then comes first.
- The price clause is present iff `price` is supplied.
- `ExpressionAttributeNames` is sent iff `name` is supplied. It is then
  `{"#name": "name"}`.
- `ExpressionAttributeValues` is always sent. It binds exactly the supplied
  values, so `description` and the fields not supplied are never mentioned.

## Left out

- Express `req`/`res`, `async`/`await` and `console.error` are not modelled, nor
  is JSON serialisation. A response is a status and an abstract body.
- The raw `error` object attached to "Server error" responses is dropped. The
  body keeps only the message.
- The AWS document client (`../services/dbService`) is not part of this model,
  and neither are DynamoDB's semantics. A store outcome is an input: a failure,
  or a reply whose `Items`, `Item` and `Attributes` are given.
- Properties across requests are not modelled, because they need a simulated
  table. Examples are "create then get returns the item" and "delete then get
  answers 404".
- Numbers are finite reals, with one extra value for NaN. Infinities are not
  distinguished: they are truthy and supplied, like any non-zero number.
  Floating-point arithmetic plays no part in the handlers.
- A request whose body is missing altogether is not modelled. In the source,
  the destructuring throws outside the `try`.
- A route parameter is a string or absent, as Express supplies it.
- `backend/amplify/data/resource.ts` is not part of this model. It is a
  declarative schema with no executable logic.
- `frontend/src/store/useStore.ts` is not part of this model. It is a
  one-field UI counter wrapping a library.
- Concurrent requests on the same key are not modelled. They are the store's
  and the runtime's concern.
