# Plant shop page: response normaliser and cart

This project models the two parts of the plant shop page (`script.js`) that
have logic beyond presentation.

- **The response normaliser.** The catalog API does not use one consistent
  set of field names. Each logical field of an entity is therefore read from
  an ordered list of candidate property names. `getFirst` returns the value of
  the first candidate that is neither `null` nor `undefined`, or a default
  when there is none. `getId`, `getName` and `getImg`, and the description
  lookup in `showPlants`, are `getFirst` with a fixed key list and a fixed
  default. `getPrice` coerces the chosen value with unary `+` and turns a
  falsy result into `0`. `firstArr` picks the first of its arguments that is
  an array. The page uses it to find the entity list in a response.
- **The cart.** This is the module-level `cart` array. It grows by one line
  `{name, price}` per "Add to Cart" click and loses the line at a given index
  on `removeFromCart(i)`. After every change, `renderCart` sums the prices
  again from scratch.

Modules:

- `JsValues` (`js_values.dfy`): the `JsValue` datatype, with objects as
  `map<string, JsValue>`. It also holds property lookup, the loose `!= null`
  test, truthiness, and numeric coercion on integers.
- `Normalize` (`normalize.dfy`): `GetFirst` and the field helpers, `FirstArr`,
  and the list extraction done at each fetch site.
- `CartState` (`cart.dfy`): `CartLine`, the class `Cart` with a
  `seq<CartLine>` field, and its methods. `RenderCart` is a loop proved to
  compute `Sum(lines)`.

`GetFirst` is a recursive function rather than the source's `for…of` loop
with early return. The two are equivalent, and the field helpers, which are
functions, call it. Its contract describes the result without reference to
how it is computed. If every candidate is absent, the result is the default.
Otherwise, the result is the value at the earliest present candidate.

## Model

| member | source | states |
|---|---|---|
| `JsValues.DecimalRoundTrip` | script.js:157 | A natural number rendered in decimal (as `${price}` writes it) coerces back with unary `+` to the same number |
| `Normalize.FirstPresentExists` | script.js:21-24 | If not every candidate is absent, some candidate is the earliest present one, so the loop either returns a value or reaches the default |
| `Normalize.GetFirst` | script.js:20-25 | If every candidate is missing or null, the result is `defaultValue`. Otherwise, it is the value of the earliest candidate that is not null or undefined |
| `Normalize.GetFirstIgnoresLater` | script.js:21-22 | Once a candidate in `keys` is present, appending more candidates after `keys` does not change the result |
| `Normalize.GetFirstSkipsAbsent` | script.js:21-22 | A prefix of absent candidates is skipped: the result is that of the remaining candidates |
| `Normalize.GetFirstLaterEntriesIrrelevant` | script.js:21-22 | Changing any property other than the candidates up to and including the first present one does not change the result |
| `Normalize.GetFirstNullishIff` | script.js:22-24 | With a nullish default, the result is nullish if and only if every candidate is absent |
| `Normalize.GetId` | script.js:27-29 | Result is the first present of `id, plantId, _id, plant_id, category_id, cat_id`, or `""` when none is present |
| `Normalize.GetName` | script.js:31-33 | Result is the first present of `name, title, plant_name, category, category_name`, or `"Unknown"` when none is present |
| `Normalize.GetImg` | script.js:35-37 | Result is the first present of `image, img, thumbnail, picture, photo, image_url`, or `""` when none is present |
| `Normalize.GetDescription` | script.js:128 | Result is the first present of `description, desc, about`, or `"No description"` when none is present |
| `Normalize.GetPrice` | script.js:39-41 | Always an integer. Result is 0 when no price candidate is present. Otherwise, it is the coercion of the first present candidate, with NaN becoming 0 |
| `Normalize.GetNameKeepsFalsy` | script.js:22 | A name property that is present but falsy (such as `""`) is still selected over later candidates |
| `Normalize.GetNameUnknownIff` | script.js:31-33 | `getName` gives `"Unknown"` if and only if no name candidate is present, or the first present one is the string `"Unknown"` |
| `Normalize.GetPriceNoFallThrough` | script.js:39-41 | If the first present price does not coerce to a number, the result is 0. Later candidates such as `cost` are not consulted |
| `Normalize.GetPriceDecimalString` | script.js:39-41 | If the first present price is a decimal string of `n`, the result is `n` |
| `Normalize.GetPriceExamples` | script.js:39-41 | `{price:"45"}` gives 45, `{cost:30}` gives 30, `{}` gives 0, `{price:"abc"}` gives 0, and `{price:"abc", cost:30}` gives 0 |
| `Normalize.FirstArr` | script.js:43-45 | Result is the elements of the earliest argument that is an array, unchanged and in order, or `[]` when no argument is an array |
| `Normalize.FirstArrSingleArray` | script.js:43-45 | When exactly one argument is an array, the result is its elements |
| `Normalize.ExtractCategories` | script.js:52-60 | A `null` response is the caught failure. Otherwise, the result is the `data` array if there is one, else the `categories` array, else the `results` array, else empty |
| `Normalize.ExtractPlants` | script.js:101-110 | A `null` response is the caught failure. Otherwise, the result is the `data` array if there is one, else the `plants` array, else empty (the same call appears at line 88) |
| `CartState.SumAppend` | script.js:170 | Appending a line adds its price to the sum of prices |
| `CartState.Splice` | script.js:180 | `splice(i,1)` with `i` in range removes exactly element `i`: one fewer element, earlier ones kept, later ones shifted down by one, multiset minus `s[i]`. An index past the end changes nothing |
| `CartState.SumSplice` | script.js:179-181 | Removing the line at `i` takes exactly its price off the sum. An index past the end leaves the sum alone |
| `CartState.Cart.constructor` | script.js:16 | The cart starts empty |
| `CartState.Cart.RenderCart` | script.js:166-177 | The accumulated `total` is the sum of the prices of all current lines |
| `CartState.Cart.AddToCart` | script.js:154-160 | Exactly one line `{name, price}` is appended at the end and earlier lines are unchanged. The total shown afterwards is the old sum plus `price` |
| `CartState.Cart.RemoveFromCart` | script.js:179-182 | The cart becomes `splice(i,1)` of the old cart. The total shown afterwards is the old sum minus the removed line's price, or unchanged past the end |
| `CartState.ExampleSession` | script.js:154-182 | Add Rose at 50, add Tulip at 70, remove index 0, then remove index 5: the cart holds only Tulip and the total is 70 |

## Left out

- DOM access is not modelled: element lookups, `innerHTML` templates, class toggling, the detail modal, the event listeners and the "No plants found" message. They are presentation only.
- `fetch`, promise chains, the loading badge and `console.error` are not modelled. They are network I/O and asynchronous. The only error path modelled is the TypeError from reading a property of a `null` response. A response body that fails to parse as JSON is I/O and is not modelled.
- Prices and totals are integers. JavaScript floating-point numbers and the floating-point addition in `total += it.price` are not modelled.
- `JsValues.ToNumber` models unary `+` on strings only for the empty string (0) and strings of decimal digits. JavaScript also accepts surrounding whitespace, a sign, a decimal point, an exponent, hex and `Infinity`; here all of those give NaN. Arrays and objects also give NaN here, whereas JavaScript converts them through their string form (`+[]` is 0 and `+[7]` is 7).
- `JsValues.DecimalRoundTrip` covers non-negative integer prices only. The price written into the `data-price` attribute and read back with `+` is otherwise taken to be the `getPrice` value. Likewise, the name read back from `data-name` is taken to be a string.
- Entities are modelled as plain objects. Reading a field of a `null` entity would throw, and a primitive entity has some built-in properties; neither case is modelled.
- `CartState.Cart.RemoveFromCart` takes a non-negative index. `splice` with a negative index counts from the end, but the page only passes indices that `renderCart` itself produces.
- Presentation-side string conversion of the `getId`/`getName` results into markup is not modelled.
