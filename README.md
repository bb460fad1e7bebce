# Product manager: a Dafny model

This project models the `ProductManager` React component of a small
product-catalogue page. The component holds an in-memory list of
products (`id`, `name`, `price`, `imageUrl`), a create form, an edit
dialog with its own edit buffer, and a notification banner. Its event
handlers are modelled as the transitions of a state machine:

- `wrappers.dfy`: module `Wrappers`, an `Option` type that stands for JavaScript's `null`.
- `js_values.dfy`: module `JsValues`, the JavaScript number as `parseFloat` returns it (`Finite(real)` or `NaN`), string and number falsiness, and `n || 0`.
- `products.dfy`: module `Products`. It holds the `Product` and `Draft` values, the two presence checks, and three pure list transforms with lemmas about them. `AppendProduct` is the spread-append of a create. `ReplaceById` is the `map` of a saved edit. `RemoveById` is the `filter` of a delete.
- `product_manager.dfy`: module `Manager`. Class `ProductManager` has the component's five state variables as fields and one method per handler. Each handler runs as one atomic transition. Three client methods replay concrete sessions against the method contracts.

`parseFloat` is a constant function field of the class, given to its
constructor and otherwise uninterpreted. `URL.createObjectURL` is an
input of the handlers: they receive `firstFileUrl`, which is `None` when
no file was selected and otherwise the URL the browser made for the first
file.

Two behaviours of the code are easy to miss:

- Closing the dialog (lines 278 and 349) only sets `isModalOpen` to false. The edit buffer stays, and `CancelEditScenario` shows this.
- The create form checks the price as text, so `"0"` passes (line 89). The edit form checks the buffer's price as a number. That number is the stored price parsed at line 97, or `parseFloat(v) || 0` after a price edit (line 312). A price of 0 fails that check (line 116), so a product created at `"0"` cannot be saved until its price is changed. `ZeroPriceChecks` states this.

The object invariant `ProductManager.Valid()` says that every product has a
non-empty name. The two presence checks maintain it, and every method
preserves it. A new product's id is the list's length plus one, so a create is
guaranteed to keep the ids distinct only while every id is at most the
list's length. A delete never makes two products share an id
(`RemoveByIdKeepsIdsDistinct`); the condition matters for the next create.
`AppendProductKeepsIdsDistinct` proves that condition is enough, and
`InitialProductsWellFormed` shows it holds at the start. Deleting any product
except the one with the largest id breaks the condition, and
`DeleteThenCreateDuplicatesId` shows the duplicate id that follows.

## Model

| member | source | states |
|---|---|---|
| `JsValues.OrZero` | src/components/ProductMananger/ProductMananger.jsx:312 | `n \|\| 0` is never NaN. It keeps a truthy number. It turns 0 and NaN into 0. It is truthy exactly when `n` is |
| `JsValues.StringTruthy` | src/components/ProductMananger/ProductMananger.jsx:89 | a definition with no contract: a string is truthy exactly when it is not empty, as `!newProduct.name` and `!newProduct.price` test |
| `JsValues.NumberTruthy` | src/components/ProductMananger/ProductMananger.jsx:116 | a definition with no contract: a number is truthy exactly when it is neither 0 nor NaN, as `!editingProduct.price` tests |
| `Products.DraftFilled` | src/components/ProductMananger/ProductMananger.jsx:89 | a definition with no contract: the create form's check, where the name and the price text are both non-empty |
| `Products.BufferFilled` | src/components/ProductMananger/ProductMananger.jsx:116 | a definition with no contract: the edit form's check, where the name is non-empty and the price is a truthy number |
| `Products.InitialProductsWellFormed` | src/components/ProductMananger/ProductMananger.jsx:5-12 | the initial one-product collection is named, has distinct ids, and has no id above its length |
| `Products.EmptyDraftRejected` | src/components/ProductMananger/ProductMananger.jsx:61-65 | the empty draft, which lines 101-105 also reset to, fails the create form's check |
| `Manager.ProductManager.Valid` | src/components/ProductMananger/ProductMananger.jsx:89-128 | a definition with no contract: the object invariant that every product is named. The constructor establishes it and every method keeps it |
| `Products.DraftAfterInput` | src/components/ProductMananger/ProductMananger.jsx:72-85 | the image input with a file changes only `imageUrl`, to the file's object URL. A `name`, `price` or `imageUrl` event sets that field. Any other event changes no modelled field. Only a `name` event changes the name and only a `price` event changes the price |
| `Products.AppendProduct` | src/components/ProductMananger/ProductMananger.jsx:94-100 | the result is one longer and the old products are its unchanged prefix. The new last product has id `\|old\| + 1`, the draft's name and image, and price `parseFloat(draft.price)` |
| `Products.ReplaceById` | src/components/ProductMananger/ProductMananger.jsx:120-122 | the length is kept. At each index the product is the buffer if its id is the buffer's id, and unchanged otherwise |
| `Products.RemoveById` | src/components/ProductMananger/ProductMananger.jsx:128 | a product is kept if and only if it was present and its id differs. The list never grows. Deleting an absent id leaves the list unchanged |
| `Products.CountId` | src/components/ProductMananger/ProductMananger.jsx:128 | the number of products carrying an id is 0 exactly when no product carries it |
| `Products.RemoveByIdConcat` | src/components/ProductMananger/ProductMananger.jsx:128 | deleting distributes over concatenation, so the kept products stay in their original relative order |
| `Products.RemoveByIdLength` | src/components/ProductMananger/ProductMananger.jsx:128 | deleting shortens the list by exactly the number of products that carry the id |
| `Products.RemoveByIdIdempotent` | src/components/ProductMananger/ProductMananger.jsx:128 | deleting an id twice is the same as deleting it once |
| `Products.RemoveByIdKeepsNames` | src/components/ProductMananger/ProductMananger.jsx:127-129 | deleting keeps every remaining product named |
| `Products.RemoveByIdKeepsIdsDistinct` | src/components/ProductMananger/ProductMananger.jsx:128 | deleting never makes two products share an id |
| `Products.ReplaceByIdKeepsIds` | src/components/ProductMananger/ProductMananger.jsx:121 | saving an edit keeps the id at every position |
| `Products.ReplaceByIdKeepsNames` | src/components/ProductMananger/ProductMananger.jsx:116-122 | a save that passed the presence check keeps every product named |
| `Products.ReplaceByIdIdempotent` | src/components/ProductMananger/ProductMananger.jsx:121 | saving the same buffer twice is the same as saving it once |
| `Products.ReplaceByIdSingle` | src/components/ProductMananger/ProductMananger.jsx:121 | with distinct ids, a save replaces only the product with the buffer's id, in its place |
| `Products.AppendProductKeepsNames` | src/components/ProductMananger/ProductMananger.jsx:89-100 | a create that passed the presence check keeps every product named |
| `Products.AppendProductKeepsIdsDistinct` | src/components/ProductMananger/ProductMananger.jsx:96-100 | if the ids are distinct and none is above the length, the new id `\|old\| + 1` keeps them distinct |
| `Products.DeleteThenCreateDuplicatesId` | src/components/ProductMananger/ProductMananger.jsx:96-128 | from ids [1, 2], deleting id 1 and then creating a product gives ids [2, 2], which are not distinct |
| `Products.ZeroPriceChecks` | src/components/ProductMananger/ProductMananger.jsx:89-116 | the create form's text price `"0"` passes its check, but the product made from it, priced 0, fails the edit form's check |
| `Manager.ProductManager.constructor` | src/components/ProductMananger/ProductMananger.jsx:56-65 | the initial state: the one-product catalogue, dialog closed, no buffer, no banner, and the empty draft with the placeholder image |
| `Manager.ProductManager.ShowNotification` | src/components/ProductMananger/ProductMananger.jsx:67-70 | the new banner replaces any banner shown, and nothing else changes |
| `Manager.ProductManager.DismissNotification` | src/components/ProductMananger/ProductMananger.jsx:149 | the banner's close button clears the banner, and nothing else changes |
| `Manager.ProductManager.HandleInputChange` | src/components/ProductMananger/ProductMananger.jsx:72-85 | only the draft changes, as `DraftAfterInput` says |
| `Manager.ProductManager.HandleSubmit` | src/components/ProductMananger/ProductMananger.jsx:87-107 | with an empty name or price, the products and the draft are unchanged and the error banner is set. Otherwise the products become `AppendProduct(old, draft)`, the draft is reset and the success banner is set. The dialog and the buffer are untouched, and names stay present |
| `Manager.ProductManager.StartEdit` | src/components/ProductMananger/ProductMananger.jsx:109-112 | the buffer becomes a copy of the product and the dialog opens. The products and the draft are untouched |
| `Manager.ProductManager.ChangeEditName` | src/components/ProductMananger/ProductMananger.jsx:291-296 | only the buffer's name changes |
| `Manager.ProductManager.ChangeEditPrice` | src/components/ProductMananger/ProductMananger.jsx:308-313 | only the buffer's price changes, to `parseFloat(v) \|\| 0`. It is never NaN, and it passes the check exactly when the parsed value is truthy |
| `Manager.ProductManager.HandleEditImageChange` | src/components/ProductMananger/ProductMananger.jsx:132-141 | with a selected file only the buffer's `imageUrl` changes. With none, nothing changes |
| `Manager.ProductManager.HandleEdit` | src/components/ProductMananger/ProductMananger.jsx:114-125 | with an empty name or a falsy price, the products are unchanged, the dialog stays open and the error banner is set. Otherwise the products become `ReplaceById(old, buffer)`, the dialog closes and the success banner is set. Names stay present |
| `Manager.ProductManager.HandleDelete` | src/components/ProductMananger/ProductMananger.jsx:127-130 | the products become `RemoveById(old, id)` and the success banner is set. Names stay present |
| `Manager.ProductManager.CloseModal` | src/components/ProductMananger/ProductMananger.jsx:278 | the X button, and the Cancel button at line 349, only close the dialog. The products and the buffer are untouched |
| `Manager.CreateThenDeleteExample` | src/components/ProductMananger/ProductMananger.jsx:87-130 | from the initial catalogue, creating "Tablet" at "499.5" appends it with id 2. Deleting id 1 then leaves only the Tablet |
| `Manager.DuplicateIdScenario` | src/components/ProductMananger/ProductMananger.jsx:87-130 | create, delete id 1, create again: the ids become [2, 2] |
| `Manager.CancelEditScenario` | src/components/ProductMananger/ProductMananger.jsx:109-125 | an edit rejected for an empty name, followed by Cancel, leaves the products unchanged and the dialog closed. The buffer still holds the rejected edit |

## Left out

- Rendering: the `Notification` and `Modal` components (lines 14-53), the JSX markup and styling, and `toFixed(2)` at line 252. They are presentation with no state to model.
- The timed auto-dismiss of the banner (`setTimeout`, line 69), including a stale timer that clears a newer banner. It is asynchronous, so `ShowNotification` is modelled as a plain assignment.
- `parseFloat` is uninterpreted, and IEEE-754 rounding, infinities and the sign of zero are not modelled. Floating-point parsing is outside the model.
- `URL.createObjectURL` is not modelled. It is a browser call, so its result is an input of the handlers. Nothing is assumed about it beyond its use as the new `imageUrl`.
- Keys outside the modelled fields are not tracked. The image input without a file writes a key `image` into the draft, and the spread at line 95 copies it into the product. No code reads it, so `DraftAfterInput` leaves the draft unchanged for such an event.
- React's batching and re-rendering of `useState` setters are not modelled. Each handler is one sequential transition.
- `Manager.ProductManager.ChangeEditName`, `Manager.ProductManager.ChangeEditPrice`, `Manager.ProductManager.HandleEditImageChange` and `Manager.ProductManager.HandleEdit` require an open dialog and a buffer, because the edit form is rendered only then (lines 276-282).
