# Storefront cart and session stores, modelled in Dafny

This project models the client-side logic of a mobile storefront that is a
thin client over a hosted backend. It covers four parts:

- the **cart store** (`useCartStore`);
- the **session store** (`useAuthStore`);
- the **sign-up screen** handler;
- the **sign-in screen** handler.

The backend is modelled as three in-memory tables (`cart_items`, `products`,
`profiles`) in a `Database` object. The outcome of each awaited backend call
is passed in as a value of `Outcome`: `Ok`, `Err(message)` (the backend
answers with an error object) or `Throw` (the promise rejects). Each
operation is one atomic sequential step.

Modules, one per source file plus three more:

- `Backend` (`backend.dfy`): rows, the failure oracle, and the table queries
  the stores issue (filters, update by id, deletes, the cart query with its
  join and newest-first order). Also the `Database` class.
- `Auth` (`auth_store.dfy`): the `AuthStore` class with `user`, `profile` and
  `loading`, and its operations, including `signUp` and `signIn`, which the
  two screens call.
- `Cart` (`cart_store.dfy`): the `CartStore` class with `items` and
  `loading`, the table effect of `addToCart` as a function, and the totals.
  The totals are a `reduce` left fold, proved equal to a plain sum and
  independent of order.
- `Ui` (`ui.dfy`): what the screens do to the outside world, as a trace of
  effects: loading toggles, store calls, alerts and route replacements.
- `Register` (`register_screen.dfy`) and `Login` (`login_screen.dfy`): the
  validation chains as pure functions, the whole effect trace of each handler
  as a function, and a screen class whose handler method is proved to produce
  exactly that trace.
- `Scenario` (`scenario.dfy`): two clients that walk a cart session through
  the store contracts alone. The first adds a product priced 25.00 twice (one
  row, quantity 2, total 50.00) and sets the quantity to 0 (empty cart,
  totals 0). The second checks that a failed clear leaves the list and a
  successful one empties it.

Observations about the code that the model makes explicit, because a reader
might expect otherwise:

- Signing out does not clear the cart store's `items`; only the next fetch
  replaces them.
- An error from `addToCart`'s existence check is never read. The product is
  then treated as absent and a new row is inserted, even if it already has
  one (`Cart.FailedLookupInsertsDuplicate`).
- Nothing keeps quantities positive. `addToCart` with a non-positive amount,
  or a merge that reaches 0, writes that quantity as it is. Only
  `updateQuantity` turns a quantity of 0 or less into a removal.
- Both screens test the returned error string for truthiness. An error whose
  message is empty therefore counts as success.

## Model

| member | source | states |
|---|---|---|
| `Backend.EmptyUpdateKeepsRow` | stores/authStore.ts:80-88 | a partial profile update that names no column leaves the row unchanged |
| `Backend.UpdateIsIdempotent` | stores/authStore.ts:80-88 | writing the same partial update twice gives the same row as writing it once |
| `Backend.DisjointUpdatesCommute` | stores/authStore.ts:80-88 | partial updates of disjoint sets of columns can be applied in either order |
| `Backend.UserRows` | stores/cartStore.ts:36 | `.eq('user_id', u)` keeps exactly the rows owned by `u` |
| `Backend.Matching` | stores/cartStore.ts:60-65 | the existence query selects exactly the rows of that user and that product |
| `Backend.WithoutId` | stores/cartStore.ts:117-120 | deleting by id leaves exactly the rows with another id |
| `Backend.WithoutUser` | stores/cartStore.ts:135-138 | deleting by user leaves exactly the rows of other users |
| `Backend.UserRowsCounts` | stores/cartStore.ts:36 | `.eq('user_id', u)` keeps each of the user's rows exactly as often as the table holds it, and no other row |
| `Backend.MatchingCounts` | stores/cartStore.ts:60-65 | the existence query keeps each row of that user and product exactly as often as the table holds it, and no other row |
| `Backend.WithoutIdCounts` | stores/cartStore.ts:117-120 | deleting by id keeps each row with another id exactly as often as before and removes every row with that id |
| `Backend.WithoutUserCounts` | stores/cartStore.ts:135-138 | deleting by user keeps each row of other users exactly as often as before and removes every row of that user |
| `Backend.WithQuantity` | stores/cartStore.ts:101-104 | an update by id adds or removes no row |
| `Backend.WithQuantityAt` | stores/cartStore.ts:101-104 | an update by id sets the quantity of the rows with that id and leaves every other row unchanged |
| `Backend.WithoutUserKeepsOthers` | stores/cartStore.ts:135-138 | after clearing user `u`, `u` has no rows and every other user has the same rows in the same order |
| `Backend.MatchingWithQuantity` | stores/cartStore.ts:69-72 | updating a quantity by id changes no row's (user, product) pair, so every pair selects the same rows, updated |
| `Backend.MatchingAppend` | stores/cartStore.ts:77-83 | an inserted row joins exactly the selection of its own (user, product) pair, at the end |
| `Backend.JoinAll` | stores/cartStore.ts:32-35 | the join attaches to every row its product, or none when the product is missing, row by row |
| `Backend.InsertByDate` | stores/cartStore.ts:37 | inserting into the ordered result adds exactly that item |
| `Backend.InsertByDateBounded` | stores/cartStore.ts:37 | inserting keeps every creation time below a common bound |
| `Backend.InsertByDateSorted` | stores/cartStore.ts:37 | inserting into a newest-first sequence keeps it newest first |
| `Backend.SortNewestFirst` | stores/cartStore.ts:37 | `order('created_at', { ascending: false })` returns a permutation of its input that is newest first |
| `Backend.CartQueryContents` | stores/cartStore.ts:30-37 | the cart query returns exactly the user's rows joined with their products, each once, nothing of other users, newest first |
| `Backend.Database.Insert` | stores/cartStore.ts:77-83 | an insert appends one row with a fresh id and the given user, product, quantity and creation time, and advances the id counter by one |
| `Backend.Database.UpdateQuantity` | stores/cartStore.ts:101-104 | `update({ quantity }).eq('id', id)` on the table |
| `Backend.Database.DeleteById` | stores/cartStore.ts:117-120 | `delete().eq('id', id)` on the table |
| `Backend.Database.DeleteByUser` | stores/cartStore.ts:135-138 | `delete().eq('user_id', u)` on the table |
| `Backend.Database.UpdateProfile` | stores/authStore.ts:85-88 | `profiles.update(updates).eq('id', uid)`: the row is rewritten if it exists, otherwise nothing changes |
| `Auth.AuthStore.constructor` | stores/authStore.ts:16-19 | initial state: no user, no profile, loading |
| `Auth.AuthStore.SignUp` | stores/authStore.ts:21-41 | `signUp` resolves to `{}` exactly on success, to the backend's message on an error answer, to the generic message on a rejection, and changes none of the store's fields |
| `Auth.AuthStore.SignIn` | stores/authStore.ts:43-58 | `signIn` resolves to `{}` exactly on success, to the backend's message on an error answer, to the generic message on a rejection, and changes none of the store's fields |
| `Auth.AuthStore.SignOut` | stores/authStore.ts:60-63 | after the call returns, user and profile are both cleared and loading is unchanged |
| `Auth.AuthStore.FetchProfile` | stores/authStore.ts:65-78 | no read without a user; the profile is replaced only when a row comes back |
| `Auth.AuthStore.UpdateProfile` | stores/authStore.ts:80-99 | not-signed-in error without a write; a backend error is returned without a re-read; on success the row is written, the profile re-read and `{}` returned |
| `Auth.AuthStore.OnAuthStateChange` | stores/authStore.ts:103-112 | user becomes the session's user or none, loading ends, and the profile is read only when a user is present |
| `Cart.ReduceIsSum` | stores/cartStore.ts:145-153 | the `reduce` left fold used by both totals equals the plain sum |
| `Cart.SumAppend` | stores/cartStore.ts:145-153 | a total over two lists is the sum of their totals |
| `Cart.SumPermutation` | stores/cartStore.ts:145-153 | a total does not depend on the order of the items |
| `Cart.SumRemoveAt` | stores/cartStore.ts:145-153 | a total is one item's share plus the total of the others |
| `Cart.TotalsIgnoreOrder` | stores/cartStore.ts:145-153 | both totals are equal for any two orderings of the same items |
| `Cart.LookupSingle` | stores/cartStore.ts:60-67 | the existence check finds a row exactly when the call succeeds and exactly one row matches, and that row belongs to the user and the product |
| `Cart.AddMergesExistingRow` | stores/cartStore.ts:67-74 | with an existing row, adding keeps the table size, gives that row quantity old + requested, and leaves every row with another id unchanged |
| `Cart.AddInsertsNewRow` | stores/cartStore.ts:75-86 | without a found row, adding appends exactly one row with the requested quantity |
| `Cart.WithQuantityKeepsOneRowPerProduct` | stores/cartStore.ts:67-74 | merging into an existing row by id keeps at most one row per (user, product) |
| `Cart.AppendKeepsOneRowPerProduct` | stores/cartStore.ts:75-86 | inserting a row for a pair that has none keeps at most one row per (user, product) |
| `Cart.AddKeepsOneRowPerProduct` | stores/cartStore.ts:58-86 | adding keeps at most one row per (user, product), unless the existence check fails while a row already exists; a check that fails because no row matches is harmless |
| `Cart.FailedLookupInsertsDuplicate` | stores/cartStore.ts:60-67 | an existence check that errors while a row exists leads to a second row for the same pair |
| `Cart.CartStore.constructor` | stores/cartStore.ts:17-19 | initial state: empty list, not loading |
| `Cart.CartStore.GetTotalItems` | stores/cartStore.ts:151-153 | the total item count is the sum of the quantities, 0 for an empty cart, and reads without changing state |
| `Cart.CartStore.GetTotalPrice` | stores/cartStore.ts:145-149 | the total price is the sum of price × quantity, with a missing product counting 0, and 0 for an empty cart |
| `Cart.CartStore.FetchCartItems` | stores/cartStore.ts:21-50 | no user: empty list; with a user: the list is replaced by the cart query on success and by the empty list on any failure; loading is off on every path |
| `Cart.CartStore.WriteAdd` | stores/cartStore.ts:67-86 | the write of `addToCart`: the table becomes the merge-or-insert result for the row found, and the id counter advances only on an insert |
| `Cart.CartStore.AddToCart` | stores/cartStore.ts:52-93 | no user: login-required error, nothing changed; a rejection gives the generic error; a failed write returns its message and changes nothing, not even the id counter; success writes the merge-or-insert effect, refetches and returns `{}` |
| `Cart.CartStore.RemoveFromCart` | stores/cartStore.ts:115-129 | a successful delete removes the rows with that id and refetches; a failed one returns its message and changes nothing |
| `Cart.CartStore.UpdateQuantity` | stores/cartStore.ts:95-113 | a quantity of 0 or less acts exactly as a removal; otherwise only the row with that id gets the new quantity, then a refetch; failures change nothing |
| `Cart.CartStore.ClearCart` | stores/cartStore.ts:131-143 | no user: nothing; success deletes exactly the user's rows and empties the list; failure changes nothing; loading never changes |
| `Register.RegisterCheck` | app/auth/register.tsx:17-30 | the checks in their order: any empty field, then a password mismatch, then a password shorter than 6; each alert is raised exactly when the earlier checks pass and its own fails |
| `Register.InvalidFormRaisesOneAlert` | app/auth/register.tsx:17-30 | a form that fails a check raises exactly that one alert and never calls `signUp` |
| `Register.ValidFormCallsSignUpOnce` | app/auth/register.tsx:32-34 | a valid form calls `signUp` once with (email, password, full name), between loading on and loading off, then raises one alert |
| `Register.SignUpOutcomeAlert` | app/auth/register.tsx:36-44 | an error alert with the returned message on failure; on success the success alert whose confirm replaces the route with login |
| `Register.SixCharactersIsLongEnough` | app/auth/register.tsx:27-30 | for any filled form whose passwords agree, the form passes exactly when the password has at least 6 characters: 6 pass, 5 do not |
| `Register.RegisterScreen.constructor` | app/auth/register.tsx:9-13 | all fields empty, not loading, bound to the session store |
| `Register.RegisterScreen.HandleRegister` | app/auth/register.tsx:16-45 | the handler's effects are exactly the trace `RegisterEffects` gives; loading ends off after a call and is untouched otherwise |
| `Login.EmptyFieldBlocksSignIn` | app/auth/login.tsx:15-18 | an empty field raises the alert and neither calls `signIn` nor navigates |
| `Login.FilledFormCallsSignInOnce` | app/auth/login.tsx:20-22 | a filled form calls `signIn` once with (email, password), between loading on and loading off, followed by one alert or one navigation |
| `Login.SignInOutcome` | app/auth/login.tsx:24-28 | failure raises the login-error alert with the message and does not navigate; success replaces the route with the tabs and raises no alert |
| `Login.LoginScreen.constructor` | app/auth/login.tsx:9-11 | both fields empty, not loading, bound to the session store |
| `Login.LoginScreen.HandleLogin` | app/auth/login.tsx:14-29 | the handler's effects are exactly the trace `LoginEffects` gives; loading ends off after a call and is untouched otherwise |

## Left out

- The backend client and its query builder are replaced by in-memory tables
  and a per-call `Outcome`. Row-level security, database constraints and
  server-side validation are not modelled.
- Row ids are drawn from a counter, which stands for the backend handing out
  fresh identifiers. The creation time of an inserted row is a parameter
  (`now`) of `AddToCart`.
- Rows with equal creation times come back in table order. The backend may
  return them in any order. `Cart.TotalsIgnoreOrder` shows that the totals do
  not depend on it.
- Concurrency is not modelled. That covers the lost-update race between
  concurrent `addToCart` calls and refetches that overwrite each other out of
  order. Every operation is one atomic step.
- The profile read started by the session-change listener is not awaited.
  The model completes it within the listener's step.
- Prices are integer cents, not floating-point numbers. The `toFixed`
  display formatting is not modelled.
- `console.error` logging is not modelled.
- The exact alert and error texts are not modelled. Each one is a distinct
  constant or alert kind.
- A rejected `clearCart`, `fetchProfile` or `signOut` is modelled as leaving
  the state unchanged. The unhandled rejection itself is not modelled.
- `password.length` counts UTF-16 code units. The model uses the sequence
  length of a `string`.
- Creating the account and establishing the session on the backend are
  external. A new session reaches the store only through `OnAuthStateChange`.
- Typing into the screens' fields and all rendering are not modelled. The
  screens' fields are plain object fields that a client sets directly. A
  success alert records the route its confirm button replaces the screen
  with; pressing the button is not a separate event.
- `components/ui/Button.tsx`, `components/ProductCard.tsx` and
  `app/index.tsx` are presentational and are not part of this model.
- `lib/supabase.ts` is not part of this model, so the row types follow the
  fields the stores and screens use. A profile row is its `id` and its other
  columns by name, each holding text.
- `Backend.ApplyUpdate`: a `Partial<Profile>` is modelled as a map from
  column name to new value over the non-key columns. An update that changes
  `id` is not modelled, nor are non-text column values.
