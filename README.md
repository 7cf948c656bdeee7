# Portfolio stores and Fibonacci demos, modelled in Dafny

This project models four small pieces of logic from a portfolio of demo
applications and proves properties about them:

- **The storefront's cart store** (`cartStore.ts`). It holds an ordered list of
  cart lines keyed by product id. It also holds four derived prices (items,
  shipping, tax, total) and the saved shipping address and payment method. Its
  actions are add-or-update, remove, save address, save payment method, and
  clear. The model has pure functions for the list and price transitions and a
  class `CartStore.Cart` whose methods update its fields through them. Money is
  counted in whole cents.
- **The kanban board store** (`boardStore.ts`). It holds an ordered list of
  tasks and the configured columns. Its actions are add, update, delete, move
  and rehydrate, and it has a query for the tasks of one column. Every mutation
  except rehydrate writes the list to local storage; `Board.BoardStore.persisted` is a ghost copy
  of what storage holds.
- **The recursive Fibonacci of the C++ demo**, over `int` and `long long`. It
  comes with an independent two-accumulator definition and the exact bound
  under which its 64-bit additions do not overflow.
- **The recursive Fibonacci of the Node.js demo**, over `number`, which is
  modelled as an exact `real`. It is proved to agree with the C++ copy on every
  `int` argument up to 78, and to stay exact in a double up to that argument.
  From 79 on its value is no longer a safe integer, so a double may round it.

Files: `collections.dfy` (an `Option` type and a generic `Filter`),
`cart_store.dfy`, `board_store.dfy`, `fibonacci_cpp.dfy`, `fibonacci_ts.dfy`.

Behaviour worth knowing, shown by the model:

- An empty cart has two different price states. `clearCart` and the initial
  state set all four prices to zero. Removing the last line instead prices the
  empty list with `updateCartPrices`, which gives $10 shipping and a $10 total
  (`CartStore.EmptyCartPrices`). So the prices are a function of the list
  except for that zeroed empty state. `CartStore.Cart.PricesCurrent` states
  exactly this.
- `addToCart` on a product already in the cart keeps the existing line's name,
  price, image and stock. Only the quantity comes from the call.
- `moveTask` accepts any column id, including one the board does not have
  (`Board.MoveToUnknownColumn`).
- A task's place inside a column comes from its position in the list, not from
  where it was dropped (`Board.MovedTaskOrder`).

## Model

| member | source | states |
|---|---|---|
| `Collections.Filter` | EcommerceApp/client/src/stores/cartStore.ts:76 | `Array.prototype.filter`: the result holds exactly the elements that pass, each passes, and it is no longer than the input |
| `Collections.FilterConcat` | kanban-next/stores/boardStore.ts:106 | filtering distributes over concatenation, so kept elements keep their relative order |
| `Collections.FilterKeepsAll` | kanban-next/stores/boardStore.ts:106 | when every element passes, the filter returns its input unchanged |
| `Collections.FilterIdempotent` | kanban-next/stores/boardStore.ts:106 | filtering twice with one predicate equals filtering once |
| `Collections.FilterDropsOne` | kanban-next/stores/boardStore.ts:106 | when only the element at one position fails the predicate, the filter cuts out exactly that element and keeps the rest in order |
| `Collections.FilterSingleton` | kanban-next/stores/boardStore.ts:125 | a one-element sequence is kept exactly when its element passes |
| `CartStore.ItemsPriceConcat` | EcommerceApp/client/src/stores/cartStore.ts:24-27 | the `reduce` subtotal of a concatenation is the sum of the two subtotals |
| `CartStore.ItemsPriceSingleton` | EcommerceApp/client/src/stores/cartStore.ts:24-27 | the subtotal of one line is its price times its quantity |
| `CartStore.ItemsPrice` | EcommerceApp/client/src/stores/cartStore.ts:24-27 | the `reduce` subtotal, a left fold of price×qty with start value 0: an empty list sums to 0, and with non-negative prices and quantities the subtotal is non-negative; `ItemsPriceConcat` is its partner |
| `CartStore.RoundToCent` | EcommerceApp/client/src/stores/cartStore.ts:33-38 | `toFixed(2)` rounding: the result is the nearest cent, with ties going away from zero |
| `CartStore.RoundSymmetric` | EcommerceApp/client/src/stores/cartStore.ts:33-38 | rounding a negated value gives the negated rounding |
| `CartStore.RoundWholeCents` | EcommerceApp/client/src/stores/cartStore.ts:34 | rounding a whole number of cents leaves it unchanged |
| `CartStore.CartPrices` | EcommerceApp/client/src/stores/cartStore.ts:23-39 | the items price is the sum of price×qty; shipping is 0 above $100 and $10 otherwise; tax and total are each within half a cent of their unrounded values (15% of items; items + shipping + tax) |
| `CartStore.TotalIsSumOfParts` | EcommerceApp/client/src/stores/cartStore.ts:29-38 | the four fields are rounded independently, yet on a non-negative subtotal the rounded total equals items + shipping + tax |
| `CartStore.WorkedExample` | EcommerceApp/client/src/stores/cartStore.ts:23-39 | $20×2 and $15×1 price as 55.00 / 10.00 / 8.25 / 73.25 |
| `CartStore.ShippingBoundary` | EcommerceApp/client/src/stores/cartStore.ts:28 | the test is strict: a subtotal of exactly $100.00 pays $10 and $100.01 ships free |
| `CartStore.EmptyCartPrices` | EcommerceApp/client/src/stores/cartStore.ts:88-95 | an empty list priced by `updateCartPrices` shows $10 shipping and a $10 total, which differs from the zeros `clearCart` sets |
| `CartStore.FindById` | EcommerceApp/client/src/stores/cartStore.ts:52 | `find`: it returns a line with that id, and the first one; it returns none exactly when no line has the id |
| `CartStore.FindUnique` | EcommerceApp/client/src/stores/cartStore.ts:52 | when ids are unique, the line found for an id is the line at that id's position |
| `CartStore.AddToCartItems` | EcommerceApp/client/src/stores/cartStore.ts:52-64 | an existing id keeps the length; a new id appends exactly `{...item, qty}` after untouched earlier lines; lines with other ids are unchanged; every line with the id has quantity `qty` |
| `CartStore.ReplaceQty` | EcommerceApp/client/src/stores/cartStore.ts:58-60 | the `map`: the length is kept, each line with the existing line's id becomes that line with quantity `qty`, and every other line is left as it is |
| `CartStore.AddToCartLookup` | EcommerceApp/client/src/stores/cartStore.ts:56-64 | reading back after an add gives the existing line (or else the passed item) with the new quantity, so the other fields come from the existing line |
| `CartStore.AddToCartIds` | EcommerceApp/client/src/stores/cartStore.ts:52-64 | the ids after an add are the old ids plus the item's id |
| `CartStore.AddToCartKeepsUnique` | EcommerceApp/client/src/stores/cartStore.ts:52-64 | adding preserves id uniqueness |
| `CartStore.AddExistingReplacesQty` | EcommerceApp/client/src/stores/cartStore.ts:56-60 | with unique ids, re-adding a present product sets that one line's qty and changes nothing else |
| `CartStore.LastWriteWins` | EcommerceApp/client/src/stores/cartStore.ts:50-64 | two adds of the same product give the same list as the second add alone, so quantity 3 then 5 leaves 5 and not 8 |
| `CartStore.AddToCartItemsPrice` | EcommerceApp/client/src/stores/cartStore.ts:50-71 | a new line raises the subtotal by price×qty; an existing line changes it by price×(new qty − old qty) |
| `CartStore.RemoveFromCartItems` | EcommerceApp/client/src/stores/cartStore.ts:76 | it keeps exactly the lines with other ids; the removed id is gone; an absent id changes nothing |
| `CartStore.RemoveIdempotent` | EcommerceApp/client/src/stores/cartStore.ts:74-83 | removing twice equals removing once |
| `CartStore.RemoveKeepsOrder` | EcommerceApp/client/src/stores/cartStore.ts:76 | the kept lines stay in their original relative order |
| `CartStore.RemoveSingle` | EcommerceApp/client/src/stores/cartStore.ts:76 | removing a line's own id from a one-line cart leaves the empty cart |
| `CartStore.RemovePresent` | EcommerceApp/client/src/stores/cartStore.ts:76 | with unique ids, removing a present id cuts out exactly its line (through `Collections.FilterDropsOne`) |
| `CartStore.RemovePresentPrice` | EcommerceApp/client/src/stores/cartStore.ts:74-82 | with unique ids, removing a present id lowers the subtotal by that line's price×qty |
| `CartStore.RemoveKeepsUnique` | EcommerceApp/client/src/stores/cartStore.ts:76 | removal preserves id uniqueness |
| `CartStore.AddThenRemove` | EcommerceApp/client/src/stores/cartStore.ts:50-83 | removing a product just added to a cart that lacked it restores the cart |
| `CartStore.Cart.constructor` | EcommerceApp/client/src/stores/cartStore.ts:41-48 | the initial state has no lines, zero prices, and no address or payment method |
| `CartStore.Cart.PricesCurrent` | EcommerceApp/client/src/stores/cartStore.ts:41-95 | the store's price invariant, set at lines 42-46 and 88-95 and restored at 66-71 and 77-82: the four prices are `updateCartPrices` of the list, or the list is empty and they are the zeros of the initial and cleared state; when it holds the items price is the list's subtotal, and on a non-empty list the prices are exactly `CartPrices` of it |
| `CartStore.Cart.ValidItemsPrice` | EcommerceApp/client/src/stores/cartStore.ts:41-48 | in every valid state, the zeroed empty one included, the stored items price is the subtotal of the list |
| `CartStore.Cart.SetItems` | EcommerceApp/client/src/stores/cartStore.ts:66-71 | `set({ cartItems, ...updateCartPrices(cartItems) })`: the list becomes the given one and the four prices become `CartPrices` of it; the checkout fields are outside its frame |
| `CartStore.Cart.AddToCart` | EcommerceApp/client/src/stores/cartStore.ts:50-72 | the new list is the add-or-update of the old one; prices are recomputed from it; the checkout fields are untouched; the store invariant is kept; from a valid state the items price rises by price×qty for a new product, and for a present one moves by price×(new qty − old qty) |
| `CartStore.Cart.RemoveFromCart` | EcommerceApp/client/src/stores/cartStore.ts:74-83 | the new list is the old one filtered by id; prices are recomputed from it; the checkout fields are untouched; the invariant is kept; from a valid state the items price falls by the removed line's price×qty, and stays the same for an absent id |
| `CartStore.Cart.SaveShippingAddress` | EcommerceApp/client/src/stores/cartStore.ts:85 | only the address changes; the lines and prices do not |
| `CartStore.Cart.SavePaymentMethod` | EcommerceApp/client/src/stores/cartStore.ts:87 | only the payment method changes; the lines and prices do not |
| `CartStore.Cart.ClearCart` | EcommerceApp/client/src/stores/cartStore.ts:88-95 | the list becomes empty and the four prices zero; the address and payment method are kept |
| `Board.UpdateTaskIn` | kanban-next/stores/boardStore.ts:95-97 | matching tasks get the new title and description and keep id, column and creation time; other tasks, the length and the order are unchanged; an absent id is a no-op |
| `Board.MoveTaskIn` | kanban-next/stores/boardStore.ts:115-117 | only the column of the matching task changes, and it stays at its list position; an absent id is a no-op; the set of ids is unchanged |
| `Board.DeleteTaskFrom` | kanban-next/stores/boardStore.ts:106 | it keeps exactly the tasks with other ids; the id disappears; an absent id is a no-op |
| `Board.TasksInColumn` | kanban-next/stores/boardStore.ts:125 | it returns exactly the tasks whose column matches |
| `Board.DeleteIdempotent` | kanban-next/stores/boardStore.ts:104-110 | deleting twice equals deleting once |
| `Board.DeleteKeepsOrder` | kanban-next/stores/boardStore.ts:106 | the surviving tasks keep their relative order |
| `Board.DeletePresent` | kanban-next/stores/boardStore.ts:106 | with unique ids, deleting a present id cuts out exactly its task (through `Collections.FilterDropsOne`) |
| `Board.ColumnViewKeepsOrder` | kanban-next/stores/boardStore.ts:125 | the column query returns tasks in list order |
| `Board.ColumnViewSingle` | kanban-next/stores/boardStore.ts:125 | the column query on one task returns it exactly when its column matches |
| `Board.AddShowsLastInColumn` | kanban-next/stores/boardStore.ts:85-86 | a task that was just added shows up last in its own column and in no other column |
| `Board.AddKeepsUnique` | kanban-next/stores/boardStore.ts:76-90 | appending a task with a fresh id preserves id uniqueness |
| `Board.UpdateKeepsUnique` | kanban-next/stores/boardStore.ts:93-101 | updating preserves id uniqueness |
| `Board.MoveKeepsUnique` | kanban-next/stores/boardStore.ts:113-121 | moving preserves id uniqueness |
| `Board.DeleteKeepsUnique` | kanban-next/stores/boardStore.ts:104-110 | deleting preserves id uniqueness |
| `Board.MoveChangesColumnViews` | kanban-next/stores/boardStore.ts:113-126 | after a move to a different column, the new column's query contains the task and the old column's query contains no task with its id |
| `Board.MovedTaskOrder` | kanban-next/stores/boardStore.ts:113-126 | in its new column a moved task sits between the tasks before it and the tasks after it in the list |
| `Board.MoveToKnownColumn` | kanban-next/stores/boardStore.ts:113-121 | a move into a configured column keeps every task in a configured column |
| `Board.MoveToUnknownColumn` | kanban-next/stores/boardStore.ts:113-121 | no check is made on the column: moving to `"archive"` leaves a task outside the default columns |
| `Board.BoardStore.constructor` | kanban-next/stores/boardStore.ts:62-65 | the tasks are the ones storage yields (an empty list counts), or the samples if storage has none; the columns are the defaults |
| `Board.BoardStore.InitializeTasks` | kanban-next/stores/boardStore.ts:68-73 | the tasks are replaced only when storage yields a value; otherwise the state is unchanged and nothing is saved |
| `Board.BoardStore.AddTask` | kanban-next/stores/boardStore.ts:76-90 | exactly one task `{id, title, description, column, createdAt}` is appended; earlier tasks are unchanged; the persisted copy equals the new list; uniqueness is kept |
| `Board.BoardStore.UpdateTask` | kanban-next/stores/boardStore.ts:93-101 | the new list is the update of the old one; the persisted copy equals it; uniqueness is kept |
| `Board.BoardStore.DeleteTask` | kanban-next/stores/boardStore.ts:104-110 | the new list is the old one filtered by id; the persisted copy equals it; uniqueness is kept |
| `Board.BoardStore.MoveTask` | kanban-next/stores/boardStore.ts:113-121 | the new list is the re-columned old one; the persisted copy equals it; uniqueness is kept |
| `Board.BoardStore.GetTasksByColumn` | kanban-next/stores/boardStore.ts:124-126 | it returns, in list order, exactly the tasks in that column, and changes no state |
| `FibonacciCpp.Fibonacci` | CppPerformanceDemo/fibonacci_calc.cpp:10-15 | the recursion terminates because each call has a smaller argument; results are non-negative for n ≥ 0 and at least 1 for n ≥ 1 |
| `FibonacciCpp.FibonacciBase` | CppPerformanceDemo/fibonacci_calc.cpp:11-13 | for n ≤ 1 the result is n itself, negative n included |
| `FibonacciCpp.CppFibonacci` | CppPerformanceDemo/fibonacci_calc.cpp:10-15 | over `int`→`long long`, for every n ≤ 92 no addition overflows and the result is the mathematical value |
| `FibonacciCpp.DemoValue` | CppPerformanceDemo/fibonacci_calc.cpp:28 | the demo's call with N = 40 returns 102334155 |
| `FibonacciCpp.RecursionMatchesLinear` | CppPerformanceDemo/fibonacci_calc.cpp:7-15 | the recursion equals a linear two-accumulator loop on every input |
| `FibonacciCpp.FibonacciMonotone` | CppPerformanceDemo/fibonacci_calc.cpp:10-15 | from index 0 upward the values never decrease |
| `FibonacciCpp.FibonacciAt78And79` | NodeJsFlexibilityDemo/fibonacci_calc.ts:8-10 | the exact values at 78 and 79 |
| `FibonacciCpp.FibonacciAt92And93` | CppPerformanceDemo/fibonacci_calc.cpp:10 | the exact values at 92 and 93 |
| `FibonacciCpp.FibonacciFitsInt64` | CppPerformanceDemo/fibonacci_calc.cpp:10-15 | for n ≤ 92 the result and the final sum are at most the `long long` maximum (an upper bound only; for an `int` argument the lower bound comes from `FibonacciCpp.Fibonacci`'s sign bounds and the base case) |
| `FibonacciCpp.Fibonacci93Overflows` | CppPerformanceDemo/fibonacci_calc.cpp:14 | at n = 93 the sum exceeds the `long long` maximum, so 92 is the largest safe argument |
| `FibonacciTs.TsFibonacci` | NodeJsFlexibilityDemo/fibonacci_calc.ts:4-12 | in the exact-real model the recursion terminates for every argument; on integral arguments the result is an integer and equals the C++ recursion's value |
| `FibonacciTs.TsFibonacciBase` | NodeJsFlexibilityDemo/fibonacci_calc.ts:5-7 | for n ≤ 1, integral or not, the result is n |
| `FibonacciTs.AgreesWithCpp` | NodeJsFlexibilityDemo/fibonacci_calc.ts:3 | "identical in logic": on every C++ `int` argument up to 78, both copies return the same value, the JavaScript one exactly in a double (`FibonacciTs.SafeUpTo78`) |
| `FibonacciTs.SafeUpTo78` | NodeJsFlexibilityDemo/fibonacci_calc.ts:8-10 | for 0 ≤ n ≤ 78 (the demo's N = 40 included) the result is a safe integer, so it is exact in a double |
| `FibonacciTs.UnsafeFrom79` | NodeJsFlexibilityDemo/fibonacci_calc.ts:8-10 | from 79 onward the result exceeds `Number.MAX_SAFE_INTEGER` |

## Left out

- Binary floating point. Prices are whole cents, and `toFixed(2)`/`parseFloat` become exact decimal rounding (`CartStore.RoundToCent`). The model does not capture rounding errors of doubles, such as `1.005.toFixed(2)` giving `"1.00"`, or a sum that drifts when added in floats. Prices with fractions of a cent are not representable.
- `CartStore.TotalIsSumOfParts` describes the model. With binary doubles the four separately rounded fields can disagree with each other by a cent.
- `FibonacciTs.TsFibonacci`: `number` is an exact `real`. The model does not capture `NaN` or `Infinity` (for which the recursion never ends), or rounding once values pass 2^53. It also does not capture that a finite argument of 2^54 or more never reaches the base case in doubles, because there `n - 1` rounds back to `n`, so the program ends in a stack overflow; only in the exact-real model does the recursion terminate for every argument. Instead `FibonacciTs.UnsafeFrom79` proves where exactness ends.
- `FibonacciCpp.CppFibonacci` requires n ≤ 92. Beyond that the C++ addition overflows `long long`, which is undefined behaviour, so there is no value to model.
- `Board.BoardStore.AddTask` takes the new id and `createdAt` as parameters and requires the id to be unused. The source makes them from `Date.now()` and `Math.random()` (`task-<ms>-<9 base-36 chars>`), which makes a fresh id likely but does not guarantee one.
- `loadTasks`/`saveTasks` and local storage (the `@/utils/storage` module) are not part of this model. Storage is the ghost field `persisted`, and `loadTasks()` is the `stored` parameter. The serialisation format, a write that fails, and a reload that re-reads what was saved are not modelled.
- The task, column and `ColumnId` types (the `@/types` module) are not part of this model. `ColumnId` is a plain string here, so a compile-time restriction to the three default columns, if the source has one, is not captured.
- The sample tasks are a `samples` parameter of `Board.BoardStore.constructor`, not constants. Their timestamps come from the clock.
- zustand's subscription and re-render machinery: `set` is a plain field assignment here.
- `main` and `runCalculation` in the Fibonacci demos (timers, console output), the React screens, the Express/Mongoose server, the auth store, the robotics headers and the data-visualisation app are outside the modelled core.
