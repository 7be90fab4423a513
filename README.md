# Fireworks storefront: a Dafny model

This project models the logic of a multi-tenant fireworks shop and proves
properties of it. The shop has three parts:

- a customer storefront (`frontend/`);
- a FastAPI backend (`backend/app/main.py`);
- an administration front end (`admin-frontend/`).

The storefront works out two things from the URL. The *supplier* (tenant)
comes from the first path segment. The *distributor* comes from the query
or the path. A distributor fixes a deterministic demonstration stock for
every product, and the cart clamps quantities to that stock. The backend
imports products from a spreadsheet, creates orders and computes two
dashboards. The admin front end counts orders and uploads products. It also
filters a distributor's orders, edits the inventory a distributor keeps on
the server, and edits the one a distributor keeps in the browser. A role
guard stands in front of its dashboards.

Each module follows one source file:

- **Pure code** is written as functions with lemmas: the resolvers, the
  filters, the folds and the row mapping.
- **State that the source updates in place** is written as a class whose
  methods say the whole new state. This covers the cart, the stepper, the
  page states, local storage and the supplier hook.
- **Loops** are written as methods with loop invariants, proved equal to a
  function on their inputs: `_column_to_index`, the cell and row loops,
  the product loop, the category `forEach` and `Object.entries`.

Conventions:

- Money is integer cents.
- Strings are `seq<char>`, and lower-casing is ASCII.
- JavaScript's truncating `%` is written out (`JsRemainder`).
- Requests, the clock and the order-number generator are parameters. A
  handler is given what its request answered: an `Option`, or a
  `succeeded` flag.
- Parsed JSON and query strings are given as values: records and a
  key-to-value map.

Shared modules:

- `Wrappers`: `Option` and `Result`.
- `Text`: trimming, lower-casing, `includes`, `split("/").filter(Boolean)`
  and `String(n)`.
- `Seqs`: `filter`, counting, and a keyed `reduce` into a map.
- `Records`: users, orders, statuses and inventories.

## Model

| member | source | states |
|---|---|---|
| CartStore.FindIndex | frontend/src/store/cart.jsx:12 | the index found is that of the first item with the id, and it is past the end exactly when no item has the id |
| CartStore.WithQuantity | frontend/src/store/cart.jsx:15-17 | only items with the id get the new quantity; every other item and the order stay |
| CartStore.AddedItems | frontend/src/store/cart.jsx:12-19 | `addItem` keeps the length for an id already present and appends one item otherwise; every earlier item keeps its product record and order; afterwards the id is present |
| CartStore.AddExisting | frontend/src/store/cart.jsx:12-18 | adding an id already present sets that item to `min(old + q, stock)`; the length, every other item and the order are unchanged |
| CartStore.AddNew | frontend/src/store/cart.jsx:19 | adding a new id appends exactly one item, at the end, with `min(q, stock)` |
| CartStore.AddKeepsUniqueIds | frontend/src/store/cart.jsx:12-19 | `addItem` never creates a second item for an id |
| CartStore.AddKeepsWithinStock | frontend/src/store/cart.jsx:10-19 | no quantity exceeds its product's stock after `addItem` |
| CartStore.AddKeepsPositive | frontend/src/store/cart.jsx:10-19 | with `q >= 1` and `stock >= 1` every quantity stays at least 1 |
| CartStore.AddNonPositiveGap | frontend/src/store/cart.jsx:14-19 | with `q <= 0` a new product is still inserted, with a quantity of at most 0 |
| CartStore.Reclamp | frontend/src/store/cart.jsx:26-32 | the map step gives each item with the id `min(max(q, 0), stock)`; all other items are unchanged |
| CartStore.UpdatedItems | frontend/src/store/cart.jsx:26-33 | `updateQuantity` never lengthens the cart, leaves only positive quantities, and keeps every other item whose quantity is positive |
| CartStore.UpdateTarget | frontend/src/store/cart.jsx:26-33 | the target survives `updateQuantity` exactly when its clamped quantity is positive, and then carries it |
| CartStore.UpdateOthers | frontend/src/store/cart.jsx:26-33 | every other item survives unchanged and in order exactly when its quantity is positive |
| CartStore.UpdateKeepsInvariants | frontend/src/store/cart.jsx:26-33 | after `updateQuantity` every quantity is positive and ids stay unique |
| CartStore.UpdateDropsNonPositive | frontend/src/store/cart.jsx:33 | an id not in the cart still drops every item whose quantity is not positive |
| CartStore.UpdateKeepsWithinStock | frontend/src/store/cart.jsx:30-31 | no quantity exceeds its stock after `updateQuantity` |
| CartStore.RemovedItems | frontend/src/store/cart.jsx:37-39 | `removeItem` never lengthens the cart, leaves no item with the id and keeps every other item |
| CartStore.RemoveSpec | frontend/src/store/cart.jsx:37-39 | `removeItem` leaves no item with the id and keeps every other item in order; removing twice is removing once |
| CartStore.RemoveAbsent | frontend/src/store/cart.jsx:38 | removing an absent id changes nothing |
| CartStore.RemoveKeepsInvariants | frontend/src/store/cart.jsx:37-39 | removal keeps unique ids, positive quantities and the stock bound |
| CartStore.Sum | frontend/src/store/cart.jsx:43-46 | with non-negative prices and quantities the total is non-negative |
| CartStore.SumConcat | frontend/src/store/cart.jsx:43-46 | the total of a concatenation is the sum of the totals |
| CartStore.SumPartition | frontend/src/store/cart.jsx:43-46 | the total splits into the items with an id and the rest |
| CartStore.AddNewTotal | frontend/src/store/cart.jsx:43-46 | adding a new product raises the total by its price times the capped quantity |
| CartStore.Cart.constructor | frontend/src/store/cart.jsx:7 | the cart starts empty and valid |
| CartStore.Cart.Total | frontend/src/store/cart.jsx:43-46 | the empty cart totals 0 |
| CartStore.Cart.AddItem | frontend/src/store/cart.jsx:9-21 | the new items are those `addItem` builds; the invariant (unique ids, stock bound) is kept, and so are positive quantities for `q >= 1` |
| CartStore.Cart.UpdateQuantity | frontend/src/store/cart.jsx:23-35 | the new items are those `updateQuantity` builds; the invariant holds and every quantity is positive |
| CartStore.Cart.RemoveItem | frontend/src/store/cart.jsx:37-39 | the new items are those `removeItem` builds, and the invariant is kept |
| CartStore.Cart.ClearCart | frontend/src/store/cart.jsx:41 | the cart becomes empty and its total 0 |
| DistributorData.MapIsReduce | frontend/src/data/distributors.js:29-32 | the written-out map is exactly what the `reduce` over the list builds |
| DistributorData.BuildMapKeyedByCode | frontend/src/data/distributors.js:29-32 | for any list, each entry sits under its own code and every listed code is a key |
| DistributorData.MapKeys | frontend/src/data/distributors.js:1-20 | the keys are exactly gz, sz and hz |
| DistributorData.MapEntriesKeyedByCode | frontend/src/data/distributors.js:29-36 | every entry's code is its key and every entry is a listed distributor |
| DistributorData.DefaultIsNotInMap | frontend/src/data/distributors.js:22-27 | the default distributor is neither a key nor a listed entry |
| DistributorData.ListOrder | frontend/src/data/distributors.js:1-34 | the list has gz, sz, hz in declaration order and each looks up to itself |
| Text.Or | admin-frontend/src/pages/AdminDashboard.jsx:73-77 | the or-operator on strings: `a` when it is not empty, else `b` |
| Text.ToLowerOfLower | admin-frontend/src/App.jsx:27-46 | lower-casing a string without upper-case letters changes nothing |
| Text.ToLowerConcat | admin-frontend/src/App.jsx:27-46 | lower-casing distributes over concatenation |
| Text.Trim | frontend/src/utils/distributor.js:3 | `trim()` never lengthens a string |
| Text.TrimIsTrimmed | frontend/src/utils/distributor.js:3 | a trimmed string has no white space at either end |
| Text.TrimEmptyIff | frontend/src/pages/CategoryList.jsx:25-27 | a string trims to "" exactly when it is all white space |
| Text.ToLower | frontend/src/utils/distributor.js:3 | `toLowerCase()` keeps the length |
| Text.Segments | frontend/src/utils/distributor.js:12 | `split("/").filter(Boolean)` gives non-empty segments without `/` |
| Text.IntToStringInjective | frontend/src/pages/ProductDetail.jsx:19-22 | distinct integers render to distinct strings |
| Text.NormalizeIdempotent | frontend/src/utils/distributor.js:3 | normalising (trim, then lower-case) twice is normalising once |
| Text.NormalizeForm | frontend/src/utils/distributor.js:3 | `trim().toLowerCase()` leaves no white space at either end and no upper-case letter, never lengthens, and gives "" exactly for an all-white-space value |
| Text.Contains | frontend/src/pages/CategoryList.jsx:26-27 | `includes` never finds a string longer than the one searched |
| Text.IntToString | frontend/src/pages/ProductDetail.jsx:20 | `String(n)` is non-empty and starts with `-` exactly for a negative `n` |
| DistributorResolver.ResolveWith | frontend/src/utils/distributor.js:5-26 | the result passes the map lookup or is the default code |
| DistributorResolver.ResolveCodeAsWritten | frontend/src/utils/distributor.js:8-23 | as written, the result is a listed code, an inherited property name or the default code |
| DistributorResolver.ResolveCode | frontend/src/utils/distributor.js:5-26 | with own keys only, the result is always a listed code or the default code |
| DistributorResolver.InheritedNameAccepted | frontend/src/utils/distributor.js:7-10 | a query code equal to an inherited name is returned as written though it is no code; the corrected resolver falls back to the path |
| DistributorResolver.ConstructorQuery | frontend/src/utils/distributor.js:7 | `?dist=constructor` normalises to `constructor` |
| DistributorResolver.AsWrittenAgrees | frontend/src/utils/distributor.js:8-23 | the two resolvers agree unless the query or the last segment normalises to an inherited name |
| DistributorResolver.QueryCodeWins | frontend/src/utils/distributor.js:7-10 | a known query code wins over the path |
| DistributorResolver.PathDecidesOtherwise | frontend/src/utils/distributor.js:12-25 | without a known query code only the last path segment decides; the `/d/<code>` rule never changes the outcome |
| DistributorResolver.DistHidesD | frontend/src/utils/distributor.js:7 | a non-empty `dist` hides `d` entirely |
| DistributorResolver.EmptyPathIsDefault | frontend/src/utils/distributor.js:20-25 | an empty path without a usable query gives `default` |
| DistributorResolver.SegmentsOfDGz | frontend/src/utils/distributor.js:12 | `/d/gz` splits into `d`, `gz` |
| DistributorResolver.QueryOverPathExample | frontend/src/utils/distributor.js:7-10 | `/d/gz?d=sz` resolves to `sz` |
| DistributorResolver.UnknownQueryExample | frontend/src/utils/distributor.js:12-17 | `/d/gz?d=xx` resolves to `gz` |
| DistributorResolver.QueryCodeIsNormal | frontend/src/utils/distributor.js:3-7 | the query code (`dist`, else `d`) is already in normal form |
| DistributorResolver.QueryCode | frontend/src/utils/distributor.js:7 | the normalised `dist` parameter when it is non-empty, otherwise the normalised `d` parameter |
| DistributorResolver.PathCode | frontend/src/utils/distributor.js:12-25 | the path alone gives a listed code or the default code |
| DistributorResolver.PathCodeOfDGz | frontend/src/utils/distributor.js:12-17 | the path `/d/gz` alone gives `gz` |
| DistributorResolver.GetDistributor | frontend/src/utils/distributor.js:28 | corrected lookup (own keys only): a known code gives its record and any other value the default distributor |
| DistributorResolver.GetDistributorByLocation | frontend/src/utils/distributor.js:30-33 | corrected lookup: the distributor of a location is listed or the default |
| DistributorResolver.ByLocationHasResolvedCode | frontend/src/utils/distributor.js:30-33 | corrected lookup: the distributor of a location carries the resolved code and is listed or the default |
| DistributorResolver.GetDistributorAsWritten | frontend/src/utils/distributor.js:28 | as written: a known code gives its record, an inherited name (`constructor`, `__proto__`) gives the inherited value, any other code the default distributor |
| DistributorResolver.GetDistributorByLocationAsWritten | frontend/src/utils/distributor.js:30-33 | as written: the inherited value is returned exactly when the as-written resolver gives an inherited name; a record carries the resolved code and is listed or the default |
| DistributorResolver.InheritedLookupAsWritten | frontend/src/utils/distributor.js:28 | `getDistributor("constructor")` returns the inherited value, not a distributor; the corrected lookup gives the default |
| DistributorResolver.ByLocationAsWrittenAgrees | frontend/src/utils/distributor.js:8-33 | as-written and corrected lookups agree on every location whose query and last segment do not normalise to an inherited name |
| DistributorResolver.JsRemainder | frontend/src/utils/distributor.js:40 | JavaScript `%`: the dividend is the truncated quotient times the divisor plus the remainder; magnitude below the divisor, sign of the dividend |
| DistributorResolver.CodeUnits | frontend/src/utils/distributor.js:37-39 | a character splits into one UTF-16 code unit below 0x10000, or a surrogate pair that encodes it |
| DistributorResolver.CharCodeSum | frontend/src/utils/distributor.js:37-39 | the sum of the UTF-16 code units, at most 0xFFFF per unit |
| DistributorResolver.CharCodeSumConcat | frontend/src/utils/distributor.js:37-39 | the seed of a concatenation is the sum of the seeds |
| DistributorResolver.StockFor | frontend/src/utils/distributor.js:35-42 | the stock lies in -11..47, and in 18..47 for a non-negative product id |
| DistributorResolver.StockThroughNormalForm | frontend/src/utils/distributor.js:36 | stock depends on a code only through its normal form |
| DistributorResolver.StockFallbacks | frontend/src/utils/distributor.js:36-40 | an empty code counts as `default`, and product id 0 as 1 |
| DistributorResolver.EmptyCodeIsDefault | frontend/src/utils/distributor.js:36 | an empty code gives the stock of the default distributor's code |
| DistributorResolver.NegativeIdStock | frontend/src/utils/distributor.js:40 | product id -40 at `gz` has stock -7 |
| DistributorStore.SelectDistributor | frontend/src/store/distributor.jsx:13-24 | corrected program: the selected distributor always has a non-empty code |
| DistributorStore.EmbeddedDistributor | frontend/src/store/distributor.jsx:14-21 | an embedded distributor is used with its code verbatim, its empty name or address replaced by the default's, and the default theme; the location then plays no part |
| DistributorStore.LocationDistributor | frontend/src/store/distributor.jsx:23 | corrected program: otherwise the location's distributor is used, a listed one or the default |
| DistributorStore.SelectDistributorAsWritten | frontend/src/store/distributor.jsx:13-24 | as written: an embedded distributor is used as in the corrected program; otherwise the as-written location lookup decides |
| DistributorStore.CodelessDistributorAsWritten | frontend/src/store/distributor.jsx:23 | as written, `?dist=constructor` without an embedded distributor selects the inherited value, which has no code; the corrected selection has one |
| DistributorStore.AsWrittenSelectionAgrees | frontend/src/store/distributor.jsx:13-24 | the as-written and corrected selections agree unless an inherited name reaches the lookup |
| SupplierResolver.ResolveSupplier | frontend/src/utils/supplier.js:10-17 | the result is a listed supplier or the default supplier |
| SupplierResolver.ResolveFirstMatch | frontend/src/utils/supplier.js:13-16 | the first supplier whose normalised suffix equals the first segment is chosen |
| SupplierResolver.ResolveNoMatch | frontend/src/utils/supplier.js:16 | with no match, including an empty list, the default supplier is chosen |
| SupplierResolver.ResolvedMatches | frontend/src/utils/supplier.js:13-16 | a chosen non-default supplier is the first match |
| SupplierResolver.RootMatchesNoStringSuffix | frontend/src/utils/supplier.js:11-15 | a path without segments matches no supplier whose suffix is a string |
| SupplierResolver.LaterSegmentsIgnored | frontend/src/utils/supplier.js:11-12 | only the first segment counts |
| SupplierResolver.SameFirstSegment | frontend/src/utils/supplier.js:11-15 | paths with the same normalised first segment choose the same supplier |
| SupplierResolver.BuildSupplierPath | frontend/src/utils/supplier.js:19-28 | a built path is non-empty and starts with `/` |
| SupplierResolver.BuildWithoutSuffix | frontend/src/utils/supplier.js:20-23 | without a suffix the path only gains a missing leading `/` |
| SupplierResolver.BuildWithSuffix | frontend/src/utils/supplier.js:24-27 | with a suffix the result is `/`, the suffix, then the path (`/` alone disappears) |
| SupplierResolver.BuildThenResolve | frontend/src/utils/supplier.js:10-28 | round trip: a path built for a supplier with a one-segment suffix resolves back to that supplier when no earlier supplier has the same suffix |
| SupplierResolver.BuiltPathFirstSegment | frontend/src/utils/supplier.js:10-28 | the first segment of a built path is the supplier's normalised suffix |
| SupplierStore.SelectSupplier | frontend/src/store/supplier.jsx:12-17 | the selected supplier is the default supplier or one of the directory |
| SupplierStore.SelectIsResolve | frontend/src/store/supplier.jsx:12-17 | the empty-list guard changes nothing: selection is resolution |
| SupplierStore.EmptyDirectory | frontend/src/store/supplier.jsx:13-15 | an empty list yields the default supplier for every location |
| SupplierDirectory.NormalizeSupplier | frontend/src/hooks/useSuppliers.js:4-16 | code and suffix are copied, the mall name is never empty, and the distributor is absent exactly when the input's is |
| SupplierDirectory.NormalizeFallbacks | frontend/src/hooks/useSuppliers.js:7-13 | mall name: `mall_name`, then `mallName`, then the default; pickup address: `pickup_address`, then `pickupAddress`, then "" |
| SupplierDirectory.NormalizeAll | frontend/src/hooks/useSuppliers.js:29 | array data maps element-wise, keeping length and order |
| SupplierDirectory.SupplierList.constructor | frontend/src/hooks/useSuppliers.js:19-21 | no suppliers, loading, no error |
| SupplierDirectory.SupplierList.Complete | frontend/src/hooks/useSuppliers.js:26-39 | an array is normalised; other data gives `[]`; a failure gives `[]` and its message or the default one; loading ends in all cases |
| Products.ResolveImageUrl | frontend/src/utils/products.js:3-11 | empty gives "", `http…` is unchanged, anything else gets the API base and a `/` |
| Products.RelativeImageUrl | frontend/src/utils/products.js:10 | after the API base comes the value itself, with a `/` added only when it lacks one |
| CategoryMenu.FirstAppearances | frontend/src/pages/CategoryMenu.jsx:21-27 | no entry is empty |
| CategoryMenu.Categories | frontend/src/pages/CategoryMenu.jsx:18-29 | the `forEach` loop builds the all-categories entry followed by the first appearances |
| CategoryMenu.CategoriesHead | frontend/src/pages/CategoryMenu.jsx:20-28 | the list is never empty and starts with 全部类别, so the 其他类别 fallback is unreachable |
| CategoryMenu.CategoriesComplete | frontend/src/pages/CategoryMenu.jsx:21-27 | later entries are exactly the trimmed, non-empty categories of the products |
| CategoryMenu.CategoriesDistinct | frontend/src/pages/CategoryMenu.jsx:19-27 | later entries are pairwise distinct |
| CategoryMenu.CategoriesInFirstAppearanceOrder | frontend/src/pages/CategoryMenu.jsx:21-27 | later entries are in the order their categories first appear |
| CategoryMenu.AllCategoriesMayRepeat | frontend/src/pages/CategoryMenu.jsx:20-25 | a product whose category is literally 全部类别 adds it a second time |
| CategoryMenu.FilteredProducts | frontend/src/pages/CategoryMenu.jsx:39-43 | the result is an order-preserving subsequence: all products for 全部类别, else those whose raw category equals the active one, each with its multiplicity |
| CategoryMenu.AllShowsEverything | frontend/src/pages/CategoryMenu.jsx:41 | 全部类别 shows every product |
| CategoryMenu.AvailableProducts | frontend/src/pages/CategoryMenu.jsx:45-51 | an order-preserving subsequence holding the products with positive stock at the distributor, and every such product |
| CategoryMenu.AvailableIsFiltered | frontend/src/pages/CategoryMenu.jsx:45-51 | with non-negative ids the stock filter removes nothing (also CategoryList.jsx:32-38) |
| CategoryMenu.NegativeIdHidden | frontend/src/pages/CategoryMenu.jsx:48 | a product with id -40 is hidden at `gz` |
| CategoryMenu.Quantities | frontend/src/pages/CategoryMenu.jsx:53-60 | every cart id is a key, and every key maps to the quantity of an item with that id |
| CategoryMenu.QuantityShown | frontend/src/pages/CategoryMenu.jsx:104 | `quantities[id] ?? 0`: 0 for a product not in the cart, otherwise the quantity of an item with that id |
| CategoryMenu.MinusTarget | frontend/src/pages/CategoryMenu.jsx:124 | `Math.max(quantity - 1, 0)`: one less for a positive quantity, never negative |
| CategoryMenu.MinusEnabled | frontend/src/pages/CategoryMenu.jsx:122 | for a non-negative quantity, "-" is enabled exactly when pressing it lowers the quantity |
| CategoryMenu.PlusEnabled | frontend/src/pages/CategoryMenu.jsx:132 | "+" is enabled exactly when one more still fits the stock |
| CategoryMenu.QuantityShownSpec | frontend/src/pages/CategoryMenu.jsx:53-60 | the shown quantity is the cart quantity, and 0 for a product not in the cart |
| CategoryMenu.MinusLowersByOne | frontend/src/pages/CategoryMenu.jsx:120-125 | "-" lowers an item by one and removes it at 1 |
| CategoryMenu.PlusRaisesByOne | frontend/src/pages/CategoryMenu.jsx:130-133 | an enabled "+" raises an item by one or adds it with 1 |
| CategoryMenu.PlusOnItem | frontend/src/pages/CategoryMenu.jsx:130-133 | on an item in the cart, an add of 1 below the stock raises that item's quantity by one |
| CategoryMenu.MenuState.constructor | frontend/src/pages/CategoryMenu.jsx:31 | the first entry starts active |
| CategoryMenu.MenuState.Choose | frontend/src/pages/CategoryMenu.jsx:81 | a click makes that entry active |
| CategoryMenu.MenuState.Sync | frontend/src/pages/CategoryMenu.jsx:33-37 | an active entry that is listed stays; otherwise the first entry becomes active |
| CategoryList.DisplayCategory | frontend/src/pages/CategoryList.jsx:19 | the route parameter, or 全部类别 when it is absent |
| CategoryList.ListedProducts | frontend/src/pages/CategoryList.jsx:21-31 | an order-preserving subsequence of the products that pass both tests, containing every such product with its multiplicity |
| CategoryList.EmptyKeywordIsCategoryFilter | frontend/src/pages/CategoryList.jsx:25-28 | without a keyword the list is the category filter of the menu page |
| CategoryList.BlankKeywordMatchesAll | frontend/src/pages/CategoryList.jsx:25-28 | a whitespace-only keyword matches every product |
| CategoryList.KeywordRequiresOccurrence | frontend/src/pages/CategoryList.jsx:25-27 | a non-empty keyword keeps only products whose name or tags contain the trimmed keyword |
| ProductDetail.FindProduct | frontend/src/pages/ProductDetail.jsx:19-22 | the product found has the rendered id; none is found exactly when no id renders to the parameter |
| ProductDetail.FindByRenderedId | frontend/src/pages/ProductDetail.jsx:19-22 | the decimal rendering of an id finds the first product with that id |
| ProductDetail.StockShown | frontend/src/pages/ProductDetail.jsx:24 | 0 without a product, 18..47 for a product with a non-negative id |
| ProductDetail.Next | frontend/src/pages/ProductDetail.jsx:80-100 | each handler keeps a quantity in `1..stock` |
| ProductDetail.TypedOrOne | frontend/src/pages/ProductDetail.jsx:92 | `Number(value)`, falling back to 1, is never 0: the typed number when it is a non-zero number, else 1 |
| ProductDetail.RunInRange | frontend/src/pages/ProductDetail.jsx:25-100 | every sequence of handlers keeps the quantity in `1..stock` |
| ProductDetail.FoundProductStepper | frontend/src/pages/ProductDetail.jsx:24-100 | for a found product with a non-negative id the stepper stays within its stock |
| ProductDetail.Stepper.constructor | frontend/src/pages/ProductDetail.jsx:25 | the quantity starts at 1 |
| ProductDetail.Stepper.Handle | frontend/src/pages/ProductDetail.jsx:78-103 | one handler call sets the quantity to the next value |
| ProductDetail.AddToCart | frontend/src/pages/ProductDetail.jsx:27-32 | the cart changes only when a product was found, and then as `addItem` does |
| XlsxImport.ColumnToIndex | backend/app/main.py:49-53 | the loop computes the bijective base-26 value minus one |
| XlsxImport.ColumnValueAtLeastLength | backend/app/main.py:49-53 | a column name of `n` letters has a base-26 value of at least `n`, so its index is never negative |
| XlsxImport.CellIndex | backend/app/main.py:71-74 | the index of a reference is the value of its leading letters minus one |
| XlsxImport.ColumnRecurrence | backend/app/main.py:50-53 | `idx(s + c) = (idx(s) + 1) * 26 + (c - 'A')` |
| XlsxImport.ColumnExamples | backend/app/main.py:49-53 | A→0, Z→25, AA→26, AZ→51, BA→52 |
| XlsxImport.ValueOfName | backend/app/main.py:49-53 | the name built for a value has that value |
| XlsxImport.NameOfValue | backend/app/main.py:49-53 | a name is the name of its value |
| XlsxImport.ColumnIndexInjective | backend/app/main.py:49-53 | distinct column names have distinct indexes |
| XlsxImport.LeadingLetters | backend/app/main.py:72 | the longest run of A–Z at the start of the reference |
| XlsxImport.PyStrip | backend/app/main.py:83 | `str.strip` as `int()` applies it: no white space is left at either end, and no character is added |
| XlsxImport.ParseInt | backend/app/main.py:83 | `int()` of a text: a text without a decimal digit raises |
| XlsxImport.ParseIntExample | backend/app/main.py:83 | `int(" +1_0 ")` is 10: white space, a `+` sign and underscores between digits are accepted |
| XlsxImport.DigitsOfNatToString | backend/app/main.py:83 | `int(str(k))` is `k` |
| XlsxImport.ParseNegative | backend/app/main.py:83 | `int("-" + str(k))` is `-k` |
| XlsxImport.SharedString | backend/app/main.py:79-83 | the lookup succeeds exactly for a value node with text that is an integer in Python's index range, and gives a shared string; an empty `<v/>` raises like `int(None)` |
| XlsxImport.SharedStringFromEnd | backend/app/main.py:83 | a negative index counts from the end |
| XlsxImport.Place | backend/app/main.py:76-85 | the row is padded with `None` to reach the index, the slot is set, and nothing else changes |
| XlsxImport.PlaceValue | backend/app/main.py:75-85 | the `while` padding loop then the assignment give `Place` |
| XlsxImport.ApplyCell | backend/app/main.py:70-85 | a cell without letters is skipped; a missing value node places `None`; a cell that is not a shared string places its node's text (`None` for `<v/>`); a shared-string cell places its string; the cell fails exactly when it has letters, is a shared string with a value node and the lookup fails; a placed cell never shortens the row |
| XlsxImport.ApplyCells | backend/app/main.py:70-85 | a row can only fail on a shared-string cell with a value node |
| XlsxImport.ReadRow | backend/app/main.py:69-85 | the inner loop applies the cells in order |
| XlsxImport.SkippedCell | backend/app/main.py:72-74 | a reference without a leading letter leaves the row alone |
| XlsxImport.ApplyCellsGrows | backend/app/main.py:70-85 | applying cells never shortens a row |
| XlsxImport.EmptyRowIffAllSkipped | backend/app/main.py:70-87 | a row stays empty exactly when every cell is skipped |
| XlsxImport.ReadRows | backend/app/main.py:67-87 | at most one row is kept per sheet row |
| XlsxImport.LoadRows | backend/app/main.py:67-87 | the outer loop appends every row that ends up non-empty, and stops at the first error |
| XlsxImport.PrefixErr | backend/app/main.py:67-87 | once a row fails, later rows do not change the outcome |
| XlsxImport.KeptRowsNonEmpty | backend/app/main.py:86-87 | every kept row is non-empty (it may hold only `None` values) |
| XlsxImport.RowProduct | backend/app/main.py:93-104 | name is the first cell; category is the second cell, or "" for a one-cell row; the price text is the third cell when truthy, else none (0.0); the image is `/images/` plus the fourth cell when truthy, else ""; tags are the category when it is truthy, else "" |
| XlsxImport.RowProducts | backend/app/main.py:90-105 | at most one product per row |
| XlsxImport.RowProductsOfKept | backend/app/main.py:89-105 | exactly one product per kept row, in the rows' order, each the product of its row |
| XlsxImport.MapProducts | backend/app/main.py:89-106 | the product loop skips the header row and maps the rest |
| XlsxImport.ProductNamesNonEmpty | backend/app/main.py:91-92 | rows with an empty first cell are skipped, so every product has a name |
| BackendApi.FirstWhere | backend/app/main.py:257 | `.first()`: the first element in table order that passes the test, none exactly when none passes |
| BackendApi.GetUser | backend/app/main.py:259 | the user with that id, or none exactly when no user has it |
| BackendApi.FirstWithPhone | backend/app/main.py:257 | the first user in table order with that phone, or none exactly when no user has it |
| BackendApi.OrderUser | backend/app/main.py:255-259 | by phone when a phone is given, else by a truthy user id, else nobody |
| BackendApi.CreateOrder | backend/app/main.py:255-268 | 404 "User not found" exactly without a user; otherwise an order of that user awaiting pickup with the requested total and items |
| BackendApi.PhoneTakesPrecedence | backend/app/main.py:256-259 | with a phone the user id is never read |
| BackendApi.UnknownPhoneIsNotFound | backend/app/main.py:256-261 | an unknown phone gives 404 even when the user id names a user |
| BackendApi.TotalCents | backend/app/main.py:300 | the total of no orders is 0, and of orders with non-negative totals is non-negative |
| BackendApi.TotalCentsConcat | backend/app/main.py:300 | the total of two lists of orders is the sum of their totals |
| BackendApi.TotalCentsSingle | backend/app/main.py:300 | one order adds exactly its own total |
| BackendApi.AdminSummary | backend/app/main.py:298-315 | the sales total is the total over all orders; the three counts are the lengths of the lists of orders not completed, of distributor users and of featured products, each at most its table |
| BackendApi.PendingPlusCompleted | backend/app/main.py:301-303 | pending and completed orders add up to all orders |
| BackendApi.AccountOf | backend/app/main.py:325-327 | the first account in table order that belongs to the user, or none exactly when the user has none |
| BackendApi.CompletedOrders | backend/app/main.py:328-331 | the distributor's completed orders: every order kept is the user's and completed, every such order is kept, and there are at most as many as orders |
| BackendApi.DistributorSummaryOf | backend/app/main.py:318-356 | 404 "Distributor not found" exactly when the user is missing or not a distributor; otherwise the summary of that id with the user's name and pickup address, the first account's username as code (none without an account), the count of the user's orders, of its completed orders created today and of those created this month, and the fixed wallet, coupons and points |
| BackendApi.SummaryCountsNested | backend/app/main.py:328-343 | completed today ≤ completed this month ≤ completed ≤ total |
| BackendApi.SummaryCountsOwnOrders | backend/app/main.py:328-331 | the completed orders are exactly the distributor's completed orders, and the total counts all its orders |
| Records.StatusesDistinct | admin-frontend/src/pages/AdminDashboard.jsx:37-40 | the five order statuses are pairwise different |
| AdminDashboard.Stats | admin-frontend/src/pages/AdminDashboard.jsx:37-40 | each counter is the number of orders with its status; it is 0 exactly when no order has that status, and at most the number of orders |
| AdminDashboard.StatsPartition | admin-frontend/src/pages/AdminDashboard.jsx:37-40 | the four counters add up to the orders with one of their statuses, at most all orders; an order awaiting pickup counts in none |
| AdminDashboard.MapRow | admin-frontend/src/pages/AdminDashboard.jsx:71-78 | id is `file-index`; each field is the Chinese column, else the English one, else "" (price "0") |
| AdminDashboard.MapRows | admin-frontend/src/pages/AdminDashboard.jsx:71-78 | one upload per row, in order, each the mapping of its row and index |
| AdminDashboard.MappedIdsDistinct | admin-frontend/src/pages/AdminDashboard.jsx:72 | the mapped rows of a file have pairwise distinct ids |
| AdminDashboard.ValidUploads | admin-frontend/src/pages/AdminDashboard.jsx:79 | an order-preserving subsequence holding exactly the rows with a name and a category, each with the multiplicity it has among the rows |
| AdminDashboard.PreviewRows | admin-frontend/src/pages/AdminDashboard.jsx:120 | the first `min(5, n)` uploads |
| AdminDashboard.Payload | admin-frontend/src/pages/AdminDashboard.jsx:103-109 | every upload, in order, with all fields but the id |
| AdminDashboard.UploadPanel.constructor | admin-frontend/src/pages/AdminDashboard.jsx:20-23 | no uploads, no messages, not loading |
| AdminDashboard.UploadPanel.HandleFileChange | admin-frontend/src/pages/AdminDashboard.jsx:59-89 | no file changes nothing; a parse failure keeps the uploads and sets its error; otherwise the valid rows become the uploads, with an error when there are none |
| AdminDashboard.UploadPanel.HandleSaveProducts | admin-frontend/src/pages/AdminDashboard.jsx:91-118 | nothing is sent exactly when there are no uploads; otherwise the payload is sent and the outcome reported |
| DistributorOrders.PhoneLookup | admin-frontend/src/pages/DistributorOrders.jsx:59-66 | every user id is a key, and every key maps to the phone of a user with that id |
| DistributorOrders.PhoneLookupSpec | admin-frontend/src/pages/DistributorOrders.jsx:59-66 | every user id maps to the phone of the last user with that id |
| DistributorOrders.PhoneOf | admin-frontend/src/pages/DistributorOrders.jsx:71 | the stored phone of a user with an entry, "" for a user without one |
| DistributorOrders.FilteredOrders | admin-frontend/src/pages/DistributorOrders.jsx:67-75 | an order-preserving subsequence that respects the status tab and the trimmed phone query, and keeps every order passing both with its multiplicity |
| DistributorOrders.AllWithBlankQuery | admin-frontend/src/pages/DistributorOrders.jsx:68-73 | the all tab with a blank query shows every order |
| DistributorOrders.UnknownUserHidden | admin-frontend/src/pages/DistributorOrders.jsx:71-72 | with a query, orders of users without a phone entry are hidden |
| DistributorOrders.ReplaceById | admin-frontend/src/pages/DistributorOrders.jsx:52 | only orders with that id are replaced; length and order stay |
| DistributorOrders.ReplaceIdempotent | admin-frontend/src/pages/DistributorOrders.jsx:52 | replacing twice by the same id and order is replacing once |
| DistributorOrders.OrdersPage.constructor | admin-frontend/src/pages/DistributorOrders.jsx:6-12 | nothing is expanded and there are no messages |
| DistributorOrders.OrdersPage.ToggleOrderDetail | admin-frontend/src/pages/DistributorOrders.jsx:39-57 | the expanded order collapses and any other expands; a PATCH is sent exactly when expanding an order awaiting pickup, and on success only that id is replaced |
| AdminInventory.Distributors | admin-frontend/src/pages/AdminInventory.jsx:25 | an order-preserving subsequence holding exactly the distributors, each with its multiplicity |
| AdminInventory.Fold | admin-frontend/src/pages/AdminInventory.jsx:71-74 | the keys are exactly the listed ids |
| AdminInventory.FoldIsIndexBy | admin-frontend/src/pages/AdminInventory.jsx:71-74 | the fold is the generic index of the list by product id, keeping the stock |
| AdminInventory.FoldLastWins | admin-frontend/src/pages/AdminInventory.jsx:71-74 | the stock of an id is that of its last entry |
| AdminInventory.FoldSnoc | admin-frontend/src/pages/AdminInventory.jsx:71-74 | one more entry sets the stock of its id and nothing else |
| AdminInventory.EntriesComplete | admin-frontend/src/pages/AdminInventory.jsx:109-112 | entries covering every key list each key once with its stock, and fold back to the inventory |
| AdminInventory.Entries | admin-frontend/src/pages/AdminInventory.jsx:109-112 | one entry per key with its stock, ids distinct; folding the entries gives the inventory back |
| AdminInventory.InventoryPage.constructor | admin-frontend/src/pages/AdminInventory.jsx:7-12 | empty selection, inventory and messages |
| AdminInventory.InventoryPage.LoadBaseData | admin-frontend/src/pages/AdminInventory.jsx:25-37 | the distributors are listed and the first is selected; a failure clears the list and the selection |
| AdminInventory.InventoryPage.Select | admin-frontend/src/pages/AdminInventory.jsx:148 | the chosen id becomes the selection |
| AdminInventory.InventoryPage.LoadInventory | admin-frontend/src/pages/AdminInventory.jsx:45-89 | no selection resets the inventory and the code; a missing code or a failure empties the inventory with its error; a list is folded into the inventory; the inventory message is left as it was except where the effect sets it |
| AdminInventory.InventoryPage.HandleInventoryChange | admin-frontend/src/pages/AdminInventory.jsx:91-98 | exactly one key changes, and both messages clear |
| AdminInventory.InventoryPage.HandleSaveInventory | admin-frontend/src/pages/AdminInventory.jsx:100-125 | the selection is checked first, then the code; a request is sent exactly when both exist, carrying one item per key that folds back to the inventory |
| DistributorInventory.StorageKey | admin-frontend/src/pages/DistributorInventory.jsx:31-34 | the key is the prefix followed by exactly the given text |
| DistributorInventory.StorageKeyInjective | admin-frontend/src/pages/DistributorInventory.jsx:31-34 | two keys are equal exactly when their texts are |
| DistributorInventory.LegacyKeyInjective | admin-frontend/src/pages/DistributorInventory.jsx:34 | distinct user ids have distinct legacy keys |
| DistributorInventory.LegacyKey | admin-frontend/src/pages/DistributorInventory.jsx:34 | the key prefix followed by exactly the decimal rendering of the user id |
| DistributorInventory.CodeKey | admin-frontend/src/pages/DistributorInventory.jsx:31-33 | a code key exists exactly when the code is non-empty |
| DistributorInventory.SavedInventory | admin-frontend/src/pages/DistributorInventory.jsx:35-36 | the code entry if stored, else the legacy entry if stored, else `{}` |
| DistributorInventory.SavedStore | admin-frontend/src/pages/DistributorInventory.jsx:65-70 | the legacy key, and the code key when there is one, hold the inventory; every other key is unchanged |
| DistributorInventory.LoadAfterSave | admin-frontend/src/pages/DistributorInventory.jsx:31-70 | round trip: when the summary's id is the login's user id, loading after a save gives the saved inventory |
| DistributorInventory.SaveLeavesOthers | admin-frontend/src/pages/DistributorInventory.jsx:65-70 | a save leaves another distributor's legacy entry alone unless the saved code spells its key |
| DistributorInventory.CodeEntryWins | admin-frontend/src/pages/DistributorInventory.jsx:35 | a stored code entry hides the legacy entry |
| DistributorInventory.InventoryPage.constructor | admin-frontend/src/pages/DistributorInventory.jsx:6-10 | no summary, empty inventory, no messages |
| DistributorInventory.InventoryPage.Load | admin-frontend/src/pages/DistributorInventory.jsx:12-49 | without a login or a user id nothing happens; otherwise the summary is kept and the inventory is read with the code key first |
| DistributorInventory.InventoryPage.HandleInventoryChange | admin-frontend/src/pages/DistributorInventory.jsx:51-58 | exactly one key changes, and both messages clear |
| DistributorInventory.InventoryPage.HandleSaveInventory | admin-frontend/src/pages/DistributorInventory.jsx:60-73 | without a summary or with id 0 an error is set and nothing is written; otherwise the store is the saved store and the message is set |
| BrowserStorage.LocalStorage.constructor | admin-frontend/src/pages/DistributorInventory.jsx:13 | the store holds the given entries |
| BrowserStorage.LocalStorage.SetInventory | admin-frontend/src/pages/DistributorInventory.jsx:67-69 | one entry is written and no other changes |
| AdminApp.GetAuth | admin-frontend/src/App.jsx:7-10 | the stored login record, or none when it is absent |
| AdminApp.RequireAuth | admin-frontend/src/App.jsx:12-21 | no login goes to /login; a wrong role goes to /admin for admins and /distributor otherwise; else the page renders |
| AdminApp.DropTrailingSlashes | admin-frontend/src/App.jsx:27-46 | the result is a prefix of the path that does not end in `/`, and only slashes were dropped |
| AdminApp.RouteKey | admin-frontend/src/App.jsx:27-46 | the key a path is matched by: a prefix of the lower-cased path that does not end in `/`, with only slashes dropped |
| AdminApp.TablePathsAreKeys | admin-frontend/src/App.jsx:27-46 | /login, /admin and /distributor are their own matching keys |
| AdminApp.LowerPathIsKey | admin-frontend/src/App.jsx:27-46 | a path without upper-case letters or a trailing slash is its own matching key |
| AdminApp.Route | admin-frontend/src/App.jsx:27-46 | a path whose key (lower-cased, trailing slashes dropped) is /login renders the login page; other unknown keys go to /login; a dashboard renders only for its own role |
| AdminApp.TableRoutes | admin-frontend/src/App.jsx:27-46 | /login renders the login page; /admin and /distributor are the role guard around their dashboards |
| AdminApp.RouteIgnoresCaseAndTrailingSlash | admin-frontend/src/App.jsx:27-46 | upper-case letters and a trailing `/` do not change where a path leads |
| AdminApp.UpperCaseAdminPath | admin-frontend/src/App.jsx:29-36 | `/ADMIN/` is the guarded administrator dashboard |
| AdminApp.NoAuthEndsOnLogin | admin-frontend/src/App.jsx:12-46 | without a login every path reaches the login page in at most one redirect |
| AdminApp.KnownRoleSettles | admin-frontend/src/App.jsx:17-44 | an admin or a distributor reaches a rendered page in at most one redirect |
| AdminApp.UnknownRoleRedirectsToItself | admin-frontend/src/App.jsx:18-44 | another role is sent from /distributor to /distributor itself, so it never gets through |

## Left out

- Network and database I/O are left out. Every request, SQL query and session is replaced by its answer, which is passed in. Stale-response flags (`mounted`, `active`) are not modelled.
- The clock and randomness are left out. `_generate_order_number` and `datetime.utcnow()` become an order-number parameter and a `today` date.
- Floating-point money is left out. This covers `total_sales`, `commission * 0.15`, `float(row[2])`, `Number(price)` and `toFixed`. Prices and totals are integer cents. The wallet balance of 1200.0 is written as 120000 cents. The commission is not modelled. The spreadsheet price is kept as its text.
- `BackendApi.DistributorSummaryOf`: the summary record follows the keyword arguments in `backend/app/main.py`. `backend/app/schemas.py` declares fewer fields and no `OrderCreate`, so it was not used as the shape.
- XLSX and XML parsing, `file.arrayBuffer`, `URLSearchParams`, `decodeURIComponent` and `JSON.parse`/`stringify` are left out. Cells, sheet rows, query maps and stored records are given already parsed. A stored entry always holds a JSON object's text, so it is never empty and so always counts as present.
- `Number(value)` is not modelled. Edits are given as integers, and a typed quantity that is not a number is `None`.
- Unicode case mapping is not modelled. Lower-casing is ASCII.
- JavaScript object keys are strings. The inventory maps keep product ids as integers, because every key written is a product id.
- `AdminInventory.Entries` visits keys in an order the model leaves open. `Object.entries` uses insertion order for string keys and ascending order for integer-like keys. The contract states what holds for any order: each key appears once, with its stock.
- `CartStore.Cart.Total` states only the empty case in its own contract. Additivity and the effect of adding and removing are stated by `SumConcat`, `SumPartition` and `AddNewTotal`.
- `preloadDistributorInventory` (`frontend/src/store/distributor.jsx:3, 27`) is not modelled. It is imported but not defined in the utilities, and the selection does not depend on it.
- Rendering, navigation components, the login form and pages that only render store data are left out: Home, Profile, Cart, Checkout, the dashboards' markup and the customers page.
- The product list fetched by the inventory pages is left out. It is only rendered.
- `frontend/src/store/cart.jsx:9-19` has no guard against a quantity of 0 or less. Such an add still inserts a new product, with a quantity of at most 0, and lowers an existing one. The model follows the code here, and `AddNonPositiveGap` states it.
- `CartStore.Cart`: the provider's `distributorCode` prop is a constant for the lifetime of a cart. A change of code while items are in the cart, which the provider does not re-clamp, is not modelled; after such a change the stock bound may no longer hold. The page's stock guard (`useDistributor().code`) and the cart's `addItem` are assumed to use the same code.
- `AdminApp.Route`: matching lower-cases ASCII letters only and drops trailing slashes. Percent-decoding of the path and non-ASCII case folding are not modelled.
- `CartStore.AddKeepsPositive` requires `q >= 1`, because the code has no guard for smaller quantities (see `AddNonPositiveGap`).

- `DistributorResolver.GetDistributor` models the corrected lookup, which reads own keys only. As written, `distributorMap[code]` also finds the inherited values of `constructor` and `__proto__`. `GetDistributorAsWritten` and `InheritedLookupAsWritten` state that behaviour.
- `DistributorResolver.GetDistributorByLocation` is built on the corrected lookup. `GetDistributorByLocationAsWritten` is the as-written lookup, and `ByLocationAsWrittenAgrees` says where the two agree.
- `DistributorResolver.ByLocationHasResolvedCode` is stated of the corrected lookup. As written, a location whose code is an inherited name gets the inherited value, which carries no code.
- `DistributorStore.SelectDistributor` is the selection over the corrected lookup. As written, the selection can be an inherited value without a code. `SelectDistributorAsWritten` and `CodelessDistributorAsWritten` state it.
- `DistributorStore.LocationDistributor` is stated of the corrected lookup. `AsWrittenSelectionAgrees` says when the as-written selection is the same.
- `DistributorResolver.GetDistributorAsWritten`: an inherited value is represented only by its name. What a caller then reads from it (`undefined` fields, or the prototype of `__proto__`) is not modelled.
- `XlsxImport.RowProduct`: `float(row[2])` is not modelled. The price is kept as the cell's text, so a non-numeric price text, which raises `ValueError`, is not an error in the model.
- `XlsxImport.ParseInt`: only ASCII digits are accepted. Python's `int()` also accepts other Unicode decimal digits, which are not modelled.
- `AdminDashboard.MapRow`: sheet cells are given as text. A numeric cell, which `sheet_to_json` yields as a number, is not modelled, so a numeric 0 in the name or category column, which JavaScript treats as falsy, is not distinguished from its text "0".

## Findings

| source | as written | input that shows it | evidently intended | confidence | as-written member | corrected member |
|---|---|---|---|---|---|---|
| frontend/src/utils/distributor.js:28 | `distributorMap[code] \|\| defaultDistributor` is a plain-object lookup. For `constructor` it returns the inherited `Object` function, not a distributor. | `getDistributor("constructor")`, reached from `?dist=constructor` through lines 30-33 | an unknown code gives the default distributor | not executed | DistributorResolver.InheritedLookupAsWritten | DistributorResolver.GetDistributor |
| frontend/src/store/distributor.jsx:23 | without an embedded distributor, the selection is `getDistributorByLocation(location)` with no further check | `?dist=constructor` selects the inherited value, whose `code` is undefined | the selected distributor always has a code | not executed | DistributorStore.CodelessDistributorAsWritten | DistributorStore.SelectDistributor |
| frontend/src/utils/distributor.js:8 | `distributorMap[queryCode]` is a plain-object lookup. It is truthy for the inherited names `constructor` and `__proto__`, which survive trimming and lower-casing. Lines 15 and 21 have the same lookup. | `?dist=constructor` resolves to the code `constructor`, which is no distributor | only the own keys gz, sz and hz, or the default code, are ever returned | not executed | DistributorResolver.InheritedNameAccepted | DistributorResolver.ResolveCode |
