# Inventory backend and product list page — a Dafny model

This project models the core of a small product and inventory web application
with a Django REST backend and a Next.js front end.

- **Backend** (`backend/api/inventory/views.py`). Three tables: products (id ↦
  name, price, description), purchases (仕入) and sales (売上). The product view
  gets, creates, updates and deletes products and raises `NotFound` for a
  missing id. The purchase view appends purchases. The sales view appends a
  sale only when the product's purchased total covers its sold total plus the
  new quantity, and raises `BusinessException` otherwise. The inventory view
  returns one product's purchases (type 1) and sales (type 2), priced at the
  product's current price and ordered by date.
  - `Ledger` holds the table rows and the aggregate queries.
  - `History` holds the inventory view's query.
  - `InventoryStore.Store` is a class whose methods change the tables as the
    views do.
- **Front end** (`.../src/app/inventory/products/page.tsx`). The product list
  page is `ProductsPage.Page`. Its `id` state says which editor is open: `null`
  for the new row, `0` for none, a product id for that product's row. Its
  handlers move between these states and open the snackbar. Its form rules
  are the predicate `FormValid`. The name's length is counted in UTF-16 code units, as JavaScript does. In `page.tsx` the add, update and delete
  handlers report success and close the editor without sending any request,
  and the model does the same.

Proved properties:

- The guard is exact. A sale keeps its product's sold total at or below its
  purchased total if and only if the guard accepts it.
- Every product stays in stock (sold ≤ purchased) across recorded sales and
  across purchases of non-negative quantities.
- Product updates and deletes touch only the named row, and a missing id
  changes nothing.
- A product's history is sorted by date. It holds exactly the product's
  purchases and sales, each once, at the current unit price, and it nets to
  purchased minus sold.
- The handlers return the page to "no editor open" and report success.

## Model

| member | source | states |
|---|---|---|
| Ledger.Of | backend/api/inventory/views.py:158-159 | `filter(product_id=p)` keeps exactly the rows of product p and no more rows than the table has |
| Ledger.Total | backend/api/inventory/views.py:132-141 | `Coalesce(Sum('quantity'), 0)` over `filter(product_id=p)`: rows none of which is of product p (the empty table included) total 0, and non-negative quantities give a non-negative total; its behaviour under appends is proved by `Ledger.TotalAppend` |
| Ledger.TotalAppend | backend/api/inventory/views.py:132-141 | appending a row raises the total of that row's product by its quantity and leaves every other product's total unchanged |
| Ledger.TotalOf | backend/api/inventory/views.py:132-135 | summing after filtering on p gives the same total for p as summing the whole table |
| Ledger.OfKeepsIds | backend/api/inventory/views.py:158-178 | filtering a table whose keys increase keeps them increasing |
| Ledger.SaleAllowed | backend/api/inventory/views.py:143-144 | definition of the guard (a sale is refused when purchased < sold + quantity); its meaning is proved by `Ledger.SaleAllowedIffInStock` |
| Ledger.SaleAllowedIffInStock | backend/api/inventory/views.py:143-146 | the guard accepts a sale if and only if, after it, the product's sold total is at most its purchased total; other products' sold totals do not change |
| Ledger.GuardedSaleKeepsStock | backend/api/inventory/views.py:143-146 | a sale the guard accepts preserves sold ≤ purchased for every product |
| Ledger.PurchaseKeepsStock | backend/api/inventory/views.py:106-108 | appending a purchase of non-negative quantity preserves sold ≤ purchased for every product |
| History.KindCode | backend/api/inventory/views.py:164-175 | purchases carry type 1 and sales type 2, and only they do |
| History.Tag | backend/api/inventory/views.py:161-178 | each filtered row becomes one history row with the same id, quantity and date, the given type and the product's price as unit |
| History.Insert | backend/api/inventory/views.py:180 | inserting a row into a date-sorted history keeps it sorted and adds exactly that row, which lands at the front or behind the old first row |
| History.SortByDate | backend/api/inventory/views.py:180 | `order_by(F('date'))` yields a date-sorted permutation of its input, of the same length |
| History.NetAppend | backend/api/inventory/views.py:180 | the signed quantity of a union is the sum of the signed quantities of its parts |
| History.NetInsert | backend/api/inventory/views.py:180 | inserting a row adds exactly its signed quantity to the net stock |
| History.NetSort | backend/api/inventory/views.py:180 | ordering by date does not change the net stock |
| History.NetTag | backend/api/inventory/views.py:158-178 | tagged purchases net to their total; tagged sales net to minus their total |
| History.HistoryOf | backend/api/inventory/views.py:158-180 | definition of `purchase.union(sales).order_by(F('date'))` for one product; its properties are proved by `History.HistoryShape` and `History.HistoryNet` |
| History.HistoryShape | backend/api/inventory/views.py:158-180 | a product's history is sorted by date, its length is #purchases + #sales of the product, it is a permutation of the tagged purchases and sales, and every unit is the product's price |
| History.HistoryNet | backend/api/inventory/views.py:158-180 | a product's history nets to its purchased total minus its sold total |
| History.InStockHistoryNonNegative | backend/api/inventory/views.py:143-146 | while sold ≤ purchased holds, every product's history nets to a non-negative stock |
| History.TagKeepsDistinct | backend/api/inventory/views.py:158-178 | rows tagged from a table whose keys increase are pairwise distinct |
| History.JoinKeepsDistinct | backend/api/inventory/views.py:180 | joining duplicate-free purchase rows and duplicate-free sales rows gives no duplicates, the type tags differing |
| History.UnionHasNoDuplicates | backend/api/inventory/views.py:180 | with increasing keys per table the union has no duplicate rows, so SQL's duplicate-removing UNION keeps every row |
| History.InsertKeepsDistinct | backend/api/inventory/views.py:180 | inserting a new row into a duplicate-free sorted history keeps it duplicate-free |
| History.SortKeepsDistinct | backend/api/inventory/views.py:180 | ordering by date keeps a duplicate-free input duplicate-free |
| InventoryStore.Store.constructor | backend/api/inventory/views.py:30-148 | the tables start empty and in stock |
| InventoryStore.Store.GetObject | backend/api/inventory/views.py:41-47 | returns the product keyed pk if there is one, otherwise `NotFound` |
| InventoryStore.Store.Get | backend/api/inventory/views.py:49-59 | without an id returns every product; with an id returns exactly that product or `NotFound` |
| InventoryStore.Store.Create | backend/api/inventory/views.py:61-68 | stores the product under a fresh key and changes no other row |
| InventoryStore.Store.Update | backend/api/inventory/views.py:70-77 | on a missing id raises `NotFound` and changes nothing; otherwise replaces only that product |
| InventoryStore.Store.Delete | backend/api/inventory/views.py:79-84 | on a missing id raises `NotFound` and changes nothing; otherwise removes exactly that product |
| InventoryStore.Store.RecordPurchase | backend/api/inventory/views.py:103-110 | appends the purchase under a fresh key (or rejects an unknown product); other tables unchanged; a non-negative purchase keeps every product in stock |
| InventoryStore.Store.RecordSale | backend/api/inventory/views.py:124-148 | records the sale if and only if the product exists and purchased ≥ sold + quantity; otherwise raises `BusinessException` (or a validation error) and records nothing; other tables unchanged; every product stays in stock |
| InventoryStore.Store.Inventory | backend/api/inventory/views.py:154-183 | no id gives a 400 error; an id gives a date-sorted, duplicate-free permutation of the product's purchases (type 1) and sales (type 2) of length #purchases + #sales, each priced at the product's price, netting to purchased minus sold (non-negative while in stock) |
| ProductsPage.Utf16Length | frontend/fullstack-develop-example-at-django-nextjs/src/app/inventory/products/page.tsx:200-203 | the length react-hook-form's `maxLength` compares (JavaScript's UTF-16 `length`) lies between the character count and twice it |
| ProductsPage.Utf16LengthBmp | frontend/fullstack-develop-example-at-django-nextjs/src/app/inventory/products/page.tsx:196-205 | a name of Basic Multilingual Plane characters has one code unit per character, so it passes the name rule exactly when it has 1 to 100 characters |
| ProductsPage.Utf16LengthAstral | frontend/fullstack-develop-example-at-django-nextjs/src/app/inventory/products/page.tsx:196-205 | a name of characters outside the Basic Multilingual Plane has two code units per character, so it passes the name rule exactly when it has 1 to 50 characters |
| ProductsPage.NameValid | frontend/fullstack-develop-example-at-django-nextjs/src/app/inventory/products/page.tsx:196-205 | the name rule: required and at most 100 UTF-16 code units; a valid name has 1 to 100 characters |
| ProductsPage.PriceValid | frontend/fullstack-develop-example-at-django-nextjs/src/app/inventory/products/page.tsx:210 | definition of the price rule: required, at least 1, at most 99999999 |
| ProductsPage.FormValid | frontend/fullstack-develop-example-at-django-nextjs/src/app/inventory/products/page.tsx:196-210 | definition of the rules the new row and the edited row both register (lines 230-244 repeat them); `Page.HandleShowNewRow` and `Page.Submit` state what they mean for the page |
| ProductsPage.FindById | frontend/fullstack-develop-example-at-django-nextjs/src/app/inventory/products/page.tsx:136-138 | returns the index of the first product with the given id, or None exactly when no product has it |
| ProductsPage.Page.constructor | frontend/fullstack-develop-example-at-django-nextjs/src/app/inventory/products/page.tsx:46-73 | no products, snackbar closed with severity success, `id` 0, no action |
| ProductsPage.Page.Load | frontend/fullstack-develop-example-at-django-nextjs/src/app/inventory/products/page.tsx:61-68 | replaces the product list and nothing else |
| ProductsPage.Page.Result | frontend/fullstack-develop-example-at-django-nextjs/src/app/inventory/products/page.tsx:51-55 | opens the snackbar with the given severity and message and changes nothing else |
| ProductsPage.Page.HandleClose | frontend/fullstack-develop-example-at-django-nextjs/src/app/inventory/products/page.tsx:57-59 | closes the snackbar and changes nothing else |
| ProductsPage.Page.SetAction | frontend/fullstack-develop-example-at-django-nextjs/src/app/inventory/products/page.tsx:219 | records the clicked submit button's action and nothing else |
| ProductsPage.Page.HandleShowNewRow | frontend/fullstack-develop-example-at-django-nextjs/src/app/inventory/products/page.tsx:113-120 | sets `id` to null (new row shown) and resets the form to name '', price 0, description '', which the form rules reject |
| ProductsPage.Page.HandleAddCancel | frontend/fullstack-develop-example-at-django-nextjs/src/app/inventory/products/page.tsx:123-125 | returns `id` to 0 and changes nothing else |
| ProductsPage.Page.HandleAdd | frontend/fullstack-develop-example-at-django-nextjs/src/app/inventory/products/page.tsx:128-131 | opens a success snackbar saying the product was registered and returns `id` to 0 |
| ProductsPage.Page.HandleEditRow | frontend/fullstack-develop-example-at-django-nextjs/src/app/inventory/products/page.tsx:134-147 | when some product has id k: sets `id` to k and loads the first such product's name, price and description into the form; otherwise changes nothing |
| ProductsPage.Page.HandleEditCancel | frontend/fullstack-develop-example-at-django-nextjs/src/app/inventory/products/page.tsx:149-151 | returns `id` to 0 and changes nothing else |
| ProductsPage.Page.HandleEdit | frontend/fullstack-develop-example-at-django-nextjs/src/app/inventory/products/page.tsx:153-156 | opens a success snackbar saying the product was updated and returns `id` to 0 |
| ProductsPage.Page.HandleDelete | frontend/fullstack-develop-example-at-django-nextjs/src/app/inventory/products/page.tsx:158-161 | opens a success snackbar saying the product was deleted and returns `id` to 0 |
| ProductsPage.Page.OnSubmit | frontend/fullstack-develop-example-at-django-nextjs/src/app/inventory/products/page.tsx:75-107 | 'add' always adds; 'update' and 'delete' with a null `id` change nothing, otherwise update or delete; any other action changes nothing |
| ProductsPage.Page.Submit | frontend/fullstack-develop-example-at-django-nextjs/src/app/inventory/products/page.tsx:177 | `handleSubmit(onSubmit)`: a form that fails the name or price rule changes nothing; a valid form gets exactly `onSubmit`'s effect for each action ('add' always adds; 'update' and 'delete' act unless `id` is null; any other action changes nothing) |

## Left out

- Validation by `ProductSerializer`: its field rules live in `models.py`, which is not part of this model. `Create` and `Update` accept any product value. The purchase and sales serializers are modelled only by their check that the referenced product exists.
- What deleting a product does to its purchases and sales (`on_delete` is declared in `models.py`, which is not part of this model). `Delete` changes only the product table. The history's join on the product's price finds no rows for an id without a product, and `Inventory` returns an empty history then.
- HTTP plumbing: responses, status codes other than ok / not found / rejected / bad request, `ProductModelViewSet`, and the list views `PurchaseView.get` and `SalesView.get`.
- Authentication and cookies: `LoginView`, `RetryView`, `LogoutView` and `CustomJWTAuthentication`. They wrap a JWT library that is not part of this model.
- `SalesSyncView`: it writes an uploaded file and parses it as CSV. It inserts sales without the stock guard, so "sold ≤ purchased" is proved only for sales recorded through `RecordSale`. `SalesAsyncView` and `SalesList` are empty.
- Concurrency: two sales checked at the same time can both pass the guard. The model runs one view at a time.
- Dates are integers ordered like the stored timestamps. SQL leaves the order of rows with equal dates open, and `Inventory` promises only sorted order and a permutation.
- PurchaseKeepsStock: requires a non-negative quantity, because views.py does not restrict the sign of a purchase's quantity. A negative purchase can break "sold ≤ purchased".
- Front-end rendering, the axios fetch (modelled as `Load` with the fetched rows) and react-hook-form internals. In particular the model does not decide which inputs are registered when a submit happens, and it does not model that a click on a submit button runs its `onClick` before the form's submit.
- `Number(event.price)`: prices are integers in the model.
- The product detail page with its client-side running balance (`products/[id]/page.tsx`) is not part of this model.
