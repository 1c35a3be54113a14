# Retail catalog and orders: the data model of `backend/models.py`

This project models the Django data layer of a multi-vendor shop backend. Shops
list products under shared categories. Buyers hold orders made of order lines,
and each line refers to one shop's listing of one product. The model covers:

- **Enumerations** (`Enums`): the seven order statuses and the two user roles
  of `Py_Diplom_new/enums.py`, with their stored codes. Each code parses back
  to its member, and every other string is rejected.
- **Records and rules** (`Models`): one datatype per model class. Also here:
  - the field defaults;
  - the account-creation rules of `UserManager`;
  - the total that `OrderItem.save` recomputes;
  - the uniqueness rules the database enforces: the unique `User.email`
    column, and the three named `UniqueConstraint`s, which bind only rows
    whose key columns are all non-null, as SQL treats NULL;
  - the database invariant `Consistent`: every foreign key names a row,
    every uniqueness rule holds, and every stored line total is current.
- **Cascading delete** (`Cascade`): every foreign key of the source is
  `on_delete=CASCADE`. Deleting a row therefore removes the least set of rows
  that contains it and is closed under "refers to a removed row". This set is
  proved equal to the rows that reach the deleted row through a chain of
  references. Removing it keeps the database consistent.
- **The database** (`Storage.Store`): a class over all tables and the
  primary-key counter.
  - Every insert of a model row either fails, leaving the tables unchanged,
    with the error the database or the manager raises, or adds exactly one
    row under a fresh key. The one exception is linking a category to a
    shop. The many-to-many link is a pair with no key of its own, and adding
    a link that exists already changes nothing.
  - Every operation preserves `Valid()`, which is `Consistent` plus key
    freshness.

## Model

| member | source | states |
|---|---|---|
| `Enums.StatusCode` | Py_Diplom_new/enums.py:4-11 | every status code is non-empty and fits the 15-character `Order.status` column |
| `Enums.ParseStatus` | Py_Diplom_new/enums.py:4-11 | a parsed code is exactly the code of the status it yields |
| `Enums.StatusRoundTrip` | Py_Diplom_new/enums.py:4-11 | parsing the code of any status gives that status back |
| `Enums.ParseStatusRejects` | Py_Diplom_new/enums.py:4-11 | a string is rejected if and only if it is the code of no status |
| `Enums.StatusIsSevenCodes` | Py_Diplom_new/enums.py:4-11 | there are exactly seven statuses, and distinct statuses have distinct codes |
| `Enums.RoleCode` | Py_Diplom_new/enums.py:14-16 | every role code is non-empty and fits the 10-character `User.role` column |
| `Enums.ParseRole` | Py_Diplom_new/enums.py:14-16 | a parsed code is exactly the code of the role it yields |
| `Enums.RoleRoundTrip` | Py_Diplom_new/enums.py:14-16 | parsing the code of any role gives that role back |
| `Enums.ParseRoleRejects` | Py_Diplom_new/enums.py:14-16 | a string is rejected if and only if it is the code of no role |
| `Enums.RoleIsTwoCodes` | Py_Diplom_new/enums.py:14-16 | there are exactly two roles, with different codes |
| `Models.DefaultRoleIsMember` | backend/models.py:80-85 | the `role` default `"buyer"` is the code of the `Buyer` role |
| `Models.Arg.SetDefault` | backend/models.py:33-34 | `setdefault` keeps a passed value and otherwise records the fallback; either way the key is then present |
| `Models.CreateUserFlags` | backend/models.py:32-35 | a user from `create_user` is staff, or superuser, exactly when the caller passed `True` for that flag |
| `Models.SuperuserFlagsChecked` | backend/models.py:37-46 | `create_superuser` passes its two checks exactly when the caller did not pass `False` for either flag, and exactly when the built user is both staff and superuser |
| `Models.NewUserDefaults` | backend/models.py:72-85 | a new account keeps the given email; it is inactive and a buyer unless the caller passes otherwise, and a passed value is kept |
| `Models.UsernamesMayRepeat` | backend/models.py:57-71 | only the email is unique: for every user table, replacing the usernames by any others, equal or not, leaves the email rule holding exactly when it held before |
| `Models.EmailInsertKeepsUnique` | backend/models.py:57 | adding a user keeps emails unique if and only if no stored user has that email |
| `Models.ListingInsertKeepsUnique` | backend/models.py:172-176 | adding a listing keeps `unique_product_info` if and only if that (product, shop) pair is not listed yet |
| `Models.ParameterValueInsertKeepsUnique` | backend/models.py:213-217 | adding a value keeps `unique_product_parameter` if and only if its product is null or that (product, parameter) pair has no value yet |
| `Models.OrderLineInsertKeepsUnique` | backend/models.py:278-282 | adding a line keeps `unique_order_item` if and only if its listing is null or the order has no line for that listing yet |
| `Models.NewContactDefaults` | backend/models.py:302-316 | a new contact keeps every passed field; left out, the city is `"Москва"` and every other address field is null |
| `Models.SaveRecomputesTotal` | backend/models.py:287-289 | `save` sets the total to price times quantity whatever total was stored before, and changes no other field |
| `Models.SaveIsIdempotent` | backend/models.py:287-289 | saving a saved line again changes nothing |
| `Models.AddUserKeepsConsistent` | backend/models.py:20-30 | storing a user with an unused email under a fresh key keeps the database consistent |
| `Models.AddShopKeepsConsistent` | backend/models.py:96-103 | storing a shop whose owner exists keeps the database consistent |
| `Models.AddCategoryKeepsConsistent` | backend/models.py:113-114 | storing a category keeps the database consistent |
| `Models.AddCategoryShopKeepsConsistent` | backend/models.py:115-117 | linking an existing category to an existing shop keeps the database consistent |
| `Models.AddProductKeepsConsistent` | backend/models.py:127-135 | storing a product of an existing category keeps the database consistent |
| `Models.AddProductInfoKeepsConsistent` | backend/models.py:145-176 | storing a listing whose product and shop exist, and whose pair is unlisted, keeps the database consistent |
| `Models.AddParameterKeepsConsistent` | backend/models.py:182-183 | storing a parameter name keeps the database consistent |
| `Models.AddProductParameterKeepsConsistent` | backend/models.py:193-217 | storing a parameter value whose references exist, and whose non-null pair is free, keeps the database consistent |
| `Models.AddContactKeepsConsistent` | backend/models.py:293-316 | storing a contact of an existing user keeps the database consistent |
| `Models.AddOrderKeepsConsistent` | backend/models.py:223-242 | storing an order whose user and non-null contact exist keeps the database consistent |
| `Models.AddOrderItemKeepsConsistent` | backend/models.py:252-289 | storing a saved line whose order and non-null listing exist, and whose non-null pair is free, keeps the database consistent |
| `Models.ResaveOrderItemKeepsConsistent` | backend/models.py:287-289 | saving a stored line with a new price and quantity keeps the database consistent and uses no new key |
| `Cascade.ReferencesExistIffNoDangling` | backend/models.py:96-316 | the per-table foreign-key rules hold if and only if every reference of every row names a present row |
| `Cascade.Close` | backend/models.py:96-316 | the rows removed by a cascade include the start rows, are start rows or present rows, and contain every row that refers to one of them |
| `Cascade.CloseIsLeast` | backend/models.py:96-316 | the cascade removes no more than any closed set containing the start rows |
| `Cascade.DoomedHoldsRoot` | backend/models.py:96-316 | deleting a row always removes that row |
| `Cascade.DoomedIsClosed` | backend/models.py:96-316 | deleting a row removes every present row that refers to a removed row |
| `Cascade.DoomedIsLeast` | backend/models.py:96-316 | deleting a row removes nothing outside any closed set that contains it |
| `Cascade.ChainIsDoomed` | backend/models.py:96-316 | a row with a chain of references to the deleted row is removed |
| `Cascade.DoomedIffRefersTo` | backend/models.py:96-316 | a row is removed if and only if it is the deleted row or reaches it through a chain of references |
| `Cascade.RemoveDropsExactly` | backend/models.py:96-316 | removal keeps every row outside the removed set unchanged, drops every row inside it, and adds nothing |
| `Cascade.RemoveClosedKeepsConsistent` | backend/models.py:96-316 | removing a closed set of rows from a consistent database leaves it consistent |
| `Cascade.DeleteKeepsConsistent` | backend/models.py:96-316 | a cascading delete leaves a consistent database consistent, with no key above the counter |
| `Cascade.DeleteAbsentIsNoop` | backend/models.py:96-316 | deleting a row that is not stored removes nothing |
| `Storage.Store.constructor` | backend/models.py:13-18 | a new store has empty tables and is valid |
| `Storage.Store.CreateUserRecord` | backend/models.py:20-30 | an empty email fails with `EmailNotSet`; a taken normalized email fails with `DuplicateEmail`, changing nothing; otherwise exactly one user with the normalized email is added under a fresh key |
| `Storage.Store.CreateUser` | backend/models.py:32-35 | with the staff and superuser flags defaulted to `False`: an empty email fails with `EmailNotSet`; a taken normalized email fails with `DuplicateEmail`, changing nothing; otherwise exactly one user is added under a fresh key |
| `Storage.Store.CreateSuperuser` | backend/models.py:37-46 | passing `False` for `is_staff` fails first and for `is_superuser` second; then an empty email fails with `EmailNotSet` and a taken one with `DuplicateEmail`; on success exactly one staff superuser is added |
| `Storage.Store.AddShop` | backend/models.py:96-103 | a missing owner fails and changes nothing; otherwise exactly one shop is added, accepting orders unless `state` says otherwise |
| `Storage.Store.AddCategory` | backend/models.py:113-114 | exactly one category is added under a fresh key |
| `Storage.Store.AddCategoryShop` | backend/models.py:115-117 | the link fails exactly when the category or the shop is missing; otherwise it is added, and adding an existing link changes nothing |
| `Storage.Store.AddProduct` | backend/models.py:127-135 | a missing category fails and changes nothing; otherwise exactly one product is added |
| `Storage.Store.AddProductInfo` | backend/models.py:145-176 | a missing product or shop fails; a listed (product, shop) pair fails with `unique_product_info`; success happens exactly when neither applies, and adds exactly one listing |
| `Storage.Store.AddParameter` | backend/models.py:182-183 | exactly one parameter name is added under a fresh key |
| `Storage.Store.AddProductParameter` | backend/models.py:193-217 | a missing reference fails; a non-null pair with a value fails with `unique_product_parameter`; success happens exactly when neither applies |
| `Storage.Store.AddContact` | backend/models.py:293-316 | a missing user fails and changes nothing; otherwise exactly one contact is added, built from the passed fields and the defaults |
| `Storage.Store.AddOrder` | backend/models.py:223-242 | a missing user or non-null contact fails and changes nothing; otherwise exactly one order is added |
| `Storage.Store.AddOrderItem` | backend/models.py:252-289 | a missing order or non-null listing fails; a non-null pair with a line fails with `unique_order_item`; otherwise exactly one line is added with quantity 1 and price 0 unless given, and its total computed by `save` |
| `Storage.Store.SaveOrderItem` | backend/models.py:287-289 | saving a stored line writes the new price and quantity with total price times quantity, and changes nothing else |
| `Storage.Store.Delete` | backend/models.py:96-316 | the tables become the old tables without exactly the rows the cascade removes, and the key counter is unchanged |

## Left out

- Passwords: `set_password` hashes through Django's hasher, so the password argument of the manager methods is not modelled.
- `normalize_email` belongs to Django's `BaseUserManager` and is not part of this model; the store takes it as a function parameter.
- `using=self._db` is not modelled: the database alias selects a connection, and the model has a single database.
- Display labels, `verbose_name`, `help_text`, `gettext_lazy`, `__str__` and `Meta.ordering` are not modelled: they do not affect stored data.
- Not modelled because none of them takes part in a rule: `Shop.url`, `Shop.filename`, `Order.created_at`, and the inherited `AbstractUser` fields (`first_name`, `last_name`, `date_joined`, `last_login`, groups and permissions).
- `max_length` and the width of `PositiveIntegerField` are not enforced; the model only proves that the enum codes fit their columns.
- `choices=` is not enforced by `save` in Django. The model stores `Order.status` and `User.role` as enum values, so a code outside the enum cannot be stored through it.
- `Order.status` declares no default, so Django would store an empty string. `Storage.Store.AddOrder` takes the status from the caller, and no status is chosen by default.
- The order lifecycle is not modelled because no code in the core implements it. This covers the status transitions, the stock check when adding a line, locking lines once an order leaves the basket state, and requiring a contact before checkout.
- `OrderItem.quantity` is a `PositiveIntegerField`, which accepts 0. The model's `quantity` is a `nat`, so 0 is accepted.
- `Contact.street` and `Contact.phone` are nullable columns, so they may be null in the model too.
- A non-boolean value for a boolean keyword argument cannot be expressed, because `Arg<bool>` holds a boolean or nothing. This covers an explicit `None` and truthy values such as `1`. `create_superuser`'s `is not True` test would reject `is_staff=1`, while `create_user` would store it as true.
- Storage.Store.SaveOrderItem: covers re-saving a stored line with new price and quantity only. Moving a line to another order or listing is not modelled. Saving an unsaved line (an insert in Django) is `AddOrderItem`; on a missing key this method fails with `RowNotFound` instead. The arguments `save` forwards to `Model.save` (`update_fields`, `force_insert`, `force_update`, `using`) are not modelled: the model always writes every field, including the recomputed total. In Django, `save(update_fields=["price", "quantity"])` computes the total in memory but does not write it, so the stored `total_amount` would be stale and `LineTotalsHold` would no longer hold.
- Storage.Store.AddCategoryShop: a link whose category or shop is missing fails instead of raising an integrity error on the through table; the outcome is the same, no row is stored.
- Foreign keys are checked when a row is written, not at commit time as PostgreSQL's deferred constraints would. No sequence of operations here can leave a reference dangling in between.
- Primary keys come from one counter shared by all tables rather than one sequence per table. Keys are opaque, so no rule depends on this.
- Concurrency and transactions are not modelled: each operation is one atomic step.
- `backend/admin.py` and `backend/views.py` are not part of this model: they are admin configuration and an HTTP view stub.
