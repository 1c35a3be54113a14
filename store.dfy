/**
 * The database seen through the ORM of `backend/models.py`: one table per model,
 * rows created through the user manager and the models' `save`, rows removed by
 * `delete` with its cascade. Every operation either succeeds and makes exactly
 * the change it describes, or fails and leaves every table as it was; every
 * operation keeps the tables `Consistent`.
 */
module Storage {
  import opened Wrappers
  import opened Enums
  import opened Models
  import opened Cascade

  class Store {
    /** `BaseUserManager.normalize_email`, a library function this model does not define. */
    const normalizeEmail: string -> string

    /** The rows of every table. */
    var tables: Db
    /** The next primary key to hand out; no row uses it or any larger key. */
    var nextId: Id

    predicate Valid()
      reads this
    {
      Consistent(tables) && IdsBelow(tables, nextId)
    }

    constructor (normalizeEmail: string -> string)
      ensures Valid() && tables == EmptyDb
      ensures this.normalizeEmail == normalizeEmail
    {
      this.normalizeEmail := normalizeEmail;
      tables := EmptyDb;
      nextId := 0;
    }

    // -------------------------------------------------------------------------
    // Accounts.

    /**
     * `UserManager._create_user`: rejects an empty email, stores the normalized
     * email, and fails on an email another account already has.
     */
    method CreateUserRecord(email: string, extra: ExtraFields) returns (r: Result<Id, Error>)
      requires Valid()
      modifies this
      ensures Valid()
      ensures email == "" ==> r == Err(EmailNotSet)
      ensures email != "" && EmailTaken(old(tables.users), normalizeEmail(email)) ==> r == Err(DuplicateEmail)
      ensures r.Err? ==> tables == old(tables)
      ensures r.Ok? <==> (email != "" && !EmailTaken(old(tables.users), normalizeEmail(email)))
      ensures r.Ok? ==>
        && r.value !in old(tables.users)
        && tables == old(tables).(users := old(tables.users)[r.value := BuildUser(normalizeEmail(email), extra)])
    {
      if email == "" {
        return Err(EmailNotSet);
      }
      var normalized := normalizeEmail(email);
      var user := BuildUser(normalized, extra);
      if EmailTaken(tables.users, normalized) {
        return Err(DuplicateEmail);
      }
      var id := nextId;
      AddUserKeepsConsistent(tables, id, user);
      tables := tables.(users := tables.users[id := user]);
      nextId := id + 1;
      r := Ok(id);
    }

    /** `UserManager.create_user`: staff and superuser flags default to false. */
    method CreateUser(email: string, extra: ExtraFields) returns (r: Result<Id, Error>)
      requires Valid()
      modifies this
      ensures Valid()
      ensures email == "" ==> r == Err(EmailNotSet)
      ensures email != "" && EmailTaken(old(tables.users), normalizeEmail(email)) ==> r == Err(DuplicateEmail)
      ensures r.Err? ==> tables == old(tables)
      ensures r.Ok? <==> (email != "" && !EmailTaken(old(tables.users), normalizeEmail(email)))
      ensures r.Ok? ==>
        && r.value !in old(tables.users)
        && tables == old(tables).(users := old(tables.users)[r.value :=
             BuildUser(normalizeEmail(email), UserDefaults(extra))])
    {
      r := CreateUserRecord(email, UserDefaults(extra));
    }

    /**
     * `UserManager.create_superuser`: both flags default to true, and the call
     * fails, creating nothing, unless both end up true.
     */
    method CreateSuperuser(email: string, extra: ExtraFields) returns (r: Result<Id, Error>)
      requires Valid()
      modifies this
      ensures Valid()
      ensures extra.isStaff == Given(false) ==> r == Err(SuperuserNotStaff)
      ensures extra.isStaff != Given(false) && extra.isSuperuser == Given(false) ==>
        r == Err(SuperuserNotSuperuser)
      ensures extra.isStaff != Given(false) && extra.isSuperuser != Given(false) && email == "" ==>
        r == Err(EmailNotSet)
      ensures
        (extra.isStaff != Given(false) && extra.isSuperuser != Given(false) && email != ""
         && EmailTaken(old(tables.users), normalizeEmail(email))) ==>
        r == Err(DuplicateEmail)
      ensures r.Err? ==> tables == old(tables)
      ensures r.Ok? <==>
        && extra.isStaff != Given(false) && extra.isSuperuser != Given(false)
        && email != "" && !EmailTaken(old(tables.users), normalizeEmail(email))
      ensures r.Ok? ==>
        && r.value !in old(tables.users)
        && tables == old(tables).(users := old(tables.users)[r.value :=
             BuildUser(normalizeEmail(email), SuperuserDefaults(extra))])
        && tables.users[r.value].isStaff && tables.users[r.value].isSuperuser
    {
      var fields := SuperuserDefaults(extra);
      SuperuserFlagsChecked(normalizeEmail(email), extra);
      var rejected := SuperuserFlagsError(fields);
      if rejected.Some? {
        return Err(rejected.value);
      }
      r := CreateUserRecord(email, fields);
    }

    // -------------------------------------------------------------------------
    // Catalog.

    /** Saves a new `Shop`; it accepts orders unless `state` says otherwise. */
    method AddShop(name: string, user: Id, state: Arg<bool>) returns (r: Result<Id, Error>)
      requires Valid()
      modifies this
      ensures Valid()
      ensures user !in old(tables.users) ==> r == Err(MissingReference) && tables == old(tables)
      ensures user in old(tables.users) ==>
        && r.Ok? && r.value !in old(tables.shops)
        && tables == old(tables).(shops := old(tables.shops)[r.value :=
             Models.Shop(name, user, state.ValueOr(DefaultShopState))])
    {
      if user !in tables.users {
        return Err(MissingReference);
      }
      var id := nextId;
      var shop := Models.Shop(name, user, state.ValueOr(DefaultShopState));
      AddShopKeepsConsistent(tables, id, shop);
      tables := tables.(shops := tables.shops[id := shop]);
      nextId := id + 1;
      r := Ok(id);
    }

    method AddCategory(name: string) returns (id: Id)
      requires Valid()
      modifies this
      ensures Valid()
      ensures id !in old(tables.categories)
      ensures tables == old(tables).(categories := old(tables.categories)[id := Category(name)])
    {
      id := nextId;
      AddCategoryKeepsConsistent(tables, id, Category(name));
      tables := tables.(categories := tables.categories[id := Category(name)]);
      nextId := id + 1;
    }

    /** `category.shops.add(shop)`: adding a link that exists already is a no-op. */
    method AddCategoryShop(category: Id, shop: Id) returns (r: Outcome<Error>)
      requires Valid()
      modifies this
      ensures Valid()
      ensures r.Fail? <==> (category !in old(tables.categories) || shop !in old(tables.shops))
      ensures r.Fail? ==> r.error == MissingReference && tables == old(tables)
      ensures r.Pass? ==>
        tables == old(tables).(categoryShops := old(tables.categoryShops) + {(category, shop)})
    {
      if category !in tables.categories || shop !in tables.shops {
        return Fail(MissingReference);
      }
      AddCategoryShopKeepsConsistent(tables, nextId, category, shop);
      tables := tables.(categoryShops := tables.categoryShops + {(category, shop)});
      r := Pass;
    }

    method AddProduct(name: string, category: Id) returns (r: Result<Id, Error>)
      requires Valid()
      modifies this
      ensures Valid()
      ensures category !in old(tables.categories) ==> r == Err(MissingReference) && tables == old(tables)
      ensures category in old(tables.categories) ==>
        && r.Ok? && r.value !in old(tables.products)
        && tables == old(tables).(products := old(tables.products)[r.value := Product(name, category)])
    {
      if category !in tables.categories {
        return Err(MissingReference);
      }
      var id := nextId;
      AddProductKeepsConsistent(tables, id, Product(name, category));
      tables := tables.(products := tables.products[id := Product(name, category)]);
      nextId := id + 1;
      r := Ok(id);
    }

    /** Saves a new listing; a second listing of the same product by the same shop is refused. */
    method AddProductInfo(model: Option<string>, quantity: nat, price: nat, priceRrc: nat,
                          product: Id, shop: Id) returns (r: Result<Id, Error>)
      requires Valid()
      modifies this
      ensures Valid()
      ensures product !in old(tables.products) || shop !in old(tables.shops) ==> r == Err(MissingReference)
      ensures
        (product in old(tables.products) && shop in old(tables.shops)
         && ListingTaken(old(tables.productInfos), product, shop)) ==>
        r == Err(UniqueViolation(ProductInfoConstraint))
      ensures r.Err? ==> tables == old(tables)
      ensures r.Ok? <==>
        && product in old(tables.products) && shop in old(tables.shops)
        && !ListingTaken(old(tables.productInfos), product, shop)
      ensures r.Ok? ==>
        && r.value !in old(tables.productInfos)
        && tables == old(tables).(productInfos := old(tables.productInfos)[r.value :=
             ProductInfo(model, quantity, price, priceRrc, product, shop)])
    {
      if product !in tables.products || shop !in tables.shops {
        return Err(MissingReference);
      }
      if ListingTaken(tables.productInfos, product, shop) {
        return Err(UniqueViolation(ProductInfoConstraint));
      }
      var id := nextId;
      var info := ProductInfo(model, quantity, price, priceRrc, product, shop);
      AddProductInfoKeepsConsistent(tables, id, info);
      tables := tables.(productInfos := tables.productInfos[id := info]);
      nextId := id + 1;
      r := Ok(id);
    }

    method AddParameter(name: string) returns (id: Id)
      requires Valid()
      modifies this
      ensures Valid()
      ensures id !in old(tables.parameters)
      ensures tables == old(tables).(parameters := old(tables.parameters)[id := Parameter(name)])
    {
      id := nextId;
      AddParameterKeepsConsistent(tables, id, Parameter(name));
      tables := tables.(parameters := tables.parameters[id := Parameter(name)]);
      nextId := id + 1;
    }

    /**
     * Saves a new parameter value; a second value for the same product and
     * parameter is refused, while values with a null product never clash.
     */
    method AddProductParameter(product: Option<Id>, parameter: Id, value: string)
      returns (r: Result<Id, Error>)
      requires Valid()
      modifies this
      ensures Valid()
      ensures !OptionIn(product, old(tables.products)) || parameter !in old(tables.parameters) ==>
        r == Err(MissingReference)
      ensures
        (OptionIn(product, old(tables.products)) && parameter in old(tables.parameters) && product.Some?
         && ParameterValueTaken(old(tables.productParameters), product.value, parameter)) ==>
        r == Err(UniqueViolation(ProductParameterConstraint))
      ensures r.Err? ==> tables == old(tables)
      ensures r.Ok? <==>
        && OptionIn(product, old(tables.products)) && parameter in old(tables.parameters)
        && (product.None? || !ParameterValueTaken(old(tables.productParameters), product.value, parameter))
      ensures r.Ok? ==>
        && r.value !in old(tables.productParameters)
        && tables == old(tables).(productParameters := old(tables.productParameters)[r.value :=
             ProductParameter(product, parameter, value)])
    {
      if !OptionIn(product, tables.products) || parameter !in tables.parameters {
        return Err(MissingReference);
      }
      if product.Some? && ParameterValueTaken(tables.productParameters, product.value, parameter) {
        return Err(UniqueViolation(ProductParameterConstraint));
      }
      var id := nextId;
      var row := ProductParameter(product, parameter, value);
      AddProductParameterKeepsConsistent(tables, id, row);
      tables := tables.(productParameters := tables.productParameters[id := row]);
      nextId := id + 1;
      r := Ok(id);
    }

    // -------------------------------------------------------------------------
    // Orders and contacts.

    /** Saves a new `Contact`; the city defaults to Moscow, the other address fields to null. */
    method AddContact(user: Id, city: Arg<Option<string>>, street: Arg<Option<string>>,
                      house: Arg<Option<string>>, structure: Arg<Option<string>>,
                      building: Arg<Option<string>>, apartment: Arg<Option<string>>,
                      phone: Arg<Option<string>>) returns (r: Result<Id, Error>)
      requires Valid()
      modifies this
      ensures Valid()
      ensures user !in old(tables.users) ==> r == Err(MissingReference) && tables == old(tables)
      ensures user in old(tables.users) ==>
        && r.Ok? && r.value !in old(tables.contacts)
        && tables == old(tables).(contacts := old(tables.contacts)[r.value :=
             BuildContact(user, city, street, house, structure, building, apartment, phone)])
    {
      if user !in tables.users {
        return Err(MissingReference);
      }
      var id := nextId;
      var contact := BuildContact(user, city, street, house, structure, building, apartment, phone);
      AddContactKeepsConsistent(tables, id, contact);
      tables := tables.(contacts := tables.contacts[id := contact]);
      nextId := id + 1;
      r := Ok(id);
    }

    method AddOrder(user: Id, contact: Option<Id>, status: Status) returns (r: Result<Id, Error>)
      requires Valid()
      modifies this
      ensures Valid()
      ensures user !in old(tables.users) || !OptionIn(contact, old(tables.contacts)) ==>
        r == Err(MissingReference) && tables == old(tables)
      ensures user in old(tables.users) && OptionIn(contact, old(tables.contacts)) ==>
        && r.Ok? && r.value !in old(tables.orders)
        && tables == old(tables).(orders := old(tables.orders)[r.value := Order(user, contact, status)])
    {
      if user !in tables.users || !OptionIn(contact, tables.contacts) {
        return Err(MissingReference);
      }
      var id := nextId;
      AddOrderKeepsConsistent(tables, id, Order(user, contact, status));
      tables := tables.(orders := tables.orders[id := Order(user, contact, status)]);
      nextId := id + 1;
      r := Ok(id);
    }

    /**
     * Creates and saves a new `OrderItem` (quantity 1 and price 0 unless given);
     * `save` computes its total. A second line for the same order and listing is
     * refused; lines with a null listing never clash.
     */
    method AddOrderItem(order: Id, productInfo: Option<Id>, quantity: Arg<nat>, price: Arg<nat>)
      returns (r: Result<Id, Error>)
      requires Valid()
      modifies this
      ensures Valid()
      ensures order !in old(tables.orders) || !OptionIn(productInfo, old(tables.productInfos)) ==>
        r == Err(MissingReference)
      ensures
        (order in old(tables.orders) && OptionIn(productInfo, old(tables.productInfos)) && productInfo.Some?
         && OrderLineTaken(old(tables.orderItems), order, productInfo.value)) ==>
        r == Err(UniqueViolation(OrderItemConstraint))
      ensures r.Err? ==> tables == old(tables)
      ensures r.Ok? <==>
        && order in old(tables.orders) && OptionIn(productInfo, old(tables.productInfos))
        && (productInfo.None? || !OrderLineTaken(old(tables.orderItems), order, productInfo.value))
      ensures r.Ok? ==>
        && r.value !in old(tables.orderItems)
        && tables == old(tables).(orderItems := old(tables.orderItems)[r.value :=
             Saved(OrderItem(order, productInfo, quantity.ValueOr(DefaultLineQuantity),
                             price.ValueOr(DefaultLinePrice), DefaultLineTotal))])
    {
      if order !in tables.orders || !OptionIn(productInfo, tables.productInfos) {
        return Err(MissingReference);
      }
      if productInfo.Some? && OrderLineTaken(tables.orderItems, order, productInfo.value) {
        return Err(UniqueViolation(OrderItemConstraint));
      }
      var id := nextId;
      var item := OrderItem(order, productInfo, quantity.ValueOr(DefaultLineQuantity),
                            price.ValueOr(DefaultLinePrice), DefaultLineTotal);
      AddOrderItemKeepsConsistent(tables, id, item);
      tables := tables.(orderItems := tables.orderItems[id := Saved(item)]);
      nextId := id + 1;
      r := Ok(id);
    }

    /**
     * `OrderItem.save` on a stored line after its price and quantity were set:
     * the total is recomputed from them and the line written back.
     */
    method SaveOrderItem(id: Id, quantity: nat, price: nat) returns (r: Outcome<Error>)
      requires Valid()
      modifies this
      ensures Valid()
      ensures id !in old(tables.orderItems) ==> r == Fail(RowNotFound) && tables == old(tables)
      ensures id in old(tables.orderItems) ==>
        && r.Pass?
        && tables == old(tables).(orderItems := old(tables.orderItems)[id :=
             Saved(old(tables.orderItems)[id].(quantity := quantity, price := price))])
        && tables.orderItems[id].totalAmount == price * quantity
    {
      if id !in tables.orderItems {
        return Fail(RowNotFound);
      }
      ResaveOrderItemKeepsConsistent(tables, nextId, id, quantity, price);
      var item := tables.orderItems[id].(quantity := quantity, price := price);
      tables := tables.(orderItems := tables.orderItems[id := Saved(item)]);
      r := Pass;
    }

    // -------------------------------------------------------------------------
    // Deleting.

    /**
     * `delete()` on any row: removes it together with every row that refers to
     * it through a chain of cascading foreign keys, and nothing else.
     */
    method Delete(root: RowRef)
      requires Valid()
      modifies this
      ensures Valid()
      ensures nextId == old(nextId)
      ensures tables == Remove(old(tables), Doomed(old(tables), root))
    {
      DeleteKeepsConsistent(tables, root, nextId);
      tables := Remove(tables, Doomed(tables, root));
    }
  }
}
