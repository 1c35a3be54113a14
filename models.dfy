/**
 * The domain data layer of `backend/models.py`: one record type per model, the
 * defaults its fields declare, the rules the user manager applies when it
 * creates an account, the total an order line recomputes when it is saved, and
 * the constraints the database enforces (unique fields and unique field pairs,
 * foreign keys that must name an existing row).
 */
module Models {
  import opened Wrappers
  import opened Enums

  /** Primary keys are the database's auto-incremented integers. */
  type Id = nat

  /**
   * A keyword argument that the caller either passes or leaves out, as in the
   * `**extra_fields` dictionary and in a model constructor's keyword arguments.
   */
  datatype Arg<T> = Omitted | Given(value: T) {

    /** The value passed, or the field's default when the argument was left out. */
    function ValueOr(fallback: T): T {
      if Given? then value else fallback
    }

    /** `dict.setdefault`: keeps a passed value, otherwise records the fallback. */
    function SetDefault(fallback: T): (r: Arg<T>)
      ensures r.Given?
      ensures Given? ==> r == this
      ensures Omitted? ==> r.value == fallback
    {
      if Given? then this else Given(fallback)
    }
  }

  // ---------------------------------------------------------------------------
  // Records, one per model. A nullable column is an Option; a foreign key is the
  // Id of the row it names.

  /** `User` (an `AbstractUser` identified by its email). */
  datatype User = User(
    email: string,
    username: string,
    company: string,
    position: string,
    isStaff: bool,
    isSuperuser: bool,
    isActive: bool,
    role: Role)

  /** `Shop`: `state` says whether the shop accepts orders. */
  datatype Shop = Shop(name: string, user: Id, state: bool)

  /** `Category`; its many-to-many link to shops is the table `Db.categoryShops`. */
  datatype Category = Category(name: string)

  datatype Product = Product(name: string, category: Id)

  /** `ProductInfo`: one shop's listing of one product. */
  datatype ProductInfo = ProductInfo(
    model: Option<string>,
    quantity: nat,
    price: nat,
    priceRrc: nat,
    product: Id,
    shop: Id)

  datatype Parameter = Parameter(name: string)

  /** `ProductParameter`: the value of one parameter for one product (the product may be null). */
  datatype ProductParameter = ProductParameter(product: Option<Id>, parameter: Id, value: string)

  datatype Order = Order(user: Id, contact: Option<Id>, status: Status)

  /** `OrderItem`: one line of an order (the listing may be null). */
  datatype OrderItem = OrderItem(
    order: Id,
    productInfo: Option<Id>,
    quantity: nat,
    price: nat,
    totalAmount: nat)

  datatype Contact = Contact(
    user: Id,
    city: Option<string>,
    street: Option<string>,
    house: Option<string>,
    structure: Option<string>,
    building: Option<string>,
    apartment: Option<string>,
    phone: Option<string>)

  /** The whole database: one table per model, keyed by primary key. */
  datatype Db = Db(
    users: map<Id, User>,
    shops: map<Id, Shop>,
    categories: map<Id, Category>,
    categoryShops: set<(Id, Id)>,
    products: map<Id, Product>,
    productInfos: map<Id, ProductInfo>,
    parameters: map<Id, Parameter>,
    productParameters: map<Id, ProductParameter>,
    orders: map<Id, Order>,
    orderItems: map<Id, OrderItem>,
    contacts: map<Id, Contact>)

  const EmptyDb: Db := Db(map[], map[], map[], {}, map[], map[], map[], map[], map[], map[], map[])

  /** The errors the data layer raises. */
  datatype Error =
    | EmailNotSet              // `ValueError("The given email must be set")`
    | SuperuserNotStaff        // `ValueError("Superuser must have is_staff=True.")`
    | SuperuserNotSuperuser    // `ValueError("Superuser must have is_superuser=True.")`
    | DuplicateEmail           // integrity error on the unique `User.email` column
    | UniqueViolation(constraint: string)  // integrity error on a named `UniqueConstraint`
    | MissingReference         // integrity error on a foreign key naming no row
    | RowNotFound              // the row to save again does not exist

  const ProductInfoConstraint := "unique_product_info"
  const ProductParameterConstraint := "unique_product_parameter"
  const OrderItemConstraint := "unique_order_item"

  // ---------------------------------------------------------------------------
  // Field defaults.

  const DefaultIsActive := false
  /** The `User.role` default as the source writes it, a role code. */
  const DefaultRoleCode: string := "buyer"
  const DefaultRole: Role := Buyer
  const DefaultShopState := true
  const DefaultCity: string := "Москва"
  const DefaultLineQuantity: nat := 1
  const DefaultLinePrice: nat := 0
  const DefaultLineTotal: nat := 0

  /** The default role code is a member of `Role`, namely `Buyer`. */
  lemma DefaultRoleIsMember()
    ensures ParseRole(DefaultRoleCode) == Some(DefaultRole)
    ensures RoleCode(DefaultRole) == DefaultRoleCode
  {
  }

  // ---------------------------------------------------------------------------
  // User creation (`UserManager`).

  /** The keyword arguments the user manager forwards to the `User` constructor. */
  datatype ExtraFields = ExtraFields(
    username: Arg<string>,
    company: Arg<string>,
    position: Arg<string>,
    isStaff: Arg<bool>,
    isSuperuser: Arg<bool>,
    isActive: Arg<bool>,
    role: Arg<Role>)

  const NoExtraFields: ExtraFields :=
    ExtraFields(Omitted, Omitted, Omitted, Omitted, Omitted, Omitted, Omitted)

  /**
   * `self.model(email=email, **extra_fields)`: a field left out takes its model
   * default (empty text, not staff, not superuser, inactive, buyer).
   */
  function BuildUser(email: string, extra: ExtraFields): User {
    User(
      email,
      extra.username.ValueOr(""),
      extra.company.ValueOr(""),
      extra.position.ValueOr(""),
      extra.isStaff.ValueOr(false),
      extra.isSuperuser.ValueOr(false),
      extra.isActive.ValueOr(DefaultIsActive),
      extra.role.ValueOr(DefaultRole))
  }

  /** The two `setdefault` calls of `create_user`. */
  function UserDefaults(extra: ExtraFields): ExtraFields {
    extra.(isStaff := extra.isStaff.SetDefault(false),
           isSuperuser := extra.isSuperuser.SetDefault(false))
  }

  /** The two `setdefault` calls of `create_superuser`. */
  function SuperuserDefaults(extra: ExtraFields): ExtraFields {
    extra.(isStaff := extra.isStaff.SetDefault(true),
           isSuperuser := extra.isSuperuser.SetDefault(true))
  }

  /** The two `is not True` checks of `create_superuser`, in their order. */
  function SuperuserFlagsError(extra: ExtraFields): Option<Error> {
    if extra.isStaff != Given(true) then Some(SuperuserNotStaff)
    else if extra.isSuperuser != Given(true) then Some(SuperuserNotSuperuser)
    else None
  }

  /** A user made by `create_user` is staff or superuser only when the caller says so. */
  lemma CreateUserFlags(email: string, extra: ExtraFields)
    ensures var u := BuildUser(email, UserDefaults(extra));
      && (u.isStaff <==> extra.isStaff == Given(true))
      && (u.isSuperuser <==> extra.isSuperuser == Given(true))
      && UserDefaults(extra).isStaff.Given?
      && UserDefaults(extra).isSuperuser.Given?
  {
  }

  /**
   * `create_superuser` passes its checks exactly when the caller does not pass
   * `False` for either flag, and then the user is both staff and superuser.
   */
  lemma SuperuserFlagsChecked(email: string, extra: ExtraFields)
    ensures var fields := SuperuserDefaults(extra);
      && (SuperuserFlagsError(fields).None? <==>
            extra.isStaff != Given(false) && extra.isSuperuser != Given(false))
      && (SuperuserFlagsError(fields).None? <==>
            BuildUser(email, fields).isStaff && BuildUser(email, fields).isSuperuser)
  {
    var fields := SuperuserDefaults(extra);
    assert fields.isStaff == Given(true) <==> extra.isStaff != Given(false) by {
      if extra.isStaff.Given? {
        assert fields.isStaff == extra.isStaff;
        if extra.isStaff.value { assert extra.isStaff == Given(true); }
      }
    }
    assert fields.isSuperuser == Given(true) <==> extra.isSuperuser != Given(false) by {
      if extra.isSuperuser.Given? {
        assert fields.isSuperuser == extra.isSuperuser;
        if extra.isSuperuser.value { assert extra.isSuperuser == Given(true); }
      }
    }
  }

  /** A new account is inactive and a buyer unless the caller says otherwise. */
  lemma NewUserDefaults(email: string, extra: ExtraFields)
    ensures var u := BuildUser(email, extra);
      && u.email == email
      && (extra.isActive.Omitted? ==> !u.isActive)
      && (extra.role.Omitted? ==> u.role == Buyer && RoleCode(u.role) == DefaultRoleCode)
      && (extra.isActive.Given? ==> u.isActive == extra.isActive.value)
      && (extra.role.Given? ==> u.role == extra.role.value)
  {
  }

  // ---------------------------------------------------------------------------
  // Contacts.

  /**
   * `Contact(user=..., **fields)`: the city defaults to Moscow and every other
   * address field, being nullable with no default, to null.
   */
  function BuildContact(user: Id, city: Arg<Option<string>>, street: Arg<Option<string>>,
                        house: Arg<Option<string>>, structure: Arg<Option<string>>,
                        building: Arg<Option<string>>, apartment: Arg<Option<string>>,
                        phone: Arg<Option<string>>): Contact {
    Contact(user, city.ValueOr(Some(DefaultCity)), street.ValueOr(None), house.ValueOr(None),
            structure.ValueOr(None), building.ValueOr(None), apartment.ValueOr(None),
            phone.ValueOr(None))
  }

  /** A new contact keeps every passed field; left out, the city is Moscow and the rest null. */
  lemma NewContactDefaults(user: Id, city: Arg<Option<string>>, street: Arg<Option<string>>,
                           house: Arg<Option<string>>, structure: Arg<Option<string>>,
                           building: Arg<Option<string>>, apartment: Arg<Option<string>>,
                           phone: Arg<Option<string>>)
    ensures var c := BuildContact(user, city, street, house, structure, building, apartment, phone);
      && c.user == user
      && (city.Omitted? ==> c.city == Some("Москва"))
      && (city.Given? ==> c.city == city.value)
      && (street.Omitted? ==> c.street.None?) && (street.Given? ==> c.street == street.value)
      && (house.Omitted? ==> c.house.None?) && (house.Given? ==> c.house == house.value)
      && (structure.Omitted? ==> c.structure.None?) && (structure.Given? ==> c.structure == structure.value)
      && (building.Omitted? ==> c.building.None?) && (building.Given? ==> c.building == building.value)
      && (apartment.Omitted? ==> c.apartment.None?) && (apartment.Given? ==> c.apartment == apartment.value)
      && (phone.Omitted? ==> c.phone.None?) && (phone.Given? ==> c.phone == phone.value)
  {
  }

  // ---------------------------------------------------------------------------
  // Order lines (`OrderItem.save`).

  function LineTotal(price: nat, quantity: nat): nat {
    price * quantity
  }

  /** The line as `OrderItem.save` writes it: its total recomputed from price and quantity. */
  function Saved(item: OrderItem): OrderItem {
    item.(totalAmount := LineTotal(item.price, item.quantity))
  }

  /** Saving sets the total to price times quantity whatever the stored total was. */
  lemma SaveRecomputesTotal(item: OrderItem, staleTotal: nat)
    ensures Saved(item.(totalAmount := staleTotal)) == Saved(item)
    ensures Saved(item).totalAmount == item.price * item.quantity
    ensures Saved(item).(totalAmount := item.totalAmount) == item
  {
  }

  /** Saving a line again without changing price or quantity changes nothing. */
  lemma SaveIsIdempotent(item: OrderItem)
    ensures Saved(Saved(item)) == Saved(item)
  {
  }

  // ---------------------------------------------------------------------------
  // Unique fields and unique constraints. A constraint over a nullable foreign
  // key binds only rows whose key fields are all non-null, as in SQL.

  /** `User.email` is `unique=True`. */
  predicate EmailsUnique(users: map<Id, User>) {
    forall i, j | i in users && j in users && users[i].email == users[j].email :: i == j
  }

  predicate EmailTaken(users: map<Id, User>, email: string) {
    exists i | i in users :: users[i].email == email
  }

  /**
   * `User.username` carries no unique constraint: giving every account any
   * username at all leaves the email rule exactly as it was.
   */
  lemma UsernamesMayRepeat(users: map<Id, User>, usernames: Id -> string)
    ensures var renamed := map i | i in users :: users[i].(username := usernames(i));
      EmailsUnique(users) <==> EmailsUnique(renamed)
  {
    var renamed := map i | i in users :: users[i].(username := usernames(i));
    assert forall i | i in users :: i in renamed && renamed[i].email == users[i].email;
  }

  /** `unique_product_info`: one listing per (product, shop). */
  predicate ListingsUnique(infos: map<Id, ProductInfo>) {
    forall i, j | i in infos && j in infos
      && infos[i].product == infos[j].product && infos[i].shop == infos[j].shop :: i == j
  }

  predicate ListingTaken(infos: map<Id, ProductInfo>, product: Id, shop: Id) {
    exists i | i in infos :: infos[i].product == product && infos[i].shop == shop
  }

  /** `unique_product_parameter`: one value per non-null product and parameter. */
  predicate ParameterValuesUnique(values: map<Id, ProductParameter>) {
    forall i, j | i in values && j in values && values[i].product.Some?
      && values[i].product == values[j].product && values[i].parameter == values[j].parameter :: i == j
  }

  predicate ParameterValueTaken(values: map<Id, ProductParameter>, product: Id, parameter: Id) {
    exists i | i in values :: values[i].product == Some(product) && values[i].parameter == parameter
  }

  /** `unique_order_item`: one line per order and non-null listing. */
  predicate OrderLinesUnique(items: map<Id, OrderItem>) {
    forall i, j | i in items && j in items && items[i].productInfo.Some?
      && items[i].order == items[j].order && items[i].productInfo == items[j].productInfo :: i == j
  }

  predicate OrderLineTaken(items: map<Id, OrderItem>, order: Id, productInfo: Id) {
    exists i | i in items :: items[i].order == order && items[i].productInfo == Some(productInfo)
  }

  /** Every stored line carries the total its last save computed. */
  predicate LineTotalsHold(items: map<Id, OrderItem>) {
    forall i | i in items :: items[i].totalAmount == LineTotal(items[i].price, items[i].quantity)
  }

  /** A new user keeps emails unique exactly when no stored user has its email. */
  lemma EmailInsertKeepsUnique(users: map<Id, User>, id: Id, u: User)
    requires EmailsUnique(users) && id !in users
    ensures EmailsUnique(users[id := u]) <==> !EmailTaken(users, u.email)
  {
    if EmailTaken(users, u.email) {
      var j :| j in users && users[j].email == u.email;
      assert users[id := u][j].email == users[id := u][id].email;
    }
  }

  /** A new listing keeps (product, shop) unique exactly when that pair is not listed yet. */
  lemma ListingInsertKeepsUnique(infos: map<Id, ProductInfo>, id: Id, p: ProductInfo)
    requires ListingsUnique(infos) && id !in infos
    ensures ListingsUnique(infos[id := p]) <==> !ListingTaken(infos, p.product, p.shop)
  {
    if ListingTaken(infos, p.product, p.shop) {
      var j :| j in infos && infos[j].product == p.product && infos[j].shop == p.shop;
      assert infos[id := p][j].product == infos[id := p][id].product;
    }
  }

  /**
   * A new parameter value keeps (product, parameter) unique exactly when its
   * product is null or that pair has no value yet.
   */
  lemma ParameterValueInsertKeepsUnique(values: map<Id, ProductParameter>, id: Id, v: ProductParameter)
    requires ParameterValuesUnique(values) && id !in values
    ensures ParameterValuesUnique(values[id := v]) <==>
      (v.product.None? || !ParameterValueTaken(values, v.product.value, v.parameter))
  {
    if v.product.Some? && ParameterValueTaken(values, v.product.value, v.parameter) {
      var j :| j in values && values[j].product == v.product && values[j].parameter == v.parameter;
      assert values[id := v][j].product == values[id := v][id].product;
    }
  }

  /**
   * A new order line keeps (order, listing) unique exactly when its listing is
   * null or the order has no line for that listing yet.
   */
  lemma OrderLineInsertKeepsUnique(items: map<Id, OrderItem>, id: Id, it: OrderItem)
    requires OrderLinesUnique(items) && id !in items
    ensures OrderLinesUnique(items[id := it]) <==>
      (it.productInfo.None? || !OrderLineTaken(items, it.order, it.productInfo.value))
  {
    if it.productInfo.Some? && OrderLineTaken(items, it.order, it.productInfo.value) {
      var j :| j in items && items[j].order == it.order && items[j].productInfo == it.productInfo;
      assert items[id := it][j].order == items[id := it][id].order;
    }
  }

  // ---------------------------------------------------------------------------
  // Foreign keys and the database invariant.

  predicate OptionIn<T>(ref: Option<Id>, table: map<Id, T>) {
    ref.None? || ref.value in table
  }

  /** Every non-null foreign key names an existing row. */
  predicate ReferencesExist(db: Db) {
    && (forall i | i in db.shops :: db.shops[i].user in db.users)
    && (forall l | l in db.categoryShops :: l.0 in db.categories && l.1 in db.shops)
    && (forall i | i in db.products :: db.products[i].category in db.categories)
    && (forall i | i in db.productInfos ::
          db.productInfos[i].product in db.products && db.productInfos[i].shop in db.shops)
    && (forall i | i in db.productParameters ::
          OptionIn(db.productParameters[i].product, db.products)
          && db.productParameters[i].parameter in db.parameters)
    && (forall i | i in db.orders ::
          db.orders[i].user in db.users && OptionIn(db.orders[i].contact, db.contacts))
    && (forall i | i in db.orderItems ::
          db.orderItems[i].order in db.orders && OptionIn(db.orderItems[i].productInfo, db.productInfos))
    && (forall i | i in db.contacts :: db.contacts[i].user in db.users)
  }

  /** Uniqueness on every table, no dangling reference, every line total up to date. */
  predicate Consistent(db: Db) {
    && ReferencesExist(db)
    && EmailsUnique(db.users)
    && ListingsUnique(db.productInfos)
    && ParameterValuesUnique(db.productParameters)
    && OrderLinesUnique(db.orderItems)
    && LineTotalsHold(db.orderItems)
  }

  /** Every primary key in use is below `n`, so `n` is free in every table. */
  predicate IdsBelow(db: Db, n: Id) {
    && (forall i | i in db.users :: i < n)
    && (forall i | i in db.shops :: i < n)
    && (forall i | i in db.categories :: i < n)
    && (forall i | i in db.products :: i < n)
    && (forall i | i in db.productInfos :: i < n)
    && (forall i | i in db.parameters :: i < n)
    && (forall i | i in db.productParameters :: i < n)
    && (forall i | i in db.orders :: i < n)
    && (forall i | i in db.orderItems :: i < n)
    && (forall i | i in db.contacts :: i < n)
  }

  // ---------------------------------------------------------------------------
  // Each kind of insert keeps the database consistent when its checks pass;
  // `n` is the fresh primary key.

  lemma AddUserKeepsConsistent(db: Db, n: Id, u: User)
    requires Consistent(db) && IdsBelow(db, n) && !EmailTaken(db.users, u.email)
    ensures var after := db.(users := db.users[n := u]);
      Consistent(after) && IdsBelow(after, n + 1)
  {
    EmailInsertKeepsUnique(db.users, n, u);
  }

  lemma AddShopKeepsConsistent(db: Db, n: Id, s: Shop)
    requires Consistent(db) && IdsBelow(db, n) && s.user in db.users
    ensures var after := db.(shops := db.shops[n := s]);
      Consistent(after) && IdsBelow(after, n + 1)
  {
  }

  lemma AddCategoryKeepsConsistent(db: Db, n: Id, c: Category)
    requires Consistent(db) && IdsBelow(db, n)
    ensures var after := db.(categories := db.categories[n := c]);
      Consistent(after) && IdsBelow(after, n + 1)
  {
  }

  lemma AddCategoryShopKeepsConsistent(db: Db, n: Id, category: Id, shop: Id)
    requires Consistent(db) && IdsBelow(db, n) && category in db.categories && shop in db.shops
    ensures var after := db.(categoryShops := db.categoryShops + {(category, shop)});
      Consistent(after) && IdsBelow(after, n)
  {
  }

  lemma AddProductKeepsConsistent(db: Db, n: Id, p: Product)
    requires Consistent(db) && IdsBelow(db, n) && p.category in db.categories
    ensures var after := db.(products := db.products[n := p]);
      Consistent(after) && IdsBelow(after, n + 1)
  {
  }

  lemma AddProductInfoKeepsConsistent(db: Db, n: Id, p: ProductInfo)
    requires Consistent(db) && IdsBelow(db, n)
    requires p.product in db.products && p.shop in db.shops
    requires !ListingTaken(db.productInfos, p.product, p.shop)
    ensures var after := db.(productInfos := db.productInfos[n := p]);
      Consistent(after) && IdsBelow(after, n + 1)
  {
    ListingInsertKeepsUnique(db.productInfos, n, p);
  }

  lemma AddParameterKeepsConsistent(db: Db, n: Id, p: Parameter)
    requires Consistent(db) && IdsBelow(db, n)
    ensures var after := db.(parameters := db.parameters[n := p]);
      Consistent(after) && IdsBelow(after, n + 1)
  {
  }

  lemma AddProductParameterKeepsConsistent(db: Db, n: Id, v: ProductParameter)
    requires Consistent(db) && IdsBelow(db, n)
    requires OptionIn(v.product, db.products) && v.parameter in db.parameters
    requires v.product.None? || !ParameterValueTaken(db.productParameters, v.product.value, v.parameter)
    ensures var after := db.(productParameters := db.productParameters[n := v]);
      Consistent(after) && IdsBelow(after, n + 1)
  {
    ParameterValueInsertKeepsUnique(db.productParameters, n, v);
  }

  lemma AddContactKeepsConsistent(db: Db, n: Id, c: Contact)
    requires Consistent(db) && IdsBelow(db, n) && c.user in db.users
    ensures var after := db.(contacts := db.contacts[n := c]);
      Consistent(after) && IdsBelow(after, n + 1)
  {
  }

  lemma AddOrderKeepsConsistent(db: Db, n: Id, o: Order)
    requires Consistent(db) && IdsBelow(db, n)
    requires o.user in db.users && OptionIn(o.contact, db.contacts)
    ensures var after := db.(orders := db.orders[n := o]);
      Consistent(after) && IdsBelow(after, n + 1)
  {
  }

  lemma AddOrderItemKeepsConsistent(db: Db, n: Id, it: OrderItem)
    requires Consistent(db) && IdsBelow(db, n)
    requires it.order in db.orders && OptionIn(it.productInfo, db.productInfos)
    requires it.productInfo.None? || !OrderLineTaken(db.orderItems, it.order, it.productInfo.value)
    ensures var after := db.(orderItems := db.orderItems[n := Saved(it)]);
      Consistent(after) && IdsBelow(after, n + 1)
  {
    OrderLineInsertKeepsUnique(db.orderItems, n, Saved(it));
  }

  /** Saving a stored line again with a new price and quantity keeps the database consistent. */
  lemma ResaveOrderItemKeepsConsistent(db: Db, n: Id, id: Id, quantity: nat, price: nat)
    requires Consistent(db) && IdsBelow(db, n) && id in db.orderItems
    ensures var after := db.(orderItems := db.orderItems[id :=
              Saved(db.orderItems[id].(quantity := quantity, price := price))]);
      Consistent(after) && IdsBelow(after, n)
  {
    var items := db.orderItems;
    var after := items[id := Saved(items[id].(quantity := quantity, price := price))];
    forall i, j | i in after && j in after && after[i].productInfo.Some?
      && after[i].order == after[j].order && after[i].productInfo == after[j].productInfo
      ensures i == j
    {
      assert after[i].order == items[i].order && after[i].productInfo == items[i].productInfo;
      assert after[j].order == items[j].order && after[j].productInfo == items[j].productInfo;
    }
  }

  predicate Submap<T(==)>(a: map<Id, T>, b: map<Id, T>) {
    forall i | i in a :: i in b && a[i] == b[i]
  }

  /** `a` keeps some of the rows of `b`, each of them unchanged. */
  predicate Substate(a: Db, b: Db) {
    && Submap(a.users, b.users)
    && Submap(a.shops, b.shops)
    && Submap(a.categories, b.categories)
    && a.categoryShops <= b.categoryShops
    && Submap(a.products, b.products)
    && Submap(a.productInfos, b.productInfos)
    && Submap(a.parameters, b.parameters)
    && Submap(a.productParameters, b.productParameters)
    && Submap(a.orders, b.orders)
    && Submap(a.orderItems, b.orderItems)
    && Submap(a.contacts, b.contacts)
  }

  /** Dropping rows never breaks a uniqueness rule, a line total or the free-id bound. */
  lemma SubstateKeepsRowRules(a: Db, b: Db, n: Id)
    requires Substate(a, b) && Consistent(b) && IdsBelow(b, n)
    ensures EmailsUnique(a.users) && ListingsUnique(a.productInfos)
    ensures ParameterValuesUnique(a.productParameters) && OrderLinesUnique(a.orderItems)
    ensures LineTotalsHold(a.orderItems) && IdsBelow(a, n)
  {
  }
}
