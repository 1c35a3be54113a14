/**
 * Cascading deletes. Every foreign key of `backend/models.py` is declared with
 * `on_delete=CASCADE`, and the many-to-many rows between categories and shops
 * go with either end. Deleting a row therefore deletes every row that refers to
 * it, directly or through a chain of references, and nothing else.
 *
 * The rows of the database form a graph: `Targets(db, r)` are the rows that
 * `r` refers to. The rows a delete removes are `Doomed(db, root)`, the least set
 * that contains `root` and every row referring to a member of the set.
 */
module Cascade {
  import opened Models

  /** A row of one of the tables, named by its table and primary key. */
  datatype RowRef =
    | UserRow(id: Id)
    | ShopRow(id: Id)
    | CategoryRow(id: Id)
    | CategoryShopRow(category: Id, shop: Id)
    | ProductRow(id: Id)
    | ProductInfoRow(id: Id)
    | ParameterRow(id: Id)
    | ProductParameterRow(id: Id)
    | OrderRow(id: Id)
    | OrderItemRow(id: Id)
    | ContactRow(id: Id)

  predicate Present(db: Db, r: RowRef) {
    match r
    case UserRow(i) => i in db.users
    case ShopRow(i) => i in db.shops
    case CategoryRow(i) => i in db.categories
    case CategoryShopRow(c, s) => (c, s) in db.categoryShops
    case ProductRow(i) => i in db.products
    case ProductInfoRow(i) => i in db.productInfos
    case ParameterRow(i) => i in db.parameters
    case ProductParameterRow(i) => i in db.productParameters
    case OrderRow(i) => i in db.orders
    case OrderItemRow(i) => i in db.orderItems
    case ContactRow(i) => i in db.contacts
  }

  /** All rows of the database. */
  function Rows(db: Db): set<RowRef> {
    (set i | i in db.users :: UserRow(i))
    + (set i | i in db.shops :: ShopRow(i))
    + (set i | i in db.categories :: CategoryRow(i))
    + (set l | l in db.categoryShops :: CategoryShopRow(l.0, l.1))
    + (set i | i in db.products :: ProductRow(i))
    + (set i | i in db.productInfos :: ProductInfoRow(i))
    + (set i | i in db.parameters :: ParameterRow(i))
    + (set i | i in db.productParameters :: ProductParameterRow(i))
    + (set i | i in db.orders :: OrderRow(i))
    + (set i | i in db.orderItems :: OrderItemRow(i))
    + (set i | i in db.contacts :: ContactRow(i))
  }

  lemma RowsArePresent(db: Db, r: RowRef)
    ensures r in Rows(db) <==> Present(db, r)
  {
    match r
    case CategoryShopRow(c, s) =>
      if (c, s) in db.categoryShops {
        var l := (c, s);
        assert CategoryShopRow(l.0, l.1) in (set l | l in db.categoryShops :: CategoryShopRow(l.0, l.1));
      }
    case _ =>
  }

  /** The rows that `r` refers to through its (non-null) foreign keys. */
  function Targets(db: Db, r: RowRef): set<RowRef> {
    match r
    case UserRow(_) => {}
    case ShopRow(i) =>
      if i in db.shops then {UserRow(db.shops[i].user)} else {}
    case CategoryRow(_) => {}
    case CategoryShopRow(c, s) => {CategoryRow(c), ShopRow(s)}
    case ProductRow(i) =>
      if i in db.products then {CategoryRow(db.products[i].category)} else {}
    case ProductInfoRow(i) =>
      if i in db.productInfos
      then {ProductRow(db.productInfos[i].product), ShopRow(db.productInfos[i].shop)}
      else {}
    case ParameterRow(_) => {}
    case ProductParameterRow(i) =>
      if i in db.productParameters
      then {ParameterRow(db.productParameters[i].parameter)}
           + (if db.productParameters[i].product.Some?
              then {ProductRow(db.productParameters[i].product.value)} else {})
      else {}
    case OrderRow(i) =>
      if i in db.orders
      then {UserRow(db.orders[i].user)}
           + (if db.orders[i].contact.Some? then {ContactRow(db.orders[i].contact.value)} else {})
      else {}
    case OrderItemRow(i) =>
      if i in db.orderItems
      then {OrderRow(db.orderItems[i].order)}
           + (if db.orderItems[i].productInfo.Some?
              then {ProductInfoRow(db.orderItems[i].productInfo.value)} else {})
      else {}
    case ContactRow(i) =>
      if i in db.contacts then {UserRow(db.contacts[i].user)} else {}
  }

  /** Referential integrity stated on the row graph: no edge leaves the database. */
  ghost predicate NoDangling(db: Db) {
    forall r, t | Present(db, r) && t in Targets(db, r) :: Present(db, t)
  }

  lemma FollowReference(db: Db, r: RowRef, t: RowRef)
    requires NoDangling(db) && Present(db, r) && t in Targets(db, r)
    ensures Present(db, t)
  {
  }

  lemma NoDanglingGivesReferencesExist(db: Db)
    requires NoDangling(db)
    ensures ReferencesExist(db)
  {
    forall i | i in db.shops ensures db.shops[i].user in db.users {
      FollowReference(db, ShopRow(i), UserRow(db.shops[i].user));
    }
    forall l | l in db.categoryShops ensures l.0 in db.categories && l.1 in db.shops {
      assert l == (l.0, l.1);
      FollowReference(db, CategoryShopRow(l.0, l.1), CategoryRow(l.0));
      FollowReference(db, CategoryShopRow(l.0, l.1), ShopRow(l.1));
    }
    forall i | i in db.products ensures db.products[i].category in db.categories {
      FollowReference(db, ProductRow(i), CategoryRow(db.products[i].category));
    }
    forall i | i in db.productInfos
      ensures db.productInfos[i].product in db.products && db.productInfos[i].shop in db.shops
    {
      FollowReference(db, ProductInfoRow(i), ProductRow(db.productInfos[i].product));
      FollowReference(db, ProductInfoRow(i), ShopRow(db.productInfos[i].shop));
    }
    forall i | i in db.productParameters
      ensures OptionIn(db.productParameters[i].product, db.products)
      ensures db.productParameters[i].parameter in db.parameters
    {
      var v := db.productParameters[i];
      FollowReference(db, ProductParameterRow(i), ParameterRow(v.parameter));
      if v.product.Some? {
        FollowReference(db, ProductParameterRow(i), ProductRow(v.product.value));
      }
    }
    forall i | i in db.orders
      ensures db.orders[i].user in db.users && OptionIn(db.orders[i].contact, db.contacts)
    {
      var o := db.orders[i];
      FollowReference(db, OrderRow(i), UserRow(o.user));
      if o.contact.Some? {
        FollowReference(db, OrderRow(i), ContactRow(o.contact.value));
      }
    }
    forall i | i in db.orderItems
      ensures db.orderItems[i].order in db.orders
      ensures OptionIn(db.orderItems[i].productInfo, db.productInfos)
    {
      var it := db.orderItems[i];
      FollowReference(db, OrderItemRow(i), OrderRow(it.order));
      if it.productInfo.Some? {
        FollowReference(db, OrderItemRow(i), ProductInfoRow(it.productInfo.value));
      }
    }
    forall i | i in db.contacts ensures db.contacts[i].user in db.users {
      FollowReference(db, ContactRow(i), UserRow(db.contacts[i].user));
    }
  }

  lemma ReferencesExistGivesNoDangling(db: Db)
    requires ReferencesExist(db)
    ensures NoDangling(db)
  {
    forall r, t | Present(db, r) && t in Targets(db, r) ensures Present(db, t) {
      match r
      case CategoryShopRow(c, s) =>
        var l := (c, s);
        assert l in db.categoryShops;
      case _ =>
    }
  }

  /** The table-by-table foreign-key rule and the row-graph rule say the same thing. */
  lemma ReferencesExistIffNoDangling(db: Db)
    ensures ReferencesExist(db) <==> NoDangling(db)
  {
    if NoDangling(db) {
      NoDanglingGivesReferencesExist(db);
    }
    if ReferencesExist(db) {
      ReferencesExistGivesNoDangling(db);
    }
  }

  // ---------------------------------------------------------------------------
  // The cascade closure.

  /** The rows that refer to some member of `d`. */
  function Referrers(db: Db, d: set<RowRef>): set<RowRef> {
    set r | r in Rows(db) && Targets(db, r) * d != {}
  }

  lemma InReferrers(db: Db, d: set<RowRef>, r: RowRef, t: RowRef)
    requires Present(db, r) && t in Targets(db, r) && t in d
    ensures r in Referrers(db, d)
  {
    RowsArePresent(db, r);
    assert t in Targets(db, r) * d;
  }

  lemma ReferrersArePresent(db: Db, d: set<RowRef>, r: RowRef)
    requires r in Referrers(db, d)
    ensures Present(db, r)
    ensures exists t :: t in Targets(db, r) && t in d
  {
    RowsArePresent(db, r);
    var t :| t in Targets(db, r) * d;
  }

  /** A set closed under the cascade: whatever refers to a member is a member. */
  predicate Closed(db: Db, s: set<RowRef>) {
    Referrers(db, s) <= s
  }

  lemma ProperSubsetIsSmaller(a: set<RowRef>, b: set<RowRef>, x: RowRef)
    requires a <= b && x in b && x !in a
    ensures |a| < |b|
  {
    assert b == a + (b - a);
    assert x in b - a;
  }

  /** Adds referrers to `d` until nothing more refers into it. */
  function Close(db: Db, d: set<RowRef>): (c: set<RowRef>)
    ensures d <= c
    ensures c <= d + Rows(db)
    ensures Closed(db, c)
    decreases |Rows(db) - d|
  {
    var next := d + Referrers(db, d);
    if next == d then d
    else
      var x :| x in next && x !in d;
      ProperSubsetIsSmaller(Rows(db) - next, Rows(db) - d, x);
      Close(db, next)
  }

  /** `Close(db, d)` lies inside every closed set containing `d`. */
  lemma {:induction false} CloseIsLeast(db: Db, d: set<RowRef>, s: set<RowRef>)
    requires d <= s && Closed(db, s)
    ensures Close(db, d) <= s
    decreases |Rows(db) - d|
  {
    var next := d + Referrers(db, d);
    if next != d {
      forall r | r in Referrers(db, d) ensures r in s {
        ReferrersArePresent(db, d, r);
        var t :| t in Targets(db, r) && t in d;
        InReferrers(db, s, r, t);
      }
      var x :| x in next && x !in d;
      ProperSubsetIsSmaller(Rows(db) - next, Rows(db) - d, x);
      CloseIsLeast(db, next, s);
    }
  }

  /** The rows deleted together with `root`. */
  function Doomed(db: Db, root: RowRef): set<RowRef> {
    Close(db, {root})
  }

  /** The deleted row itself is doomed, whether or not it is stored. */
  lemma DoomedHoldsRoot(db: Db, root: RowRef)
    ensures root in Doomed(db, root)
  {
  }

  /** Every row referring to a doomed row is doomed ... */
  lemma DoomedIsClosed(db: Db, root: RowRef, r: RowRef, t: RowRef)
    requires Present(db, r) && t in Targets(db, r) && t in Doomed(db, root)
    ensures r in Doomed(db, root)
  {
    InReferrers(db, Doomed(db, root), r, t);
  }

  /** ... and nothing else is: every closed set holding `root` holds all doomed rows. */
  lemma DoomedIsLeast(db: Db, root: RowRef, s: set<RowRef>)
    requires root in s && Closed(db, s)
    ensures Doomed(db, root) <= s
  {
    CloseIsLeast(db, {root}, s);
  }

  // ---------------------------------------------------------------------------
  // Doomed rows as reference chains.

  /** `p` walks from row to row along foreign keys, each step from a row to one it refers to. */
  predicate IsChain(db: Db, p: seq<RowRef>) {
    && |p| > 0
    && forall k | 0 <= k < |p| - 1 :: Present(db, p[k]) && p[k + 1] in Targets(db, p[k])
  }

  /** `r` reaches `root` by a chain of references (of length zero when `r == root`). */
  ghost predicate RefersTo(db: Db, r: RowRef, root: RowRef) {
    exists p :: IsChain(db, p) && p[0] == r && p[|p| - 1] == root
  }

  lemma {:induction false} ChainIsDoomed(db: Db, p: seq<RowRef>, root: RowRef)
    requires IsChain(db, p) && p[|p| - 1] == root
    ensures p[0] in Doomed(db, root)
    decreases |p|
  {
    if |p| > 1 {
      var rest := p[1..];
      assert IsChain(db, rest) by {
        forall k | 0 <= k < |rest| - 1 ensures Present(db, rest[k]) && rest[k + 1] in Targets(db, rest[k]) {
          assert rest[k] == p[k + 1] && rest[k + 1] == p[k + 2];
        }
      }
      ChainIsDoomed(db, rest, root);
      DoomedIsClosed(db, root, p[0], p[1]);
    }
  }

  /** The rows that reach `root` by a chain, `root` included, form a closed set. */
  lemma ReachingRowsAreClosed(db: Db, root: RowRef, s: set<RowRef>)
    requires s == set x | x in Rows(db) + {root} && RefersTo(db, x, root)
    ensures root in s && Closed(db, s)
  {
    assert IsChain(db, [root]);
    forall x | x in Referrers(db, s) ensures x in s {
      ReferrersArePresent(db, s, x);
      var t :| t in Targets(db, x) && t in s;
      var q :| IsChain(db, q) && q[0] == t && q[|q| - 1] == root;
      ExtendChain(db, x, q);
      assert ([x] + q)[|[x] + q| - 1] == q[|q| - 1];
      RowsArePresent(db, x);
    }
  }

  lemma ExtendChain(db: Db, x: RowRef, q: seq<RowRef>)
    requires IsChain(db, q) && Present(db, x) && q[0] in Targets(db, x)
    ensures IsChain(db, [x] + q)
  {
    var p := [x] + q;
    forall k | 0 <= k < |p| - 1 ensures Present(db, p[k]) && p[k + 1] in Targets(db, p[k]) {
      if k > 0 {
        assert p[k] == q[k - 1] && p[k + 1] == q[k];
      }
    }
  }

  /** A row is deleted with `root` exactly when it refers to `root` through a chain. */
  lemma DoomedIffRefersTo(db: Db, root: RowRef, r: RowRef)
    ensures r in Doomed(db, root) <==> RefersTo(db, r, root)
  {
    if RefersTo(db, r, root) {
      var p :| IsChain(db, p) && p[0] == r && p[|p| - 1] == root;
      ChainIsDoomed(db, p, root);
    }
    if r in Doomed(db, root) {
      var s := set x | x in Rows(db) + {root} && RefersTo(db, x, root);
      ReachingRowsAreClosed(db, root, s);
      DoomedIsLeast(db, root, s);
    }
  }

  // ---------------------------------------------------------------------------
  // Removing rows.

  /** The database without the rows in `d`. */
  function Remove(db: Db, d: set<RowRef>): Db {
    Db(
      map i | i in db.users && UserRow(i) !in d :: db.users[i],
      map i | i in db.shops && ShopRow(i) !in d :: db.shops[i],
      map i | i in db.categories && CategoryRow(i) !in d :: db.categories[i],
      set l | l in db.categoryShops && CategoryShopRow(l.0, l.1) !in d,
      map i | i in db.products && ProductRow(i) !in d :: db.products[i],
      map i | i in db.productInfos && ProductInfoRow(i) !in d :: db.productInfos[i],
      map i | i in db.parameters && ParameterRow(i) !in d :: db.parameters[i],
      map i | i in db.productParameters && ProductParameterRow(i) !in d :: db.productParameters[i],
      map i | i in db.orders && OrderRow(i) !in d :: db.orders[i],
      map i | i in db.orderItems && OrderItemRow(i) !in d :: db.orderItems[i],
      map i | i in db.contacts && ContactRow(i) !in d :: db.contacts[i])
  }

  /** Removal drops exactly the rows of `d` and leaves every other row as it was. */
  lemma RemoveDropsExactly(db: Db, d: set<RowRef>, r: RowRef)
    ensures Substate(Remove(db, d), db)
    ensures Present(Remove(db, d), r) <==> Present(db, r) && r !in d
    ensures Present(Remove(db, d), r) ==> Targets(Remove(db, d), r) == Targets(db, r)
  {
    match r
    case CategoryShopRow(c, s) =>
      var l := (c, s);
      assert l in Remove(db, d).categoryShops <==> l in db.categoryShops && r !in d;
    case _ =>
  }

  /** Removing a set closed under the cascade keeps the database consistent. */
  lemma RemoveClosedKeepsConsistent(db: Db, d: set<RowRef>, n: Id)
    requires Consistent(db) && IdsBelow(db, n) && Closed(db, d)
    ensures Consistent(Remove(db, d)) && IdsBelow(Remove(db, d), n)
  {
    var after := Remove(db, d);
    RemoveDropsExactly(db, d, UserRow(0));
    SubstateKeepsRowRules(after, db, n);
    ReferencesExistIffNoDangling(db);
    forall r, t | Present(after, r) && t in Targets(after, r) ensures Present(after, t) {
      RemoveDropsExactly(db, d, r);
      RemoveDropsExactly(db, d, t);
      if t in d {
        InReferrers(db, d, r, t);
      }
    }
    ReferencesExistIffNoDangling(after);
  }

  /** Deleting any row, with its cascade, keeps the database consistent. */
  lemma DeleteKeepsConsistent(db: Db, root: RowRef, n: Id)
    requires Consistent(db) && IdsBelow(db, n)
    ensures Consistent(Remove(db, Doomed(db, root)))
    ensures IdsBelow(Remove(db, Doomed(db, root)), n)
  {
    RemoveClosedKeepsConsistent(db, Doomed(db, root), n);
  }

  /** Removing rows none of which exist changes nothing. */
  lemma RemoveAbsentRows(db: Db, d: set<RowRef>)
    requires forall r | r in d :: !Present(db, r)
    ensures Remove(db, d) == db
  {
    var after := Remove(db, d);
    assert after.users == db.users;
    assert after.shops == db.shops;
    assert after.categories == db.categories;
    assert after.categoryShops == db.categoryShops by {
      forall l | l in db.categoryShops ensures l in after.categoryShops {
        assert l == (l.0, l.1);
        assert Present(db, CategoryShopRow(l.0, l.1));
      }
    }
    assert after.products == db.products;
    assert after.productInfos == db.productInfos;
    assert after.parameters == db.parameters;
    assert after.productParameters == db.productParameters;
    assert after.orders == db.orders;
    assert after.orderItems == db.orderItems;
    assert after.contacts == db.contacts;
  }

  /** Deleting a row that does not exist changes nothing. */
  lemma DeleteAbsentIsNoop(db: Db, root: RowRef)
    requires Consistent(db) && !Present(db, root)
    ensures Doomed(db, root) == {root}
    ensures Remove(db, Doomed(db, root)) == db
  {
    ReferencesExistIffNoDangling(db);
    forall r | r in Referrers(db, {root}) ensures false {
      ReferrersArePresent(db, {root}, r);
    }
    assert Referrers(db, {root}) == {};
    RemoveAbsentRows(db, {root});
  }
}
