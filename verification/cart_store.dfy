/** cart_manager.py: the in-memory carts and last orders, one entry per user.
    The process-wide dicts become one immutable `Store` value; every
    operation returns the new store. Items are values, so the `.copy()` and
    `dict(x)` copies of the source are what Dafny's value semantics give for
    free: nothing returned can alias what is stored. */
module CartStore {

  type UserId = int

  /** One cart entry as `inline_handler` builds it: dish name, the price cell
      exactly as read from the sheet (a string, turned into an int only when
      a view or an order is made), the sheet name and the dish id. */
  datatype Item = Item(name: string, price: string, sheet: string, dishId: string)

  datatype Store = Store(carts: map<UserId, seq<Item>>, lastOrders: map<UserId, seq<Item>>)

  const Empty := Store(map[], map[])

  /** Only the cart of `u` may differ, and the last orders are untouched. */
  predicate OnlyCartOf(st: Store, st': Store, u: UserId) {
    st'.carts - {u} == st.carts - {u} && st'.lastOrders == st.lastOrders
  }

  /** `get_cart`: the user's items, or no items for an unknown user. */
  function GetCart(st: Store, u: UserId): (r: seq<Item>)
    ensures u !in st.carts ==> r == []
    ensures u in st.carts ==> r == st.carts[u]
  {
    if u in st.carts then st.carts[u] else []
  }

  /** `add_to_cart`: append at the end, creating the cart when needed. */
  function Add(st: Store, u: UserId, item: Item): (r: Store)
    ensures GetCart(r, u) == GetCart(st, u) + [item]
    ensures u in r.carts
    ensures OnlyCartOf(st, r, u)
  {
    st.(carts := st.carts[u := GetCart(st, u) + [item]])
  }

  /** `remove_from_cart`: drop position `index` when the user has a cart and
      `0 <= index < len`; otherwise nothing at all changes. */
  function RemoveAt(st: Store, u: UserId, index: int): (r: Store)
    ensures u in st.carts && 0 <= index < |st.carts[u]| ==>
      |GetCart(r, u)| == |GetCart(st, u)| - 1 &&
      (forall i :: 0 <= i < index ==> GetCart(r, u)[i] == GetCart(st, u)[i]) &&
      (forall i :: index <= i < |GetCart(r, u)| ==> GetCart(r, u)[i] == GetCart(st, u)[i + 1])
    ensures !(u in st.carts && 0 <= index < |st.carts[u]|) ==> r == st
    ensures OnlyCartOf(st, r, u)
  {
    if u in st.carts && 0 <= index < |st.carts[u]| then
      var c := st.carts[u];
      st.(carts := st.carts[u := c[..index] + c[index + 1..]])
    else st
  }

  /** `clear_cart`: the user's cart becomes empty (an entry is created even
      for a user who never had one). */
  function Clear(st: Store, u: UserId): (r: Store)
    ensures GetCart(r, u) == [] && u in r.carts
    ensures OnlyCartOf(st, r, u)
  {
    st.(carts := st.carts[u := []])
  }

  /** `replace_cart`: the cart becomes exactly `items`. */
  function Replace(st: Store, u: UserId, items: seq<Item>): (r: Store)
    ensures GetCart(r, u) == items
    ensures OnlyCartOf(st, r, u)
  {
    st.(carts := st.carts[u := items])
  }

  /** `set_last_order`: overwrite the user's last order; carts are untouched. */
  function SetLastOrder(st: Store, u: UserId, items: seq<Item>): (r: Store)
    ensures GetLastOrder(r, u) == items
    ensures r.carts == st.carts
    ensures r.lastOrders - {u} == st.lastOrders - {u}
  {
    st.(lastOrders := st.lastOrders[u := items])
  }

  /** `get_last_order`: the stored snapshot, or nothing for an unknown user. */
  function GetLastOrder(st: Store, u: UserId): (r: seq<Item>)
    ensures u !in st.lastOrders ==> r == []
    ensures u in st.lastOrders ==> r == st.lastOrders[u]
  {
    if u in st.lastOrders then st.lastOrders[u] else []
  }

  /** The cart operations a user's actions can trigger. */
  datatype CartOp = AddOp(item: Item) | RemoveOp(index: int) | ClearOp | ReplaceOp(items: seq<Item>)

  function Apply(st: Store, u: UserId, op: CartOp): Store {
    match op
    case AddOp(item) => Add(st, u, item)
    case RemoveOp(i) => RemoveAt(st, u, i)
    case ClearOp => Clear(st, u)
    case ReplaceOp(items) => Replace(st, u, items)
  }

  function ApplyAll(st: Store, u: UserId, ops: seq<CartOp>): Store
    decreases |ops|
  {
    if |ops| == 0 then st else ApplyAll(Apply(st, u, ops[0]), u, ops[1..])
  }

  /** The snapshot `set_last_order` takes does not follow later cart changes:
      after any run of cart operations the last order is still `items`. */
  lemma {:induction false} LastOrderSurvivesCartOps(st: Store, u: UserId, items: seq<Item>, ops: seq<CartOp>)
    ensures GetLastOrder(ApplyAll(SetLastOrder(st, u, items), u, ops), u) == items
  {
    CartOpsKeepLastOrders(SetLastOrder(st, u, items), u, ops);
  }

  /** Cart operations never touch any last order, and never any other
      user's cart. */
  lemma {:induction false} CartOpsKeepLastOrders(st: Store, u: UserId, ops: seq<CartOp>)
    ensures ApplyAll(st, u, ops).lastOrders == st.lastOrders
    ensures ApplyAll(st, u, ops).carts - {u} == st.carts - {u}
    decreases |ops|
  {
    if |ops| > 0 {
      var st1 := Apply(st, u, ops[0]);
      assert OnlyCartOf(st, st1, u);
      CartOpsKeepLastOrders(st1, u, ops[1..]);
    }
  }

  /** Removing a valid position takes out exactly one copy of that item. */
  lemma RemoveAtMultiset(st: Store, u: UserId, index: int)
    requires u in st.carts && 0 <= index < |st.carts[u]|
    ensures multiset(GetCart(RemoveAt(st, u, index), u)) + multiset{st.carts[u][index]} == multiset(st.carts[u])
  {
    var c := st.carts[u];
    assert c == c[..index] + [c[index]] + c[index + 1..];
  }
}
