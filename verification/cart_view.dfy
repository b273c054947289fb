/** handlers/cart.py: the cart screen and its inline buttons. The view groups
    the cart by (sheet, dish id, name, price) in first-occurrence order, one
    line and one delete button per group; a delete button removes the first
    item of that sheet and id. Button labels and message wording are not
    modelled, only the callback data each button carries. */
module CartView {
  import opened Results
  import opened Text
  import opened Grouping
  import opened CartStore
  import opened Summary

  /** The grouping key: `(sheet, d_id, name, price)`. */
  type ViewKey = (string, string, string, int)

  function KeyOf(item: Item): ViewKey
    requires PriceOf(item).Some?
  {
    (item.sheet, item.dishId, item.name, PriceOf(item).value)
  }

  function ViewKeys(cart: seq<Item>): (ks: seq<ViewKey>)
    requires AllPriced(cart)
    ensures |ks| == |cart|
    ensures forall i :: 0 <= i < |cart| ==> ks[i] == KeyOf(cart[i])
  {
    seq(|cart|, i requires 0 <= i < |cart| && AllPriced(cart) => KeyOf(cart[i]))
  }

  function ViewPrice(k: ViewKey): int {
    k.3
  }

  /** One `{count} X {name} — {price}₽ = {total}₽` line, with the group's key. */
  datatype ViewLine = ViewLine(sheet: string, dishId: string, name: string, price: int, count: nat, subtotal: int)

  function LineKey(l: ViewLine): ViewKey {
    (l.sheet, l.dishId, l.name, l.price)
  }

  /** What the handler returns: the empty-cart text with no markup, or the
      lines with the inline keyboard (each row a list of callback data). */
  datatype View = EmptyCart | Listing(lines: seq<ViewLine>, buttons: seq<seq<string>>)

  const ClearRow: seq<string> := ["clear", "checkout"]
  const BackRow: seq<string> := ["back"]

  /** The callback data of a group's delete button. */
  function DeleteData(l: ViewLine): string {
    "del:" + l.sheet + ":" + l.dishId
  }

  function LinesOf(groups: seq<Group<ViewKey>>): (ls: seq<ViewLine>)
    ensures |ls| == |groups|
    ensures forall i :: 0 <= i < |groups| ==> LineKey(ls[i]) == groups[i].key && ls[i].count == groups[i].count
  {
    seq(|groups|, i requires 0 <= i < |groups| =>
      var k := groups[i].key;
      ViewLine(k.0, k.1, k.2, k.3, groups[i].count, groups[i].count * k.3))
  }

  function ButtonsOf(lines: seq<ViewLine>): (b: seq<seq<string>>)
    ensures |b| == |lines| + 2
    ensures forall i :: 0 <= i < |lines| ==> b[i] == [DeleteData(lines[i])]
    ensures b[|lines|] == ClearRow && b[|lines| + 1] == BackRow
  {
    seq(|lines|, i requires 0 <= i < |lines| => [DeleteData(lines[i])]) + [ClearRow, BackRow]
  }

  /** `build_cart_view`: an empty cart is reported before any price is read;
      otherwise None where some price is not an int (the handler raises). */
  function BuildView(cart: seq<Item>): (r: Option<View>)
    ensures cart == [] ==> r == Some(EmptyCart)
    ensures cart != [] ==> (r.Some? <==> AllPriced(cart))
    ensures r.Some? && cart != [] ==> r.value.Listing?
    ensures r.Some? && r.value.Listing? ==>
      && |r.value.buttons| == |r.value.lines| + 2
      && (forall i :: 0 <= i < |r.value.lines| ==>
            r.value.buttons[i] == [DeleteData(r.value.lines[i])] &&
            r.value.lines[i].subtotal == r.value.lines[i].count * r.value.lines[i].price)
      && r.value.buttons[|r.value.lines|] == ["clear", "checkout"]
      && r.value.buttons[|r.value.lines| + 1] == ["back"]
  {
    if cart == [] then Some(EmptyCart)
    else if AllPriced(cart) then
      var lines := LinesOf(Tally(ViewKeys(cart)));
      Some(Listing(lines, ButtonsOf(lines)))
    else None
  }

  /** Each line counts exactly the cart items with its key, and none is empty. */
  lemma ViewCounts(cart: seq<Item>)
    requires cart != [] && AllPriced(cart)
    ensures var ls := BuildView(cart).value.lines;
      forall i :: 0 <= i < |ls| ==> ls[i].count == Count(ViewKeys(cart), LineKey(ls[i])) && ls[i].count > 0
  {
    TallyCounts(ViewKeys(cart));
  }

  /** No key has two lines, and every item is on the line of its key. */
  lemma ViewPartition(cart: seq<Item>)
    requires cart != [] && AllPriced(cart)
    ensures var ls := BuildView(cart).value.lines;
      forall i, j :: 0 <= i < j < |ls| ==> LineKey(ls[i]) != LineKey(ls[j])
    ensures var ls := BuildView(cart).value.lines;
      forall k :: 0 <= k < |cart| ==> exists i :: 0 <= i < |ls| && LineKey(ls[i]) == KeyOf(cart[k])
  {
    var keys := ViewKeys(cart);
    var g := Tally(keys);
    var ls := BuildView(cart).value.lines;
    assert Distinct(KeysOf(g));
    forall k | 0 <= k < |cart|
      ensures exists i :: 0 <= i < |ls| && LineKey(ls[i]) == KeyOf(cart[k])
    {
      assert keys[k] in KeysOf(g);
      var i :| 0 <= i < |g| && KeysOf(g)[i] == keys[k];
      assert LineKey(ls[i]) == keys[k];
    }
  }

  /** The lines follow the order in which their keys first occur in the cart. */
  lemma ViewOrder(cart: seq<Item>)
    requires cart != [] && AllPriced(cart)
    ensures var ls := BuildView(cart).value.lines;
      forall i, j :: 0 <= i < j < |ls| ==>
        LineKey(ls[i]) in ViewKeys(cart) && LineKey(ls[j]) in ViewKeys(cart) &&
        FirstIndex(ViewKeys(cart), LineKey(ls[i])) < FirstIndex(ViewKeys(cart), LineKey(ls[j]))
  {
    TallyOrder(ViewKeys(cart));
  }

  function ViewCountSum(lines: seq<ViewLine>): nat {
    if |lines| == 0 then 0 else ViewCountSum(lines[..|lines| - 1]) + lines[|lines| - 1].count
  }

  function ViewSubtotalSum(lines: seq<ViewLine>): int {
    if |lines| == 0 then 0 else ViewSubtotalSum(lines[..|lines| - 1]) + lines[|lines| - 1].subtotal
  }

  /** The counts add up to the number of items, and the subtotals to the same
      total the order summary computes. */
  lemma ViewTotals(cart: seq<Item>)
    requires cart != [] && AllPriced(cart)
    ensures ViewCountSum(BuildView(cart).value.lines) == |cart|
    ensures ViewSubtotalSum(BuildView(cart).value.lines) == SumPrices(cart)
  {
    var keys := ViewKeys(cart);
    TallyWeightedSum(keys, ViewPrice);
    ViewKeysSum(cart);
    ViewLinesSums(Tally(keys));
  }

  lemma {:induction false} ViewLinesSums(g: seq<Group<ViewKey>>)
    ensures ViewSubtotalSum(LinesOf(g)) == WeightedSum(g, ViewPrice)
    ensures ViewCountSum(LinesOf(g)) == TotalCount(g)
  {
    if |g| > 0 {
      ViewLinesSums(g[..|g| - 1]);
      assert LinesOf(g)[..|g| - 1] == LinesOf(g[..|g| - 1]);
    }
  }

  lemma {:induction false} ViewKeysSum(cart: seq<Item>)
    requires AllPriced(cart)
    ensures SumPrices(cart) == SumOver(ViewKeys(cart), ViewPrice)
  {
    if |cart| > 0 {
      var prefix := cart[..|cart| - 1];
      ViewKeysSum(prefix);
      assert ViewKeys(cart)[..|cart| - 1] == ViewKeys(prefix);
    }
  }

  predicate Matches(item: Item, sheet: string, dishId: string) {
    item.sheet == sheet && item.dishId == dishId
  }

  /** The index the `for idx, item in enumerate(cart)` loop stops at. */
  function FirstMatch(cart: seq<Item>, sheet: string, dishId: string): (r: Option<nat>)
    ensures r.Some? ==> r.value < |cart| && Matches(cart[r.value], sheet, dishId)
    ensures r.Some? ==> forall j :: 0 <= j < r.value ==> !Matches(cart[j], sheet, dishId)
    ensures r.None? ==> forall j :: 0 <= j < |cart| ==> !Matches(cart[j], sheet, dishId)
  {
    if |cart| == 0 then None
    else if Matches(cart[0], sheet, dishId) then Some(0)
    else match FirstMatch(cart[1..], sheet, dishId)
      case None => None
      case Some(i) => Some(i + 1)
  }

  /** The cart effect of `inline_cart_handler`: `del:` removes the first item
      of that sheet and id (nothing when none matches, or when the data has
      fewer than two colons and the unpacking raises), `clear` empties the
      cart, `back` and anything else leave it. */
  function CartCallback(st: Store, u: UserId, data: string): (r: Store)
    ensures OnlyCartOf(st, r, u)
    ensures data == "clear" ==> GetCart(r, u) == [] && u in r.carts
    ensures !StartsWith(data, "del:") && data != "clear" ==> r == st
    ensures StartsWith(data, "del:") && Split3(data).None? ==> r == st
    ensures StartsWith(data, "del:") && Split3(data).Some? ==>
      var cart := GetCart(st, u);
      match FirstMatch(cart, Split3(data).value.1, Split3(data).value.2)
      case None => r == st
      case Some(i) => GetCart(r, u) == cart[..i] + cart[i + 1..]
  {
    if StartsWith(data, "del:") then
      match Split3(data)
      case None => st
      case Some(parts) =>
        match FirstMatch(GetCart(st, u), parts.1, parts.2)
        case None => st
        case Some(i) => RemoveAt(st, u, i)
    else if data == "clear" then Clear(st, u)
    else st
  }

  /** `del:s:i` removes exactly the first item of sheet `s` and id `i`, and
      nothing else; with no such item nothing changes. */
  lemma DeleteFirstMatch(st: Store, u: UserId, sheet: string, dishId: string)
    requires ':' !in sheet
    ensures var cart := GetCart(st, u);
      var r := CartCallback(st, u, "del:" + sheet + ":" + dishId);
      match FirstMatch(cart, sheet, dishId)
      case None => r == st
      case Some(i) => (GetCart(r, u) == cart[..i] + cart[i + 1..] &&
        multiset(GetCart(r, u)) + multiset{cart[i]} == multiset(cart))
  {
    var data := "del:" + sheet + ":" + dishId;
    Split3OfJoin("del", sheet, dishId);
    assert "del" + ":" + sheet + ":" + dishId == data;
    assert data[..4] == "del:";
    var cart := GetCart(st, u);
    match FirstMatch(cart, sheet, dishId)
    case None =>
    case Some(i) =>
      assert cart == cart[..i] + [cart[i]] + cart[i + 1..];
  }

  /** Pressing the delete button of a line (whose sheet name has no colon)
      takes out one item of that sheet and id. */
  lemma DeleteButtonRemovesOne(st: Store, u: UserId, i: nat)
    requires GetCart(st, u) != [] && AllPriced(GetCart(st, u))
    requires BuildView(GetCart(st, u)).Some?
    requires i < |BuildView(GetCart(st, u)).value.lines|
    requires ':' !in BuildView(GetCart(st, u)).value.lines[i].sheet
    ensures var l := BuildView(GetCart(st, u)).value.lines[i];
      var r := CartCallback(st, u, BuildView(GetCart(st, u)).value.buttons[i][0]);
      |GetCart(r, u)| == |GetCart(st, u)| - 1 &&
      exists k :: 0 <= k < |GetCart(st, u)| && Matches(GetCart(st, u)[k], l.sheet, l.dishId) &&
        GetCart(r, u) == GetCart(st, u)[..k] + GetCart(st, u)[k + 1..]
  {
    var cart := GetCart(st, u);
    var v := BuildView(cart).value;
    var l := v.lines[i];
    assert v.buttons[i][0] == DeleteData(l);
    LineHasItem(cart, l.sheet, l.dishId, l);
    DeleteDataRemovesOne(st, u, l);
  }

  /** The delete data of a line with a matching item takes one such item out. */
  lemma DeleteDataRemovesOne(st: Store, u: UserId, l: ViewLine)
    requires ':' !in l.sheet && FirstMatch(GetCart(st, u), l.sheet, l.dishId).Some?
    ensures var r := CartCallback(st, u, DeleteData(l));
      |GetCart(r, u)| == |GetCart(st, u)| - 1 &&
      exists k :: 0 <= k < |GetCart(st, u)| && Matches(GetCart(st, u)[k], l.sheet, l.dishId) &&
        GetCart(r, u) == GetCart(st, u)[..k] + GetCart(st, u)[k + 1..]
  {
    var cart := GetCart(st, u);
    var j := FirstMatch(cart, l.sheet, l.dishId).value;
    DeleteFirstMatch(st, u, l.sheet, l.dishId);
    assert GetCart(CartCallback(st, u, DeleteData(l)), u) == cart[..j] + cart[j + 1..];
  }

  /** A line of a non-empty view stands for at least one item of the cart. */
  lemma LineHasItem(cart: seq<Item>, sheet: string, dishId: string, l: ViewLine)
    requires cart != [] && AllPriced(cart) && BuildView(cart).Some?
    requires l in BuildView(cart).value.lines && l.sheet == sheet && l.dishId == dishId
    ensures FirstMatch(cart, sheet, dishId).Some?
  {
    ViewCounts(cart);
    var ls := BuildView(cart).value.lines;
    var i :| 0 <= i < |ls| && ls[i] == l;
    assert Count(ViewKeys(cart), LineKey(l)) > 0;
    CountPositive(ViewKeys(cart), LineKey(l));
    var k :| 0 <= k < |cart| && ViewKeys(cart)[k] == LineKey(l);
    assert Matches(cart[k], sheet, dishId);
  }

  lemma {:induction false} CountPositive<K>(keys: seq<K>, k: K)
    requires Count(keys, k) > 0
    ensures exists i :: 0 <= i < |keys| && keys[i] == k
  {
    if keys[|keys| - 1] != k {
      CountPositive(keys[..|keys| - 1], k);
      var i :| 0 <= i < |keys| - 1 && keys[..|keys| - 1][i] == k;
      assert keys[i] == k;
    }
  }
}
