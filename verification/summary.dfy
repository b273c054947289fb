/** The order summary `ask_payment` composes (handlers/order.py:228-259): the
    total, and one line per (dish name, price) group with its count and
    subtotal, groups in first-occurrence order. */
module Summary {
  import opened Results
  import opened Text
  import opened Grouping
  import opened CartStore

  /** `int(item.get("Цена", 0))`: None where `int()` raises. */
  function PriceOf(item: Item): Option<int> {
    ParseInt(item.price)
  }

  predicate AllPriced(cart: seq<Item>) {
    forall i :: 0 <= i < |cart| ==> PriceOf(cart[i]).Some?
  }

  /** `sum(int(i.get("Цена", 0)) for i in cart)`. */
  function SumPrices(cart: seq<Item>): int
    requires AllPriced(cart)
  {
    if |cart| == 0 then 0
    else SumPrices(cart[..|cart| - 1]) + PriceOf(cart[|cart| - 1]).value
  }

  type OrderKey = (string, int)

  /** The dict key of every cart item: `(dish, price)`. */
  function OrderKeys(cart: seq<Item>): (ks: seq<OrderKey>)
    requires AllPriced(cart)
    ensures |ks| == |cart|
  {
    seq(|cart|, i requires 0 <= i < |cart| && AllPriced(cart) => (cart[i].name, PriceOf(cart[i]).value))
  }

  function KeyPrice(k: OrderKey): int {
    k.1
  }

  /** One `- {cnt} X {dish} — {price}₽ = {sum_price}₽` line. */
  datatype Line = Line(count: nat, name: string, price: int, subtotal: int)

  /** `base_order_text`: the order id, the collected fields, the lines and the total. */
  datatype OrderText = OrderText(
    orderId: string, name: string, phone: string, address: string, comment: string,
    lines: seq<Line>, total: int)

  function LinesOf(groups: seq<Group<OrderKey>>): (ls: seq<Line>)
    ensures |ls| == |groups|
  {
    seq(|groups|, i requires 0 <= i < |groups| =>
      Line(groups[i].count, groups[i].key.0, groups[i].key.1, groups[i].count * groups[i].key.1))
  }

  function SubtotalSum(lines: seq<Line>): int {
    if |lines| == 0 then 0 else SubtotalSum(lines[..|lines| - 1]) + lines[|lines| - 1].subtotal
  }

  function CountSum(lines: seq<Line>): nat {
    if |lines| == 0 then 0 else CountSum(lines[..|lines| - 1]) + lines[|lines| - 1].count
  }

  datatype Totals = Totals(lines: seq<Line>, total: int)

  /** The grouped lines and the total, or None where a price is not an int
      (the handler raises before anything is sent). */
  function Summarize(cart: seq<Item>): (r: Option<Totals>)
    ensures r.Some? <==> AllPriced(cart)
    ensures r.Some? ==> r.value.total == SumPrices(cart)
    ensures r.Some? ==> forall i :: 0 <= i < |r.value.lines| ==>
      r.value.lines[i].subtotal == r.value.lines[i].count * r.value.lines[i].price
  {
    if AllPriced(cart) then Some(Totals(LinesOf(Tally(OrderKeys(cart))), SumPrices(cart)))
    else None
  }

  function LineKey(l: Line): OrderKey {
    (l.name, l.price)
  }

  lemma LinesKeys(g: seq<Group<OrderKey>>)
    ensures forall i :: 0 <= i < |g| ==> LineKey(LinesOf(g)[i]) == g[i].key && LinesOf(g)[i].count == g[i].count
  {
  }

  /** The line of each (name, price) pair counts exactly the cart items with
      that name and price, and no line is empty. */
  lemma SummaryCounts(cart: seq<Item>)
    requires AllPriced(cart)
    ensures var ls := Summarize(cart).value.lines;
      forall i :: 0 <= i < |ls| ==> ls[i].count == Count(OrderKeys(cart), LineKey(ls[i])) && ls[i].count > 0
  {
    var g := Tally(OrderKeys(cart));
    TallyCounts(OrderKeys(cart));
    LinesKeys(g);
  }

  /** No (name, price) pair has two lines, and every item is on a line. */
  lemma SummaryPartitions(cart: seq<Item>)
    requires AllPriced(cart)
    ensures var ls := Summarize(cart).value.lines;
      forall i, j :: 0 <= i < j < |ls| ==> LineKey(ls[i]) != LineKey(ls[j])
    ensures var ls := Summarize(cart).value.lines;
      forall k :: 0 <= k < |cart| ==> exists i :: 0 <= i < |ls| && LineKey(ls[i]) == OrderKeys(cart)[k]
  {
    var keys := OrderKeys(cart);
    assert Summarize(cart).value.lines == LinesOf(Tally(keys));
    LinesPartition(keys);
  }

  lemma LinesPartition(keys: seq<OrderKey>)
    ensures var ls := LinesOf(Tally(keys));
      forall i, j :: 0 <= i < j < |ls| ==> LineKey(ls[i]) != LineKey(ls[j])
    ensures var ls := LinesOf(Tally(keys));
      forall k :: 0 <= k < |keys| ==> exists i :: 0 <= i < |ls| && LineKey(ls[i]) == keys[k]
  {
    var g := Tally(keys);
    var ls := LinesOf(g);
    LinesKeys(g);
    assert Distinct(KeysOf(g));
    forall k | 0 <= k < |keys|
      ensures exists i :: 0 <= i < |ls| && LineKey(ls[i]) == keys[k]
    {
      assert keys[k] in KeysOf(g);
      var i :| 0 <= i < |g| && KeysOf(g)[i] == keys[k];
      assert LineKey(ls[i]) == keys[k];
    }
  }

  /** The lines follow the order in which their pairs first occur. */
  lemma SummaryOrder(cart: seq<Item>)
    requires AllPriced(cart)
    ensures var ls := Summarize(cart).value.lines;
      forall i, j :: 0 <= i < j < |ls| ==>
        LineKey(ls[i]) in OrderKeys(cart) && LineKey(ls[j]) in OrderKeys(cart) &&
        FirstIndex(OrderKeys(cart), LineKey(ls[i])) < FirstIndex(OrderKeys(cart), LineKey(ls[j]))
  {
    var g := Tally(OrderKeys(cart));
    TallyOrder(OrderKeys(cart));
    LinesKeys(g);
  }

  /** The subtotals add up to the total, and the counts to the cart size. */
  lemma SubtotalsAddUp(cart: seq<Item>)
    requires AllPriced(cart)
    ensures SubtotalSum(Summarize(cart).value.lines) == Summarize(cart).value.total
    ensures CountSum(Summarize(cart).value.lines) == |cart|
  {
    var keys := OrderKeys(cart);
    var g := Tally(keys);
    TallyWeightedSum(keys, KeyPrice);
    TotalIsSumOver(cart);
    LinesSums(g);
  }

  lemma {:induction false} LinesSums(g: seq<Group<OrderKey>>)
    ensures SubtotalSum(LinesOf(g)) == WeightedSum(g, KeyPrice)
    ensures CountSum(LinesOf(g)) == TotalCount(g)
  {
    if |g| > 0 {
      LinesSums(g[..|g| - 1]);
      assert LinesOf(g)[..|g| - 1] == LinesOf(g[..|g| - 1]);
    }
  }

  lemma {:induction false} TotalIsSumOver(cart: seq<Item>)
    requires AllPriced(cart)
    ensures SumPrices(cart) == SumOver(OrderKeys(cart), KeyPrice)
  {
    if |cart| > 0 {
      var prefix := cart[..|cart| - 1];
      TotalIsSumOver(prefix);
      assert OrderKeys(cart)[..|cart| - 1] == OrderKeys(prefix);
    }
  }

  /** The rendered line, as the operator reads it. */
  function LineText(l: Line): string {
    "- " + NatToString(l.count) + " X " + l.name + " — " + IntToString(l.price) + "₽ = " + IntToString(l.subtotal) + "₽"
  }
}
