/** The post-order inventory update (controllers/meal.js, `decreaseQuantity`):
    the bulk operations it generates, and their effect on the stock levels. */
module Inventory {
  import opened Meal

  /** One ordered meal: its id and how many were bought. */
  datatype LineItem = LineItem(id: Id, count: int)

  /** `{ updateOne: { filter: { _id: filterId },
                      update: { $inc: { quantity: incQuantity, sold: incSold } } } }` */
  datatype UpdateOne = UpdateOne(filterId: Id, incQuantity: int, incSold: int)

  /** The inventory attributes of one stored meal. */
  datatype Stock = Stock(quantity: int, sold: int)

  /** The stored meals' inventory, by id. */
  type Stocks = map<Id, Stock>

  const CouldNotUpdate := "Could not update meal"

  /** `order.meals.map(...)`: one update per line item, in order, each taking
      the item's count off its quantity and adding it to its sold total. */
  function BulkOps(items: seq<LineItem>): (ops: seq<UpdateOne>)
    ensures |ops| == |items|
    ensures forall i :: 0 <= i < |items| ==>
              && ops[i].filterId == items[i].id
              && ops[i].incQuantity == -items[i].count
              && ops[i].incSold == items[i].count
  {
    if items == [] then []
    else [UpdateOne(items[0].id, -items[0].count, items[0].count)] + BulkOps(items[1..])
  }

  /** One `updateOne` as the store applies it: the matching meal has both
      counters incremented, without any lower bound; an id that matches no
      meal changes nothing (no upsert). */
  function ApplyOp(stocks: Stocks, op: UpdateOne): (r: Stocks)
    ensures r.Keys == stocks.Keys
    ensures forall id :: id in stocks && id != op.filterId ==> r[id] == stocks[id]
    ensures op.filterId in stocks ==>
              r[op.filterId] == Stock(stocks[op.filterId].quantity + op.incQuantity,
                                      stocks[op.filterId].sold + op.incSold)
  {
    if op.filterId in stocks then
      var s := stocks[op.filterId];
      stocks[op.filterId := Stock(s.quantity + op.incQuantity, s.sold + op.incSold)]
    else stocks
  }

  /** The operations applied one after another, as an ordered bulk write
      that succeeds does. No meal is added or removed. */
  function ApplyOps(stocks: Stocks, ops: seq<UpdateOne>): (r: Stocks)
    ensures r.Keys == stocks.Keys
    decreases |ops|
  {
    if ops == [] then stocks else ApplyOps(ApplyOp(stocks, ops[0]), ops[1..])
  }

  /** The stock an order leaves behind. */
  function AfterOrder(stocks: Stocks, items: seq<LineItem>): Stocks {
    ApplyOps(stocks, BulkOps(items))
  }

  /** The total count ordered of meal `id`, over every line item naming it. */
  function Ordered(items: seq<LineItem>, id: Id): int {
    if items == [] then 0
    else (if items[0].id == id then items[0].count else 0) + Ordered(items[1..], id)
  }

  /** The outcome of `decreaseQuantity`: hand on to the next handler with the
      updated stock, or answer with an error. Whether the store's bulk write
      fails is outside the model and arrives as `writeFails`. */
  datatype Decrease = Next(stocks: Stocks) | Failed(error: string)

  function DecreaseQuantity(stocks: Stocks, items: seq<LineItem>, writeFails: bool): (r: Decrease)
    ensures r.Failed? <==> writeFails
    ensures r.Failed? ==> r.error == CouldNotUpdate
    ensures r.Next? ==> r.stocks.Keys == stocks.Keys
    ensures r.Next? ==> forall id :: id in stocks ==>
              r.stocks[id] == Stock(stocks[id].quantity - Ordered(items, id),
                                    stocks[id].sold + Ordered(items, id))
  {
    if writeFails then Failed(CouldNotUpdate)
    else
      DecreaseEffectAll(stocks, items);
      Next(AfterOrder(stocks, items))
  }

  /** Applying an order's operations lowers each stored meal's quantity by
      the total count ordered of it and raises its sold total by the same. */
  lemma {:induction false} DecreaseEffect(stocks: Stocks, items: seq<LineItem>, id: Id)
    requires id in stocks
    ensures AfterOrder(stocks, items)[id]
            == Stock(stocks[id].quantity - Ordered(items, id), stocks[id].sold + Ordered(items, id))
    decreases |items|
  {
    if items != [] {
      var ops := BulkOps(items);
      assert ops[1..] == BulkOps(items[1..]);
      DecreaseEffect(ApplyOp(stocks, ops[0]), items[1..], id);
    }
  }

  /** DecreaseEffect for every stored meal at once. */
  lemma DecreaseEffectAll(stocks: Stocks, items: seq<LineItem>)
    ensures forall id :: id in stocks ==>
              AfterOrder(stocks, items)[id]
              == Stock(stocks[id].quantity - Ordered(items, id), stocks[id].sold + Ordered(items, id))
  {
    forall id | id in stocks
      ensures AfterOrder(stocks, items)[id]
              == Stock(stocks[id].quantity - Ordered(items, id), stocks[id].sold + Ordered(items, id))
    {
      DecreaseEffect(stocks, items, id);
    }
  }

  /** `quantity + sold` of every stored meal is unchanged by an order. */
  lemma StockTotalPreserved(stocks: Stocks, items: seq<LineItem>, id: Id)
    requires id in stocks
    ensures var after := AfterOrder(stocks, items);
            after[id].quantity + after[id].sold == stocks[id].quantity + stocks[id].sold
  {
    DecreaseEffect(stocks, items, id);
  }

  /** A meal the order does not name is left untouched. */
  lemma UnorderedUntouched(stocks: Stocks, items: seq<LineItem>, id: Id)
    requires id in stocks
    requires forall i :: 0 <= i < |items| ==> items[i].id != id
    ensures AfterOrder(stocks, items)[id] == stocks[id]
  {
    NotOrderedIsZero(items, id);
    DecreaseEffect(stocks, items, id);
  }

  lemma {:induction false} NotOrderedIsZero(items: seq<LineItem>, id: Id)
    requires forall i :: 0 <= i < |items| ==> items[i].id != id
    ensures Ordered(items, id) == 0
    decreases |items|
  {
    if items != [] {
      NotOrderedIsZero(items[1..], id);
    }
  }

  lemma CommuteAt(stocks: Stocks, a: seq<LineItem>, b: seq<LineItem>, id: Id)
    requires id in stocks
    ensures AfterOrder(AfterOrder(stocks, a), b)[id] == AfterOrder(AfterOrder(stocks, b), a)[id]
  {
    DecreaseEffect(stocks, a, id);
    DecreaseEffect(AfterOrder(stocks, a), b, id);
    DecreaseEffect(stocks, b, id);
    DecreaseEffect(AfterOrder(stocks, b), a, id);
  }

  /** Two orders leave the same stock whichever is applied first. */
  lemma OrdersCommute(stocks: Stocks, a: seq<LineItem>, b: seq<LineItem>)
    ensures AfterOrder(AfterOrder(stocks, a), b) == AfterOrder(AfterOrder(stocks, b), a)
  {
    var ab := AfterOrder(AfterOrder(stocks, a), b);
    var ba := AfterOrder(AfterOrder(stocks, b), a);
    forall id | id in stocks
      ensures ab[id] == ba[id]
    {
      CommuteAt(stocks, a, b, id);
    }
  }

  /** Nothing stops the quantity going below zero: one meal in stock, two
      ordered, leaves a quantity of -1. */
  lemma QuantityMayGoNegative()
    ensures AfterOrder(map["m1" := Stock(1, 0)], [LineItem("m1", 2)])["m1"] == Stock(-1, 2)
  {
  }
}
