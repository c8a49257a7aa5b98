/**
 * The quotes of the example application: discounts in whole cents, and the transaction that stores a quote
 * together with its lines or not at all. Amounts are integers; SQLite holds 64-bit ones.
 */
module Quotes {
  import opened Options

  datatype Product = Product(price: nat, active: bool)

  datatype Item = Item(product: int, quantity: int)

  datatype Line = Line(quote: nat, product: int, quantity: int, price: nat, subtotal: int)

  datatype Quote = Quote(id: nat, customer: int, creator: int, percent: int, subtotal: int, discount: int, total: int)

  datatype Result =
    | Stored(id: nat)
    | BadDiscount
    | NoLines
    | NoCustomer
    | NotStaff
    | BadQuantity
    | BadProduct
    | DatabaseError
  {
    predicate BadLine() {
      BadQuantity? || BadProduct?
    }
  }

  const INTEGER_LIMIT := 0x8000_0000_0000_0000

  /** SQLite refuses to bind any other integer. */
  predicate Fits(n: int) {
    -INTEGER_LIMIT <= n < INTEGER_LIMIT
  }

  // ---------- Discounts ----------

  predicate ValidPercent(percent: int) {
    0 <= percent <= 30
  }

  /** Half a cent is rounded away from zero. */
  function Discount(subtotal: int, percent: int): int {
    var scaled := subtotal * percent;
    if scaled >= 0 then (scaled + 50) / 100 else -((50 - scaled) / 100)
  }

  /**
   * The discount is the one whole number of cents that differs from the exact share by less than half a
   * cent, or by half a cent upwards, and it never exceeds the subtotal.
   */
  lemma DiscountIsHalfUp(subtotal: nat, percent: int, amount: int)
    requires ValidPercent(percent)
    ensures amount == Discount(subtotal, percent) <==> -50 < 100 * amount - subtotal * percent <= 50
    ensures 0 <= Discount(subtotal, percent) <= subtotal
  {
    var scaled := subtotal * percent;
    assert 0 <= scaled <= 30 * subtotal;
    assert 100 * ((scaled + 50) / 100) + (scaled + 50) % 100 == scaled + 50;
  }

  // ---------- Lines ----------

  function Sum(lines: seq<Line>): int {
    if lines == [] then 0 else Sum(lines[..|lines| - 1]) + lines[|lines| - 1].subtotal
  }

  /** The lines of one quote, summed up. */
  function SumOf(lines: seq<Line>, id: nat): int {
    if lines == [] then 0
    else
      var last := lines[|lines| - 1];
      SumOf(lines[..|lines| - 1], id) + if last.quote == id then last.subtotal else 0
  }

  lemma {:induction false} SumOfConcat(a: seq<Line>, b: seq<Line>, id: nat)
    ensures SumOf(a + b, id) == SumOf(a, id) + SumOf(b, id)
    decreases |b|
  {
    if b == [] {
      assert a + b == a;
    } else {
      assert (a + b)[..|a + b| - 1] == a + b[..|b| - 1];
      SumOfConcat(a, b[..|b| - 1], id);
    }
  }

  lemma {:induction false} SumOfOwn(lines: seq<Line>, id: nat, other: nat)
    requires forall l | l in lines :: l.quote == id
    ensures SumOf(lines, other) == if other == id then Sum(lines) else 0
  {
    if lines != [] {
      SumOfOwn(lines[..|lines| - 1], id, other);
    }
  }

  lemma {:induction false} SumOfNone(lines: seq<Line>, id: nat)
    requires forall l | l in lines :: l.quote != id
    ensures SumOf(lines, id) == 0
  {
    if lines != [] {
      SumOfNone(lines[..|lines| - 1], id);
    }
  }

  predicate Sellable(products: map<int, Product>, item: Item) {
    item.quantity > 0 && item.product in products && products[item.product].active
  }

  predicate AllSellable(products: map<int, Product>, items: seq<Item>) {
    forall i | 0 <= i < |items| :: Sellable(products, items[i])
  }

  function LineFor(products: map<int, Product>, id: nat, item: Item): Line
    requires Sellable(products, item)
  {
    var price := products[item.product].price;
    Line(id, item.product, item.quantity, price, price * item.quantity)
  }

  /** The lines of a quote, at the prices in the database. */
  function LinesFor(products: map<int, Product>, id: nat, items: seq<Item>): (lines: seq<Line>)
    requires AllSellable(products, items)
  {
    seq(|items|, i requires 0 <= i < |items| => LineFor(products, id, items[i]))
  }

  function Numbered(lines: seq<Line>, id: nat): seq<Line> {
    seq(|lines|, i requires 0 <= i < |lines| => lines[i].(quote := id))
  }

  lemma {:induction false} SumOfNumbered(lines: seq<Line>, id: nat)
    ensures Sum(Numbered(lines, id)) == Sum(lines)
  {
    if lines != [] {
      SumOfNumbered(lines[..|lines| - 1], id);
      assert Numbered(lines, id)[..|lines| - 1] == Numbered(lines[..|lines| - 1], id);
    }
  }

  lemma {:induction false} SumIsNatural(lines: seq<Line>)
    requires forall i | 0 <= i < |lines| :: lines[i].subtotal >= 0
    ensures Sum(lines) >= 0
  {
    if lines != [] {
      SumIsNatural(lines[..|lines| - 1]);
    }
  }

  /** Lines priced before their quote has a number are the quote's lines once they have it. */
  lemma NumberedLines(products: map<int, Product>, id: nat, items: seq<Item>)
    requires AllSellable(products, items)
    ensures var a, b := LinesFor(products, 0, items), LinesFor(products, id, items);
            && b == Numbered(a, id) && 0 <= Sum(a) == Sum(b)
            && forall i | 0 <= i < |items| :: a[i].quantity == items[i].quantity
  {
    var a := LinesFor(products, 0, items);
    forall i | 0 <= i < |items| ensures a[i].subtotal >= 0 {
      assert Sellable(products, items[i]);
    }
    SumIsNatural(a);
    SumOfNumbered(a, id);
    assert LinesFor(products, id, items) == Numbered(a, id);
  }

  // ---------- The database ----------

  /** A quote agrees with its lines and with itself. */
  predicate Balanced(lines: seq<Line>, q: Quote) {
    && ValidPercent(q.percent)
    && SumOf(lines, q.id) == q.subtotal
    && q.discount == Discount(q.subtotal, q.percent)
    && q.discount + q.total == q.subtotal
    && 0 <= q.total <= q.subtotal
  }

  predicate Consistent(quotes: seq<Quote>, lines: seq<Line>, nextId: nat) {
    && (forall i, j | 0 <= i < j < |quotes| :: quotes[i].id < quotes[j].id)
    && (forall q | q in quotes :: q.id < nextId && Balanced(lines, q))
    && (forall l | l in lines :: exists q :: q in quotes && q.id == l.quote)
  }

  predicate OfQuote(lines: seq<Line>, id: nat) {
    forall i | 0 <= i < |lines| :: lines[i].quote == id
  }

  lemma StoredKeepsConsistent(quotes: seq<Quote>, lines: seq<Line>, nextId: nat, q: Quote, added: seq<Line>)
    requires Consistent(quotes, lines, nextId) && q.id == nextId && ValidPercent(q.percent)
    requires OfQuote(added, q.id) && q.subtotal == Sum(added) >= 0
    requires q.discount == Discount(q.subtotal, q.percent) && q.total == q.subtotal - q.discount
    ensures Consistent(quotes + [q], lines + added, nextId + 1)
  {
    DiscountIsHalfUp(q.subtotal, q.percent, q.discount);
    forall p | p in quotes + [q] ensures Balanced(lines + added, p) {
      SumOfConcat(lines, added, p.id);
      SumOfOwn(added, q.id, p.id);
      if p == q {
        forall l | l in lines ensures l.quote != q.id {
          var r :| r in quotes && r.id == l.quote;
        }
        SumOfNone(lines, q.id);
      }
    }
    forall l | l in lines + added ensures exists r :: r in quotes + [q] && r.id == l.quote {
      if l in lines {
        var r :| r in quotes && r.id == l.quote;
        assert r in quotes + [q];
      } else {
        assert q in quotes + [q];
      }
    }
  }

  class Database {
    const customers: set<int>
    /** Whether a user is staff. */
    const users: map<int, bool>
    const products: map<int, Product>
    var quotes: seq<Quote>
    var lines: seq<Line>
    /** The number AUTOINCREMENT hands out next. */
    var nextId: nat

    ghost predicate Valid()
      reads this
    {
      Consistent(quotes, lines, nextId)
    }

    constructor (customers: set<int>, users: map<int, bool>, products: map<int, Product>)
      ensures Valid() && quotes == [] && lines == []
      ensures this.customers == customers && this.users == users && this.products == products
    {
      this.customers, this.users, this.products := customers, users, products;
      quotes, lines, nextId := [], [], 1;
    }

    /** What the caller may ask for. */
    ghost predicate Acceptable(customer: int, creator: int, items: seq<Item>, percent: int) {
      && ValidPercent(percent) && items != []
      && Fits(customer) && customer in customers
      && Fits(creator) && creator in users && users[creator]
      && AllSellable(products, items)
      && (forall i | 0 <= i < |items| :: Fits(items[i].quantity) && Fits(items[i].product))
      && Fits(Sum(LinesFor(products, 0, items)))
    }

    /** The loop that reads prices again and adds up; the lines do not have their quote's number yet. */
    method Price(items: seq<Item>) returns (refused: Option<Result>, computed: seq<Line>, subtotal: int)
      ensures refused.None? <==>
                AllSellable(products, items) && forall i | 0 <= i < |items| :: Fits(items[i].product)
      ensures refused.None? ==> computed == LinesFor(products, 0, items) && subtotal == Sum(computed)
      ensures refused.Some? ==>
                refused.value.DatabaseError? || (!AllSellable(products, items) && refused.value.BadLine())
    {
      refused, computed, subtotal := None, [], 0;
      for i := 0 to |items|
        invariant AllSellable(products, items[..i]) && forall k | 0 <= k < i :: Fits(items[k].product)
        invariant computed == LinesFor(products, 0, items[..i]) && subtotal == Sum(computed)
      {
        var item := items[i];
        if item.quantity <= 0 { return Some(BadQuantity), computed, subtotal; }
        if !Fits(item.product) { return Some(DatabaseError), computed, subtotal; }
        if item.product !in products || !products[item.product].active {
          return Some(BadProduct), computed, subtotal;
        }
        assert forall k | 0 <= k < i :: items[..i + 1][k] == items[..i][k];
        var line := LineFor(products, 0, item);
        assert (computed + [line])[..|computed|] == computed;
        computed, subtotal := computed + [line], subtotal + line.subtotal;
      }
      assert items[..|items|] == items;
    }

    /** `executemany` over the lines; `fault` is the line whose statement raises. */
    method InsertLines(id: nat, computed: seq<Line>, fault: Option<nat>) returns (ok: bool)
      modifies this`lines
      ensures ok <==>
                && (fault.None? || fault.value >= |computed|)
                && forall i | 0 <= i < |computed| :: Fits(computed[i].quantity)
      ensures ok ==> lines == old(lines) + Numbered(computed, id)
    {
      for i := 0 to |computed|
        invariant fault.None? || fault.value >= i
        invariant forall k | 0 <= k < i :: Fits(computed[k].quantity)
        invariant lines == old(lines) + Numbered(computed, id)[..i]
      {
        if fault == Some(i) || !Fits(computed[i].quantity) { return false; }
        lines := lines + [computed[i].(quote := id)];
      }
      return true;
    }

    /** The inserts of a quote and of its lines. */
    method Insert(quote: Quote, computed: seq<Line>, fault: Option<nat>) returns (ok: bool)
      requires quote.id == nextId
      modifies this
      ensures ok <==>
                && Fits(quote.subtotal) && (forall i | 0 <= i < |computed| :: Fits(computed[i].quantity))
                && (fault.None? || fault.value > |computed|)
      ensures ok ==>
                && quotes == old(quotes) + [quote] && lines == old(lines) + Numbered(computed, quote.id)
                && nextId == quote.id + 1
    {
      if fault == Some(0) || !Fits(quote.subtotal) { return false; }
      quotes, nextId := quotes + [quote], nextId + 1;
      ok := InsertLines(quote.id, computed, if fault.Some? then Some(fault.value - 1) else None);
    }

    /** The inserts and the COMMIT, or a rollback. */
    method Store(customer: int, creator: int, items: seq<Item>, percent: int, computed: seq<Line>, subtotal: int,
                 fault: Option<nat>)
      returns (result: Result)
      requires Valid() && ValidPercent(percent) && AllSellable(products, items)
      requires computed == LinesFor(products, 0, items) && subtotal == Sum(computed)
      modifies this
      ensures Valid()
      ensures result.Stored? <==>
                && Fits(subtotal) && (forall i | 0 <= i < |items| :: Fits(items[i].quantity))
                && (fault.None? || fault.value > |items| + 1)
      ensures !result.Stored? ==> quotes == old(quotes) && lines == old(lines) && nextId == old(nextId)
      ensures result.Stored? ==> Added(old(quotes), old(lines), result.id, customer, creator, items, percent)
      ensures if result.Stored? then result.id == old(nextId) else result.DatabaseError?
    {
      var savedQuotes, savedLines, savedId := quotes, lines, nextId;
      NumberedLines(products, savedId, items);
      var discount := Discount(subtotal, percent);
      var quote := Quote(nextId, customer, creator, percent, subtotal, discount, subtotal - discount);
      StoredKeepsConsistent(quotes, lines, nextId, quote, Numbered(computed, nextId));
      var ok := Insert(quote, computed, fault);
      if !ok || fault == Some(|items| + 1) {
        quotes, lines, nextId := savedQuotes, savedLines, savedId;
        return DatabaseError;
      }
      return Stored(quote.id);
    }

    /** One quote more, with the lines asked for, at the prices in the database. */
    ghost predicate Added(before: seq<Quote>, linesBefore: seq<Line>, id: nat, customer: int, creator: int,
                          items: seq<Item>, percent: int)
      reads this
      requires AllSellable(products, items)
    {
      && lines == linesBefore + LinesFor(products, id, items)
      && |quotes| == |before| + 1 && quotes[..|before|] == before
      && var q := quotes[|before|];
         && q.id == id && q.customer == customer && q.creator == creator && q.percent == percent
         && q.subtotal == Sum(LinesFor(products, id, items))
    }

    /** A refusal names the first check that fails. */
    ghost predicate ReasonIs(r: Result, customer: int, creator: int, items: seq<Item>, percent: int) {
      && (r.BadDiscount? <==> !ValidPercent(percent))
      && (r.NoLines? <==> ValidPercent(percent) && items == [])
      && (r.NoCustomer? <==> ValidPercent(percent) && items != [] && Fits(customer) && customer !in customers)
      && (r.NotStaff? <==>
            && ValidPercent(percent) && items != [] && Fits(customer) && customer in customers
            && Fits(creator) && !(creator in users && users[creator]))
      && (r.BadLine() ==> customer in customers && creator in users && !AllSellable(products, items))
    }

    /** The checks in front of the lines. */
    method Check(customer: int, creator: int, items: seq<Item>, percent: int) returns (refused: Option<Result>)
      ensures refused.None? <==>
                && ValidPercent(percent) && items != []
                && Fits(customer) && customer in customers
                && Fits(creator) && creator in users && users[creator]
      ensures refused.Some? ==>
                !refused.value.Stored? && ReasonIs(refused.value, customer, creator, items, percent)
    {
      if !ValidPercent(percent) { return Some(BadDiscount); }
      if items == [] { return Some(NoLines); }
      if !Fits(customer) { return Some(DatabaseError); }
      if customer !in customers { return Some(NoCustomer); }
      if !Fits(creator) { return Some(DatabaseError); }
      return if creator in users && users[creator] then None else Some(NotStaff);
    }

    /**
     * `persist_quote_transactional`; `fault` is the write that raises: the quote's own INSERT, those of its
     * lines, or the COMMIT behind them.
     */
    method Persist(customer: int, creator: int, items: seq<Item>, percent: int, fault: Option<nat>)
      returns (result: Result)
      requires Valid()
      modifies this
      ensures Valid()
      ensures result.Stored? <==>
                Acceptable(customer, creator, items, percent) && (fault.None? || fault.value > |items| + 1)
      ensures !result.Stored? ==> quotes == old(quotes) && lines == old(lines) && nextId == old(nextId)
      ensures result.Stored? ==>
                && result.id == old(nextId)
                && Added(old(quotes), old(lines), result.id, customer, creator, items, percent)
      ensures ReasonIs(result, customer, creator, items, percent)
    {
      var refused := Check(customer, creator, items, percent);
      if refused.Some? { return refused.value; }
      var computed, subtotal;
      refused, computed, subtotal := Price(items);
      if refused.Some? { return refused.value; }
      result := Store(customer, creator, items, percent, computed, subtotal, fault);
    }
  }
}
