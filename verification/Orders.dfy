/** The order aggregate: what a client submits, and the total the service computes for it. */
module Orders {
  import opened Results
  import opened GoInt
  import opened Bags
  import opened Money

  datatype Status =
    | Pending | InventoryReserved | PaymentProcessing | Completed
    | PaymentFailed | InventoryInsufficient | Cancelled

  /** One line. `I` is the type of product ids: text as submitted, a uuid once stored. */
  datatype Line<I> = Line(product: I, quantity: int64, price: Money) {
    function Subtotal(): Money { Mul(price, quantity) }
  }

  /** Money.Mul: int64 multiplication. */
  function Mul(m: Money, quantity: int64): Money { Wrap(m as int * quantity as int) }

  /** A validated order that is not stored yet: the database has not given it an id. */
  datatype Draft = Draft(user: string, key: string, total: Money, status: Status, lines: seq<Line<string>>)

  /** The sum of price times quantity over unbounded integers. */
  function TrueSum<I>(lines: seq<Line<I>>): int {
    if lines == [] then 0
    else
      var last := lines[|lines| - 1];
      TrueSum(lines[..|lines| - 1]) + last.price as int * last.quantity as int
  }

  predicate LineIsSane(l: Line<string>) {
    l.product != "" && l.quantity > 0 && l.price >= 0
  }

  /** The orders that NewOrder lets through. */
  predicate Acceptable(user: string, key: string, lines: seq<Line<string>>) {
    && user != "" && key != "" && lines != []
    && (forall i | 0 <= i < |lines| :: LineIsSane(lines[i]))
    && Wrap(TrueSum(lines)) > 0
  }

  function NewOrderResult(user: string, key: string, lines: seq<Line<string>>): Result<Draft> {
    if Acceptable(user, key, lines)
    then Ok(Draft(user, key, Wrap(TrueSum(lines)), Pending, lines))
    else Err(InvalidOrder)
  }

  /** The rules that an order must meet, and what becomes of it. */
  lemma OrderRules(user: string, key: string, lines: seq<Line<string>>)
    ensures var r := NewOrderResult(user, key, lines);
            && (r.Ok? <==>
                  && user != "" && key != "" && lines != []
                  && (forall i | 0 <= i < |lines| ::
                        lines[i].product != "" && lines[i].quantity > 0 && lines[i].price >= 0)
                  && Wrap(TrueSum(lines)) > 0)
            && (r.Ok? ==>
                  && r.value.user == user && r.value.key == key && r.value.lines == lines && r.value.status == Pending
                  && r.value.total > 0 && (TrueSum(lines) - r.value.total as int) % 0x1_0000_0000_0000_0000 == 0)
            && (r.Err? ==> r.error == InvalidOrder)
  {
    hide Wrap, TrueSum;
    WrapIsUnique(TrueSum(lines), Wrap(TrueSum(lines)));
  }

  /** NewOrder: an order is accepted exactly when it is acceptable, and its total is the true sum
      of its lines cut down to 64 bits. */
  method NewOrder(user: string, key: string, lines: seq<Line<string>>) returns (r: Result<Draft>)
    ensures r == NewOrderResult(user, key, lines)
  {
    if user == "" { return Err(InvalidOrder); }
    if key == "" { return Err(InvalidOrder); }
    if |lines| == 0 { return Err(InvalidOrder); }

    var total: Money := 0;
    for i := 0 to |lines|
      invariant forall j | 0 <= j < i :: LineIsSane(lines[j])
      invariant total == Wrap(TrueSum(lines[..i]))
    {
      var item := lines[i];
      if item.product == "" { return Err(InvalidOrder); }
      if item.quantity <= 0 { return Err(InvalidOrder); }
      if item.price < 0 { return Err(InvalidOrder); }
      AccumulatedTotal(lines[..i], item);
      assert lines[..i + 1] == lines[..i] + [item];
      total := Wrap(total as int + item.Subtotal() as int);
    }
    assert lines[..|lines|] == lines;
    if total <= 0 { return Err(InvalidOrder); }

    return Ok(Draft(user, key, total, Pending, lines));
  }

  /** One step of the accumulation in int64 follows one step of the true sum. */
  lemma AccumulatedTotal<I>(lines: seq<Line<I>>, l: Line<I>)
    ensures Wrap(Wrap(TrueSum(lines)) as int + l.Subtotal() as int) == Wrap(TrueSum(lines + [l]))
  {
    var sum, product := TrueSum(lines), l.price as int * l.quantity as int;
    assert (lines + [l])[..|lines|] == lines;
    WrapAbsorbs(sum, Wrap(product) as int);
    WrapAbsorbs(product, sum);
  }

  /** Adding int64 amounts one after the other, as a client of the service would. */
  function AddUp(amounts: seq<Money>): Money {
    if amounts == [] then 0
    else Wrap(AddUp(amounts[..|amounts| - 1]) as int + amounts[|amounts| - 1] as int)
  }

  function Subtotals<I>(lines: seq<Line<I>>): seq<Money> {
    Image((l: Line<I>) => l.Subtotal(), lines)
  }

  lemma {:induction false} AddedSubtotals<I>(lines: seq<Line<I>>)
    ensures AddUp(Subtotals(lines)) == Wrap(TrueSum(lines))
  {
    if lines != [] {
      var front, last := lines[..|lines| - 1], lines[|lines| - 1];
      AddedSubtotals(front);
      assert Subtotals(lines)[..|lines| - 1] == Subtotals(front);
      AccumulatedTotal(front, last);
      assert lines == front + [last];
    }
  }

  /** The order of the lines has no influence on their sum. */
  lemma {:induction false} SumIgnoresOrder<I>(a: seq<Line<I>>, b: seq<Line<I>>)
    requires multiset(a) == multiset(b)
    ensures TrueSum(a) == TrueSum(b)
  {
    if a == [] {
      assert |multiset(b)| == 0;
    } else {
      var k := Locate(a, b);
      SumIgnoresOrder(a[..|a| - 1], Without(b, k));
      SumWithout(b, k);
    }
  }

  lemma {:induction false} SumWithout<I>(b: seq<Line<I>>, k: nat)
    requires k < |b|
    ensures TrueSum(b) == TrueSum(Without(b, k)) + b[k].price as int * b[k].quantity as int
  {
    var rest := Without(b, k);
    if k == |b| - 1 {
      assert rest == b[..k];
    } else {
      var front := b[..|b| - 1];
      SumWithout(front, k);
      assert rest[..|rest| - 1] == Without(front, k);
      assert rest[|rest| - 1] == b[|b| - 1];
    }
  }

  /** A subtotal is price times quantity exactly when that product fits in an int64. */
  lemma SubtotalIsExactInInt64<I>(l: Line<I>)
    ensures l.Subtotal() as int == l.price as int * l.quantity as int
            <==> MIN_INT64 as int <= l.price as int * l.quantity as int <= MAX_INT64 as int
  {
    WrapIsExact(l.price as int * l.quantity as int);
  }

  /** The stored total is the sum of the lines exactly when that sum fits in an int64. */
  lemma TotalIsExactUpTo63Bits(user: string, key: string, lines: seq<Line<string>>)
    requires NewOrderResult(user, key, lines).Ok?
    ensures NewOrderResult(user, key, lines).value.total as int == TrueSum(lines)
            <==> TrueSum(lines) <= MAX_INT64 as int
  {
    SumOfSaneLines(lines);
    WrapIsExact(TrueSum(lines));
  }

  lemma {:induction false} SumOfSaneLines(lines: seq<Line<string>>)
    requires forall i | 0 <= i < |lines| :: LineIsSane(lines[i])
    ensures TrueSum(lines) >= 0
  {
    if lines != [] {
      var last := lines[|lines| - 1];
      SumOfSaneLines(lines[..|lines| - 1]);
      assert last.price as int * last.quantity as int >= 0;
    }
  }

  /** An order whose true sum is beyond 2^64 cents passes the test for a positive total. */
  lemma AnOverflowingOrderIsAccepted()
    ensures var lines := [Line("p", 1_844_674_408, 9_999_999_999)];
            && TrueSum(lines) == 18_446_744_078_155_325_592
            && NewOrderResult("u", "k", lines) == Ok(Draft("u", "k", 4_445_773_976, Pending, lines))
  {
  }
}
