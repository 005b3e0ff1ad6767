/** The columns of order_db: which values they admit, and how money and keys pass through them. */
module Columns {
  import opened Results
  import opened GoInt
  import opened Text
  import opened Bags
  import opened Money
  import opened Orders

  /** A uuid. Only equality and the order used by ORDER BY matter. */
  type Uuid = nat

  /** DECIMAL(10, 2), counted in hundredths. */
  type Decimal = n: int | -9_999_999_999 <= n <= 9_999_999_999

  type Int4 = n: int | -0x8000_0000 <= n < 0x8000_0000

  const KEY_LIMIT := 255

  datatype OrderRow = OrderRow(
    id: Uuid, user: Uuid, total: Decimal, status: Status, key: string,
    version: Int4, createdAt: int, updatedAt: int)

  datatype ItemRow = ItemRow(id: Uuid, orderId: Uuid, product: Uuid, quantity: Int4, price: Decimal)

  /** What the service does not decide: the size of its connection pool, and which texts the
      database accepts as a uuid. */
  datatype Config = Config(poolSize: nat, cast: string -> Option<Uuid>)

  // ----- writing

  /** The numeric denoted by a text with two decimals. */
  function NumericIn(text: string): Option<int> {
    var (major, minor) := CutAtPoint(TrimPrefix(text, '-'));
    if major != "" && AllDigits(major) && AllDigits(minor) && |minor| == 2 then
      var magnitude := 100 * Value(major) + Value(minor);
      Some((if text[0] == '-' then -1 else 1) * magnitude)
    else None
  }

  /** `$n::numeric` stored in a DECIMAL(10, 2) column: a larger amount is a field overflow. */
  function DecimalIn(text: string): Option<Decimal> {
    match NumericIn(text)
    case Some(n) => if -9_999_999_999 <= n <= 9_999_999_999 then Some(n) else None
    case None => None
  }

  /** A text stored in a VARCHAR(255) column: a longer text is refused, unless everything beyond
      the limit is spaces, which are cut off. */
  function StoredKey(key: string): Option<string> {
    if |key| <= KEY_LIMIT then Some(key)
    else if forall i | KEY_LIMIT <= i < |key| :: key[i] == ' ' then Some(key[..KEY_LIMIT])
    else None
  }

  /** The column stores this key under another text. */
  predicate IsCut(key: string) {
    StoredKey(key).Some? && StoredKey(key) != Some(key)
  }

  /** The row of an order, or None when a cast or a constraint of the table refuses it. */
  function MakeOrderRow(cfg: Config, d: Draft, id: Uuid, now: int): Option<OrderRow> {
    var user := cfg.cast(d.user);
    var total := DecimalIn(Canonical(d.total as int));
    var key := StoredKey(d.key);
    if user.Some? && total.Some? && total.value > 0 && key.Some?
    then Some(OrderRow(id, user.value, total.value, d.status, key.value, 0, now, now))
    else None
  }

  /** The row of an item, or None when a cast or a constraint of the table refuses it. */
  function MakeItemRow(cfg: Config, l: Line<string>, orderId: Uuid, id: Uuid): Option<ItemRow> {
    var product := cfg.cast(l.product);
    var price := DecimalIn(Canonical(l.price as int));
    if product.Some? && price.Some? && price.value >= 0 && 0 < l.quantity < 0x8000_0000
    then Some(ItemRow(id, orderId, product.value, l.quantity as int, price.value))
    else None
  }

  // ----- reading

  /** An order and its lines as they are loaded. */
  datatype StoredLine = StoredLine(id: Uuid, orderId: Uuid, line: Line<Uuid>)

  datatype StoredOrder = StoredOrder(
    id: Uuid, user: Uuid, total: Money, status: Status, key: string,
    version: int, createdAt: int, updatedAt: int, lines: seq<StoredLine>)

  /** The text of a DECIMAL(10, 2) column. */
  function NumericOut(n: Decimal): string { Canonical(n) }

  /** The loaded form of a row whose amounts are taken over as they are, still without lines. */
  function Head(row: OrderRow): StoredOrder {
    StoredOrder(row.id, row.user, row.total as Money, row.status, row.key,
                row.version, row.createdAt, row.updatedAt, [])
  }

  function LoadedLine(row: ItemRow): StoredLine {
    StoredLine(row.id, row.orderId, Line(row.product, row.quantity as int64, row.price as Money))
  }

  function LoadedLines(rows: seq<ItemRow>): seq<StoredLine> {
    Image(LoadedLine, rows)
  }

  /** The lines themselves, without the ids the database gave them. */
  function Bare(lines: seq<StoredLine>): seq<Line<Uuid>> {
    Image((l: StoredLine) => l.line, lines)
  }

  /** scanOrder: no row is ErrOrderNotFound, and the total is parsed from its text. */
  function ScanResult(row: Option<OrderRow>): Result<StoredOrder> {
    match row
    case None => Err(OrderNotFound)
    case Some(r) =>
      match Parse(NumericOut(r.total))
      case Ok(total) => Ok(Head(r).(total := total))
      case Err(e) => Err(e)
  }

  /** attachItems: every price is parsed from its text; the first bad one ends it. */
  function AttachResult(rows: seq<ItemRow>): Result<seq<StoredLine>> {
    if rows == [] then Ok([])
    else
      var front, last := AttachResult(rows[..|rows| - 1]), rows[|rows| - 1];
      if front.Err? then front
      else
        match Parse(NumericOut(last.price))
        case Ok(price) =>
          var line := Line(last.product, last.quantity as int64, price);
          Ok(front.value + [StoredLine(last.id, last.orderId, line)])
        case Err(e) => Err(e)
  }

  /** SELECT ... WHERE order_id = ..., in the order in which the rows were inserted. */
  function ItemsOf(items: seq<ItemRow>, orderId: Uuid): seq<ItemRow> {
    if items == [] then []
    else
      var front, last := ItemsOf(items[..|items| - 1], orderId), items[|items| - 1];
      if last.orderId == orderId then front + [last] else front
  }

  /** ORDER BY id. */
  function SortById(rows: seq<ItemRow>): seq<ItemRow> {
    if rows == [] then [] else InsertById(SortById(rows[..|rows| - 1]), rows[|rows| - 1])
  }

  function InsertById(sorted: seq<ItemRow>, row: ItemRow): seq<ItemRow> {
    if sorted == [] || sorted[|sorted| - 1].id <= row.id then sorted + [row]
    else InsertById(sorted[..|sorted| - 1], row) + [sorted[|sorted| - 1]]
  }

  // ----- what survives a round trip

  /** An amount written as text arrives in the column unchanged, or is refused. */
  lemma AmountsAreStoredExactly(n: int)
    ensures DecimalIn(Canonical(n)) == if Abs(n) <= 9_999_999_999 then Some(n) else None
  {
    hide TrimBoth;
    CanonicalParts(n);
    assert NumericIn(Canonical(n)) == Some(n);
  }

  /** Every amount a column can hold is read back unchanged, so loading never meets bad money. */
  lemma StoredAmountsLoadExactly(n: Decimal)
    ensures Parse(NumericOut(n)) == Ok(n as Money)
  {
    ParseOfString(n);
  }

  lemma RowsLoad(row: OrderRow)
    ensures ScanResult(Some(row)) == Ok(Head(row))
  {
    StoredAmountsLoadExactly(row.total);
  }

  lemma {:induction false} LinesLoad(rows: seq<ItemRow>)
    ensures AttachResult(rows) == Ok(LoadedLines(rows))
  {
    hide Parse;
    if rows == [] {
      assert LoadedLines(rows) == [];
    } else {
      var front, last := rows[..|rows| - 1], rows[|rows| - 1];
      LinesLoad(front);
      StoredAmountsLoadExactly(last.price);
      assert LoadedLines(rows) == LoadedLines(front) + [LoadedLine(last)];
    }
  }

  /** The row holds what the draft says, as far as the database does not decide it. */
  predicate IsRowOf(cfg: Config, d: Draft, row: OrderRow) {
    && cfg.cast(d.user) == Some(row.user)
    && row.total == d.total as int && row.status == d.status
    && StoredKey(d.key) == Some(row.key)
    && row.version == 0 && row.createdAt == row.updatedAt
  }

  predicate IsItemOf(cfg: Config, l: Line<string>, orderId: Uuid, row: ItemRow) {
    && row.orderId == orderId
    && cfg.cast(l.product) == Some(row.product)
    && row.quantity == l.quantity as int && row.price == l.price as int
  }

  /** Whatever the orders table admits, money included, it stores as submitted. */
  lemma StoredRowsKeepTheOrder(cfg: Config, d: Draft, id: Uuid, now: int)
    requires MakeOrderRow(cfg, d, id, now).Some?
    ensures var row := MakeOrderRow(cfg, d, id, now).value;
            row.id == id && IsRowOf(cfg, d, row)
  {
    AmountsAreStoredExactly(d.total as int);
  }

  lemma StoredRowsKeepTheLine(cfg: Config, l: Line<string>, orderId: Uuid, id: Uuid)
    requires MakeItemRow(cfg, l, orderId, id).Some?
    ensures var row := MakeItemRow(cfg, l, orderId, id).value;
            row.id == id && IsItemOf(cfg, l, orderId, row)
  {
    AmountsAreStoredExactly(l.price as int);
  }

  /** A key is stored as it is exactly when it fits the column. A longer one that has nothing but
      spaces beyond the limit is cut there, and any other is refused. */
  lemma KeysFitOrChange(key: string)
    ensures StoredKey(key) == Some(key) <==> |key| <= 255
    ensures IsCut(key) <==> |key| > 255 && forall i | 255 <= i < |key| :: key[i] == ' '
    ensures IsCut(key) ==> StoredKey(key) == Some(key[..255])
    ensures StoredKey(key).Some? ==> |StoredKey(key).value| <= 255
  {
  }

  /** The orders table admits exactly the drafts with a uuid as their owner, a positive total that
      fits DECIMAL(10, 2), and a key of at most 255 characters, spaces beyond that aside. */
  lemma AdmittedOrderRows(cfg: Config, d: Draft, id: Uuid, now: int)
    ensures MakeOrderRow(cfg, d, id, now).Some? <==>
              && cfg.cast(d.user).Some?
              && 0 < d.total <= 9_999_999_999
              && forall i | 255 <= i < |d.key| :: d.key[i] == ' '
  {
    hide DecimalIn, Canonical;
    AmountsAreStoredExactly(d.total as int);
  }

  /** The items table admits exactly the lines with a uuid as their product, a positive quantity that
      fits INT, and a price from zero on that fits DECIMAL(10, 2). */
  lemma AdmittedItemRows(cfg: Config, l: Line<string>, orderId: Uuid, id: Uuid)
    ensures MakeItemRow(cfg, l, orderId, id).Some? <==>
              && cfg.cast(l.product).Some?
              && 0 < l.quantity <= 2_147_483_647
              && 0 <= l.price <= 9_999_999_999
  {
    hide DecimalIn, Canonical;
    AmountsAreStoredExactly(l.price as int);
  }

  // ----- selecting and sorting items

  lemma {:induction false} ItemsOfConcat(a: seq<ItemRow>, b: seq<ItemRow>, orderId: Uuid)
    ensures ItemsOf(a + b, orderId) == ItemsOf(a, orderId) + ItemsOf(b, orderId)
  {
    if b == [] {
      assert a + b == a;
    } else {
      assert (a + b)[..|a + b| - 1] == a + b[..|b| - 1];
      ItemsOfConcat(a, b[..|b| - 1], orderId);
    }
  }

  lemma {:induction false} ItemsOfOthers(items: seq<ItemRow>, orderId: Uuid)
    requires forall i | 0 <= i < |items| :: items[i].orderId != orderId
    ensures ItemsOf(items, orderId) == []
  {
    if items != [] { ItemsOfOthers(items[..|items| - 1], orderId); }
  }

  lemma {:induction false} ItemsOfOwn(items: seq<ItemRow>, orderId: Uuid)
    requires forall i | 0 <= i < |items| :: items[i].orderId == orderId
    ensures ItemsOf(items, orderId) == items
  {
    if items != [] { ItemsOfOwn(items[..|items| - 1], orderId); }
  }

  predicate DistinctIds(rows: seq<ItemRow>) {
    forall i, j | 0 <= i < j < |rows| :: rows[i].id != rows[j].id
  }

  predicate Ascending(rows: seq<ItemRow>) {
    forall i, j | 0 <= i < j < |rows| :: rows[i].id < rows[j].id
  }

  lemma {:induction false} InsertKeepsRows(sorted: seq<ItemRow>, row: ItemRow)
    ensures multiset(InsertById(sorted, row)) == multiset(sorted) + multiset{row}
  {
    if sorted == [] || sorted[|sorted| - 1].id <= row.id {
    } else {
      var front, last := sorted[..|sorted| - 1], sorted[|sorted| - 1];
      InsertKeepsRows(front, row);
      assert sorted == front + [last];
    }
  }

  lemma {:induction false} InsertKeepsOrder(sorted: seq<ItemRow>, row: ItemRow)
    requires Ascending(sorted)
    requires forall i | 0 <= i < |sorted| :: sorted[i].id != row.id
    ensures Ascending(InsertById(sorted, row))
    ensures InsertById(sorted, row) != []
    ensures var last := InsertById(sorted, row)[|InsertById(sorted, row)| - 1];
            last == row || (sorted != [] && last == sorted[|sorted| - 1])
  {
    if sorted == [] || sorted[|sorted| - 1].id <= row.id {
    } else {
      InsertKeepsOrder(sorted[..|sorted| - 1], row);
    }
  }

  lemma {:induction false} SortKeepsRows(rows: seq<ItemRow>)
    ensures multiset(SortById(rows)) == multiset(rows)
  {
    if rows != [] {
      var front, last := rows[..|rows| - 1], rows[|rows| - 1];
      SortKeepsRows(front);
      assert rows == front + [last];
      InsertKeepsRows(SortById(front), last);
    }
  }

  /** ORDER BY id returns the same rows, by ascending id. */
  lemma {:induction false} SortIsAPermutation(rows: seq<ItemRow>)
    ensures multiset(SortById(rows)) == multiset(rows)
    ensures DistinctIds(rows) ==> Ascending(SortById(rows))
  {
    SortKeepsRows(rows);
    if rows != [] && DistinctIds(rows) {
      var front, last := rows[..|rows| - 1], rows[|rows| - 1];
      var sorted := SortById(front);
      SortIsAPermutation(front);
      forall i | 0 <= i < |sorted| ensures sorted[i].id != last.id {
        assert sorted[i] in multiset(front);
      }
      InsertKeepsOrder(sorted, last);
    }
  }

  /** Two arrangements of the same rows load as two arrangements of the same lines. */
  lemma LoadingIgnoresOrder(a: seq<ItemRow>, b: seq<ItemRow>)
    requires multiset(a) == multiset(b)
    ensures multiset(Bare(LoadedLines(a))) == multiset(Bare(LoadedLines(b)))
  {
    var f := (row: ItemRow) => LoadedLine(row).line;
    ImagesOfArrangements(f, a, b);
    assert Bare(LoadedLines(a)) == Image(f, a);
    assert Bare(LoadedLines(b)) == Image(f, b);
  }
}
