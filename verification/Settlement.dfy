/** Settlement rows: every statement is reconciled to its adjustment, orders are split over
    their items, and the summary adds up.  Amounts are whole cents. */
module Settlement {
  import opened Rounding

  /** The numeric columns, which are the ones split over line items. */
  datatype Column =
    | Total | TotalRevenue | AfterSellerDiscounts | BeforeDiscounts | SellerDiscounts | TotalFees
    | TransactionFee | CommissionFee | MerchantShipping | ActualShipping | CustomerShipping
    | AffiliateCommission | AffiliateAds | CustomsDuty | ImportVat | Sst | CustomerPayment
    | CustomerRefund | PlatformDiscounts | Adjustment

  /** A column of a row: absent from the source, or an amount in cents. */
  datatype Cell = Blank | Amount(cents: int)

  type Cells = map<Column, Cell>

  predicate ValidCells(cells: Cells) {
    (forall k: Column :: k in cells) && cells[Total].Amount?
  }

  type Columns = c: Cells | ValidCells(c) witness map k: Column | true :: Amount(0)

  /** A finance transaction, its columns read as base_row reads them. */
  datatype Tx = Tx(kind: string, orderId: string, columns: Columns)

  datatype Statement = Statement(id: string, adjustment: int, settlement: int, batch: seq<Tx>)

  /** A line item: its SKU and its sale price in cents. */
  datatype Item = Item(sku: string, price: int)

  datatype Row = Row(statement: string, title: string, orderId: string, sku: string, columns: Columns)

  /** The SKU of a row that stands for no item. */
  const NO_SKU := "/"

  function TotalOf(columns: Columns): int {
    columns[Total].cents
  }

  // ---- Labels --------------------------------------------------------------

  function Label(kind: string): string {
    if kind == "ORDER" then "Order"
    else if kind == "GMV_PAYMENT_FOR_TIKTOK_ADS" then "GMV Payment for TikTok Ads"
    else if kind == "LOGISTICS_REIMBURSEMENT" then "Logistics reimbursement"
    else if kind == "" then "Unknown"
    else kind
  }

  /** The label tells orders apart, except from a type spelt like the label itself. */
  lemma LabelIsOrderIff(kind: string)
    ensures Label(kind) == "Order" <==> kind == "ORDER" || kind == "Order"
  {
  }

  // ---- Splitting -----------------------------------------------------------

  function Portion(total: real, weight: real, sum: real): real
    requires sum != 0.0
  {
    total * weight / sum
  }

  /** split_amount */
  function Split(total: real, weights: seq<real>): (shares: seq<real>)
    ensures |shares| == |weights|
  {
    if weights == [] then []
    else if |weights| == 1 then [total]
    else
      var s := Sum(weights);
      if s == 0.0 then seq(|weights|, _ => total / |weights| as real)
      else seq(|weights|, i requires 0 <= i < |weights| => Portion(total, weights[i], s))
  }

  /** Unrounded shares add up to the total, on every branch. */
  lemma SharesSum(total: real, weights: seq<real>)
    requires weights != []
    ensures Sum(Split(total, weights)) == total
  {
    var shares, s := Split(total, weights), Sum(weights);
    if |weights| == 1 {
      assert shares[..0] == [];
    } else if s == 0.0 {
      EqualShares(shares, total / |weights| as real);
      Undivided(total, |weights| as real);
    } else {
      forall i | 0 <= i < |weights| ensures shares[i] == (total / s) * weights[i] {
        Regroup(total, weights[i], s);
      }
      hide Portion;
      SumScaled(weights, shares, total / s);
      Undivided(total, s);
    }
  }

  lemma Undivided(a: real, b: real)
    requires b != 0.0
    ensures b * (a / b) == a == (a / b) * b
  {
  }

  lemma Regroup(a: real, b: real, c: real)
    requires c != 0.0
    ensures Portion(a, b, c) == (a / c) * b
  {
  }

  lemma {:induction false} EqualShares(shares: seq<real>, x: real)
    requires forall i :: 0 <= i < |shares| ==> shares[i] == x
    ensures Sum(shares) == |shares| as real * x
  {
    if shares != [] {
      EqualShares(shares[..|shares| - 1], x);
    }
  }

  /** With non-negative weights no share exceeds the total, and all have its sign. */
  lemma SharesBounded(total: real, weights: seq<real>, i: nat)
    requires i < |weights| && forall k :: 0 <= k < |weights| ==> weights[k] >= 0.0
    requires Sum(weights) > 0.0 || |weights| == 1
    ensures var share := Split(total, weights)[i];
            if total >= 0.0 then 0.0 <= share <= total else total <= share <= 0.0
  {
    if |weights| > 1 {
      SumNonNegative(weights);
      var s := Sum(weights);
      ShareInRange(total, weights[i], s);
      hide Portion, Sum;
    }
  }

  lemma RatioInRange(w: real, s: real)
    requires 0.0 <= w <= s && s > 0.0
    ensures 0.0 <= w / s <= 1.0
  {
  }

  lemma PartInRange(total: real, r: real)
    requires 0.0 <= r <= 1.0
    ensures if total >= 0.0 then 0.0 <= total * r <= total else total <= total * r <= 0.0
  {
  }

  lemma ShareInRange(total: real, w: real, s: real)
    requires 0.0 <= w <= s && s > 0.0
    ensures var share := Portion(total, w, s);
            if total >= 0.0 then 0.0 <= share <= total else total <= share <= 0.0
  {
    hide Portion;
    RatioInRange(w, s);
    PartInRange(total, w / s);
    ProductOverSum(total, w, s);
  }

  lemma ProductOverSum(total: real, w: real, s: real)
    requires s != 0.0
    ensures Portion(total, w, s) == total * (w / s)
  {
  }

  // ---- Expanding an order --------------------------------------------------

  /** max(price, 0.01), in cents */
  function Weight(item: Item): real {
    if item.price < 1 then 1.0 else item.price as real
  }

  function Weights(items: seq<Item>): (ws: seq<real>)
    ensures |ws| == |items|
  {
    seq(|items|, i requires 0 <= i < |items| => Weight(items[i]))
  }

  /** The zero-weight branch of split_amount is never taken from an order. */
  lemma {:induction false} WeightsArePositive(items: seq<Item>)
    requires items != []
    ensures Sum(Weights(items)) > 0.0
    ensures forall i :: 0 <= i < |items| ==> Weights(items)[i] > 0.0
  {
    SumNonNegative(Weights(items));
    assert Weights(items)[0] <= Sum(Weights(items));
  }

  /** One column of one expanded row. */
  function ShareOf(cell: Cell, weights: seq<real>, i: nat, rnd: real -> int): Cell
    requires i < |weights|
  {
    if cell.Blank? then Blank else Amount(rnd(Split(cell.cents as real, weights)[i]))
  }

  function ExpandedRow(row: Row, item: Item, weights: seq<real>, i: nat, rnd: real -> int): Row
    requires i < |weights|
  {
    row.(sku := item.sku, columns := map k: Column | true :: ShareOf(row.columns[k], weights, i, rnd))
  }

  function Expanded(row: Row, items: seq<Item>, rnd: real -> int): (rows: seq<Row>)
    ensures |rows| == if items == [] then 1 else |items|
  {
    if items == [] then [row]
    else
      var weights := Weights(items);
      seq(|items|, i requires 0 <= i < |items| => ExpandedRow(row, items[i], weights, i, rnd))
  }

  /** expand_order_rows */
  method ExpandOrderRows(row: Row, items: seq<Item>, rnd: real -> int) returns (rows: seq<Row>)
    ensures rows == Expanded(row, items, rnd)
  {
    hide ExpandedRow, Weights;
    if items == [] {
      return [row];
    }
    var weights := Weights(items);
    rows := [];
    var i := 0;
    while i < |items|
      invariant 0 <= i <= |items| && |rows| == i
      invariant forall j :: 0 <= j < i ==> rows[j] == ExpandedRow(row, items[j], weights, j, rnd)
    {
      rows := rows + [ExpandedRow(row, items[i], weights, i, rnd)];
      i := i + 1;
    }
  }

  /** The cents of a column over rows, a blank counting nothing. */
  function ColumnCents(rows: seq<Row>, key: Column): seq<int>
  {
    seq(|rows|, i requires 0 <= i < |rows| =>
      var cell := rows[i].columns[key]; if cell.Blank? then 0 else cell.cents)
  }

  function Gap(a: int, b: int): nat {
    if a < b then b - a else a - b
  }

  /** Splitting conserves every numeric column to half a cent per row, exactly for a single
      row; a blank column stays blank. */
  lemma ExpansionConserves(row: Row, items: seq<Item>, rnd: real -> int, key: Column)
    requires Nearest(rnd)
    ensures row.columns[key].Blank? ==>
              forall i :: 0 <= i < |Expanded(row, items, rnd)| ==> Expanded(row, items, rnd)[i].columns[key].Blank?
    ensures row.columns[key].Amount? ==>
              var column, cents := ColumnCents(Expanded(row, items, rnd), key), row.columns[key].cents;
              && (|items| <= 1 ==> column == [cents])
              && 2 * Gap(IntSum(column), cents) <= |column|
  {
    if row.columns[key].Amount? {
      hide Split, Weights, Nearest;
      if |items| <= 1 {
        SingleRow(row, items, rnd, key);
      } else {
        SeveralRows(row, items, rnd, key);
      }
    }
  }

  lemma SeveralRows(row: Row, items: seq<Item>, rnd: real -> int, key: Column)
    requires Nearest(rnd) && row.columns[key].Amount? && items != []
    ensures 2 * Gap(IntSum(ColumnCents(Expanded(row, items, rnd), key)), row.columns[key].cents) <= |items|
  {
    hide Split, Weights, Sum, IntSum, ColumnCents, Expanded, Nearest;
    var cents, weights := row.columns[key].cents, Weights(items);
    ColumnIsRounded(row, items, rnd, key);
    SharesSum(cents as real, weights);
    RoundedSum(rnd, Split(cents as real, weights), ColumnCents(Expanded(row, items, rnd), key));
  }

  lemma SingleRow(row: Row, items: seq<Item>, rnd: real -> int, key: Column)
    requires Nearest(rnd) && row.columns[key].Amount? && |items| <= 1
    ensures var column, cents := ColumnCents(Expanded(row, items, rnd), key), row.columns[key].cents;
            column == [cents] && IntSum(column) == cents
  {
    hide Weights, Nearest;
    var cents := row.columns[key].cents;
    WholeStays(rnd, cents);
    assert [cents][..0] == [];
  }

  lemma ColumnIsRounded(row: Row, items: seq<Item>, rnd: real -> int, key: Column)
    requires row.columns[key].Amount? && items != []
    ensures var shares := Split(row.columns[key].cents as real, Weights(items));
            var column := ColumnCents(Expanded(row, items, rnd), key);
            |column| == |shares| && forall i :: 0 <= i < |shares| ==> column[i] == rnd(shares[i])
  {
    hide Split, Weights;
  }

  // ---- Statements ----------------------------------------------------------

  predicate IsOrder(tx: Tx) {
    tx.kind == "ORDER"
  }

  /** The settlement cents of the transactions that are not orders. */
  function NonOrder(txs: seq<Tx>): int {
    if txs == [] then 0
    else NonOrder(txs[..|txs| - 1]) + if IsOrder(txs[|txs| - 1]) then 0 else TotalOf(txs[|txs| - 1].columns)
  }

  /** A synthetic line: the amount as settlement and adjustment, blanks and zeros else. */
  function SyntheticCell(k: Column, amount: int): Cell {
    match k
    case Total | Adjustment => Amount(amount)
    case MerchantShipping | CustomsDuty | ImportVat | Sst => Blank
    case _ => Amount(0)
  }

  function SyntheticColumns(amount: int): Columns {
    map k: Column | true :: SyntheticCell(k, amount)
  }

  function Synthetic(st: Statement, amount: int): Tx {
    Tx("GMV_PAYMENT_FOR_TIKTOK_ADS", "stmt_adj_" + st.id, SyntheticColumns(amount))
  }

  /** What a statement contributes: its transactions and, if something is not covered by
      them, one synthetic line. */
  function TxsOf(st: Statement): seq<Tx> {
    if st.batch != [] then
      var remainder := st.adjustment - NonOrder(st.batch);
      st.batch + if remainder != 0 then [Synthetic(st, remainder)] else []
    else if st.adjustment != 0 then [Synthetic(st, st.adjustment)]
    else if st.settlement != 0 then [Synthetic(st, st.settlement)]
    else []
  }

  /** What the non-order lines of a statement must add up to. */
  function Due(st: Statement): int {
    if st.batch != [] || st.adjustment != 0 then st.adjustment else st.settlement
  }

  lemma NonOrderAppend(txs: seq<Tx>, tx: Tx)
    ensures NonOrder(txs + [tx]) == NonOrder(txs) + if IsOrder(tx) then 0 else TotalOf(tx.columns)
  {
    assert (txs + [tx])[..|txs|] == txs;
  }

  /** Every statement reconciles to the cent, with at most one synthetic line, which is
      there exactly when something was uncovered. */
  lemma StatementReconciles(st: Statement)
    ensures NonOrder(TxsOf(st)) == Due(st)
    ensures |st.batch| <= |TxsOf(st)| <= |st.batch| + 1 && st.batch <= TxsOf(st)
    ensures |TxsOf(st)| == |st.batch| + 1 <==> NonOrder(st.batch) != Due(st)
    ensures |TxsOf(st)| == |st.batch| + 1 ==> TxsOf(st)[|st.batch|] == Synthetic(st, Due(st) - NonOrder(st.batch))
  {
    if st.batch != [] {
      assert st.batch + [] == st.batch;
      NonOrderAppend(st.batch, Synthetic(st, st.adjustment - NonOrder(st.batch)));
    } else {
      assert NonOrder([]) == 0;
      NonOrderAppend([], Synthetic(st, st.adjustment));
      NonOrderAppend([], Synthetic(st, st.settlement));
      assert [] + [Synthetic(st, st.adjustment)] == [Synthetic(st, st.adjustment)];
      assert [] + [Synthetic(st, st.settlement)] == [Synthetic(st, st.settlement)];
    }
  }

  /** A synthetic line carries its amount as settlement and as adjustment and moves nothing else;
      the columns that no transaction gave stay blank. */
  lemma SyntheticMovesOnly(st: Statement, amount: int, c: Column)
    ensures var cell := Synthetic(st, amount).columns[c];
            && (c == Total || c == Adjustment ==> cell == Amount(amount))
            && (c != Total && c != Adjustment ==> cell == Amount(0) || cell.Blank?)
            && (cell.Blank? <==> c in {MerchantShipping, CustomsDuty, ImportVat, Sst})
    ensures !IsOrder(Synthetic(st, amount))
  {
  }

  // ---- Rows ----------------------------------------------------------------

  type Orders = map<string, seq<Item>>

  function BaseRow(st: Statement, tx: Tx): Row {
    Row(st.id, Label(tx.kind), tx.orderId, NO_SKU, tx.columns)
  }

  /** The rows of one transaction: split over the items of an order that was found. */
  function RowsOf(st: Statement, tx: Tx, orders: Orders, rnd: real -> int): seq<Row> {
    if IsOrder(tx) && tx.orderId in orders then Expanded(BaseRow(st, tx), orders[tx.orderId], rnd)
    else [BaseRow(st, tx)]
  }

  function RowsOfAll(st: Statement, txs: seq<Tx>, orders: Orders, rnd: real -> int): seq<Row> {
    if txs == [] then []
    else RowsOfAll(st, txs[..|txs| - 1], orders, rnd) + RowsOf(st, txs[|txs| - 1], orders, rnd)
  }

  function Collected(statements: seq<Statement>, orders: Orders, rnd: real -> int): seq<Row> {
    if statements == [] then []
    else
      var st := statements[|statements| - 1];
      Collected(statements[..|statements| - 1], orders, rnd) + RowsOfAll(st, TxsOf(st), orders, rnd)
  }

  /** The second loop of collect_shop_rows, for the lines of one statement. */
  method RowsOfLines(st: Statement, txs: seq<Tx>, orders: Orders, rnd: real -> int) returns (rows: seq<Row>)
    ensures rows == RowsOfAll(st, txs, orders, rnd)
  {
    hide Expanded, BaseRow;
    rows := [];
    var t := 0;
    while t < |txs|
      invariant 0 <= t <= |txs|
      invariant rows == RowsOfAll(st, txs[..t], orders, rnd)
    {
      var tx := txs[t];
      if IsOrder(tx) && tx.orderId in orders {
        var expanded := ExpandOrderRows(BaseRow(st, tx), orders[tx.orderId], rnd);
        rows := rows + expanded;
      } else {
        rows := rows + [BaseRow(st, tx)];
      }
      assert txs[..t + 1][..t] == txs[..t];
      t := t + 1;
    }
    assert txs[..|txs|] == txs;
  }

  /** collect_shop_rows: the lines of every statement, then the rows of every line. */
  method CollectShopRows(statements: seq<Statement>, orders: Orders, rnd: real -> int) returns (rows: seq<Row>)
    ensures rows == Collected(statements, orders, rnd)
  {
    hide TxsOf, RowsOfAll;
    rows := [];
    var s := 0;
    while s < |statements|
      invariant 0 <= s <= |statements|
      invariant rows == Collected(statements[..s], orders, rnd)
    {
      var txs := LinesOf(statements[s]);
      var more := RowsOfLines(statements[s], txs, orders, rnd);
      rows := rows + more;
      assert statements[..s + 1][..s] == statements[..s];
      s := s + 1;
    }
    assert statements[..|statements|] == statements;
  }

  /** The lines of one statement, with the covered amount summed in a loop. */
  method LinesOf(st: Statement) returns (txs: seq<Tx>)
    ensures txs == TxsOf(st)
  {
    if st.batch != [] {
      var covered, i := 0, 0;
      while i < |st.batch|
        invariant 0 <= i <= |st.batch| && covered == NonOrder(st.batch[..i])
      {
        if !IsOrder(st.batch[i]) {
          covered := covered + TotalOf(st.batch[i].columns);
        }
        assert st.batch[..i + 1][..i] == st.batch[..i];
        i := i + 1;
      }
      assert st.batch[..|st.batch|] == st.batch;
      txs := st.batch;
      var remainder := st.adjustment - covered;
      if remainder != 0 {
        txs := txs + [Synthetic(st, remainder)];
      }
    } else if st.adjustment != 0 {
      txs := [Synthetic(st, st.adjustment)];
    } else if st.settlement != 0 {
      txs := [Synthetic(st, st.settlement)];
    } else {
      txs := [];
    }
  }

  // ---- What the rows of a shop are -----------------------------------------

  /** A line of a shop: a transaction of a statement. */
  datatype Line = Line(st: Statement, tx: Tx)

  function LinesOfAll(statements: seq<Statement>): seq<Line> {
    if statements == [] then []
    else
      var st := statements[|statements| - 1];
      LinesOfAll(statements[..|statements| - 1]) + LinesIn(st, TxsOf(st))
  }

  function LinesIn(st: Statement, txs: seq<Tx>): (lines: seq<Line>)
    ensures |lines| == |txs|
  {
    seq(|txs|, i requires 0 <= i < |txs| => Line(st, txs[i]))
  }

  /** An order that was found, with items. */
  predicate Spread(tx: Tx, orders: Orders) {
    tx.kind == "ORDER" && tx.orderId in orders && orders[tx.orderId] != []
  }

  function RowCount(tx: Tx, orders: Orders): nat {
    if Spread(tx, orders) then |orders[tx.orderId]| else 1
  }

  function RowCounts(lines: seq<Line>, orders: Orders): nat {
    if lines == [] then 0 else RowCounts(lines[..|lines| - 1], orders) + RowCount(lines[|lines| - 1].tx, orders)
  }

  /** A price below a cent weighs a cent. */
  function Price(item: Item): nat {
    if item.price < 1 then 1 else item.price
  }

  function PriceSum(items: seq<Item>): nat {
    if items == [] then 0 else PriceSum(items[..|items| - 1]) + Price(items[|items| - 1])
  }

  /** A cell of the k-th row of a split order: blank with the column, or within half a cent of the
      column's amount times the price of the item over all prices. */
  predicate IsShare(cell: Cell, whole: Cell, items: seq<Item>, k: nat)
    requires k < |items|
  {
    if whole.Blank? then cell.Blank?
    else
      && cell.Amount?
      && 2 * Gap(cell.cents * PriceSum(items), whole.cents * Price(items[k])) <= PriceSum(items)
  }

  /** The rows of a line: one for each item of an order that was found with items, in their
      order, under the statement and the order label, each column split by the prices; and for
      every other line one row with its own columns. */
  predicate Explained(rows: seq<Row>, line: Line, orders: Orders) {
    var st, tx := line.st, line.tx;
    if Spread(tx, orders) then
      var items := orders[tx.orderId];
      && |rows| == |items|
      && forall k :: 0 <= k < |items| ==>
           && rows[k].statement == st.id && rows[k].title == "Order" && rows[k].orderId == tx.orderId
           && rows[k].sku == items[k].sku
           && forall c: Column :: IsShare(rows[k].columns[c], tx.columns[c], items, k)
    else rows == [Row(st.id, Label(tx.kind), tx.orderId, NO_SKU, tx.columns)]
  }

  lemma {:induction false} WeightsSum(items: seq<Item>)
    ensures Sum(Weights(items)) == PriceSum(items) as real
    ensures items != [] ==> PriceSum(items) > 0
  {
    if items != [] {
      WeightsSum(items[..|items| - 1]);
      assert Weights(items)[..|items| - 1] == Weights(items[..|items| - 1]);
    }
  }

  lemma QuotientOff(n: real, p: real, s: real)
    requires s > 0.0 && -0.5 <= n - p / s <= 0.5
    ensures -0.5 * s <= n * s - p <= 0.5 * s
  {
    var d := n - p / s;
    Undivided(p, s);
    assert n * s == (d + p / s) * s == d * s + p / s * s;
    Scaled(d, s);
  }

  lemma Scaled(d: real, s: real)
    requires s > 0.0 && -0.5 <= d <= 0.5
    ensures -0.5 * s <= d * s <= 0.5 * s
  {
  }

  lemma WholeProduct(a: int, b: int)
    ensures (a * b) as real == a as real * b as real
  {
  }

  /** A rounded quotient, without the division. */
  lemma RoundedQuotient(n: int, total: int, w: int, s: int, share: real)
    requires s > 0 && share == Portion(total as real, w as real, s as real)
    requires -0.5 <= n as real - share <= 0.5
    ensures 2 * Gap(n * s, total * w) <= s
  {
    WholeProduct(n, s);
    WholeProduct(total, w);
    var x, y := n * s, total * w;
    assert share == y as real / s as real;
    hide Portion;
    QuotientOff(n as real, y as real, s as real);
    GapBound(x, y, s);
  }

  lemma GapBound(x: int, y: int, s: int)
    requires -0.5 * s as real <= x as real - y as real <= 0.5 * s as real
    ensures 2 * Gap(x, y) <= s
  {
    assert (x - y) as real == x as real - y as real;
  }

  lemma ShareIsShare(cell: Cell, items: seq<Item>, k: nat, rnd: real -> int)
    requires Nearest(rnd) && k < |items|
    ensures IsShare(ShareOf(cell, Weights(items), k, rnd), cell, items, k)
  {
    WeightsSum(items);
    if cell.Amount? {
      var s, w := PriceSum(items), Price(items[k]);
      if |items| == 1 {
        assert items[..0] == [];
        WholeStays(rnd, cell.cents);
      } else {
        var share := Portion(cell.cents as real, w as real, s as real);
        assert Split(cell.cents as real, Weights(items))[k] == share;
        hide Portion, Sum, Weights, Price, PriceSum;
        assert -0.5 <= rnd(share) as real - share <= 0.5;
        RoundedQuotient(rnd(share), cell.cents, w, s, share);
      }
    }
  }

  lemma RowsExplained(st: Statement, tx: Tx, orders: Orders, rnd: real -> int)
    requires Nearest(rnd)
    ensures Explained(RowsOf(st, tx, orders, rnd), Line(st, tx), orders)
  {
    if Spread(tx, orders) {
      var items := orders[tx.orderId];
      var rows := RowsOf(st, tx, orders, rnd);
      hide Weights, Split, Nearest, IsShare;
      forall k | 0 <= k < |items| ensures forall c: Column :: IsShare(rows[k].columns[c], tx.columns[c], items, k) {
        forall c: Column ensures IsShare(rows[k].columns[c], tx.columns[c], items, k) {
          ShareIsShare(tx.columns[c], items, k, rnd);
        }
      }
    }
  }

  /** The rows of the lines, one line after the other. */
  function RowsOfList(lines: seq<Line>, orders: Orders, rnd: real -> int): seq<Row> {
    if lines == [] then []
    else
      var last := lines[|lines| - 1];
      RowsOfList(lines[..|lines| - 1], orders, rnd) + RowsOf(last.st, last.tx, orders, rnd)
  }

  lemma {:induction false} RowsOfStatement(before: seq<Line>, st: Statement, txs: seq<Tx>, orders: Orders, rnd: real -> int)
    ensures RowsOfList(before + LinesIn(st, txs), orders, rnd) == RowsOfList(before, orders, rnd) + RowsOfAll(st, txs, orders, rnd)
  {
    hide RowsOf;
    var lines := before + LinesIn(st, txs);
    if txs == [] {
      assert lines == before;
    } else {
      RowsOfStatement(before, st, txs[..|txs| - 1], orders, rnd);
      assert lines[..|lines| - 1] == before + LinesIn(st, txs[..|txs| - 1]);
      assert lines[|lines| - 1] == Line(st, txs[|txs| - 1]);
    }
  }

  lemma {:induction false} CollectedIsList(statements: seq<Statement>, orders: Orders, rnd: real -> int)
    ensures Collected(statements, orders, rnd) == RowsOfList(LinesOfAll(statements), orders, rnd)
  {
    hide TxsOf, RowsOfAll, RowsOfList, LinesIn;
    if statements != [] {
      var before, st := statements[..|statements| - 1], statements[|statements| - 1];
      CollectedIsList(before, orders, rnd);
      RowsOfStatement(LinesOfAll(before), st, TxsOf(st), orders, rnd);
    } else {
      assert RowsOfList([], orders, rnd) == [] by { NoLines(orders, rnd); }
    }
  }

  lemma NoLines(orders: Orders, rnd: real -> int)
    ensures RowsOfList([], orders, rnd) == []
  {
  }

  /** The n-th line has its own stretch of the rows, behind those of the lines before it. */
  predicate ExplainedAt(rows: seq<Row>, lines: seq<Line>, orders: Orders, n: nat) {
    && n < |lines|
    && var from, count := RowCounts(lines[..n], orders), RowCount(lines[n].tx, orders);
    && from + count <= |rows|
    && Explained(rows[from..from + count], lines[n], orders)
  }

  lemma {:induction false} ListExplained(lines: seq<Line>, orders: Orders, rnd: real -> int)
    requires Nearest(rnd)
    ensures |RowsOfList(lines, orders, rnd)| == RowCounts(lines, orders)
    ensures forall n :: 0 <= n < |lines| ==> ExplainedAt(RowsOfList(lines, orders, rnd), lines, orders, n)
  {
    if lines != [] {
      var before, last := lines[..|lines| - 1], lines[|lines| - 1];
      ListExplained(before, orders, rnd);
      RowsExplained(last.st, last.tx, orders, rnd);
      ExplainedCount(RowsOf(last.st, last.tx, orders, rnd), last, orders);
      var a, b := RowsOfList(before, orders, rnd), RowsOf(last.st, last.tx, orders, rnd);
      assert RowsOfList(lines, orders, rnd) == a + b;
      assert before + [last] == lines;
      hide Explained, Nearest, RowsOf, RowCount, RowsOfList;
      NewlyExplained(a, b, before, last, orders);
      forall n | 0 <= n < |before| ensures ExplainedAt(a + b, lines, orders, n) {
        StillExplained(a, b, before, last, orders, n);
      }
    }
  }

  lemma NewlyExplained(rows: seq<Row>, more: seq<Row>, lines: seq<Line>, last: Line, orders: Orders)
    requires |rows| == RowCounts(lines, orders) && |more| == RowCount(last.tx, orders) && Explained(more, last, orders)
    ensures ExplainedAt(rows + more, lines + [last], orders, |lines|)
    ensures |rows + more| == RowCounts(lines + [last], orders)
  {
    CountsAppend(lines, last, orders);
    hide Explained, RowCount, RowCounts;
    assert (rows + more)[|rows|..|rows| + |more|] == more;
    assert (lines + [last])[..|lines|] == lines && (lines + [last])[|lines|] == last;
  }

  lemma CountsAppend(lines: seq<Line>, last: Line, orders: Orders)
    ensures RowCounts(lines + [last], orders) == RowCounts(lines, orders) + RowCount(last.tx, orders)
  {
    hide RowCount;
    assert (lines + [last])[..|lines|] == lines;
  }

  lemma StillExplained(rows: seq<Row>, more: seq<Row>, lines: seq<Line>, last: Line, orders: Orders, n: nat)
    requires ExplainedAt(rows, lines, orders, n)
    ensures ExplainedAt(rows + more, lines + [last], orders, n)
  {
    hide Explained, RowCount;
    var from, count := RowCounts(lines[..n], orders), RowCount(lines[n].tx, orders);
    assert (lines + [last])[..n] == lines[..n] && (lines + [last])[n] == lines[n];
    assert (rows + more)[from..from + count] == rows[from..from + count];
  }

  lemma ExplainedCount(rows: seq<Row>, line: Line, orders: Orders)
    requires Explained(rows, line, orders)
    ensures |rows| == RowCount(line.tx, orders)
  {
  }

  /** What the rows of a shop are: each line of each statement, in order, has its own stretch of
      them, and that is explained by the line; there are no others. */
  lemma RowsOfShop(statements: seq<Statement>, orders: Orders, rnd: real -> int)
    requires Nearest(rnd)
    ensures var rows, lines := Collected(statements, orders, rnd), LinesOfAll(statements);
            && |rows| == RowCounts(lines, orders)
            && forall n :: 0 <= n < |lines| ==> ExplainedAt(rows, lines, orders, n)
  {
    CollectedIsList(statements, orders, rnd);
    ListExplained(LinesOfAll(statements), orders, rnd);
    hide Collected, RowsOfList, LinesOfAll, RowCounts, ExplainedAt, Nearest;
  }

  // ---- The summary ---------------------------------------------------------

  /** The settlement total of the rows, or of those labelled as orders. */
  function TotalCents(rows: seq<Row>, ordersOnly: bool): int {
    if rows == [] then 0
    else
      var last := rows[|rows| - 1];
      TotalCents(rows[..|rows| - 1], ordersOnly)
      + if ordersOnly && last.title != "Order" then 0 else TotalOf(last.columns)
  }

  lemma {:induction false} TotalCentsConcat(a: seq<Row>, b: seq<Row>, ordersOnly: bool)
    ensures TotalCents(a + b, ordersOnly) == TotalCents(a, ordersOnly) + TotalCents(b, ordersOnly)
  {
    if b == [] {
      assert a + b == a;
    } else {
      assert (a + b)[..|a + b| - 1] == a + b[..|b| - 1];
      TotalCentsConcat(a, b[..|b| - 1], ordersOnly);
    }
  }

  function DueOfAll(statements: seq<Statement>): int {
    if statements == [] then 0
    else DueOfAll(statements[..|statements| - 1]) + Due(statements[|statements| - 1])
  }

  /** The settlement cents of transactions whose type is spelt like the order label. */
  function Misspelt(txs: seq<Tx>): int {
    if txs == [] then 0
    else
      var last := txs[|txs| - 1];
      Misspelt(txs[..|txs| - 1]) + if last.kind == "Order" then TotalOf(last.columns) else 0
  }

  function MisspeltOfAll(statements: seq<Statement>): int {
    if statements == [] then 0
    else MisspeltOfAll(statements[..|statements| - 1]) + Misspelt(statements[|statements| - 1].batch)
  }

  lemma MisspeltLines(st: Statement)
    ensures Misspelt(TxsOf(st)) == Misspelt(st.batch)
  {
    var lines := TxsOf(st);
    if lines != [] && lines != st.batch {
      assert lines[..|lines| - 1] == st.batch;
    }
  }

  /** The rows of an order all carry its label, so they count in both sums or in none. */
  lemma {:induction false} SameLabel(rows: seq<Row>)
    requires forall i :: 0 <= i < |rows| ==> rows[i].title == "Order"
    ensures TotalCents(rows, true) == TotalCents(rows, false)
  {
    if rows != [] {
      SameLabel(rows[..|rows| - 1]);
    }
  }

  lemma RowsOfTx(st: Statement, tx: Tx, orders: Orders, rnd: real -> int)
    ensures var rows := RowsOf(st, tx, orders, rnd);
            TotalCents(rows, false) - TotalCents(rows, true)
            == if IsOrder(tx) || tx.kind == "Order" then 0 else TotalOf(tx.columns)
  {
    var rows := RowsOf(st, tx, orders, rnd);
    LabelIsOrderIff(tx.kind);
    if IsOrder(tx) {
      SameLabel(rows);
    } else {
      assert rows[..0] == [];
    }
  }

  lemma {:induction false} RowsOfTxs(st: Statement, txs: seq<Tx>, orders: Orders, rnd: real -> int)
    ensures var rows := RowsOfAll(st, txs, orders, rnd);
            TotalCents(rows, false) - TotalCents(rows, true) == NonOrder(txs) - Misspelt(txs)
  {
    hide RowsOf, TotalOf;
    if txs != [] {
      var before, tx := txs[..|txs| - 1], txs[|txs| - 1];
      RowsOfTxs(st, before, orders, rnd);
      RowsOfTx(st, tx, orders, rnd);
      TotalCentsConcat(RowsOfAll(st, before, orders, rnd), RowsOf(st, tx, orders, rnd), false);
      TotalCentsConcat(RowsOfAll(st, before, orders, rnd), RowsOf(st, tx, orders, rnd), true);
    }
  }

  /** End to end: in the summary, the total less the order settlement is, to the cent, what
      the statements adjust, less what transactions spelt like the order label carry; so the
      summary reconciles exactly when those carry nothing. */
  lemma {:induction false} SummaryReconciles(statements: seq<Statement>, orders: Orders, rnd: real -> int)
    ensures var rows := Collected(statements, orders, rnd);
            TotalCents(rows, false) - TotalCents(rows, true) == DueOfAll(statements) - MisspeltOfAll(statements)
  {
    hide TxsOf, RowsOfAll, Due;
    if statements != [] {
      var before, st := statements[..|statements| - 1], statements[|statements| - 1];
      SummaryReconciles(before, orders, rnd);
      StatementReconciles(st);
      MisspeltLines(st);
      RowsOfTxs(st, TxsOf(st), orders, rnd);
      TotalCentsConcat(Collected(before, orders, rnd), RowsOfAll(st, TxsOf(st), orders, rnd), false);
      TotalCentsConcat(Collected(before, orders, rnd), RowsOfAll(st, TxsOf(st), orders, rnd), true);
    }
  }

  function TxTotal(txs: seq<Tx>): int {
    if txs == [] then 0 else TxTotal(txs[..|txs| - 1]) + TotalOf(txs[|txs| - 1].columns)
  }

  function TxTotalOfAll(statements: seq<Statement>): int {
    if statements == [] then 0
    else TxTotalOfAll(statements[..|statements| - 1]) + TxTotal(TxsOf(statements[|statements| - 1]))
  }

  lemma {:induction false} TotalsAgree(rows: seq<Row>)
    ensures TotalCents(rows, false) == IntSum(ColumnCents(rows, Total))
  {
    if rows != [] {
      TotalsAgree(rows[..|rows| - 1]);
      assert ColumnCents(rows, Total)[..|rows| - 1] == ColumnCents(rows[..|rows| - 1], Total);
    }
  }

  /** The rows a transaction is spread over, when there are several. */
  function SplitRows(tx: Tx, orders: Orders): nat {
    if IsOrder(tx) && tx.orderId in orders && |orders[tx.orderId]| > 1 then |orders[tx.orderId]| else 0
  }

  function SplitRowsOf(txs: seq<Tx>, orders: Orders): nat {
    if txs == [] then 0 else SplitRowsOf(txs[..|txs| - 1], orders) + SplitRows(txs[|txs| - 1], orders)
  }

  function SplitRowsOfAll(statements: seq<Statement>, orders: Orders): nat {
    if statements == [] then 0
    else
      var last := statements[|statements| - 1];
      SplitRowsOfAll(statements[..|statements| - 1], orders) + SplitRowsOf(TxsOf(last), orders)
  }

  lemma TxDrift(st: Statement, tx: Tx, orders: Orders, rnd: real -> int)
    requires Nearest(rnd)
    ensures 2 * Gap(TotalCents(RowsOf(st, tx, orders, rnd), false), TotalOf(tx.columns)) <= SplitRows(tx, orders)
  {
    var rows := RowsOf(st, tx, orders, rnd);
    if SplitRows(tx, orders) > 0 {
      SplitDrift(BaseRow(st, tx), orders[tx.orderId], rnd);
    } else if IsOrder(tx) && tx.orderId in orders {
      WholeDrift(BaseRow(st, tx), orders[tx.orderId], rnd);
    } else {
      assert rows[..0] == [];
    }
  }

  lemma SplitDrift(row: Row, items: seq<Item>, rnd: real -> int)
    requires Nearest(rnd) && |items| > 1
    ensures 2 * Gap(TotalCents(Expanded(row, items, rnd), false), TotalOf(row.columns)) <= |items|
  {
    hide TotalCents, Nearest, ExpandedRow;
    ExpansionConserves(row, items, rnd, Total);
    TotalsAgree(Expanded(row, items, rnd));
  }

  lemma WholeDrift(row: Row, items: seq<Item>, rnd: real -> int)
    requires Nearest(rnd) && |items| <= 1
    ensures TotalCents(Expanded(row, items, rnd), false) == TotalOf(row.columns)
  {
    hide TotalCents, ColumnCents, Nearest, Expanded;
    ExpansionConserves(row, items, rnd, Total);
    TotalsAgree(Expanded(row, items, rnd));
    assert [TotalOf(row.columns)][..0] == [];
  }

  lemma DriftAdds(a: int, b: int, c: int, d: int, m: nat, n: nat)
    requires 2 * Gap(a, b) <= m && 2 * Gap(c, d) <= n
    ensures 2 * Gap(a + c, b + d) <= m + n
  {
  }

  lemma {:induction false} StatementDrift(st: Statement, txs: seq<Tx>, orders: Orders, rnd: real -> int)
    requires Nearest(rnd)
    ensures 2 * Gap(TotalCents(RowsOfAll(st, txs, orders, rnd), false), TxTotal(txs)) <= SplitRowsOf(txs, orders)
  {
    hide RowsOf, TotalOf, Nearest, SplitRows;
    if txs != [] {
      var before, tx := txs[..|txs| - 1], txs[|txs| - 1];
      var a, b := RowsOfAll(st, before, orders, rnd), RowsOf(st, tx, orders, rnd);
      StatementDrift(st, before, orders, rnd);
      TxDrift(st, tx, orders, rnd);
      TotalCentsConcat(a, b, false);
      DriftAdds(TotalCents(a, false), TxTotal(before), TotalCents(b, false), TotalOf(tx.columns),
        SplitRowsOf(before, orders), SplitRows(tx, orders));
    }
  }

  /** The summarised total differs from the transactions by at most half a cent per row of
      an order spread over several rows. */
  lemma {:induction false} SummaryDrift(statements: seq<Statement>, orders: Orders, rnd: real -> int)
    requires Nearest(rnd)
    ensures 2 * Gap(TotalCents(Collected(statements, orders, rnd), false), TxTotalOfAll(statements))
         <= SplitRowsOfAll(statements, orders)
  {
    hide RowsOfAll, TxsOf, Nearest, SplitRowsOf;
    if statements != [] {
      var before, st := statements[..|statements| - 1], statements[|statements| - 1];
      var a, b := Collected(before, orders, rnd), RowsOfAll(st, TxsOf(st), orders, rnd);
      SummaryDrift(before, orders, rnd);
      StatementDrift(st, TxsOf(st), orders, rnd);
      TotalCentsConcat(a, b, false);
      DriftAdds(TotalCents(a, false), TxTotalOfAll(before), TotalCents(b, false), TxTotal(TxsOf(st)),
        SplitRowsOfAll(before, orders), SplitRowsOf(TxsOf(st), orders));
    }
  }

  /** A type spelt "Order" is settled as an adjustment but summed with the orders. */
  lemma OddKindMisleadsSummary(cents: int, orders: Orders, rnd: real -> int)
    requires cents != 0
    ensures var tx := Tx("Order", "", SyntheticColumns(cents));
            var st := Statement("S", cents, 0, [tx]);
            var rows := Collected([st], orders, rnd);
            && NonOrder(TxsOf(st)) == Due(st) == cents
            && TotalCents(rows, false) - TotalCents(rows, true) == 0
  {
    var tx := Tx("Order", "", SyntheticColumns(cents));
    var st := Statement("S", cents, 0, [tx]);
    assert [tx][..0] == [];
    assert NonOrder([tx]) == cents;
    assert TxsOf(st) == [tx];
    assert [st][..0] == [];
    assert Collected([st], orders, rnd) == [] + RowsOfAll(st, [tx], orders, rnd);
    assert RowsOfAll(st, [tx], orders, rnd) == [] + [BaseRow(st, tx)];
    SameLabel([BaseRow(st, tx)]);
  }
}
