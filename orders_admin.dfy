/**
 * The seller's orders page (admin-seller/orders/page.tsx): the export of the
 * fetched orders as CSV text, the optimistic status change that is undone
 * when the server refuses it, and the delete that waits for the server.
 */
module OrdersAdmin {
  import opened Wrappers
  import opened Text
  import opened ListOps

  /** One product line of an order. */
  datatype OrderLine = OrderLine(productName: Option<string>, prodNb: int, size: Option<string>, color: Option<string>)

  /** An order as the page reads it; costs are integers in hundredths of a dinar. */
  datatype Order = Order(
    id: string,
    firstName: Option<string>,
    lastName: Option<string>,
    phoneNumber: Option<string>,
    state: Option<string>,
    city: Option<string>,
    products: Option<seq<OrderLine>>,
    productsCost: Option<int>,
    deliveryCost: Option<int>,
    totalCost: Option<int>,
    status: Option<string>)

  // ---------------------------------------------------------------------
  // The exported values of one order

  /** A value of the export: a string, or a number (written as it is, never quoted). */
  datatype Cell = Text(s: string) | Number(n: int)

  const Headers := [
    "Order ID", "Customer First Name", "Customer Last Name", "Phone Number",
    "State", "City", "Products Count", "Products", "Products Cost",
    "Delivery Cost", "Total Cost", "Status"]

  /** `v || fallback` on an optional string: the empty string falls back too. */
  function OrElse(v: Option<string>, fallback: string): (r: string)
    ensures v.Some? && v.value != "" ==> r == v.value
    ensures v.None? || v.value == "" ==> r == fallback
  {
    if v.Some? && v.value != "" then v.value else fallback
  }

  /** One product line: `name (xN) - Size: s - Color: c`. */
  function LineText(l: OrderLine): (r: string)
    ensures r != []
  {
    OrElse(l.productName, "Unknown") + " (x" + IntToString(l.prodNb) + ") - Size: "
      + OrElse(l.size, "-") + " - Color: " + OrElse(l.color, "-")
  }

  /** The Products column: the lines joined by " | ", or "N/A" for a missing or empty list. */
  function ProductsText(products: Option<seq<OrderLine>>): (r: string)
    ensures products.None? || products.value == [] ==> r == "N/A"
    ensures products.Some? && products.value != [] ==> r == Join(LineTexts(products.value), " | ")
    ensures products.Some? && |products.value| == 1 ==> r == LineText(products.value[0])
  {
    match products
    case None => "N/A"
    case Some(ls) =>
      var joined := Join(LineTexts(ls), " | ");
      if joined == "" then "N/A" else joined
  }

  /** Each line's text, in order. */
  function LineTexts(ls: seq<OrderLine>): (r: seq<string>)
    ensures |r| == |ls| && forall i :: 0 <= i < |ls| ==> r[i] == LineText(ls[i])
  {
    seq(|ls|, i requires 0 <= i < |ls| => LineText(ls[i]))
  }

  /** `toFixed(2)` of an amount given in hundredths: an optional minus sign, then the amount's digits with a point before the last two. */
  function Fixed2(cents: int): (r: string)
    ensures |r| >= 4 && r[|r| - 3] == '.'
    ensures cents < 0 <==> r[0] == '-'
    ensures cents >= 0 ==> ReadsAsHundredths(r, cents)
    ensures cents < 0 ==> ReadsAsHundredths(r[1..], -cents)
  {
    if cents < 0 then
      var r := "-" + Fixed2Unsigned(-cents);
      assert r[1..] == Fixed2Unsigned(-cents);
      r
    else
      Fixed2Unsigned(cents)
  }

  /** `u` is whole units, a point and two digits, and together they read as `n` hundredths. */
  predicate ReadsAsHundredths(u: string, n: nat) {
    && |u| >= 4
    && u[|u| - 3] == '.'
    && (forall k :: 0 <= k < |u| && k != |u| - 3 ==> IsDigit(u[k]))
    && DigitsValue(u[..|u| - 3]) * 100 + DigitsValue(u[|u| - 2..]) == n
  }

  function Fixed2Unsigned(n: nat): (r: string)
    ensures ReadsAsHundredths(r, n)
  {
    var whole := NatToString(n / 100);
    var tens := DigitChar((n % 100) / 10);
    var ones := DigitChar(n % 10);
    var r := whole + "." + [tens, ones];
    assert r[..|r| - 3] == whole;
    assert r[|r| - 2..] == [tens] + [ones];
    NatToStringRoundTrip(n / 100);
    DigitsValueAppend([], tens);
    assert [] + [tens] == [tens];
    DigitsValueAppend([tens], ones);
    r
  }

  /** A cost column: the amount with two decimals and the currency, "0.00 DA" when missing. */
  function CostText(cost: Option<int>): string {
    (if cost.Some? then Fixed2(cost.value) else "0.00") + " DA"
  }

  /** The first character upper-cased, the rest lower-cased. */
  function Capitalize(s: string): (r: string)
    requires s != []
    ensures |r| == |s|
    ensures !('a' <= r[0] <= 'z')
    ensures forall k :: 1 <= k < |r| ==> !('A' <= r[k] <= 'Z')
  {
    Upper(s[..1]) + Lower(s[1..])
  }

  /** Capitalizing changes only the case of letters. */
  lemma {:induction false} CapitalizeKeepsLower(s: string)
    requires s != []
    ensures Lower(Capitalize(s)) == Lower(s)
  {
    var r := Capitalize(s);
    forall k | 0 <= k < |s| ensures Lower(r)[k] == Lower(s)[k] {
      if k == 0 {
        assert r[0] == UpperChar(s[0]);
      } else {
        assert r[k] == LowerChar(s[k]);
      }
    }
  }

  /** The Status column: first character upper-cased and the rest lower-cased, "N/A" when missing or empty. */
  function StatusText(status: Option<string>): (r: string)
    ensures status.None? || status.value == "" ==> r == "N/A"
    ensures status.Some? && status.value != "" ==>
      && |r| == |status.value|
      && Lower(r) == Lower(status.value)
      && !('a' <= r[0] <= 'z')
      && forall k :: 1 <= k < |r| ==> !('A' <= r[k] <= 'Z')
  {
    match status
    case None => "N/A"
    case Some(s) =>
      if s == "" then "N/A"
      else
        CapitalizeKeepsLower(s);
        Capitalize(s)
  }

  /** The values of one order, in header order. */
  function Cells(o: Order): (r: seq<Cell>)
    ensures |r| == |Headers|
  {
    [ Text(o.id),
      Text(OrElse(o.firstName, "N/A")),
      Text(OrElse(o.lastName, "N/A")),
      Text(OrElse(o.phoneNumber, "N/A")),
      Text(OrElse(o.state, "N/A")),
      Text(OrElse(o.city, "N/A")),
      Number(if o.products.Some? then |o.products.value| else 0),
      Text(ProductsText(o.products)),
      Text(CostText(o.productsCost)),
      Text(CostText(o.deliveryCost)),
      Text(CostText(o.totalCost)),
      Text(StatusText(o.status)) ]
  }

  // ---------------------------------------------------------------------
  // Writing the CSV text

  /** `value.replace(/"/g, '""')` */
  function DoubleQuotes(s: string): (r: string)
    ensures forall c :: c in r <==> c in s
  {
    if s == [] then []
    else (if s[0] == '"' then "\"\"" else [s[0]]) + DoubleQuotes(s[1..])
  }

  /** A string is quoted exactly when it contains a comma or a double quote; line breaks do not count. */
  predicate NeedsQuotes(s: string) {
    ',' in s || '"' in s
  }

  /** One written field. */
  function Field(c: Cell): (r: string)
    ensures c.Text? && NeedsQuotes(c.s) ==> |r| >= 2 && r[0] == '"' && r[|r| - 1] == '"'
    ensures c.Text? && !NeedsQuotes(c.s) ==> r == c.s
  {
    match c
    case Text(s) => if NeedsQuotes(s) then "\"" + DoubleQuotes(s) + "\"" else s
    case Number(n) => IntToString(n)
  }

  /** The text a field stands for. */
  function CellText(c: Cell): string {
    match c
    case Text(s) => s
    case Number(n) => IntToString(n)
  }

  function Fields(cells: seq<Cell>): (r: seq<string>)
    ensures |r| == |cells|
    ensures forall k :: 0 <= k < |cells| ==> r[k] == Field(cells[k])
  {
    seq(|cells|, k requires 0 <= k < |cells| => Field(cells[k]))
  }

  function Texts(cells: seq<Cell>): (r: seq<string>)
    ensures |r| == |cells|
    ensures forall k :: 0 <= k < |cells| ==> r[k] == CellText(cells[k])
  {
    seq(|cells|, k requires 0 <= k < |cells| => CellText(cells[k]))
  }

  /** One order's line of the CSV. */
  function Row(o: Order): string {
    Join(Fields(Cells(o)), ",")
  }

  function HeaderLine(): string {
    Join(Headers, ",")
  }

  function Rows(orders: seq<Order>): (r: seq<string>)
    ensures |r| == |orders|
    ensures forall k :: 0 <= k < |orders| ==> r[k] == Row(orders[k])
  {
    seq(|orders|, k requires 0 <= k < |orders| => Row(orders[k]))
  }

  /** exportToExcel: nothing for an empty list; otherwise the header line and one line per order, joined by "\n". */
  function ExportCsv(orders: seq<Order>): (r: Option<string>)
    ensures r.None? <==> orders == []
  {
    if orders == [] then None
    else Some(Join([HeaderLine()] + Rows(orders), "\n"))
  }

  // ---------------------------------------------------------------------
  // Reading a record back (the field syntax of section 2 of RFC 4180)

  /** The body of a quoted field: `""` stands for one quote and a lone quote closes it. Returns the text and what follows the closing quote. */
  function ReadQuoted(s: string): (r: (string, string))
    ensures |r.1| <= |s|
  {
    if s == [] then ([], [])
    else if s[0] == '"' then
      if |s| > 1 && s[1] == '"' then
        var (t, rest) := ReadQuoted(s[2..]); (['"'] + t, rest)
      else ([], s[1..])
    else
      var (t, rest) := ReadQuoted(s[1..]); ([s[0]] + t, rest)
  }

  /** An unquoted field runs up to the next comma. */
  function ReadRaw(s: string): (r: (string, string))
    ensures |r.1| <= |s|
  {
    if s == [] || s[0] == ',' then ([], s)
    else
      var (t, rest) := ReadRaw(s[1..]); ([s[0]] + t, rest)
  }

  function ReadField(s: string): (r: (string, string))
    ensures |r.1| <= |s|
  {
    if |s| > 0 && s[0] == '"' then ReadQuoted(s[1..]) else ReadRaw(s)
  }

  /** The fields of one record, split at the commas outside quotes. */
  function ReadRecord(s: string): seq<string>
    decreases |s|
  {
    var (f, rest) := ReadField(s);
    if rest == [] then [f] else [f] + ReadRecord(rest[1..])
  }

  /** What may follow a field inside a record: nothing, or the comma before the next one. */
  predicate FieldEnd(tail: string) {
    tail == [] || tail[0] == ','
  }

  /** A doubled quote reads as one quote and the reading goes on. */
  lemma {:induction false} ReadQuotedPair(inner: string)
    ensures ReadQuoted("\"\"" + inner) == (['"'] + ReadQuoted(inner).0, ReadQuoted(inner).1)
  {
    assert ("\"\"" + inner)[2..] == inner;
  }

  /** Any other character is kept and the reading goes on. */
  lemma {:induction false} ReadQuotedChar(c: char, inner: string)
    requires c != '"'
    ensures ReadQuoted([c] + inner) == ([c] + ReadQuoted(inner).0, ReadQuoted(inner).1)
  {
    assert ([c] + inner)[1..] == inner;
  }

  lemma {:induction false} ReadQuotedBack(s: string, tail: string)
    requires FieldEnd(tail)
    ensures ReadQuoted(DoubleQuotes(s) + "\"" + tail) == (s, tail)
  {
    if s == [] {
      assert DoubleQuotes(s) + "\"" + tail == "\"" + tail;
    } else {
      ReadQuotedBack(s[1..], tail);
      var inner := DoubleQuotes(s[1..]) + "\"" + tail;
      assert s == [s[0]] + s[1..];
      if s[0] == '"' {
        assert DoubleQuotes(s) + "\"" + tail == "\"\"" + inner;
        ReadQuotedPair(inner);
      } else {
        assert DoubleQuotes(s) + "\"" + tail == [s[0]] + inner;
        ReadQuotedChar(s[0], inner);
      }
    }
  }

  lemma {:induction false} ReadRawBack(s: string, tail: string)
    requires ',' !in s && FieldEnd(tail)
    ensures ReadRaw(s + tail) == (s, tail)
  {
    if s == [] {
      assert s + tail == tail;
    } else {
      assert (s + tail)[1..] == s[1..] + tail;
      assert ',' !in s[1..] by {
        forall k | 0 <= k < |s[1..]| ensures s[1..][k] != ',' {
          assert s[1..][k] == s[k + 1];
        }
      }
      ReadRawBack(s[1..], tail);
      assert s == [s[0]] + s[1..];
    }
  }

  /** Every written field reads back as the text it stands for. */
  lemma {:induction false} FieldReadsBack(c: Cell, tail: string)
    requires FieldEnd(tail)
    ensures ReadField(Field(c) + tail) == (CellText(c), tail)
  {
    var f := Field(c);
    if c.Text? && NeedsQuotes(c.s) {
      assert f + tail == "\"" + (DoubleQuotes(c.s) + "\"" + tail);
      ReadQuotedBack(c.s, tail);
    } else {
      assert ',' !in f && (f == [] || f[0] != '"') by {
        if c.Number? {
          assert forall k :: 0 <= k < |f| ==> IsDigit(f[k]) || f[k] == '-';
        }
      }
      ReadRawBack(f, tail);
    }
  }

  /** A field read up to a comma is followed by the rest of the record. */
  lemma {:induction false} ReadRecordStep(s: string, text: string, rest: string)
    requires ReadField(s) == (text, "," + rest)
    ensures ReadRecord(s) == [text] + ReadRecord(rest)
  {
    assert ("," + rest)[1..] == rest;
  }

  lemma {:induction false} FieldsTexts(cells: seq<Cell>)
    requires |cells| >= 1
    ensures Fields(cells)[1..] == Fields(cells[1..])
    ensures Texts(cells) == [CellText(cells[0])] + Texts(cells[1..])
  {
  }

  /** A record written from any values reads back as their texts: the quoting of commas and quotes loses nothing. */
  lemma {:induction false} RecordReadsBack(cells: seq<Cell>)
    requires |cells| >= 1
    ensures ReadRecord(Join(Fields(cells), ",")) == Texts(cells)
    decreases |cells|
  {
    var fs := Fields(cells);
    if |cells| == 1 {
      FieldReadsBack(cells[0], []);
      assert fs[0] + [] == fs[0];
    } else {
      FieldsTexts(cells);
      var rest := Join(fs[1..], ",");
      RecordReadsBack(cells[1..]);
      assert Join(fs, ",") == fs[0] + ("," + rest);
      FieldReadsBack(cells[0], "," + rest);
      ReadRecordStep(Join(fs, ","), CellText(cells[0]), rest);
    }
  }

  /** Each order's line reads back as its values, one per header. */
  lemma {:induction false} RowReadsBack(o: Order)
    ensures ReadRecord(Row(o)) == Texts(Cells(o))
    ensures |ReadRecord(Row(o))| == |Headers|
  {
    RecordReadsBack(Cells(o));
  }

  // ---------------------------------------------------------------------
  // Line breaks

  /** No value of the order contains a line feed. */
  predicate NoLineFeeds(o: Order) {
    forall k :: 0 <= k < |Cells(o)| ==> '\n' !in CellText(Cells(o)[k])
  }

  lemma {:induction false} FieldKeepsLineFeeds(c: Cell)
    ensures '\n' in Field(c) <==> '\n' in CellText(c)
  {
  }

  lemma {:induction false} RowLineFeeds(o: Order)
    requires NoLineFeeds(o)
    ensures '\n' !in Row(o)
  {
    var fs := Fields(Cells(o));
    forall k | 0 <= k < |fs| ensures '\n' !in fs[k] {
      FieldKeepsLineFeeds(Cells(o)[k]);
    }
    JoinAvoids(fs, ",", '\n');
  }

  lemma {:induction false} HeaderHasNoLineFeed()
    ensures '\n' !in HeaderLine()
  {
    forall k | 0 <= k < |Headers| ensures '\n' !in Headers[k] {
    }
    JoinAvoids(Headers, ",", '\n');
  }

  /** When no value holds a line feed, the export has one line per order after the header. */
  lemma {:induction false} ExportLineCount(orders: seq<Order>)
    requires orders != []
    requires forall k :: 0 <= k < |orders| ==> NoLineFeeds(orders[k])
    ensures Count(ExportCsv(orders).value, '\n') == |orders|
  {
    var lines := [HeaderLine()] + Rows(orders);
    HeaderHasNoLineFeed();
    forall k | 0 <= k < |lines| ensures '\n' !in lines[k] {
      if k > 0 {
        RowLineFeeds(orders[k - 1]);
      }
    }
    JoinCount(lines, '\n');
  }

  /** A city without comma or quote is written as it is. */
  lemma {:induction false} CityUnquoted(o: Order, city: string)
    requires o.city == Some(city) && city != ""
    requires ',' !in city && '"' !in city
    ensures Cells(o)[5] == Text(city)
    ensures Field(Cells(o)[5]) == city
  {
  }

  /** The export of a single order is the header line, a line feed and the order's line. */
  lemma {:induction false} SingleExport(o: Order)
    ensures ExportCsv([o]).value == HeaderLine() + "\n" + Row(o)
  {
    assert [HeaderLine()] + Rows([o]) == [HeaderLine(), Row(o)];
  }

  /** A line feed in the city reaches the order's line. */
  lemma {:induction false} RowHoldsCityLineFeed(o: Order, city: string)
    requires o.city == Some(city) && city != ""
    requires '\n' in city && ',' !in city && '"' !in city
    ensures '\n' in Row(o)
  {
    CityUnquoted(o, city);
    var fs := Fields(Cells(o));
    assert fs[5] == city;
    JoinHasPart(fs, ",", 5, '\n');
  }

  lemma {:induction false} CountAroundLineFeed(head: string, row: string)
    ensures Count(head + "\n" + row, '\n') == Count(head, '\n') + 1 + Count(row, '\n')
  {
    CountAppend(head + "\n", row, '\n');
    CountAppend(head, "\n", '\n');
    assert Count("\n", '\n') == 1 by {
      assert "\n"[1..] == [];
    }
  }

  /** A value holding a line feed but no comma or quote is written unquoted, so the order spills over two lines. */
  lemma {:induction false} LineFeedNotQuoted(o: Order, city: string)
    requires o.city == Some(city) && city != ""
    requires '\n' in city && ',' !in city && '"' !in city
    ensures Field(Cells(o)[5]) == city
    ensures Count(ExportCsv([o]).value, '\n') >= 2
  {
    CityUnquoted(o, city);
    RowHoldsCityLineFeed(o, city);
    CountPositive(Row(o), '\n');
    SingleExport(o);
    CountAroundLineFeed(HeaderLine(), Row(o));
  }

  lemma {:induction false} CountPositive(s: string, c: char)
    requires c in s
    ensures Count(s, c) >= 1
  {
    if s[0] != c {
      assert c in s[1..] by {
        var k :| 0 <= k < |s| && s[k] == c;
        assert s[1..][k - 1] == c;
      }
      CountPositive(s[1..], c);
    }
  }

  // ---------------------------------------------------------------------
  // The page's local list

  /** Rows whose id matches take the new status; every other row is unchanged. */
  function WithStatus(rows: seq<Order>, id: string, status: string): (r: seq<Order>)
    ensures |r| == |rows|
    ensures forall k :: 0 <= k < |rows| ==> r[k] == (if rows[k].id == id then rows[k].(status := Some(status)) else rows[k])
  {
    seq(|rows|, k requires 0 <= k < |rows| => if rows[k].id == id then rows[k].(status := Some(status)) else rows[k])
  }

  function OrderId(o: Order): string {
    o.id
  }

  /** Changing a status keeps the ids in place and is idempotent. */
  lemma {:induction false} WithStatusKeepsIds(rows: seq<Order>, id: string, status: string)
    ensures forall k :: 0 <= k < |rows| ==> WithStatus(rows, id, status)[k].id == rows[k].id
    ensures WithStatus(WithStatus(rows, id, status), id, status) == WithStatus(rows, id, status)
  {
  }

  class OrdersPage {
    /** `ordersData?.content || []`: the fetched list. */
    var orders: seq<Order>
    /** The local list the handlers update. */
    var data: seq<Order>
    var dialogOpen: bool

    constructor (fetched: seq<Order>)
      ensures orders == fetched && data == fetched && !dialogOpen
    {
      orders := fetched;
      data := fetched;
      dialogOpen := false;
    }

    /**
     * handleStatusChange: the change is applied at once; when the server
     * refuses it, `data` is replaced by the fetched list `orders`, not by
     * the local list as it was before.
     */
    method HandleStatusChange(orderId: string, newStatus: string, serverAccepts: bool) returns (optimistic: seq<Order>)
      modifies this`data
      ensures optimistic == WithStatus(old(data), orderId, newStatus)
      ensures serverAccepts ==> data == optimistic
      ensures !serverAccepts ==> data == orders
    {
      var previousData := orders;
      data := WithStatus(data, orderId, newStatus);
      optimistic := data;
      if !serverAccepts {
        data := previousData;
      }
    }

    /** deleteOrder: the rows go only once the server has deleted the order; the dialog closes on success. */
    method DeleteOrder(orderId: string, serverAccepts: bool)
      modifies this`data, this`dialogOpen
      ensures serverAccepts ==> data == Without(old(data), OrderId, orderId) && !dialogOpen
      ensures !serverAccepts ==> data == old(data) && dialogOpen == old(dialogOpen)
    {
      if serverAccepts {
        data := Without(data, OrderId, orderId);
        dialogOpen := false;
      }
    }
  }

  /** A refused status change after a local delete brings the deleted order back, since the snapshot is the fetched list. */
  method RefusedChangeRestoresFetched(o: Order) returns (before: seq<Order>, after: seq<Order>)
    ensures before == [] && after == [o]
  {
    var page := new OrdersPage([o]);
    page.DeleteOrder(o.id, true);
    before := page.data;
    var _ := page.HandleStatusChange(o.id, "delivered", false);
    after := page.data;
  }
}
