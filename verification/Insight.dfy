/** Spending summaries: grouped aggregates over the recorded transactions of a period. */
module Insight {
  import opened Domain
  import opened Calendar
  import opened Periods

  type User = nat
  type Currency = nat
  type Label = nat

  datatype Kind = Expense | Income | Refund | Transfer | Adjustment

  /** `category` and `merchant` stand for what the breakdowns group by; a missing category reads as "other". */
  datatype Tx = Tx(id: nat, user: User, kind: Kind, status: TxStatus, deleted: bool, currency: Currency, minor: int,
                   category: Option<Label>, merchant: Label, at: Instant)

  const OTHER: Label := 0

  /** The filter every aggregate shares. */
  predicate IsRecorded(tx: Tx, user: User, p: Period) {
    tx.user == user && Recorded(tx.status) && !tx.deleted && Contains(p, tx.at)
  }

  function Select(txs: seq<Tx>, user: User, p: Period): seq<Tx> {
    if txs == [] then [] else
    Select(txs[..|txs| - 1], user, p) + (if IsRecorded(txs[|txs| - 1], user, p) then [txs[|txs| - 1]] else [])
  }

  lemma {:induction false} SelectCounts(txs: seq<Tx>, user: User, p: Period, tx: Tx)
    ensures multiset(Select(txs, user, p))[tx] == if IsRecorded(tx, user, p) then multiset(txs)[tx] else 0
    decreases |txs|
  {
    hide IsRecorded;
    if txs != [] {
      var before, last := txs[..|txs| - 1], txs[|txs| - 1];
      var sel := Select(before, user, p);
      SelectCounts(before, user, p, tx);
      assert txs == before + [last];
      CountLast(before, last, tx);
      if IsRecorded(last, user, p) { CountLast(sel, last, tx); } else { assert sel + [] == sel; }
    }
  }

  /** Selected is, as often as it occurs, what the user recorded, did not delete, and dated from the start of the period
      to before its end. */
  lemma SelectIsExact(txs: seq<Tx>, user: User, p: Period, tx: Tx)
    ensures multiset(Select(txs, user, p))[tx]
            == if && tx.user == user && tx.status in {TxConfirmed, TxAmended} && !tx.deleted
                  && p.start <= tx.at && tx.at < p.end
               then multiset(txs)[tx] else 0
  {
    hide Select;
    SelectCounts(txs, user, p, tx);
  }

  lemma CountLast(txs: seq<Tx>, last: Tx, tx: Tx)
    ensures multiset(txs + [last])[tx] == multiset(txs)[tx] + if last == tx then 1 else 0
  {
  }

  // ---------------------------------------------------------------- GROUP BY

  datatype Grouping = ByKind | ByCategory | ByMerchant

  datatype Row = Row(name: Label, currency: Currency, minor: int, count: nat)

  function KindLabel(k: Kind): Label {
    match k case Expense => 0 case Income => 1 case Refund => 2 case Transfer => 3 case Adjustment => 4
  }

  function LabelOf(g: Grouping, tx: Tx): Label {
    match g
    case ByKind => KindLabel(tx.kind)
    case ByCategory => if tx.category.None? then OTHER else tx.category.value
    case ByMerchant => tx.merchant
  }

  /** The breakdowns are of expenses only. */
  predicate Includes(g: Grouping, tx: Tx) {
    g == ByKind || tx.kind == Expense
  }

  /** Adds one transaction to the row with its label and currency, or opens that row. */
  function Add(rows: seq<Row>, name: Label, currency: Currency, minor: int): seq<Row> {
    if rows == [] then [Row(name, currency, minor, 1)]
    else if rows[0].name == name && rows[0].currency == currency then
      [rows[0].(minor := rows[0].minor + minor, count := rows[0].count + 1)] + rows[1..]
    else [rows[0]] + Add(rows[1..], name, currency, minor)
  }

  function GroupRows(txs: seq<Tx>, g: Grouping): seq<Row> {
    if txs == [] then [] else
    var rows, tx := GroupRows(txs[..|txs| - 1], g), txs[|txs| - 1];
    if Includes(g, tx) then Add(rows, LabelOf(g, tx), tx.currency, tx.minor) else rows
  }

  method GroupBy(txs: seq<Tx>, g: Grouping) returns (rows: seq<Row>)
    ensures rows == GroupRows(txs, g)
  {
    rows := [];
    for i := 0 to |txs|
      invariant rows == GroupRows(txs[..i], g)
    {
      assert txs[..i + 1][..i] == txs[..i];
      var tx := txs[i];
      if Includes(g, tx) {
        rows := AddRow(rows, LabelOf(g, tx), tx.currency, tx.minor);
      }
    }
    assert txs[..|txs|] == txs;
  }

  method AddRow(rows: seq<Row>, name: Label, currency: Currency, minor: int) returns (more: seq<Row>)
    ensures more == Add(rows, name, currency, minor)
  {
    hide Add;
    var i := 0;
    SplitRows(rows, 0);
    while i < |rows| && !(rows[i].name == name && rows[i].currency == currency)
      invariant i <= |rows|
      invariant Add(rows, name, currency, minor) == rows[..i] + Add(rows[i..], name, currency, minor)
    {
      AddLater(rows, i, name, currency, minor);
      i := i + 1;
    }
    AddHere(rows[i..], name, currency, minor);
    SplitRows(rows, i);
    if i == |rows| {
      more := rows + [Row(name, currency, minor, 1)];
    } else {
      more := rows[..i] + ([rows[i].(minor := rows[i].minor + minor, count := rows[i].count + 1)] + rows[i + 1..]);
    }
  }

  lemma SplitRows(rows: seq<Row>, i: nat)
    requires i <= |rows|
    ensures rows[0..] == rows && rows[..0] == [] && rows[..|rows|] == rows
    ensures i < |rows| ==> rows[i..][0] == rows[i] && rows[i..][1..] == rows[i + 1..]
  {
  }

  lemma AddLater(rows: seq<Row>, i: nat, name: Label, currency: Currency, minor: int)
    requires i < |rows| && !(rows[i].name == name && rows[i].currency == currency)
    ensures rows[..i] + Add(rows[i..], name, currency, minor)
            == rows[..i + 1] + Add(rows[i + 1..], name, currency, minor)
  {
    SplitRows(rows, i);
    var rest := Add(rows[i + 1..], name, currency, minor);
    assert Add(rows[i..], name, currency, minor) == [rows[i]] + rest;
    assert rows[..i + 1] == rows[..i] + [rows[i]];
  }

  lemma AddHere(rows: seq<Row>, name: Label, currency: Currency, minor: int)
    ensures rows == [] ==> Add(rows, name, currency, minor) == [Row(name, currency, minor, 1)]
    ensures rows != [] && rows[0].name == name && rows[0].currency == currency ==>
              Add(rows, name, currency, minor)
              == [rows[0].(minor := rows[0].minor + minor, count := rows[0].count + 1)] + rows[1..]
  {
  }

  // ---------------------------------------------------------------- totals, without grouping

  /** The plain sum and number of the transactions with a label and currency. */
  function Total(txs: seq<Tx>, g: Grouping, name: Label, currency: Currency): int {
    if txs == [] then 0 else
    var tx := txs[|txs| - 1];
    Total(txs[..|txs| - 1], g, name, currency)
    + if Includes(g, tx) && LabelOf(g, tx) == name && tx.currency == currency then tx.minor else 0
  }

  function Number(txs: seq<Tx>, g: Grouping, name: Label, currency: Currency): nat {
    if txs == [] then 0 else
    var tx := txs[|txs| - 1];
    Number(txs[..|txs| - 1], g, name, currency)
    + if Includes(g, tx) && LabelOf(g, tx) == name && tx.currency == currency then 1 else 0
  }

  function Spent(txs: seq<Tx>, currency: Currency): int {
    Total(txs, ByKind, KindLabel(Expense), currency)
  }

  function Expenses(txs: seq<Tx>, currency: Currency): nat {
    Number(txs, ByKind, KindLabel(Expense), currency)
  }

  /** What one more transaction adds: to the total of its kind, and if it is an expense to its category, which is
      "other" if it has none, and to its merchant; always in its own currency. */
  lemma OneMore(txs: seq<Tx>, tx: Tx, kind: Kind, name: Label, currency: Currency)
    ensures var more := txs + [tx];
            var ofKind := tx.kind == kind && tx.currency == currency;
            var spent := tx.kind == Expense && tx.currency == currency;
            var inCategory := spent && name == (match tx.category case None => 0 case Some(category) => category);
            var atMerchant := spent && name == tx.merchant;
            && Total(more, ByKind, KindLabel(kind), currency)
               == Total(txs, ByKind, KindLabel(kind), currency) + (if ofKind then tx.minor else 0)
            && Number(more, ByKind, KindLabel(kind), currency)
               == Number(txs, ByKind, KindLabel(kind), currency) + (if ofKind then 1 else 0)
            && Spent(more, currency) == Spent(txs, currency) + (if spent then tx.minor else 0)
            && Expenses(more, currency) == Expenses(txs, currency) + (if spent then 1 else 0)
            && Total(more, ByCategory, name, currency)
               == Total(txs, ByCategory, name, currency) + (if inCategory then tx.minor else 0)
            && Number(more, ByCategory, name, currency)
               == Number(txs, ByCategory, name, currency) + (if inCategory then 1 else 0)
            && Total(more, ByMerchant, name, currency)
               == Total(txs, ByMerchant, name, currency) + (if atMerchant then tx.minor else 0)
            && Number(more, ByMerchant, name, currency)
               == Number(txs, ByMerchant, name, currency) + (if atMerchant then 1 else 0)
    ensures forall g :: Total([], g, name, currency) == 0 && Number([], g, name, currency) == 0
  {
    assert (txs + [tx])[..|txs|] == txs;
  }

  /** What a list of rows says about a label and currency. */
  function MinorOf(rows: seq<Row>, name: Label, currency: Currency): int {
    if rows == [] then 0
    else
      (if rows[0].name == name && rows[0].currency == currency then rows[0].minor else 0)
      + MinorOf(rows[1..], name, currency)
  }

  function CountOf(rows: seq<Row>, name: Label, currency: Currency): nat {
    if rows == [] then 0
    else
      (if rows[0].name == name && rows[0].currency == currency then rows[0].count else 0)
      + CountOf(rows[1..], name, currency)
  }

  /** The sums of a column over the rows of one currency. */
  function MinorSum(rows: seq<Row>, currency: Currency): int {
    if rows == [] then 0
    else (if rows[0].currency == currency then rows[0].minor else 0) + MinorSum(rows[1..], currency)
  }

  function CountSum(rows: seq<Row>, currency: Currency): nat {
    if rows == [] then 0
    else (if rows[0].currency == currency then rows[0].count else 0) + CountSum(rows[1..], currency)
  }

  predicate Distinct(rows: seq<Row>) {
    forall i, j :: 0 <= i < j < |rows| ==> rows[i].name != rows[j].name || rows[i].currency != rows[j].currency
  }

  predicate HasRow(rows: seq<Row>, name: Label, currency: Currency) {
    exists j :: 0 <= j < |rows| && rows[j].name == name && rows[j].currency == currency
  }

  predicate NonEmptyRows(rows: seq<Row>) {
    forall i :: 0 <= i < |rows| ==> rows[i].count > 0
  }

  lemma {:induction false} AddCounts(rows: seq<Row>, name: Label, currency: Currency, minor: int, l: Label, c: Currency)
    ensures var more := Add(rows, name, currency, minor);
            && MinorOf(more, l, c) == MinorOf(rows, l, c) + (if l == name && c == currency then minor else 0)
            && CountOf(more, l, c) == CountOf(rows, l, c) + (if l == name && c == currency then 1 else 0)
            && MinorSum(more, c) == MinorSum(rows, c) + (if c == currency then minor else 0)
            && CountSum(more, c) == CountSum(rows, c) + (if c == currency then 1 else 0)
  {
    var more := Add(rows, name, currency, minor);
    if rows == [] {
      assert more[1..] == [];
    } else if rows[0].name == name && rows[0].currency == currency {
      assert more[1..] == rows[1..];
    } else {
      assert more[1..] == Add(rows[1..], name, currency, minor);
      AddCounts(rows[1..], name, currency, minor, l, c);
    }
  }

  lemma {:induction false} AddDistinct(rows: seq<Row>, name: Label, currency: Currency, minor: int)
    requires Distinct(rows) && NonEmptyRows(rows)
    ensures var more := Add(rows, name, currency, minor);
            && Distinct(more) && NonEmptyRows(more)
            && forall i :: 0 <= i < |more| ==>
                             || (more[i].name == name && more[i].currency == currency)
                             || HasRow(rows, more[i].name, more[i].currency)
  {
    if rows != [] {
      var more, rest := Add(rows, name, currency, minor), rows[1..];
      if rows[0].name == name && rows[0].currency == currency {
        assert forall i :: 1 <= i < |more| ==> more[i] == rows[i];
      } else {
        AddDistinct(rest, name, currency, minor);
        var tail := Add(rest, name, currency, minor);
        assert forall i :: 1 <= i < |more| ==> more[i] == tail[i - 1];
        assert forall j :: 0 <= j < |rest| ==> rest[j] == rows[j + 1];
      }
    }
  }

  // ---------------------------------------------------------------- main results on grouping

  /** GROUP BY is exact: one row per label and currency that occurs, with the sum and number of its transactions. */
  lemma {:induction false} GroupsAreExact(txs: seq<Tx>, g: Grouping, name: Label, currency: Currency)
    ensures var rows := GroupRows(txs, g);
            && Distinct(rows) && NonEmptyRows(rows)
            && MinorOf(rows, name, currency) == Total(txs, g, name, currency)
            && CountOf(rows, name, currency) == Number(txs, g, name, currency)
    decreases |txs|
  {
    if txs != [] {
      var before, tx := txs[..|txs| - 1], txs[|txs| - 1];
      GroupsAreExact(before, g, name, currency);
      if Includes(g, tx) {
        var rows := GroupRows(before, g);
        AddCounts(rows, LabelOf(g, tx), tx.currency, tx.minor, name, currency);
        AddDistinct(rows, LabelOf(g, tx), tx.currency, tx.minor);
      }
    }
  }

  /** Either breakdown sums, per currency, to the expense total, and its counts to the number of expenses. */
  lemma {:induction false} BreakdownsSumToTotal(txs: seq<Tx>, g: Grouping, currency: Currency)
    requires g != ByKind
    ensures MinorSum(GroupRows(txs, g), currency) == Spent(txs, currency)
    ensures CountSum(GroupRows(txs, g), currency) == Expenses(txs, currency)
    decreases |txs|
  {
    if txs != [] {
      var before, tx := txs[..|txs| - 1], txs[|txs| - 1];
      BreakdownsSumToTotal(before, g, currency);
      if Includes(g, tx) {
        AddCounts(GroupRows(before, g), LabelOf(g, tx), tx.currency, tx.minor, 0, currency);
      }
    }
  }

  /** Every aggregate over two adjacent periods adds up to the aggregate over their union. */
  lemma {:induction false} AdjacentPeriodsAdd(txs: seq<Tx>, user: User, p: Period, q: Period, g: Grouping, name: Label,
                                              currency: Currency)
    requires p.start <= p.end == q.start <= q.end
    ensures var r := Period(p.start, q.end);
            && Total(Select(txs, user, r), g, name, currency)
               == Total(Select(txs, user, p), g, name, currency) + Total(Select(txs, user, q), g, name, currency)
            && Number(Select(txs, user, r), g, name, currency)
               == Number(Select(txs, user, p), g, name, currency) + Number(Select(txs, user, q), g, name, currency)
            && |Select(txs, user, r)| == |Select(txs, user, p)| + |Select(txs, user, q)|
    decreases |txs|
  {
    if txs != [] {
      var before, tx := txs[..|txs| - 1], txs[|txs| - 1];
      AdjacentPeriodsAdd(before, user, p, q, g, name, currency);
      One(before, user, p, tx, g, name, currency);
      One(before, user, q, tx, g, name, currency);
      One(before, user, Period(p.start, q.end), tx, g, name, currency);
      assert txs == before + [tx];
    }
  }

  function Weight(tx: Tx, g: Grouping, name: Label, currency: Currency): nat {
    if Includes(g, tx) && LabelOf(g, tx) == name && tx.currency == currency then 1 else 0
  }

  lemma One(before: seq<Tx>, user: User, p: Period, tx: Tx, g: Grouping, name: Label, currency: Currency)
    ensures var now, was := Select(before + [tx], user, p), Select(before, user, p);
            var w := if IsRecorded(tx, user, p) then Weight(tx, g, name, currency) else 0;
            && Total(now, g, name, currency) == Total(was, g, name, currency) + w * tx.minor
            && Number(now, g, name, currency) == Number(was, g, name, currency) + w
            && |now| == |was| + if IsRecorded(tx, user, p) then 1 else 0
  {
    var all := before + [tx];
    assert all[..|all| - 1] == before;
    var was := Select(before, user, p);
    assert was + [] == was;
    assert (was + [tx])[..|was|] == was;
  }

  // ---------------------------------------------------------------- the order of a breakdown

  /** ORDER BY currency, amount descending, label. */
  predicate Precedes(a: Row, b: Row) {
    || a.currency < b.currency
    || (a.currency == b.currency && (a.minor > b.minor || (a.minor == b.minor && a.name <= b.name)))
  }

  predicate Sorted(rows: seq<Row>) {
    forall i, j :: 0 <= i < j < |rows| ==> Precedes(rows[i], rows[j])
  }

  function Place(row: Row, rows: seq<Row>): seq<Row> {
    if rows == [] || Precedes(row, rows[0]) then [row] + rows else [rows[0]] + Place(row, rows[1..])
  }

  function Ordered(rows: seq<Row>): seq<Row> {
    if rows == [] then [] else Place(rows[|rows| - 1], Ordered(rows[..|rows| - 1]))
  }

  method OrderRows(rows: seq<Row>) returns (sorted: seq<Row>)
    ensures sorted == Ordered(rows)
  {
    sorted := [];
    for i := 0 to |rows|
      invariant sorted == Ordered(rows[..i])
    {
      assert rows[..i + 1][..i] == rows[..i];
      sorted := Place(rows[i], sorted);
    }
    assert rows[..|rows|] == rows;
  }

  lemma {:induction false} PlaceSorts(row: Row, rows: seq<Row>)
    requires Sorted(rows)
    ensures Sorted(Place(row, rows)) && multiset(Place(row, rows)) == multiset(rows) + multiset{row}
  {
    if rows != [] {
      assert rows == [rows[0]] + rows[1..];
      if !Precedes(row, rows[0]) {
        var rest := Place(row, rows[1..]);
        PlaceSorts(row, rows[1..]);
        PlacedBehind(rows[0], row, rows[1..], rest);
      }
    }
  }

  lemma PlacedBehind(first: Row, row: Row, rows: seq<Row>, rest: seq<Row>)
    requires multiset(rest) == multiset(rows) + multiset{row} && !Precedes(row, first)
    requires forall i :: 0 <= i < |rows| ==> Precedes(first, rows[i])
    ensures forall i :: 0 <= i < |rest| ==> Precedes(first, rest[i])
  {
    forall i | 0 <= i < |rest| ensures Precedes(first, rest[i]) {
      assert rest[i] in multiset(rest);
      assert rest[i] == row || rest[i] in rows;
    }
  }

  /** The rows come sorted, and none is lost, added or changed. */
  lemma {:induction false} OrderedIsSorted(rows: seq<Row>)
    ensures Sorted(Ordered(rows)) && multiset(Ordered(rows)) == multiset(rows)
    ensures forall i, j :: 0 <= i < j < |Ordered(rows)| ==>
              var a, b := Ordered(rows)[i], Ordered(rows)[j];
              && a.currency <= b.currency
              && (a.currency == b.currency ==> a.minor >= b.minor)
              && (a.currency == b.currency && a.minor == b.minor ==> a.name <= b.name)
  {
    if rows != [] {
      var before, row := rows[..|rows| - 1], rows[|rows| - 1];
      assert rows == before + [row];
      OrderedIsSorted(before);
      PlaceSorts(row, Ordered(before));
    }
  }

  lemma {:induction false} PlaceSums(row: Row, rows: seq<Row>, currency: Currency)
    ensures MinorSum(Place(row, rows), currency) == MinorSum([row] + rows, currency)
    ensures CountSum(Place(row, rows), currency) == CountSum([row] + rows, currency)
  {
    assert ([row] + rows)[1..] == rows;
    if rows != [] && !Precedes(row, rows[0]) {
      PlaceSums(row, rows[1..], currency);
      assert Place(row, rows)[1..] == Place(row, rows[1..]);
      assert ([row] + rows[1..])[1..] == rows[1..];
    }
  }

  lemma {:induction false} SumsLast(rows: seq<Row>, row: Row, currency: Currency)
    ensures MinorSum(rows + [row], currency)
            == MinorSum(rows, currency) + (if row.currency == currency then row.minor else 0)
    ensures CountSum(rows + [row], currency)
            == CountSum(rows, currency) + (if row.currency == currency then row.count else 0)
  {
    if rows == [] {
      assert (rows + [row])[1..] == [];
    } else {
      assert (rows + [row])[1..] == rows[1..] + [row];
      SumsLast(rows[1..], row, currency);
    }
  }

  /** Sorting changes no sum. */
  lemma {:induction false} OrderedSums(rows: seq<Row>, currency: Currency)
    ensures MinorSum(Ordered(rows), currency) == MinorSum(rows, currency)
    ensures CountSum(Ordered(rows), currency) == CountSum(rows, currency)
  {
    if rows != [] {
      var before, row := rows[..|rows| - 1], rows[|rows| - 1];
      assert rows == before + [row];
      OrderedSums(before, currency);
      PlaceSums(row, Ordered(before), currency);
      assert ([row] + Ordered(before))[1..] == Ordered(before);
      SumsLast(before, row, currency);
    }
  }

  // ---------------------------------------------------------------- the largest expense per currency

  /** ORDER BY amount descending, then the earliest, then the smallest ID. */
  predicate Beats(a: Tx, b: Tx) {
    a.minor > b.minor || (a.minor == b.minor && (a.at < b.at || (a.at == b.at && a.id <= b.id)))
  }

  function PutLargest(best: seq<Tx>, tx: Tx): seq<Tx> {
    if best == [] || tx.currency < best[0].currency then [tx] + best
    else if tx.currency == best[0].currency then (if Beats(best[0], tx) then best else [tx] + best[1..])
    else [best[0]] + PutLargest(best[1..], tx)
  }

  function Largest(txs: seq<Tx>): seq<Tx> {
    if txs == [] then [] else
    var best, tx := Largest(txs[..|txs| - 1]), txs[|txs| - 1];
    if tx.kind == Expense then PutLargest(best, tx) else best
  }

  method LargestByCurrency(txs: seq<Tx>) returns (best: seq<Tx>)
    ensures best == Largest(txs)
  {
    best := [];
    for i := 0 to |txs|
      invariant best == Largest(txs[..i])
    {
      assert txs[..i + 1][..i] == txs[..i];
      if txs[i].kind == Expense { best := PutLargest(best, txs[i]); }
    }
    assert txs[..|txs|] == txs;
  }

  predicate ByCurrency(best: seq<Tx>) {
    forall i, j :: 0 <= i < j < |best| ==> best[i].currency < best[j].currency
  }

  predicate Covers(best: seq<Tx>, tx: Tx) {
    exists i :: 0 <= i < |best| && best[i].currency == tx.currency && Beats(best[i], tx)
  }

  lemma {:induction false} PutLargestKeeps(best: seq<Tx>, tx: Tx)
    requires ByCurrency(best)
    ensures var more := PutLargest(best, tx);
            && ByCurrency(more) && (forall i :: 0 <= i < |more| ==> more[i] == tx || more[i] in best)
  {
    hide Beats;
    if best != [] && best[0].currency < tx.currency {
      var rest := best[1..];
      assert forall i :: 0 <= i < |rest| ==> rest[i] == best[i + 1];
      PutLargestKeeps(rest, tx);
      var tail := PutLargest(rest, tx);
      assert forall i :: 0 <= i < |tail| ==> best[0].currency < tail[i].currency;
    }
  }

  lemma CoversAt(best: seq<Tx>, i: nat, other: Tx)
    requires i < |best| && best[i].currency == other.currency && Beats(best[i], other)
    ensures Covers(best, other)
  {
  }

  lemma {:induction false} PutLargestCovers(best: seq<Tx>, tx: Tx, other: Tx)
    requires Covers(best, other) || other == tx
    ensures Covers(PutLargest(best, tx), other)
  {
    hide Covers;
    var more := PutLargest(best, tx);
    if other == tx {
      PutLargestCoversNew(best, tx);
    } else {
      var i := Coverer(best, other);
      if tx.currency < best[0].currency {
        assert more[i + 1] == best[i];
        CoversAt(more, i + 1, other);
      } else if tx.currency == best[0].currency {
        CoversAt(more, i, other);
      } else if i == 0 {
        CoversAt(more, 0, other);
      } else {
        CoversAt(best[1..], i - 1, other);
        PutLargestCovers(best[1..], tx, other);
        var k := Coverer(PutLargest(best[1..], tx), other);
        CoversAt(more, k + 1, other);
      }
    }
  }

  lemma Coverer(best: seq<Tx>, other: Tx) returns (i: nat)
    requires Covers(best, other)
    ensures i < |best| && best[i].currency == other.currency && Beats(best[i], other)
  {
    i :| 0 <= i < |best| && best[i].currency == other.currency && Beats(best[i], other);
  }

  lemma {:induction false} PutLargestCoversNew(best: seq<Tx>, tx: Tx)
    ensures Covers(PutLargest(best, tx), tx)
  {
    hide Covers;
    var more := PutLargest(best, tx);
    if best == [] || tx.currency <= best[0].currency {
      CoversAt(more, 0, tx);
    } else {
      PutLargestCoversNew(best[1..], tx);
      var k := Coverer(PutLargest(best[1..], tx), tx);
      CoversAt(more, k + 1, tx);
    }
  }

  lemma {:induction false} LargestCovers(txs: seq<Tx>)
    ensures ByCurrency(Largest(txs))
    ensures forall i :: 0 <= i < |Largest(txs)| ==> Largest(txs)[i] in txs && Largest(txs)[i].kind == Expense
    ensures forall i :: 0 <= i < |txs| && txs[i].kind == Expense ==> Covers(Largest(txs), txs[i])
  {
    if txs != [] {
      var before, tx := txs[..|txs| - 1], txs[|txs| - 1];
      LargestCovers(before);
      assert forall x :: x in before ==> x in txs;
      if tx.kind == Expense {
        PutLargestKeeps(Largest(before), tx);
        forall i | 0 <= i < |txs| && txs[i].kind == Expense ensures Covers(Largest(txs), txs[i]) {
          if i < |before| { assert txs[i] == before[i]; }
          PutLargestCovers(Largest(before), tx, txs[i]);
        }
      }
      assert forall i :: 0 <= i < |before| ==> txs[i] == before[i];
    }
  }

  /** One expense per currency that has one, in the order of currencies; none of its currency is larger, and among equal
      ones it is the earliest, and then the one with the smallest ID. */
  lemma LargestIsLargest(txs: seq<Tx>, i: nat)
    requires i < |txs| && txs[i].kind == Expense
    ensures var best := Largest(txs);
            && (forall k :: 0 <= k < |best| ==> best[k] in txs && best[k].kind == Expense)
            && (forall k, l :: 0 <= k < l < |best| ==> best[k].currency < best[l].currency)
            && (exists k :: 0 <= k < |best| && best[k].currency == txs[i].currency)
            && (forall k :: 0 <= k < |best| && best[k].currency == txs[i].currency ==>
                  && best[k].minor >= txs[i].minor
                  && (best[k].minor == txs[i].minor ==> best[k].at <= txs[i].at)
                  && (best[k].minor == txs[i].minor && best[k].at == txs[i].at ==> best[k].id <= txs[i].id))
  {
    hide Largest, Covers;
    LargestCovers(txs);
    var k := Coverer(Largest(txs), txs[i]);
  }

  // ---------------------------------------------------------------- days without an expense

  function SpendDays(txs: seq<Tx>, zone: Zone): set<Day> {
    set i | 0 <= i < |txs| && txs[i].kind == Expense :: LocalDay(txs[i].at, zone)
  }

  /** COUNT(DISTINCT day). */
  method CountExpenseDays(txs: seq<Tx>, zone: Zone) returns (n: nat)
    ensures n == |SpendDays(txs, zone)|
    ensures n == |set i | 0 <= i < |txs| && txs[i].kind == Expense :: LocalDay(txs[i].at, zone)|
  {
    var days: set<Day> := {};
    for i := 0 to |txs|
      invariant days == SpendDays(txs[..i], zone)
    {
      var tx := txs[i];
      assert forall j :: 0 <= j < i ==> txs[..i + 1][j] == txs[..i][j];
      assert txs[..i + 1][i] == tx;
      OneMoreDay(txs[..i], tx, zone);
      assert txs[..i + 1] == txs[..i] + [tx];
      if tx.kind == Expense { days := days + {LocalDay(tx.at, zone)}; }
    }
    assert txs[..|txs|] == txs;
    n := |days|;
  }

  lemma OneMoreDay(txs: seq<Tx>, tx: Tx, zone: Zone)
    ensures SpendDays(txs + [tx], zone) ==
            SpendDays(txs, zone) + (if tx.kind == Expense then {LocalDay(tx.at, zone)} else {})
  {
    hide LocalDay;
    var more := txs + [tx];
    assert more[|txs|] == tx;
    assert forall i :: 0 <= i < |txs| ==> more[i] == txs[i];
  }

  /** Whole days that start in the period, counted from its start. */
  function DaysFrom(p: Period): int {
    if p.end <= p.start then 0 else (p.end - p.start + DAY - 1) / DAY
  }

  method LocalDays(p: Period, zone: Zone) returns (days: nat)
    ensures days == DaysFrom(p)
  {
    hide AddDate;
    days := 0;
    var d := p.start;
    while d < p.end
      invariant d == p.start + days * DAY
      invariant days > 0 ==> d - DAY < p.end
      decreases p.end - d
    {
      AddDays(d, 1, zone);
      d := AddDate(d, 0, 1, zone);
      days := days + 1;
    }
  }

  function DaysBetween(a: Day, b: Day): (r: set<Day>)
    ensures forall d :: d in r <==> a <= d < b
    decreases b - a
  {
    if b <= a then {} else DaysBetween(a, b - 1) + {b - 1}
  }

  lemma {:induction false} DaysBetweenCount(a: Day, b: Day)
    requires a <= b
    ensures |DaysBetween(a, b)| == b - a
    decreases b - a
  {
    if a < b {
      DaysBetweenCount(a, b - 1);
      assert DaysBetween(a, b) == DaysBetween(a, b - 1) + {b - 1};
    }
  }

  ghost predicate NoExpenseOn(txs: seq<Tx>, d: Day, zone: Zone) {
    forall i :: 0 <= i < |txs| && txs[i].kind == Expense ==> LocalDay(txs[i].at, zone) != d
  }

  lemma {:induction false} SelectedAreRecorded(txs: seq<Tx>, user: User, p: Period)
    ensures forall i :: 0 <= i < |Select(txs, user, p)| ==> IsRecorded(Select(txs, user, p)[i], user, p)
    decreases |txs|
  {
    if txs != [] { SelectedAreRecorded(txs[..|txs| - 1], user, p); }
  }

  /** The local days `[a, b)` without an expense. */
  ghost function FreeDays(txs: seq<Tx>, a: Day, b: Day, zone: Zone): set<Day> {
    set d | d in DaysBetween(a, b) && NoExpenseOn(txs, d, zone)
  }

  /** Days with and without an expense make up all days. */
  lemma DaysSplit(txs: seq<Tx>, a: Day, b: Day, zone: Zone)
    requires a <= b && forall i :: 0 <= i < |txs| ==> a <= LocalDay(txs[i].at, zone) < b
    ensures |FreeDays(txs, a, b, zone)| + |SpendDays(txs, zone)| == b - a
  {
    hide LocalDay;
    var spent, free := SpendDays(txs, zone), FreeDays(txs, a, b, zone);
    DaysBetweenCount(a, b);
    assert DaysBetween(a, b) == spent + free && spent !! free;
  }

  /** The number reported for a period. */
  ghost function ReportedDays(txs: seq<Tx>, user: User, p: Period, zone: Zone): int {
    DaysFrom(p) - |SpendDays(Select(txs, user, p), zone)|
  }

  /** For any period the reported number is the number of its local days without an expense exactly when the period is
      walked in as many days as it touches. */
  lemma NoSpendDaysExactWhen(txs: seq<Tx>, user: User, p: Period, zone: Zone)
    requires p.start < p.end
    ensures var a, b := LocalDay(p.start, zone), LocalDay(p.end - 1, zone) + 1;
            ReportedDays(txs, user, p, zone) == |FreeDays(Select(txs, user, p), a, b, zone)| <==> DaysFrom(p) == b - a
  {
    hide DaysFrom, SpendDays, FreeDays, Select;
    var a, b := LocalDay(p.start, zone), LocalDay(p.end - 1, zone) + 1;
    var sel := Select(txs, user, p);
    SelectedAreRecorded(txs, user, p);
    forall i | 0 <= i < |sel| ensures a <= LocalDay(sel[i].at, zone) < b {
      assert IsRecorded(sel[i], user, p);
    }
    DaysSplit(sel, a, b, zone);
  }

  /** Between local midnights it is. */
  lemma NoSpendDaysAreExact(txs: seq<Tx>, user: User, a: Day, b: Day, zone: Zone)
    requires a < b
    ensures var p := Period(Midnight(a, zone), Midnight(b, zone));
            && ReportedDays(txs, user, p, zone) == |FreeDays(Select(txs, user, p), a, b, zone)|
            && ReportedDays(txs, user, p, zone) >= 0
  {
    hide ReportedDays, FreeDays, Select, DaysFrom, LocalDay;
    var p := Period(Midnight(a, zone), Midnight(b, zone));
    MidnightDays(a, b, zone);
    WholeDays(a, b, zone);
    NoSpendDaysExactWhen(txs, user, p, zone);
  }

  lemma MidnightDays(a: Day, b: Day, zone: Zone)
    requires a < b
    ensures LocalDay(Midnight(a, zone), zone) == a && LocalDay(Midnight(b, zone) - 1, zone) == b - 1
    ensures Midnight(a, zone) < Midnight(b, zone)
  {
  }

  lemma WholeDays(a: Day, b: Day, zone: Zone)
    requires a <= b
    ensures DaysFrom(Period(Midnight(a, zone), Midnight(b, zone))) == b - a
  {
    var n := b - a;
    assert Midnight(b, zone) - Midnight(a, zone) == n * DAY;
    assert (n * DAY + DAY - 1) / DAY == n;
  }

  /** Off midnight the number can even be negative: two expenses around midnight in a period of two nanoseconds. */
  lemma OffMidnightCanBeNegative()
    ensures var e := Tx(0, 0, Expense, TxConfirmed, false, 0, 1, None, 0, DAY - 1);
            var p := Period(DAY - 1, DAY + 1);
            ReportedDays([e, e.(at := DAY)], 0, p, 0) == -1
  {
    var e := Tx(0, 0, Expense, TxConfirmed, false, 0, 1, None, 0, DAY - 1);
    var f := e.(at := DAY);
    var p := Period(DAY - 1, DAY + 1);
    assert [e, f][..1] == [e] && [e][..0] == [];
    assert Select([e], 0, p) == [e];
    assert Select([e, f], 0, p) == [e, f];
    OneMoreDay([], e, 0);
    OneMoreDay([e], f, 0);
    assert [] + [e] == [e] && [e] + [f] == [e, f];
    assert SpendDays([e, f], 0) == {0, 1};
  }

  ghost predicate BetweenMidnights(p: Period, zone: Zone) {
    exists a: Day, b: Day :: a < b && p == Period(Midnight(a, zone), Midnight(b, zone))
  }

  /** Every period the bot and the runner summarise lies between local midnights. */
  lemma PeriodsLieBetweenMidnights(now: Instant, zone: Zone)
    ensures BetweenMidnights(Today(now, zone), zone) && BetweenMidnights(Yesterday(now, zone), zone)
    ensures BetweenMidnights(ThisWeek(now, zone), zone) && BetweenMidnights(LastWeek(now, zone), zone)
    ensures BetweenMidnights(ThisMonth(now, zone), zone) && BetweenMidnights(LastMonth(now, zone), zone)
  {
    hide Today, Yesterday, ThisWeek, LastWeek, ThisMonth, LastMonth, MonthStart, ValidDate, LocalDay, Midnight;
    DayForm(now, zone);
    WeekForm(now, zone);
    MonthForm(now, zone);
    MonthsIncrease(MonthIndex(LocalDay(now, zone)) - 1, MonthIndex(LocalDay(now, zone)));
  }

  // ---------------------------------------------------------------- the summary

  datatype Summary = Summary(currencyTotals: map<Currency, int>, refundTotals: map<Currency, int>,
                             byCategory: seq<Row>, byMerchant: seq<Row>, txCount: nat, largest: seq<Tx>,
                             noSpendDays: int)

  function CountAll(rows: seq<Row>): nat {
    if rows == [] then 0 else CountAll(rows[..|rows| - 1]) + rows[|rows| - 1].count
  }

  lemma {:induction false} CountAllAppend(row: Row, rows: seq<Row>)
    ensures CountAll([row] + rows) == row.count + CountAll(rows)
  {
    if rows == [] {
      assert ([row] + rows)[..0] == [];
    } else {
      CountAllAppend(row, rows[..|rows| - 1]);
      assert ([row] + rows)[..|rows|] == [row] + rows[..|rows| - 1];
    }
  }

  lemma {:induction false} AddCountsOne(rows: seq<Row>, name: Label, currency: Currency, minor: int)
    ensures CountAll(Add(rows, name, currency, minor)) == CountAll(rows) + 1
  {
    if rows == [] {
      assert [Row(name, currency, minor, 1)][..0] == [];
    } else {
      var head, rest := rows[0], rows[1..];
      assert rows == [head] + rest;
      CountAllAppend(head, rest);
      if head.name == name && head.currency == currency {
        CountAllAppend(head.(minor := head.minor + minor, count := head.count + 1), rest);
      } else {
        AddCountsOne(rest, name, currency, minor);
        CountAllAppend(head, Add(rest, name, currency, minor));
      }
    }
  }

  lemma {:induction false} EveryTxCounted(txs: seq<Tx>)
    ensures CountAll(GroupRows(txs, ByKind)) == |txs|
    decreases |txs|
  {
    if txs != [] {
      var before, tx := txs[..|txs| - 1], txs[|txs| - 1];
      EveryTxCounted(before);
      AddCountsOne(GroupRows(before, ByKind), LabelOf(ByKind, tx), tx.currency, tx.minor);
    }
  }

  /** The rows of one kind, as a map from currency to amount. */
  function KindTotals(rows: seq<Row>, kind: Kind): map<Currency, int> {
    if rows == [] then map[] else
    var rest, row := KindTotals(rows[..|rows| - 1], kind), rows[|rows| - 1];
    if row.name == KindLabel(kind) then rest[row.currency := row.minor] else rest
  }

  lemma {:induction false} MinorOfLast(rows: seq<Row>, row: Row, name: Label, currency: Currency)
    ensures var hit := row.name == name && row.currency == currency;
            && MinorOf(rows + [row], name, currency) == MinorOf(rows, name, currency) + (if hit then row.minor else 0)
            && CountOf(rows + [row], name, currency) == CountOf(rows, name, currency) + (if hit then row.count else 0)
  {
    if rows == [] {
      assert (rows + [row])[1..] == [];
    } else {
      assert (rows + [row])[1..] == rows[1..] + [row];
      MinorOfLast(rows[1..], row, name, currency);
    }
  }

  lemma {:induction false} AbsentRow(rows: seq<Row>, name: Label, currency: Currency)
    requires forall i :: 0 <= i < |rows| ==> rows[i].name != name || rows[i].currency != currency
    ensures MinorOf(rows, name, currency) == 0 && CountOf(rows, name, currency) == 0
  {
    if rows != [] { AbsentRow(rows[1..], name, currency); }
  }

  lemma {:induction false} KindTotalsOf(rows: seq<Row>, kind: Kind, currency: Currency)
    requires Distinct(rows) && NonEmptyRows(rows)
    ensures var m := KindTotals(rows, kind);
            && (currency in m <==> CountOf(rows, KindLabel(kind), currency) > 0)
            && (currency in m ==> m[currency] == MinorOf(rows, KindLabel(kind), currency))
  {
    if rows != [] {
      var before, row := rows[..|rows| - 1], rows[|rows| - 1];
      assert rows == before + [row];
      KindTotalsOf(before, kind, currency);
      MinorOfLast(before, row, KindLabel(kind), currency);
      if row.name == KindLabel(kind) && row.currency == currency { AbsentRow(before, row.name, currency); }
    }
  }

  /** A breakdown as it is shown: grouped, sorted, and adding up to the expense total. */
  method Breakdown(txs: seq<Tx>, g: Grouping) returns (rows: seq<Row>)
    requires g != ByKind
    ensures rows == Ordered(GroupRows(txs, g)) && Sorted(rows)
    ensures forall c :: MinorSum(rows, c) == Spent(txs, c) && CountSum(rows, c) == Expenses(txs, c)
  {
    hide GroupRows, Ordered, MinorSum, CountSum, Spent, Expenses, Sorted;
    var groups := GroupBy(txs, g);
    rows := OrderRows(groups);
    OrderedIsSorted(groups);
    forall c ensures MinorSum(rows, c) == Spent(txs, c) && CountSum(rows, c) == Expenses(txs, c) {
      OrderedSums(groups, c);
      BreakdownsSumToTotal(txs, g, c);
    }
  }

  /** Summarise: refused for an empty period; otherwise exact totals per currency, exact breakdowns, and every selected
      transaction counted. */
  method Summarise(txs: seq<Tx>, user: User, zone: Zone, p: Period) returns (r: Option<Summary>)
    ensures r.None? <==> p.end <= p.start
    ensures r.Some? ==>
              var sel, sum := Select(txs, user, p), r.value;
              && (forall c :: c in sum.currencyTotals <==> Expenses(sel, c) > 0)
              && (forall c :: c in sum.currencyTotals ==> sum.currencyTotals[c] == Spent(sel, c))
              && (forall c :: c in sum.refundTotals <==> Number(sel, ByKind, KindLabel(Refund), c) > 0)
              && (forall c :: c in sum.refundTotals ==> sum.refundTotals[c] == Total(sel, ByKind, KindLabel(Refund), c))
              && sum.byCategory == Ordered(GroupRows(sel, ByCategory))
              && sum.byMerchant == Ordered(GroupRows(sel, ByMerchant))
              && sum.txCount == |sel| && sum.largest == Largest(sel)
              && sum.noSpendDays == ReportedDays(txs, user, p, zone)
              && (forall c :: MinorSum(sum.byCategory, c) == MinorSum(sum.byMerchant, c) == Spent(sel, c))
              && (forall c :: CountSum(sum.byCategory, c) == CountSum(sum.byMerchant, c) == Expenses(sel, c))
  {
    hide Select, GroupRows, SpendDays, Total, Number, MinorOf, CountOf, Ordered, Largest, MinorSum, CountSum;
    if p.end <= p.start { return None; }
    var sel := Select(txs, user, p);
    var totals := GroupBy(sel, ByKind);
    var txCount, spent, refunded := 0, map[], map[];
    for i := 0 to |totals|
      invariant txCount == CountAll(totals[..i])
      invariant spent == KindTotals(totals[..i], Expense) && refunded == KindTotals(totals[..i], Refund)
    {
      var row := totals[i];
      assert totals[..i + 1][..i] == totals[..i];
      txCount := txCount + row.count;
      if row.name == KindLabel(Expense) {
        spent := spent[row.currency := row.minor];
      } else if row.name == KindLabel(Refund) {
        refunded := refunded[row.currency := row.minor];
      }
    }
    assert totals[..|totals|] == totals;
    EveryTxCounted(sel);
    forall c: Currency
      ensures c in spent <==> Expenses(sel, c) > 0
      ensures c in spent ==> spent[c] == Spent(sel, c)
      ensures c in refunded <==> Number(sel, ByKind, KindLabel(Refund), c) > 0
      ensures c in refunded ==> refunded[c] == Total(sel, ByKind, KindLabel(Refund), c) {
      GroupsAreExact(sel, ByKind, KindLabel(Expense), c);
      GroupsAreExact(sel, ByKind, KindLabel(Refund), c);
      KindTotalsOf(totals, Expense, c);
      KindTotalsOf(totals, Refund, c);
    }
    var categories := Breakdown(sel, ByCategory);
    var merchants := Breakdown(sel, ByMerchant);
    var largest := LargestByCurrency(sel);
    var days := LocalDays(p, zone);
    var spendDays := CountExpenseDays(sel, zone);
    var noSpendDays: int := days;
    noSpendDays := noSpendDays - spendDays;
    r := Some(Summary(spent, refunded, categories, merchants, txCount, largest, noSpendDays));
  }
}
