/** A worksheet as the spreadsheet library hands it over when asked for rows of raw
    cells (`sheet_to_json(worksheet, { header: 1 })`): a sequence of rows, each a
    sequence of cell values, and the JavaScript rules the readers apply to them. */
module Sheet {

  /** A raw cell value: a hole in the row (`undefined`), a string, a number or a boolean. */
  datatype Cell = Missing | Str(s: string) | Num(n: int) | Bool(b: bool)

  /** JavaScript falsiness of a cell value: `undefined`, `''`, `0` and `false`. */
  predicate IsFalsy(c: Cell)
  {
    c.Missing? || c == Str("") || c == Num(0) || c == Bool(false)
  }

  /** The value of `cell || ''`: a falsy cell becomes the empty string, any other cell is
      kept as it is (a numeric or boolean cell stays numeric or boolean). */
  function OrEmpty(c: Cell): (r: Cell)
    ensures r == Str("") <==> IsFalsy(c)
    ensures r != Str("") ==> r == c
    ensures !r.Missing? && (r == Str("") || !IsFalsy(r))
  {
    if IsFalsy(c) then Str("") else c
  }

  /** `row[j]`: reading past the end of a row gives `undefined`. */
  function At(cells: seq<Cell>, j: nat): Cell
  {
    if j < |cells| then cells[j] else Missing
  }

  /** The decimal digits of a natural number. */
  function NatDigits(n: nat): (r: string)
    ensures |r| >= 1
    ensures forall i :: 0 <= i < |r| ==> '0' <= r[i] <= '9'
    decreases n
  {
    var d := ['0' + (n % 10) as char];
    if n < 10 then d else NatDigits(n / 10) + d
  }

  /** The string an integer prints as (`String(n)` for an integral number). */
  function DecimalString(n: int): string
  {
    if n < 0 then "-" + NatDigits(-n) else NatDigits(n)
  }

  /** The property key a cell value becomes when it is used to index a plain object:
      strings stand for themselves, numbers and booleans are converted to strings. */
  function PropertyKey(c: Cell): (k: string)
    ensures c.Str? ==> k == c.s
    ensures c.Num? ==> k == DecimalString(c.n)
    ensures c.Bool? ==> k == (if c.b then "true" else "false")
    ensures c.Missing? ==> k == "undefined"
  {
    match c
    case Missing => "undefined"
    case Str(s) => s
    case Num(n) => DecimalString(n)
    case Bool(b) => if b then "true" else "false"
  }

  /** A numeric id and its decimal spelling as a string are one and the same key, so
      they index one entry of a plain object. */
  lemma NumericKeyIsItsSpelling(n: int)
    ensures PropertyKey(Num(n)) == PropertyKey(Str(DecimalString(n)))
  {
  }

  /** Different natural numbers have different digits. */
  lemma {:induction false} NatDigitsInjective(m: nat, n: nat)
    requires NatDigits(m) == NatDigits(n)
    ensures m == n
    decreases m
  {
    if m >= 10 && n >= 10 {
      var a, b := NatDigits(m), NatDigits(n);
      assert a[..|a| - 1] == NatDigits(m / 10);
      assert b[..|b| - 1] == NatDigits(n / 10);
      NatDigitsInjective(m / 10, n / 10);
    }
  }

  /** An integer prints with a leading minus sign exactly when it is negative. */
  lemma DecimalSign(n: int)
    ensures DecimalString(n)[0] == '-' <==> n < 0
  {
    if n >= 0 { assert '0' <= NatDigits(n)[0] <= '9'; }
  }

  /** Distinct numeric ids never share a key, so they never share an entry of the
      grouped dictionary. */
  lemma DistinctNumericKeys(m: int, n: int)
    requires m != n
    ensures PropertyKey(Num(m)) != PropertyKey(Num(n))
  {
    DecimalSign(m);
    DecimalSign(n);
    if DecimalString(m) == DecimalString(n) {
      if m < 0 && n < 0 {
        var a, b := DecimalString(m), DecimalString(n);
        assert a[1..] == NatDigits(-m) && b[1..] == NatDigits(-n);
        NatDigitsInjective(-m, -n);
      } else if m >= 0 && n >= 0 {
        NatDigitsInjective(m, n);
      }
    }
  }

  /** An entry of the parsed row list: a row array, or nothing at that position. */
  datatype Row = Absent | Present(cells: seq<Cell>)

  /** A workbook, already parsed out of its file: sheet name to rows. */
  type Workbook = map<string, seq<Row>>

  /** The readers' row test `row && row.length >= width`. */
  predicate Keeps(row: Row, width: nat)
  {
    row.Present? && |row.cells| >= width
  }

  /** A row that passed the test, with its 1-based position in the parsed row list. */
  datatype KeptRow = KeptRow(rowIndex: nat, cells: seq<Cell>)

  /** The rows a reader keeps among the first `n` parsed rows: row 0 is the header and
      is skipped, each later row `i` is kept, as `KeptRow(i + 1, cells)`, when it passes
      the width test. */
  function KeptRows(rows: seq<Row>, n: nat, width: nat): (r: seq<KeptRow>)
    requires n <= 1 || n <= |rows|
    ensures n <= 1 ==> r == []
    ensures n >= 1 ==> |r| <= n - 1
    ensures forall k :: 0 <= k < |r| ==>
      2 <= r[k].rowIndex <= n && Keeps(rows[r[k].rowIndex - 1], width) &&
      r[k].cells == rows[r[k].rowIndex - 1].cells
    ensures forall k, l :: 0 <= k < l < |r| ==> r[k].rowIndex < r[l].rowIndex
    decreases n
  {
    if n <= 1 then []
    else
      var front := KeptRows(rows, n - 1, width);
      if !Keeps(rows[n - 1], width) then front
      else
        var r := front + [KeptRow(n, rows[n - 1].cells)];
        assert forall k :: 0 <= k < |front| ==> r[k] == front[k];
        r
  }

  /** No row that passes the width test is lost: row `i` (after the header) appears,
      with its cells, at rowIndex `i + 1`. */
  lemma {:induction false} KeptRowsComplete(rows: seq<Row>, n: nat, width: nat, i: nat)
    requires n <= |rows|
    requires 1 <= i < n && Keeps(rows[i], width)
    ensures KeptRow(i + 1, rows[i].cells) in KeptRows(rows, n, width)
    decreases n
  {
    if i < n - 1 {
      KeptRowsComplete(rows, n - 1, width, i);
    }
  }

  /** A row that fails the width test, or the header row, yields nothing. */
  lemma KeptRowsExact(rows: seq<Row>, n: nat, width: nat, i: nat)
    requires n <= |rows|
    requires i < n
    ensures (exists k :: 0 <= k < |KeptRows(rows, n, width)| && KeptRows(rows, n, width)[k].rowIndex == i + 1)
            <==> (i >= 1 && Keeps(rows[i], width))
  {
    var r := KeptRows(rows, n, width);
    if i >= 1 && Keeps(rows[i], width) {
      KeptRowsComplete(rows, n, width, i);
      var k :| 0 <= k < |r| && r[k] == KeptRow(i + 1, rows[i].cells);
    }
  }

  /** Appending cells to a row that already passes the width test keeps the same rows,
      each with the same rowIndex and with its old cells as a prefix. */
  lemma {:induction false} KeptRowsExtendRow(rows: seq<Row>, n: nat, width: nat, i: nat, extra: seq<Cell>)
    requires n <= |rows| && i < |rows| && Keeps(rows[i], width)
    ensures var kept, kept' := KeptRows(rows, n, width), KeptRows(rows[i := Present(rows[i].cells + extra)], n, width);
      |kept'| == |kept| &&
      forall k :: 0 <= k < |kept| ==> kept'[k].rowIndex == kept[k].rowIndex && kept[k].cells <= kept'[k].cells
    decreases n
  {
    if n > 1 {
      KeptRowsExtendRow(rows, n - 1, width, i, extra);
    }
  }
}
