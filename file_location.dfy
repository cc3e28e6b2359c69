/**
 * Source locations (pkg/tin/file_location.go): a file name with a zero-based
 * column and row, rendered one-based as `name:row:col`.
 */
module Locations {
  import opened Wrappers
  import opened Decimal

  /** Fields in the Go declaration order: column before row. */
  datatype Location = Location(fileName: string, col: int, row: int)

  /**
   * `fileLocation.String`: the file name and a colon, then `row:col`, printed
   * one-based with the row first.
   */
  function LocationString(l: Location): (s: string)
    ensures l.fileName + ":" <= s && |s| >= |l.fileName| + 4
  {
    l.fileName + ":" + IntToDecimal(l.row + 1) + ":" + IntToDecimal(l.col + 1)
  }

  /** Index of the first ':' in `s`, or |s| when there is none. */
  function IndexOfColon(s: string): (i: nat)
    ensures i <= |s|
    ensures forall k | 0 <= k < i :: s[k] != ':'
    ensures i < |s| ==> s[i] == ':'
  {
    if s == [] then 0
    else if s[0] == ':' then 0
    else 1 + IndexOfColon(s[1..])
  }

  /**
   * Reads a rendering back into its zero-based (row, col), given the file name
   * (a file name may itself contain ':').
   */
  function ParseLocation(fileName: string, s: string): Option<(int, int)> {
    var prefix := fileName + ":";
    if |s| < |prefix| || s[..|prefix|] != prefix then None
    else ParseRowCol(s[|prefix|..])
  }

  /** Reads `row:col` (both one-based) into the zero-based pair. */
  function ParseRowCol(rest: string): Option<(int, int)> {
    var i := IndexOfColon(rest);
    if i == |rest| then None
    else
      match (ParseDecimal(rest[..i]), ParseDecimal(rest[i + 1..]))
      case (Some(r), Some(c)) => Some((r - 1, c - 1))
      case _ => None
  }

  lemma {:induction false} ColonSplit(a: string, b: string)
    requires forall k | 0 <= k < |a| :: a[k] != ':'
    ensures IndexOfColon(a + ":" + b) == |a|
  {
    if a != [] {
      assert (a + ":" + b)[1..] == a[1..] + ":" + b;
      ColonSplit(a[1..], b);
    }
  }

  lemma {:induction false} RowColRoundTrip(row: int, col: int)
    ensures ParseRowCol(IntToDecimal(row + 1) + ":" + IntToDecimal(col + 1)) == Some((row, col))
  {
    var rowText, colText := IntToDecimal(row + 1), IntToDecimal(col + 1);
    var rest := rowText + ":" + colText;
    assert forall k | 0 <= k < |rowText| :: rowText[k] != ':' by {
      assert forall k | 0 <= k < |rowText| :: IsDigit(rowText[k]) || rowText[k] == '-';
    }
    ColonSplit(rowText, colText);
    assert rest[..|rowText|] == rowText;
    assert rest[|rowText| + 1..] == colText;
    IntToDecimalRoundTrip(row + 1);
    IntToDecimalRoundTrip(col + 1);
  }

  /** The rendering reads back to the row and the column, in that order. */
  lemma {:induction false} LocationRoundTrip(l: Location)
    ensures ParseLocation(l.fileName, LocationString(l)) == Some((l.row, l.col))
  {
    var rest := IntToDecimal(l.row + 1) + ":" + IntToDecimal(l.col + 1);
    var s := LocationString(l);
    var prefix := l.fileName + ":";
    assert s == prefix + rest;
    assert s[..|prefix|] == prefix;
    assert s[|prefix|..] == rest;
    RowColRoundTrip(l.row, l.col);
  }

  /** Within one file, distinct (row, col) pairs render to distinct strings. */
  lemma {:induction false} LocationStringInjective(l1: Location, l2: Location)
    requires l1.fileName == l2.fileName
    requires LocationString(l1) == LocationString(l2)
    ensures l1 == l2
  {
    LocationRoundTrip(l1);
    LocationRoundTrip(l2);
  }

  /** The location the tokenizer starts from renders as `name:1:1`. */
  lemma {:induction false} StartLocationString(fileName: string)
    ensures LocationString(Location(fileName, 0, 0)) == fileName + ":1:1"
  {
  }
}
