/** sheets.py, `get_dishes_by_sheet` after the API call: the rows of one
    sheet (`values`, a list of rows of cell strings, as the API returns them
    with trailing empty cells cut off) become one record per data row. The
    API call and the credentials are left outside; `values` is the input. */
module Sheets {
  import opened Results
  import opened Text

  type Record = map<string, string>

  const IdKey := "ID"

  /** `row[i] if i < len(row) else ""`. */
  function Cell(row: seq<string>, i: nat): string {
    if i < |row| then row[i] else ""
  }

  /** The first row with every header whitespace-stripped. */
  function Headers(first: seq<string>): (h: seq<string>)
    ensures |h| == |first|
    ensures forall i :: 0 <= i < |first| ==> h[i] == Strip(first[i])
  {
    seq(|first|, i requires 0 <= i < |first| => Strip(first[i]))
  }

  /** The dict comprehension over the first `n` headers: a later duplicate
      header overwrites an earlier one. */
  function Zip(headers: seq<string>, row: seq<string>, n: nat): Record
    requires n <= |headers|
  {
    if n == 0 then map[] else Zip(headers, row, n - 1)[headers[n - 1] := Cell(row, n - 1)]
  }

  /** The dict holds exactly the headers as keys. */
  lemma {:induction false} ZipKeys(headers: seq<string>, row: seq<string>, n: nat)
    requires n <= |headers|
    ensures forall k :: k in Zip(headers, row, n) <==> k in headers[..n]
  {
    if n > 0 {
      ZipKeys(headers, row, n - 1);
      assert headers[..n] == headers[..n - 1] + [headers[n - 1]];
    }
  }

  /** The value under a header is the cell below its last occurrence. */
  lemma {:induction false} ZipValue(headers: seq<string>, row: seq<string>, n: nat, i: nat)
    requires i < n <= |headers| && headers[i] !in headers[i + 1..n]
    ensures headers[i] in Zip(headers, row, n) && Zip(headers, row, n)[headers[i]] == Cell(row, i)
  {
    if i < n - 1 {
      assert headers[i + 1..n] == headers[i + 1..n - 1] + [headers[n - 1]];
      ZipValue(headers, row, n - 1, i);
    }
  }

  lemma ZipValues(headers: seq<string>, row: seq<string>)
    ensures forall i :: 0 <= i < |headers| && headers[i] !in headers[i + 1..] ==>
      headers[i] in Zip(headers, row, |headers|) && Zip(headers, row, |headers|)[headers[i]] == Cell(row, i)
  {
    forall i | 0 <= i < |headers| && headers[i] !in headers[i + 1..]
      ensures headers[i] in Zip(headers, row, |headers|) && Zip(headers, row, |headers|)[headers[i]] == Cell(row, i)
    {
      ZipValue(headers, row, |headers|, i);
    }
  }

  /** One data row. `idx` is its 1-based position below the header row; an
      empty or missing ID is replaced by that number. */
  function ParseRow(headers: seq<string>, row: seq<string>, idx: nat): (r: Record)
    ensures forall k :: k in r <==> k == IdKey || k in headers
    ensures r[IdKey] != ""
    ensures forall i :: 0 <= i < |headers| && headers[i] != IdKey && headers[i] !in headers[i + 1..] ==>
      r[headers[i]] == Cell(row, i)
    ensures (forall i :: 0 <= i < |headers| && headers[i] == IdKey && headers[i] !in headers[i + 1..] ==> Cell(row, i) == "")
      ==> r[IdKey] == NatToString(idx)
    ensures forall i :: 0 <= i < |headers| && headers[i] == IdKey && headers[i] !in headers[i + 1..] && Cell(row, i) != "" ==>
      r[IdKey] == Cell(row, i)
  {
    assert headers[..|headers|] == headers;
    var item := Zip(headers, row, |headers|);
    ZipKeys(headers, row, |headers|);
    ZipValues(headers, row);
    ZipAtLast(headers, row, IdKey);
    if IdKey !in item || item[IdKey] == "" then item[IdKey := NatToString(idx)]
    else item
  }

  /** A header's value is the cell under its last occurrence. */
  lemma ZipAtLast(headers: seq<string>, row: seq<string>, k: string)
    ensures k in headers ==> k in Zip(headers, row, |headers|) && Zip(headers, row, |headers|)[k] == Cell(row, LastIndex(headers, k))
  {
    if k in headers {
      ZipValue(headers, row, |headers|, LastIndex(headers, k));
      assert headers[LastIndex(headers, k) + 1..|headers|] == headers[LastIndex(headers, k) + 1..];
    }
  }

  /** Position of the last occurrence of `k`. */
  function LastIndex(s: seq<string>, k: string): (i: nat)
    requires k in s
    ensures i < |s| && s[i] == k && k !in s[i + 1..]
  {
    if s[|s| - 1] == k then |s| - 1
    else
      assert s == s[..|s| - 1] + [s[|s| - 1]];
      var i := LastIndex(s[..|s| - 1], k);
      assert s[i + 1..] == s[..|s| - 1][i + 1..] + [s[|s| - 1]];
      i
  }

  /** The whole transformation: nothing for an empty sheet, else one record
      per data row, in row order, keyed by the stripped headers plus "ID". */
  function Records(values: seq<seq<string>>): (r: seq<Record>)
    ensures values == [] ==> r == []
    ensures values != [] ==> |r| == |values| - 1
    ensures forall j :: 0 <= j < |r| ==> forall k :: k in r[j] <==> k == IdKey || k in Headers(values[0])
    ensures forall j :: 0 <= j < |r| ==> r[j][IdKey] != ""
  {
    if values == [] then []
    else
      var headers := Headers(values[0]);
      seq(|values| - 1, j requires 0 <= j < |values| - 1 => ParseRow(headers, values[j + 1], j + 1))
  }

  /** Record `j` holds the cells of data row `j` under the stripped headers
      (a missing trailing cell reads as ""), and a row without an ID gets its
      1-based row number, which reads back as that number. */
  lemma RecordContents(values: seq<seq<string>>, j: nat, i: nat)
    requires values != [] && j < |values| - 1 && i < |values[0]|
    ensures var h := Headers(values[0]);
      h[i] != IdKey && h[i] !in h[i + 1..] ==> Records(values)[j][h[i]] == Cell(values[j + 1], i)
    ensures var h := Headers(values[0]);
      IdKey !in h ==> Records(values)[j][IdKey] == NatToString(j + 1) && ParseInt(Records(values)[j][IdKey]) == Some(j + 1)
  {
    ParseIntOfNatToString(j + 1);
  }

  /** Two rows that agree on every header position give the same dict. */
  lemma {:induction false} ZipSameCells(headers: seq<string>, a: seq<string>, b: seq<string>, n: nat)
    requires n <= |headers|
    requires forall i :: 0 <= i < n ==> Cell(a, i) == Cell(b, i)
    ensures Zip(headers, a, n) == Zip(headers, b, n)
  {
    if n > 0 {
      ZipSameCells(headers, a, b, n - 1);
    }
  }

  /** Cells beyond the header count are dropped. */
  lemma ExtraCellsDropped(headers: seq<string>, row: seq<string>, extra: seq<string>, idx: nat)
    requires |row| >= |headers|
    ensures ParseRow(headers, row + extra, idx) == ParseRow(headers, row, idx)
  {
    ZipSameCells(headers, row + extra, row, |headers|);
  }

  /** A short row reads as if padded with "" up to the header count. */
  lemma MissingCellsBlank(headers: seq<string>, row: seq<string>, idx: nat)
    requires |row| < |headers|
    ensures ParseRow(headers, row + seq(|headers| - |row|, _ => ""), idx) == ParseRow(headers, row, idx)
  {
    var padded := row + seq(|headers| - |row|, _ => "");
    ZipSameCells(headers, padded, row, |headers|);
  }
}
