/** Column-to-row decoding: every adapter zips the response's `fields`
    with each row of `items`, and coerces some columns with parseFloat. The
    adapters differ only in which columns they coerce, which is the
    `Coercion` rule here. parseFloat itself is a tag: the model records
    which cells are coerced, not what number results. */
module Columnar {
  import opened JsValues
  import opened Http

  /** A decoded cell: the item's value as it is, or `parseFloat` of it. */
  datatype Cell = Raw(v: Value) | ToNum(v: Value)

  /** A decoded row object: field name to cell. */
  type Row = map<string, Cell>

  /** Which columns an adapter passes through parseFloat. */
  datatype Coercion =
      /** Only the listed columns (pro_bar, daily). */
    | AllowList(numeric: set<string>)
      /** Every column except the listed ones (stk_factor). */
    | DenyList(textual: set<string>)
      /** No column (stk_factor_pro, stock_basic). */
    | Verbatim

  predicate Coerces(rule: Coercion, field: string) {
    match rule
    case AllowList(numeric) => field in numeric
    case DenyList(textual) => field !in textual
    case Verbatim => false
  }

  function CellFor(rule: Coercion, field: string, v: Value): Cell {
    if Coerces(rule, field) then ToNum(v) else Raw(v)
  }

  /** `item[i]`: reading past the end of a short item gives `undefined`. */
  function At(item: seq<Value>, i: nat): Value {
    if i < |item| then item[i] else Undefined
  }

  /** The row after the first `n` column assignments, in index order. */
  function RowPrefix(fields: seq<string>, item: seq<Value>, rule: Coercion, n: nat): Row
    requires n <= |fields|
  {
    if n == 0 then map[]
    else RowPrefix(fields, item, rule, n - 1)[fields[n - 1] := CellFor(rule, fields[n - 1], At(item, n - 1))]
  }

  /** One decoded row: every column assigned once, in index order. */
  function DecodeRow(fields: seq<string>, item: seq<Value>, rule: Coercion): Row {
    RowPrefix(fields, item, rule, |fields|)
  }

  /** The decoded table: one row per item, in item order. */
  function DecodeTable(p: Payload, rule: Coercion): seq<Row> {
    seq(|p.items|, i requires 0 <= i < |p.items| => DecodeRow(p.fields, p.items[i], rule))
  }

  /** The `forEach` over the fields that fills one row object. */
  method BuildRow(fields: seq<string>, item: seq<Value>, rule: Coercion) returns (row: Row)
    ensures row == DecodeRow(fields, item, rule)
  {
    row := map[];
    var index := 0;
    while index < |fields|
      invariant 0 <= index <= |fields|
      invariant row == RowPrefix(fields, item, rule, index)
    {
      var field := fields[index];
      var value := if index < |item| then item[index] else Undefined;
      if Coerces(rule, field) {
        row := row[field := ToNum(value)];
      } else {
        row := row[field := Raw(value)];
      }
      index := index + 1;
    }
  }

  /** `response.items.map(...)`: one row per item, in order. */
  method DecodeRows(p: Payload, rule: Coercion) returns (rows: seq<Row>)
    ensures |rows| == |p.items|
    ensures rows == DecodeTable(p, rule)
  {
    rows := [];
    var i := 0;
    while i < |p.items|
      invariant 0 <= i <= |p.items|
      invariant |rows| == i
      invariant forall k :: 0 <= k < i ==> rows[k] == DecodeRow(p.fields, p.items[k], rule)
    {
      var row := BuildRow(p.fields, p.items[i], rule);
      rows := rows + [row];
      i := i + 1;
    }
  }

  // -----------------------------------------------------------------------
  // What a decoded row holds
  // -----------------------------------------------------------------------

  /** A row has exactly the response's column names as keys: unknown
      columns are kept, nothing is filtered. */
  lemma {:induction false} RowKeys(fields: seq<string>, item: seq<Value>, rule: Coercion, n: nat)
    requires n <= |fields|
    ensures RowPrefix(fields, item, rule, n).Keys == set i | 0 <= i < n :: fields[i]
  {
    if n > 0 {
      RowKeys(fields, item, rule, n - 1);
      var before := set i | 0 <= i < n - 1 :: fields[i];
      var after := set i | 0 <= i < n :: fields[i];
      assert after == before + {fields[n - 1]} by {
        forall f | f in after ensures f in before + {fields[n - 1]} {
          var i :| 0 <= i < n && fields[i] == f;
          if i < n - 1 { assert f in before; }
        }
      }
    }
  }

  /** The cell under column `i`'s name comes from column `i` when no later
      column has the same name: with a repeated name, the last column wins. */
  lemma {:induction false} LastColumnWins(fields: seq<string>, item: seq<Value>, rule: Coercion, n: nat, i: nat)
    requires i < n <= |fields|
    requires forall j :: i < j < n ==> fields[j] != fields[i]
    ensures fields[i] in RowPrefix(fields, item, rule, n)
    ensures RowPrefix(fields, item, rule, n)[fields[i]] == CellFor(rule, fields[i], At(item, i))
  {
    if i < n - 1 {
      LastColumnWins(fields, item, rule, n - 1, i);
    }
  }

  /** Distinct column names over a full-width item: every column keeps its
      own value, coerced exactly when the rule says so. */
  lemma DistinctColumns(fields: seq<string>, item: seq<Value>, rule: Coercion, i: nat)
    requires i < |fields| == |item|
    requires forall j, k :: 0 <= j < k < |fields| ==> fields[j] != fields[k]
    ensures fields[i] in DecodeRow(fields, item, rule)
    ensures DecodeRow(fields, item, rule)[fields[i]].v == item[i]
    ensures DecodeRow(fields, item, rule)[fields[i]].ToNum? <==> Coerces(rule, fields[i])
  {
    LastColumnWins(fields, item, rule, |fields|, i);
  }

  /** In the decoded table, row `k` holds column `i` of item `k`, coerced
      exactly when the rule says so. */
  lemma TableCell(p: Payload, rule: Coercion, k: nat, i: nat)
    requires k < |p.items| && i < |p.fields| == |p.items[k]|
    requires forall j, l :: 0 <= j < l < |p.fields| ==> p.fields[j] != p.fields[l]
    ensures |DecodeTable(p, rule)| == |p.items|
    ensures p.fields[i] in DecodeTable(p, rule)[k]
    ensures DecodeTable(p, rule)[k][p.fields[i]] == CellFor(rule, p.fields[i], p.items[k][i])
  {
    LastColumnWins(p.fields, p.items[k], rule, |p.fields|, i);
  }

  /** The verbatim decode is a plain zip: column `i` of item `k` lands under
      its name in row `k` when no later column repeats the name, so of a
      repeated name the last column wins. */
  lemma VerbatimZip(p: Payload, k: nat, i: nat)
    requires k < |p.items| && i < |p.fields|
    requires forall j :: i < j < |p.fields| ==> p.fields[j] != p.fields[i]
    ensures |DecodeTable(p, Verbatim)| == |p.items|
    ensures p.fields[i] in DecodeTable(p, Verbatim)[k]
    ensures DecodeTable(p, Verbatim)[k][p.fields[i]] == Raw(At(p.items[k], i))
  {
    LastColumnWins(p.fields, p.items[k], Verbatim, |p.fields|, i);
  }

  /** Reading a decoded row back column by column. */
  function Project(row: Row, fields: seq<string>): seq<Value>
    requires forall i :: 0 <= i < |fields| ==> fields[i] in row
  {
    seq(|fields|, i requires 0 <= i < |fields| => row[fields[i]].v)
  }

  /** Decoding loses nothing: with distinct column names, the item is
      recovered from its row under every coercion rule. */
  lemma DecodeRoundTrip(fields: seq<string>, item: seq<Value>, rule: Coercion)
    requires |fields| == |item|
    requires forall j, k :: 0 <= j < k < |fields| ==> fields[j] != fields[k]
    ensures forall i :: 0 <= i < |fields| ==> fields[i] in DecodeRow(fields, item, rule)
    ensures Project(DecodeRow(fields, item, rule), fields) == item
  {
    forall i | 0 <= i < |fields|
      ensures fields[i] in DecodeRow(fields, item, rule)
      ensures DecodeRow(fields, item, rule)[fields[i]].v == item[i]
    {
      DistinctColumns(fields, item, rule, i);
    }
  }

  /** Under the verbatim rule no cell is coerced. */
  lemma {:induction false} VerbatimKeepsRaw(fields: seq<string>, item: seq<Value>, n: nat, f: string)
    requires n <= |fields|
    requires f in RowPrefix(fields, item, Verbatim, n)
    ensures RowPrefix(fields, item, Verbatim, n)[f].Raw?
  {
    if n > 0 && f != fields[n - 1] {
      VerbatimKeepsRaw(fields, item, n - 1, f);
    }
  }
}
