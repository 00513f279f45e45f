/** A column built by successive masked writes, `df.loc[mask, column] = value`:
    each write overrides, on the rows its mask selects, whatever an earlier
    write left there, and rows that no mask selects keep their old value
    (NaN, `None`, for a column that did not exist before). */
module RuleTable {
  import opened Common

  /** One masked write: on the rows where `guard` holds, set `value`. */
  datatype Rule<!K> = Rule(guard: K -> bool, value: int)

  /** The cell of one row after one write. */
  function Write<K>(rule: Rule<K>, key: K, cell: Option<int>): Option<int> {
    if rule.guard(key) then Some(rule.value) else cell
  }

  /** The cell of one row after the writes, applied in order. */
  function AfterWrites<K>(rules: seq<Rule<K>>, key: K, cell: Option<int>): Option<int> {
    if rules == [] then cell else AfterWrites(rules[1..], key, Write(rules[0], key, cell))
  }

  /** The last write whose mask selects the row decides its value. */
  lemma {:induction false} LastMatchWins<K>(rules: seq<Rule<K>>, key: K, cell: Option<int>, i: int)
    requires 0 <= i < |rules| && rules[i].guard(key)
    requires forall j :: i < j < |rules| ==> !rules[j].guard(key)
    ensures AfterWrites(rules, key, cell) == Some(rules[i].value)
  {
    if i == 0 {
      NoMatchKeeps(rules[1..], key, Write(rules[0], key, cell));
    } else {
      LastMatchWins(rules[1..], key, Write(rules[0], key, cell), i - 1);
    }
  }

  /** A row that no mask selects keeps its value. */
  lemma {:induction false} NoMatchKeeps<K>(rules: seq<Rule<K>>, key: K, cell: Option<int>)
    requires forall j :: 0 <= j < |rules| ==> !rules[j].guard(key)
    ensures AfterWrites(rules, key, cell) == cell
  {
    if rules != [] {
      NoMatchKeeps(rules[1..], key, cell);
    }
  }

  /** `column.loc[mask] = value`: one write on every row at once. */
  method WriteWhere<K>(keys: seq<K>, column: array<Option<int>>, rule: Rule<K>)
    requires column.Length == |keys|
    modifies column
    ensures forall i :: 0 <= i < column.Length ==> column[i] == Write(rule, keys[i], old(column[i]))
  {
    forall i | 0 <= i < column.Length && rule.guard(keys[i]) {
      column[i] := Some(rule.value);
    }
  }

  /** The writes, one after the other, on the column of the rows `keys`. */
  method WriteInOrder<K>(keys: seq<K>, column: array<Option<int>>, rules: seq<Rule<K>>)
    requires column.Length == |keys|
    modifies column
    ensures forall i :: 0 <= i < column.Length ==> column[i] == AfterWrites(rules, keys[i], old(column[i]))
  {
    for k := 0 to |rules|
      invariant forall i :: 0 <= i < column.Length ==>
        AfterWrites(rules, keys[i], old(column[i])) == AfterWrites(rules[k..], keys[i], column[i])
    {
      WriteWhere(keys, column, rules[k]);
      assert rules[k..][1..] == rules[k + 1..];
    }
  }

  /** A new column filled by the writes: the rows no write selects stay NaN. */
  method NewColumn<K>(keys: seq<K>, rules: seq<Rule<K>>) returns (cells: seq<Option<int>>)
    ensures |cells| == |keys|
    ensures forall i :: 0 <= i < |keys| ==> cells[i] == AfterWrites(rules, keys[i], None)
  {
    var column := new Option<int>[|keys|](_ => None);
    WriteInOrder(keys, column, rules);
    cells := column[..];
  }
}
