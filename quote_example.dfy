/**
 * An illustrative identifier quoter, and joins rendered with it.
 *
 * `DemoQuote` is NOT the Quote class of the library (its code is not part of
 * this model). It covers only the behaviours the Quote tests assert for plain
 * names, already-quoted names and dotted names: wrap a name in the quote
 * character, leave an already wrapped name alone, and quote the two sides of
 * the first period separately.
 */
module QuoteExample {
  import opened Wrappers
  import Strings
  import opened Sql
  import opened JoinProperties

  /** `s` starts and ends with the quote character. */
  predicate IsWrapped(qc: char, s: string)
  {
    |s| >= 2 && s[0] == qc && s[|s| - 1] == qc
  }

  /** The position of the first `c` in `s`. */
  function IndexOf(s: string, c: char): (k: nat)
    requires c in s
    ensures k < |s| && s[k] == c && c !in s[..k]
  {
    if s[0] == c then 0 else 1 + IndexOf(s[1..], c)
  }

  /** The illustrative quoter with quote character `qc`; whatever it returns is wrapped. */
  function DemoQuote(qc: char, name: string): (quoted: string)
    ensures IsWrapped(qc, quoted)
    decreases |name|
  {
    if IsWrapped(qc, name) then name
    else if '.' in name then
      var k := IndexOf(name, '.');
      DemoQuote(qc, name[..k]) + "." + DemoQuote(qc, name[k + 1..])
    else [qc] + name + [qc]
  }

  /** The first `c` is the only `c` before any later one. */
  lemma IndexOfIsFirst(s: string, c: char, k: nat)
    requires k < |s| && s[k] == c && c !in s[..k]
    ensures IndexOf(s, c) == k
  {
  }

  /** Quoting a quoted name changes nothing. */
  lemma DemoQuoteIdempotent(qc: char, name: string)
    ensures DemoQuote(qc, DemoQuote(qc, name)) == DemoQuote(qc, name)
  {
  }

  /**
   * A name without a period that does not start with the quote character and
   * carries no ` as ` or ` AS ` alias keyword, which the real quoter splits off.
   */
  predicate Plain(qc: char, name: string)
  {
    |name| > 0 && '.' !in name && name[0] != qc
    && Strings.Free(" as ", name) && Strings.Free(" AS ", name)
  }

  /** A plain name, spaces included, is wrapped whole in the quote character, whichever character that is. */
  lemma DemoQuoteWrapsPlainName(qc: char, name: string)
    requires Plain(qc, name)
    ensures DemoQuote(qc, name) == [qc] + name + [qc]
  {
  }

  /** An unwrapped dotted name is quoted on both sides of its first period. */
  lemma DemoQuoteSplitsAtFirstPeriod(qc: char, left: string, right: string)
    requires '.' !in left && !IsWrapped(qc, left + "." + right)
    ensures DemoQuote(qc, left + "." + right) == DemoQuote(qc, left) + "." + DemoQuote(qc, right)
  {
    var name := left + "." + right;
    assert name[..|left|] == left;
    assert name[|left| + 1..] == right;
    IndexOfIsFirst(name, '.', |left|);
  }

  /** `table.column` of plain names becomes the quoted table, a period and the quoted column. */
  lemma DemoQuoteDottedPath(qc: char, table: string, column: string)
    requires Plain(qc, table) && Plain(qc, column)
    ensures DemoQuote(qc, table + "." + column) == [qc] + table + [qc] + "." + ([qc] + column + [qc])
  {
    assert (table + "." + column)[0] == table[0];
    DemoQuoteSplitsAtFirstPeriod(qc, table, column);
  }

  /** An already quoted table before the period is kept, and the column after it is quoted. */
  lemma DemoQuoteQuotedPrefix(qc: char, quotedTable: string, column: string)
    requires IsWrapped(qc, quotedTable) && '.' !in quotedTable
    requires Plain(qc, column) && column[|column| - 1] != qc
    ensures DemoQuote(qc, quotedTable + "." + column) == quotedTable + "." + ([qc] + column + [qc])
  {
    var name := quotedTable + "." + column;
    assert name[|name| - 1] == column[|column| - 1];
    DemoQuoteSplitsAtFirstPeriod(qc, quotedTable, column);
  }

  /** The quoter handed to `Join::build` below: the illustrative quoter with a double quote. */
  function DoubleQuote(): Option<Quoter>
  {
    Some((s: string) => DemoQuote('"', s))
  }

  /** `"name"`. */
  function Quoted(name: string): string
  {
    "\"" + name + "\""
  }

  /** A quoted plain name. */
  lemma DoubleQuotePlain(name: string)
    requires Plain('"', name)
    ensures QuoteName(DoubleQuote(), name) == Quoted(name)
  {
    DemoQuoteWrapsPlainName('"', name);
  }

  /** The ON equality of one key under the example quoter. */
  lemma DoubleQuoteKeyEquality(aliasName: string, key: string, queryTable: string)
    requires Plain('"', aliasName) && Plain('"', key) && Plain('"', queryTable)
    ensures KeyEquality(DoubleQuote(), aliasName, Some(queryTable), key)
         == Quoted(aliasName) + "." + Quoted(key) + "=" + Quoted(queryTable) + "." + Quoted(key)
  {
    DemoQuoteDottedPath('"', aliasName, key);
    DemoQuoteDottedPath('"', queryTable, key);
  }

  /** Joining `table` with a truthy `alias` USING one `key`, without criteria. */
  lemma UsingJoinExample<W, B>(table: string, alias: string, key: string, queryTable: string,
                               bind: Option<B>, render: WhereRenderer<W, B>)
    requires Plain('"', table) && Plain('"', alias) && Plain('"', key) && alias != "0"
    ensures JoinSql(InnerJoin, table, Some(alias), [key], Unset, Some(queryTable), bind, DoubleQuote(), render)
         == Ok("JOIN " + Quoted(table) + " " + Quoted(alias) + " USING( " + Quoted(key) + " )")
  {
    DemoQuoteWrapsPlainName('"', table);
    DemoQuoteWrapsPlainName('"', alias);
    DemoQuoteWrapsPlainName('"', key);
    var tt := TableText(DoubleQuote(), table, Some(alias));
    assert tt == Quoted(table) + " " + Quoted(alias);
    var quoted := QuotedKeys(DoubleQuote(), [key]);
    assert quoted == [Quoted(key)];
    var tail := UsingClause(DoubleQuote(), [key]);
    assert tail == "USING( " + Quoted(key) + " )";
    BuildLayout(InnerJoin, table, Some(alias), [key], Unset, Some(queryTable), bind, DoubleQuote(), render);
    SpacedUsing("JOIN ", InnerJoin, Quoted(table), Quoted(alias), Quoted(key));
  }

  /** Regrouping of the USING example clause. */
  lemma SpacedUsing(head: string, joinType: string, t: string, a: string, k: string)
    requires head == joinType + " "
    ensures joinType + " " + (t + " " + a) + " " + ("USING( " + k + " )")
         == head + t + " " + a + " USING( " + k + " )"
  {
    var using := "USING( " + k + " )";
    assert " " + using == " USING( " + k + " )";
    assert head + (t + " " + a) == head + t + " " + a;
  }

  /** The same join with string criteria: the key equality comes first, then the criteria. */
  lemma OnWithUsingExample<W, B>(table: string, alias: string, key: string, queryTable: string, sql: string,
                                 bind: Option<B>, render: WhereRenderer<W, B>)
    requires Plain('"', table) && Plain('"', alias) && Plain('"', key) && Plain('"', queryTable) && alias != "0"
    requires Truthy(Some(sql))
    ensures JoinSql(LeftOuterJoin, table, Some(alias), [key], Raw(sql), Some(queryTable), bind, DoubleQuote(), render)
         == Ok("LEFT OUTER JOIN " + Quoted(table) + " " + Quoted(alias) + " ON ( "
               + (Quoted(alias) + "." + Quoted(key) + "=" + Quoted(queryTable) + "." + Quoted(key))
               + " AND ( " + sql + " ) )")
  {
    DoubleQuotePlain(table);
    DoubleQuotePlain(alias);
    var tt := TableText(DoubleQuote(), table, Some(alias));
    assert tt == Quoted(table) + " " + Quoted(alias);
    var eq := Quoted(alias) + "." + Quoted(key) + "=" + Quoted(queryTable) + "." + Quoted(key);
    assert AliasOrTable(table, Some(alias)) == alias;
    DoubleQuoteKeyEquality(alias, key, queryTable);
    OnWithKeys(table, Some(alias), [key], Raw(sql), Some(queryTable), bind, DoubleQuote(), render, sql, [eq]);
    BuildLayout(LeftOuterJoin, table, Some(alias), [key], Raw(sql), Some(queryTable), bind, DoubleQuote(), render);
    Spaced("LEFT OUTER JOIN ", LeftOuterJoin, Quoted(table), Quoted(alias), eq, sql);
  }

  /** Without an alias the equality names the table itself. */
  lemma OnWithoutAliasExample<W, B>(table: string, key: string, queryTable: string, sql: string,
                                    bind: Option<B>, render: WhereRenderer<W, B>)
    requires Plain('"', table) && Plain('"', key) && Plain('"', queryTable)
    requires Truthy(Some(sql))
    ensures JoinSql(InnerJoin, table, None, [key], Raw(sql), Some(queryTable), bind, DoubleQuote(), render)
         == Ok("JOIN " + Quoted(table) + " ON ( "
               + (Quoted(table) + "." + Quoted(key) + "=" + Quoted(queryTable) + "." + Quoted(key))
               + " AND ( " + sql + " ) )")
  {
    DoubleQuotePlain(table);
    var tt := TableText(DoubleQuote(), table, None);
    assert tt == Quoted(table);
    var eq := Quoted(table) + "." + Quoted(key) + "=" + Quoted(queryTable) + "." + Quoted(key);
    DoubleQuoteKeyEquality(table, key, queryTable);
    OnWithKeys(table, None, [key], Raw(sql), Some(queryTable), bind, DoubleQuote(), render, sql, [eq]);
    BuildLayout(InnerJoin, table, None, [key], Raw(sql), Some(queryTable), bind, DoubleQuote(), render);
    SpacedNoAlias("JOIN ", InnerJoin, Quoted(table), eq, sql);
  }

  /** Regrouping of the ON example clauses, with and without the alias. */
  lemma Spaced(head: string, joinType: string, t: string, a: string, eq: string, sql: string)
    requires head == joinType + " "
    ensures joinType + " " + (t + " " + a) + " " + ("ON ( " + (eq + " AND ( " + sql + " )") + " )")
         == head + t + " " + a + " ON ( " + eq + " AND ( " + sql + " ) )"
  {
    var on := "ON ( " + (eq + " AND ( " + sql + " )") + " )";
    assert on == "ON ( " + eq + " AND ( " + sql + " ) )";
    assert " " + on == " ON ( " + eq + " AND ( " + sql + " ) )";
    assert head + (t + " " + a) == head + t + " " + a;
  }

  lemma SpacedNoAlias(head: string, joinType: string, t: string, eq: string, sql: string)
    requires head == joinType + " "
    ensures joinType + " " + t + " " + ("ON ( " + (eq + " AND ( " + sql + " )") + " )")
         == head + t + " ON ( " + eq + " AND ( " + sql + " ) )"
  {
    var on := "ON ( " + (eq + " AND ( " + sql + " )") + " )";
    assert on == "ON ( " + eq + " AND ( " + sql + " ) )";
    assert " " + on == " ON ( " + eq + " AND ( " + sql + " ) )";
  }

  /** A caller of the fluent API: it can read the rendered clause off the contracts. */
  method FluentUsage<W, B>(table: string, alias: string, key: string, queryTable: string, sql: string,
                           render: WhereRenderer<W, B>)
    requires Plain('"', table) && Plain('"', alias) && Plain('"', key) && Plain('"', queryTable) && alias != "0"
    requires Truthy(Some(sql))
  {
    var j := Join<W, B>.Table(table, Some(alias));
    j := j.Left();
    j := j.Using([Key(key)]);
    j := j.SetQueryTable(queryTable);
    j := j.On(Raw(sql));
    assert j.joinType == LeftOuterJoin && j.table == table && j.alias == Some(alias);
    assert j.usingKey == [key] && j.criteria == Raw(sql) && j.queryTable == Some(queryTable);
    var clause := j.Build(None, DoubleQuote(), render);
    OnWithUsingExample(table, alias, key, queryTable, sql, None, render);
    assert clause == Ok("LEFT OUTER JOIN " + Quoted(table) + " " + Quoted(alias) + " ON ( "
                        + (Quoted(alias) + "." + Quoted(key) + "=" + Quoted(queryTable) + "." + Quoted(key))
                        + " AND ( " + sql + " ) )");
  }
}
