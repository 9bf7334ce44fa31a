/** What `Join::build` promises about the clause it renders, for every join and every collaborator. */
module JoinProperties {
  import opened Wrappers
  import opened Strings
  import opened Sql

  /** The clause is the join type, the table text and the tail, separated by single spaces. */
  lemma BuildLayout<W, B>(joinType: string, table: string, alias: Option<string>, usingKey: seq<string>,
                          criteria: Criteria<W>, queryTable: Option<string>,
                          bind: Option<B>, quote: Option<Quoter>, render: WhereRenderer<W, B>)
    ensures JoinSql(joinType, table, alias, usingKey, criteria, queryTable, bind, quote, render).Ok?
        <==> UsingOrOn(table, alias, usingKey, criteria, queryTable, bind, quote, render).Ok?
    ensures UsingOrOn(table, alias, usingKey, criteria, queryTable, bind, quote, render).Ok? ==>
      JoinSql(joinType, table, alias, usingKey, criteria, queryTable, bind, quote, render).value
        == joinType + " " + TableText(quote, table, alias) + " "
           + UsingOrOn(table, alias, usingKey, criteria, queryTable, bind, quote, render).value
  {
    var tail := UsingOrOn(table, alias, usingKey, criteria, queryTable, bind, quote, render);
    if tail.Ok? {
      ImplodeThree(" ", joinType, TableText(quote, table, alias), tail.value);
    }
  }

  /** With neither criteria nor keys the tail is empty, and the clause still ends in a space. */
  lemma NoTailLeavesTrailingSpace<W, B>(joinType: string, table: string, alias: Option<string>, usingKey: seq<string>,
                                        criteria: Criteria<W>, queryTable: Option<string>,
                                        bind: Option<B>, quote: Option<Quoter>, render: WhereRenderer<W, B>)
    requires !HasCriteria(criteria) && |usingKey| == 0
    ensures JoinSql(joinType, table, alias, usingKey, criteria, queryTable, bind, quote, render)
         == Ok(joinType + " " + TableText(quote, table, alias) + " ")
  {
    BuildLayout(joinType, table, alias, usingKey, criteria, queryTable, bind, quote, render);
    var head := joinType + " " + TableText(quote, table, alias) + " ";
    assert head + "" == head;
  }

  /** Building fails exactly when the criteria are a truthy value that is neither a string nor a Where. */
  lemma BuildFailsIffForeignCriteria<W, B>(joinType: string, table: string, alias: Option<string>, usingKey: seq<string>,
                                           criteria: Criteria<W>, queryTable: Option<string>,
                                           bind: Option<B>, quote: Option<Quoter>, render: WhereRenderer<W, B>)
    ensures JoinSql(joinType, table, alias, usingKey, criteria, queryTable, bind, quote, render).Err?
        <==> criteria.Other? && criteria.truthy
  {
    BuildLayout(joinType, table, alias, usingKey, criteria, queryTable, bind, quote, render);
  }

  /**
   * The tail takes the ON form exactly when there are criteria, whatever the
   * keys; the USING form exactly when there are keys and no criteria; and is
   * empty exactly when there are neither.
   */
  lemma TailForm<W, B>(table: string, alias: Option<string>, usingKey: seq<string>,
                       criteria: Criteria<W>, queryTable: Option<string>,
                       bind: Option<B>, quote: Option<Quoter>, render: WhereRenderer<W, B>)
    requires UsingOrOn(table, alias, usingKey, criteria, queryTable, bind, quote, render).Ok?
    ensures var tail := UsingOrOn(table, alias, usingKey, criteria, queryTable, bind, quote, render).value;
      && (StartsWith(tail, "ON ( ") <==> HasCriteria(criteria))
      && (StartsWith(tail, "USING( ") <==> !HasCriteria(criteria) && |usingKey| > 0)
      && (tail == "" <==> !HasCriteria(criteria) && |usingKey| == 0)
  {
    var tail := UsingOrOn(table, alias, usingKey, criteria, queryTable, bind, quote, render).value;
    if HasCriteria(criteria) {
      assert tail[..5] == "ON ( ";
      assert tail[0] != "USING( "[0];
    } else if |usingKey| > 0 {
      assert tail[..7] == "USING( ";
      assert tail[0] != "ON ( "[0];
    }
  }

  /** String criteria without keys are emitted verbatim inside `ON ( … )`. */
  lemma StringCriteriaVerbatim<W, B>(table: string, alias: Option<string>, sql: string, queryTable: Option<string>,
                                     bind: Option<B>, quote: Option<Quoter>, render: WhereRenderer<W, B>)
    requires Truthy(Some(sql))
    ensures UsingOrOn(table, alias, [], Raw(sql), queryTable, bind, quote, render) == Ok("ON ( " + sql + " )")
  {
  }

  /** A Where object is rendered with the bind, the quoter, the alias and the outer query's table. */
  lemma WhereCriteriaRendered<W, B>(table: string, alias: Option<string>, usingKey: seq<string>, tree: W,
                                    queryTable: Option<string>,
                                    bind: Option<B>, quote: Option<Quoter>, render: WhereRenderer<W, B>)
    ensures CriteriaSql(WhereObj(tree), bind, quote, alias, queryTable, render)
         == Ok(render(tree, bind, quote, alias, queryTable))
    ensures |usingKey| == 0 ==>
      UsingOrOn(table, alias, usingKey, WhereObj(tree), queryTable, bind, quote, render)
        == Ok("ON ( " + render(tree, bind, quote, alias, queryTable) + " )")
  {
  }

  /**
   * With criteria and keys, the ON body is one equality per key, in key order,
   * `alias.key` (the table name when there is no alias) against `queryTable.key`,
   * joined by AND, followed by the criteria in parentheses.
   */
  lemma OnWithKeys<W, B>(table: string, alias: Option<string>, usingKey: seq<string>,
                         criteria: Criteria<W>, queryTable: Option<string>,
                         bind: Option<B>, quote: Option<Quoter>, render: WhereRenderer<W, B>,
                         sql: string, eqs: seq<string>)
    requires HasCriteria(criteria)
    requires CriteriaSql(criteria, bind, quote, alias, queryTable, render) == Ok(sql)
    requires |usingKey| > 0 && |eqs| == |usingKey|
    requires forall i :: 0 <= i < |eqs| ==>
      eqs[i] == QuoteName(quote, AliasOrTable(table, alias) + "." + usingKey[i]) + "="
                + QuoteName(quote, Text(queryTable) + "." + usingKey[i])
    ensures UsingOrOn(table, alias, usingKey, criteria, queryTable, bind, quote, render)
         == Ok("ON ( " + (Implode(" AND ", eqs) + " AND ( " + sql + " )") + " )")
  {
    assert eqs == KeyEqualities(quote, AliasOrTable(table, alias), queryTable, usingKey);
  }

  /** The alias is printed after the table exactly when it is truthy. */
  lemma AliasShownIffTruthy(quote: Option<Quoter>, table: string, alias: Option<string>)
    ensures TableText(quote, table, alias) == QuoteName(quote, table) <==> !Truthy(alias)
  {
    if Truthy(alias) {
      assert |TableText(quote, table, alias)| > |QuoteName(quote, table)|;
    }
  }

  /**
   * The name that qualifies the ON equalities is the name the joined table is
   * shown under: the table text ends with it, quoted.
   */
  lemma EqualitiesUseShownName(quote: Option<Quoter>, table: string, alias: Option<string>)
    ensures var shown := QuoteName(quote, AliasOrTable(table, alias));
            var text := TableText(quote, table, alias);
            |shown| <= |text| && text[|text| - |shown|..] == shown
  {
  }

  /** Without a quoter every name is emitted as given. */
  lemma NoQuoterIsIdentity(table: string, alias: Option<string>, keys: seq<string>, queryTable: Option<string>)
    ensures TableText(None, table, alias) == table + (if Truthy(alias) then " " + alias.value else "")
    ensures QuotedKeys(None, keys) == keys
    ensures UsingClause(None, keys) == "USING( " + Implode(", ", keys) + " )"
    ensures forall k :: KeyEquality(None, AliasOrTable(table, alias), queryTable, k)
                     == AliasOrTable(table, alias) + "." + k + "=" + Text(queryTable) + "." + k
  {
  }

  /**
   * The USING form lists the quoted keys in their given order: reading the
   * list back between `USING( ` and ` )` gives them again, as long as no
   * quoted key contains the `, ` separator.
   */
  lemma UsingClauseRecoversKeys(quote: Option<Quoter>, keys: seq<string>)
    requires |keys| >= 1
    requires forall i :: 0 <= i < |keys| ==> Free(", ", QuoteName(quote, keys[i]))
    ensures var clause := UsingClause(quote, keys);
      && StartsWith(clause, "USING( ") && |clause| >= 9 && clause[|clause| - 2..] == " )"
      && Explode(", ", clause[7..|clause| - 2]) == QuotedKeys(quote, keys)
  {
    var quoted := QuotedKeys(quote, keys);
    var list := Implode(", ", quoted);
    var clause := UsingClause(quote, keys);
    assert clause == "USING( " + list + " )";
    assert clause[7..|clause| - 2] == list;
    CommaSpaceUnbordered();
    ExplodeImplode(", ", quoted);
  }

  /** `using('a', 'b')` and `using(['a', 'b'])` record the same keys. */
  lemma UsingSpreadMatchesList(args: seq<UsingArg>)
    requires |args| >= 1
    requires forall i :: 0 <= i < |args| ==> args[i].Key?
    ensures UsingKeys(args) == UsingKeys([KeyList(KeyNames(args))])
  {
    if |args| == 1 {
      assert KeyNames(args) == [args[0].name];
    }
  }
}
