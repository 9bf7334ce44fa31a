/**
 * The join-clause builder of the `WScore\ScoreSql\Sql` namespace.
 *
 * The collaborators whose code is not part of this model enter as values:
 * the identifier quoter is an optional function (`null` means "do not quote"),
 * the Bind object is an opaque, nullable token of type `Option<B>`, and
 * `Where::build` is the function `render`.
 */
module Sql {
  import opened Wrappers
  import opened Strings

  /** `Quote::quote($name)` of the configured identifier quoter. */
  type Quoter = string -> string

  /** `Where::build($bind, $quote, $alias, $queryTable)` of a Where object of type `W`. */
  type WhereRenderer<!W, !B> = (W, Option<B>, Option<Quoter>, Option<string>, Option<string>) -> string

  /** The value held in `$criteria`. */
  datatype Criteria<W> =
    | Unset                  // null: no ON criteria were given
    | Raw(sql: string)       // a string, emitted verbatim
    | WhereObj(tree: W)      // a Where object, rendered by Where::build
    | Other(truthy: bool)    // any other PHP value, with its PHP truthiness

  /** One argument passed to `using(...)`. */
  datatype UsingArg = Key(name: string) | KeyList(names: seq<string>)

  /** The exception `buildOn` throws. */
  datatype JoinError = InvalidArgument

  const InnerJoin := "JOIN"
  const LeftOuterJoin := "LEFT OUTER JOIN"
  const RightOuterJoin := "RIGHT OUTER JOIN"

  /** PHP truthiness of a nullable string: null, "" and "0" are false. */
  predicate Truthy(s: Option<string>)
  {
    s.Some? && s.value != "" && s.value != "0"
  }

  /** PHP truthiness of `$this->criteria`, the test that selects the ON form. */
  predicate HasCriteria<W>(criteria: Criteria<W>)
  {
    match criteria
    case Unset => false
    case Raw(s) => Truthy(Some(s))
    case WhereObj(_) => true
    case Other(t) => t
  }

  /** PHP string conversion of a nullable string: null becomes "". */
  function Text(s: Option<string>): string
  {
    if s.Some? then s.value else ""
  }

  /** `Join::quote`: the name unchanged when no quoter is configured. */
  function QuoteName(quote: Option<Quoter>, name: string): (quoted: string)
    ensures quote.None? ==> quoted == name
    ensures quote.Some? ==> quoted == quote.value(name)
  {
    match quote
    case None => name
    case Some(q) => q(name)
  }

  /** `Join::alias`: the alias, or the table name when the alias is falsy. */
  function AliasOrTable(table: string, alias: Option<string>): (name: string)
    ensures Truthy(alias) ==> name == alias.value
    ensures !Truthy(alias) ==> name == table
  {
    if Truthy(alias) then alias.value else table
  }

  /** `Join::buildTable`: the quoted table, followed by the quoted alias when there is one. */
  function TableText(quote: Option<Quoter>, table: string, alias: Option<string>): (text: string)
    ensures StartsWith(text, QuoteName(quote, table))
    ensures Truthy(alias) ==> text == QuoteName(quote, table) + " " + QuoteName(quote, alias.value)
    ensures !Truthy(alias) ==> text == QuoteName(quote, table)
  {
    QuoteName(quote, table) + (if Truthy(alias) then " " + QuoteName(quote, alias.value) else "")
  }

  /** The USING keys, each quoted, in their given order. */
  function QuotedKeys(quote: Option<Quoter>, keys: seq<string>): (quoted: seq<string>)
    ensures |quoted| == |keys|
    ensures forall i :: 0 <= i < |keys| ==> quoted[i] == QuoteName(quote, keys[i])
  {
    if |keys| == 0 then [] else [QuoteName(quote, keys[0])] + QuotedKeys(quote, keys[1..])
  }

  /** One USING key as an ON equality: `alias.key` of the joined table against `queryTable.key`. */
  function KeyEquality(quote: Option<Quoter>, aliasName: string, queryTable: Option<string>, key: string): string
  {
    QuoteName(quote, aliasName + "." + key) + "=" + QuoteName(quote, Text(queryTable) + "." + key)
  }

  /** The equalities of all USING keys, in key order. */
  function KeyEqualities(quote: Option<Quoter>, aliasName: string, queryTable: Option<string>, keys: seq<string>): (eqs: seq<string>)
    ensures |eqs| == |keys|
    ensures forall i :: 0 <= i < |keys| ==> eqs[i] == KeyEquality(quote, aliasName, queryTable, keys[i])
  {
    if |keys| == 0 then []
    else [KeyEquality(quote, aliasName, queryTable, keys[0])] + KeyEqualities(quote, aliasName, queryTable, keys[1..])
  }

  /** `Join::buildUsing`: the USING form of the tail. */
  function UsingClause(quote: Option<Quoter>, keys: seq<string>): string
  {
    "USING( " + Implode(", ", QuotedKeys(quote, keys)) + " )"
  }

  /** The SQL of the criteria alone: a Where object rendered, a string verbatim, anything else an error. */
  function CriteriaSql<W, B>(criteria: Criteria<W>, bind: Option<B>, quote: Option<Quoter>,
                             alias: Option<string>, queryTable: Option<string>,
                             render: WhereRenderer<W, B>): (sql: Result<string, JoinError>)
    ensures sql.Err? <==> !(criteria.WhereObj? || criteria.Raw?)
    ensures criteria.Raw? ==> sql == Ok(criteria.sql)
    ensures criteria.WhereObj? ==> sql == Ok(render(criteria.tree, bind, quote, alias, queryTable))
  {
    match criteria
    case WhereObj(w) => Ok(render(w, bind, quote, alias, queryTable))
    case Raw(s) => Ok(s)
    case _ => Err(InvalidArgument)
  }

  /** `Join::buildOn`: the ON form, with the USING equalities prepended when there are keys. */
  function OnClause<W, B>(table: string, alias: Option<string>, usingKey: seq<string>,
                          criteria: Criteria<W>, queryTable: Option<string>,
                          bind: Option<B>, quote: Option<Quoter>,
                          render: WhereRenderer<W, B>): Result<string, JoinError>
  {
    match CriteriaSql(criteria, bind, quote, alias, queryTable, render)
    case Err(e) => Err(e)
    case Ok(sql) =>
      var body :=
        if |usingKey| == 0 then sql
        else Implode(" AND ", KeyEqualities(quote, AliasOrTable(table, alias), queryTable, usingKey))
             + " AND ( " + sql + " )";
      Ok("ON ( " + body + " )")
  }

  /** `Join::buildUsingOrOn`: the ON form when there are criteria, else the USING form when there are keys, else nothing. */
  function UsingOrOn<W, B>(table: string, alias: Option<string>, usingKey: seq<string>,
                           criteria: Criteria<W>, queryTable: Option<string>,
                           bind: Option<B>, quote: Option<Quoter>,
                           render: WhereRenderer<W, B>): Result<string, JoinError>
  {
    if HasCriteria(criteria) then OnClause(table, alias, usingKey, criteria, queryTable, bind, quote, render)
    else if |usingKey| > 0 then Ok(UsingClause(quote, usingKey))
    else Ok("")
  }

  /** `Join::build`: join type, table text and tail, imploded with single spaces. */
  function JoinSql<W, B>(joinType: string, table: string, alias: Option<string>, usingKey: seq<string>,
                         criteria: Criteria<W>, queryTable: Option<string>,
                         bind: Option<B>, quote: Option<Quoter>,
                         render: WhereRenderer<W, B>): Result<string, JoinError>
  {
    match UsingOrOn(table, alias, usingKey, criteria, queryTable, bind, quote, render)
    case Err(e) => Err(e)
    case Ok(tail) => Ok(Implode(" ", [joinType, TableText(quote, table, alias), tail]))
  }

  /** The names of `using` arguments that are all single keys. */
  function KeyNames(args: seq<UsingArg>): (names: seq<string>)
    requires forall i :: 0 <= i < |args| ==> args[i].Key?
    ensures |names| == |args|
    ensures forall i :: 0 <= i < |args| ==> names[i] == args[i].name
  {
    if |args| == 0 then [] else [args[0].name] + KeyNames(args[1..])
  }

  /**
   * `Join::using`: several arguments are the key list themselves, a single
   * array is the key list, and a single scalar is a list of one key.
   */
  function UsingKeys(args: seq<UsingArg>): (keys: seq<string>)
    requires |args| >= 1
    requires |args| > 1 ==> forall i :: 0 <= i < |args| ==> args[i].Key?
    ensures |args| > 1 ==> |keys| == |args| && forall i :: 0 <= i < |args| ==> keys[i] == args[i].name
    ensures |args| == 1 && args[0].KeyList? ==> keys == args[0].names
    ensures |args| == 1 && args[0].Key? ==> keys == [args[0].name]
  {
    if |args| > 1 then KeyNames(args)
    else match args[0]
      case KeyList(names) => names
      case Key(name) => [name]
  }

  /** A join clause under construction: fluent setters record its parts, `Build` renders them. */
  class Join<W, B> {
    var table: string
    var alias: Option<string>
    var joinType: string
    var usingKey: seq<string>
    var criteria: Criteria<W>
    var bind: Option<B>
    var quote: Option<Quoter>
    var queryTable: Option<string>

    /** `new Join($table, $alias)`: an inner join with no keys, no criteria and no outer table. */
    constructor (table: string, alias: Option<string>)
      ensures this.table == table && this.alias == alias
      ensures joinType == InnerJoin && usingKey == [] && criteria.Unset?
      ensures bind.None? && quote.None? && queryTable.None?
    {
      this.table := table;
      this.alias := alias;
      joinType := InnerJoin;
      usingKey := [];
      criteria := Unset;
      bind := None;
      quote := None;
      queryTable := None;
    }

    /** `Join::table($table, $alias)`: the static factory. */
    static method Table(table: string, alias: Option<string>) returns (j: Join<W, B>)
      ensures fresh(j)
      ensures j.table == table && j.alias == alias
      ensures j.joinType == InnerJoin && j.usingKey == [] && j.criteria.Unset?
      ensures j.bind.None? && j.quote.None? && j.queryTable.None?
    {
      j := new Join(table, alias);
    }

    // Each setter may modify only the field it names, so every other field keeps its value.

    /** `by($type)`: the join type becomes exactly `t`. */
    method By(t: string) returns (self: Join<W, B>)
      modifies this`joinType
      ensures self == this && joinType == t
    {
      joinType := t;
      self := this;
    }

    /** `left()`: a left outer join. */
    method Left() returns (self: Join<W, B>)
      modifies this`joinType
      ensures self == this && joinType == LeftOuterJoin
    {
      self := By(LeftOuterJoin);
    }

    /** `right()`: a right outer join. */
    method Right() returns (self: Join<W, B>)
      modifies this`joinType
      ensures self == this && joinType == RightOuterJoin
    {
      self := By(RightOuterJoin);
    }

    /** `setQueryTable($queryTable)`: the table of the query this join belongs to. */
    method SetQueryTable(name: string) returns (self: Join<W, B>)
      modifies this`queryTable
      ensures self == this && queryTable == Some(name)
    {
      queryTable := Some(name);
      self := this;
    }

    /** `using(...)`: the normalised arguments replace any earlier keys. */
    method Using(args: seq<UsingArg>) returns (self: Join<W, B>)
      requires |args| >= 1
      requires |args| > 1 ==> forall i :: 0 <= i < |args| ==> args[i].Key?
      modifies this`usingKey
      ensures self == this && usingKey == UsingKeys(args)
    {
      usingKey := UsingKeys(args);
      self := this;
    }

    /** `on($criteria)`: the ON criteria, replacing any earlier ones. */
    method On(c: Criteria<W>) returns (self: Join<W, B>)
      modifies this`criteria
      ensures self == this && criteria == c
    {
      criteria := c;
      self := this;
    }

    /**
     * `build($bind, $quote)`: records the bind and quote objects, then renders
     * the clause; the exception of `buildOn` becomes `Err`.
     */
    method Build(bind: Option<B>, quote: Option<Quoter>, render: WhereRenderer<W, B>)
      returns (sql: Result<string, JoinError>)
      modifies this`bind, this`quote
      ensures this.bind == bind && this.quote == quote
      ensures sql == JoinSql(joinType, table, alias, usingKey, criteria, queryTable, bind, quote, render)
    {
      this.bind := bind;
      this.quote := quote;
      var tail := BuildUsingOrOn(render);
      if tail.Err? {
        return Err(tail.error);
      }
      sql := Ok(Implode(" ", [joinType, TableText(quote, table, alias), tail.value]));
    }

    /** `buildUsingOrOn()` over the current fields. */
    method BuildUsingOrOn(render: WhereRenderer<W, B>) returns (tail: Result<string, JoinError>)
      ensures tail == UsingOrOn(table, alias, usingKey, criteria, queryTable, bind, quote, render)
    {
      if HasCriteria(criteria) {
        tail := BuildOn(render);
        return;
      }
      if |usingKey| > 0 {
        var s := BuildUsing();
        return Ok(s);
      }
      return Ok("");
    }

    /** `buildOn()` over the current fields; the equalities are collected key by key. */
    method BuildOn(render: WhereRenderer<W, B>) returns (on: Result<string, JoinError>)
      ensures on == OnClause(table, alias, usingKey, criteria, queryTable, bind, quote, render)
    {
      var sql: string;
      match criteria {
        case WhereObj(w) =>
          sql := render(w, bind, quote, alias, queryTable);
        case Raw(s) =>
          sql := s;
        case _ =>
          return Err(InvalidArgument);
      }
      if |usingKey| > 0 {
        var using: seq<string> := [];
        for i := 0 to |usingKey|
          invariant |using| == i
          invariant forall j :: 0 <= j < i ==> using[j] == KeyEquality(quote, AliasOrTable(table, alias), queryTable, usingKey[j])
        {
          using := using + [KeyEquality(quote, AliasOrTable(table, alias), queryTable, usingKey[i])];
        }
        assert using == KeyEqualities(quote, AliasOrTable(table, alias), queryTable, usingKey);
        sql := Implode(" AND ", using) + " AND ( " + sql + " )";
      }
      on := Ok("ON ( " + sql + " )");
    }

    /** `buildUsing()` over the current fields; the keys are quoted one by one. */
    method BuildUsing() returns (clause: string)
      ensures clause == UsingClause(quote, usingKey)
    {
      var using: seq<string> := [];
      for i := 0 to |usingKey|
        invariant |using| == i
        invariant forall j :: 0 <= j < i ==> using[j] == QuoteName(quote, usingKey[j])
      {
        using := using + [QuoteName(quote, usingKey[i])];
      }
      assert using == QuotedKeys(quote, usingKey);
      clause := "USING( " + Implode(", ", using) + " )";
    }
  }
}
