# Join clause builder of WScore.ScoreSql, in Dafny

This project models `Join`, the builder of a single SQL join clause in
`src/Sql/Join.php`, and proves what the clause it renders looks like.

A `Join` is a small mutable object. Its fluent setters record six things:
the table, an optional alias, the join type (`JOIN`, `LEFT OUTER JOIN`,
`RIGHT OUTER JOIN` or any string given to `by`), the USING key list, the ON
criteria and the table of the outer query. `build($bind, $quote)` stores the
bind and quote objects and renders three parts imploded with single spaces:

- the join type;
- the quoted table, followed by the quoted alias when the alias is truthy;
- a tail. With criteria the tail is `ON ( … )`. Without criteria but with
  keys it is `USING( k1, k2 )`. With neither it is empty, so the clause then
  ends in a space.

A string criteria is emitted verbatim. A Where object is rendered by
`Where::build` with the bind, the quoter, the alias and the outer table. Join
itself raises `InvalidArgumentException` only when the criteria are a truthy
value that is neither a string nor a Where. When criteria
and keys are both present, the ON body is one equality per key,
`alias.key=queryTable.key`, joined by ` AND `, then ` AND ( criteria )`.
Here the alias falls back to the table name.

Layout:

- `wrappers.dfy`: module `Wrappers`, holding `Option` (PHP's nullable values) and `Result` (the exception).
- `strings.dfy`: module `Strings`, holding PHP's `implode`, plus `Explode`. `Explode` is an inverse used
  only to state that an imploded list can be read back.
- `join.dfy`: module `Sql`. It holds the rendering functions over the join's fields and the class
  `Join`, whose methods are proved against them.
- `join_properties.dfy`: module `JoinProperties`, the lemmas about the rendered clause.
- `quote_example.dfy`: module `QuoteExample`. It holds an illustrative quoter, limited to what the Quote
  tests assert for plain, already quoted and dotted names, and join clauses rendered with it. It is not
  the library's Quote class, whose code is not part of this model.

How the collaborators enter the model:

- The quoter is `Option<string -> string>`. `None` is a null quote object; `Join::quote` then returns
  the name unchanged.
- `Where::build` is the function parameter `render`.
- The Bind object is an opaque type parameter `B`, passed through as `Option<B>` because it may be null.
- PHP truthiness is modelled exactly for the strings involved: null, `""` and `"0"` are false. So an
  alias `"0"` falls back to the table name, and a criteria string `"0"` counts as no criteria. Any other
  criteria value is `Other(truthy)` and carries its own PHP truthiness.

Three behaviours of the code worth knowing, which the model keeps:

- A join with USING keys and no criteria renders the USING form, `USING( "id" )`
  (`UsingJoinExample`).
- When no outer table was set, the USING equalities use an empty table name (`".id"`). No error is raised.
- `by` accepts any string as the join type. No unknown type is rejected.

## Model

| member | source | states |
|---|---|---|
| Sql.Join.constructor | src/Sql/Join.php:14-62 | a new join has the given table and alias, type `JOIN`, no keys, no criteria, and no bind, quote or outer table |
| Sql.Join.Table | src/Sql/Join.php:69-72 | the static factory returns a fresh join in the same initial state |
| Sql.Join.By | src/Sql/Join.php:87-91 | the type becomes exactly the given string; the frame lets no other field change; the join itself is returned |
| Sql.Join.Left | src/Sql/Join.php:77-81 | the type becomes `LEFT OUTER JOIN` and nothing else changes |
| Sql.Join.Right | src/Sql/Join.php:96-100 | the type becomes `RIGHT OUTER JOIN` and nothing else changes |
| Sql.Join.SetQueryTable | src/Sql/Join.php:109-113 | only the outer query's table is set |
| Sql.Join.Using | src/Sql/Join.php:119-130 | the normalised arguments replace any earlier keys; nothing else changes |
| Sql.Join.On | src/Sql/Join.php:136-140 | only the criteria are replaced |
| Sql.Join.Build | src/Sql/Join.php:150-160 | bind and quote are stored; the result is the rendered clause `JoinSql` (the model of `Join::build`) of the current fields, or the error |
| Sql.Join.BuildUsingOrOn | src/Sql/Join.php:200-209 | the tail is `UsingOrOn` of the fields: the ON form when the criteria are truthy (`HasCriteria`), else the USING form when there are keys, else empty |
| Sql.Join.BuildOn | src/Sql/Join.php:215-235 | the loop over the keys yields `OnClause` of the fields: Where rendered or string verbatim, key equalities (`KeyEquality` per key) first, any other criteria an error |
| Sql.Join.BuildUsing | src/Sql/Join.php:248-255 | the loop over the keys yields `UsingClause` of the keys: `USING( ` + the quoted keys joined by `, ` + ` )` |
| Sql.QuoteName | src/Sql/Join.php:186-195 | `q(name)` for a quoter `q`, or the name unchanged with no quoter |
| Sql.AliasOrTable | src/Sql/Join.php:240-243 | the alias when it is truthy, else the table |
| Sql.TableText | src/Sql/Join.php:173-180 | the quoted table, then `" "` and the quoted alias exactly when the alias is truthy |
| Sql.CriteriaSql | src/Sql/Join.php:217-223 | a Where is rendered with bind, quoter, alias and outer table; a string is kept verbatim; any other value is the error, and only then |
| Strings.Implode | src/Sql/Join.php:159 | the pieces in order with the glue between them: one piece is itself, the result starts with the first piece, and its length is the pieces' lengths plus one glue per gap |
| Sql.QuotedKeys | src/Sql/Join.php:250-253 | one quoted key per key, same length, key order kept |
| Sql.KeyEqualities | src/Sql/Join.php:225-230 | one equality `quote(alias.k)=quote(queryTable.k)` per key, in key order |
| Sql.UsingKeys | src/Sql/Join.php:119-130 | several arguments are the key list; a single array is the list; a single scalar is a one-key list |
| Sql.KeyNames | src/Sql/Join.php:121-122 | several scalar arguments become the list of their names, in order |
| JoinProperties.BuildLayout | src/Sql/Join.php:154-159 | the clause is `type + " " + tableText + " " + tail` and fails exactly when the tail fails |
| JoinProperties.NoTailLeavesTrailingSpace | src/Sql/Join.php:200-209 | with no criteria and no keys the clause is `type + " " + tableText + " "` |
| JoinProperties.BuildFailsIffForeignCriteria | src/Sql/Join.php:215-223 | Join itself raises only, and always, when the criteria are a truthy value that is neither a string nor a Where (render and the quoter are total here) |
| JoinProperties.TailForm | src/Sql/Join.php:200-209 | the tail starts with `ON ( ` iff there are criteria (whatever the keys), with `USING( ` iff there are keys and no criteria, and is empty iff neither |
| JoinProperties.StringCriteriaVerbatim | src/Sql/Join.php:219-220 | a truthy string criteria without keys renders as `ON ( s )` |
| JoinProperties.WhereCriteriaRendered | src/Sql/Join.php:217-218 | a Where is rendered with bind, quoter, alias and outer table; without keys the tail is `ON ( that )` |
| JoinProperties.OnWithKeys | src/Sql/Join.php:224-234 | with criteria and keys the tail is `ON ( e1 AND … AND en AND ( sql ) )` for the equalities of the keys in order, with alias falling back to the table |
| JoinProperties.AliasShownIffTruthy | src/Sql/Join.php:173-180 | the table text is the quoted table alone exactly when the alias is falsy |
| JoinProperties.EqualitiesUseShownName | src/Sql/Join.php:173-180 | the name `alias()` gives the ON equalities (240-243) is the last name of the table text, quoted alike |
| JoinProperties.NoQuoterIsIdentity | src/Sql/Join.php:186-190 | with no quoter, table text, USING list and equalities use the names unchanged |
| JoinProperties.UsingClauseRecoversKeys | src/Sql/Join.php:248-255 | the USING list reads back as exactly the quoted keys, in order, when no quoted key contains `, ` |
| JoinProperties.UsingSpreadMatchesList | src/Sql/Join.php:119-130 | `using('a', 'b')` and `using(['a', 'b'])` record the same keys |
| Strings.ExplodeImplode | src/Sql/Join.php:254 | exploding imploded pieces gives the pieces back when no piece contains the unbordered glue |
| QuoteExample.DemoQuote | tests/SqlBuilder/Quote_Test.php:30-72 | the illustrative quoter always returns a name wrapped in the quote character |
| QuoteExample.DemoQuoteIdempotent | tests/SqlBuilder/Quote_Test.php:56-61 | quoting a quoted name with the illustrative quoter changes nothing |
| QuoteExample.DemoQuoteWrapsPlainName | tests/SqlBuilder/Quote_Test.php:30-51 | a plain name (no period, no ` as `/` AS ` keyword), spaces included, is wrapped whole in whichever quote character is set |
| QuoteExample.DemoQuoteQuotedPrefix | tests/SqlBuilder/Quote_Test.php:71-72 | an already quoted table before the period is kept and the column after it is quoted |
| QuoteExample.DemoQuoteDottedPath | tests/SqlBuilder/Quote_Test.php:74-78 | `table.column` of plain names (no ` as `/` AS ` keyword) becomes `"table"."column"`, the split that line 75 asserts before the alias |
| QuoteExample.UsingJoinExample | src/Sql/Join.php:248-255 | `JOIN "t" "a" USING( "k" )` for a join using one key without criteria |
| QuoteExample.OnWithUsingExample | src/Sql/Join.php:224-234 | `LEFT OUTER JOIN "t" "a" ON ( "a"."k"="q"."k" AND ( sql ) )` for a key plus string criteria |
| QuoteExample.OnWithoutAliasExample | src/Sql/Join.php:240-243 | without an alias the equality names the table: `JOIN "t" ON ( "t"."k"="q"."k" AND ( sql ) )` |

## Left out

- `Join::quote` on an array (`Quote::map`, src/Sql/Join.php:191-193): Join only ever quotes single strings.
- The Quote class: its code is not part of this model. The quoter is an arbitrary function. The
  illustrative quoter covers neither the `as`/`AS` alias split nor the `$.` parent prefix
  (tests/SqlBuilder/Quote_Test.php:74-88).
- Exceptions raised inside `Where::build` (src/Sql/Join.php:218) or `Quote::quote` (194) propagate out of
  `Join::build` and are not modelled: `render` and the quoter are total functions here.
- `Where::build` and Bind: their code is not part of this model. `render` is a pure function of its
  arguments. Any placeholders `Where::build` allocates in the Bind object, a mutation, are not modelled.
- Sql.Join.Using: does not model a call with no argument, which PHP rejects with `ArgumentCountError`.
  It also does not model several arguments of which one is an array, which PHP would render as `Array`,
  or a callable argument.
- Sql.UsingKeys: carries the same two preconditions as `Sql.Join.Using`, for the same reasons.
- The `JoinInterface` interface, `src/Builder/Builder.php` and `src/Factory.php` are not part of this
  model. They dispatch to statement builders whose code is not shown.
- The table name is a string, as the constructor's docblock declares (`@param string $table`,
  src/Sql/Join.php:55). A null table is not modelled.
