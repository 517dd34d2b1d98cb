# Realm query builder — a verified Dafny model

This project models the core of a small TypeScript library that puts a fluent
query builder in front of the Realm object database. The model covers three parts:

- `QueryBuilder` keeps a list of predicate tokens, a list of sort keys and an
  offset/limit pair. Chained calls change these fields. `getQuery` renders the
  tokens into one Realm filter string. `get` asks the database for the rows and
  cuts them to the paging window.
- `schemaToId` and `schemaToTitle` rewrite a collection name into its
  foreign-key name and its singular form.
- The `ModelRelationship` mixin resolves `belongTo`, `belongToMany`, `hasMany`
  and `hasOne` into a single equality lookup. Its static methods start a fresh
  builder on the model's table.

Files:

- `wrappers.dfy`: `Option` and `Outcome`. An `Outcome` error stands for a thrown exception.
- `text.dfy`: `Array.join`, and the decimal rendering of integers with its inverse.
- `utils.dfy`: module `Utils`. The word-final regular-expression rewrites and the two name conversions.
- `query.dfy`: module `Query`. It holds:
  - the token and value datatypes;
  - `safeValue` and `safeOperator`;
  - `Render`, the specification of `getQuery`;
  - `Page`, the paging window;
  - `Results`, the specification of `get`.
- `builder.dfy`: module `Builder`. Class `QueryBuilder` has fields that its methods update in place. `GetQuery` is the rendering loop, proved against `Render`.
- `relationship.dfy`: module `Relationship`. Relationship key resolution and the static passthroughs.

The database is a parameter: a `Realm` value carrying `objects(schema)`,
`filtered(rows, query)` and `sorted(rows, descriptor)` as functions. The model
states exactly which of these calls `get` makes and with which arguments.

Four behaviours of the code a reader may not expect:

- An explicit `and()` or `or()` does not suppress the next implicit connector. `where(a).and().where(b)` renders `a AND  AND b`. See `Query.ExplicitConnectorKept`.
- An array-valued `where` is not wrapped in parentheses. A preceding ` AND ` binds to its first alternative only. See `Query.ArrayWhereNotGrouped`.
- `groupStart` never gets a connector either. `where(a).groupStart().where(b).groupEnd()` renders `a = 1(b = 2)`. See `Query.GroupWraps` and `Query.ConnectorPlacement`.
- `whereBetween` never gets a connector. After another token it is glued on directly, for example `a = 1x BETWEEN { 1,2 }`. See `Query.ConnectorPlacement`.

## Model

| member | source | states |
|---|---|---|
| Utils.ReplaceWordFinal | src/Utils.tsx:2 | a word-final `replace(/(pat)\b/g, rep)` never shortens the text when the replacement is at least as long as the pattern, and never lengthens it when it is at most as long |
| Utils.SchemaToId | src/Utils.tsx:1-3 | the foreign-key name is never shorter than the collection name: both rewrites lengthen |
| Utils.SchemaToTitle | src/Utils.tsx:4-6 | the singular form is never longer than the collection name: both rewrites shorten |
| Utils.CategoriesNames | src/Utils.tsx:1-6 | `schemaToId('categories')` is `category_id` and `schemaToTitle('categories')` is `category` |
| Utils.BrandsNames | src/Utils.tsx:1-6 | `schemaToId('brands')` is `brand_id` and `schemaToTitle('brands')` is `brand` |
| Utils.NameWithoutFinalS | src/Utils.tsx:1-6 | `person` has no word-final `s`, so both conversions return it unchanged and no `_id` is added |
| Utils.WordEndingInIes | src/Utils.tsx:1-6 | a word ending in `ies` becomes `…y_id` / `…y`, never `…ie_id`, because the `ies` rewrite runs first |
| Utils.WordEndingInS | src/Utils.tsx:1-6 | a word ending in `s` but not in `ies` becomes `…_id` / `…` |
| Utils.IdIsTitleWithSuffix | src/Utils.tsx:1-6 | for a word ending in `s`, the id name is the title followed by `_id` |
| Utils.TitleUnchangedIff | src/Utils.tsx:4-6 | `schemaToTitle` leaves a name unchanged if and only if no word in it ends in `s` |
| Utils.IdUnchangedIff | src/Utils.tsx:1-3 | `schemaToId` leaves a name unchanged if and only if no word in it ends in `s` |
| Utils.ConversionsPerWord | src/Utils.tsx:1-6 | the rewrites are global: across a non-word separator each word is converted on its own |
| Utils.ReplaceWithoutMatch | src/Utils.tsx:2 | a global `\b`-anchored replace with no word-final occurrence returns its input |
| Utils.ReplaceWithMatch | src/Utils.tsx:2 | one word-final occurrence is enough for the replace to change the length (shorter or longer as the replacement is) |
| Utils.ReplaceAcrossSeparator | src/Utils.tsx:2 | a global replace distributes over a split at a non-word character |
| Utils.ReplaceWordEnd | src/Utils.tsx:2 | a single word ending in the pattern gets exactly that ending replaced |
| Utils.ReplaceWordNoEnd | src/Utils.tsx:2 | a single word that does not end in the pattern is returned unchanged |
| Utils.IesEndsInS | src/Utils.tsx:2 | every word-final `ies` is also a word-final `s` |
| Text.IntToStringRoundTrip | src/QueryBuilder.tsx:404-414 | the decimal text a number is interpolated as reads back as the same number |
| Query.WhereToken | src/QueryBuilder.tsx:75-100 | `where` stores a structured filter with a truthy `property` as given, a property name positionally, and a structured filter with an empty `property` positionally with the property `[object Object]`; it tags the token `orWhere` exactly when `isOr` |
| Query.SafeValue | src/QueryBuilder.tsx:404-414 | the text is never empty; it starts with a quote exactly for a string, it is `null` exactly for a missing value, and a number's text reads back as that number |
| Query.SafeValueRoundTrip | src/QueryBuilder.tsx:404-414 | `safeValue` maps `null`/`undefined` to `null`, quotes strings and prints numbers, and every value can be read back from its text |
| Query.SafeValueInjective | src/QueryBuilder.tsx:404-414 | distinct values render differently: `'1'`, `1` and `null` never collide |
| Query.SafeOperator | src/QueryBuilder.tsx:416-430 | a missing or empty operator is `=`, `LIKE` is `CONTAINS`, `LIKE[c]` is `CONTAINS[c]`, any other operator is kept; the result is never empty or a `LIKE` alias |
| Query.Render | src/QueryBuilder.tsx:319-402 | an empty token list renders as the empty string, and the first token renders with no connector in front of it |
| Query.RenderSplit | src/QueryBuilder.tsx:319-402 | rendering a token list in two parts: the second part's connectors depend only on the last token of the first |
| Query.RenderAfterOpening | src/QueryBuilder.tsx:382-393 | the token before a list matters only through whether it is absent or a `groupStart` |
| Query.RenderAppend | src/QueryBuilder.tsx:319-402 | appending a token leaves the text so far and adds its connector and fragment |
| Query.ConnectorPlacement | src/QueryBuilder.tsx:382-393 | no connector on the first fragment or after `groupStart`; none before `whereBetween`, group, `and` or `or` tokens; otherwise ` AND ` before `where`/`whereRaw` and ` OR ` before their `or` variants |
| Query.ExplicitConnectorKept | src/QueryBuilder.tsx:373-393 | `and()` / `or()` followed by `where` renders both the explicit and the implicit connector |
| Query.ExplicitThenWhere | src/QueryBuilder.tsx:373-393 | an explicit connector token is followed by the implicit ` AND ` of the next `where` |
| Query.GroupWraps | src/QueryBuilder.tsx:365-393 | `groupStart … groupEnd` wraps the inner text in parentheses; the group start gets no connector and the first inner fragment gets none |
| Query.WhereChain | src/QueryBuilder.tsx:319-402 | a chain of plain `where` calls, of any length including none, renders as their clauses joined by ` AND ` |
| Query.JoinAppend | src/QueryBuilder.tsx:342 | `join` of a list with one more element adds the separator and that element |
| Query.OrWhereChangesOneConnector | src/QueryBuilder.tsx:382-393 | replacing a `where` by an `orWhere` changes only its own connector from ` AND ` to ` OR ` |
| Query.ArrayWhereNotGrouped | src/QueryBuilder.tsx:334-393 | after any token but `groupStart`, a `where` with an array value of any length adds ` AND ` and then one clause per element joined by ` OR `, with no parentheses |
| Query.ArrayAfterOneWhere | src/QueryBuilder.tsx:334-393 | one `where`, then a two-element array, renders `x AND p op a OR p op b` |
| Query.TwoValueText | src/QueryBuilder.tsx:334-342 | a two-element array value renders `p op a OR p op b` |
| Query.Slice | src/QueryBuilder.tsx:258 | `slice(start, end)` keeps the rows from `start` up to `end`, clamped to the list |
| Query.Page | src/QueryBuilder.tsx:254-261 | the window is taken only when the limit or the offset is non-negative; it starts at the positive offset or 0 and holds `limit` rows, or all the rest when the limit is not positive |
| Query.LimitZeroIsUnbounded | src/QueryBuilder.tsx:256 | a limit of 0 bounds nothing: it is the same as no limit |
| Query.PagesTile | src/QueryBuilder.tsx:254-261 | two adjacent windows make up the window that spans both |
| Query.PagingExample | src/QueryBuilder.tsx:254-261 | `limit(2, 1)` over ids 2, 3, 4, 5 keeps ids 3 and 4 |
| Query.SortPairs | src/QueryBuilder.tsx:248-251 | the sort descriptor has one `[property, sort === 'DESC']` pair per key, in call order |
| Query.Results | src/QueryBuilder.tsx:240-262 | with no query text and no sort keys the database is asked only for the collection, which is then paged; with a query, no sort keys and no window, the rows are exactly the database's filtered rows |
| Query.Head | src/QueryBuilder.tsx:286-288 | `get()[0]` is present exactly when a row is left, and is the first row |
| Query.OrElse | src/QueryBuilder.tsx:290-292 | `first() ?? value` is the fallback exactly when nothing was found |
| Query.OrFail | src/QueryBuilder.tsx:294-302 | throws `object not found` exactly when nothing was found, and otherwise returns the row |
| Builder.QueryBuilder.constructor | src/QueryBuilder.tsx:62-73 | a new builder has no tokens, no sort keys, and offset and limit `-1` |
| Builder.QueryBuilder.Where | src/QueryBuilder.tsx:75-100 | appends exactly one `where` token; earlier tokens, sort keys, offset and limit are unchanged |
| Builder.QueryBuilder.OrWhere | src/QueryBuilder.tsx:102-108 | appends exactly one `orWhere` token and changes nothing else |
| Builder.QueryBuilder.WhereRaw | src/QueryBuilder.tsx:110-117 | appends exactly one raw fragment and changes nothing else |
| Builder.QueryBuilder.OrWhereRaw | src/QueryBuilder.tsx:119-121 | appends exactly one `orWhereRaw` fragment and changes nothing else |
| Builder.QueryBuilder.WhereBetween | src/QueryBuilder.tsx:123-138 | appends exactly one range token with both bounds and changes nothing else |
| Builder.QueryBuilder.OrWhereBetween | src/QueryBuilder.tsx:140-142 | appends exactly one `orWhereBetween` token and changes nothing else |
| Builder.QueryBuilder.WhereStart | src/QueryBuilder.tsx:144-160 | appends one `BEGINSWITH` (or `BEGINSWITH[c]`) string comparison and changes nothing else |
| Builder.QueryBuilder.OrWhereStart | src/QueryBuilder.tsx:162-164 | the same comparison as an `orWhere` token |
| Builder.QueryBuilder.WhereEnd | src/QueryBuilder.tsx:166-182 | appends one `ENDSWITH` (or `ENDSWITH[c]`) string comparison and changes nothing else |
| Builder.QueryBuilder.OrWhereEnd | src/QueryBuilder.tsx:184-186 | the same comparison as an `orWhere` token |
| Builder.QueryBuilder.When | src/QueryBuilder.tsx:188-197 | without a value the builder is left exactly as it was and the callback is not called; with one the callback is applied once |
| Builder.QueryBuilder.GroupEnd | src/QueryBuilder.tsx:199-205 | appends one `groupEnd` token and changes nothing else |
| Builder.QueryBuilder.GroupStart | src/QueryBuilder.tsx:207-213 | appends one `groupStart` token and changes nothing else |
| Builder.QueryBuilder.And | src/QueryBuilder.tsx:215-221 | appends one `and` token and changes nothing else |
| Builder.QueryBuilder.Or | src/QueryBuilder.tsx:223-229 | appends one `or` token and changes nothing else |
| Builder.QueryBuilder.Sort | src/QueryBuilder.tsx:231-238 | appends one sort key after the earlier ones, `ASC` by default, and changes nothing else |
| Builder.QueryBuilder.Offset | src/QueryBuilder.tsx:304-308 | sets the offset; a missing offset resets it to `-1` |
| Builder.QueryBuilder.Limit | src/QueryBuilder.tsx:310-317 | sets the limit (`-1` when missing); the offset changes only for a truthy `pOffset`, so `0` keeps the earlier one |
| Builder.QueryBuilder.Piece | src/QueryBuilder.tsx:330-393 | the piece one loop pass pushes is the token's connector after `lastQuery` followed by its fragment |
| Builder.QueryBuilder.GetQuery | src/QueryBuilder.tsx:319-402 | the loop's output is `Render` of the token list, so every rendering lemma holds of it |
| Builder.GetQueryStep | src/QueryBuilder.tsx:395-401 | one loop pass extends the joined pieces to the rendering of one more token |
| Builder.RenderPiece | src/QueryBuilder.tsx:382-395 | the piece one pass pushes is what `Render` adds for that token |
| Builder.QueryBuilder.Get | src/QueryBuilder.tsx:240-262 | the rows are the collection's rows, filtered only by a non-empty query, sorted only by a non-empty sort list, then cut to the paging window |
| Builder.QueryBuilder.Find | src/QueryBuilder.tsx:264-270 | the first row matching `property = id`, and the token list afterwards equals the one before |
| Builder.QueryBuilder.FindOr | src/QueryBuilder.tsx:272-274 | that row, or the fallback exactly when there is none; the builder is unchanged |
| Builder.QueryBuilder.FindOrFail | src/QueryBuilder.tsx:276-284 | that row, or `object not found` exactly when there is none; the builder is unchanged |
| Builder.QueryBuilder.First | src/QueryBuilder.tsx:286-288 | the first row of `get()`, if any |
| Builder.QueryBuilder.FirstOr | src/QueryBuilder.tsx:290-292 | the first row, or the fallback exactly when there is none |
| Builder.QueryBuilder.FirstOrFail | src/QueryBuilder.tsx:294-302 | the first row, or `object not found` exactly when there is none |
| Relationship.OwnerValue | src/ModelRelationship.tsx:25 | `this[key] ?? -1` is the field's own value when that is present and `-1` when it is missing or `null`, so never `null` |
| Relationship.BelongTo | src/ModelRelationship.tsx:16-28 | looks up `schema` for the first row whose `childProperty ?? 'id'` equals this instance's `ownerProperty ?? schemaToId(schema)` field, `-1` when that field is missing or `null` |
| Relationship.BelongToMany | src/ModelRelationship.tsx:30-42 | fails exactly when no child key is given; otherwise looks up all rows of `schema` whose child key equals this instance's `ownerProperty ?? 'id'` field, `-1` when missing or `null` |
| Relationship.HasMany | src/ModelRelationship.tsx:44-56 | looks up all rows of `schema` whose `childProperty ?? schemaToId(getTable())` equals this instance's `ownerProperty ?? 'id'` field, `-1` when missing or `null` |
| Relationship.HasOne | src/ModelRelationship.tsx:58-70 | the same keys and value as `hasMany`, finished by the first row |
| Relationship.EqTokenRenders | src/ModelRelationship.tsx:21-27 | the one equality token of a relationship renders as `property = value` |
| Relationship.EqTokenResults | src/ModelRelationship.tsx:21-27 | a fresh builder with one equality token asks the database for exactly `property = value` and returns its rows untouched |
| Relationship.EmptyResults | src/ModelRelationship.tsx:138-140 | a fresh builder returns every row of the collection, untouched |
| Relationship.Evaluate | src/ModelRelationship.tsx:16-70 | a relationship answers with the database's rows for `property = value`, or the first of them for `belongTo` / `hasOne` |
| Relationship.Resolve | src/ModelRelationship.tsx:21-27 | running a lookup on a fresh builder with one `where` gives `Evaluate`'s answer |
| Relationship.MissingOwnerIsMinusOne | src/ModelRelationship.tsx:16-28 | a missing or `null` owner field is compared as `-1` |
| Relationship.HasOneIsFirstOfHasMany | src/ModelRelationship.tsx:44-70 | `hasOne` asks what `hasMany` asks and answers with its first row |
| Relationship.BelongToManyNeedsChildKey | src/ModelRelationship.tsx:30-42 | `belongToMany` fails exactly when no child key is given; otherwise it compares that key with the owner's `ownerProperty ?? 'id'` |
| Relationship.BelongToManyIsHasMany | src/ModelRelationship.tsx:30-56 | given a child key, `belongToMany` asks exactly what `hasMany` asks with the same keys; with the child key `schemaToId(getTable())` it is `hasMany` with its defaults |
| Relationship.BelongToMirrorsHasMany | src/ModelRelationship.tsx:16-56 | with default keys, a child asks the parent table for `id = v` and the parent asks the child table for `schemaToId(parent table) = v`, with the same `v` |
| Relationship.BrandBelongsToCategory | src/ModelRelationship.tsx:16-28 | a brand with `category_id` 2 looks up `categories` for `id = 2`, first row |
| Relationship.CategoryHasBrands | src/ModelRelationship.tsx:44-56 | category 2 looks up `brands` for `category_id = 2`, all rows |
| Relationship.First | src/ModelRelationship.tsx:72-74 | `Model.first()` is the first row of the model's table |
| Relationship.FirstOr | src/ModelRelationship.tsx:75-77 | `Model.firstOr(value)` is that row or the fallback |
| Relationship.FirstOrFail | src/ModelRelationship.tsx:78-80 | `Model.firstOrFail()` calls `first()`: on an empty table it returns nothing and never fails |
| Relationship.Find | src/ModelRelationship.tsx:81-83 | `Model.find(id, property)` is the first row of the table matching `property ?? 'id' = id` |
| Relationship.FindOr | src/ModelRelationship.tsx:84-86 | that row, or the fallback |
| Relationship.FindOrFail | src/ModelRelationship.tsx:87-89 | that row, or `object not found` |
| Relationship.Where | src/ModelRelationship.tsx:90-100 | a new builder on the table holding exactly that one `where` token |
| Relationship.WhereBetween | src/ModelRelationship.tsx:107-113 | a new builder holding exactly that one range token |
| Relationship.WhereEnd | src/ModelRelationship.tsx:114-120 | a new builder holding exactly that one `ENDSWITH` comparison |
| Relationship.WhereStart | src/ModelRelationship.tsx:121-131 | a new builder holding exactly that one `BEGINSWITH` comparison |
| Relationship.When | src/ModelRelationship.tsx:132-137 | a new builder, changed by the callback only when a value is given |
| Relationship.Get | src/ModelRelationship.tsx:138-140 | `Model.get()` is every row of the model's table |

## Left out

- `whereType`, `with`, `count`, `sum` and `avg` are not defined in `QueryBuilder.tsx`. `Model.whereType` (src/ModelRelationship.tsx:101-106) calls one of them, so it is not modelled.
- The Realm database itself is modelled as three given functions. Its filter language, its sorting and its live result objects are not modelled. `getRealm()`, the default when no realm is passed, is not part of this model: every builder takes its realm explicitly.
- `getTable()` is not modelled as a static class member. A model instance is a `Record` carrying its table name, and the static methods take the table name as a parameter.
- Numbers are unbounded integers. Floating-point values are not modelled, and neither is how JavaScript renders large numbers: `${n}` uses exponent form from 10^21 on (`1e+21`), and integers beyond 2^53 are not exact. `Query.SafeValue` renders every integer in plain decimal.
- `null` and `undefined` are one value, `Nil`, and an omitted optional argument is `None`. The source treats them alike in `??`, `safeValue` and the not-found checks, but a JavaScript default parameter replaces only `undefined`. The parameter types exclude `null`, so an explicit `null` argument is not modelled. The model differs from the source for it in these places:
  - `belongToMany(schema, null, c)` reads `this[schemaToId(schema)]` (src/ModelRelationship.tsx:32, 39). The model reads `this.id`.
  - `hasMany(schema, null)` and `hasOne(schema, null)` read `this['null']`, which becomes `-1` (src/ModelRelationship.tsx:46, 53, 60, 67). The model reads `this.id`.
  - `belongTo(schema, null)` (src/ModelRelationship.tsx:18) and `find(id, null)` (src/QueryBuilder.tsx:264) throw a `TypeError` in `where` (src/QueryBuilder.tsx:81). The model compares `id`.
- Builder.QueryBuilder.When: the callback is modelled as a pure function from the builder's fields and the value to new fields. It cannot keep a reference to the builder or call its terminal methods.
- Builder.QueryBuilder.FindOr: the fallback value has the row type. The source allows a fallback of any type. The same restriction applies to `Builder.QueryBuilder.FirstOr`, `Relationship.FirstOr` and `Relationship.FindOr`.
- Builder.QueryBuilder.Find: database errors are not modelled. `filtered` always succeeds in the model, but Realm throws on a query it cannot parse, and this builder can produce one (a `whereBetween` right after a comparison or `groupEnd`, an unmatched group, a malformed `whereRaw` fragment). The throw comes from `get()` (src/QueryBuilder.tsx:265), so the `pop()` at src/QueryBuilder.tsx:267 does not run and the temporary token stays in `queryList`. The model's promise that the builder is unchanged holds only when the database accepts the query. The same applies to `Builder.QueryBuilder.FindOr`, `Builder.QueryBuilder.FindOrFail` and the static `Relationship.Find`, `Relationship.FindOr` and `Relationship.FindOrFail`.
- Aliasing is not modelled. A structured filter object passed to `where` is stored by reference in the source and could be mutated afterwards; the model stores its value.
- The source's token type also allows `distinct`, `limit`, `sort`, `whereType` and `orWhereType` tokens. No method pushes them, and `getQuery` renders them as empty, so they are not part of the token datatype.
- Relationship.BelongToMany: the thrown `TypeError` is modelled as an error value with a fixed message. The exact engine message is not part of this model.
- The instance relationship methods are modelled as functions returning the lookup they perform (`BelongTo`, `BelongToMany`, `HasMany`, `HasOne`), run by `Resolve`. They do not get rows of their own.
