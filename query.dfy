/** The values a query builder works with, and the specification of what it
  * produces: the filter string rendered from its token list (`getQuery`) and
  * the rows `get()` returns once the database has filtered and sorted them. */
module Query {
  import opened Wrappers
  import opened Text

  /** A comparison value: a string, an integer number, or `null`/`undefined` (both `Nil`). */
  datatype Scalar = Nil | Str(s: string) | Num(n: int)

  /** `WhereValueType`: one value, or an array of values. */
  datatype WhereValue = One(v: Scalar) | Many(vs: seq<Scalar>)

  /** `WhereType`: the structured filter `{ property, operator?, value }`. */
  datatype Filter = Filter(property: string, operator: Option<string>, value: WhereValue)

  /** The first argument of `where` / `whereBetween`: a property name or a structured filter. */
  datatype PropertyArg = Key(name: string) | Structured(filter: Filter)

  /** `QueryType`: one entry of the builder's `queryList`. */
  datatype Token =
    | Compare(isOr: bool, filter: Filter)                              // 'where' / 'orWhere'
    | Raw(isOr: bool, text: string)                                    // 'whereRaw' / 'orWhereRaw'
    | Between(isOr: bool, property: string, low: Scalar, high: Scalar) // 'whereBetween' / 'orWhereBetween'
    | GroupStart
    | GroupEnd
    | And
    | Or

  datatype Direction = Asc | Desc

  /** `SortType`: one entry of the builder's `sortList`. */
  datatype SortKey = SortKey(property: string, direction: Direction)

  /** How a template literal shows the first argument of `where` / `whereBetween`
    * when it is stored as the property: an object prints as `[object Object]`. */
  function PropertyText(p: PropertyArg): string
  {
    match p
    case Key(name) => name
    case Structured(_) => "[object Object]"
  }

  /** The token `where(property, operator, value, isOr)` pushes: a structured filter
    * with a truthy (non-empty) `property` is stored as it is, anything else is
    * stored positionally. */
  function WhereToken(property: PropertyArg, operator: Option<string>, value: WhereValue, isOr: bool): (t: Token)
    ensures t.Compare? && t.isOr == isOr
    ensures property.Structured? && property.filter.property != "" ==> t.filter == property.filter
    ensures property.Key? ==> t.filter == Filter(property.name, operator, value)
    ensures property.Structured? && property.filter.property == "" ==> t.filter == Filter("[object Object]", operator, value)
  {
    if property.Structured? && property.filter.property != "" then Compare(isOr, property.filter)
    else Compare(isOr, Filter(PropertyText(property), operator, value))
  }

  /** The equality token `find(id, property)` pushes. */
  function EqToken(property: string, id: Scalar): Token
  {
    Compare(false, Filter(property, Some("="), One(id)))
  }

  // ----- safeValue and safeOperator -----

  /** `safeValue`: `null` for a missing value, a string in single quotes (nothing
    * inside is escaped), a number in decimal. */
  function SafeValue(v: Scalar): (r: string)
    ensures |r| > 0
    ensures r[0] == '\'' <==> v.Str?
    ensures r == "null" <==> v.Nil?
    ensures v.Num? ==> ParseInt(r) == v.n
  {
    match v
    case Nil => "null"
    case Str(s) => "'" + s + "'"
    case Num(n) => IntToStringRoundTrip(n); IntToString(n)
  }

  /** Reads a rendered value back: the inverse of `SafeValue`. */
  function ParseLiteral(t: string): Scalar
  {
    if t == "null" then Nil
    else if |t| >= 2 && t[0] == '\'' && t[|t| - 1] == '\'' then Str(t[1..|t| - 1])
    else Num(ParseInt(t))
  }

  /** Every value renders to text it can be recovered from. */
  lemma SafeValueRoundTrip(v: Scalar)
    ensures ParseLiteral(SafeValue(v)) == v
  {
  }

  /** Distinct values never render alike: `'1'`, `1` and `null` stay apart. */
  lemma SafeValueInjective(a: Scalar, b: Scalar)
    requires SafeValue(a) == SafeValue(b)
    ensures a == b
  {
    SafeValueRoundTrip(a);
    SafeValueRoundTrip(b);
  }

  /** `safeOperator`: a missing or empty operator is `=`, the aliases `LIKE` and
    * `LIKE[c]` become `CONTAINS` and `CONTAINS[c]`, every other operator is kept. */
  function SafeOperator(op: Option<string>): (r: string)
    ensures r != "" && r != "LIKE" && r != "LIKE[c]"
    ensures op.None? || op.value == "" ==> r == "="
    ensures op == Some("LIKE") ==> r == "CONTAINS"
    ensures op == Some("LIKE[c]") ==> r == "CONTAINS[c]"
    ensures op.Some? && op.value != "" && op.value != "LIKE" && op.value != "LIKE[c]" ==> r == op.value
  {
    if op.None? || op.value == "" then "="
    else if op.value == "LIKE[c]" then "CONTAINS[c]"
    else if op.value == "LIKE" then "CONTAINS"
    else op.value
  }

  // ----- getQuery -----

  /** One comparison `property operator value`. */
  function Clause(f: Filter, v: Scalar): string
  {
    f.property + " " + SafeOperator(f.operator) + " " + SafeValue(v)
  }

  /** The fragment of a `where` token: an array value gives one comparison per
    * element joined by ` OR `, with no parentheses around them. */
  function CompareText(f: Filter): string
  {
    match f.value
    case One(v) => Clause(f, v)
    case Many(vs) => Join(" OR ", seq(|vs|, i requires 0 <= i < |vs| => Clause(f, vs[i])))
  }

  /** The text a token renders to, before any connector. */
  function Fragment(t: Token): string
  {
    match t
    case Compare(_, f) => CompareText(f)
    case Raw(_, text) => text
    case Between(_, p, low, high) => p + " BETWEEN { " + SafeValue(low) + "," + SafeValue(high) + " }"
    case GroupEnd => ")"
    case GroupStart => "("
    case And => " AND "
    case Or => " OR "
  }

  /** No connector is due after `last`: it is the start of the query or an open group. */
  predicate Opening(last: Option<Token>)
  {
    last.None? || last.value.GroupStart?
  }

  /** The connector placed before `t` when `last` precedes it: only `where` and
    * `whereRaw` tokens (and their `or` variants) get one, and only after a token
    * other than `groupStart`. */
  function Connector(last: Option<Token>, t: Token): string
  {
    if Opening(last) then ""
    else match t
      case Compare(isOr, _) => if isOr then " OR " else " AND "
      case Raw(isOr, _) => if isOr then " OR " else " AND "
      case _ => ""
  }

  /** The rendering of `ts` when `last` is the token before it. */
  function RenderAfter(last: Option<Token>, ts: seq<Token>): string
    decreases |ts|
  {
    if ts == [] then "" else Connector(last, ts[0]) + Fragment(ts[0]) + RenderAfter(Some(ts[0]), ts[1..])
  }

  /** The filter string `getQuery` returns for the token list `ts`. */
  function Render(ts: seq<Token>): (r: string)
    ensures ts == [] ==> r == ""
    ensures ts != [] ==> r == Fragment(ts[0]) + RenderAfter(Some(ts[0]), ts[1..])
  {
    RenderAfter(None, ts)
  }

  /** The token before whatever follows `ts`, when `last` preceded `ts`. */
  function LastOf(last: Option<Token>, ts: seq<Token>): Option<Token>
  {
    if ts == [] then last else Some(ts[|ts| - 1])
  }

  /** One token in front of a list renders as its connector, its fragment, then the list. */
  lemma RenderCons(last: Option<Token>, t: Token, rest: seq<Token>)
    ensures RenderAfter(last, [t] + rest) == Connector(last, t) + Fragment(t) + RenderAfter(Some(t), rest)
  {
    assert ([t] + rest)[0] == t;
    assert ([t] + rest)[1..] == rest;
  }

  /** Rendering is left to right: a list renders as its two halves one after the other. */
  lemma {:induction false} RenderSplit(last: Option<Token>, a: seq<Token>, b: seq<Token>)
    ensures RenderAfter(last, a + b) == RenderAfter(last, a) + RenderAfter(LastOf(last, a), b)
    decreases |a|
  {
    if a == [] {
      assert a + b == b;
    } else {
      var h, tl := a[0], a[1..];
      assert a == [h] + tl;
      assert a + b == [h] + (tl + b);
      var head := Connector(last, h) + Fragment(h);
      RenderCons(last, h, tl + b);
      RenderCons(last, h, tl);
      RenderSplit(Some(h), tl, b);
      assert LastOf(Some(h), tl) == LastOf(last, a);
      AppendAssoc(head, RenderAfter(Some(h), tl), RenderAfter(LastOf(last, a), b));
    }
  }

  /** What precedes a list matters only through whether it leaves a group open. */
  lemma RenderAfterOpening(l1: Option<Token>, l2: Option<Token>, ts: seq<Token>)
    requires Opening(l1) == Opening(l2)
    ensures RenderAfter(l1, ts) == RenderAfter(l2, ts)
  {
  }

  lemma RenderOne(last: Option<Token>, t: Token)
    ensures RenderAfter(last, [t]) == Connector(last, t) + Fragment(t)
  {
    assert [t][1..] == [];
  }

  /** Appending one token adds its connector and its fragment and leaves the text so far as it was. */
  lemma RenderAppend(ts: seq<Token>, t: Token)
    ensures Render(ts + [t]) == Render(ts) + Connector(LastOf(None, ts), t) + Fragment(t)
  {
    RenderSplit(None, ts, [t]);
    RenderOne(LastOf(None, ts), t);
  }

  /** The connector rules of `getQuery`:
    * the first fragment and a fragment right after `groupStart` get no connector;
    * otherwise `where`/`whereRaw` get ` AND ` and `orWhere`/`orWhereRaw` get ` OR `;
    * `whereBetween`, `groupStart`, `groupEnd`, `and` and `or` never get one. */
  lemma ConnectorPlacement(ts: seq<Token>, t: Token)
    ensures ts == [] || ts[|ts| - 1].GroupStart? ==> Render(ts + [t]) == Render(ts) + Fragment(t)
    ensures !t.Compare? && !t.Raw? ==> Render(ts + [t]) == Render(ts) + Fragment(t)
    ensures ts != [] && !ts[|ts| - 1].GroupStart? && (t.Compare? || t.Raw?) ==>
      Render(ts + [t]) == Render(ts) + (if t.isOr then " OR " else " AND ") + Fragment(t)
  {
    RenderAppend(ts, t);
    var c := Connector(LastOf(None, ts), t);
    if c == "" {
      assert Render(ts) + c == Render(ts);
    }
  }

  /** An explicit `and()` / `or()` does not replace the implicit connector of the
    * `where` after it: both are rendered. */
  lemma ExplicitConnectorKept(ts: seq<Token>, f: Filter)
    ensures Render(ts + [And, Compare(false, f)]) == Render(ts) + " AND " + " AND " + CompareText(f)
    ensures Render(ts + [Or, Compare(false, f)]) == Render(ts) + " OR " + " AND " + CompareText(f)
  {
    ExplicitThenWhere(ts, And, f);
    ExplicitThenWhere(ts, Or, f);
  }

  lemma ExplicitThenWhere(ts: seq<Token>, explicit: Token, f: Filter)
    requires explicit.And? || explicit.Or?
    ensures Render(ts + [explicit, Compare(false, f)]) == Render(ts) + Fragment(explicit) + " AND " + CompareText(f)
  {
    assert ts + [explicit, Compare(false, f)] == (ts + [explicit]) + [Compare(false, f)];
    ConnectorPlacement(ts, explicit);
    ConnectorPlacement(ts + [explicit], Compare(false, f));
  }

  /** `groupStart() ... groupEnd()` wraps exactly the tokens between them in
    * parentheses, and they render inside as they would on their own. */
  lemma GroupWraps(ts: seq<Token>, inner: seq<Token>)
    ensures Render(ts + [GroupStart] + inner + [GroupEnd]) == Render(ts) + "(" + Render(inner) + ")"
  {
    var open := ts + [GroupStart];
    ConnectorPlacement(ts, GroupStart);
    RenderSplit(None, open, inner);
    assert LastOf(None, open) == Some(GroupStart);
    RenderAfterOpening(Some(GroupStart), None, inner);
    ConnectorPlacement(open + inner, GroupEnd);
  }

  /** The tokens of `where(f)` for each `f` in turn. */
  function WhereTokens(fs: seq<Filter>): seq<Token>
  {
    seq(|fs|, i requires 0 <= i < |fs| => Compare(false, fs[i]))
  }

  /** The fragments of those tokens. */
  function WhereTexts(fs: seq<Filter>): seq<string>
  {
    seq(|fs|, i requires 0 <= i < |fs| => CompareText(fs[i]))
  }

  lemma {:induction false} JoinAppend(sep: string, xs: seq<string>, x: string)
    requires xs != []
    ensures Join(sep, xs + [x]) == Join(sep, xs) + sep + x
    decreases |xs|
  {
    if |xs| == 1 {
      assert xs + [x] == [xs[0], x];
      assert [xs[0], x][1..] == [x];
    } else {
      assert (xs + [x])[1..] == xs[1..] + [x];
      JoinAppend(sep, xs[1..], x);
    }
  }

  /** With only `where` calls, the query is their fragments joined left to right by ` AND `. */
  lemma {:induction false} WhereChain(fs: seq<Filter>)
    ensures Render(WhereTokens(fs)) == Join(" AND ", WhereTexts(fs))
    decreases |fs|
  {
    if fs == [] {
      assert WhereTokens(fs) == [] && WhereTexts(fs) == [];
      return;
    }
    var n := |fs| - 1;
    if n == 0 {
      RenderOne(None, Compare(false, fs[0]));
      assert WhereTokens(fs) == [Compare(false, fs[0])];
      assert WhereTexts(fs) == [CompareText(fs[0])];
    } else {
      var init := fs[..n];
      var ts, t := WhereTokens(init), Compare(false, fs[n]);
      assert WhereTokens(fs) == ts + [t];
      assert WhereTexts(fs) == WhereTexts(init) + [CompareText(fs[n])];
      assert ts[|ts| - 1] == Compare(false, init[n - 1]);
      calc {
        Render(WhereTokens(fs));
        Render(ts + [t]);
        { ConnectorPlacement(ts, t); }
        Render(ts) + " AND " + CompareText(fs[n]);
        { WhereChain(init); }
        Join(" AND ", WhereTexts(init)) + " AND " + CompareText(fs[n]);
        { JoinAppend(" AND ", WhereTexts(init), CompareText(fs[n])); }
        Join(" AND ", WhereTexts(fs));
      }
    }
  }

  /** Turning one `where` into `orWhere` changes only the connector before it, from
    * ` AND ` to ` OR `: everything before and after renders the same. */
  lemma OrWhereChangesOneConnector(pre: seq<Token>, f: Filter, post: seq<Token>)
    requires pre != [] && !pre[|pre| - 1].GroupStart?
    ensures Render(pre + [Compare(false, f)] + post)
         == Render(pre) + " AND " + CompareText(f) + RenderAfter(Some(Compare(false, f)), post)
    ensures Render(pre + [Compare(true, f)] + post)
         == Render(pre) + " OR " + CompareText(f) + RenderAfter(Some(Compare(false, f)), post)
  {
    RenderSplit(None, pre + [Compare(false, f)], post);
    RenderSplit(None, pre + [Compare(true, f)], post);
    RenderAppend(pre, Compare(false, f));
    RenderAppend(pre, Compare(true, f));
    RenderAfterOpening(Some(Compare(true, f)), Some(Compare(false, f)), post);
  }

  /** An array value is not put in parentheses: after any token other than
    * `groupStart`, its alternatives follow the implicit ` AND ` directly, so that
    * ` AND ` binds to the first alternative only. */
  lemma ArrayWhereNotGrouped(ts: seq<Token>, f: Filter, vs: seq<Scalar>)
    requires ts != [] && !ts[|ts| - 1].GroupStart?
    requires f.value == Many(vs)
    ensures Render(ts + [Compare(false, f)])
         == Render(ts) + " AND " + Join(" OR ", seq(|vs|, i requires 0 <= i < |vs| => Clause(f, vs[i])))
  {
    ConnectorPlacement(ts, Compare(false, f));
  }

  /** The smallest instance: one `where`, then a two-element array. */
  lemma ArrayAfterOneWhere(first: Filter, f: Filter, a: Scalar, b: Scalar)
    requires f.value == Many([a, b])
    ensures Render([Compare(false, first), Compare(false, f)])
         == CompareText(first) + " AND " + Clause(f, a) + " OR " + Clause(f, b)
  {
    var c1, c2 := Compare(false, first), Compare(false, f);
    var x, y, v := CompareText(first), Clause(f, a), Clause(f, b);
    assert Render([c1]) == x by {
      RenderOne(None, c1);
      assert Connector(None, c1) == "";
    }
    assert Fragment(c2) == y + " OR " + v by {
      TwoValueText(f, a, b);
    }
    assert Connector(Some(c1), c2) == " AND ";
    assert [c1, c2] == [c1] + [c2];
    RenderAppend([c1], c2);
    assert Render([c1, c2]) == x + " AND " + (y + " OR " + v);
    AppendAssoc(x + " AND ", y + " OR ", v);
    AppendAssoc(x + " AND ", y, " OR ");
  }

  lemma TwoValueText(f: Filter, a: Scalar, b: Scalar)
    requires f.value == Many([a, b])
    ensures CompareText(f) == Clause(f, a) + " OR " + Clause(f, b)
  {
    var parts := seq(2, i requires 0 <= i < 2 => Clause(f, [a, b][i]));
    assert parts == [Clause(f, a), Clause(f, b)];
    assert parts[1..] == [Clause(f, b)];
    calc {
      CompareText(f);
      Join(" OR ", parts);
      Clause(f, a) + " OR " + Join(" OR ", parts[1..]);
      Clause(f, a) + " OR " + Clause(f, b);
    }
  }

  // ----- the paging window of get() -----

  function Min(a: int, b: int): int { if a <= b then a else b }

  /** The first row `get()` keeps: the offset when it is positive, else 0. */
  function Start(offset: int): nat
  {
    if offset > 0 then offset else 0
  }

  /** The end of the window: `start + limit` for a positive limit, else none (`undefined`). */
  function End(offset: int, limit: int): Option<nat>
  {
    if limit > 0 then Some(Start(offset) + limit) else None
  }

  /** `Array.prototype.slice(start, end)` for non-negative bounds. */
  function Slice<T>(s: seq<T>, start: nat, end: Option<nat>): (r: seq<T>)
    ensures forall k :: 0 <= k < |r| ==> start + k < |s| && r[k] == s[start + k]
    ensures var rest := if start <= |s| then |s| - start else 0;
            |r| == if end.None? then rest else if end.value <= start then 0 else Min(end.value - start, rest)
  {
    var lo := Min(start, |s|);
    var hi := if end.None? then |s| else Min(end.value, |s|);
    if hi <= lo then [] else s[lo..hi]
  }

  /** The rows `get()` keeps of the sorted, filtered rows `s`. The window is taken
    * only when the limit or the offset is non-negative; it starts at
    * `Start(offset)` and holds `limit` rows, or all remaining rows when the limit
    * is not positive. */
  function Page<T>(s: seq<T>, offset: int, limit: int): (r: seq<T>)
    ensures forall k :: 0 <= k < |r| ==> Start(offset) + k < |s| && r[k] == s[Start(offset) + k]
    ensures var rest := if Start(offset) <= |s| then |s| - Start(offset) else 0;
            |r| == if limit > 0 then Min(limit, rest) else rest
  {
    if limit >= 0 || offset >= 0 then Slice(s, Start(offset), End(offset, limit))
    else assert Start(offset) == 0; s
  }

  /** A limit of 0 puts no bound on the window: it is the same as no limit. */
  lemma LimitZeroIsUnbounded<T>(s: seq<T>, offset: int)
    ensures Page(s, offset, 0) == Page(s, offset, -1)
  {
  }

  /** Two adjacent windows make up the window that spans both. */
  lemma PagesTile<T>(s: seq<T>, offset: nat, n: nat, m: nat)
    requires n > 0 && m > 0
    ensures Page(s, offset, n) + Page(s, offset + n, m) == Page(s, offset, n + m)
  {
    var a, b, c := Page(s, offset, n), Page(s, offset + n, m), Page(s, offset, n + m);
    assert Start(offset + n) == Start(offset) + n;
    assert |a + b| == |c|;
    forall k | 0 <= k < |c| ensures (a + b)[k] == c[k] {
      if k >= |a| {
        assert |a| == n;
        assert b[k - n] == s[Start(offset) + k];
      }
    }
  }

  /** `limit(2, 1)` on the rows with ids 2, 3, 4 and 5 keeps ids 3 and 4. */
  lemma PagingExample()
    ensures Page([2, 3, 4, 5], 1, 2) == [3, 4]
  {
    var r := Page([2, 3, 4, 5], 1, 2);
    assert |r| == 2;
    assert r[0] == 3 && r[1] == 4;
  }

  // ----- get() -----

  /** The database as `get()` uses it: `objects(schema)`, then `.filtered(query)`,
    * then `.sorted([[property, descending], ...])`. */
  datatype Realm<!R> = Realm(
    objects: string -> seq<R>,
    filtered: (seq<R>, string) -> seq<R>,
    sorted: (seq<R>, seq<(string, bool)>) -> seq<R>)

  /** The sort descriptor handed to the database: `[property, sort === 'DESC']` per key, in call order. */
  function SortPairs(keys: seq<SortKey>): (r: seq<(string, bool)>)
    ensures |r| == |keys|
    ensures forall i :: 0 <= i < |keys| ==> r[i].0 == keys[i].property && (r[i].1 <==> keys[i].direction == Desc)
  {
    seq(|keys|, i requires 0 <= i < |keys| => (keys[i].property, keys[i].direction == Desc))
  }

  /** The rows `get()` returns: filtered only by a non-empty query, sorted only by
    * a non-empty sort list, then cut to the paging window. */
  function Results<R>(realm: Realm<R>, schema: string, queryList: seq<Token>, sortList: seq<SortKey>,
                      offset: int, limit: int): (rows: seq<R>)
    ensures Render(queryList) == "" && sortList == [] ==> rows == Page(realm.objects(schema), offset, limit)
    ensures Render(queryList) != "" && sortList == [] && offset < 0 && limit < 0
         ==> rows == realm.filtered(realm.objects(schema), Render(queryList))
  {
    var query := Render(queryList);
    var all := realm.objects(schema);
    var filtered := if |query| > 0 then realm.filtered(all, query) else all;
    var sorted := if |sortList| > 0 then realm.sorted(filtered, SortPairs(sortList)) else filtered;
    Page(sorted, offset, limit)
  }

  /** `rows[0]`: `undefined` when there are no rows. */
  function Head<R>(rows: seq<R>): (r: Option<R>)
    ensures r.Some? <==> |rows| > 0
    ensures r.Some? ==> r.value == rows[0]
  {
    if |rows| > 0 then Some(rows[0]) else None
  }

  /** `value ?? fallback`. */
  function OrElse<R>(found: Option<R>, fallback: R): (r: R)
    ensures found.None? ==> r == fallback
    ensures found.Some? ==> r == found.value
  {
    found.GetOr(fallback)
  }

  /** Throws `object not found` exactly when nothing was found. */
  function OrFail<R>(found: Option<R>): (r: Outcome<R>)
    ensures r.Err? <==> found.None?
    ensures r.Err? ==> r.message == "object not found"
    ensures r.Ok? ==> r.value == found.value
  {
    if found.None? then Err("object not found") else Ok(found.value)
  }
}
