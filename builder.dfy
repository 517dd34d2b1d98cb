/** `QueryBuilder`: a fluent builder bound to one collection. Chained calls append
  * tokens to `queryList` and sort keys to `sortList` or set the paging window;
  * the terminal calls render the tokens into one filter string and ask the
  * database for the rows. Every chained call returns the builder itself, so in
  * this model they are methods that update its fields. */
module Builder {
  import opened Wrappers
  import opened Query

  /** The builder's fields as one value: what a `when` callback sees and leaves behind. */
  datatype BuilderState = BuilderState(queryList: seq<Token>, sortList: seq<SortKey>, offset: int, limit: int)

  /** One pass of the `getQuery` loop: the pieces so far followed by the next one
    * render the token list one token further. */
  lemma GetQueryStep(pre: seq<Token>, t: Token, done: seq<string>, piece: string)
    requires Text.Concat(done) == Render(pre)
    requires piece == Connector(LastOf(None, pre), t) + Fragment(t)
    ensures Text.Concat(done + [piece]) == Render(pre + [t])
  {
    Text.ConcatAppend(done, piece);
    RenderPiece(pre, t, piece);
  }

  /** `GetQueryStep` at position `index` of the whole token list `ts`. */
  lemma GetQueryPass(ts: seq<Token>, index: nat, done: seq<string>, piece: string)
    requires index < |ts|
    requires Text.Concat(done) == Render(ts[..index])
    requires piece == Connector(LastOf(None, ts[..index]), ts[index]) + Fragment(ts[index])
    ensures Text.Concat(done + [piece]) == Render(ts[..index + 1])
    ensures LastOf(None, ts[..index + 1]) == Some(ts[index])
  {
    TakeOneMore(ts, index);
    GetQueryStep(ts[..index], ts[index], done, piece);
  }

  lemma TakeOneMore<T>(s: seq<T>, i: nat)
    requires i < |s|
    ensures s[..i + 1] == s[..i] + [s[i]]
  {
  }

  lemma RenderPiece(pre: seq<Token>, t: Token, piece: string)
    requires piece == Connector(LastOf(None, pre), t) + Fragment(t)
    ensures Render(pre) + piece == Render(pre + [t])
  {
    RenderAppend(pre, t);
    AppendPiece(Render(pre), Connector(LastOf(None, pre), t), Fragment(t), piece);
  }

  /** Regrouping step for `RenderPiece`, stated over plain strings so that the
    * solver does not unfold `Render` while regrouping. */
  lemma AppendPiece(text: string, connector: string, fragment: string, piece: string)
    requires piece == connector + fragment
    ensures text + piece == text + connector + fragment
  {
  }

  class QueryBuilder<R> {
    const schema: string
    const realm: Realm<R>
    var queryList: seq<Token>
    var sortList: seq<SortKey>
    var vOffset: int
    var vLimit: int

    function State(): BuilderState
      reads this
    {
      BuilderState(queryList, sortList, vOffset, vLimit)
    }

    /** A new builder on `schema` has no tokens, no sort keys and no paging window (`-1`). */
    constructor (schema: string, realm: Realm<R>)
      ensures this.schema == schema && this.realm == realm
      ensures queryList == [] && sortList == [] && vOffset == -1 && vLimit == -1
    {
      this.schema := schema;
      this.realm := realm;
      queryList := [];
      sortList := [];
      vOffset := -1;
      vLimit := -1;
    }

    /** `where(property, operator, value, isOr)`: appends one comparison token. */
    method Where(property: PropertyArg, operator: Option<string>, value: WhereValue, isOr: bool)
      modifies this
      ensures queryList == old(queryList) + [WhereToken(property, operator, value, isOr)]
      ensures sortList == old(sortList) && vOffset == old(vOffset) && vLimit == old(vLimit)
    {
      if property.Structured? && property.filter.property != "" {
        queryList := queryList + [Compare(isOr, property.filter)];
      } else {
        queryList := queryList + [Compare(isOr, Filter(PropertyText(property), operator, value))];
      }
    }

    method OrWhere(property: PropertyArg, operator: Option<string>, value: WhereValue)
      modifies this
      ensures queryList == old(queryList) + [WhereToken(property, operator, value, true)]
      ensures sortList == old(sortList) && vOffset == old(vOffset) && vLimit == old(vLimit)
    {
      Where(property, operator, value, true);
    }

    /** `whereRaw(query, isOr)`: appends the fragment as it is. */
    method WhereRaw(query: string, isOr: bool)
      modifies this
      ensures queryList == old(queryList) + [Raw(isOr, query)]
      ensures sortList == old(sortList) && vOffset == old(vOffset) && vLimit == old(vLimit)
    {
      queryList := queryList + [Raw(isOr, query)];
    }

    method OrWhereRaw(query: string)
      modifies this
      ensures queryList == old(queryList) + [Raw(true, query)]
      ensures sortList == old(sortList) && vOffset == old(vOffset) && vLimit == old(vLimit)
    {
      WhereRaw(query, true);
    }

    /** `whereBetween(property, a, b, isOr)`: appends a range token; a structured
      * first argument is stored as the property itself. */
    method WhereBetween(property: PropertyArg, a: Scalar, b: Scalar, isOr: bool)
      modifies this
      ensures queryList == old(queryList) + [Between(isOr, PropertyText(property), a, b)]
      ensures sortList == old(sortList) && vOffset == old(vOffset) && vLimit == old(vLimit)
    {
      queryList := queryList + [Between(isOr, PropertyText(property), a, b)];
    }

    method OrWhereBetween(property: PropertyArg, a: Scalar, b: Scalar)
      modifies this
      ensures queryList == old(queryList) + [Between(true, PropertyText(property), a, b)]
      ensures sortList == old(sortList) && vOffset == old(vOffset) && vLimit == old(vLimit)
    {
      WhereBetween(property, a, b, true);
    }

    /** `whereStart`: a prefix match, `BEGINSWITH` or, case-insensitively, `BEGINSWITH[c]`. */
    method WhereStart(property: string, value: string, insensitivity: bool, isOr: bool)
      modifies this
      ensures queryList == old(queryList)
        + [Compare(isOr, Filter(property, Some(if insensitivity then "BEGINSWITH[c]" else "BEGINSWITH"), One(Str(value))))]
      ensures sortList == old(sortList) && vOffset == old(vOffset) && vLimit == old(vLimit)
    {
      var operator := if insensitivity then "BEGINSWITH[c]" else "BEGINSWITH";
      queryList := queryList + [Compare(isOr, Filter(property, Some(operator), One(Str(value))))];
    }

    method OrWhereStart(property: string, value: string, insensitivity: bool)
      modifies this
      ensures queryList == old(queryList)
        + [Compare(true, Filter(property, Some(if insensitivity then "BEGINSWITH[c]" else "BEGINSWITH"), One(Str(value))))]
      ensures sortList == old(sortList) && vOffset == old(vOffset) && vLimit == old(vLimit)
    {
      WhereStart(property, value, insensitivity, true);
    }

    /** `whereEnd`: a suffix match, `ENDSWITH` or, case-insensitively, `ENDSWITH[c]`. */
    method WhereEnd(property: string, value: string, insensitivity: bool, isOr: bool)
      modifies this
      ensures queryList == old(queryList)
        + [Compare(isOr, Filter(property, Some(if insensitivity then "ENDSWITH[c]" else "ENDSWITH"), One(Str(value))))]
      ensures sortList == old(sortList) && vOffset == old(vOffset) && vLimit == old(vLimit)
    {
      var operator := if insensitivity then "ENDSWITH[c]" else "ENDSWITH";
      queryList := queryList + [Compare(isOr, Filter(property, Some(operator), One(Str(value))))];
    }

    method OrWhereEnd(property: string, value: string, insensitivity: bool)
      modifies this
      ensures queryList == old(queryList)
        + [Compare(true, Filter(property, Some(if insensitivity then "ENDSWITH[c]" else "ENDSWITH"), One(Str(value))))]
      ensures sortList == old(sortList) && vOffset == old(vOffset) && vLimit == old(vLimit)
    {
      WhereEnd(property, value, insensitivity, true);
    }

    /** `when(value, callback)`: a missing value leaves the builder exactly as it
      * was and the callback is not called; a present value calls it once, on
      * the builder and the value. */
    method When<V>(value: Option<V>, callback: (BuilderState, V) -> BuilderState) returns (invoked: bool)
      modifies this
      ensures invoked <==> value.Some?
      ensures value.None? ==> State() == old(State())
      ensures value.Some? ==> State() == callback(old(State()), value.value)
    {
      invoked := false;
      if value.Some? {
        var next := callback(State(), value.value);
        queryList, sortList, vOffset, vLimit := next.queryList, next.sortList, next.offset, next.limit;
        invoked := true;
      }
    }

    method GroupEnd()
      modifies this
      ensures queryList == old(queryList) + [Token.GroupEnd]
      ensures sortList == old(sortList) && vOffset == old(vOffset) && vLimit == old(vLimit)
    {
      queryList := queryList + [Token.GroupEnd];
    }

    method GroupStart()
      modifies this
      ensures queryList == old(queryList) + [Token.GroupStart]
      ensures sortList == old(sortList) && vOffset == old(vOffset) && vLimit == old(vLimit)
    {
      queryList := queryList + [Token.GroupStart];
    }

    method And()
      modifies this
      ensures queryList == old(queryList) + [Token.And]
      ensures sortList == old(sortList) && vOffset == old(vOffset) && vLimit == old(vLimit)
    {
      queryList := queryList + [Token.And];
    }

    method Or()
      modifies this
      ensures queryList == old(queryList) + [Token.Or]
      ensures sortList == old(sortList) && vOffset == old(vOffset) && vLimit == old(vLimit)
    {
      queryList := queryList + [Token.Or];
    }

    /** `sort(property, sort = 'ASC')`: appends one sort key after the earlier ones. */
    method Sort(property: string, direction: Option<Direction>)
      modifies this
      ensures sortList == old(sortList) + [SortKey(property, direction.GetOr(Asc))]
      ensures queryList == old(queryList) && vOffset == old(vOffset) && vLimit == old(vLimit)
    {
      sortList := sortList + [SortKey(property, direction.GetOr(Asc))];
    }

    /** `offset(pOffset)`: a missing offset resets it to `-1`. */
    method Offset(pOffset: Option<int>)
      modifies this
      ensures vOffset == pOffset.GetOr(-1)
      ensures queryList == old(queryList) && sortList == old(sortList) && vLimit == old(vLimit)
    {
      vOffset := pOffset.GetOr(-1);
    }

    /** `limit(count, pOffset)`: a missing count resets the limit to `-1`; the
      * offset is set only when `pOffset` is truthy, so `0` keeps the earlier one. */
    method Limit(count: Option<int>, pOffset: Option<int>)
      modifies this
      ensures vLimit == count.GetOr(-1)
      ensures vOffset == if pOffset.Some? && pOffset.value != 0 then pOffset.value else old(vOffset)
      ensures queryList == old(queryList) && sortList == old(sortList)
    {
      if pOffset.Some? && pOffset.value != 0 {
        Offset(pOffset);
      }
      vLimit := count.GetOr(-1);
    }

    /** The body of one `getQuery` pass: the token's fragment, with ` AND ` / ` OR `
      * in front of a `where` or `whereRaw` token that follows anything but `groupStart`. */
    static method Piece(lastQuery: Option<Token>, current: Token) returns (piece: string)
      ensures piece == Connector(lastQuery, current) + Fragment(current)
    {
      piece := Fragment(current);
      if lastQuery.Some? && !lastQuery.value.GroupStart? {
        match current {
          case Compare(isOr, _) =>
            piece := (if isOr then " OR " else " AND ") + piece;
          case Raw(isOr, _) =>
            piece := (if isOr then " OR " else " AND ") + piece;
          case _ =>
        }
      }
    }

    /** `getQuery()`: the filter string of the current tokens. */
    method GetQuery() returns (query: string)
      ensures query == Render(queryList)
    {
      var ts := queryList;
      var done: seq<string> := [];
      if |ts| > 0 {
        var index := 0;
        var lastQuery: Option<Token> := None;
        // The source's do-while runs its body at least once; here the list is not empty.
        while index < |ts|
          invariant 0 <= index <= |ts|
          invariant lastQuery == LastOf(None, ts[..index])
          invariant Text.Concat(done) == Render(ts[..index])
        {
          var current := ts[index];
          var piece := Piece(lastQuery, current);
          GetQueryPass(ts, index, done, piece);
          done := done + [piece];
          lastQuery := Some(current);
          index := index + 1;
        }
      }
      assert ts[..|ts|] == ts;
      query := Text.Concat(done);
    }

    /** `get()`: the rows of `schema` that match the rendered filter, in sort order,
      * cut to the paging window. */
    method Get() returns (rows: seq<R>)
      ensures rows == Results(realm, schema, queryList, sortList, vOffset, vLimit)
    {
      var query := GetQuery();
      var results := realm.objects(schema);
      if |query| > 0 {
        results := realm.filtered(results, query);
      }
      if |sortList| > 0 {
        results := realm.sorted(results, SortPairs(sortList));
      }
      assert Results(realm, schema, queryList, sortList, vOffset, vLimit) == Page(results, vOffset, vLimit);
      if vLimit >= 0 || vOffset >= 0 {
        var start := if vOffset > 0 then vOffset else 0;
        var end := if vLimit > 0 then Some(start + vLimit) else None;
        rows := Slice(results, start, end);
      } else {
        rows := results;
      }
      assert rows == Page(results, vOffset, vLimit);
    }

    /** `find(id, property = 'id')`: the first row whose `property` equals `id`,
      * looked up through a temporary token that is popped again, so the builder
      * is left as it was. */
    method Find(id: Scalar, property: Option<string>) returns (row: Option<R>)
      modifies this
      ensures State() == old(State())
      ensures row == Head(Results(realm, schema, queryList + [EqToken(property.GetOr("id"), id)], sortList, vOffset, vLimit))
    {
      Where(Key(property.GetOr("id")), Some("="), One(id), false);
      var rows := Get();
      row := Head(rows);
      queryList := queryList[..|queryList| - 1];
    }

    /** `findOr(id, value, property)`: the row, or `value` when there is none. */
    method FindOr(id: Scalar, value: R, property: Option<string>) returns (r: R)
      modifies this
      ensures State() == old(State())
      ensures r == OrElse(Head(Results(realm, schema, queryList + [EqToken(property.GetOr("id"), id)], sortList, vOffset, vLimit)), value)
    {
      var found := Find(id, property);
      r := OrElse(found, value);
    }

    /** `findOrFail(id, property)`: the row, or the error `object not found`. */
    method FindOrFail(id: Scalar, property: Option<string>) returns (r: Outcome<R>)
      modifies this
      ensures State() == old(State())
      ensures r == OrFail(Head(Results(realm, schema, queryList + [EqToken(property.GetOr("id"), id)], sortList, vOffset, vLimit)))
    {
      var found := Find(id, property);
      if found.None? {
        r := Err("object not found");
      } else {
        r := Ok(found.value);
      }
    }

    /** `first()`: `get()[0]`, or nothing when no row is left. */
    method First() returns (row: Option<R>)
      ensures row == Head(Results(realm, schema, queryList, sortList, vOffset, vLimit))
    {
      var rows := Get();
      row := Head(rows);
    }

    /** `firstOr(value)`: the first row, or `value` when there is none. */
    method FirstOr(value: R) returns (r: R)
      ensures r == OrElse(Head(Results(realm, schema, queryList, sortList, vOffset, vLimit)), value)
    {
      var found := First();
      r := OrElse(found, value);
    }

    /** `firstOrFail()`: the first row, or the error `object not found`. */
    method FirstOrFail() returns (r: Outcome<R>)
      ensures r == OrFail(Head(Results(realm, schema, queryList, sortList, vOffset, vLimit)))
    {
      var found := First();
      if found.None? {
        r := Err("object not found");
      } else {
        r := Ok(found.value);
      }
    }
  }
}
