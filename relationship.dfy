/** `ModelRelationship`: the mixin a model class gets. Its instance methods look up
  * related rows through a fresh builder holding one equality token, choosing the
  * compared property and the owner's value from defaults and `schemaToId`; its
  * static methods start a fresh builder on the model's own table and apply one
  * operation. */
module Relationship {
  import opened Wrappers
  import opened Text
  import opened Query
  import opened Utils
  import opened Builder

  /** A model instance: the table of its class (`getTable()`) and its fields. */
  datatype Record = Record(table: string, fields: map<string, Scalar>)

  /** How a relationship ends: `first()` or `get()`. */
  datatype Terminal = FirstRow | AllRows

  /** What a relationship method asks for: a fresh builder on `schema` holding
    * `where(property, '=', value)`, finished by `terminal`. */
  datatype Lookup = Lookup(schema: string, property: string, value: Scalar, terminal: Terminal)

  /** What a finished lookup returns: one row or none, or all rows. */
  datatype Answer<R> = Row(row: Option<R>) | Rows(rows: seq<R>)

  /** `this[key]`: `undefined` for a field the instance does not have. */
  function Field(self: Record, key: string): Scalar
  {
    if key in self.fields then self.fields[key] else Nil
  }

  /** `this[key] ?? -1`: the owner's value, `-1` when it is `null` or `undefined`. */
  function OwnerValue(self: Record, key: string): (v: Scalar)
    ensures v != Nil
    ensures Field(self, key) != Nil ==> v == Field(self, key)
    ensures Field(self, key) == Nil ==> v == Num(-1)
  {
    if Field(self, key) == Nil then Num(-1) else Field(self, key)
  }

  /** `belongTo(schema, childProperty = 'id', ownerProperty?)`: the row of `schema`
    * whose child property equals this instance's `ownerProperty ?? schemaToId(schema)`. */
  function BelongTo(self: Record, schema: string, childProperty: Option<string>, ownerProperty: Option<string>): (l: Lookup)
    ensures l.schema == schema && l.terminal == FirstRow
    ensures l.property == childProperty.GetOr("id")
    ensures var owner := Field(self, ownerProperty.GetOr(SchemaToId(schema)));
            l.value == if owner == Nil then Num(-1) else owner
  {
    Lookup(schema, childProperty.GetOr("id"), OwnerValue(self, ownerProperty.GetOr(SchemaToId(schema))), FirstRow)
  }

  /** `belongToMany(schema, ownerProperty = 'id', childProperty?)`: the owner key
    * defaults to `id`, so its `schemaToId` fallback is never taken when the owner
    * key is omitted. The child key
    * has no default: without one, `where(undefined, ...)` reads `.property` of
    * `undefined` and throws a `TypeError`. */
  function BelongToMany(self: Record, schema: string, ownerProperty: Option<string>, childProperty: Option<string>): (r: Outcome<Lookup>)
    ensures r.Err? <==> childProperty.None?
    ensures r.Ok? ==> r.value.schema == schema && r.value.terminal == AllRows && r.value.property == childProperty.value
    ensures var owner := Field(self, ownerProperty.GetOr("id"));
            r.Ok? ==> r.value.value == if owner == Nil then Num(-1) else owner
  {
    var owner := ownerProperty.GetOr("id");
    if childProperty.None? then Err("TypeError: Cannot read properties of undefined (reading 'property')")
    else Ok(Lookup(schema, childProperty.value, OwnerValue(self, owner), AllRows))
  }

  /** `hasMany(schema, ownerProperty = 'id', childProperty?)`: the rows of `schema`
    * whose `childProperty ?? schemaToId(getTable())` equals this instance's owner value. */
  function HasMany(self: Record, schema: string, ownerProperty: Option<string>, childProperty: Option<string>): (l: Lookup)
    ensures l.schema == schema && l.terminal == AllRows
    ensures l.property == childProperty.GetOr(SchemaToId(self.table))
    ensures var owner := Field(self, ownerProperty.GetOr("id"));
            l.value == if owner == Nil then Num(-1) else owner
  {
    Lookup(schema, childProperty.GetOr(SchemaToId(self.table)), OwnerValue(self, ownerProperty.GetOr("id")), AllRows)
  }

  /** `hasOne`: the same lookup as `hasMany`, finished by `first()`. */
  function HasOne(self: Record, schema: string, ownerProperty: Option<string>, childProperty: Option<string>): (l: Lookup)
    ensures l.schema == schema && l.terminal == FirstRow
    ensures l.property == childProperty.GetOr(SchemaToId(self.table))
    ensures var owner := Field(self, ownerProperty.GetOr("id"));
            l.value == if owner == Nil then Num(-1) else owner
  {
    Lookup(schema, childProperty.GetOr(SchemaToId(self.table)), OwnerValue(self, ownerProperty.GetOr("id")), FirstRow)
  }

  // ----- what a lookup asks of the database -----

  /** A builder holding only `where(property, '=', value)` renders `property = value`. */
  lemma EqTokenRenders(property: string, value: Scalar)
    ensures Render([EqToken(property, value)]) == property + " = " + SafeValue(value)
  {
    var t := EqToken(property, value);
    var v := SafeValue(value);
    assert Render([t]) == Clause(t.filter, value) by {
      RenderOne(None, t);
      assert Connector(None, t) == "";
    }
    assert SafeOperator(Some("=")) == "=";
    AppendAssoc(property, " ", "=");
    AppendAssoc(property, " " + "=", " ");
    assert " " + "=" + " " == " = ";
  }

  /** With one equality token, no sort keys and no paging window, `get()` returns
    * what the database filters for `property = value`, untouched. */
  lemma EqTokenResults<R>(realm: Realm<R>, schema: string, property: string, value: Scalar)
    ensures Results(realm, schema, [EqToken(property, value)], [], -1, -1)
         == realm.filtered(realm.objects(schema), property + " = " + SafeValue(value))
  {
    EqTokenRenders(property, value);
  }

  /** With no tokens, no sort keys and no paging window, `get()` returns every
    * row of the collection, untouched. */
  lemma EmptyResults<R>(realm: Realm<R>, schema: string)
    ensures Results(realm, schema, [], [], -1, -1) == realm.objects(schema)
  {
    assert Render([]) == "";
  }

  /** The answer of a lookup: the database's rows of `schema` for `property = value`,
    * or the first of them. */
  function Evaluate<R>(realm: Realm<R>, l: Lookup): (a: Answer<R>)
    ensures var rows := realm.filtered(realm.objects(l.schema), l.property + " = " + SafeValue(l.value));
            a == if l.terminal == FirstRow then Row(Head(rows)) else Rows(rows)
  {
    EqTokenResults(realm, l.schema, l.property, l.value);
    var rows := Results(realm, l.schema, [EqToken(l.property, l.value)], [], -1, -1);
    if l.terminal == FirstRow then Row(Head(rows)) else Rows(rows)
  }

  /** Runs a lookup as the mixin does: a new builder on `schema`, one `where`, then
    * `first()` or `get()`. */
  method Resolve<R>(realm: Realm<R>, l: Lookup) returns (a: Answer<R>)
    ensures a == Evaluate(realm, l)
  {
    var builder := new QueryBuilder(l.schema, realm);
    builder.Where(Key(l.property), Some("="), One(l.value), false);
    assert builder.queryList == [EqToken(l.property, l.value)];
    if l.terminal == FirstRow {
      var row := builder.First();
      a := Row(row);
    } else {
      var rows := builder.Get();
      a := Rows(rows);
    }
  }

  // ----- properties of the four relationships -----

  /** An owner field that is missing or `null` is compared as `-1`. */
  lemma MissingOwnerIsMinusOne(self: Record, schema: string, childProperty: Option<string>, ownerProperty: Option<string>)
    requires Field(self, ownerProperty.GetOr(SchemaToId(schema))) == Nil
    ensures Render([EqToken(BelongTo(self, schema, childProperty, ownerProperty).property,
                            BelongTo(self, schema, childProperty, ownerProperty).value)])
         == childProperty.GetOr("id") + " = -1"
  {
    var l := BelongTo(self, schema, childProperty, ownerProperty);
    EqTokenRenders(l.property, l.value);
    assert IntToString(-1) == "-1" by {
      assert NatToString(1) == [DigitChar(1)];
    }
  }

  /** `hasOne` asks the same question as `hasMany` and answers with its first row. */
  lemma HasOneIsFirstOfHasMany<R>(realm: Realm<R>, self: Record, schema: string,
                                  ownerProperty: Option<string>, childProperty: Option<string>)
    ensures Evaluate(realm, HasMany(self, schema, ownerProperty, childProperty)).Rows?
    ensures Evaluate(realm, HasOne(self, schema, ownerProperty, childProperty))
         == Row(Head(Evaluate(realm, HasMany(self, schema, ownerProperty, childProperty)).rows))
  {
  }

  /** `belongToMany` answers exactly when it is given a child key, and then it
    * compares that key with the owner's `ownerProperty ?? 'id'`. */
  lemma BelongToManyNeedsChildKey(self: Record, schema: string, ownerProperty: Option<string>, childProperty: Option<string>)
    ensures BelongToMany(self, schema, ownerProperty, childProperty).Ok? <==> childProperty.Some?
    ensures childProperty.Some? ==>
      BelongToMany(self, schema, ownerProperty, childProperty).value
        == Lookup(schema, childProperty.value, OwnerValue(self, ownerProperty.GetOr("id")), AllRows)
  {
  }

  /** Given a child key, `belongToMany` asks exactly what `hasMany` asks with the
    * same keys; with the child key `schemaToId(getTable())` it is `hasMany` with
    * its defaults. */
  lemma BelongToManyIsHasMany(self: Record, schema: string, ownerProperty: Option<string>, childProperty: string)
    ensures BelongToMany(self, schema, ownerProperty, Some(childProperty))
         == Ok(HasMany(self, schema, ownerProperty, Some(childProperty)))
    ensures BelongToMany(self, schema, None, Some(SchemaToId(self.table))) == Ok(HasMany(self, schema, None, None))
  {
  }

  /** `belongTo` and `hasMany` with their default keys are two views of one link:
    * when a child's `schemaToId(parent table)` field holds the parent's `id`, the
    * child asks the parent table for `id = v` and the parent asks the child table
    * for `schemaToId(parent table) = v`, with the same `v`. */
  lemma BelongToMirrorsHasMany(child: Record, parent: Record)
    requires Field(child, SchemaToId(parent.table)) == Field(parent, "id") != Nil
    ensures var up := BelongTo(child, parent.table, None, None);
            var down := HasMany(parent, child.table, None, None);
            up.schema == parent.table && down.schema == child.table &&
            up.value == down.value == Field(parent, "id") &&
            Render([EqToken(up.property, up.value)]) == "id = " + SafeValue(Field(parent, "id")) &&
            Render([EqToken(down.property, down.value)]) == SchemaToId(parent.table) + " = " + SafeValue(Field(parent, "id"))
  {
    var up := BelongTo(child, parent.table, None, None);
    var down := HasMany(parent, child.table, None, None);
    EqTokenRenders(up.property, up.value);
    EqTokenRenders(down.property, down.value);
  }

  /** A brand whose `category_id` is 2 belongs to the category with `id = 2`. */
  lemma BrandBelongsToCategory(brand: Record)
    requires brand.fields == map["category_id" := Num(2)]
    ensures BelongTo(brand, "categories", None, None) == Lookup("categories", "id", Num(2), FirstRow)
  {
    CategoriesNames();
    assert Field(brand, "category_id") == Num(2);
  }

  /** Category 2 has the brands whose `category_id` is 2. */
  lemma CategoryHasBrands(category: Record)
    requires category.table == "categories" && category.fields == map["id" := Num(2)]
    ensures HasMany(category, "brands", None, None) == Lookup("brands", "category_id", Num(2), AllRows)
  {
    CategoriesNames();
    assert Field(category, "id") == Num(2);
  }

  // ----- static passthroughs: a fresh builder on the model's table -----

  /** `Model.first()`: the first row of the table. */
  method First<R>(table: string, realm: Realm<R>) returns (row: Option<R>)
    ensures row == Head(realm.objects(table))
  {
    var builder := new QueryBuilder(table, realm);
    EmptyResults(realm, table);
    row := builder.First();
  }

  /** `Model.firstOr(value)`: the first row of the table, or `value`. */
  method FirstOr<R>(table: string, realm: Realm<R>, value: R) returns (r: R)
    ensures r == OrElse(Head(realm.objects(table)), value)
  {
    var builder := new QueryBuilder(table, realm);
    EmptyResults(realm, table);
    r := builder.FirstOr(value);
  }

  /** `Model.firstOrFail()` calls `first()`, not `firstOrFail()`: on an empty table
    * it returns nothing rather than failing. */
  method FirstOrFail<R>(table: string, realm: Realm<R>) returns (row: Option<R>)
    ensures row == Head(realm.objects(table))
    ensures realm.objects(table) == [] ==> row.None?
  {
    var builder := new QueryBuilder(table, realm);
    EmptyResults(realm, table);
    row := builder.First();
  }

  /** `Model.find(id, property)`: the first row whose `property ?? 'id'` equals `id`. */
  method Find<R>(table: string, realm: Realm<R>, id: Scalar, property: Option<string>) returns (row: Option<R>)
    ensures row == Head(realm.filtered(realm.objects(table), property.GetOr("id") + " = " + SafeValue(id)))
  {
    var builder := new QueryBuilder(table, realm);
    EqTokenResults(realm, table, property.GetOr("id"), id);
    row := builder.Find(id, property);
    assert builder.State() == BuilderState([], [], -1, -1);
    assert builder.queryList + [EqToken(property.GetOr("id"), id)] == [EqToken(property.GetOr("id"), id)];
  }

  /** `Model.findOr(id, value, property)`: that row, or `value`. */
  method FindOr<R>(table: string, realm: Realm<R>, id: Scalar, value: R, property: Option<string>) returns (r: R)
    ensures r == OrElse(Head(realm.filtered(realm.objects(table), property.GetOr("id") + " = " + SafeValue(id))), value)
  {
    var builder := new QueryBuilder(table, realm);
    EqTokenResults(realm, table, property.GetOr("id"), id);
    r := builder.FindOr(id, value, property);
    assert builder.State() == BuilderState([], [], -1, -1);
    assert builder.queryList + [EqToken(property.GetOr("id"), id)] == [EqToken(property.GetOr("id"), id)];
  }

  /** `Model.findOrFail(id, property)`: that row, or the error `object not found`. */
  method FindOrFail<R>(table: string, realm: Realm<R>, id: Scalar, property: Option<string>) returns (r: Outcome<R>)
    ensures r == OrFail(Head(realm.filtered(realm.objects(table), property.GetOr("id") + " = " + SafeValue(id))))
  {
    var builder := new QueryBuilder(table, realm);
    EqTokenResults(realm, table, property.GetOr("id"), id);
    r := builder.FindOrFail(id, property);
    assert builder.State() == BuilderState([], [], -1, -1);
    assert builder.queryList + [EqToken(property.GetOr("id"), id)] == [EqToken(property.GetOr("id"), id)];
  }

  /** `Model.where(property, operator, value)`: a new builder holding that one token. */
  method Where<R>(table: string, realm: Realm<R>, property: PropertyArg, operator: Option<string>, value: WhereValue)
    returns (builder: QueryBuilder<R>)
    ensures fresh(builder) && builder.schema == table && builder.realm == realm
    ensures builder.queryList == [WhereToken(property, operator, value, false)]
    ensures builder.sortList == [] && builder.vOffset == -1 && builder.vLimit == -1
  {
    builder := new QueryBuilder(table, realm);
    builder.Where(property, operator, value, false);
  }

  /** `Model.whereBetween(property, a, b)`: a new builder holding that one range token. */
  method WhereBetween<R>(table: string, realm: Realm<R>, property: PropertyArg, a: Scalar, b: Scalar)
    returns (builder: QueryBuilder<R>)
    ensures fresh(builder) && builder.schema == table && builder.realm == realm
    ensures builder.queryList == [Between(false, PropertyText(property), a, b)]
    ensures builder.sortList == [] && builder.vOffset == -1 && builder.vLimit == -1
  {
    builder := new QueryBuilder(table, realm);
    builder.WhereBetween(property, a, b, false);
  }

  /** `Model.whereEnd(property, value, insensitivity = false)`. */
  method WhereEnd<R>(table: string, realm: Realm<R>, property: string, value: string, insensitivity: bool)
    returns (builder: QueryBuilder<R>)
    ensures fresh(builder) && builder.schema == table && builder.realm == realm
    ensures builder.queryList
         == [Compare(false, Filter(property, Some(if insensitivity then "ENDSWITH[c]" else "ENDSWITH"), One(Str(value))))]
    ensures builder.sortList == [] && builder.vOffset == -1 && builder.vLimit == -1
  {
    builder := new QueryBuilder(table, realm);
    builder.WhereEnd(property, value, insensitivity, false);
  }

  /** `Model.whereStart(property, value, insensitivity = false)`. */
  method WhereStart<R>(table: string, realm: Realm<R>, property: string, value: string, insensitivity: bool)
    returns (builder: QueryBuilder<R>)
    ensures fresh(builder) && builder.schema == table && builder.realm == realm
    ensures builder.queryList
         == [Compare(false, Filter(property, Some(if insensitivity then "BEGINSWITH[c]" else "BEGINSWITH"), One(Str(value))))]
    ensures builder.sortList == [] && builder.vOffset == -1 && builder.vLimit == -1
  {
    builder := new QueryBuilder(table, realm);
    builder.WhereStart(property, value, insensitivity, false);
  }

  /** `Model.when(value, callback)`: a new builder, changed by the callback only
    * when a value is given. */
  method When<R, V>(table: string, realm: Realm<R>, value: Option<V>, callback: (BuilderState, V) -> BuilderState)
    returns (builder: QueryBuilder<R>, invoked: bool)
    ensures fresh(builder) && builder.schema == table && builder.realm == realm
    ensures invoked <==> value.Some?
    ensures var empty := BuilderState([], [], -1, -1);
            builder.State() == if value.Some? then callback(empty, value.value) else empty
  {
    builder := new QueryBuilder(table, realm);
    invoked := builder.When(value, callback);
  }

  /** `Model.get()`: every row of the table, in the database's order. */
  method Get<R>(table: string, realm: Realm<R>) returns (rows: seq<R>)
    ensures rows == realm.objects(table)
  {
    var builder := new QueryBuilder(table, realm);
    EmptyResults(realm, table);
    rows := builder.Get();
  }
}
