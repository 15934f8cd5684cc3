/**
 * The four stateless REST filters of `SocialHub_Public`: `rest_post_query` and
 * `rest_comment_query` point the first date-query clause at the column the
 * request names, and `rest_post_collection_params` and
 * `rest_comment_collection_params` declare that `date_query_column` parameter
 * with the columns it may take.
 */
module QueryFilters {
  import opened Wrappers
  import opened PhpValues

  const DateQuery: Key := StrKey("date_query")
  const FirstClause: Key := IntKey(0)
  const Column: Key := StrKey("column")
  const DateQueryColumn: Key := StrKey("date_query_column")

  const PostDateColumns: seq<string> := ["post_date", "post_date_gmt", "post_modified", "post_modified_gmt"]
  const CommentDateColumns: seq<string> := ["comment_date", "comment_date_gmt"]

  /** The array PHP writes into when assigning through `$slot[...]`: a missing
      slot, null and false become a new empty array; any other scalar, a string
      or an object makes PHP throw an Error (None). */
  function WritableArray(slot: Option<Value>): (r: Option<PhpArray>)
    ensures r.None? <==> slot.Some? && (slot.value == Bool(true) || slot.value.Int? || slot.value.Str? || slot.value.Obj?)
    // An existing array is written into as it is; anything else writable starts empty.
    ensures r.Some? ==> r.value == (if slot.Some? && slot.value.Arr? then slot.value.entries else map[])
  {
    match slot
    case None => Some(map[])
    case Some(Null) => Some(map[])
    case Some(Bool(b)) => if b then None else Some(map[])
    case Some(Arr(entries)) => Some(entries)
    case Some(_) => None
  }

  /** Reading `$args['date_query'][0]['column']`, None where the path does not lead to a value. */
  function DateQueryColumnOf(args: PhpArray): Option<Value>
  {
    if DateQuery in args && args[DateQuery].Arr? then
      var clauses := args[DateQuery].entries;
      if FirstClause in clauses && clauses[FirstClause].Arr? then
        Lookup(clauses[FirstClause].entries, Column)
      else None
    else None
  }

  /** `$args['date_query'][0]['column'] = $column;` — None when PHP throws. */
  function AssignDateQueryColumn(args: PhpArray, column: Value): (r: Option<PhpArray>)
    ensures r.None? <==>
      || WritableArray(Lookup(args, DateQuery)).None?
      || WritableArray(Lookup(WritableArray(Lookup(args, DateQuery)).value, FirstClause)).None?
    // Read after write gives the value written.
    ensures r.Some? ==> DateQueryColumnOf(r.value) == Some(column)
    // Only the one path changes: every other argument, every other clause and
    // every other field of the first clause (its before/after bound) stays.
    ensures r.Some? ==> SameExcept(args, r.value, DateQuery)
    ensures r.Some? ==>
      var clauses := WritableArray(Lookup(args, DateQuery)).value;
      var first := WritableArray(Lookup(clauses, FirstClause)).value;
      && r.value[DateQuery].Arr?
      && SameExcept(clauses, r.value[DateQuery].entries, FirstClause)
      && r.value[DateQuery].entries[FirstClause].Arr?
      && SameExcept(first, r.value[DateQuery].entries[FirstClause].entries, Column)
  {
    match WritableArray(Lookup(args, DateQuery))
    case None => None
    case Some(clauses) =>
      match WritableArray(Lookup(clauses, FirstClause))
      case None => None
      case Some(first) => Some(args[DateQuery := Arr(clauses[FirstClause := Arr(first[Column := column])])])
  }

  /** The request asks for a date range: `before` or `after` is set. */
  predicate HasDateBound(request: map<string, Value>)
  {
    ParamIsSet(request, "before") || ParamIsSet(request, "after")
  }

  /** `isset($request[$name])` on a WP_REST_Request, whose parameters are given as a map. */
  predicate ParamIsSet(request: map<string, Value>, name: string)
  {
    name in request && request[name] != Null
  }

  /** The body the two query filters share. */
  function ApplyDateQueryColumn(args: PhpArray, request: map<string, Value>): Option<PhpArray>
  {
    if !ParamIsSet(request, "before") && !ParamIsSet(request, "after") then Some(args)
    else if ParamIsSet(request, "date_query_column") then
      AssignDateQueryColumn(args, request["date_query_column"])
    else Some(args)
  }

  /** `rest_post_query($args, $request)`. */
  function RestPostQuery(args: PhpArray, request: map<string, Value>): (r: Option<PhpArray>)
    ensures !HasDateBound(request) || !ParamIsSet(request, "date_query_column") ==> r == Some(args)
    ensures HasDateBound(request) && ParamIsSet(request, "date_query_column") ==>
      r == AssignDateQueryColumn(args, request["date_query_column"])
    ensures HasDateBound(request) && ParamIsSet(request, "date_query_column") && r.Some? ==>
      DateQueryColumnOf(r.value) == Some(request["date_query_column"]) && SameExcept(args, r.value, DateQuery)
    ensures r.None? ==> HasDateBound(request) && ParamIsSet(request, "date_query_column")
  {
    ApplyDateQueryColumn(args, request)
  }

  /** `rest_comment_query($args, $request)`: the same code as for posts. */
  function RestCommentQuery(args: PhpArray, request: map<string, Value>): (r: Option<PhpArray>)
    ensures !HasDateBound(request) || !ParamIsSet(request, "date_query_column") ==> r == Some(args)
    ensures HasDateBound(request) && ParamIsSet(request, "date_query_column") ==>
      r == AssignDateQueryColumn(args, request["date_query_column"])
    ensures HasDateBound(request) && ParamIsSet(request, "date_query_column") && r.Some? ==>
      DateQueryColumnOf(r.value) == Some(request["date_query_column"]) && SameExcept(args, r.value, DateQuery)
    ensures r.None? ==> HasDateBound(request) && ParamIsSet(request, "date_query_column")
  {
    ApplyDateQueryColumn(args, request)
  }

  /** Running a query filter on its own output changes nothing more. */
  lemma {:induction false} DateQueryFilterIdempotent(args: PhpArray, request: map<string, Value>)
    requires ApplyDateQueryColumn(args, request).Some?
    ensures ApplyDateQueryColumn(ApplyDateQueryColumn(args, request).value, request)
         == ApplyDateQueryColumn(args, request)
  {
    if HasDateBound(request) && ParamIsSet(request, "date_query_column") {
      var column := request["date_query_column"];
      var once := AssignDateQueryColumn(args, column).value;
      var clauses := once[DateQuery].entries;
      var first := clauses[FirstClause].entries;
      assert first[Column := column] == first;
      assert clauses[FirstClause := Arr(first[Column := column])] == clauses;
      assert once[DateQuery := Arr(clauses[FirstClause := Arr(first[Column := column])])] == once;
    }
  }

  // ---------------------------------------------------------------------
  // Collection parameters

  /** A PHP list: the strings at keys 0, 1, 2, ... */
  function StringList(items: seq<string>): Value
  {
    Arr(map i | 0 <= i < |items| :: IntKey(i) := Str(items[i]))
  }

  lemma StringListHolds(items: seq<string>, c: string)
    ensures Str(c) in StringList(items).entries.Values <==> c in items
  {
    var m := StringList(items).entries;
    if c in items {
      var i :| 0 <= i < |items| && items[i] == c;
      assert IntKey(i) in m && m[IntKey(i)] == Str(c);
    }
    if Str(c) in m.Values {
      var k :| k in m && m[k] == Str(c);
      assert items[k.i] == c;
    }
  }

  /** The schema entry registered for `date_query_column`. */
  function DateColumnSchema(description: string, columns: seq<string>): Value
  {
    Arr(map[StrKey("description") := Str(description), StrKey("type") := Str("string"),
            StrKey("enum") := StringList(columns)])
  }

  /** The declared `date_query_column` parameter is a string whose enum admits `c`. */
  predicate AdmitsColumn(params: PhpArray, c: string)
  {
    && DateQueryColumn in params && params[DateQueryColumn].Arr?
    && var schema := params[DateQueryColumn].entries;
    && Lookup(schema, StrKey("type")) == Some(Str("string"))
    && StrKey("enum") in schema && schema[StrKey("enum")].Arr?
    && Str(c) in schema[StrKey("enum")].entries.Values
  }

  /** `rest_post_collection_params($query_params)`; `description` is what
      `__( 'The date query column.' )` translates to. */
  function RestPostCollectionParams(params: PhpArray, description: string): (r: PhpArray)
    ensures SameExcept(params, r, DateQueryColumn)
    ensures forall c :: AdmitsColumn(r, c) <==> c in PostDateColumns
    ensures r[DateQueryColumn].Arr? && Lookup(r[DateQueryColumn].entries, StrKey("description")) == Some(Str(description))
  {
    var r := params[DateQueryColumn := DateColumnSchema(description, PostDateColumns)];
    forall c ensures AdmitsColumn(r, c) <==> c in PostDateColumns {
      StringListHolds(PostDateColumns, c);
    }
    r
  }

  /** `rest_comment_collection_params($query_params)`. */
  function RestCommentCollectionParams(params: PhpArray, description: string): (r: PhpArray)
    ensures SameExcept(params, r, DateQueryColumn)
    ensures forall c :: AdmitsColumn(r, c) <==> c in CommentDateColumns
    ensures r[DateQueryColumn].Arr? && Lookup(r[DateQueryColumn].entries, StrKey("description")) == Some(Str(description))
  {
    var r := params[DateQueryColumn := DateColumnSchema(description, CommentDateColumns)];
    forall c ensures AdmitsColumn(r, c) <==> c in CommentDateColumns {
      StringListHolds(CommentDateColumns, c);
    }
    r
  }

  /** Declaring the parameter twice is declaring it once. */
  lemma CollectionParamsIdempotent(params: PhpArray, description: string)
    ensures RestPostCollectionParams(RestPostCollectionParams(params, description), description)
         == RestPostCollectionParams(params, description)
    ensures RestCommentCollectionParams(RestCommentCollectionParams(params, description), description)
         == RestCommentCollectionParams(params, description)
  {
  }
}
