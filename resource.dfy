/** `add_resource`: the whole route table of one resource. */
module Resource {
  import opened Wrappers
  import opened Text
  import opened Paths
  import opened Catalog
  import opened Verbs
  import opened Routes

  /** The keyword options of `add_resource`; an absent prefix is `None`. */
  datatype ResourceOptions = ResourceOptions(
    collection: ActionVerbs,
    member: ActionVerbs,
    newActions: ActionVerbs,
    pathPrefix: Option<string>,
    namePrefix: Option<string>,
    parentResource: Option<Parent>)

  /** `add_resource(handler, member_name, collection_name)` with no options. */
  const NoOptions := ResourceOptions([], [], [], None, None, None)

  /** The prefixes and the three base paths. */
  function LayoutOf(memberName: string, collectionName: string, opts: ResourceOptions): Layout {
    var cp := CollectionPath(PathPrefix(opts.parentResource, opts.pathPrefix), collectionName);
    Layout(NamePrefix(opts.parentResource, opts.namePrefix), memberName, collectionName,
           cp, NewPath(cp), MemberPath(cp))
  }

  /** The records in emission order: the collection verbs, `index`, the new
      verbs, the member verbs, and `show` under the member verb visited last. */
  function Emitted(cat: ActionCatalog, l: Layout, collectionTable: VerbTable, newTable: VerbTable,
                   memberTable: VerbTable): seq<RouteRecord>
    requires memberTable != []
  {
    ScopeRoutes(cat, l, CollectionScope, collectionTable)
      + ViewRoutes(cat, "index", l.namePrefix + l.collectionName, l.collectionPath, "GET")
      + NewRoutes(cat, l, newTable)
      + ScopeRoutes(cat, l, MemberScope, memberTable)
      + ViewRoutes(cat, "show", l.namePrefix + l.memberName, l.memberPath, LastKey(memberTable))
  }

  /** The table of one resource, from its names, its options and the tables
      built from them. */
  function RouteTable(cat: ActionCatalog, memberName: string, collectionName: string, opts: ResourceOptions): seq<RouteRecord> {
    Emitted(cat, LayoutOf(memberName, collectionName, opts), CollectionTable(opts.collection),
            NewTable(opts.newActions), MemberTable(opts.member))
  }

  /** The outcome of `add_resource`: the configuration error of the catalog,
      or every record of the resource. */
  function ResourceRoutes(handler: seq<ExposedMethod>, memberName: string, collectionName: string,
                          opts: ResourceOptions): Result<seq<RouteRecord>, ConfigError>
  {
    match CatalogOf(Declarations(handler))
    case Err(e) => Err(e)
    case Ok(cat) => Ok(RouteTable(cat, memberName, collectionName, opts))
  }

  /** `add_resource`, step by step. */
  method AddResource(handler: seq<ExposedMethod>, memberName: string, collectionName: string, opts: ResourceOptions)
    returns (r: Result<seq<RouteRecord>, ConfigError>)
    ensures r == ResourceRoutes(handler, memberName, collectionName, opts)
  {
    var built := BuildCatalog(handler);
    if built.Err? {
      return Err(built.error);
    }
    var actionKwargs := built.value;

    var collection, member, newActions := opts.collection, opts.member, opts.newActions;
    var pathPrefix, namePrefix := DefaultPrefixes(opts);

    member := Put(member, "edit", "GET");
    newActions := Put(newActions, "new", "GET");

    var collectionMethods := Swap(collection);
    var memberMethods := Swap(member);
    var newMethods := Swap(newActions);

    collectionMethods := InsertFirst(collectionMethods, "POST", "create");
    memberMethods := InsertFirst(memberMethods, "PUT", "update");
    memberMethods := InsertFirst(memberMethods, "DELETE", "delete");

    var path := BasePath(pathPrefix, collectionName);
    CollectionPathShape(pathPrefix, collectionName);
    var l := Layout(namePrefix, memberName, collectionName, path, path + "/new", path + "/:id");
    assert l == LayoutOf(memberName, collectionName, opts);
    assert collectionMethods == CollectionTable(opts.collection);
    assert memberMethods == MemberTable(opts.member);
    assert newMethods == NewTable(opts.newActions);

    var collectionRoutes, _ := EmitScope(actionKwargs, l, CollectionScope, collectionMethods);
    var indexRoutes := AddRouteAndView(actionKwargs, "index", namePrefix + collectionName, path, "GET");
    var newRoutes := EmitNew(actionKwargs, l, newMethods);
    var memberRoutes, lastVerb := EmitScope(actionKwargs, l, MemberScope, memberMethods);
    var showRoutes := AddRouteAndView(actionKwargs, "show", namePrefix + memberName, l.memberPath, lastVerb);
    assert lastVerb == LastKey(memberMethods);
    assert collectionRoutes + indexRoutes + newRoutes + memberRoutes + showRoutes
        == Emitted(actionKwargs, l, collectionMethods, newMethods, memberMethods);
    BuiltTable(handler, memberName, collectionName, opts, actionKwargs);
    r := Ok(collectionRoutes + indexRoutes + newRoutes + memberRoutes + showRoutes);
  }

  /** The prefix defaulting: explicit values win, then the parent's names,
      then the empty prefix. */
  method DefaultPrefixes(opts: ResourceOptions) returns (pathPrefix: string, namePrefix: string)
    ensures pathPrefix == PathPrefix(opts.parentResource, opts.pathPrefix)
    ensures namePrefix == NamePrefix(opts.parentResource, opts.namePrefix)
  {
    if opts.parentResource.Some? {
      var parent := opts.parentResource.value;
      pathPrefix := if opts.pathPrefix.None? then parent.collectionName + "/:" + parent.memberName + "_id"
                    else opts.pathPrefix.value;
      namePrefix := if opts.namePrefix.None? then parent.memberName + "_" else opts.namePrefix.value;
    } else {
      pathPrefix := if opts.pathPrefix.None? then "" else opts.pathPrefix.value;
      namePrefix := if opts.namePrefix.None? then "" else opts.namePrefix.value;
    }
  }

  /** `collection_path`, as the statements of `add_resource` compute it: the
      stripped collection name after one slash, preceded by the stripped
      prefix after one slash unless the prefix strips to nothing. */
  method BasePath(pathPrefix: string, collectionName: string) returns (path: string)
    ensures path == if StripSlashes(pathPrefix) == "" then "/" + StripSlashes(collectionName)
                    else "/" + StripSlashes(pathPrefix) + "/" + StripSlashes(collectionName)
  {
    var controller := StripSlashes(collectionName);
    var prefix := "/" + StripSlashes(pathPrefix);
    if StripSlashes(pathPrefix) != "" {
      assert |prefix| > 1;
    }
    path := if prefix != "/" then prefix + "/" + controller else "/" + controller;
  }

  // ----- The outcome as a whole -----

  /** A built catalog gives the table of the resource's layout and verb tables. */
  lemma BuiltTable(handler: seq<ExposedMethod>, memberName: string, collectionName: string, opts: ResourceOptions,
                   cat: ActionCatalog)
    requires CatalogOf(Declarations(handler)) == Ok(cat)
    ensures ResourceRoutes(handler, memberName, collectionName, opts)
         == Ok(Emitted(cat, LayoutOf(memberName, collectionName, opts), CollectionTable(opts.collection),
                       NewTable(opts.newActions), MemberTable(opts.member)))
  {
  }

  /** `add_resource` either registers its routes or fails with the "two
      methods" error, and it fails exactly when two unformatted declarations
      share an action name. */
  lemma AllOrNothing(handler: seq<ExposedMethod>, memberName: string, collectionName: string, opts: ResourceOptions)
    ensures ResourceRoutes(handler, memberName, collectionName, opts).Err? <==> HasConflict(Declarations(handler))
    ensures ResourceRoutes(handler, memberName, collectionName, opts).Err? ==>
      ResourceRoutes(handler, memberName, collectionName, opts).error == ConfigurationError(TwoDefaultsMessage)
  {
    CatalogContents(Declarations(handler));
  }

  /** Without a conflict, the table is built from the catalog, whose entry for
      `action` holds that action's declarations. */
  lemma Built(handler: seq<ExposedMethod>, memberName: string, collectionName: string, opts: ResourceOptions,
              action: string)
    requires !HasConflict(Declarations(handler))
    ensures CatalogOf(Declarations(handler)).Ok?
    ensures Views(CatalogOf(Declarations(handler)).value, action)
      == ActionViews(DefaultFor(Declarations(handler), action), FormattedFor(Declarations(handler), action))
    ensures ResourceRoutes(handler, memberName, collectionName, opts)
      == Ok(RouteTable(CatalogOf(Declarations(handler)).value, memberName, collectionName, opts))
  {
    CatalogContents(Declarations(handler));
  }

  // ----- The seven standard routes -----

  /** `create`: POST at the collection path, named after the collection. */
  lemma CreateRoute(handler: seq<ExposedMethod>, memberName: string, collectionName: string, opts: ResourceOptions)
    requires !HasConflict(Declarations(handler))
    ensures ResourceRoutes(handler, memberName, collectionName, opts).Ok?
    ensures var l := LayoutOf(memberName, collectionName, opts);
      RouteRecord(l.namePrefix + collectionName, l.collectionPath, Some("POST"), "create",
                  DefaultFor(Declarations(handler), "create").GetOr([]))
        in ResourceRoutes(handler, memberName, collectionName, opts).value
  {
    Built(handler, memberName, collectionName, opts, "create");
    var cat := CatalogOf(Declarations(handler)).value;
    var l := LayoutOf(memberName, collectionName, opts);
    var ct := CollectionTable(opts.collection);
    var nt := NewTable(opts.newActions);
    var mt := MemberTable(opts.member);
    CreateListed(opts.collection);
    UpperVerbs();
    PrimaryScopeRecord(cat, l, CollectionScope, ct, "POST", ActionsFor(ct, "POST"));
    CollectionPartEmitted(cat, l, ct, nt, mt,
                          RouteRecord(l.namePrefix + l.collectionName, l.collectionPath, Some("POST"), "create", Views(cat, "create").defaultView.GetOr([])));
  }

  /** `index`: GET at the collection path, named after the collection. */
  lemma IndexRoute(handler: seq<ExposedMethod>, memberName: string, collectionName: string, opts: ResourceOptions)
    requires !HasConflict(Declarations(handler))
    ensures ResourceRoutes(handler, memberName, collectionName, opts).Ok?
    ensures var l := LayoutOf(memberName, collectionName, opts);
      RouteRecord(l.namePrefix + collectionName, l.collectionPath, Some("GET"), "index",
                  DefaultFor(Declarations(handler), "index").GetOr([]))
        in ResourceRoutes(handler, memberName, collectionName, opts).value
  {
    Built(handler, memberName, collectionName, opts, "index");
    var cat := CatalogOf(Declarations(handler)).value;
    var l := LayoutOf(memberName, collectionName, opts);
    var ct := CollectionTable(opts.collection);
    var nt := NewTable(opts.newActions);
    var mt := MemberTable(opts.member);
    var v := ViewRoutes(cat, "index", l.namePrefix + l.collectionName, l.collectionPath, "GET");
    UpperVerbs();
    RequestFilterUpper("GET");
    assert v[0] in v;
    IndexPartEmitted(cat, l, ct, nt, mt, v[0]);
  }

  /** Each formatted view of `index` is registered under GET at
      "<collection path>.<format>", named "<format>_formatted_<prefix><collection>". */
  lemma IndexFormattedRoutes(handler: seq<ExposedMethod>, memberName: string, collectionName: string, opts: ResourceOptions)
    requires !HasConflict(Declarations(handler))
    ensures ResourceRoutes(handler, memberName, collectionName, opts).Ok?
    ensures var l := LayoutOf(memberName, collectionName, opts);
      var fs := FormattedFor(Declarations(handler), "index");
      forall i :: 0 <= i < |fs| ==>
        RouteRecord(fs[i].format + "_formatted_" + (l.namePrefix + collectionName), l.collectionPath + "." + fs[i].format,
                    Some("GET"), fs[i].attr, fs[i].options)
          in ResourceRoutes(handler, memberName, collectionName, opts).value
  {
    Built(handler, memberName, collectionName, opts, "index");
    var cat := CatalogOf(Declarations(handler)).value;
    var l := LayoutOf(memberName, collectionName, opts);
    var ct := CollectionTable(opts.collection);
    var nt := NewTable(opts.newActions);
    var mt := MemberTable(opts.member);
    FormattedSiblings(cat, "index", l.namePrefix + l.collectionName, l.collectionPath, "GET");
    UpperVerbs();
    RequestFilterUpper("GET");
    var v := ViewRoutes(cat, "index", l.namePrefix + l.collectionName, l.collectionPath, "GET");
    var fs := FormattedFor(Declarations(handler), "index");
    forall i | 0 <= i < |fs|
      ensures RouteRecord(fs[i].format + "_formatted_" + (l.namePrefix + collectionName), l.collectionPath + "." + fs[i].format,
                          Some("GET"), fs[i].attr, fs[i].options)
                in ResourceRoutes(handler, memberName, collectionName, opts).value
    {
      assert v[i + 1] in v;
      IndexPartEmitted(cat, l, ct, nt, mt, v[i + 1]);
    }
  }

  /** `new`: GET at the new path, named "<prefix>new_<member>". */
  lemma NewRoute(handler: seq<ExposedMethod>, memberName: string, collectionName: string, opts: ResourceOptions)
    requires !HasConflict(Declarations(handler))
    ensures ResourceRoutes(handler, memberName, collectionName, opts).Ok?
    ensures var l := LayoutOf(memberName, collectionName, opts);
      RouteRecord(l.namePrefix + ("new_" + memberName), l.newPath, Some("GET"), "new",
                  DefaultFor(Declarations(handler), "new").GetOr([]))
        in ResourceRoutes(handler, memberName, collectionName, opts).value
  {
    Built(handler, memberName, collectionName, opts, "new");
    var cat := CatalogOf(Declarations(handler)).value;
    var l := LayoutOf(memberName, collectionName, opts);
    var ct := CollectionTable(opts.collection);
    var nt := NewTable(opts.newActions);
    var mt := MemberTable(opts.member);
    NewListed(opts.newActions);
    NewNewRecord(cat, l, nt, ActionsFor(nt, "GET"));
    NewPartEmitted(cat, l, ct, nt, mt,
                   RouteRecord(l.namePrefix + ("new_" + l.memberName), l.newPath, Some("GET"), "new", Views(cat, "new").defaultView.GetOr([])));
  }

  /** Each formatted view of `new` is registered under GET at
      "<new path>.<format>", named "<format>_formatted_<prefix>new_<member>". */
  lemma NewFormattedRoutes(handler: seq<ExposedMethod>, memberName: string, collectionName: string, opts: ResourceOptions)
    requires !HasConflict(Declarations(handler))
    ensures ResourceRoutes(handler, memberName, collectionName, opts).Ok?
    ensures var l := LayoutOf(memberName, collectionName, opts);
      var fs := FormattedFor(Declarations(handler), "new");
      forall i :: 0 <= i < |fs| ==>
        RouteRecord(fs[i].format + "_formatted_" + (l.namePrefix + ("new_" + memberName)), l.newPath + "." + fs[i].format,
                    Some("GET"), fs[i].attr, fs[i].options)
          in ResourceRoutes(handler, memberName, collectionName, opts).value
  {
    Built(handler, memberName, collectionName, opts, "new");
    var cat := CatalogOf(Declarations(handler)).value;
    var nt := NewTable(opts.newActions);
    NewListed(opts.newActions);
    NewSiblingsEmitted(cat, LayoutOf(memberName, collectionName, opts), CollectionTable(opts.collection), nt,
                       MemberTable(opts.member), ActionsFor(nt, "GET"));
  }

  /** Each formatted view of `edit` is registered with no method constraint at
      "<member path>/edit.<format>", named "<format>_formatted_<prefix>edit_<member>". */
  lemma EditFormattedRoutes(handler: seq<ExposedMethod>, memberName: string, collectionName: string, opts: ResourceOptions)
    requires !HasConflict(Declarations(handler))
    ensures ResourceRoutes(handler, memberName, collectionName, opts).Ok?
    ensures var l := LayoutOf(memberName, collectionName, opts);
      var fs := FormattedFor(Declarations(handler), "edit");
      forall i :: 0 <= i < |fs| ==>
        RouteRecord(fs[i].format + "_formatted_" + (l.namePrefix + "edit" + "_" + memberName),
                    l.memberPath + "/" + "edit" + "." + fs[i].format, None, fs[i].attr, fs[i].options)
          in ResourceRoutes(handler, memberName, collectionName, opts).value
  {
    Built(handler, memberName, collectionName, opts, "edit");
    var cat := CatalogOf(Declarations(handler)).value;
    var mt := MemberTable(opts.member);
    EditListed(opts.member);
    EditSiblingsEmitted(cat, LayoutOf(memberName, collectionName, opts), CollectionTable(opts.collection),
                        NewTable(opts.newActions), mt, ActionsFor(mt, "GET"));
  }

  /** The formatted siblings of `new`, listed under GET, are in the table. */
  lemma NewSiblingsEmitted(cat: ActionCatalog, l: Layout, ct: VerbTable, nt: VerbTable, mt: VerbTable, actions: seq<string>)
    requires mt != [] && ("GET", actions) in nt && "new" in actions
    ensures var fs := Views(cat, "new").formattedViews;
      forall i :: 0 <= i < |fs| ==>
        RouteRecord(fs[i].format + "_formatted_" + (l.namePrefix + ("new_" + l.memberName)), l.newPath + "." + fs[i].format,
                    Some("GET"), fs[i].attr, fs[i].options) in Emitted(cat, l, ct, nt, mt)
  {
    NewActionViews(cat, l, nt, "GET", actions, "new");
    UpperVerbs();
    RequestFilterUpper("GET");
    var v := ViewRoutes(cat, "new", l.namePrefix + ("new_" + l.memberName), l.newPath, "GET");
    var fs := Views(cat, "new").formattedViews;
    forall i | 0 <= i < |fs|
      ensures RouteRecord(fs[i].format + "_formatted_" + (l.namePrefix + ("new_" + l.memberName)), l.newPath + "." + fs[i].format,
                          Some("GET"), fs[i].attr, fs[i].options) in Emitted(cat, l, ct, nt, mt)
    {
      assert v[i + 1] in v;
      NewPartEmitted(cat, l, ct, nt, mt, v[i + 1]);
    }
  }

  /** The formatted siblings of `edit`, listed under GET, are in the table. */
  lemma EditSiblingsEmitted(cat: ActionCatalog, l: Layout, ct: VerbTable, nt: VerbTable, mt: VerbTable, actions: seq<string>)
    requires mt != [] && ("GET", actions) in mt && "edit" in actions
    ensures var fs := Views(cat, "edit").formattedViews;
      forall i :: 0 <= i < |fs| ==>
        RouteRecord(fs[i].format + "_formatted_" + (l.namePrefix + "edit" + "_" + l.memberName),
                    l.memberPath + "/" + "edit" + "." + fs[i].format, None, fs[i].attr, fs[i].options) in Emitted(cat, l, ct, nt, mt)
  {
    MemberActionViews(cat, l, mt, "GET", actions, "edit");
    var v := ViewRoutes(cat, "edit", l.namePrefix + "edit" + "_" + l.memberName, l.memberPath + "/" + "edit", "any");
    var fs := Views(cat, "edit").formattedViews;
    forall i | 0 <= i < |fs|
      ensures RouteRecord(fs[i].format + "_formatted_" + (l.namePrefix + "edit" + "_" + l.memberName),
                          l.memberPath + "/" + "edit" + "." + fs[i].format, None, fs[i].attr, fs[i].options) in Emitted(cat, l, ct, nt, mt)
    {
      assert v[i + 1] in v;
      MemberPartEmitted(cat, l, ct, nt, mt, v[i + 1]);
    }
  }

  /** `edit`: no method constraint, at "<member path>/edit", named "<prefix>edit_<member>". */
  lemma EditRoute(handler: seq<ExposedMethod>, memberName: string, collectionName: string, opts: ResourceOptions)
    requires !HasConflict(Declarations(handler))
    ensures ResourceRoutes(handler, memberName, collectionName, opts).Ok?
    ensures var l := LayoutOf(memberName, collectionName, opts);
      RouteRecord(l.namePrefix + "edit" + "_" + memberName, l.memberPath + "/" + "edit", None, "edit",
                  DefaultFor(Declarations(handler), "edit").GetOr([]))
        in ResourceRoutes(handler, memberName, collectionName, opts).value
  {
    Built(handler, memberName, collectionName, opts, "edit");
    var cat := CatalogOf(Declarations(handler)).value;
    var l := LayoutOf(memberName, collectionName, opts);
    var ct := CollectionTable(opts.collection);
    var nt := NewTable(opts.newActions);
    var mt := MemberTable(opts.member);
    EditListed(opts.member);
    MemberActionRecord(cat, l, mt, "GET", ActionsFor(mt, "GET"), "edit");
    MemberPartEmitted(cat, l, ct, nt, mt,
                      RouteRecord(l.namePrefix + "edit" + "_" + l.memberName, l.memberPath + "/" + "edit", None, "edit", Views(cat, "edit").defaultView.GetOr([])));
  }

  /** `update`: PUT at the member path, named after the member. */
  lemma UpdateRoute(handler: seq<ExposedMethod>, memberName: string, collectionName: string, opts: ResourceOptions)
    requires !HasConflict(Declarations(handler))
    ensures ResourceRoutes(handler, memberName, collectionName, opts).Ok?
    ensures var l := LayoutOf(memberName, collectionName, opts);
      RouteRecord(l.namePrefix + memberName, l.memberPath, Some("PUT"), "update",
                  DefaultFor(Declarations(handler), "update").GetOr([]))
        in ResourceRoutes(handler, memberName, collectionName, opts).value
  {
    Built(handler, memberName, collectionName, opts, "update");
    var cat := CatalogOf(Declarations(handler)).value;
    var l := LayoutOf(memberName, collectionName, opts);
    var ct := CollectionTable(opts.collection);
    var nt := NewTable(opts.newActions);
    var mt := MemberTable(opts.member);
    MemberPrimaryListed(opts.member, "PUT", "update");
    UpperVerbs();
    PrimaryScopeRecord(cat, l, MemberScope, mt, "PUT", ActionsFor(mt, "PUT"));
    MemberPartEmitted(cat, l, ct, nt, mt,
                      RouteRecord(l.namePrefix + l.memberName, l.memberPath, Some("PUT"), "update", Views(cat, "update").defaultView.GetOr([])));
  }

  /** `delete`: DELETE at the member path, named after the member. */
  lemma DeleteRoute(handler: seq<ExposedMethod>, memberName: string, collectionName: string, opts: ResourceOptions)
    requires !HasConflict(Declarations(handler))
    ensures ResourceRoutes(handler, memberName, collectionName, opts).Ok?
    ensures var l := LayoutOf(memberName, collectionName, opts);
      RouteRecord(l.namePrefix + memberName, l.memberPath, Some("DELETE"), "delete",
                  DefaultFor(Declarations(handler), "delete").GetOr([]))
        in ResourceRoutes(handler, memberName, collectionName, opts).value
  {
    Built(handler, memberName, collectionName, opts, "delete");
    var cat := CatalogOf(Declarations(handler)).value;
    var l := LayoutOf(memberName, collectionName, opts);
    var ct := CollectionTable(opts.collection);
    var nt := NewTable(opts.newActions);
    var mt := MemberTable(opts.member);
    MemberPrimaryListed(opts.member, "DELETE", "delete");
    UpperVerbs();
    PrimaryScopeRecord(cat, l, MemberScope, mt, "DELETE", ActionsFor(mt, "DELETE"));
    MemberPartEmitted(cat, l, ct, nt, mt,
                      RouteRecord(l.namePrefix + l.memberName, l.memberPath, Some("DELETE"), "delete", Views(cat, "delete").defaultView.GetOr([])));
  }

  /** The end of a concatenation: one element, then the rest. */
  lemma TailParts<T>(routes: seq<T>, front: seq<T>, x: T, rest: seq<T>)
    requires routes == front + ([x] + rest)
    ensures |routes| > |rest| && routes[|routes| - 1 - |rest|] == x && routes[|routes| - |rest|..] == rest
  {
    assert routes[|front|] == x;
    assert routes[|front| + 1..] == rest;
  }

  /** One call registers its route, then the formatted siblings. */
  lemma ViewRoutesShape(cat: ActionCatalog, action: string, routeName: string, path: string, requestMethod: string)
    ensures ViewRoutes(cat, action, routeName, path, requestMethod)
         == [RouteRecord(routeName, path, RequestFilter(requestMethod), action, Views(cat, action).defaultView.GetOr([]))]
          + FormattedRoutes(Views(cat, action).formattedViews, routeName, path, RequestFilter(requestMethod))
  {
  }

  /** A table ends with `show` and its formatted siblings. */
  lemma EmittedShow(cat: ActionCatalog, l: Layout, ct: VerbTable, nt: VerbTable, mt: VerbTable)
    requires mt != []
    ensures var routes := Emitted(cat, l, ct, nt, mt);
      var views := Views(cat, "show");
      var fs := views.formattedViews;
      var filter := RequestFilter(LastKey(mt));
      && |routes| > |fs|
      && routes[|routes| - 1 - |fs|] == RouteRecord(l.namePrefix + l.memberName, l.memberPath, filter, "show",
                                                    views.defaultView.GetOr([]))
      && routes[|routes| - |fs|..] == FormattedRoutes(fs, l.namePrefix + l.memberName, l.memberPath, filter)
  {
    var front := ScopeRoutes(cat, l, CollectionScope, ct)
      + ViewRoutes(cat, "index", l.namePrefix + l.collectionName, l.collectionPath, "GET")
      + NewRoutes(cat, l, nt)
      + ScopeRoutes(cat, l, MemberScope, mt);
    var views := Views(cat, "show");
    var filter := RequestFilter(LastKey(mt));
    var rec := RouteRecord(l.namePrefix + l.memberName, l.memberPath, filter, "show", views.defaultView.GetOr([]));
    var rest := FormattedRoutes(views.formattedViews, l.namePrefix + l.memberName, l.memberPath, filter);
    ViewRoutesShape(cat, "show", l.namePrefix + l.memberName, l.memberPath, LastKey(mt));
    TailParts(Emitted(cat, l, ct, nt, mt), front, rec, rest);
  }

  /** `show` and its formatted siblings close the table, at the member path,
      under the member verb visited last; with no custom member action under
      DELETE that verb is DELETE. */
  lemma ShowRoute(handler: seq<ExposedMethod>, memberName: string, collectionName: string, opts: ResourceOptions)
    requires !HasConflict(Declarations(handler))
    ensures ResourceRoutes(handler, memberName, collectionName, opts).Ok?
    ensures var l := LayoutOf(memberName, collectionName, opts);
      var routes := ResourceRoutes(handler, memberName, collectionName, opts).value;
      var fs := FormattedFor(Declarations(handler), "show");
      var filter := RequestFilter(LastKey(MemberTable(opts.member)));
      && |routes| > |fs|
      && routes[|routes| - 1 - |fs|] == RouteRecord(l.namePrefix + memberName, l.memberPath, filter, "show",
                                                    DefaultFor(Declarations(handler), "show").GetOr([]))
      && routes[|routes| - |fs|..] == FormattedRoutes(fs, l.namePrefix + memberName, l.memberPath, filter)
    ensures ActionsWithVerb(opts.member, "DELETE") == [] ==>
      RequestFilter(LastKey(MemberTable(opts.member))) == Some("DELETE")
  {
    Built(handler, memberName, collectionName, opts, "show");
    var cat := CatalogOf(Declarations(handler)).value;
    BuiltTable(handler, memberName, collectionName, opts, cat);
    EmittedShow(cat, LayoutOf(memberName, collectionName, opts), CollectionTable(opts.collection),
                NewTable(opts.newActions), MemberTable(opts.member));
    ShowUnderDelete(opts.member);
  }

  /** Without custom member actions under DELETE, `show` is constrained to DELETE. */
  lemma ShowUnderDelete(member: ActionVerbs)
    ensures ActionsWithVerb(member, "DELETE") == [] ==> RequestFilter(LastKey(MemberTable(member))) == Some("DELETE")
  {
    if ActionsWithVerb(member, "DELETE") == [] {
      MemberTableLastVerb(member);
      UpperVerbs();
    }
  }

  // ----- Routes of the caller's own actions -----

  /** A collection action bound to GET gets "<prefix><action>_<collection>"
      at "<collection path>/<action>", with no method constraint. */
  lemma CollectionActionRoute(handler: seq<ExposedMethod>, memberName: string, collectionName: string,
                              opts: ResourceOptions, a: string)
    requires !HasConflict(Declarations(handler))
    requires a in ActionsWithVerb(opts.collection, "GET")
    ensures ResourceRoutes(handler, memberName, collectionName, opts).Ok?
    ensures var l := LayoutOf(memberName, collectionName, opts);
      RouteRecord(l.namePrefix + a + "_" + collectionName, l.collectionPath + "/" + a, None, a,
                  DefaultFor(Declarations(handler), a).GetOr([]))
        in ResourceRoutes(handler, memberName, collectionName, opts).value
  {
    Built(handler, memberName, collectionName, opts, a);
    var cat := CatalogOf(Declarations(handler)).value;
    var l := LayoutOf(memberName, collectionName, opts);
    var ct := CollectionTable(opts.collection);
    var nt := NewTable(opts.newActions);
    var mt := MemberTable(opts.member);
    CollectionGetListed(opts.collection, a);
    CollectionActionRecord(cat, l, ct, ActionsFor(ct, "GET"), a);
    CollectionPartEmitted(cat, l, ct, nt, mt,
                          RouteRecord(l.namePrefix + a + "_" + l.collectionName, l.collectionPath + "/" + a, None, a, Views(cat, a).defaultView.GetOr([])));
  }

  /** A member action bound to GET or POST gets "<prefix><action>_<member>"
      at "<member path>/<action>", with no method constraint. */
  lemma MemberActionRoute(handler: seq<ExposedMethod>, memberName: string, collectionName: string,
                          opts: ResourceOptions, verb: string, a: string)
    requires !HasConflict(Declarations(handler))
    requires verb == "GET" || verb == "POST"
    requires a != "edit" && a in ActionsWithVerb(opts.member, verb)
    ensures ResourceRoutes(handler, memberName, collectionName, opts).Ok?
    ensures var l := LayoutOf(memberName, collectionName, opts);
      RouteRecord(l.namePrefix + a + "_" + memberName, l.memberPath + "/" + a, None, a,
                  DefaultFor(Declarations(handler), a).GetOr([]))
        in ResourceRoutes(handler, memberName, collectionName, opts).value
  {
    Built(handler, memberName, collectionName, opts, a);
    var cat := CatalogOf(Declarations(handler)).value;
    var l := LayoutOf(memberName, collectionName, opts);
    var ct := CollectionTable(opts.collection);
    var nt := NewTable(opts.newActions);
    var mt := MemberTable(opts.member);
    MemberActionListed(opts.member, verb, a);
    MemberActionRecord(cat, l, mt, verb, ActionsFor(mt, verb), a);
    MemberPartEmitted(cat, l, ct, nt, mt,
                      RouteRecord(l.namePrefix + a + "_" + l.memberName, l.memberPath + "/" + a, None, a, Views(cat, a).defaultView.GetOr([])));
  }

  lemma CollectionPartEmitted(cat: ActionCatalog, l: Layout, collectionTable: VerbTable, newTable: VerbTable,
                            memberTable: VerbTable, r: RouteRecord)
    requires memberTable != [] && r in ScopeRoutes(cat, l, CollectionScope, collectionTable)
    ensures r in Emitted(cat, l, collectionTable, newTable, memberTable)
  {
  }

  lemma IndexPartEmitted(cat: ActionCatalog, l: Layout, collectionTable: VerbTable, newTable: VerbTable,
                       memberTable: VerbTable, r: RouteRecord)
    requires memberTable != [] && r in ViewRoutes(cat, "index", l.namePrefix + l.collectionName, l.collectionPath, "GET")
    ensures r in Emitted(cat, l, collectionTable, newTable, memberTable)
  {
  }

  lemma NewPartEmitted(cat: ActionCatalog, l: Layout, collectionTable: VerbTable, newTable: VerbTable,
                     memberTable: VerbTable, r: RouteRecord)
    requires memberTable != [] && r in NewRoutes(cat, l, newTable)
    ensures r in Emitted(cat, l, collectionTable, newTable, memberTable)
  {
  }

  lemma MemberPartEmitted(cat: ActionCatalog, l: Layout, collectionTable: VerbTable, newTable: VerbTable,
                        memberTable: VerbTable, r: RouteRecord)
    requires memberTable != [] && r in ScopeRoutes(cat, l, MemberScope, memberTable)
    ensures r in Emitted(cat, l, collectionTable, newTable, memberTable)
  {
  }

  /** A new-scope action other than `new` gets "<prefix><action>_new_<member>"
      at "<new path>/<action>", constrained to its upper-cased verb. */
  lemma NewActionRoute(handler: seq<ExposedMethod>, memberName: string, collectionName: string,
                       opts: ResourceOptions, verb: string, a: string)
    requires !HasConflict(Declarations(handler))
    requires a != "new" && a in ActionsWithVerb(opts.newActions, verb)
    ensures ResourceRoutes(handler, memberName, collectionName, opts).Ok?
    ensures var l := LayoutOf(memberName, collectionName, opts);
      RouteRecord(l.namePrefix + (a + "_new_" + memberName), l.newPath + "/" + a, Some(verb), a,
                  DefaultFor(Declarations(handler), a).GetOr([]))
        in ResourceRoutes(handler, memberName, collectionName, opts).value
  {
    Built(handler, memberName, collectionName, opts, a);
    var cat := CatalogOf(Declarations(handler)).value;
    var l := LayoutOf(memberName, collectionName, opts);
    var ct := CollectionTable(opts.collection);
    var nt := NewTable(opts.newActions);
    var mt := MemberTable(opts.member);
    NewActionListed(opts.newActions, verb, a);
    NewActionRecord(cat, l, nt, verb, ActionsFor(nt, verb), a);
    NewPartEmitted(cat, l, ct, nt, mt,
                   RouteRecord(l.namePrefix + (a + "_new_" + l.memberName), l.newPath + "/" + a, Some(verb), a, Views(cat, a).defaultView.GetOr([])));
  }

  // ----- Paths -----

  lemma PrefixTransitive(a: string, b: string, c: string)
    requires a <= b && b <= c
    ensures a <= c
  {
    assert c[..|b|][..|a|] == c[..|a|];
  }

  /** Five runs of records under the collection, new and member paths lie
      together under the collection path. */
  lemma PartsUnder(cp: string, np: string, mp: string, collection: seq<RouteRecord>, index: seq<RouteRecord>,
                   newRoutes: seq<RouteRecord>, member: seq<RouteRecord>, show: seq<RouteRecord>)
    requires cp <= np && cp <= mp
    requires forall r :: r in collection ==> cp <= r.path
    requires forall r :: r in index ==> cp <= r.path
    requires forall r :: r in newRoutes ==> np <= r.path
    requires forall r :: r in member ==> mp <= r.path
    requires forall r :: r in show ==> mp <= r.path
    ensures forall r :: r in collection + index + newRoutes + member + show ==> cp <= r.path
  {
    forall r | r in collection + index + newRoutes + member + show
      ensures cp <= r.path
    {
      if r in newRoutes {
        PrefixTransitive(cp, np, r.path);
      } else if r in member || r in show {
        PrefixTransitive(cp, mp, r.path);
      }
    }
  }

  /** Every record of a table lies under the collection path when the new
      and member paths extend it. */
  lemma EmittedUnder(cat: ActionCatalog, l: Layout, ct: VerbTable, nt: VerbTable, mt: VerbTable)
    requires mt != []
    requires l.newPath == l.collectionPath + "/new" && l.memberPath == l.collectionPath + "/:id"
    ensures forall r :: r in Emitted(cat, l, ct, nt, mt) ==> l.collectionPath <= r.path
  {
    var cp := l.collectionPath;
    var collection := ScopeRoutes(cat, l, CollectionScope, ct);
    var index := ViewRoutes(cat, "index", l.namePrefix + l.collectionName, cp, "GET");
    var newRoutes := NewRoutes(cat, l, nt);
    var member := ScopeRoutes(cat, l, MemberScope, mt);
    var show := ViewRoutes(cat, "show", l.namePrefix + l.memberName, l.memberPath, LastKey(mt));
    ScopeRoutesUnder(cat, l, CollectionScope, ct);
    FormattedSiblings(cat, "index", l.namePrefix + l.collectionName, cp, "GET");
    NewRoutesUnder(cat, l, nt);
    ScopeRoutesUnder(cat, l, MemberScope, mt);
    FormattedSiblings(cat, "show", l.namePrefix + l.memberName, l.memberPath, LastKey(mt));
    assert cp <= l.newPath by { assert (cp + "/new")[..|cp|] == cp; }
    assert cp <= l.memberPath by { assert (cp + "/:id")[..|cp|] == cp; }
    PartsUnder(cp, l.newPath, l.memberPath, collection, index, newRoutes, member, show);
  }

  /** Every table lies under the collection path. */
  lemma TableUnderCollectionPath(cat: ActionCatalog, memberName: string, collectionName: string, opts: ResourceOptions)
    ensures forall r :: r in RouteTable(cat, memberName, collectionName, opts) ==>
      LayoutOf(memberName, collectionName, opts).collectionPath <= r.path
  {
    EmittedUnder(cat, LayoutOf(memberName, collectionName, opts), CollectionTable(opts.collection),
                 NewTable(opts.newActions), MemberTable(opts.member));
  }

  /** Every registered path starts with the collection path. */
  lemma RoutesUnderCollectionPath(handler: seq<ExposedMethod>, memberName: string, collectionName: string, opts: ResourceOptions)
    ensures ResourceRoutes(handler, memberName, collectionName, opts).Ok? ==>
      forall r :: r in ResourceRoutes(handler, memberName, collectionName, opts).value ==>
        LayoutOf(memberName, collectionName, opts).collectionPath <= r.path
  {
    if CatalogOf(Declarations(handler)).Ok? {
      TableUnderCollectionPath(CatalogOf(Declarations(handler)).value, memberName, collectionName, opts);
    }
  }

  /** The path prefix may be written with or without surrounding slashes. */
  lemma PrefixSlashesDoNotMatter(memberName: string, collectionName: string, opts: ResourceOptions, p: string)
    requires !HasLeadingSlash(p) && !HasTrailingSlash(p)
    ensures LayoutOf(memberName, collectionName, opts.(pathPrefix := Some("/" + p + "/")))
         == LayoutOf(memberName, collectionName, opts.(pathPrefix := Some(p)))
    ensures LayoutOf(memberName, collectionName, opts.(pathPrefix := Some("/" + p)))
         == LayoutOf(memberName, collectionName, opts.(pathPrefix := Some(p)))
    ensures LayoutOf(memberName, collectionName, opts.(pathPrefix := Some(p + "/")))
         == LayoutOf(memberName, collectionName, opts.(pathPrefix := Some(p)))
  {
    PrefixSlashesIrrelevant(p, collectionName);
  }
}
