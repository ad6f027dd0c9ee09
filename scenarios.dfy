/** The resources the library's tests and documentation configure, worked out. */
module Scenarios {
  import opened Wrappers
  import opened Text
  import opened Paths
  import opened Catalog
  import opened Verbs
  import opened Routes
  import opened Resource
  import opened Literals

  // ----- Layouts -----

  /** `add_resource(h, 'message', 'messages')` */
  lemma MessagesLayout()
    ensures LayoutOf("message", "messages", NoOptions)
         == Layout("", "message", "messages", "/messages", "/messages/new", "/messages/:id")
  {
    assert StripSlashes("messages") == "messages";
    assert StripSlashes("") == "";
  }

  /** A path prefix with a leading slash, alone or with a trailing one too. */
  lemma CategoryPrefixLayout()
    ensures LayoutOf("message", "messages", NoOptions.(pathPrefix := Some("/category/:category_id"))).collectionPath
         == "/category/:category_id/messages"
    ensures LayoutOf("message", "messages", NoOptions.(pathPrefix := Some("/category/:category_id/"))).collectionPath
         == "/category/:category_id/messages"
  {
    var p := "category/:category_id";
    var bare := NoOptions.(pathPrefix := Some(p));
    CategoryOptions();
    assert !HasLeadingSlash(p) && !HasTrailingSlash(p);
    PrefixSlashesDoNotMatter("message", "messages", bare, p);
    CategoryBareLayout();
  }

  /** The two prefixes, written around the bare one. */
  lemma CategoryOptions()
    ensures var bare := NoOptions.(pathPrefix := Some("category/:category_id"));
      && NoOptions.(pathPrefix := Some("/category/:category_id")) == bare.(pathPrefix := Some("/" + "category/:category_id"))
      && NoOptions.(pathPrefix := Some("/category/:category_id/")) == bare.(pathPrefix := Some("/" + "category/:category_id" + "/"))
  {
    CategoryPrefixStrings();
  }

  /** The prefix without slashes. */
  lemma CategoryBareLayout()
    ensures LayoutOf("message", "messages", NoOptions.(pathPrefix := Some("category/:category_id"))).collectionPath
         == "/category/:category_id/messages"
  {
    var p := "category/:category_id";
    assert StripSlashes(p) == p;
    assert StripSlashes("messages") == "messages";
    CollectionPathShape(p, "messages");
    CategoryPath();
  }

  /** An explicit name prefix is used as given. */
  lemma SpecialNamePrefixLayout()
    ensures LayoutOf("message", "messages", NoOptions.(namePrefix := Some("special_"))).namePrefix == "special_"
  {
  }

  const Category := Some(Parent("category", "categories"))

  /** A parent resource derives both prefixes; an explicit prefix overrides
      only its own half. */
  lemma ParentLayouts()
    ensures var l := LayoutOf("message", "messages", NoOptions.(parentResource := Category));
      l.namePrefix == "category_" && l.collectionPath == "/categories/:category_id/messages"
    ensures var l := LayoutOf("message", "messages", NoOptions.(parentResource := Category, pathPrefix := Some("folders/:folder_id")));
      l.namePrefix == "category_" && l.collectionPath == "/folders/:folder_id/messages"
    ensures var l := LayoutOf("message", "messages", NoOptions.(parentResource := Category, namePrefix := Some("")));
      l.namePrefix == "" && l.collectionPath == "/categories/:category_id/messages"
  {
    ParentDerived();
    ParentPathOverride();
    ParentNameOverride();
  }

  lemma ParentDerived()
    ensures var l := LayoutOf("message", "messages", NoOptions.(parentResource := Category));
      l.namePrefix == "category_" && l.collectionPath == "/categories/:category_id/messages"
  {
    CategoriesPrefix();
    CategoriesPath();
    CategoryNamePrefix();
  }

  lemma ParentPathOverride()
    ensures var l := LayoutOf("message", "messages", NoOptions.(parentResource := Category, pathPrefix := Some("folders/:folder_id")));
      l.namePrefix == "category_" && l.collectionPath == "/folders/:folder_id/messages"
  {
    FoldersPath();
    CategoryNamePrefix();
  }

  lemma ParentNameOverride()
    ensures var l := LayoutOf("message", "messages", NoOptions.(parentResource := Category, namePrefix := Some("")));
      l.namePrefix == "" && l.collectionPath == "/categories/:category_id/messages"
  {
    CategoriesPrefix();
    CategoriesPath();
  }

  /** The collection path under the prefix "categories/:category_id". */
  lemma CategoriesPath()
    ensures CollectionPath("categories/:category_id", "messages") == "/categories/:category_id/messages"
  {
    var p := "categories/:category_id";
    assert StripSlashes(p) == p;
    assert StripSlashes("messages") == "messages";
    CollectionPathShape(p, "messages");
    CategoriesPathString();
  }

  /** The collection path under the prefix "folders/:folder_id". */
  lemma FoldersPath()
    ensures CollectionPath("folders/:folder_id", "messages") == "/folders/:folder_id/messages"
  {
    var p := "folders/:folder_id";
    assert StripSlashes(p) == p;
    assert StripSlashes("messages") == "messages";
    CollectionPathShape(p, "messages");
    FoldersPathString();
  }

  // ----- Route tables -----

  /** The verb tables of a resource without custom actions. */
  lemma DefaultTables()
    ensures CollectionTable([]) == [("POST", ["create"])]
    ensures NewTable([]) == [("GET", ["new"])]
    ensures MemberTable([]) == [("GET", ["edit"]), ("PUT", ["update"]), ("DELETE", ["delete"])]
  {
    UpperVerbs();
    InsertFirstNewVerb([], "POST", "create");
    var n: ActionVerbs := [("new", "GET")];
    assert NewVerbs([]) == n;
    assert n[..0] == [];
    assert Swapped(n) == AppendAction([], "GET", "new");
    assert ActionsFor([], "GET") + ["new"] == ["new"];
    assert NewTable([]) == [("GET", ["new"])];
    var e: ActionVerbs := [("edit", "GET")];
    assert MemberVerbs([]) == e;
    assert e[..0] == [];
    assert Swapped(e) == AppendAction([], "GET", "edit");
    assert ActionsFor([], "GET") + ["edit"] == ["edit"];
    var t0: VerbTable := [("GET", ["edit"])];
    assert Keys(t0) == ["GET"];
    InsertFirstNewVerb(t0, "PUT", "update");
    var t1: VerbTable := t0 + [("PUT", ["update"])];
    assert Keys(t1) == ["GET", "PUT"];
    InsertFirstNewVerb(t1, "DELETE", "delete");
  }

  /** Without declarations, each call registers one record with empty settings. */
  lemma BareView(action: string, routeName: string, path: string, requestMethod: string)
    ensures ViewRoutes(map[], action, routeName, path, requestMethod)
         == [RouteRecord(routeName, path, RequestFilter(requestMethod), action, [])]
  {
  }

  lemma MinimalCollection(l: Layout)
    requires l.namePrefix == ""
    ensures ScopeRoutes(map[], l, CollectionScope, [("POST", ["create"])])
         == [RouteRecord(l.collectionName, l.collectionPath, Some("POST"), "create", [])]
  {
    var t: VerbTable := [("POST", ["create"])];
    UpperVerbs();
    assert "" + l.collectionName == l.collectionName;
    BareView("create", l.collectionName, l.collectionPath, "POST");
    assert ["create"][1..] == [];
    assert t[..0] == [];
  }

  lemma MinimalNew(l: Layout)
    requires l.namePrefix == ""
    ensures NewRoutes(map[], l, [("GET", ["new"])]) == [RouteRecord("new_" + l.memberName, l.newPath, Some("GET"), "new", [])]
  {
    var t: VerbTable := [("GET", ["new"])];
    UpperVerbs();
    assert "" + NewRouteName("new", l.memberName) == "new_" + l.memberName;
    BareView("new", "new_" + l.memberName, l.newPath, "GET");
    assert ["new"][..0] == [];
    assert NewVerbRoutes(map[], l, "GET", ["new"]) == [RouteRecord("new_" + l.memberName, l.newPath, Some("GET"), "new", [])];
    assert t[..0] == [];
  }

  lemma MemberEdit(l: Layout)
    requires l.namePrefix == ""
    ensures VerbRoutes(map[], l, MemberScope, "GET", ["edit"])
         == [RouteRecord("edit_" + l.memberName, l.memberPath + "/edit", None, "edit", [])]
  {
    assert "" + "edit" + "_" + l.memberName == "edit_" + l.memberName;
    assert l.memberPath + "/" + "edit" == l.memberPath + "/edit";
    BareView("edit", "edit_" + l.memberName, l.memberPath + "/edit", "any");
    assert ["edit"][..0] == [];
    assert ActionRoutes(map[], l, MemberScope, ["edit"])
        == [RouteRecord("edit_" + l.memberName, l.memberPath + "/edit", None, "edit", [])];
  }

  /** A member verb holding only its primary registers it at the member path. */
  lemma MemberPrimary(l: Layout, verb: string, action: string)
    requires l.namePrefix == "" && (verb == "PUT" || verb == "DELETE") && action != ""
    ensures VerbRoutes(map[], l, MemberScope, verb, [action])
         == [RouteRecord(l.memberName, l.memberPath, Some(verb), action, [])]
  {
    UpperVerbs();
    assert "" + l.memberName == l.memberName;
    BareView(action, l.memberName, l.memberPath, verb);
    assert [action][1..] == [];
  }

  /** One more verb at the end of a table adds its records at the end. */
  lemma ScopeRoutesAppend(cat: ActionCatalog, l: Layout, scope: Scope, table: VerbTable, verb: string, actions: seq<string>)
    ensures ScopeRoutes(cat, l, scope, table + [(verb, actions)])
         == ScopeRoutes(cat, l, scope, table) + VerbRoutes(cat, l, scope, verb, actions)
  {
    assert (table + [(verb, actions)])[..|table|] == table;
  }

  lemma MinimalMember(l: Layout)
    requires l.namePrefix == ""
    ensures ScopeRoutes(map[], l, MemberScope, [("GET", ["edit"]), ("PUT", ["update"]), ("DELETE", ["delete"])]) == [
        RouteRecord("edit_" + l.memberName, l.memberPath + "/edit", None, "edit", []),
        RouteRecord(l.memberName, l.memberPath, Some("PUT"), "update", []),
        RouteRecord(l.memberName, l.memberPath, Some("DELETE"), "delete", [])]
  {
    var edit := RouteRecord("edit_" + l.memberName, l.memberPath + "/edit", None, "edit", []);
    var update := RouteRecord(l.memberName, l.memberPath, Some("PUT"), "update", []);
    var delete := RouteRecord(l.memberName, l.memberPath, Some("DELETE"), "delete", []);
    MemberEdit(l);
    MemberPrimary(l, "PUT", "update");
    MemberPrimary(l, "DELETE", "delete");
    var t0: VerbTable := [];
    var t1 := t0 + [("GET", ["edit"])];
    var t2 := t1 + [("PUT", ["update"])];
    var t3 := t2 + [("DELETE", ["delete"])];
    ScopeRoutesAppend(map[], l, MemberScope, t0, "GET", ["edit"]);
    ScopeRoutesAppend(map[], l, MemberScope, t1, "PUT", ["update"]);
    ScopeRoutesAppend(map[], l, MemberScope, t2, "DELETE", ["delete"]);
    assert t3 == [("GET", ["edit"]), ("PUT", ["update"]), ("DELETE", ["delete"])];
  }

  /** The seven records of a table without declarations or custom actions. */
  lemma MinimalEmitted(l: Layout)
    requires l.namePrefix == ""
    ensures Emitted(map[], l, [("POST", ["create"])], [("GET", ["new"])],
                    [("GET", ["edit"]), ("PUT", ["update"]), ("DELETE", ["delete"])]) == [
        RouteRecord(l.collectionName, l.collectionPath, Some("POST"), "create", []),
        RouteRecord(l.collectionName, l.collectionPath, Some("GET"), "index", []),
        RouteRecord("new_" + l.memberName, l.newPath, Some("GET"), "new", []),
        RouteRecord("edit_" + l.memberName, l.memberPath + "/edit", None, "edit", []),
        RouteRecord(l.memberName, l.memberPath, Some("PUT"), "update", []),
        RouteRecord(l.memberName, l.memberPath, Some("DELETE"), "delete", []),
        RouteRecord(l.memberName, l.memberPath, Some("DELETE"), "show", [])]
  {
    var mt: VerbTable := [("GET", ["edit"]), ("PUT", ["update"]), ("DELETE", ["delete"])];
    MinimalCollection(l);
    MinimalNew(l);
    MinimalMember(l);
    UpperVerbs();
    assert "" + l.collectionName == l.collectionName;
    assert "" + l.memberName == l.memberName;
    BareView("index", l.collectionName, l.collectionPath, "GET");
    BareView("show", l.memberName, l.memberPath, "DELETE");
    assert LastKey(mt) == "DELETE";
    ConcatSeven(RouteRecord(l.collectionName, l.collectionPath, Some("POST"), "create", []),
      RouteRecord(l.collectionName, l.collectionPath, Some("GET"), "index", []),
      RouteRecord("new_" + l.memberName, l.newPath, Some("GET"), "new", []),
      RouteRecord("edit_" + l.memberName, l.memberPath + "/edit", None, "edit", []),
      RouteRecord(l.memberName, l.memberPath, Some("PUT"), "update", []),
      RouteRecord(l.memberName, l.memberPath, Some("DELETE"), "delete", []),
      RouteRecord(l.memberName, l.memberPath, Some("DELETE"), "show", []));
  }

  /** With no declarations and no options, `add_resource` registers exactly
      the seven standard routes, each with empty view settings, `show` under
      DELETE because DELETE is the member verb visited last. */
  lemma MinimalResource(memberName: string, collectionName: string)
    ensures var cp := CollectionPath("", collectionName);
      ResourceRoutes([], memberName, collectionName, NoOptions) == Ok([
        RouteRecord(collectionName, cp, Some("POST"), "create", []),
        RouteRecord(collectionName, cp, Some("GET"), "index", []),
        RouteRecord("new_" + memberName, cp + "/new", Some("GET"), "new", []),
        RouteRecord("edit_" + memberName, cp + "/:id" + "/edit", None, "edit", []),
        RouteRecord(memberName, cp + "/:id", Some("PUT"), "update", []),
        RouteRecord(memberName, cp + "/:id", Some("DELETE"), "delete", []),
        RouteRecord(memberName, cp + "/:id", Some("DELETE"), "show", [])])
  {
    var l := LayoutOf(memberName, collectionName, NoOptions);
    assert Declarations([]) == [];
    DefaultTables();
    assert ResourceRoutes([], memberName, collectionName, NoOptions)
        == Ok(Emitted(map[], l, [("POST", ["create"])], [("GET", ["new"])],
                      [("GET", ["edit"]), ("PUT", ["update"]), ("DELETE", ["delete"])]));
    MinimalEmitted(l);
  }

  lemma ConcatSeven<T>(a: T, b: T, c: T, d: T, e: T, f: T, g: T)
    ensures [a] + [b] + [c] + [d, e, f] + [g] == [a, b, c, d, e, f, g]
  {
  }

  /** A method carrying two unformatted declarations is rejected, whatever
      their settings and the resource's names and options. */
  lemma DoubleDefaultRejected(memberName: string, collectionName: string, opts: ResourceOptions,
                              first: ViewOptions, second: ViewOptions)
    ensures var messedUp := ExposedMethod("index", [Declaration(None, None, first), Declaration(None, None, second)]);
      ResourceRoutes([messedUp], memberName, collectionName, opts) == Err(ConfigurationError(TwoDefaultsMessage))
  {
    var messedUp := ExposedMethod("index", [Declaration(None, None, first), Declaration(None, None, second)]);
    assert [messedUp][..0] == [];
    assert Declarations([messedUp]) == Declarations([]) + TagAll(messedUp);
    var ds := Declarations([messedUp]);
    assert ds == TagAll(messedUp);
    assert IsDefault(ds[0]) && IsDefault(ds[1]) && ActionName(ds[0]) == ActionName(ds[1]);
    AllOrNothing([messedUp], memberName, collectionName, opts);
  }

  // ----- The routes the tests look up by name -----

  /** `add_resource(h, 'message', 'messages')` names `index` "messages",
      `new` "new_message", `edit` "edit_message" and `update` "message". */
  lemma BasicResourceRoutes(handler: seq<ExposedMethod>)
    requires !HasConflict(Declarations(handler))
    ensures ResourceRoutes(handler, "message", "messages", NoOptions).Ok?
    ensures var routes := ResourceRoutes(handler, "message", "messages", NoOptions).value;
      var ds := Declarations(handler);
      && RouteRecord("messages", "/messages", Some("GET"), "index", DefaultFor(ds, "index").GetOr([])) in routes
      && RouteRecord("new_message", "/messages/new", Some("GET"), "new", DefaultFor(ds, "new").GetOr([])) in routes
      && RouteRecord("edit_message", "/messages/:id/edit", None, "edit", DefaultFor(ds, "edit").GetOr([])) in routes
      && RouteRecord("message", "/messages/:id", Some("PUT"), "update", DefaultFor(ds, "update").GetOr([])) in routes
  {
    MessagesLayout();
    MessagesStrings();
    IndexRoute(handler, "message", "messages", NoOptions);
    NewRoute(handler, "message", "messages", NoOptions);
    EditRoute(handler, "message", "messages", NoOptions);
    UpdateRoute(handler, "message", "messages", NoOptions);
  }

  /** `collection=dict(sorted='GET')` adds "sorted_messages" at "/messages/sorted". */
  lemma SortedCollectionAction(handler: seq<ExposedMethod>)
    requires !HasConflict(Declarations(handler))
    ensures var opts := NoOptions.(collection := [("sorted", "GET")]);
      && ResourceRoutes(handler, "message", "messages", opts).Ok?
      && RouteRecord("sorted_messages", "/messages/sorted", None, "sorted",
                     DefaultFor(Declarations(handler), "sorted").GetOr([]))
           in ResourceRoutes(handler, "message", "messages", opts).value
  {
    var opts := NoOptions.(collection := [("sorted", "GET")]);
    MessagesLayout();
    ActionStrings();
    assert LayoutOf("message", "messages", opts) == LayoutOf("message", "messages", NoOptions);
    UpperVerbs();
    assert opts.collection[..0] == [];
    assert "sorted" in ActionsWithVerb(opts.collection, "GET");
    CollectionActionRoute(handler, "message", "messages", opts, "sorted");
  }

  /** `member=dict(comment='GET')` adds "comment_message" at "/messages/:id/comment". */
  lemma CommentMemberAction(handler: seq<ExposedMethod>)
    requires !HasConflict(Declarations(handler))
    ensures var opts := NoOptions.(member := [("comment", "GET")]);
      && ResourceRoutes(handler, "message", "messages", opts).Ok?
      && RouteRecord("comment_message", "/messages/:id/comment", None, "comment",
                     DefaultFor(Declarations(handler), "comment").GetOr([]))
           in ResourceRoutes(handler, "message", "messages", opts).value
  {
    var opts := NoOptions.(member := [("comment", "GET")]);
    MessagesLayout();
    ActionStrings();
    assert LayoutOf("message", "messages", opts) == LayoutOf("message", "messages", NoOptions);
    UpperVerbs();
    assert opts.member[..0] == [];
    assert "comment" in ActionsWithVerb(opts.member, "GET");
    MemberActionRoute(handler, "message", "messages", opts, "GET", "comment");
  }

  /** `new=dict(preview='GET')` adds "preview_new_message" at "/messages/new/preview". */
  lemma PreviewNewAction(handler: seq<ExposedMethod>)
    requires !HasConflict(Declarations(handler))
    ensures var opts := NoOptions.(newActions := [("preview", "GET")]);
      && ResourceRoutes(handler, "message", "messages", opts).Ok?
      && RouteRecord("preview_new_message", "/messages/new/preview", Some("GET"), "preview",
                     DefaultFor(Declarations(handler), "preview").GetOr([]))
           in ResourceRoutes(handler, "message", "messages", opts).value
  {
    var opts := NoOptions.(newActions := [("preview", "GET")]);
    MessagesLayout();
    ActionStrings();
    assert LayoutOf("message", "messages", opts) == LayoutOf("message", "messages", NoOptions);
    UpperVerbs();
    assert opts.newActions[..0] == [];
    assert "preview" in ActionsWithVerb(opts.newActions, "GET");
    NewActionRoute(handler, "message", "messages", opts, "GET", "preview");
  }

  /** `name_prefix="special_"` names the member route "special_message". */
  lemma SpecialNamePrefixRoute(handler: seq<ExposedMethod>)
    requires !HasConflict(Declarations(handler))
    ensures var opts := NoOptions.(namePrefix := Some("special_"));
      && ResourceRoutes(handler, "message", "messages", opts).Ok?
      && RouteRecord("special_message", "/messages/:id", Some("PUT"), "update",
                     DefaultFor(Declarations(handler), "update").GetOr([]))
           in ResourceRoutes(handler, "message", "messages", opts).value
  {
    var opts := NoOptions.(namePrefix := Some("special_"));
    MessagesLayout();
    SpecialNamePrefixLayout();
    PrefixStrings();
    assert LayoutOf("message", "messages", opts) == LayoutOf("message", "messages", NoOptions).(namePrefix := "special_");
    UpdateRoute(handler, "message", "messages", opts);
  }

  /** A parent resource names the collection "category_messages" under
      "/categories/:category_id"; an explicit path prefix moves it, an
      explicit empty name prefix renames it "messages". */
  lemma ParentResourceRoutes(handler: seq<ExposedMethod>)
    requires !HasConflict(Declarations(handler))
    ensures var opts := NoOptions.(parentResource := Category);
      && ResourceRoutes(handler, "message", "messages", opts).Ok?
      && RouteRecord("category_messages", "/categories/:category_id/messages", Some("GET"), "index",
                     DefaultFor(Declarations(handler), "index").GetOr([]))
           in ResourceRoutes(handler, "message", "messages", opts).value
      && RouteRecord("category_message", "/categories/:category_id/messages/:id", Some("PUT"), "update",
                     DefaultFor(Declarations(handler), "update").GetOr([]))
           in ResourceRoutes(handler, "message", "messages", opts).value
    ensures var opts := NoOptions.(parentResource := Category, pathPrefix := Some("folders/:folder_id"));
      && ResourceRoutes(handler, "message", "messages", opts).Ok?
      && RouteRecord("category_messages", "/folders/:folder_id/messages", Some("GET"), "index",
                     DefaultFor(Declarations(handler), "index").GetOr([]))
           in ResourceRoutes(handler, "message", "messages", opts).value
      && RouteRecord("category_message", "/folders/:folder_id/messages/:id", Some("PUT"), "update",
                     DefaultFor(Declarations(handler), "update").GetOr([]))
           in ResourceRoutes(handler, "message", "messages", opts).value
    ensures var opts := NoOptions.(parentResource := Category, namePrefix := Some(""));
      && ResourceRoutes(handler, "message", "messages", opts).Ok?
      && RouteRecord("messages", "/categories/:category_id/messages", Some("GET"), "index",
                     DefaultFor(Declarations(handler), "index").GetOr([]))
           in ResourceRoutes(handler, "message", "messages", opts).value
      && RouteRecord("message", "/categories/:category_id/messages/:id", Some("PUT"), "update",
                     DefaultFor(Declarations(handler), "update").GetOr([]))
           in ResourceRoutes(handler, "message", "messages", opts).value
  {
    ParentLayouts();
    PrefixStrings();
    var o1 := NoOptions.(parentResource := Category);
    var o2 := NoOptions.(parentResource := Category, pathPrefix := Some("folders/:folder_id"));
    var o3 := NoOptions.(parentResource := Category, namePrefix := Some(""));
    IndexRoute(handler, "message", "messages", o1);
    UpdateRoute(handler, "message", "messages", o1);
    IndexRoute(handler, "message", "messages", o2);
    UpdateRoute(handler, "message", "messages", o2);
    IndexRoute(handler, "message", "messages", o3);
    UpdateRoute(handler, "message", "messages", o3);
  }

  // ----- The examples of the `add_resource` docstring -----

  /** `collection={'rss':'GET'}` adds "/messages/rss". The docstring calls the
      route "rss_message"; the name the code builds is "rss_messages". */
  lemma RssCollectionAction(handler: seq<ExposedMethod>)
    requires !HasConflict(Declarations(handler))
    ensures var opts := NoOptions.(collection := [("rss", "GET")]);
      && ResourceRoutes(handler, "message", "messages", opts).Ok?
      && RouteRecord("rss_messages", "/messages/rss", None, "rss",
                     DefaultFor(Declarations(handler), "rss").GetOr([]))
           in ResourceRoutes(handler, "message", "messages", opts).value
  {
    var opts := NoOptions.(collection := [("rss", "GET")]);
    MessagesLayout();
    DocActionStrings();
    assert LayoutOf("message", "messages", opts) == LayoutOf("message", "messages", NoOptions);
    UpperVerbs();
    assert opts.collection[..0] == [];
    assert "rss" in ActionsWithVerb(opts.collection, "GET");
    CollectionActionRoute(handler, "message", "messages", opts, "rss");
  }

  /** `member={'mark':'POST'}` adds "mark_message" at "/messages/:id/mark".
      The route itself carries no request method. */
  lemma MarkMemberAction(handler: seq<ExposedMethod>)
    requires !HasConflict(Declarations(handler))
    ensures var opts := NoOptions.(member := [("mark", "POST")]);
      && ResourceRoutes(handler, "message", "messages", opts).Ok?
      && RouteRecord("mark_message", "/messages/:id/mark", None, "mark",
                     DefaultFor(Declarations(handler), "mark").GetOr([]))
           in ResourceRoutes(handler, "message", "messages", opts).value
  {
    var opts := NoOptions.(member := [("mark", "POST")]);
    MessagesLayout();
    DocActionStrings();
    assert LayoutOf("message", "messages", opts) == LayoutOf("message", "messages", NoOptions);
    UpperVerbs();
    assert opts.member[..0] == [];
    assert "mark" in ActionsWithVerb(opts.member, "POST");
    MemberActionRoute(handler, "message", "messages", opts, "POST", "mark");
  }

  /** `new={'preview':'POST'}` adds "preview_new_message" at
      "/messages/new/preview", under POST. */
  lemma PreviewPostNewAction(handler: seq<ExposedMethod>)
    requires !HasConflict(Declarations(handler))
    ensures var opts := NoOptions.(newActions := [("preview", "POST")]);
      && ResourceRoutes(handler, "message", "messages", opts).Ok?
      && RouteRecord("preview_new_message", "/messages/new/preview", Some("POST"), "preview",
                     DefaultFor(Declarations(handler), "preview").GetOr([]))
           in ResourceRoutes(handler, "message", "messages", opts).value
  {
    var opts := NoOptions.(newActions := [("preview", "POST")]);
    MessagesLayout();
    ActionStrings();
    assert LayoutOf("message", "messages", opts) == LayoutOf("message", "messages", NoOptions);
    UpperVerbs();
    assert opts.newActions[..0] == [];
    assert "preview" in ActionsWithVerb(opts.newActions, "POST");
    NewActionRoute(handler, "message", "messages", opts, "POST", "preview");
  }

  /** `path_prefix='/category/:category_id', name_prefix="category_"` names
      the member route "category_message" at "/category/:category_id/messages/:id". */
  lemma CategoryMemberRoute(handler: seq<ExposedMethod>)
    requires !HasConflict(Declarations(handler))
    ensures var opts := NoOptions.(pathPrefix := Some("/category/:category_id"), namePrefix := Some("category_"));
      && ResourceRoutes(handler, "message", "messages", opts).Ok?
      && RouteRecord("category_message", "/category/:category_id/messages/:id", Some("PUT"), "update",
                     DefaultFor(Declarations(handler), "update").GetOr([]))
           in ResourceRoutes(handler, "message", "messages", opts).value
  {
    var opts := NoOptions.(pathPrefix := Some("/category/:category_id"), namePrefix := Some("category_"));
    CategoryPrefixLayout();
    DocCategoryStrings();
    assert LayoutOf("message", "messages", opts).collectionPath
        == LayoutOf("message", "messages", NoOptions.(pathPrefix := Some("/category/:category_id"))).collectionPath;
    UpdateRoute(handler, "message", "messages", opts);
  }

  const Region := Some(Parent("region", "regions"))

  /** `location`/`locations` under the parent `region`/`regions`: the derived
      prefixes, an explicit path prefix and an explicit empty name prefix. */
  lemma RegionLayouts()
    ensures var l := LayoutOf("location", "locations", NoOptions.(parentResource := Region));
      l.namePrefix == "region_" && l.collectionPath == "/regions/:region_id/locations"
    ensures var l := LayoutOf("location", "locations", NoOptions.(parentResource := Region, pathPrefix := Some("areas/:area_id")));
      l.namePrefix == "region_" && l.collectionPath == "/areas/:area_id/locations"
    ensures var l := LayoutOf("location", "locations", NoOptions.(parentResource := Region, namePrefix := Some("")));
      l.namePrefix == "" && l.collectionPath == "/regions/:region_id/locations"
  {
    RegionPrefixStrings();
    RegionsPath();
    AreasPath();
  }

  /** The collection path under the prefix "regions/:region_id". */
  lemma RegionsPath()
    ensures CollectionPath("regions/:region_id", "locations") == "/regions/:region_id/locations"
  {
    var p := "regions/:region_id";
    assert StripSlashes(p) == p;
    assert StripSlashes("locations") == "locations";
    CollectionPathShape(p, "locations");
    RegionsPathString();
  }

  /** The collection path under the prefix "areas/:area_id". */
  lemma AreasPath()
    ensures CollectionPath("areas/:area_id", "locations") == "/areas/:area_id/locations"
  {
    var p := "areas/:area_id";
    assert StripSlashes(p) == p;
    assert StripSlashes("locations") == "locations";
    CollectionPathShape(p, "locations");
    AreasPathString();
  }

  /** The four routes the docstring looks up under `parent_resource`. */
  lemma RegionLocationRoutes(handler: seq<ExposedMethod>)
    requires !HasConflict(Declarations(handler))
    ensures var opts := NoOptions.(parentResource := Region);
      var routes := ResourceRoutes(handler, "location", "locations", opts);
      && routes.Ok?
      && RouteRecord("region_locations", "/regions/:region_id/locations", Some("GET"), "index",
                     DefaultFor(Declarations(handler), "index").GetOr([])) in routes.value
      && RouteRecord("region_new_location", "/regions/:region_id/locations/new", Some("GET"), "new",
                     DefaultFor(Declarations(handler), "new").GetOr([])) in routes.value
      && RouteRecord("region_location", "/regions/:region_id/locations/:id", Some("PUT"), "update",
                     DefaultFor(Declarations(handler), "update").GetOr([])) in routes.value
      && RouteRecord("region_edit_location", "/regions/:region_id/locations/:id/edit", None, "edit",
                     DefaultFor(Declarations(handler), "edit").GetOr([])) in routes.value
  {
    var opts := NoOptions.(parentResource := Region);
    RegionLayouts();
    RegionRouteStrings();
    RegionPathStrings();
    IndexRoute(handler, "location", "locations", opts);
    NewRoute(handler, "location", "locations", opts);
    UpdateRoute(handler, "location", "locations", opts);
    EditRoute(handler, "location", "locations", opts);
  }

  /** Overriding either derived prefix: "region_locations" moves under
      "/areas/:area_id", and `name_prefix=''` names the collection "locations". */
  lemma RegionOverrideRoutes(handler: seq<ExposedMethod>)
    requires !HasConflict(Declarations(handler))
    ensures var opts := NoOptions.(parentResource := Region, pathPrefix := Some("areas/:area_id"));
      && ResourceRoutes(handler, "location", "locations", opts).Ok?
      && RouteRecord("region_locations", "/areas/:area_id/locations", Some("GET"), "index",
                     DefaultFor(Declarations(handler), "index").GetOr([]))
           in ResourceRoutes(handler, "location", "locations", opts).value
    ensures var opts := NoOptions.(parentResource := Region, namePrefix := Some(""));
      && ResourceRoutes(handler, "location", "locations", opts).Ok?
      && RouteRecord("locations", "/regions/:region_id/locations", Some("GET"), "index",
                     DefaultFor(Declarations(handler), "index").GetOr([]))
           in ResourceRoutes(handler, "location", "locations", opts).value
  {
    RegionLayouts();
    RegionRouteStrings();
    IndexRoute(handler, "location", "locations", NoOptions.(parentResource := Region, pathPrefix := Some("areas/:area_id")));
    IndexRoute(handler, "location", "locations", NoOptions.(parentResource := Region, namePrefix := Some("")));
  }

  // ----- The test suite's DummyCrudHandler -----

  /** `renderer='json'`, and the xml alternative's `renderer='xml', xhr=True`. */
  const Json: ViewOptions := [("renderer", "json")]
  const Xml: ViewOptions := [("renderer", "xml"), ("xhr", "True")]

  /** A method under one plain `@action(renderer='json')`. */
  function Unformatted(name: string): ExposedMethod {
    ExposedMethod(name, [Declaration(None, None, Json)])
  }

  /** A method under `@action(renderer='json', format='json')` stacked on
      `@action(renderer='json')`. */
  function WithJson(name: string): ExposedMethod {
    ExposedMethod(name, [Declaration(None, None, Json), Declaration(None, Some("json"), Json)])
  }

  /** `api_index`: the json and xml alternatives of `index`, innermost first. */
  function ApiIndex(): ExposedMethod {
    ExposedMethod("api_index", [Declaration(Some("index"), Some("json"), Json),
                                Declaration(Some("index"), Some("xml"), Xml)])
  }

  /** The decorated methods of `DummyCrudHandler`, in name order. */
  function DummyCrudHandler(): seq<ExposedMethod> {
    [ApiIndex(), Unformatted("create"), Unformatted("delete"), WithJson("edit"), Unformatted("index"),
     WithJson("new"), WithJson("show"), Unformatted("sorted"), Unformatted("update")]
  }

  lemma UnformattedViews(name: string, action: string)
    ensures DefaultNames(TagAll(Unformatted(name))) == [name]
    ensures FormattedFor(TagAll(Unformatted(name)), action) == []
  {
    var ts := TagAll(Unformatted(name));
    assert ts[..0] == [];
  }

  lemma WithJsonViews(name: string, action: string)
    ensures DefaultNames(TagAll(WithJson(name))) == [name]
    ensures FormattedFor(TagAll(WithJson(name)), action) == if action == name then [FormattedView("json", name, Json)] else []
  {
    var t0 := Tagged(name, Declaration(None, None, Json));
    var t1 := Tagged(name, Declaration(None, Some("json"), Json));
    TwoTagged(WithJson(name), t0, t1, action);
  }

  lemma ApiIndexViews(action: string)
    ensures DefaultNames(TagAll(ApiIndex())) == []
    ensures FormattedFor(TagAll(ApiIndex()), action) ==
      if action == "index" then [FormattedView("json", "api_index", Json), FormattedView("xml", "api_index", Xml)] else []
  {
    var t0 := Tagged("api_index", Declaration(Some("index"), Some("json"), Json));
    var t1 := Tagged("api_index", Declaration(Some("index"), Some("xml"), Xml));
    TwoTagged(ApiIndex(), t0, t1, action);
  }

  /** A method with two declarations files them in order. */
  lemma TwoTagged(m: ExposedMethod, t0: Tagged, t1: Tagged, action: string)
    requires |m.exposed| == 2 && t0 == Tagged(m.name, m.exposed[0]) && t1 == Tagged(m.name, m.exposed[1])
    ensures DefaultNames(TagAll(m)) == DefaultNames([t0]) + if IsDefault(t1) then [ActionName(t1)] else []
    ensures DefaultNames([t0]) == if IsDefault(t0) then [ActionName(t0)] else []
    ensures FormattedFor(TagAll(m), action) == FormattedFor([t0], action)
      + if !IsDefault(t1) && ActionName(t1) == action then [FormattedView(t1.decl.format.value, t1.methodName, t1.decl.options)] else []
    ensures FormattedFor([t0], action) ==
      if !IsDefault(t0) && ActionName(t0) == action then [FormattedView(t0.decl.format.value, t0.methodName, t0.decl.options)] else []
  {
    var ts := TagAll(m);
    assert ts == [t0, t1];
    assert ts[..1] == [t0];
    assert [t0][..0] == [];
  }

  /** The handler's declarations, method by method. */
  lemma DummyDeclarations()
    ensures Declarations(DummyCrudHandler()) ==
      TagAll(ApiIndex()) + TagAll(Unformatted("create")) + TagAll(Unformatted("delete")) + TagAll(WithJson("edit"))
        + TagAll(Unformatted("index")) + TagAll(WithJson("new")) + TagAll(WithJson("show"))
        + TagAll(Unformatted("sorted")) + TagAll(Unformatted("update"))
  {
    var e: seq<ExposedMethod> := [];
    assert DummyCrudHandler() == e + [ApiIndex()] + [Unformatted("create")] + [Unformatted("delete")] + [WithJson("edit")]
      + [Unformatted("index")] + [WithJson("new")] + [WithJson("show")] + [Unformatted("sorted")] + [Unformatted("update")];
    NineDeclarations(ApiIndex(), Unformatted("create"), Unformatted("delete"), WithJson("edit"), Unformatted("index"),
                     WithJson("new"), WithJson("show"), Unformatted("sorted"), Unformatted("update"));
  }

  /** The declarations of nine methods, method by method. */
  lemma NineDeclarations(m0: ExposedMethod, m1: ExposedMethod, m2: ExposedMethod, m3: ExposedMethod, m4: ExposedMethod,
                         m5: ExposedMethod, m6: ExposedMethod, m7: ExposedMethod, m8: ExposedMethod)
    ensures var e: seq<ExposedMethod> := [];
      Declarations(e + [m0] + [m1] + [m2] + [m3] + [m4] + [m5] + [m6] + [m7] + [m8]) ==
      TagAll(m0) + TagAll(m1) + TagAll(m2) + TagAll(m3) + TagAll(m4) + TagAll(m5) + TagAll(m6) + TagAll(m7) + TagAll(m8)
  {
    var h0: seq<ExposedMethod> := [];
    var h1 := h0 + [m0];
    var h2 := h1 + [m1];
    var h3 := h2 + [m2];
    var h4 := h3 + [m3];
    var h5 := h4 + [m4];
    var h6 := h5 + [m5];
    var h7 := h6 + [m6];
    var h8 := h7 + [m7];
    DeclarationsAppend(h0, m0);
    DeclarationsAppend(h1, m1);
    DeclarationsAppend(h2, m2);
    DeclarationsAppend(h3, m3);
    DeclarationsAppend(h4, m4);
    DeclarationsAppend(h5, m5);
    DeclarationsAppend(h6, m6);
    DeclarationsAppend(h7, m7);
    DeclarationsAppend(h8, m8);
  }

  /** The formatted views of an action over nine runs of declarations. */
  lemma NineFormatted(t0: seq<Tagged>, t1: seq<Tagged>, t2: seq<Tagged>, t3: seq<Tagged>, t4: seq<Tagged>,
                      t5: seq<Tagged>, t6: seq<Tagged>, t7: seq<Tagged>, t8: seq<Tagged>, action: string)
    ensures FormattedFor(t0 + t1 + t2 + t3 + t4 + t5 + t6 + t7 + t8, action) ==
      FormattedFor(t0, action) + FormattedFor(t1, action) + FormattedFor(t2, action) + FormattedFor(t3, action)
        + FormattedFor(t4, action) + FormattedFor(t5, action) + FormattedFor(t6, action) + FormattedFor(t7, action)
        + FormattedFor(t8, action)
  {
    FormattedForAppend(t0, t1, action);
    FormattedForAppend(t0 + t1, t2, action);
    FormattedForAppend(t0 + t1 + t2, t3, action);
    FormattedForAppend(t0 + t1 + t2 + t3, t4, action);
    FormattedForAppend(t0 + t1 + t2 + t3 + t4, t5, action);
    FormattedForAppend(t0 + t1 + t2 + t3 + t4 + t5, t6, action);
    FormattedForAppend(t0 + t1 + t2 + t3 + t4 + t5 + t6, t7, action);
    FormattedForAppend(t0 + t1 + t2 + t3 + t4 + t5 + t6 + t7, t8, action);
  }

  /** The actions of the unformatted declarations over nine runs. */
  lemma NineDefaultNames(t0: seq<Tagged>, t1: seq<Tagged>, t2: seq<Tagged>, t3: seq<Tagged>, t4: seq<Tagged>,
                         t5: seq<Tagged>, t6: seq<Tagged>, t7: seq<Tagged>, t8: seq<Tagged>)
    ensures DefaultNames(t0 + t1 + t2 + t3 + t4 + t5 + t6 + t7 + t8) ==
      DefaultNames(t0) + DefaultNames(t1) + DefaultNames(t2) + DefaultNames(t3) + DefaultNames(t4)
        + DefaultNames(t5) + DefaultNames(t6) + DefaultNames(t7) + DefaultNames(t8)
  {
    DefaultNamesAppend(t0, t1);
    DefaultNamesAppend(t0 + t1, t2);
    DefaultNamesAppend(t0 + t1 + t2, t3);
    DefaultNamesAppend(t0 + t1 + t2 + t3, t4);
    DefaultNamesAppend(t0 + t1 + t2 + t3 + t4, t5);
    DefaultNamesAppend(t0 + t1 + t2 + t3 + t4 + t5, t6);
    DefaultNamesAppend(t0 + t1 + t2 + t3 + t4 + t5 + t6, t7);
    DefaultNamesAppend(t0 + t1 + t2 + t3 + t4 + t5 + t6 + t7, t8);
  }

  /** The unformatted declarations of the handler, method by method. */
  lemma DummyDefaultParts()
    ensures DefaultNames(Declarations(DummyCrudHandler())) ==
      DefaultNames(TagAll(ApiIndex())) + DefaultNames(TagAll(Unformatted("create"))) + DefaultNames(TagAll(Unformatted("delete")))
        + DefaultNames(TagAll(WithJson("edit"))) + DefaultNames(TagAll(Unformatted("index"))) + DefaultNames(TagAll(WithJson("new")))
        + DefaultNames(TagAll(WithJson("show"))) + DefaultNames(TagAll(Unformatted("sorted"))) + DefaultNames(TagAll(Unformatted("update")))
  {
    DummyDeclarations();
    NineDefaultNames(TagAll(ApiIndex()), TagAll(Unformatted("create")), TagAll(Unformatted("delete")), TagAll(WithJson("edit")),
                 TagAll(Unformatted("index")), TagAll(WithJson("new")), TagAll(WithJson("show")),
                 TagAll(Unformatted("sorted")), TagAll(Unformatted("update")));
  }

  /** The actions of the unformatted declarations of each method shape. */
  lemma ShapeDefaultNames(name: string)
    ensures DefaultNames(TagAll(Unformatted(name))) == [name]
    ensures DefaultNames(TagAll(WithJson(name))) == [name]
    ensures DefaultNames(TagAll(ApiIndex())) == []
  {
    UnformattedViews(name, "");
    WithJsonViews(name, "");
    ApiIndexViews("");
  }

  /** The first four methods contribute `create`, `delete` and `edit`. */
  lemma DummyNamesBefore()
    ensures DefaultNames(TagAll(ApiIndex())) + DefaultNames(TagAll(Unformatted("create"))) + DefaultNames(TagAll(Unformatted("delete")))
        + DefaultNames(TagAll(WithJson("edit"))) == ["create", "delete", "edit"]
  {
    ShapeDefaultNames("create");
    ShapeDefaultNames("delete");
    ShapeDefaultNames("edit");
  }

  /** Eight actions have one unformatted declaration each. */
  lemma DummyDefaultNames()
    ensures DefaultNames(Declarations(DummyCrudHandler())) ==
      ["create", "delete", "edit", "index", "new", "show", "sorted", "update"]
  {
    DummyDefaultParts();
    DummyNamesBefore();
    ShapeDefaultNames("index");
    ShapeDefaultNames("new");
    ShapeDefaultNames("show");
    ShapeDefaultNames("sorted");
    ShapeDefaultNames("update");
  }

  /** So the handler is accepted. */
  lemma DummyNoConflict()
    ensures !HasConflict(Declarations(DummyCrudHandler()))
  {
    DummyDefaultNames();
    DummyNamesDistinct();
    DistinctDefaultsNoConflict(Declarations(DummyCrudHandler()));
  }

  lemma DummyNamesDistinct()
    ensures DistinctNames(["create", "delete", "edit", "index", "new", "show", "sorted", "update"])
  {
  }

  /** The formatted views of an action of the handler, method by method. */
  lemma DummyFormattedParts(action: string)
    ensures FormattedFor(Declarations(DummyCrudHandler()), action) ==
      FormattedFor(TagAll(ApiIndex()), action) + FormattedFor(TagAll(Unformatted("create")), action)
        + FormattedFor(TagAll(Unformatted("delete")), action) + FormattedFor(TagAll(WithJson("edit")), action)
        + FormattedFor(TagAll(Unformatted("index")), action) + FormattedFor(TagAll(WithJson("new")), action)
        + FormattedFor(TagAll(WithJson("show")), action) + FormattedFor(TagAll(Unformatted("sorted")), action)
        + FormattedFor(TagAll(Unformatted("update")), action)
  {
    DummyDeclarations();
    NineFormatted(TagAll(ApiIndex()), TagAll(Unformatted("create")), TagAll(Unformatted("delete")), TagAll(WithJson("edit")),
                 TagAll(Unformatted("index")), TagAll(WithJson("new")), TagAll(WithJson("show")),
                 TagAll(Unformatted("sorted")), TagAll(Unformatted("update")), action);
  }

  /** A method with one plain declaration has no formatted view. */
  lemma UnformattedNoViews(name: string, action: string)
    ensures FormattedFor(TagAll(Unformatted(name)), action) == []
  {
    UnformattedViews(name, action);
  }

  /** The formatted views of an action of the handler, method by method:
      only `api_index`, `edit`, `new` and `show` contribute. */
  lemma DummyFormatted(action: string)
    ensures FormattedFor(Declarations(DummyCrudHandler()), action) ==
      FormattedFor(TagAll(ApiIndex()), action) + FormattedFor(TagAll(WithJson("edit")), action)
        + FormattedFor(TagAll(WithJson("new")), action) + FormattedFor(TagAll(WithJson("show")), action)
  {
    DummyFormattedParts(action);
    UnformattedNoViews("create", action);
    UnformattedNoViews("delete", action);
    UnformattedNoViews("index", action);
    UnformattedNoViews("sorted", action);
    UnformattedNoViews("update", action);
  }

  /** `index` has the json and then the xml view of `api_index`. */
  lemma DummyIndexFormats()
    ensures FormattedFor(Declarations(DummyCrudHandler()), "index")
         == [FormattedView("json", "api_index", Json), FormattedView("xml", "api_index", Xml)]
  {
    DummyFormatted("index");
    ApiIndexViews("index");
    WithJsonViews("edit", "index");
    WithJsonViews("new", "index");
    WithJsonViews("show", "index");
  }

  /** `new`, `edit` and `show` each have one json view, served by themselves. */
  lemma DummyJsonFormats(action: string)
    requires action == "new" || action == "edit" || action == "show"
    ensures FormattedFor(Declarations(DummyCrudHandler()), action) == [FormattedView("json", action, Json)]
  {
    if action == "new" {
      DummyNewFormats();
    } else if action == "edit" {
      DummyEditFormats();
    } else {
      DummyShowFormats();
    }
  }

  /** `api_index` declares views for `index` only. */
  lemma ApiIndexOnlyIndex(action: string)
    requires action != "index"
    ensures FormattedFor(TagAll(ApiIndex()), action) == []
  {
    ApiIndexViews(action);
  }

  lemma DummyNewFormats()
    ensures FormattedFor(Declarations(DummyCrudHandler()), "new") == [FormattedView("json", "new", Json)]
  {
    DummyFormatted("new");
    ApiIndexOnlyIndex("new");
    DummyNewParts();
  }

  lemma DummyEditFormats()
    ensures FormattedFor(Declarations(DummyCrudHandler()), "edit") == [FormattedView("json", "edit", Json)]
  {
    DummyFormatted("edit");
    ApiIndexOnlyIndex("edit");
    DummyEditParts();
  }

  lemma DummyShowFormats()
    ensures FormattedFor(Declarations(DummyCrudHandler()), "show") == [FormattedView("json", "show", Json)]
  {
    DummyFormatted("show");
    ApiIndexOnlyIndex("show");
    DummyShowParts();
  }

  /** A `WithJson` method has a json view for itself and none for other actions. */
  lemma WithJsonOther(name: string, action: string)
    requires action != name
    ensures FormattedFor(TagAll(WithJson(name)), action) == []
  {
    WithJsonViews(name, action);
  }

  lemma WithJsonOwn(name: string)
    ensures FormattedFor(TagAll(WithJson(name)), name) == [FormattedView("json", name, Json)]
  {
    WithJsonViews(name, name);
  }

  lemma DummyNewParts()
    ensures FormattedFor(TagAll(WithJson("edit")), "new") == [] && FormattedFor(TagAll(WithJson("show")), "new") == []
    ensures FormattedFor(TagAll(WithJson("new")), "new") == [FormattedView("json", "new", Json)]
  {
    WithJsonOther("edit", "new");
    WithJsonOther("show", "new");
    WithJsonOwn("new");
  }

  lemma DummyEditParts()
    ensures FormattedFor(TagAll(WithJson("new")), "edit") == [] && FormattedFor(TagAll(WithJson("show")), "edit") == []
    ensures FormattedFor(TagAll(WithJson("edit")), "edit") == [FormattedView("json", "edit", Json)]
  {
    WithJsonOther("new", "edit");
    WithJsonOther("show", "edit");
    WithJsonOwn("edit");
  }

  lemma DummyShowParts()
    ensures FormattedFor(TagAll(WithJson("edit")), "show") == [] && FormattedFor(TagAll(WithJson("new")), "show") == []
    ensures FormattedFor(TagAll(WithJson("show")), "show") == [FormattedView("json", "show", Json)]
  {
    WithJsonOther("edit", "show");
    WithJsonOther("new", "show");
    WithJsonOwn("show");
  }

  /** The formatted siblings of `index` in `test_basic_resources`: json, then xml, both served by `api_index`. */
  lemma DummyIndexSiblings()
    ensures ResourceRoutes(DummyCrudHandler(), "message", "messages", NoOptions).Ok?
    ensures var routes := ResourceRoutes(DummyCrudHandler(), "message", "messages", NoOptions).value;
      && RouteRecord("json_formatted_messages", "/messages.json", Some("GET"), "api_index", Json) in routes
      && RouteRecord("xml_formatted_messages", "/messages.xml", Some("GET"), "api_index", Xml) in routes
  {
    DummyNoConflict();
    DummyIndexFormats();
    MessagesLayout();
    IndexFormattedStrings();
    IndexXmlStrings();
    IndexFormattedRoutes(DummyCrudHandler(), "message", "messages", NoOptions);
    var fs := FormattedFor(Declarations(DummyCrudHandler()), "index");
    assert fs[0] == FormattedView("json", "api_index", Json) && fs[1] == FormattedView("xml", "api_index", Xml);
  }

  /** The json sibling of `new`. */
  lemma DummyNewSibling()
    ensures ResourceRoutes(DummyCrudHandler(), "message", "messages", NoOptions).Ok?
    ensures RouteRecord("json_formatted_new_message", "/messages/new.json", Some("GET"), "new", Json)
              in ResourceRoutes(DummyCrudHandler(), "message", "messages", NoOptions).value
  {
    DummyNoConflict();
    DummyJsonFormats("new");
    MessagesLayout();
    NewFormattedStrings();
    NewFormattedRoutes(DummyCrudHandler(), "message", "messages", NoOptions);
    var fs := FormattedFor(Declarations(DummyCrudHandler()), "new");
    assert fs[0] == FormattedView("json", "new", Json);
  }

  /** The json sibling of `edit`, with no method constraint like `edit` itself. */
  lemma DummyEditSibling()
    ensures ResourceRoutes(DummyCrudHandler(), "message", "messages", NoOptions).Ok?
    ensures RouteRecord("json_formatted_edit_message", "/messages/:id/edit.json", None, "edit", Json)
              in ResourceRoutes(DummyCrudHandler(), "message", "messages", NoOptions).value
  {
    DummyNoConflict();
    DummyJsonFormats("edit");
    MessagesLayout();
    EditFormattedStrings();
    EditFormattedRoutes(DummyCrudHandler(), "message", "messages", NoOptions);
    var fs := FormattedFor(Declarations(DummyCrudHandler()), "edit");
    assert fs[0] == FormattedView("json", "edit", Json);
  }

  /** The json sibling of `show` closes the table, under DELETE like `show`. */
  lemma DummyShowSibling()
    ensures ResourceRoutes(DummyCrudHandler(), "message", "messages", NoOptions).Ok?
    ensures var routes := ResourceRoutes(DummyCrudHandler(), "message", "messages", NoOptions).value;
      routes != [] && routes[|routes| - 1] == RouteRecord("json_formatted_message", "/messages/:id.json", Some("DELETE"), "show", Json)
  {
    DummyNoConflict();
    DummyJsonFormats("show");
    MessagesLayout();
    ShowFormattedStrings();
    ShowRoute(DummyCrudHandler(), "message", "messages", NoOptions);
    assert ActionsWithVerb(NoOptions.member, "DELETE") == [];
    var routes := ResourceRoutes(DummyCrudHandler(), "message", "messages", NoOptions).value;
    var fs := FormattedFor(Declarations(DummyCrudHandler()), "show");
    assert routes[|routes| - 1] == routes[|routes| - |fs|..][0];
  }

  /** `test_basic_resources` with `DummyCrudHandler`: the json siblings of
      `messages`, `new_message`, `message` and `edit_message`, with their paths
      and the methods that serve them. */
  lemma BasicFormattedRoutes()
    ensures ResourceRoutes(DummyCrudHandler(), "message", "messages", NoOptions).Ok?
    ensures var routes := ResourceRoutes(DummyCrudHandler(), "message", "messages", NoOptions).value;
      && RouteRecord("json_formatted_messages", "/messages.json", Some("GET"), "api_index", Json) in routes
      && RouteRecord("json_formatted_new_message", "/messages/new.json", Some("GET"), "new", Json) in routes
      && RouteRecord("json_formatted_message", "/messages/:id.json", Some("DELETE"), "show", Json) in routes
      && RouteRecord("json_formatted_edit_message", "/messages/:id/edit.json", None, "edit", Json) in routes
  {
    DummyIndexSiblings();
    DummyNewSibling();
    DummyEditSibling();
    DummyShowSibling();
  }
}
