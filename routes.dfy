/** Route emission: `add_route_and_view` and the loops that call it for the
    collection, new and member scopes. */
module Routes {
  import opened Wrappers
  import opened Text
  import opened Catalog
  import opened Verbs

  /** One `add_route(name, path)` call together with the `add_view` call
      bound to it: its request-method predicate (None for no constraint),
      the handler method it dispatches to and its view settings. */
  datatype RouteRecord = RouteRecord(name: string, path: string, requestMethod: Option<string>,
                                     attr: string, viewOptions: ViewOptions)

  /** The names and paths the emission loops build on. */
  datatype Layout = Layout(namePrefix: string, memberName: string, collectionName: string,
                           collectionPath: string, newPath: string, memberPath: string)

  datatype Scope = CollectionScope | MemberScope

  /** The resource name that ends route names in a scope. */
  function ScopeName(l: Layout, scope: Scope): string {
    match scope
    case CollectionScope => l.collectionName
    case MemberScope => l.memberName
  }

  /** The path a scope's routes are built on. */
  function ScopePath(l: Layout, scope: Scope): string {
    match scope
    case CollectionScope => l.collectionPath
    case MemberScope => l.memberPath
  }

  /** Whether a verb's first action is taken out as the primary route: every
      verb but GET at collection scope; every verb but POST, GET and 'any' at
      member scope. */
  predicate ElectsPrimary(scope: Scope, verb: string) {
    match scope
    case CollectionScope => verb != "GET"
    case MemberScope => verb != "POST" && verb != "GET" && verb != "any"
  }

  /** The `request_method` handed to `add_view`: none for 'any', else upper-cased. */
  function RequestFilter(requestMethod: string): Option<string> {
    if requestMethod != "any" then Some(Upper(requestMethod)) else None
  }

  /** The formatted siblings of a route, one per formatted view, in order. */
  function FormattedRoutes(formatted: seq<FormattedView>, routeName: string, path: string,
                           filter: Option<string>): seq<RouteRecord>
  {
    seq(|formatted|, i requires 0 <= i < |formatted| =>
      RouteRecord(formatted[i].format + "_formatted_" + routeName, path + "." + formatted[i].format,
                  filter, formatted[i].attr, formatted[i].options))
  }

  /** What one `add_route_and_view` call registers: the route dispatching to
      `action` with the action's default settings (none if it has no
      unformatted declaration), then its formatted siblings. */
  function ViewRoutes(cat: ActionCatalog, action: string, routeName: string, path: string,
                      requestMethod: string): seq<RouteRecord>
  {
    var filter := RequestFilter(requestMethod);
    var views := Views(cat, action);
    [RouteRecord(routeName, path, filter, action, views.defaultView.GetOr([]))]
      + FormattedRoutes(views.formattedViews, routeName, path, filter)
  }

  /** The non-primary actions of a scope, each at "<scope path>/<action>" and
      named "<prefix><action>_<scope name>", with no method constraint. */
  function ActionRoutes(cat: ActionCatalog, l: Layout, scope: Scope, actions: seq<string>): seq<RouteRecord> {
    if actions == [] then []
    else
      var a := actions[|actions| - 1];
      ActionRoutes(cat, l, scope, actions[..|actions| - 1])
        + ViewRoutes(cat, a, l.namePrefix + a + "_" + ScopeName(l, scope), ScopePath(l, scope) + "/" + a, "any")
  }

  /** One verb of a scope: after the primary (if elected) is popped, the other
      actions, then the primary at the bare scope path under that verb. A
      primary whose name is empty counts as none. */
  function VerbRoutes(cat: ActionCatalog, l: Layout, scope: Scope, verb: string, actions: seq<string>): seq<RouteRecord> {
    var pops := ElectsPrimary(scope, verb) && actions != [];
    var rest := if pops then actions[1..] else actions;
    ActionRoutes(cat, l, scope, rest)
      + if pops && actions[0] != "" then
          ViewRoutes(cat, actions[0], l.namePrefix + ScopeName(l, scope), ScopePath(l, scope), verb)
        else []
  }

  /** All verbs of a scope, in table order. */
  function ScopeRoutes(cat: ActionCatalog, l: Layout, scope: Scope, table: VerbTable): seq<RouteRecord> {
    if table == [] then []
    else
      var (verb, actions) := table[|table| - 1];
      ScopeRoutes(cat, l, scope, table[..|table| - 1]) + VerbRoutes(cat, l, scope, verb, actions)
  }

  function NewRouteName(action: string, memberName: string): string {
    if action == "new" then "new_" + memberName else action + "_new_" + memberName
  }

  function NewActionPath(newPath: string, action: string): string {
    if action == "new" then newPath else newPath + "/" + action
  }

  /** The new-scope actions of one verb, each under that verb. */
  function NewVerbRoutes(cat: ActionCatalog, l: Layout, verb: string, actions: seq<string>): seq<RouteRecord> {
    if actions == [] then []
    else
      var a := actions[|actions| - 1];
      NewVerbRoutes(cat, l, verb, actions[..|actions| - 1])
        + ViewRoutes(cat, a, l.namePrefix + NewRouteName(a, l.memberName), NewActionPath(l.newPath, a), verb)
  }

  function NewRoutes(cat: ActionCatalog, l: Layout, table: VerbTable): seq<RouteRecord> {
    if table == [] then []
    else
      var (verb, actions) := table[|table| - 1];
      NewRoutes(cat, l, table[..|table| - 1]) + NewVerbRoutes(cat, l, verb, actions)
  }

  // ----- Properties of the emitted records -----

  /** Each `add_route_and_view` call registers its route, then exactly one
      sibling per formatted view of the action, in catalog order: named
      "<format>_formatted_<name>", at "<path>.<format>", under the same
      request method, dispatching to the method that declared that format. */
  lemma FormattedSiblings(cat: ActionCatalog, action: string, routeName: string, path: string, requestMethod: string)
    ensures var r := ViewRoutes(cat, action, routeName, path, requestMethod);
      var fs := Views(cat, action).formattedViews;
      && |r| == 1 + |fs|
      && r[0] == RouteRecord(routeName, path, RequestFilter(requestMethod), action, Views(cat, action).defaultView.GetOr([]))
      && (forall i :: 0 <= i < |fs| ==>
            r[i + 1] == RouteRecord(fs[i].format + "_formatted_" + routeName, path + "." + fs[i].format,
                                    RequestFilter(requestMethod), fs[i].attr, fs[i].options))
      && (forall rec :: rec in r ==> rec.requestMethod == RequestFilter(requestMethod) && path <= rec.path)
  {
    var r := ViewRoutes(cat, action, routeName, path, requestMethod);
    forall rec | rec in r ensures rec.requestMethod == RequestFilter(requestMethod) && path <= rec.path {
      var k :| 0 <= k < |r| && r[k] == rec;
      if k > 0 {
        var f := Views(cat, action).formattedViews[k - 1];
        assert rec.path == path + "." + f.format;
      }
    }
  }

  /** 'any' means no method constraint; every other method is upper-cased. */
  lemma RequestFilterAny(requestMethod: string)
    ensures RequestFilter(requestMethod).None? <==> requestMethod == "any"
    ensures RequestFilter(requestMethod).Some? ==> IsUpper(RequestFilter(requestMethod).value)
  {
  }

  /** An upper-case verb is passed on unchanged as the view's constraint. */
  lemma RequestFilterUpper(verb: string)
    requires IsUpper(verb)
    ensures RequestFilter(verb) == Some(verb)
  {
    UpperKeepsUpper(verb);
    assert !IsUpper("any") by { assert IsLower("any"[0]); }
  }

  /** Because the verbs were upper-cased first, a member verb written 'any'
      arrives as "ANY": it elects a primary and constrains the method to "ANY". */
  lemma MemberAnyVerbElectsPrimary()
    ensures Upper("any") == "ANY"
    ensures ElectsPrimary(MemberScope, Upper("any")) && RequestFilter(Upper("any")) == Some("ANY")
  {
    assert Upper("any") == "ANY";
    UpperKeepsUpper("ANY");
  }

  /** Non-primary actions are registered without a method constraint. */
  lemma {:induction false} ActionRoutesUnconstrained(cat: ActionCatalog, l: Layout, scope: Scope, actions: seq<string>)
    ensures forall r :: r in ActionRoutes(cat, l, scope, actions) ==> r.requestMethod.None?
  {
    if actions != [] {
      var a := actions[|actions| - 1];
      ActionRoutesUnconstrained(cat, l, scope, actions[..|actions| - 1]);
      FormattedSiblings(cat, a, l.namePrefix + a + "_" + ScopeName(l, scope), ScopePath(l, scope) + "/" + a, "any");
    }
  }

  /** Every non-primary action gets its route "<prefix><action>_<scope name>"
      at "<scope path>/<action>". */
  lemma {:induction false} ActionRoutesCover(cat: ActionCatalog, l: Layout, scope: Scope, actions: seq<string>)
    ensures forall i :: 0 <= i < |actions| ==>
      RouteRecord(l.namePrefix + actions[i] + "_" + ScopeName(l, scope), ScopePath(l, scope) + "/" + actions[i],
                  None, actions[i], Views(cat, actions[i]).defaultView.GetOr([]))
        in ActionRoutes(cat, l, scope, actions)
  {
    if actions != [] {
      var init := actions[..|actions| - 1];
      ActionRoutesCover(cat, l, scope, init);
      forall i | 0 <= i < |actions|
        ensures RouteRecord(l.namePrefix + actions[i] + "_" + ScopeName(l, scope), ScopePath(l, scope) + "/" + actions[i],
                            None, actions[i], Views(cat, actions[i]).defaultView.GetOr([]))
                  in ActionRoutes(cat, l, scope, actions)
      {
        if i < |init| {
          assert init[i] == actions[i];
        } else {
          var a := actions[i];
          var v := ViewRoutes(cat, a, l.namePrefix + a + "_" + ScopeName(l, scope), ScopePath(l, scope) + "/" + a, "any");
          assert v[0] in v;
        }
      }
    }
  }

  /** The election rule: a verb that elects a primary emits its other
      actions first and then its first action at the bare scope path under
      that verb; one that does not (GET at collection scope; POST, GET and
      'any' at member scope) emits all its actions as non-primary routes. */
  lemma PrimaryElection(cat: ActionCatalog, l: Layout, scope: Scope, verb: string, actions: seq<string>)
    ensures !ElectsPrimary(scope, verb) ==> VerbRoutes(cat, l, scope, verb, actions) == ActionRoutes(cat, l, scope, actions)
    ensures ElectsPrimary(scope, verb) && actions != [] && actions[0] != "" ==>
      VerbRoutes(cat, l, scope, verb, actions) == ActionRoutes(cat, l, scope, actions[1..])
        + ViewRoutes(cat, actions[0], l.namePrefix + ScopeName(l, scope), ScopePath(l, scope), verb)
    ensures scope == CollectionScope ==> (ElectsPrimary(scope, verb) <==> verb != "GET")
    ensures scope == MemberScope ==> (ElectsPrimary(scope, verb) <==> verb !in {"POST", "GET", "any"})
  {
    if !ElectsPrimary(scope, verb) {
      assert VerbRoutes(cat, l, scope, verb, actions) == ActionRoutes(cat, l, scope, actions) + [];
    }
  }

  lemma {:induction false} ActionRoutesUnder(cat: ActionCatalog, l: Layout, scope: Scope, actions: seq<string>)
    ensures forall r :: r in ActionRoutes(cat, l, scope, actions) ==> ScopePath(l, scope) <= r.path
  {
    if actions != [] {
      var a := actions[|actions| - 1];
      ActionRoutesUnder(cat, l, scope, actions[..|actions| - 1]);
      FormattedSiblings(cat, a, l.namePrefix + a + "_" + ScopeName(l, scope), ScopePath(l, scope) + "/" + a, "any");
    }
  }

  /** Every route of a scope lies under that scope's path. */
  lemma {:induction false} ScopeRoutesUnder(cat: ActionCatalog, l: Layout, scope: Scope, table: VerbTable)
    ensures forall r :: r in ScopeRoutes(cat, l, scope, table) ==> ScopePath(l, scope) <= r.path
  {
    if table != [] {
      var (verb, actions) := table[|table| - 1];
      ScopeRoutesUnder(cat, l, scope, table[..|table| - 1]);
      var pops := ElectsPrimary(scope, verb) && actions != [];
      ActionRoutesUnder(cat, l, scope, if pops then actions[1..] else actions);
      if pops && actions[0] != "" {
        FormattedSiblings(cat, actions[0], l.namePrefix + ScopeName(l, scope), ScopePath(l, scope), verb);
      }
    }
  }

  lemma {:induction false} NewVerbRoutesUnder(cat: ActionCatalog, l: Layout, verb: string, actions: seq<string>)
    ensures forall r :: r in NewVerbRoutes(cat, l, verb, actions) ==> l.newPath <= r.path
  {
    if actions != [] {
      var a := actions[|actions| - 1];
      NewVerbRoutesUnder(cat, l, verb, actions[..|actions| - 1]);
      FormattedSiblings(cat, a, l.namePrefix + NewRouteName(a, l.memberName), NewActionPath(l.newPath, a), verb);
    }
  }

  /** Every new-scope route lies under the new path. */
  lemma {:induction false} NewRoutesUnder(cat: ActionCatalog, l: Layout, table: VerbTable)
    ensures forall r :: r in NewRoutes(cat, l, table) ==> l.newPath <= r.path
  {
    if table != [] {
      NewRoutesUnder(cat, l, table[..|table| - 1]);
      NewVerbRoutesUnder(cat, l, table[|table| - 1].0, table[|table| - 1].1);
    }
  }

  /** A verb electing a primary registers its first action at the bare scope
      path, named "<prefix><scope name>", under that verb. */
  lemma PrimaryRecord(cat: ActionCatalog, l: Layout, scope: Scope, verb: string, actions: seq<string>)
    requires ElectsPrimary(scope, verb) && actions != [] && actions[0] != ""
    ensures RouteRecord(l.namePrefix + ScopeName(l, scope), ScopePath(l, scope), RequestFilter(verb),
                        actions[0], Views(cat, actions[0]).defaultView.GetOr([]))
              in VerbRoutes(cat, l, scope, verb, actions)
  {
    var v := ViewRoutes(cat, actions[0], l.namePrefix + ScopeName(l, scope), ScopePath(l, scope), verb);
    assert v[0] in v;
  }

  /** A verb electing no primary registers each of its actions as a non-primary route. */
  lemma NonPrimaryRecord(cat: ActionCatalog, l: Layout, scope: Scope, verb: string, actions: seq<string>, a: string)
    requires !ElectsPrimary(scope, verb) && a in actions
    ensures RouteRecord(l.namePrefix + a + "_" + ScopeName(l, scope), ScopePath(l, scope) + "/" + a,
                        None, a, Views(cat, a).defaultView.GetOr([]))
              in VerbRoutes(cat, l, scope, verb, actions)
  {
    ActionRoutesCover(cat, l, scope, actions);
    var i :| 0 <= i < |actions| && actions[i] == a;
  }

  /** Every record of a verb of the table is a record of the scope. */
  lemma {:induction false} ScopeRoutesInclude(cat: ActionCatalog, l: Layout, scope: Scope, table: VerbTable,
                                              verb: string, actions: seq<string>)
    requires (verb, actions) in table
    ensures forall r :: r in VerbRoutes(cat, l, scope, verb, actions) ==> r in ScopeRoutes(cat, l, scope, table)
  {
    var init := table[..|table| - 1];
    if table[|table| - 1] != (verb, actions) {
      assert table == init + [table[|table| - 1]];
      ScopeRoutesInclude(cat, l, scope, init, verb, actions);
    }
  }

  /** Each new-scope action of a verb is registered under that verb. */
  lemma {:induction false} NewVerbRoutesCover(cat: ActionCatalog, l: Layout, verb: string, actions: seq<string>)
    ensures forall i :: 0 <= i < |actions| ==>
      RouteRecord(l.namePrefix + NewRouteName(actions[i], l.memberName), NewActionPath(l.newPath, actions[i]),
                  RequestFilter(verb), actions[i], Views(cat, actions[i]).defaultView.GetOr([]))
        in NewVerbRoutes(cat, l, verb, actions)
  {
    if actions != [] {
      var init := actions[..|actions| - 1];
      NewVerbRoutesCover(cat, l, verb, init);
      forall i | 0 <= i < |actions|
        ensures RouteRecord(l.namePrefix + NewRouteName(actions[i], l.memberName), NewActionPath(l.newPath, actions[i]),
                            RequestFilter(verb), actions[i], Views(cat, actions[i]).defaultView.GetOr([]))
                  in NewVerbRoutes(cat, l, verb, actions)
      {
        if i < |init| {
          assert init[i] == actions[i];
        } else {
          var a := actions[i];
          var v := ViewRoutes(cat, a, l.namePrefix + NewRouteName(a, l.memberName), NewActionPath(l.newPath, a), verb);
          assert v[0] in v;
        }
      }
    }
  }

  /** Every record of a verb of the new table is a record of the new scope. */
  lemma {:induction false} NewRoutesInclude(cat: ActionCatalog, l: Layout, table: VerbTable, verb: string, actions: seq<string>)
    requires (verb, actions) in table
    ensures forall r :: r in NewVerbRoutes(cat, l, verb, actions) ==> r in NewRoutes(cat, l, table)
  {
    var init := table[..|table| - 1];
    if table[|table| - 1] != (verb, actions) {
      assert table == init + [table[|table| - 1]];
      NewRoutesInclude(cat, l, init, verb, actions);
    }
  }

  /** A new action other than `new` listed under an upper-case verb gets
      "<prefix><action>_new_<member>" at "<new path>/<action>" under that verb. */
  lemma NewActionRecord(cat: ActionCatalog, l: Layout, table: VerbTable, verb: string, actions: seq<string>, a: string)
    requires (verb, actions) in table && a in actions && a != "new" && IsUpper(verb)
    ensures RouteRecord(l.namePrefix + (a + "_new_" + l.memberName), l.newPath + "/" + a, Some(verb), a,
                        Views(cat, a).defaultView.GetOr([])) in NewRoutes(cat, l, table)
  {
    RequestFilterUpper(verb);
    NewVerbRoutesCover(cat, l, verb, actions);
    NewRoutesInclude(cat, l, table, verb, actions);
    var i :| 0 <= i < |actions| && actions[i] == a;
  }

  /** The first action of an entry electing a primary is listed at the bare
      scope path, constrained to its upper-case verb. */
  lemma PrimaryScopeRecord(cat: ActionCatalog, l: Layout, scope: Scope, table: VerbTable, verb: string, actions: seq<string>)
    requires (verb, actions) in table && ElectsPrimary(scope, verb) && IsUpper(verb)
    requires actions != [] && actions[0] != ""
    ensures RouteRecord(l.namePrefix + ScopeName(l, scope), ScopePath(l, scope), Some(verb),
                        actions[0], Views(cat, actions[0]).defaultView.GetOr([])) in ScopeRoutes(cat, l, scope, table)
  {
    RequestFilterUpper(verb);
    PrimaryRecord(cat, l, scope, verb, actions);
    ScopeRoutesInclude(cat, l, scope, table, verb, actions);
  }

  /** A collection action under GET is listed without a method constraint. */
  lemma CollectionActionRecord(cat: ActionCatalog, l: Layout, table: VerbTable, actions: seq<string>, a: string)
    requires ("GET", actions) in table && a in actions
    ensures RouteRecord(l.namePrefix + a + "_" + l.collectionName, l.collectionPath + "/" + a, None, a,
                        Views(cat, a).defaultView.GetOr([])) in ScopeRoutes(cat, l, CollectionScope, table)
  {
    NonPrimaryRecord(cat, l, CollectionScope, "GET", actions, a);
    ScopeRoutesInclude(cat, l, CollectionScope, table, "GET", actions);
  }

  /** `new` under GET is listed at the new path itself. */
  lemma NewNewRecord(cat: ActionCatalog, l: Layout, table: VerbTable, actions: seq<string>)
    requires ("GET", actions) in table && "new" in actions
    ensures RouteRecord(l.namePrefix + ("new_" + l.memberName), l.newPath, Some("GET"), "new",
                        Views(cat, "new").defaultView.GetOr([])) in NewRoutes(cat, l, table)
  {
    UpperVerbs();
    RequestFilterUpper("GET");
    NewVerbRoutesCover(cat, l, "GET", actions);
    NewRoutesInclude(cat, l, table, "GET", actions);
    var i :| 0 <= i < |actions| && actions[i] == "new";
  }

  /** A member action under GET or POST is listed without a method constraint. */
  lemma MemberActionRecord(cat: ActionCatalog, l: Layout, table: VerbTable, verb: string, actions: seq<string>, a: string)
    requires (verb, actions) in table && a in actions && (verb == "GET" || verb == "POST")
    ensures RouteRecord(l.namePrefix + a + "_" + l.memberName, l.memberPath + "/" + a, None, a,
                        Views(cat, a).defaultView.GetOr([])) in ScopeRoutes(cat, l, MemberScope, table)
  {
    NonPrimaryRecord(cat, l, MemberScope, verb, actions, a);
    ScopeRoutesInclude(cat, l, MemberScope, table, verb, actions);
  }

  /** Every record of a non-primary action's call, its formatted siblings
      included, is among the scope's non-primary records. */
  lemma {:induction false} ActionViewsIncluded(cat: ActionCatalog, l: Layout, scope: Scope, actions: seq<string>, a: string)
    requires a in actions
    ensures forall r :: r in ViewRoutes(cat, a, l.namePrefix + a + "_" + ScopeName(l, scope), ScopePath(l, scope) + "/" + a, "any")
                     ==> r in ActionRoutes(cat, l, scope, actions)
  {
    var init := actions[..|actions| - 1];
    if actions[|actions| - 1] != a {
      assert actions == init + [actions[|actions| - 1]];
      ActionViewsIncluded(cat, l, scope, init, a);
    }
  }

  /** Every record of a new action's call is among the records of its verb. */
  lemma {:induction false} NewVerbViewsIncluded(cat: ActionCatalog, l: Layout, verb: string, actions: seq<string>, a: string)
    requires a in actions
    ensures forall r :: r in ViewRoutes(cat, a, l.namePrefix + NewRouteName(a, l.memberName), NewActionPath(l.newPath, a), verb)
                     ==> r in NewVerbRoutes(cat, l, verb, actions)
  {
    var init := actions[..|actions| - 1];
    if actions[|actions| - 1] != a {
      assert actions == init + [actions[|actions| - 1]];
      NewVerbViewsIncluded(cat, l, verb, init, a);
    }
  }

  /** The whole call of a member action under GET or POST, siblings included,
      is among the member records. */
  lemma MemberActionViews(cat: ActionCatalog, l: Layout, table: VerbTable, verb: string, actions: seq<string>, a: string)
    requires (verb, actions) in table && a in actions && (verb == "GET" || verb == "POST")
    ensures forall r :: r in ViewRoutes(cat, a, l.namePrefix + a + "_" + l.memberName, l.memberPath + "/" + a, "any")
                     ==> r in ScopeRoutes(cat, l, MemberScope, table)
  {
    ActionViewsIncluded(cat, l, MemberScope, actions, a);
    ScopeRoutesInclude(cat, l, MemberScope, table, verb, actions);
  }

  /** The whole call of a listed new action, siblings included, is among the new records. */
  lemma NewActionViews(cat: ActionCatalog, l: Layout, table: VerbTable, verb: string, actions: seq<string>, a: string)
    requires (verb, actions) in table && a in actions
    ensures forall r :: r in ViewRoutes(cat, a, l.namePrefix + NewRouteName(a, l.memberName), NewActionPath(l.newPath, a), verb)
                     ==> r in NewRoutes(cat, l, table)
  {
    NewVerbViewsIncluded(cat, l, verb, actions, a);
    NewRoutesInclude(cat, l, table, verb, actions);
  }

  // ----- One step of each fold -----

  lemma ActionRoutesStep(cat: ActionCatalog, l: Layout, scope: Scope, actions: seq<string>, j: nat)
    requires j < |actions|
    ensures ActionRoutes(cat, l, scope, actions[..j + 1]) == ActionRoutes(cat, l, scope, actions[..j])
      + ViewRoutes(cat, actions[j], l.namePrefix + actions[j] + "_" + ScopeName(l, scope), ScopePath(l, scope) + "/" + actions[j], "any")
  {
    assert actions[..j + 1][..j] == actions[..j];
  }

  lemma ScopeRoutesStep(cat: ActionCatalog, l: Layout, scope: Scope, table: VerbTable, i: nat)
    requires i < |table|
    ensures ScopeRoutes(cat, l, scope, table[..i + 1]) == ScopeRoutes(cat, l, scope, table[..i]) + VerbRoutes(cat, l, scope, table[i].0, table[i].1)
  {
    assert table[..i + 1][..i] == table[..i];
  }

  lemma NewVerbRoutesStep(cat: ActionCatalog, l: Layout, verb: string, actions: seq<string>, j: nat)
    requires j < |actions|
    ensures NewVerbRoutes(cat, l, verb, actions[..j + 1]) == NewVerbRoutes(cat, l, verb, actions[..j])
      + ViewRoutes(cat, actions[j], l.namePrefix + NewRouteName(actions[j], l.memberName), NewActionPath(l.newPath, actions[j]), verb)
  {
    assert actions[..j + 1][..j] == actions[..j];
  }

  lemma NewRoutesStep(cat: ActionCatalog, l: Layout, table: VerbTable, i: nat)
    requires i < |table|
    ensures NewRoutes(cat, l, table[..i + 1]) == NewRoutes(cat, l, table[..i]) + NewVerbRoutes(cat, l, table[i].0, table[i].1)
  {
    assert table[..i + 1][..i] == table[..i];
  }

  // ----- The emission code -----

  /** `add_route_and_view`: the records it registers. */
  method AddRouteAndView(cat: ActionCatalog, action: string, routeName: string, path: string, requestMethod: string)
    returns (registered: seq<RouteRecord>)
    ensures registered == ViewRoutes(cat, action, routeName, path, requestMethod)
  {
    var filter := if requestMethod != "any" then Some(Upper(requestMethod)) else None;
    var views := if action in cat then cat[action] else ActionViews(None, []);
    var formatted := views.formattedViews;
    ghost var siblings := FormattedRoutes(formatted, routeName, path, filter);
    var first := RouteRecord(routeName, path, filter, action, views.defaultView.GetOr([]));
    registered := [first];
    for i := 0 to |formatted|
      invariant registered == [first] + siblings[..i]
    {
      var formatKwargs := formatted[i];
      var format := formatKwargs.format;
      registered := registered + [RouteRecord(format + "_formatted_" + routeName, path + "." + format,
                                              filter, formatKwargs.attr, formatKwargs.options)];
      assert siblings[..i + 1] == siblings[..i] + [siblings[i]];
    }
    assert siblings[..|formatted|] == siblings;
  }

  /** One verb of the collection or member loop: pop the primary if the
      scope elects one, emit the remaining actions, then the primary. */
  method EmitVerb(cat: ActionCatalog, l: Layout, scope: Scope, verb: string, actions: seq<string>)
    returns (out: seq<RouteRecord>)
    ensures out == VerbRoutes(cat, l, scope, verb, actions)
  {
    var lst := actions;
    var primary: Option<string> := None;
    if ElectsPrimary(scope, verb) && lst != [] {
      primary := if lst[0] != "" then Some(lst[0]) else None;
      lst := lst[1..];
    }
    out := [];
    var j := 0;
    while j < |lst|
      invariant 0 <= j <= |lst|
      invariant out == ActionRoutes(cat, l, scope, lst[..j])
    {
      ActionRoutesStep(cat, l, scope, lst, j);
      var action := lst[j];
      var rs := AddRouteAndView(cat, action, l.namePrefix + action + "_" + ScopeName(l, scope),
                                ScopePath(l, scope) + "/" + action, "any");
      out := out + rs;
      j := j + 1;
    }
    assert lst[..j] == lst;
    if primary.Some? {
      var rs := AddRouteAndView(cat, primary.value, l.namePrefix + ScopeName(l, scope), ScopePath(l, scope), verb);
      out := out + rs;
    }
  }

  /** The collection loop and the member loop, verb by verb in table order.
      Also returns the loop variable `method` as the loop leaves it. */
  method EmitScope(cat: ActionCatalog, l: Layout, scope: Scope, table: VerbTable)
    returns (out: seq<RouteRecord>, verb: string)
    ensures out == ScopeRoutes(cat, l, scope, table)
    ensures table != [] ==> verb == LastKey(table)
  {
    out := [];
    verb := "";
    var i := 0;
    while i < |table|
      invariant 0 <= i <= |table|
      invariant out == ScopeRoutes(cat, l, scope, table[..i])
      invariant i > 0 ==> verb == table[i - 1].0
    {
      ScopeRoutesStep(cat, l, scope, table, i);
      var lst: seq<string>;
      verb, lst := table[i].0, table[i].1;
      var rs := EmitVerb(cat, l, scope, verb, lst);
      out := out + rs;
      i := i + 1;
    }
    assert table[..i] == table;
  }

  /** One verb of the new loop: each action under that verb. */
  method EmitNewVerb(cat: ActionCatalog, l: Layout, verb: string, lst: seq<string>)
    returns (out: seq<RouteRecord>)
    ensures out == NewVerbRoutes(cat, l, verb, lst)
  {
    out := [];
    var j := 0;
    while j < |lst|
      invariant 0 <= j <= |lst|
      invariant out == NewVerbRoutes(cat, l, verb, lst[..j])
    {
      NewVerbRoutesStep(cat, l, verb, lst, j);
      var action := lst[j];
      var path := if action == "new" then l.newPath else l.newPath + "/" + action;
      var name := "new_" + l.memberName;
      if action != "new" {
        name := action + "_" + name;
      }
      assert name == NewRouteName(action, l.memberName) && path == NewActionPath(l.newPath, action);
      var rs := AddRouteAndView(cat, action, l.namePrefix + name, path, verb);
      out := out + rs;
      j := j + 1;
    }
    assert lst[..j] == lst;
  }

  /** The new loop, verb by verb in table order. */
  method EmitNew(cat: ActionCatalog, l: Layout, table: VerbTable) returns (out: seq<RouteRecord>)
    ensures out == NewRoutes(cat, l, table)
  {
    out := [];
    var i := 0;
    while i < |table|
      invariant 0 <= i <= |table|
      invariant out == NewRoutes(cat, l, table[..i])
    {
      NewRoutesStep(cat, l, table, i);
      var rs := EmitNewVerb(cat, l, table[i].0, table[i].1);
      out := out + rs;
      i := i + 1;
    }
    assert table[..i] == table;
  }
}
