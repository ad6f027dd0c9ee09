/** The action catalog: per action name, the view settings of its unformatted
    declaration and the ordered list of its formatted declarations. */
module Catalog {
  import opened Wrappers

  /** View keyword arguments passed through to the view registration, uninterpreted. */
  type ViewOptions = seq<(string, string)>

  /** One `@action(...)` declaration: `alt_for`, `format` and the other keywords. */
  datatype Declaration = Declaration(altFor: Option<string>, format: Option<string>, options: ViewOptions)

  /** A handler method with its declarations, in the order they were attached. */
  datatype ExposedMethod = ExposedMethod(name: string, exposed: seq<Declaration>)

  /** A formatted view: its format and the method that serves it (`attr`). */
  datatype FormattedView = FormattedView(format: string, attr: string, options: ViewOptions)

  /** The catalog entry of one action: `default` and `formatted`. */
  datatype ActionViews = ActionViews(defaultView: Option<ViewOptions>, formattedViews: seq<FormattedView>)

  type ActionCatalog = map<string, ActionViews>

  datatype ConfigError = ConfigurationError(message: string)

  const TwoDefaultsMessage := "Two methods have been decorated without specifying a format."

  /** One declaration together with the name of the method that carries it. */
  datatype Tagged = Tagged(methodName: string, decl: Declaration)

  function TagAll(m: ExposedMethod): seq<Tagged> {
    seq(|m.exposed|, j requires 0 <= j < |m.exposed| => Tagged(m.name, m.exposed[j]))
  }

  /** `action(**kw)` applied to a method: one more declaration, after those
      already attached. */
  function Expose(m: ExposedMethod, d: Declaration): ExposedMethod {
    m.(exposed := m.exposed + [d])
  }

  /** Attaching a declaration files it after the method's earlier ones, under the method's name. */
  lemma ExposeTags(m: ExposedMethod, d: Declaration)
    ensures Expose(m, d).name == m.name
    ensures TagAll(Expose(m, d)) == TagAll(m) + [Tagged(m.name, d)]
  {
  }

  /** Stacked decorators apply from the innermost out, so the declaration
      written nearest the method is filed first. */
  lemma StackedDeclarations(name: string, inner: Declaration, outer: Declaration)
    ensures TagAll(Expose(Expose(ExposedMethod(name, []), inner), outer)) == [Tagged(name, inner), Tagged(name, outer)]
  {
    ExposeTags(ExposedMethod(name, []), inner);
    ExposeTags(Expose(ExposedMethod(name, []), inner), outer);
  }

  /** Every declaration of the handler, method by method, in the order visited. */
  function Declarations(handler: seq<ExposedMethod>): seq<Tagged> {
    if handler == [] then []
    else Declarations(handler[..|handler| - 1]) + TagAll(handler[|handler| - 1])
  }

  /** The action a declaration is filed under: `alt_for`, else the method name. */
  function ActionName(t: Tagged): string {
    t.decl.altFor.GetOr(t.methodName)
  }

  predicate IsDefault(t: Tagged) {
    t.decl.format.None?
  }

  /** `action_kwargs.get(action, {})` */
  function Views(c: ActionCatalog, action: string): ActionViews {
    if action in c then c[action] else ActionViews(None, [])
  }

  /** Filing one declaration, as the body of the catalog loop does. */
  function Register(c: ActionCatalog, t: Tagged): Result<ActionCatalog, ConfigError> {
    var name := ActionName(t);
    var views := Views(c, name);
    match t.decl.format
    case None =>
      if views.defaultView.Some? then Err(ConfigurationError(TwoDefaultsMessage))
      else Ok(c[name := views.(defaultView := Some(t.decl.options))])
    case Some(f) =>
      Ok(c[name := views.(formattedViews := views.formattedViews + [FormattedView(f, t.methodName, t.decl.options)])])
  }

  /** The catalog built from a sequence of declarations, or the first conflict. */
  function CatalogOf(ds: seq<Tagged>): Result<ActionCatalog, ConfigError> {
    if ds == [] then Ok(map[])
    else
      match CatalogOf(ds[..|ds| - 1])
      case Err(e) => Err(e)
      case Ok(c) => Register(c, ds[|ds| - 1])
  }

  // ----- Reference definitions, stated over the declaration list alone -----

  /** Two unformatted declarations filed under the same action. */
  ghost predicate HasConflict(ds: seq<Tagged>) {
    exists i, j :: 0 <= i < j < |ds| && IsDefault(ds[i]) && IsDefault(ds[j]) && ActionName(ds[i]) == ActionName(ds[j])
  }

  /** The options of the first unformatted declaration filed under `action`. */
  function DefaultFor(ds: seq<Tagged>, action: string): Option<ViewOptions> {
    if ds == [] then None
    else
      var earlier := DefaultFor(ds[..|ds| - 1], action);
      var t := ds[|ds| - 1];
      if earlier.Some? then earlier
      else if IsDefault(t) && ActionName(t) == action then Some(t.decl.options)
      else None
  }

  /** The formatted declarations filed under `action`, in declaration order,
      each served by the method that carries it. */
  function FormattedFor(ds: seq<Tagged>, action: string): seq<FormattedView> {
    if ds == [] then []
    else
      var t := ds[|ds| - 1];
      FormattedFor(ds[..|ds| - 1], action)
        + if !IsDefault(t) && ActionName(t) == action
          then [FormattedView(t.decl.format.value, t.methodName, t.decl.options)] else []
  }

  ghost function ActionNames(ds: seq<Tagged>): set<string> {
    set t | t in ds :: ActionName(t)
  }

  // ----- Lemmas -----

  lemma {:induction false} DefaultForWitness(ds: seq<Tagged>, action: string)
    ensures DefaultFor(ds, action).Some? <==>
      exists i :: 0 <= i < |ds| && IsDefault(ds[i]) && ActionName(ds[i]) == action
  {
    if ds != [] {
      var init := ds[..|ds| - 1];
      DefaultForWitness(init, action);
      if DefaultFor(ds, action).Some? {
        if DefaultFor(init, action).Some? {
          var i :| 0 <= i < |init| && IsDefault(init[i]) && ActionName(init[i]) == action;
          assert ds[i] == init[i];
        } else {
          assert IsDefault(ds[|ds| - 1]) && ActionName(ds[|ds| - 1]) == action;
        }
      } else {
        forall i | 0 <= i < |ds| && IsDefault(ds[i])
          ensures ActionName(ds[i]) != action
        {
          if i < |init| { assert init[i] == ds[i]; }
        }
      }
    }
  }

  /** What the catalog says about every action, stated over the declarations. */
  ghost predicate Describes(c: ActionCatalog, ds: seq<Tagged>) {
    && c.Keys == ActionNames(ds)
    && forall action :: Views(c, action) == ActionViews(DefaultFor(ds, action), FormattedFor(ds, action))
  }

  /** Filing one more declaration into a catalog that describes the earlier
      ones fails exactly on a second unformatted declaration of its action,
      and otherwise describes them all. */
  lemma RegisterStep(c: ActionCatalog, init: seq<Tagged>, t: Tagged)
    requires Describes(c, init)
    ensures Register(c, t).Err? <==> IsDefault(t) && DefaultFor(init, ActionName(t)).Some?
    ensures Register(c, t).Ok? ==> Describes(Register(c, t).value, init + [t])
  {
    var name := ActionName(t);
    assert Views(c, name) == ActionViews(DefaultFor(init, name), FormattedFor(init, name));
    if Register(c, t).Ok? {
      RegisterKeys(c, init, t);
      forall action
        ensures Views(Register(c, t).value, action) == ActionViews(DefaultFor(init + [t], action), FormattedFor(init + [t], action))
      {
        RegisterViews(c, init, t, action);
      }
    }
  }

  lemma RegisterKeys(c: ActionCatalog, init: seq<Tagged>, t: Tagged)
    requires c.Keys == ActionNames(init) && Register(c, t).Ok?
    ensures Register(c, t).value.Keys == ActionNames(init + [t])
  {
    var ds := init + [t];
    assert ActionNames(ds) == ActionNames(init) + {ActionName(t)} by {
      forall x | x in ds ensures x in init || x == t { }
    }
  }

  lemma RegisterViews(c: ActionCatalog, init: seq<Tagged>, t: Tagged, action: string)
    requires Describes(c, init) && Register(c, t).Ok?
    ensures Views(Register(c, t).value, action) == ActionViews(DefaultFor(init + [t], action), FormattedFor(init + [t], action))
  {
    var ds := init + [t];
    assert ds[..|ds| - 1] == init;
    assert Views(c, action) == ActionViews(DefaultFor(init, action), FormattedFor(init, action));
    assert Views(c, ActionName(t)) == ActionViews(DefaultFor(init, ActionName(t)), FormattedFor(init, ActionName(t)));
  }

  /** The catalog is built exactly when no two unformatted declarations share
      an action name, and the only error is the "two methods" one. A built
      catalog files every declaration: unformatted ones give the action's
      `default` settings (without `alt_for`); formatted ones are appended in
      order, each with the carrying method as `attr`. */
  lemma {:induction false} CatalogContents(ds: seq<Tagged>)
    ensures CatalogOf(ds).Ok? <==> !HasConflict(ds)
    ensures CatalogOf(ds).Err? ==> CatalogOf(ds).error == ConfigurationError(TwoDefaultsMessage)
    ensures CatalogOf(ds).Ok? ==> Describes(CatalogOf(ds).value, ds)
  {
    if ds == [] {
      return;
    }
    var init := ds[..|ds| - 1];
    var t := ds[|ds| - 1];
    assert ds == init + [t];
    CatalogContents(init);
    ConflictStep(init, t);
    if CatalogOf(init).Ok? {
      RegisterStep(CatalogOf(init).value, init, t);
    }
  }

  /** One more declaration conflicts with the earlier ones exactly when it is
      unformatted and its action already has an unformatted declaration. */
  lemma ConflictStep(init: seq<Tagged>, t: Tagged)
    ensures HasConflict(init + [t]) <==>
      HasConflict(init) || (IsDefault(t) && DefaultFor(init, ActionName(t)).Some?)
  {
    var ds := init + [t];
    DefaultForWitness(init, ActionName(t));
    if HasConflict(ds) && !HasConflict(init) {
      var i, j :| 0 <= i < j < |ds| && IsDefault(ds[i]) && IsDefault(ds[j]) && ActionName(ds[i]) == ActionName(ds[j]);
      if j < |init| {
        assert init[i] == ds[i] && init[j] == ds[j];
      } else {
        assert init[i] == ds[i];
      }
    }
    if HasConflict(init) {
      var i, j :| 0 <= i < j < |init| && IsDefault(init[i]) && IsDefault(init[j]) && ActionName(init[i]) == ActionName(init[j]);
      assert ds[i] == init[i] && ds[j] == init[j];
    }
    if IsDefault(t) && DefaultFor(init, ActionName(t)).Some? {
      var i :| 0 <= i < |init| && IsDefault(init[i]) && ActionName(init[i]) == ActionName(t);
      assert ds[i] == init[i] && ds[|ds| - 1] == t;
    }
  }

  /** One more method adds its declarations after the earlier ones. */
  lemma DeclarationsAppend(h: seq<ExposedMethod>, m: ExposedMethod)
    ensures Declarations(h + [m]) == Declarations(h) + TagAll(m)
  {
    assert (h + [m])[..|h|] == h;
  }

  /** The formatted views of an action, over two runs of declarations. */
  lemma {:induction false} FormattedForAppend(ds: seq<Tagged>, es: seq<Tagged>, action: string)
    ensures FormattedFor(ds + es, action) == FormattedFor(ds, action) + FormattedFor(es, action)
  {
    if es != [] {
      var init := es[..|es| - 1];
      assert (ds + es)[..|ds + es| - 1] == ds + init;
      FormattedForAppend(ds, init, action);
    } else {
      assert ds + es == ds;
    }
  }

  /** The actions of the unformatted declarations, in order. */
  function DefaultNames(ds: seq<Tagged>): seq<string> {
    if ds == [] then []
    else DefaultNames(ds[..|ds| - 1]) + if IsDefault(ds[|ds| - 1]) then [ActionName(ds[|ds| - 1])] else []
  }

  lemma {:induction false} DefaultNamesAppend(ds: seq<Tagged>, es: seq<Tagged>)
    ensures DefaultNames(ds + es) == DefaultNames(ds) + DefaultNames(es)
  {
    if es != [] {
      var init := es[..|es| - 1];
      assert (ds + es)[..|ds + es| - 1] == ds + init;
      DefaultNamesAppend(ds, init);
    } else {
      assert ds + es == ds;
    }
  }

  lemma {:induction false} DefaultNamesCover(ds: seq<Tagged>, i: nat)
    requires i < |ds| && IsDefault(ds[i])
    ensures ActionName(ds[i]) in DefaultNames(ds)
  {
    var init := ds[..|ds| - 1];
    if i < |init| {
      assert init[i] == ds[i];
      DefaultNamesCover(init, i);
    }
  }

  predicate DistinctNames(s: seq<string>) {
    forall i, j :: 0 <= i < j < |s| ==> s[i] != s[j]
  }

  /** Declarations whose unformatted ones name distinct actions do not conflict. */
  lemma {:induction false} DistinctDefaultsNoConflict(ds: seq<Tagged>)
    requires DistinctNames(DefaultNames(ds))
    ensures !HasConflict(ds)
  {
    if ds != [] {
      var init := ds[..|ds| - 1];
      var t := ds[|ds| - 1];
      assert ds == init + [t];
      var names := DefaultNames(init);
      assert DefaultNames(ds) == names + if IsDefault(t) then [ActionName(t)] else [];
      assert DistinctNames(names) by {
        forall i, j | 0 <= i < j < |names| ensures names[i] != names[j] {
          assert DefaultNames(ds)[i] == names[i] && DefaultNames(ds)[j] == names[j];
        }
      }
      DistinctDefaultsNoConflict(init);
      ConflictStep(init, t);
      DefaultForNamed(init, ActionName(t));
      if IsDefault(t) {
        forall k | 0 <= k < |names| ensures names[k] != ActionName(t) {
          assert DefaultNames(ds)[k] == names[k] && DefaultNames(ds)[|names|] == ActionName(t);
        }
      }
    }
  }

  /** An action with a default view is among the default names. */
  lemma DefaultForNamed(ds: seq<Tagged>, action: string)
    ensures DefaultFor(ds, action).Some? ==> action in DefaultNames(ds)
  {
    DefaultForWitness(ds, action);
    if DefaultFor(ds, action).Some? {
      var i :| 0 <= i < |ds| && IsDefault(ds[i]) && ActionName(ds[i]) == action;
      DefaultNamesCover(ds, i);
    }
  }

  /** Once a prefix of the declarations conflicts, so does every extension,
      with the same error. */
  lemma {:induction false} CatalogErrorPersists(ds: seq<Tagged>, es: seq<Tagged>)
    requires ds <= es && CatalogOf(ds).Err?
    ensures CatalogOf(es) == CatalogOf(ds)
  {
    if |es| > |ds| {
      var init := es[..|es| - 1];
      assert ds <= init;
      CatalogErrorPersists(ds, init);
    } else {
      assert ds == es;
    }
  }

  lemma {:induction false} DeclarationsPrefix(handler: seq<ExposedMethod>, i: nat)
    requires i <= |handler|
    ensures Declarations(handler[..i]) <= Declarations(handler)
  {
    if i < |handler| {
      var init := handler[..|handler| - 1];
      assert handler[..i] == init[..i];
      DeclarationsPrefix(init, i);
    } else {
      assert handler[..i] == handler;
    }
  }

  /** A conflict met while filing declaration `j` of method `i` decides the
      outcome for the whole handler. */
  lemma ConflictDecides(handler: seq<ExposedMethod>, i: nat, j: nat)
    requires i < |handler| && j < |handler[i].exposed|
    requires CatalogOf(Declarations(handler[..i]) + TagAll(handler[i])[..j + 1]).Err?
    ensures CatalogOf(Declarations(handler)) == CatalogOf(Declarations(handler[..i]) + TagAll(handler[i])[..j + 1])
  {
    var next := Declarations(handler[..i]) + TagAll(handler[i])[..j + 1];
    assert handler[..i + 1][..i] == handler[..i];
    assert next <= Declarations(handler[..i + 1]);
    DeclarationsPrefix(handler, i + 1);
    CatalogErrorPersists(next, Declarations(handler));
  }

  lemma NextDeclaration(done: seq<Tagged>, meth: ExposedMethod, j: nat, c: ActionCatalog)
    requires j < |meth.exposed| && CatalogOf(done + TagAll(meth)[..j]) == Ok(c)
    ensures CatalogOf(done + TagAll(meth)[..j + 1]) == Register(c, Tagged(meth.name, meth.exposed[j]))
  {
    var next := done + TagAll(meth)[..j + 1];
    assert next[..|next| - 1] == done + TagAll(meth)[..j];
  }

  /** The catalog loop: visits the handler's methods and, within each, its
      declarations in order, filing them into `actionKwargs`; stops at the
      first second unformatted declaration of an action. */
  method BuildCatalog(handler: seq<ExposedMethod>) returns (r: Result<ActionCatalog, ConfigError>)
    ensures r == CatalogOf(Declarations(handler))
  {
    var actionKwargs: ActionCatalog := map[];
    var i := 0;
    while i < |handler|
      invariant 0 <= i <= |handler|
      invariant CatalogOf(Declarations(handler[..i])) == Ok(actionKwargs)
    {
      var meth := handler[i];
      ghost var done := Declarations(handler[..i]);
      var j := 0;
      assert done + TagAll(meth)[..0] == done;
      while j < |meth.exposed|
        invariant 0 <= j <= |meth.exposed|
        invariant CatalogOf(done + TagAll(meth)[..j]) == Ok(actionKwargs)
      {
        ghost var before := actionKwargs;
        NextDeclaration(done, meth, j, actionKwargs);
        var settings := meth.exposed[j];
        var actionName := settings.altFor.GetOr(meth.name);
        var views := if actionName in actionKwargs then actionKwargs[actionName] else ActionViews(None, []);
        if settings.format.None? {
          if views.defaultView.Some? {
            ConflictDecides(handler, i, j);
            return Err(ConfigurationError(TwoDefaultsMessage));
          }
          actionKwargs := actionKwargs[actionName := views.(defaultView := Some(settings.options))];
        } else {
          var formatted := views.formattedViews + [FormattedView(settings.format.value, meth.name, settings.options)];
          actionKwargs := actionKwargs[actionName := views.(formattedViews := formatted)];
        }
        assert Register(before, Tagged(meth.name, meth.exposed[j])) == Ok(actionKwargs);
        j := j + 1;
      }
      assert handler[..i + 1][..i] == handler[..i];
      assert TagAll(meth)[..j] == TagAll(meth);
      i := i + 1;
    }
    assert handler[..i] == handler;
    r := Ok(actionKwargs);
  }
}
