# pyramid_routehelper route generation, modelled in Dafny

`pyramid_routehelper` adds Rails-style resource routing to Pyramid. Its
`add_resource(handler, member_name, collection_name, **options)` method does
two things:

1. It reads the `@action(...)` declarations on the handler's methods into an
   action catalog. For each action this holds one unformatted default view and
   an ordered list of formatted views.
2. It emits the resource's named routes in a fixed order, each with a view
   bound to it:
   - the collection verbs;
   - `index`;
   - the `new` verbs;
   - the member verbs;
   - finally `show`.

   Each route also gets a `<format>_formatted_<name>` sibling at
   `<path>.<format>` for every formatted view of its action.

This project models that core:

- the slash stripping (`Text`);
- the prefix and path derivation (`Paths`);
- the `action` decorator and the catalog loop (`Catalog`);
- the verb tables built by the defaults and by `swap` (`Verbs`);
- the emission code, `add_route_and_view` and its loops (`Routes`);
- `add_resource` as a whole (`Resource`).

`Scenarios` works out the resources that the library's tests and the
examples of the `add_resource` docstring configure. Where the docstring names
a route differently from the code (`rss_message` for the `rss_messages` the
code builds), the model follows the code.

Python dicts are modelled as insertion-ordered sequences of key/value pairs.
Assigning to an existing key keeps its position; assigning to a new key
appends it. Each emission loop is a method proved equal to a reference
function over these sequences, for example `Routes.EmitScope` against
`Routes.ScopeRoutes`. `Resource.AddResource` walks through `add_resource`
in the source's order. It is proved equal to `Resource.ResourceRoutes`, which
is one of two outcomes:

- the catalog's configuration error;
- the list of `RouteRecord(name, path, requestMethod, attr, viewOptions)`
  values handed to the host's route and view registration.

`requestMethod` is `None` when the view has no request-method constraint.

The points below are behaviours of the code itself, and the model reproduces
each one:

- An unformatted route and view are always registered for every action the
  loops visit. If the action has no unformatted declaration, its view
  settings are empty.
- `create`, `update` and `delete` are always inserted first under POST, PUT
  and DELETE, even when the caller already bound other actions to those
  verbs.
- Non-primary actions are registered with `request_method='any'`, that is,
  with no method constraint. This is the case for every GET collection action
  and every GET or POST member action.
- Route names are not unique. `create` and `index` are both named
  `<prefix><collection>`, and `update`, `delete` and `show` are all named
  `<prefix><member>`.
- The member loop's test against `'any'` (`__init__.py:269`) can never
  succeed. The verbs were upper-cased by `swap`, so a member action declared
  with `'any'` arrives as `ANY`. It then elects a primary with method `ANY`
  (`Routes.MemberAnyVerbElectsPrimary`).
- `show` takes the request method of the member verb visited last
  (`__init__.py:279`). Under insertion order, for a resource without custom
  DELETE member actions, that verb is DELETE (`Resource.ShowRoute`,
  `Scenarios.MinimalResource`).
- The docstring says `collection={'rss':'GET'}` adds a route named
  `rss_message`. The code builds `<prefix><action>_<collection>`, which is
  `rss_messages`, and the model follows the code.

## Model

| member | source | states |
|---|---|---|
| Text.StripSlashes | pyramid_routehelper/__init__.py:9-15 | removes at most one leading and one trailing '/'. The exact length is fixed in every case: one shorter for a leading slash alone or a trailing slash alone, two shorter when both ends of a name of length two or more carry one, and a lone '/' becomes empty. The kept characters are the original ones, shifted by the leading slash. A name without slashes is unchanged. |
| Text.StripSlashesIgnoresTrailingSlash | pyramid_routehelper/__init__.py:13-14 | a trailing '/' added to a name that had none is stripped again |
| Text.StripSlashesIgnoresLeadingSlash | pyramid_routehelper/__init__.py:11-12 | a leading '/' added to a name that had none is stripped again |
| Text.Upper | pyramid_routehelper/__init__.py:209 | `upper()`: same length, every lower-case ASCII letter replaced by its upper-case counterpart (32 code points lower), every other character unchanged, so no lower-case letter remains |
| Text.UpperKeepsUpper | pyramid_routehelper/__init__.py:209 | upper-casing an upper-case verb changes nothing |
| Paths.PathPrefix | pyramid_routehelper/__init__.py:196-203 | definition: the caller's `path_prefix` when given, else "<parent collection>/:<parent member>_id" under a parent, else empty. `Resource.DefaultPrefixes` computes it and `Scenarios.ParentLayouts` works it out. |
| Paths.NamePrefix | pyramid_routehelper/__init__.py:196-203 | definition: the caller's `name_prefix` when given, else "<parent member>_" under a parent, else empty |
| Paths.CollectionPath | pyramid_routehelper/__init__.py:220-228 | definition of `collection_path`; its two shapes are stated by `Paths.CollectionPathShape` |
| Paths.NewPath | pyramid_routehelper/__init__.py:229 | definition: the collection path followed by "/new" |
| Paths.MemberPath | pyramid_routehelper/__init__.py:230 | definition: the collection path followed by "/:id" |
| Paths.CollectionPathShape | pyramid_routehelper/__init__.py:221-228 | the collection path is "/" + stripped collection name when the stripped prefix is empty, otherwise "/" + stripped prefix + "/" + stripped name |
| Paths.PrefixSlashesIrrelevant | pyramid_routehelper/__init__.py:221-227 | a prefix written with a leading slash, a trailing slash, both or neither gives the same collection path |
| Catalog.ExposeTags | pyramid_routehelper/__init__.py:35-40 | decorating a method files the new declaration after its earlier ones, under the method's name |
| Catalog.StackedDeclarations | pyramid_routehelper/__init__.py:35-40 | with stacked decorators, the one written nearest the method is filed first |
| Catalog.Expose | pyramid_routehelper/__init__.py:35-40 | definition of one `action(**kw)` application; `Catalog.ExposeTags` states its effect |
| Catalog.TagAll | pyramid_routehelper/__init__.py:172-174 | definition: each entry of a method's `__exposed__`, paired with the method's name, in order; `Catalog.ExposeTags` states it |
| Catalog.Declarations | pyramid_routehelper/__init__.py:172-174 | definition: the tagged declarations of every method, method by method; `Catalog.DeclarationsPrefix` and `Catalog.DeclarationsAppend` state it |
| Catalog.DefaultForWitness | pyramid_routehelper/__init__.py:179-183 | an action has a default view exactly when some unformatted declaration is filed under it |
| Catalog.Register | pyramid_routehelper/__init__.py:175-187 | definition of one pass of the catalog loop's body; `Catalog.RegisterStep` states what it keeps |
| Catalog.CatalogOf | pyramid_routehelper/__init__.py:171-187 | definition of the catalog loop as a fold; `Catalog.CatalogContents` relates it to the declaration list |
| Catalog.RegisterStep | pyramid_routehelper/__init__.py:175-187 | filing one declaration fails exactly on a second unformatted one for its action. Otherwise the catalog still describes every declaration filed so far. |
| Catalog.ConflictStep | pyramid_routehelper/__init__.py:179-181 | one more declaration makes the list conflict exactly when the earlier ones did or it is a second unformatted declaration of its action |
| Catalog.CatalogContents | pyramid_routehelper/__init__.py:171-187 | the catalog is built exactly when no two unformatted declarations share an action name, and the only error is "Two methods have been decorated without specifying a format.". A built catalog holds, for every action, the settings of its unformatted declaration (without `alt_for`). It also holds that action's formatted declarations in order, each with the declaring method as `attr`. Its keys are exactly the declared action names. |
| Catalog.CatalogErrorPersists | pyramid_routehelper/__init__.py:180-181 | once a prefix of the declarations fails, every extension fails with the same error |
| Catalog.DeclarationsPrefix | pyramid_routehelper/__init__.py:172-174 | the declarations of the first i methods are a prefix of all declarations |
| Catalog.DeclarationsAppend | pyramid_routehelper/__init__.py:172-174 | one more method adds its declarations after those of the earlier methods |
| Catalog.FormattedForAppend | pyramid_routehelper/__init__.py:184-187 | the formatted views of an action over two runs of declarations are those of the first run, then those of the second |
| Catalog.DefaultNamesAppend | pyramid_routehelper/__init__.py:179-183 | the actions of the unformatted declarations over two runs are those of each run in turn |
| Catalog.DefaultForNamed | pyramid_routehelper/__init__.py:179-183 | an action with a default view is among the actions of the unformatted declarations |
| Catalog.DistinctDefaultsNoConflict | pyramid_routehelper/__init__.py:179-181 | when the unformatted declarations name distinct actions, the "Two methods" error cannot arise |
| Catalog.ConflictDecides | pyramid_routehelper/__init__.py:180-181 | the first conflict met decides the outcome of the whole catalog loop |
| Catalog.NextDeclaration | pyramid_routehelper/__init__.py:174-187 | the inner loop's next step is exactly the filing of the next declaration |
| Catalog.BuildCatalog | pyramid_routehelper/__init__.py:171-187 | the nested catalog loop, with its early exit on the error, computes the catalog of all the handler's declarations |
| Verbs.Swap | pyramid_routehelper/__init__.py:208-214 | the `swap` loop computes the grouping of actions by upper-cased verb |
| Verbs.LookupPut | pyramid_routehelper/__init__.py:205-206 | after `d[k] = v`, `d.get(k)` is v and every other key reads as before |
| Verbs.PutKeys | pyramid_routehelper/__init__.py:205-206 | assignment keeps the key order and appends only a new key |
| Verbs.PutEntries | pyramid_routehelper/__init__.py:205-206 | assignment adds no entry other than (k, v) |
| Verbs.PutDistinct | pyramid_routehelper/__init__.py:205-206 | assignment keeps keys distinct |
| Verbs.PutWellFormed | pyramid_routehelper/__init__.py:216-218 | putting a non-empty list under an upper-case verb keeps a verb table well formed (distinct upper-case verbs, non-empty lists) |
| Verbs.LookupFinds | pyramid_routehelper/__init__.py:216-218 | `get` finds a key exactly when the dictionary has it |
| Verbs.Put | pyramid_routehelper/__init__.py:205-206 | definition of `d[k] = v` on an insertion-ordered dictionary; never empty afterwards. `Verbs.LookupPut` and `Verbs.PutKeys` state its effect. |
| Verbs.Swapped | pyramid_routehelper/__init__.py:208-214 | definition of `swap` as a fold; `Verbs.SwappedGroupsByVerb` and `Verbs.SwappedVerbOrder` state what it builds |
| Verbs.CollectionTable | pyramid_routehelper/__init__.py:212-216 | definition of `collection_methods`; `Verbs.CollectionDefaults` and `Verbs.CollectionVerbOrder` state it |
| Verbs.MemberTable | pyramid_routehelper/__init__.py:205-218 | definition of `member_methods`; `Verbs.MemberDefaults` and `Verbs.MemberVerbOrder` state it |
| Verbs.NewTable | pyramid_routehelper/__init__.py:206-214 | definition of `new_methods`; `Verbs.NewDefaults` and `Verbs.NewVerbOrder` state it |
| Verbs.AppendAction | pyramid_routehelper/__init__.py:209-214 | definition of `dct.setdefault(verb, []).append(action)`; `Verbs.SwappedGroupsByVerb` states what repeated appends build |
| Verbs.InsertFirst | pyramid_routehelper/__init__.py:216-218 | definition of `setdefault(verb, []).insert(0, action)`; `Verbs.InsertFirstNewVerb`, `Verbs.CollectionDefaults` and `Verbs.MemberDefaults` state it |
| Verbs.MemberVerbs | pyramid_routehelper/__init__.py:205 | definition of the caller's `member` after `member['edit'] = 'GET'`; `Verbs.MemberDefaults`, `Verbs.EditOnlyUnderGet` and `Verbs.AssignedKeepsOthers` state it |
| Verbs.NewVerbs | pyramid_routehelper/__init__.py:206 | definition of the caller's `new` after `new['new'] = 'GET'`; `Verbs.NewDefaults` states it |
| Verbs.ListedVerbIsEntry | pyramid_routehelper/__init__.py:248 | a verb with actions is one of the entries the loops visit, with that list |
| Verbs.SwappedGroupsByVerb | pyramid_routehelper/__init__.py:208-214 | `swap` gives a well-formed table in which each verb lists exactly the actions bound to it (after upper-casing), in their order |
| Verbs.FirstUse | pyramid_routehelper/__init__.py:208-209 | the index of the first action whose verb upper-cases to the given verb, or the length when none does: no earlier action uses that verb |
| Verbs.FirstUseExtend | pyramid_routehelper/__init__.py:208-209 | one more action moves no verb's first use, and a verb met for the first time is first used there |
| Verbs.VerbsInUseOrder | pyramid_routehelper/__init__.py:208-214 | the reference verb order lists exactly the verbs used, by strictly increasing first use, so each verb once |
| Verbs.SwappedVerbOrder | pyramid_routehelper/__init__.py:208-214 | `swap`'s dictionary visits its verbs in the order they are first used in the caller's dictionary |
| Verbs.CollectionVerbOrder | pyramid_routehelper/__init__.py:212-216 | the collection loop visits the caller's verbs in order of first use, then POST if no collection action used it |
| Verbs.MemberVerbOrder | pyramid_routehelper/__init__.py:205-218 | the member loop visits the verbs in order of first use (with `edit` under GET), then PUT and DELETE where not already used |
| Verbs.NewVerbOrder | pyramid_routehelper/__init__.py:206-214 | the new loop visits the verbs in order of first use, with `new` under GET |
| Verbs.WellFormedActions | pyramid_routehelper/__init__.py:208-218 | in a well-formed table, a verb has actions exactly when it is a key |
| Verbs.LookupIsEntry | pyramid_routehelper/__init__.py:248 | what `get` returns is an entry of the dictionary |
| Verbs.CollectionDefaults | pyramid_routehelper/__init__.py:212-216 | collection table: `create` first under POST, then the caller's POST actions. Every other verb lists exactly the caller's actions. The table is well formed. |
| Verbs.MemberDefaults | pyramid_routehelper/__init__.py:205-218 | member table: `update` first under PUT and `delete` first under DELETE, then the other actions of those verbs. Every other verb lists exactly the actions bound to it after `edit` is set to GET. `edit` is under GET. The table is well formed. |
| Verbs.NewDefaults | pyramid_routehelper/__init__.py:206-214 | new table: well formed, with `new` under GET |
| Verbs.AssignedKeyListed | pyramid_routehelper/__init__.py:205-209 | after `m[k] = v`, k is grouped under the upper-cased v |
| Verbs.AssignedListing | pyramid_routehelper/__init__.py:205-209 | after `m[k] = v`, any action grouped under a verb is k (under upper-cased v) or was grouped there before |
| Verbs.AssignedKeepsOthers | pyramid_routehelper/__init__.py:205-209 | after `m[k] = v`, every other action stays grouped where it was |
| Verbs.ListedAreKeys | pyramid_routehelper/__init__.py:209 | grouped actions are keys of the map |
| Verbs.EditOnlyUnderGet | pyramid_routehelper/__init__.py:205 | with distinct action names, `edit` is listed under no verb but GET |
| Verbs.EditNotListedElsewhere | pyramid_routehelper/__init__.py:205 | after `member['edit'] = 'GET'`, `edit` is grouped under no other verb |
| Verbs.AssignedAddsNothingElsewhere | pyramid_routehelper/__init__.py:205-209 | assigning a key some other verb adds nothing under an empty verb |
| Verbs.PutNewKey | pyramid_routehelper/__init__.py:216-218 | assigning a missing key appends it |
| Verbs.InsertFirstNewVerb | pyramid_routehelper/__init__.py:216-218 | `setdefault(verb, []).insert(0, a)` on a missing verb appends it with the list [a] |
| Verbs.PutNewKeyIsLast | pyramid_routehelper/__init__.py:218 | a newly assigned key is the last one visited |
| Verbs.DeleteNotYetListed | pyramid_routehelper/__init__.py:205-217 | without custom DELETE member actions, no DELETE verb exists before line 218 |
| Verbs.MemberTableLastVerb | pyramid_routehelper/__init__.py:218 | without custom DELETE member actions, DELETE is the member verb visited last |
| Verbs.NewActionListed | pyramid_routehelper/__init__.py:206-214 | a new action other than `new` is listed under its upper-cased verb in the new table |
| Verbs.MemberActionListed | pyramid_routehelper/__init__.py:205-218 | a member action other than `edit` bound to GET or POST is listed under that verb in the member table |
| Verbs.CreateListed | pyramid_routehelper/__init__.py:216 | `create` heads the collection table's POST entry |
| Verbs.CollectionGetListed | pyramid_routehelper/__init__.py:208-214 | a collection action bound to GET is listed under GET |
| Verbs.NewListed | pyramid_routehelper/__init__.py:206-214 | `new` is listed under GET in the new table |
| Verbs.EditListed | pyramid_routehelper/__init__.py:205-214 | `edit` is listed under GET in the member table |
| Verbs.MemberPrimaryListed | pyramid_routehelper/__init__.py:217-218 | `update` heads the member PUT entry and `delete` the DELETE entry |
| Routes.FormattedSiblings | pyramid_routehelper/__init__.py:232-246 | one call registers the route with the action's default settings, then one sibling per formatted view in catalog order. A sibling is named "<format>_formatted_<name>", is at "<path>.<format>" and dispatches to the declaring method. All of them share one request method, and all lie under the path. |
| Routes.RequestFilter | pyramid_routehelper/__init__.py:233-236 | definition of the request-method argument; `Routes.RequestFilterAny` and `Routes.RequestFilterUpper` state it |
| Routes.ElectsPrimary | pyramid_routehelper/__init__.py:249-270 | definition of the election tests: every verb but GET at collection scope (249), every verb but POST, GET and 'any' at member scope (269-270); `Routes.PrimaryElection` and `Routes.MemberAnyVerbElectsPrimary` state it |
| Routes.FormattedRoutes | pyramid_routehelper/__init__.py:241-246 | definition of the formatted siblings of one call; `Routes.FormattedSiblings` states it |
| Routes.ActionRoutes | pyramid_routehelper/__init__.py:250-274 | definition of the non-primary actions of a scope (250-251 and 273-274); `Routes.ActionRoutesCover`, `Routes.ActionRoutesUnconstrained` and `Routes.ActionRoutesUnder` state it |
| Routes.ViewRoutes | pyramid_routehelper/__init__.py:232-246 | definition of what one `add_route_and_view` call registers; `Routes.FormattedSiblings` states it |
| Routes.VerbRoutes | pyramid_routehelper/__init__.py:248-277 | definition of one verb of the collection or member loop; `Routes.PrimaryElection` states it |
| Routes.ScopeRoutes | pyramid_routehelper/__init__.py:248-277 | definition of the collection or member loop over its verb table; `Routes.ScopeRoutesInclude` and `Routes.ScopeRoutesUnder` state it |
| Routes.NewVerbRoutes | pyramid_routehelper/__init__.py:260-266 | definition of one verb of the new loop; `Routes.NewVerbRoutesCover` states it |
| Routes.NewRoutes | pyramid_routehelper/__init__.py:259-266 | definition of the new loop; `Routes.NewRoutesInclude` and `Routes.NewRoutesUnder` state it |
| Routes.RequestFilterAny | pyramid_routehelper/__init__.py:233-236 | no request-method constraint exactly for 'any'; any other constraint is upper-case |
| Routes.RequestFilterUpper | pyramid_routehelper/__init__.py:233-236 | an upper-case verb is passed on unchanged as the request method |
| Routes.MemberAnyVerbElectsPrimary | pyramid_routehelper/__init__.py:269 | a member verb written 'any' arrives upper-cased, elects a primary and constrains the view to "ANY" |
| Routes.ActionRoutesUnconstrained | pyramid_routehelper/__init__.py:273-274 | non-primary actions get no request-method constraint |
| Routes.ActionRoutesCover | pyramid_routehelper/__init__.py:250-251 | every non-primary action gets the route "<prefix><action>_<scope name>" at "<scope path>/<action>" |
| Routes.PrimaryElection | pyramid_routehelper/__init__.py:249-277 | GET at collection scope, and POST, GET and 'any' at member scope, elect no primary and emit all actions as non-primary. Every other verb emits the rest of its actions, then its first one at the bare scope path (unless that name is empty, so falsy and dropped). |
| Routes.ActionRoutesUnder | pyramid_routehelper/__init__.py:250-251 | non-primary routes lie under the scope path |
| Routes.ScopeRoutesUnder | pyramid_routehelper/__init__.py:248-254 | every collection or member route lies under that scope's path |
| Routes.NewVerbRoutesUnder | pyramid_routehelper/__init__.py:260-266 | the new routes of a verb lie under the new path |
| Routes.NewRoutesUnder | pyramid_routehelper/__init__.py:259-266 | every new route lies under the new path |
| Routes.PrimaryRecord | pyramid_routehelper/__init__.py:253-254 | an elected primary is registered at the bare scope path, named "<prefix><scope name>", under its verb |
| Routes.NonPrimaryRecord | pyramid_routehelper/__init__.py:250-251 | a verb electing no primary registers each of its actions unconstrained at "<scope path>/<action>" |
| Routes.ScopeRoutesInclude | pyramid_routehelper/__init__.py:248 | every record emitted for an entry of the table is in the scope's records |
| Routes.NewVerbRoutesCover | pyramid_routehelper/__init__.py:260-266 | each new action gets "new_<member>" at the new path, or "<action>_new_<member>" at "<new path>/<action>", under its verb |
| Routes.NewRoutesInclude | pyramid_routehelper/__init__.py:259 | every record emitted for an entry of the new table is in the new scope's records |
| Routes.NewActionRecord | pyramid_routehelper/__init__.py:259-266 | a listed new action other than `new` gets "<prefix><action>_new_<member>" at "<new path>/<action>" under its verb |
| Routes.MemberActionRecord | pyramid_routehelper/__init__.py:268-274 | a member action listed under GET or POST gets "<prefix><action>_<member>" at "<member path>/<action>" with no constraint |
| Routes.PrimaryScopeRecord | pyramid_routehelper/__init__.py:253-254 | the first action of an entry electing a primary is registered at the bare scope path, named "<prefix><scope name>", under its upper-case verb |
| Routes.CollectionActionRecord | pyramid_routehelper/__init__.py:248-251 | a collection action listed under GET gets "<prefix><action>_<collection>" at "<collection path>/<action>" with no constraint |
| Routes.NewNewRecord | pyramid_routehelper/__init__.py:259-266 | `new` listed under GET gets "<prefix>new_<member>" at the new path, under GET |
| Routes.ActionViewsIncluded | pyramid_routehelper/__init__.py:250-251 | every record of a non-primary action's call, formatted siblings included, is among the scope's non-primary records |
| Routes.NewVerbViewsIncluded | pyramid_routehelper/__init__.py:260-266 | every record of a new action's call is among the records of its verb |
| Routes.MemberActionViews | pyramid_routehelper/__init__.py:268-274 | the whole call of a member action under GET or POST, siblings included, is among the member records |
| Routes.NewActionViews | pyramid_routehelper/__init__.py:259-266 | the whole call of a listed new action, siblings included, is among the new records |
| Routes.AddRouteAndView | pyramid_routehelper/__init__.py:232-246 | the method's loop over formatted views registers exactly the records of one call |
| Routes.EmitVerb | pyramid_routehelper/__init__.py:249-254 | pops the primary when elected, emits the rest, then the primary, exactly as the reference for one verb |
| Routes.EmitScope | pyramid_routehelper/__init__.py:248-277 | the collection loop (248-254) and the member loop (268-277) emit the reference records verb by verb. The loop variable left behind is the last verb visited. |
| Routes.EmitNewVerb | pyramid_routehelper/__init__.py:260-266 | the inner new loop emits the reference records of one verb |
| Routes.EmitNew | pyramid_routehelper/__init__.py:259-266 | the new loop emits the reference records verb by verb |
| Resource.AddResource | pyramid_routehelper/__init__.py:169-279 | `add_resource` step by step equals the reference outcome: the catalog error, or the whole table in emission order |
| Resource.DefaultPrefixes | pyramid_routehelper/__init__.py:196-203 | the path and name prefixes: the caller's when given, else derived from the parent resource, else empty |
| Resource.BasePath | pyramid_routehelper/__init__.py:220-228 | the base path is "/" and the stripped collection name when the prefix strips to nothing, and otherwise "/", the stripped prefix, "/" and the stripped collection name |
| Resource.BuiltTable | pyramid_routehelper/__init__.py:169-279 | once the catalog is built, the outcome is the table of the resource's layout and its three verb tables |
| Resource.Emitted | pyramid_routehelper/__init__.py:248-279 | definition of the table in emission order: collection verbs, `index`, new verbs, member verbs, `show` under the last member verb. `Resource.EmittedUnder` and `Resource.EmittedShow` state it. |
| Resource.ResourceRoutes | pyramid_routehelper/__init__.py:169-279 | definition of the outcome: the catalog error, or the table of the resource; `Resource.AddResource` computes it and `Resource.AllOrNothing` states when each arises |
| Resource.LayoutOf | pyramid_routehelper/__init__.py:196-230 | definition of the prefixes and the three base paths; `Resource.DefaultPrefixes`, `Resource.BasePath` and `Scenarios.ParentLayouts` state it |
| Resource.RouteTable | pyramid_routehelper/__init__.py:205-279 | definition of the table of a built catalog: the three verb tables, then the emission order; `Resource.BuiltTable` states it |
| Resource.AllOrNothing | pyramid_routehelper/__init__.py:171-187 | `add_resource` fails exactly when two unformatted declarations share an action name, and only with the "Two methods" error |
| Resource.CreateRoute | pyramid_routehelper/__init__.py:216-254 | without conflict, `create` is registered under POST at the collection path, named "<prefix><collection>", with its default settings |
| Resource.IndexRoute | pyramid_routehelper/__init__.py:257 | `index` is registered under GET at the collection path, named "<prefix><collection>" |
| Resource.IndexFormattedRoutes | pyramid_routehelper/__init__.py:241-246 | every formatted view of `index` is registered under GET at "<collection path>.<format>", served by its declaring method |
| Resource.NewFormattedRoutes | pyramid_routehelper/__init__.py:241-266 | every formatted view of `new` is registered under GET at "<new path>.<format>", named "<format>_formatted_<prefix>new_<member>", served by its declaring method |
| Resource.NewSiblingsEmitted | pyramid_routehelper/__init__.py:241-246 | in any table in emission order, the formatted siblings of `new` are there |
| Resource.NewRoute | pyramid_routehelper/__init__.py:259-266 | `new` is registered under GET at the new path, named "<prefix>new_<member>" |
| Resource.EditRoute | pyramid_routehelper/__init__.py:273-274 | `edit` is registered unconstrained at "<member path>/edit", named "<prefix>edit_<member>" |
| Resource.EditFormattedRoutes | pyramid_routehelper/__init__.py:241-274 | every formatted view of `edit` is registered unconstrained at "<member path>/edit.<format>", named "<format>_formatted_<prefix>edit_<member>", served by its declaring method |
| Resource.EditSiblingsEmitted | pyramid_routehelper/__init__.py:241-246 | in any table in emission order, the formatted siblings of `edit` are there |
| Resource.UpdateRoute | pyramid_routehelper/__init__.py:276-277 | `update` is registered under PUT at the member path, named "<prefix><member>" |
| Resource.DeleteRoute | pyramid_routehelper/__init__.py:276-277 | `delete` is registered under DELETE at the member path, named "<prefix><member>" |
| Resource.ShowRoute | pyramid_routehelper/__init__.py:279 | `show` is the record just before the last run of records, and that run is exactly its formatted siblings. It is at the member path, named "<prefix><member>", under the member verb visited last, which is DELETE when no custom member action uses DELETE. |
| Resource.ShowUnderDelete | pyramid_routehelper/__init__.py:279 | without custom DELETE member actions, the last member verb constrains `show` to DELETE |
| Resource.EmittedShow | pyramid_routehelper/__init__.py:279 | in any table in emission order, `show` and its formatted siblings close the table |
| Resource.CollectionActionRoute | pyramid_routehelper/__init__.py:248-251 | a GET collection action gets "<prefix><action>_<collection>" at "<collection path>/<action>", unconstrained |
| Resource.MemberActionRoute | pyramid_routehelper/__init__.py:268-274 | a GET or POST member action other than `edit` gets "<prefix><action>_<member>" at "<member path>/<action>", unconstrained |
| Resource.NewActionRoute | pyramid_routehelper/__init__.py:259-266 | a new action other than `new` gets "<prefix><action>_new_<member>" at "<new path>/<action>" under its verb |
| Resource.RoutesUnderCollectionPath | pyramid_routehelper/__init__.py:228-230 | every registered path starts with the collection path |
| Resource.PrefixSlashesDoNotMatter | pyramid_routehelper/tests.py:48-59 | surrounding a path prefix with slashes does not change the paths or names |
| Scenarios.MessagesLayout | pyramid_routehelper/tests.py:22-33 | 'message'/'messages': paths /messages, /messages/new, /messages/:id and no name prefix |
| Scenarios.CategoryPrefixLayout | pyramid_routehelper/tests.py:35-59 | prefix '/category/:category_id' (with or without a trailing slash) gives /category/:category_id/messages |
| Scenarios.SpecialNamePrefixLayout | pyramid_routehelper/tests.py:76-79 | an explicit name prefix is used as given |
| Scenarios.ParentLayouts | pyramid_routehelper/tests.py:81-105 | a parent derives "category_" and /categories/:category_id. An explicit path prefix or name prefix overrides only its own half. |
| Scenarios.DefaultTables | pyramid_routehelper/__init__.py:205-218 | without custom actions the tables are POST:[create], GET:[new], and GET:[edit], PUT:[update], DELETE:[delete] |
| Scenarios.MinimalResource | pyramid_routehelper/__init__.py:248-279 | with no declarations and no options, exactly seven routes (create, index, new, edit, update, delete, show) with their names, paths and methods |
| Scenarios.DoubleDefaultRejected | pyramid_routehelper/tests.py:107-117 | a method with two unformatted declarations makes `add_resource` fail with the "Two methods" message |
| Scenarios.BasicResourceRoutes | pyramid_routehelper/tests.py:22-33 | the routes "messages", "new_message", "edit_message" and "message" are at /messages, /messages/new, /messages/:id/edit and /messages/:id |
| Scenarios.BasicFormattedRoutes | pyramid_routehelper/tests.py:22-33 | with `DummyCrudHandler`, "json_formatted_messages" at /messages.json (served by `api_index`), "json_formatted_new_message" at /messages/new.json, "json_formatted_message" at /messages/:id.json and "json_formatted_edit_message" at /messages/:id/edit.json |
| Scenarios.DummyNoConflict | pyramid_routehelper/tests.py:199-241 | `DummyCrudHandler` has one unformatted declaration for each of eight actions, so it is accepted |
| Scenarios.DummyDeclarations | pyramid_routehelper/tests.py:199-241 | the handler's declarations, method by method in name order |
| Scenarios.DummyDefaultNames | pyramid_routehelper/tests.py:199-241 | the actions with an unformatted view, in method order: create, delete, edit, index, new, show, sorted, update (`api_index` has none) |
| Scenarios.DummyIndexFormats | pyramid_routehelper/tests.py:207-210 | `index` has the json and then the xml view of `api_index` |
| Scenarios.DummyJsonFormats | pyramid_routehelper/tests.py:216-237 | `new`, `edit` and `show` each have one json view served by themselves |
| Scenarios.DummyIndexSiblings | pyramid_routehelper/tests.py:26 | "json_formatted_messages" at /messages.json and "xml_formatted_messages" at /messages.xml, under GET, served by `api_index` |
| Scenarios.DummyNewSibling | pyramid_routehelper/tests.py:28 | "json_formatted_new_message" at /messages/new.json under GET |
| Scenarios.DummyEditSibling | pyramid_routehelper/tests.py:32 | "json_formatted_edit_message" at /messages/:id/edit.json, unconstrained |
| Scenarios.DummyShowSibling | pyramid_routehelper/tests.py:30 | "json_formatted_message" at /messages/:id.json is the last record, under DELETE like `show` |
| Scenarios.SortedCollectionAction | pyramid_routehelper/tests.py:61-64 | collection sorted=GET gives "sorted_messages" at /messages/sorted |
| Scenarios.CommentMemberAction | pyramid_routehelper/tests.py:66-69 | member comment=GET gives "comment_message" at /messages/:id/comment |
| Scenarios.PreviewNewAction | pyramid_routehelper/tests.py:71-74 | new preview=GET gives "preview_new_message" at /messages/new/preview |
| Scenarios.SpecialNamePrefixRoute | pyramid_routehelper/tests.py:76-79 | name prefix "special_" gives "special_message" at /messages/:id |
| Scenarios.ParentResourceRoutes | pyramid_routehelper/tests.py:81-105 | a parent gives "category_messages"/"category_message" under /categories/:category_id, or under /folders/:folder_id when the path prefix is overridden, or "messages"/"message" when the name prefix is overridden with '' |
| Scenarios.RssCollectionAction | pyramid_routehelper/__init__.py:74-76 | `collection={'rss':'GET'}` gives "rss_messages" at /messages/rss, unconstrained. The docstring calls the route "rss_message". |
| Scenarios.MarkMemberAction | pyramid_routehelper/__init__.py:84-86 | `member={'mark':'POST'}` gives "mark_message" at /messages/:id/mark, with no method constraint on the route |
| Scenarios.PreviewPostNewAction | pyramid_routehelper/__init__.py:94-96 | `new={'preview':'POST'}` gives "preview_new_message" at /messages/new/preview under POST |
| Scenarios.CategoryMemberRoute | pyramid_routehelper/__init__.py:110-114 | `path_prefix='/category/:category_id'` with `name_prefix="category_"` gives the member route "category_message" at /category/:category_id/messages/:id |
| Scenarios.RegionLayouts | pyramid_routehelper/__init__.py:135-167 | `location`/`locations` under `region`/`regions`: prefixes "region_" and /regions/:region_id, the path override /areas/:area_id, and the empty name prefix |
| Scenarios.RegionLocationRoutes | pyramid_routehelper/__init__.py:135-147 | "region_locations", "region_new_location", "region_location" and "region_edit_location" at /regions/:region_id/locations, its /new, /:id and /:id/edit |
| Scenarios.RegionOverrideRoutes | pyramid_routehelper/__init__.py:150-167 | "region_locations" at /areas/:area_id/locations when the path prefix is overridden, and "locations" at /regions/:region_id/locations when the name prefix is '' |

## Left out

- `includeme` and the `add_directive` registration (`__init__.py:6-7`) are framework glue.
- `maybe_dotted` (`__init__.py:169`) resolves a dotted name to a class. The model takes the handler's methods directly.
- Reflection through `inspect.getmembers` and `__exposed__` (`__init__.py:172-174`) is replaced by an explicit list of methods with their declarations. `getmembers` visits methods sorted by name; the model visits them in the order given.
- `add_route` and `add_view` are host calls. The model returns the records they would receive instead of calling them. The view object (`view=handler`) is the same for every record and is not stored.
- The remaining `**kwargs` forwarded to every `add_route` (`__init__.py:238, 244`) are not modelled.
- Dict iteration in Python 2 follows hash order, which the source does not control. The model uses insertion order. Under insertion order, `show` of a plain resource gets DELETE. The test at `tests.py:173-175` expects `GET /messages/1` to reach `show`, which holds only when the hash order visits GET last. The model does not reproduce hash order, and the WSGI request matching of `tests.py:119-191` is not modelled.
- The `pop('format')` and `pop('attr')` calls (`__init__.py:242, 245`) destroy the catalog entries as they are read. A second `add_route_and_view` call for an action with formatted views, for example a custom action named `index`, raises `KeyError` in the source. The model reads the entries without consuming them, so it does not capture that failure.
- The source mutates the caller's `member` and `new` dicts (`__init__.py:205-206`). The model works on copies.
- `formatted_path` (`__init__.py:265`) is computed and never used, so it has no counterpart.
- `upper()` is modelled for ASCII letters only.
- Option keys that clash with the arguments `add_route_and_view` passes itself are not modelled as errors. An unformatted declaration carrying `attr`, `view`, `route_name` or `request_method` makes the `add_view` call at `__init__.py:239` raise `TypeError` for a repeated keyword. A formatted declaration carrying `view`, `route_name` or `request_method` raises the same way at `__init__.py:245-246`, and its own `attr` is overwritten by the method name at `__init__.py:186`. The model registers such declarations and keeps the key among the view options.
- An explicit `format=None` or `alt_for=None` is a key that is present, so the source files the declaration as formatted with format `None` (`__init__.py:179`) or under the action `None` (`__init__.py:176`). The model writes format and alternative as `Option` values and treats `None` as absent.
- Resource.MemberActionRoute: excludes `edit`, because `member['edit'] = 'GET'` moves `edit` to GET whatever the caller bound it to.
