/** The action/verb maps: `swap` turns action -> verb into verb -> actions,
    and the built-in actions are added around it. */
module Verbs {
  import opened Wrappers
  import opened Text

  /** A dictionary with string keys, as its entries in iteration order.
      Assigning a new key appends it; assigning a present key keeps its place. */
  type Dict<V> = seq<(string, V)>

  /** `collection`, `member`, `new`: action name -> HTTP verb. */
  type ActionVerbs = Dict<string>

  /** `collection_methods`, `member_methods`, `new_methods`: verb -> action names. */
  type VerbTable = Dict<seq<string>>

  function Keys<V>(d: Dict<V>): seq<string> {
    seq(|d|, i requires 0 <= i < |d| => d[i].0)
  }

  predicate DistinctKeys<V>(d: Dict<V>) {
    forall i, j :: 0 <= i < j < |d| ==> d[i].0 != d[j].0
  }

  /** `d.get(k)` */
  function Lookup<V>(d: Dict<V>, k: string): Option<V> {
    if d == [] then None
    else if d[|d| - 1].0 == k then Some(d[|d| - 1].1)
    else Lookup(d[..|d| - 1], k)
  }

  /** `d[k] = v` */
  function Put<V>(d: Dict<V>, k: string, v: V): (r: Dict<V>)
    ensures r != []
  {
    if d == [] then [(k, v)]
    else if d[|d| - 1].0 == k then d[..|d| - 1] + [(k, v)]
    else if k in Keys(d[..|d| - 1]) then Put(d[..|d| - 1], k, v) + [d[|d| - 1]]
    else d + [(k, v)]
  }

  /** The key visited last; `show` takes its request method from it. */
  function LastKey<V>(d: Dict<V>): string
    requires d != []
  {
    d[|d| - 1].0
  }

  /** `dct.get(verb, [])` on a verb table. */
  function ActionsFor(t: VerbTable, verb: string): seq<string> {
    Lookup(t, verb).GetOr([])
  }

  /** `dct.setdefault(verb, []).append(action)` */
  function AppendAction(t: VerbTable, verb: string, action: string): VerbTable {
    Put(t, verb, ActionsFor(t, verb) + [action])
  }

  /** `dct.setdefault(verb, []).insert(0, action)` */
  function InsertFirst(t: VerbTable, verb: string, action: string): VerbTable {
    Put(t, verb, [action] + ActionsFor(t, verb))
  }

  /** `swap(dct, {})`: each action is appended to the list of its upper-cased verb. */
  function Swapped(m: ActionVerbs): VerbTable {
    if m == [] then []
    else AppendAction(Swapped(m[..|m| - 1]), Upper(m[|m| - 1].1), m[|m| - 1].0)
  }

  /** `collection_methods` after `create` is put first under POST. */
  function CollectionTable(collection: ActionVerbs): VerbTable {
    InsertFirst(Swapped(collection), "POST", "create")
  }

  /** `member` after `member['edit'] = 'GET'`. */
  function MemberVerbs(member: ActionVerbs): ActionVerbs {
    Put(member, "edit", "GET")
  }

  /** `member_methods` after `update` and `delete` are put first under PUT and DELETE. */
  function MemberTable(member: ActionVerbs): VerbTable {
    InsertFirst(InsertFirst(Swapped(MemberVerbs(member)), "PUT", "update"), "DELETE", "delete")
  }

  /** `new` after `new['new'] = 'GET'`. */
  function NewVerbs(newActions: ActionVerbs): ActionVerbs {
    Put(newActions, "new", "GET")
  }

  /** `new_methods` */
  function NewTable(newActions: ActionVerbs): VerbTable {
    Swapped(NewVerbs(newActions))
  }

  /** Reference grouping: the actions of `m` whose verb upper-cases to `verb`,
      in the order of `m`. */
  function ActionsWithVerb(m: ActionVerbs, verb: string): seq<string> {
    if m == [] then []
    else ActionsWithVerb(m[..|m| - 1], verb) + if Upper(m[|m| - 1].1) == verb then [m[|m| - 1].0] else []
  }

  /** Where the verb `verb` is first used in `m`: the least index whose verb
      upper-cases to it, or `|m|` when none does. */
  function FirstUse(m: ActionVerbs, verb: string): (k: nat)
    ensures k <= |m|
    ensures forall j :: 0 <= j < k ==> Upper(m[j].1) != verb
    ensures k < |m| ==> Upper(m[k].1) == verb
  {
    if m == [] then 0
    else if Upper(m[0].1) == verb then 0
    else
      var k := 1 + FirstUse(m[1..], verb);
      assert forall j :: 1 <= j < k ==> m[j] == m[1..][j - 1];
      k
  }

  /** Reference verb order: the upper-cased verbs of `m`, each once, in the
      order they are first used. */
  function VerbsInUse(m: ActionVerbs): seq<string> {
    if m == [] then []
    else
      var earlier := VerbsInUse(m[..|m| - 1]);
      var verb := Upper(m[|m| - 1].1);
      if verb in earlier then earlier else earlier + [verb]
  }

  /** A verb table as `swap` and the defaults leave it: each verb once,
      upper-case, with a non-empty action list. */
  predicate WellFormed(t: VerbTable) {
    DistinctKeys(t) && forall i :: 0 <= i < |t| ==> t[i].1 != [] && IsUpper(t[i].0)
  }

  /** `swap` */
  method Swap(dct: ActionVerbs) returns (newdct: VerbTable)
    ensures newdct == Swapped(dct)
  {
    newdct := [];
    for i := 0 to |dct|
      invariant newdct == Swapped(dct[..i])
    {
      assert dct[..i + 1][..i] == dct[..i];
      var (key, value) := dct[i];
      newdct := AppendAction(newdct, Upper(value), key);
    }
    assert dct[..|dct|] == dct;
  }

  // ----- Dictionary lemmas -----

  /** After `d[k] = v`, looking up `k` gives `v` and every other key is unaffected. */
  lemma {:induction false} LookupPut<V>(d: Dict<V>, k: string, v: V, w: string)
    ensures Lookup(Put(d, k, v), w) == if w == k then Some(v) else Lookup(d, w)
  {
    if d != [] {
      var init := d[..|d| - 1];
      var r := Put(d, k, v);
      if d[|d| - 1].0 == k {
        assert r[..|r| - 1] == init;
      } else if k in Keys(init) {
        assert r[..|r| - 1] == Put(init, k, v);
        LookupPut(init, k, v, w);
      } else {
        assert r[..|r| - 1] == d;
      }
    }
  }

  /** `d[k] = v` keeps the key order, and appends `k` when it is new. */
  lemma {:induction false} PutKeys<V>(d: Dict<V>, k: string, v: V)
    ensures Keys(Put(d, k, v)) == if k in Keys(d) then Keys(d) else Keys(d) + [k]
  {
    if d != [] {
      var init := d[..|d| - 1];
      assert Keys(d) == Keys(init) + [d[|d| - 1].0];
      if d[|d| - 1].0 == k {
        assert Keys(Put(d, k, v)) == Keys(init) + [k];
      } else if k in Keys(init) {
        PutKeys(init, k, v);
        assert Keys(Put(d, k, v)) == Keys(Put(init, k, v)) + [d[|d| - 1].0];
      } else {
        assert k !in Keys(d);
        assert Keys(Put(d, k, v)) == Keys(d) + [k];
      }
    }
  }

  /** Every entry of `d[k] = v` is `(k, v)` or an entry of `d`. */
  lemma {:induction false} PutEntries<V>(d: Dict<V>, k: string, v: V)
    ensures forall e :: e in Put(d, k, v) ==> e == (k, v) || e in d
  {
    if d != [] && d[|d| - 1].0 != k && k in Keys(d[..|d| - 1]) {
      PutEntries(d[..|d| - 1], k, v);
    }
  }

  lemma DistinctKeysOf<V>(d: Dict<V>)
    ensures DistinctKeys(d) <==> forall i, j :: 0 <= i < j < |Keys(d)| ==> Keys(d)[i] != Keys(d)[j]
  {
    assert |Keys(d)| == |d|;
    assert forall i :: 0 <= i < |d| ==> Keys(d)[i] == d[i].0;
  }

  /** `d[k] = v` keeps keys distinct. */
  lemma PutDistinct<V>(d: Dict<V>, k: string, v: V)
    requires DistinctKeys(d)
    ensures DistinctKeys(Put(d, k, v))
  {
    PutKeys(d, k, v);
    DistinctKeysOf(d);
    DistinctKeysOf(Put(d, k, v));
  }

  /** Putting a non-empty action list under an upper-case verb keeps a table well formed. */
  lemma PutWellFormed(t: VerbTable, verb: string, actions: seq<string>)
    requires WellFormed(t) && actions != [] && IsUpper(verb)
    ensures WellFormed(Put(t, verb, actions))
  {
    PutDistinct(t, verb, actions);
    PutEntries(t, verb, actions);
    var r := Put(t, verb, actions);
    forall i | 0 <= i < |r| ensures r[i].1 != [] && IsUpper(r[i].0) {
      assert r[i] in r;
    }
  }

  /** A key is found exactly when it is one of the dictionary's keys. */
  lemma {:induction false} LookupFinds<V>(d: Dict<V>, k: string)
    ensures Lookup(d, k).Some? <==> k in Keys(d)
  {
    if d != [] {
      var init := d[..|d| - 1];
      assert Keys(d) == Keys(init) + [d[|d| - 1].0];
      LookupFinds(init, k);
    }
  }

  /** A verb with a non-empty action list has that list as its entry. */
  lemma ListedVerbIsEntry(t: VerbTable, verb: string)
    requires ActionsFor(t, verb) != []
    ensures (verb, ActionsFor(t, verb)) in t
  {
    LookupIsEntry(t, verb);
  }

  // ----- Lemmas about swap and the defaults -----

  /** `swap` groups the actions by upper-cased verb, keeping their order, and
      leaves a well-formed table whose verbs are exactly those used. */
  lemma {:induction false} SwappedGroupsByVerb(m: ActionVerbs)
    ensures WellFormed(Swapped(m))
    ensures forall verb :: ActionsFor(Swapped(m), verb) == ActionsWithVerb(m, verb)
  {
    if m != [] {
      var init := m[..|m| - 1];
      var (action, verb) := m[|m| - 1];
      var t := Swapped(init);
      SwappedGroupsByVerb(init);
      PutWellFormed(t, Upper(verb), ActionsFor(t, Upper(verb)) + [action]);
      forall w ensures ActionsFor(Swapped(m), w) == ActionsWithVerb(m, w) {
        LookupPut(t, Upper(verb), ActionsFor(t, Upper(verb)) + [action], w);
      }
    }
  }

  /** Adding an entry at the end moves no verb's first use, except that a
      verb used for the first time is first used there. */
  lemma FirstUseExtend(m: ActionVerbs, x: (string, string), verb: string)
    ensures FirstUse(m + [x], verb) ==
      if FirstUse(m, verb) < |m| then FirstUse(m, verb)
      else if Upper(x.1) == verb then |m| else |m| + 1
  {
    var n := m + [x];
    var k := FirstUse(m, verb);
    var k' := FirstUse(n, verb);
    assert forall j :: 0 <= j < |m| ==> n[j] == m[j];
    if k < |m| {
      assert Upper(n[k].1) == verb;
      assert !(k' < k);
      assert !(k < k');
    } else if Upper(x.1) == verb {
      assert Upper(n[|m|].1) == verb;
      assert !(k' < |m|);
    } else {
      assert !(k' < |m|) && !(k' == |m|);
    }
  }

  /** The reference order lists exactly the verbs used, by strictly
      increasing first use (so each verb once). */
  lemma {:induction false} VerbsInUseOrder(m: ActionVerbs)
    ensures forall v :: v in VerbsInUse(m) <==> FirstUse(m, v) < |m|
    ensures forall i, j :: 0 <= i < j < |VerbsInUse(m)| ==>
      FirstUse(m, VerbsInUse(m)[i]) < FirstUse(m, VerbsInUse(m)[j])
  {
    if m != [] {
      var init := m[..|m| - 1];
      var x := m[|m| - 1];
      assert m == init + [x];
      VerbsInUseOrder(init);
      forall v ensures FirstUse(m, v) == if FirstUse(init, v) < |init| then FirstUse(init, v)
                                         else if Upper(x.1) == v then |init| else |init| + 1 {
        FirstUseExtend(init, x, v);
      }
    }
  }

  /** `swap` visits its verbs in the order they are first used. */
  lemma {:induction false} SwappedVerbOrder(m: ActionVerbs)
    ensures Keys(Swapped(m)) == VerbsInUse(m)
  {
    if m != [] {
      var init := m[..|m| - 1];
      var (action, verb) := m[|m| - 1];
      var t := Swapped(init);
      SwappedVerbOrder(init);
      PutKeys(t, Upper(verb), ActionsFor(t, Upper(verb)) + [action]);
    }
  }

  /** The collection verbs in visiting order: those of the caller, then POST
      when no collection action uses it. */
  lemma CollectionVerbOrder(collection: ActionVerbs)
    ensures Keys(CollectionTable(collection)) ==
      var u := VerbsInUse(collection);
      if "POST" in u then u else u + ["POST"]
  {
    SwappedVerbOrder(collection);
    PutKeys(Swapped(collection), "POST", ["create"] + ActionsFor(Swapped(collection), "POST"));
  }

  /** The member verbs in visiting order: those of the caller (with `edit`
      under GET), then PUT and DELETE when not already used. */
  lemma MemberVerbOrder(member: ActionVerbs)
    ensures Keys(MemberTable(member)) ==
      var u := VerbsInUse(MemberVerbs(member));
      var u1 := if "PUT" in u then u else u + ["PUT"];
      if "DELETE" in u1 then u1 else u1 + ["DELETE"]
  {
    var t0 := Swapped(MemberVerbs(member));
    var t1 := InsertFirst(t0, "PUT", "update");
    SwappedVerbOrder(MemberVerbs(member));
    PutKeys(t0, "PUT", ["update"] + ActionsFor(t0, "PUT"));
    PutKeys(t1, "DELETE", ["delete"] + ActionsFor(t1, "DELETE"));
  }

  /** The new verbs in visiting order: those of the caller, with `new` under GET. */
  lemma NewVerbOrder(newActions: ActionVerbs)
    ensures Keys(NewTable(newActions)) == VerbsInUse(NewVerbs(newActions))
  {
    SwappedVerbOrder(NewVerbs(newActions));
  }

  /** In a well-formed table a verb has an action list exactly when it is one of its verbs. */
  lemma WellFormedActions(t: VerbTable, verb: string)
    requires WellFormed(t)
    ensures ActionsFor(t, verb) != [] <==> verb in Keys(t)
  {
    LookupFinds(t, verb);
    if Lookup(t, verb).Some? {
      LookupIsEntry(t, verb);
    }
  }

  lemma {:induction false} LookupIsEntry<V>(d: Dict<V>, k: string)
    requires Lookup(d, k).Some?
    ensures (k, Lookup(d, k).value) in d
  {
    if d[|d| - 1].0 != k {
      LookupIsEntry(d[..|d| - 1], k);
    }
  }

  /** Collection actions: `create` comes first under POST, followed by the
      caller's POST actions in order; every other verb lists exactly the
      caller's actions for it. */
  lemma CollectionDefaults(collection: ActionVerbs)
    ensures WellFormed(CollectionTable(collection))
    ensures ActionsFor(CollectionTable(collection), "POST") == ["create"] + ActionsWithVerb(collection, "POST")
    ensures forall verb :: verb != "POST" ==> ActionsFor(CollectionTable(collection), verb) == ActionsWithVerb(collection, verb)
  {
    var t := Swapped(collection);
    SwappedGroupsByVerb(collection);
    PutWellFormed(t, "POST", ["create"] + ActionsFor(t, "POST"));
    forall w ensures ActionsFor(CollectionTable(collection), w) == if w == "POST" then ["create"] + ActionsWithVerb(collection, "POST") else ActionsWithVerb(collection, w) {
      LookupPut(t, "POST", ["create"] + ActionsFor(t, "POST"), w);
    }
  }

  /** Member actions: `update` and `delete` come first under PUT and DELETE,
      followed by the other actions of those verbs in order; every other verb
      lists exactly the actions for it, with `edit` bound to GET. */
  lemma MemberDefaults(member: ActionVerbs)
    ensures WellFormed(MemberTable(member))
    ensures ActionsFor(MemberTable(member), "PUT") == ["update"] + ActionsWithVerb(MemberVerbs(member), "PUT")
    ensures ActionsFor(MemberTable(member), "DELETE") == ["delete"] + ActionsWithVerb(MemberVerbs(member), "DELETE")
    ensures forall verb :: verb != "PUT" && verb != "DELETE" ==>
      ActionsFor(MemberTable(member), verb) == ActionsWithVerb(MemberVerbs(member), verb)
    ensures "edit" in ActionsFor(MemberTable(member), "GET")
  {
    var edited := MemberVerbs(member);
    var t0 := Swapped(edited);
    SwappedGroupsByVerb(edited);
    var t1 := InsertFirst(t0, "PUT", "update");
    PutWellFormed(t0, "PUT", ["update"] + ActionsFor(t0, "PUT"));
    PutWellFormed(t1, "DELETE", ["delete"] + ActionsFor(t1, "DELETE"));
    forall w ensures ActionsFor(MemberTable(member), w) ==
      if w == "PUT" then ["update"] + ActionsWithVerb(edited, "PUT")
      else if w == "DELETE" then ["delete"] + ActionsWithVerb(edited, "DELETE")
      else ActionsWithVerb(edited, w)
    {
      LookupPut(t0, "PUT", ["update"] + ActionsFor(t0, "PUT"), w);
      LookupPut(t1, "DELETE", ["delete"] + ActionsFor(t1, "DELETE"), w);
    }
    AssignedKeyListed(member, "edit", "GET");
    UpperVerbs();
  }

  /** New actions: `new` is always listed under GET. */
  lemma NewDefaults(newActions: ActionVerbs)
    ensures WellFormed(NewTable(newActions))
    ensures "new" in ActionsFor(NewTable(newActions), "GET")
  {
    SwappedGroupsByVerb(NewVerbs(newActions));
    AssignedKeyListed(newActions, "new", "GET");
    UpperVerbs();
  }

  /** After `m[k] = v`, `k` is listed under the upper-cased `v`. */
  lemma {:induction false} AssignedKeyListed(m: ActionVerbs, k: string, v: string)
    ensures k in ActionsWithVerb(Put(m, k, v), Upper(v))
  {
    var r := Put(m, k, v);
    if m == [] || m[|m| - 1].0 == k || k !in Keys(m[..|m| - 1]) {
      assert r[|r| - 1] == (k, v);
    } else {
      assert r[..|r| - 1] == Put(m[..|m| - 1], k, v);
      AssignedKeyListed(m[..|m| - 1], k, v);
    }
  }

  /** Any action listed under a verb after `m[k] = v` is `k` itself (then the
      verb is the upper-cased `v`) or was listed under that verb before. */
  lemma {:induction false} AssignedListing(m: ActionVerbs, k: string, v: string, verb: string)
    ensures forall a :: a in ActionsWithVerb(Put(m, k, v), verb) ==>
      (a == k && Upper(v) == verb) || a in ActionsWithVerb(m, verb)
  {
    var r := Put(m, k, v);
    if m == [] {
    } else if m[|m| - 1].0 == k {
      var init := m[..|m| - 1];
      assert r[..|r| - 1] == init;
      assert ActionsWithVerb(m, verb) == ActionsWithVerb(init, verb) + if Upper(m[|m| - 1].1) == verb then [k] else [];
    } else if k in Keys(m[..|m| - 1]) {
      var init := m[..|m| - 1];
      assert r[..|r| - 1] == Put(init, k, v);
      AssignedListing(init, k, v, verb);
    } else {
      assert r[..|r| - 1] == m;
    }
  }

  /** Conversely, `m[k] = v` keeps every other action listed where it was. */
  lemma {:induction false} AssignedKeepsOthers(m: ActionVerbs, k: string, v: string, verb: string)
    ensures forall a :: a != k && a in ActionsWithVerb(m, verb) ==> a in ActionsWithVerb(Put(m, k, v), verb)
  {
    var r := Put(m, k, v);
    if m == [] {
    } else if m[|m| - 1].0 == k {
      var init := m[..|m| - 1];
      assert r[..|r| - 1] == init;
    } else if k in Keys(m[..|m| - 1]) {
      var init := m[..|m| - 1];
      assert r[..|r| - 1] == Put(init, k, v);
      AssignedKeepsOthers(init, k, v, verb);
    } else {
      assert r[..|r| - 1] == m;
    }
  }

  /** The actions listed under a verb are keys of the map. */
  lemma {:induction false} ListedAreKeys(m: ActionVerbs, verb: string)
    ensures forall a :: a in ActionsWithVerb(m, verb) ==> a in Keys(m)
  {
    if m != [] {
      var init := m[..|m| - 1];
      assert Keys(m) == Keys(init) + [m[|m| - 1].0];
      ListedAreKeys(init, verb);
    }
  }

  /** With distinct action names, `edit` is listed under GET and nowhere else. */
  lemma EditOnlyUnderGet(member: ActionVerbs)
    requires DistinctKeys(member)
    ensures forall verb :: verb != "GET" ==> "edit" !in ActionsFor(MemberTable(member), verb)
  {
    MemberDefaults(member);
    UpperVerbs();
    forall verb | verb != "GET" ensures "edit" !in ActionsFor(MemberTable(member), verb) {
      AssignedListing(member, "edit", "GET", verb);
      if "edit" in ActionsWithVerb(member, verb) {
        ListedAreKeys(member, verb);
        EditNotListedElsewhere(member, verb);
      }
    }
  }

  /** With distinct keys, once `k` is assigned `v`, `k` is listed under no other verb. */
  lemma {:induction false} EditNotListedElsewhere(m: ActionVerbs, verb: string)
    requires DistinctKeys(m) && verb != "GET"
    ensures "edit" !in ActionsWithVerb(MemberVerbs(m), verb)
  {
    var r := MemberVerbs(m);
    UpperVerbs();
    if m == [] {
    } else if m[|m| - 1].0 == "edit" {
      var init := m[..|m| - 1];
      assert r[..|r| - 1] == init;
      ListedAreKeys(init, verb);
      assert "edit" !in Keys(init);
    } else if "edit" in Keys(m[..|m| - 1]) {
      var init := m[..|m| - 1];
      assert r[..|r| - 1] == MemberVerbs(init);
      EditNotListedElsewhere(init, verb);
    } else {
      assert r[..|r| - 1] == m;
      assert Keys(m) == Keys(m[..|m| - 1]) + [m[|m| - 1].0];
      ListedAreKeys(m, verb);
    }
  }

  /** Assigning `k` a verb other than `verb` adds nothing under `verb`. */
  lemma {:induction false} AssignedAddsNothingElsewhere(m: ActionVerbs, k: string, v: string, verb: string)
    requires Upper(v) != verb && ActionsWithVerb(m, verb) == []
    ensures ActionsWithVerb(Put(m, k, v), verb) == []
  {
    var r := Put(m, k, v);
    if m != [] {
      var init := m[..|m| - 1];
      assert ActionsWithVerb(init, verb) == [];
      if m[|m| - 1].0 == k {
        assert r[..|r| - 1] == init;
      } else if k in Keys(init) {
        assert r[..|r| - 1] == Put(init, k, v);
        AssignedAddsNothingElsewhere(init, k, v, verb);
      } else {
        assert r[..|r| - 1] == m;
      }
    }
  }

  /** Assigning a key the dictionary does not have appends it. */
  lemma PutNewKey<V>(d: Dict<V>, k: string, v: V)
    requires k !in Keys(d)
    ensures Put(d, k, v) == d + [(k, v)]
  {
    if d != [] {
      assert Keys(d) == Keys(d[..|d| - 1]) + [d[|d| - 1].0];
    }
  }

  /** Inserting under a verb the table does not have yet adds it last, with that one action. */
  lemma InsertFirstNewVerb(t: VerbTable, verb: string, action: string)
    requires verb !in Keys(t)
    ensures InsertFirst(t, verb, action) == t + [(verb, [action])]
  {
    LookupFinds(t, verb);
    assert [action] + ActionsFor(t, verb) == [action];
    PutNewKey(t, verb, [action]);
  }

  /** Assigning a new key makes it the last one visited. */
  lemma PutNewKeyIsLast<V>(d: Dict<V>, k: string, v: V)
    requires k !in Keys(d)
    ensures LastKey(Put(d, k, v)) == k
  {
    if d != [] {
      assert Keys(d) == Keys(d[..|d| - 1]) + [d[|d| - 1].0];
    }
  }

  /** A caller's new action other than `new` is listed under its verb, which
      is an upper-case key of the new table. */
  lemma NewActionListed(newActions: ActionVerbs, verb: string, a: string)
    requires a != "new" && a in ActionsWithVerb(newActions, verb)
    ensures IsUpper(verb)
    ensures (verb, ActionsFor(NewTable(newActions), verb)) in NewTable(newActions)
    ensures a in ActionsFor(NewTable(newActions), verb)
  {
    var t := NewTable(newActions);
    SwappedGroupsByVerb(NewVerbs(newActions));
    AssignedKeepsOthers(newActions, "new", "GET", verb);
    ListedVerbIsEntry(t, verb);
    var k :| 0 <= k < |t| && t[k] == (verb, ActionsFor(t, verb));
  }

  /** `create` heads the collection POST entry. */
  lemma CreateListed(collection: ActionVerbs)
    ensures ("POST", ActionsFor(CollectionTable(collection), "POST")) in CollectionTable(collection)
    ensures ActionsFor(CollectionTable(collection), "POST") != []
    ensures ActionsFor(CollectionTable(collection), "POST")[0] == "create"
  {
    CollectionDefaults(collection);
    ListedVerbIsEntry(CollectionTable(collection), "POST");
  }

  /** A collection action bound to GET is listed under GET. */
  lemma CollectionGetListed(collection: ActionVerbs, a: string)
    requires a in ActionsWithVerb(collection, "GET")
    ensures ("GET", ActionsFor(CollectionTable(collection), "GET")) in CollectionTable(collection)
    ensures a in ActionsFor(CollectionTable(collection), "GET")
  {
    CollectionDefaults(collection);
    ListedVerbIsEntry(CollectionTable(collection), "GET");
  }

  /** `new` is listed under GET in the new table. */
  lemma NewListed(newActions: ActionVerbs)
    ensures ("GET", ActionsFor(NewTable(newActions), "GET")) in NewTable(newActions)
    ensures "new" in ActionsFor(NewTable(newActions), "GET")
  {
    NewDefaults(newActions);
    ListedVerbIsEntry(NewTable(newActions), "GET");
  }

  /** `edit` is listed under GET in the member table. */
  lemma EditListed(member: ActionVerbs)
    ensures ("GET", ActionsFor(MemberTable(member), "GET")) in MemberTable(member)
    ensures "edit" in ActionsFor(MemberTable(member), "GET")
  {
    MemberDefaults(member);
    ListedVerbIsEntry(MemberTable(member), "GET");
  }

  /** `update` heads the member PUT entry and `delete` the DELETE entry. */
  lemma MemberPrimaryListed(member: ActionVerbs, verb: string, a: string)
    requires (verb == "PUT" && a == "update") || (verb == "DELETE" && a == "delete")
    ensures (verb, ActionsFor(MemberTable(member), verb)) in MemberTable(member)
    ensures ActionsFor(MemberTable(member), verb) != []
    ensures ActionsFor(MemberTable(member), verb)[0] == a
  {
    MemberDefaults(member);
    ListedVerbIsEntry(MemberTable(member), verb);
  }

  /** A member action other than `edit` under GET or POST is listed under its verb. */
  lemma MemberActionListed(member: ActionVerbs, verb: string, a: string)
    requires verb == "GET" || verb == "POST"
    requires a != "edit" && a in ActionsWithVerb(member, verb)
    ensures (verb, ActionsFor(MemberTable(member), verb)) in MemberTable(member)
    ensures a in ActionsFor(MemberTable(member), verb)
  {
    MemberDefaults(member);
    AssignedKeepsOthers(member, "edit", "GET", verb);
    ListedVerbIsEntry(MemberTable(member), verb);
  }

  /** Without a member action under DELETE, the table built so far has no DELETE verb. */
  lemma DeleteNotYetListed(member: ActionVerbs)
    requires ActionsWithVerb(member, "DELETE") == []
    ensures "DELETE" !in Keys(InsertFirst(Swapped(MemberVerbs(member)), "PUT", "update"))
  {
    var edited := MemberVerbs(member);
    var t0 := Swapped(edited);
    var t1 := InsertFirst(t0, "PUT", "update");
    SwappedGroupsByVerb(edited);
    UpperVerbs();
    AssignedAddsNothingElsewhere(member, "edit", "GET", "DELETE");
    PutWellFormed(t0, "PUT", ["update"] + ActionsFor(t0, "PUT"));
    LookupPut(t0, "PUT", ["update"] + ActionsFor(t0, "PUT"), "DELETE");
    WellFormedActions(t1, "DELETE");
  }

  /** When no member action uses DELETE, DELETE is the member table's last
      verb, so `show` inherits DELETE as its request method. */
  lemma MemberTableLastVerb(member: ActionVerbs)
    requires ActionsWithVerb(member, "DELETE") == []
    ensures LastKey(MemberTable(member)) == "DELETE"
  {
    var t1 := InsertFirst(Swapped(MemberVerbs(member)), "PUT", "update");
    DeleteNotYetListed(member);
    PutNewKeyIsLast(t1, "DELETE", ["delete"] + ActionsFor(t1, "DELETE"));
  }
}
