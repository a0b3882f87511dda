/** The role-to-model policy: `withModels` and `planModelPolicy` of
    scripts/apply-model-policy.mjs, over JSON values whose objects keep their
    key order, so that equality of values is equality of their JSON text. */
module ModelPolicy {
  import opened Collections

  datatype Json = Null | Bool(b: bool) | Num(n: int) | Str(s: string) | Arr(items: seq<Json>) | Obj(fields: Fields)

  type Fields = seq<(string, Json)>

  function Get(o: Fields, k: string): Option<Json> {
    if o == [] then None else if o[0].0 == k then Some(o[0].1) else Get(o[1..], k)
  }

  /** o[k] = v: in place, or at the end. */
  function Set(o: Fields, k: string, v: Json): Fields {
    if o == [] then [(k, v)]
    else if o[0].0 == k then [(k, v)] + o[1..]
    else [o[0]] + Set(o[1..], k, v)
  }

  predicate Truthy(j: Option<Json>) {
    match j
    case None => false
    case Some(Null) => false
    case Some(Bool(b)) => b
    case Some(Num(n)) => n != 0
    case Some(Str(s)) => s != ""
    case Some(_) => true
  }

  lemma {:induction false} FalsyExactly(j: Option<Json>)
    ensures !Truthy(j) <==> j in {None, Some(Null), Some(Bool(false)), Some(Num(0)), Some(Str(""))}
  {
  }

  /** value?.k */
  function Field(j: Option<Json>, k: string): Option<Json> {
    if j.Some? && j.value.Obj? then Get(j.value.fields, k) else None
  }

  function Indexed(items: seq<Json>): Fields {
    if items == [] then [] else Indexed(items[..|items| - 1]) + [(Decimal(|items| - 1), items[|items| - 1])]
  }

  function Chars(s: string): seq<Json> {
    if s == "" then [] else Chars(s[..|s| - 1]) + [Str([s[|s| - 1]])]
  }

  /** { ...(value || {}) } */
  function Spread(j: Option<Json>): Fields {
    match j
    case Some(Obj(fields)) => fields
    case Some(Arr(items)) => Indexed(items)
    case Some(Str(s)) => Indexed(Chars(s))
    case _ => []
  }

  // ----- ordered objects -----

  lemma {:induction false} GetSet(o: Fields, k: string, v: Json, q: string)
    ensures Get(Set(o, k, v), q) == if q == k then Some(v) else Get(o, q)
  {
    if o == [] {
      assert Get([(k, v)][1..], q) == None;
    } else if o[0].0 == k {
      assert ([(k, v)] + o[1..])[1..] == o[1..];
    } else {
      GetSet(o[1..], k, v, q);
      assert ([o[0]] + Set(o[1..], k, v))[1..] == Set(o[1..], k, v);
    }
  }

  lemma {:induction false} SetSame(o: Fields, k: string)
    requires Get(o, k).Some?
    ensures Set(o, k, Get(o, k).value) == o
  {
    if o[0].0 != k { SetSame(o[1..], k); }
    assert o == [o[0]] + o[1..];
  }

  lemma {:induction false} IndexedKeys(items: seq<Json>, k: string)
    requires k == "" || !IsDigit(k[0])
    ensures Get(Indexed(items), k) == None
  {
    if items != [] {
      var front := Indexed(items[..|items| - 1]);
      IndexedKeys(items[..|items| - 1], k);
      GetAppend(front, (Decimal(|items| - 1), items[|items| - 1]), k);
    }
  }

  lemma {:induction false} GetAppend(o: Fields, field: (string, Json), k: string)
    ensures Get(o + [field], k) == if Get(o, k).Some? then Get(o, k) else if field.0 == k then Some(field.1) else None
  {
    if o == [] {
      assert o + [field] == [field] && Get([field][1..], k) == None;
    } else {
      assert (o + [field])[1..] == o[1..] + [field];
      GetAppend(o[1..], field, k);
    }
  }

  // ----- the policy -----

  datatype Route = Route(primary: string, fallbacks: seq<string>)

  const OPENAI_MAIN := "openai/gpt-5.6-sol"
  const LUNA := "openai/gpt-5.6-luna"
  const MINI := "openai/gpt-5.4-mini"
  const COPILOT := "github-copilot/gpt-4.1"
  const CLAUDE := "anthropic/claude-sonnet-5"

  const BUILD := Route(OPENAI_MAIN, [LUNA, CLAUDE, MINI, COPILOT])
  const REVIEW := Route(CLAUDE, [LUNA, OPENAI_MAIN, COPILOT, MINI])
  const CHECK := Route(CLAUDE, [COPILOT, LUNA, OPENAI_MAIN, MINI])

  const DEFAULT_REFS := [OPENAI_MAIN, LUNA, CLAUDE, MINI, COPILOT]

  type Routes = seq<(string, Route)>

  const ROUTES: Routes := [
    ("main", BUILD), ("backend-builder", BUILD), ("frontend-builder", BUILD),
    ("architect", REVIEW), ("reviewer", REVIEW), ("security", REVIEW), ("research", REVIEW), ("learning", REVIEW),
    ("qa", CHECK), ("product", CHECK), ("release", REVIEW)]

  function Refs(r: Route): seq<string> { [r.primary] + r.fallbacks }

  function Strings(refs: seq<string>): (js: seq<Json>)
    ensures |js| == |refs| && forall i :: 0 <= i < |refs| ==> js[i] == Str(refs[i])
  {
    seq(|refs|, i requires 0 <= i < |refs| => Str(refs[i]))
  }

  function ModelOf(r: Route): Json { Obj([("primary", Str(r.primary)), ("fallbacks", Arr(Strings(r.fallbacks)))]) }

  datatype Change = DefaultModel | Registered(ref: string) | Routed(id: string)
  datatype Problem = Missing | TypeError
  datatype Plan = Plan(changes: seq<Change>, warnings: seq<string>, nextConfig: Json)
  datatype Result<+T> = Ok(value: T) | Err(problem: Problem)

  // ----- registering model references -----

  function RegisterOne(models: Fields, ref: string): Fields {
    if Truthy(Get(models, ref)) then models else Set(models, ref, Obj([]))
  }

  function Register(models: Fields, refs: seq<string>): Fields {
    if refs == [] then models else RegisterOne(Register(models, refs[..|refs| - 1]), refs[|refs| - 1])
  }

  function Registrations(models: Fields, refs: seq<string>): seq<Change> {
    if refs == [] then []
    else
      var n := |refs| - 1;
      Registrations(models, refs[..n]) + (if Truthy(Get(Register(models, refs[..n]), refs[n])) then [] else [Registered(refs[n])])
  }

  /** Every reference that was missing, or falsy, is registered with an empty
      entry; every other one, and every key that is not a reference, is as it was. */
  lemma {:induction false} RegisterSpec(models: Fields, refs: seq<string>, k: string)
    ensures Get(Register(models, refs), k) == if k in refs && !Truthy(Get(models, k)) then Some(Obj([])) else Get(models, k)
  {
    if refs != [] {
      var front, last := refs[..|refs| - 1], refs[|refs| - 1];
      assert refs == front + [last];
      RegisterSpec(models, front, k);
      GetSet(Register(models, front), last, Obj([]), k);
    }
  }

  ghost predicate AllRegistered(models: Fields, refs: seq<string>) {
    forall r :: r in refs ==> Truthy(Get(models, r))
  }

  lemma {:induction false} RegisteredIsFixed(models: Fields, refs: seq<string>)
    requires AllRegistered(models, refs)
    ensures Register(models, refs) == models && Registrations(models, refs) == []
  {
    if refs != [] {
      assert refs == refs[..|refs| - 1] + [refs[|refs| - 1]];
      RegisteredIsFixed(models, refs[..|refs| - 1]);
    }
  }

  lemma {:induction false} NothingRegistered(models: Fields, refs: seq<string>)
    requires Registrations(models, refs) == []
    ensures Register(models, refs) == models && AllRegistered(models, refs)
  {
    if refs != [] {
      assert refs == refs[..|refs| - 1] + [refs[|refs| - 1]];
      NothingRegistered(models, refs[..|refs| - 1]);
    }
  }

  predicate NamedRef(r: string) { r != "" && !IsDigit(r[0]) }

  ghost predicate Named(refs: seq<string>) {
    refs != [] && forall r :: r in refs ==> NamedRef(r)
  }

  /** Only an object can have every reference registered. */
  lemma {:induction false} RegisteredIsObject(models: Option<Json>, refs: seq<string>)
    requires Named(refs) && AllRegistered(Spread(models), refs)
    ensures models.Some? && models.value.Obj?
  {
    var r := refs[0];
    assert r in refs && Truthy(Get(Spread(models), r));
    match models
    case Some(Arr(items)) => IndexedKeys(items, r);
    case Some(Str(s)) => IndexedKeys(Chars(s), r);
    case _ =>
  }

  // ----- defaults -----

  function PlanDefaults(d: Fields): (Fields, seq<Change>) {
    var keep := Get(d, "model") == Some(ModelOf(BUILD));
    var d1 := if keep then d else Set(d, "model", ModelOf(BUILD));
    var models := Spread(Get(d1, "models"));
    (Set(d1, "models", Obj(Register(models, DEFAULT_REFS))), (if keep then [] else [DefaultModel]) + Registrations(models, DEFAULT_REFS))
  }

  /** An agent, or the defaults, as the policy wants it. */
  ghost predicate Follows(entry: Fields, r: Route, refs: seq<string>) {
    && Get(entry, "model") == Some(Obj([("primary", Str(r.primary)), ("fallbacks", Arr(Strings(r.fallbacks)))]))
    && exists models :: Get(entry, "models") == Some(Obj(models)) && AllRegistered(models, refs)
  }

  /** What the policy may not touch. */
  ghost predicate SameElsewhere(before: Fields, after: Fields) {
    forall k ::
      && (k != "model" && k != "models" ==> Get(after, k) == Get(before, k))
      && (Truthy(Get(Spread(Get(before, "models")), k)) ==>
            Get(after, "models").Some? && Get(after, "models").value.Obj?
            && Get(Get(after, "models").value.fields, k) == Get(Spread(Get(before, "models")), k))
  }

  function WithDefaultModel(d: Fields): Fields {
    if Get(d, "model") == Some(ModelOf(BUILD)) then d else Set(d, "model", ModelOf(BUILD))
  }

  lemma {:induction false} DefaultsAt(d: Fields, k: string)
    ensures Get(WithDefaultModel(d), k) == if k == "model" then Some(ModelOf(BUILD)) else Get(d, k)
    ensures Get(PlanDefaults(d).0, k) ==
            if k == "model" then Some(ModelOf(BUILD))
            else if k == "models" then Some(Obj(Register(Spread(Get(d, "models")), DEFAULT_REFS)))
            else Get(d, k)
  {
    GetSet(d, "model", ModelOf(BUILD), k);
    GetSet(d, "model", ModelOf(BUILD), "models");
    GetSet(WithDefaultModel(d), "models", Obj(Register(Spread(Get(d, "models")), DEFAULT_REFS)), k);
  }

  lemma {:induction false} DefaultsFollow(d: Fields)
    ensures forall d' :: d' == PlanDefaults(d).0 ==> Follows(d', BUILD, DEFAULT_REFS) && SameElsewhere(d, d')
  {
    var models := Spread(Get(d, "models"));
    forall k { DefaultsAt(d, k); }
    forall k ensures (k in DEFAULT_REFS ==> Truthy(Get(Register(models, DEFAULT_REFS), k)))
                  && (Truthy(Get(models, k)) ==> Get(Register(models, DEFAULT_REFS), k) == Get(models, k)) {
      RegisterSpec(models, DEFAULT_REFS, k);
    }
  }

  lemma {:induction false} DefaultsSpec(d: Fields)
    ensures var (d', changes) := PlanDefaults(d);
            && (changes == [] ==> d' == d)
            && (Follows(d, BUILD, DEFAULT_REFS) ==> changes == [] && d' == d)
  {
    DefaultsAt(d, "models");
    var d1 := WithDefaultModel(d);
    var models := Spread(Get(d1, "models"));
    if PlanDefaults(d).1 == [] {
      NothingRegistered(models, DEFAULT_REFS);
      RegisteredIsObject(Get(d1, "models"), DEFAULT_REFS);
      SetSame(d1, "models");
    }
    if Follows(d, BUILD, DEFAULT_REFS) {
      RegisteredIsFixed(models, DEFAULT_REFS);
      SetSame(d1, "models");
    }
  }

  // ----- one agent -----

  // withModels, then the model itself
  function Updated(entry: Fields, r: Route): Fields {
    Set(Set(entry, "models", Obj(Register(Spread(Get(entry, "models")), Refs(r)))), "model", ModelOf(r))
  }

  predicate SameModels(a: Fields, b: Fields) {
    Get(a, "model") == Get(b, "model") && Get(a, "models") == Get(b, "models")
  }

  function PlanEntry(entry: Fields, r: Route): Fields {
    if SameModels(Updated(entry, r), entry) then entry else Updated(entry, r)
  }

  lemma {:induction false} EntrySpec(entry: Fields, r: Route)
    requires Named(Refs(r))
    ensures forall e :: e == PlanEntry(entry, r) ==> Follows(e, r, Refs(r)) && SameElsewhere(entry, e)
    ensures SameModels(Updated(entry, r), entry) <==> Follows(entry, r, Refs(r))
    ensures PlanEntry(entry, r) == entry <==> Follows(entry, r, Refs(r))
  {
    var models := Spread(Get(entry, "models"));
    var registered := Register(models, Refs(r));
    var e1 := Set(entry, "models", Obj(registered));
    var e2 := Updated(entry, r);
    forall k ensures Get(e2, k) == if k == "model" then Some(ModelOf(r)) else if k == "models" then Some(Obj(registered)) else Get(entry, k) {
      GetSet(entry, "models", Obj(registered), k);
      GetSet(e1, "model", ModelOf(r), k);
    }
    forall k ensures (k in Refs(r) ==> Truthy(Get(registered, k))) && (Truthy(Get(models, k)) ==> Get(registered, k) == Get(models, k)) {
      RegisterSpec(models, Refs(r), k);
    }
    if Follows(entry, r, Refs(r)) {
      RegisteredIsFixed(models, Refs(r));
    }
  }

  // ----- all the routed agents -----

  datatype Entries = Entries(entries: Fields, changes: seq<Change>, warnings: seq<string>)

  function PlanRoute(e: Entries, id: string, r: Route): Result<Entries> {
    var entry := Get(e.entries, id);
    if !Truthy(entry) then Ok(e.(warnings := e.warnings + [id]))
    else if !entry.value.Obj? then Err(TypeError)
    else if SameModels(Updated(entry.value.fields, r), entry.value.fields) then Ok(e)
    else Ok(e.(entries := Set(e.entries, id, Obj(Updated(entry.value.fields, r))), changes := e.changes + [Routed(id)]))
  }

  function PlanRoutes(entries: Fields, routes: Routes): Result<Entries> {
    if routes == [] then Ok(Entries(entries, [], []))
    else
      match PlanRoutes(entries, routes[..|routes| - 1])
      case Err(p) => Err(p)
      case Ok(e) => PlanRoute(e, routes[|routes| - 1].0, routes[|routes| - 1].1)
  }

  ghost predicate Distinct(routes: Routes) {
    && (forall i, j :: 0 <= i < j < |routes| ==> routes[i].0 != routes[j].0)
    && (forall i :: 0 <= i < |routes| ==> Named(Refs(routes[i].1)))
  }

  ghost predicate RoutedTo(routes: Routes, id: string, r: Route) {
    exists i :: 0 <= i < |routes| && routes[i] == (id, r)
  }

  /** Every routed agent that exists follows its route. */
  ghost predicate Settled(entries: Fields, routes: Routes) {
    forall i :: 0 <= i < |routes| && Truthy(Get(entries, routes[i].0)) ==>
      Get(entries, routes[i].0).value.Obj? && Follows(Get(entries, routes[i].0).value.fields, routes[i].1, Refs(routes[i].1))
  }

  ghost predicate OthersKept(before: Fields, after: Fields, routes: Routes) {
    forall id ::
      && ((forall i :: 0 <= i < |routes| ==> routes[i].0 != id) ==> Get(after, id) == Get(before, id))
      && (Truthy(Get(after, id)) <==> Truthy(Get(before, id)))
      && (!Truthy(Get(before, id)) ==> Get(after, id) == Get(before, id))
      && (Truthy(Get(before, id)) && Get(before, id).value.Obj? ==>
            Get(after, id).value.Obj? && SameElsewhereOrSame(Get(before, id).value.fields, Get(after, id).value.fields))
  }

  ghost predicate SameElsewhereOrSame(before: Fields, after: Fields) {
    before == after || SameElsewhere(before, after)
  }

  function RouteFor(routes: Routes, id: string): Option<Route> {
    if routes == [] then None
    else if routes[|routes| - 1].0 == id then Some(routes[|routes| - 1].1)
    else RouteFor(routes[..|routes| - 1], id)
  }

  lemma {:induction false} RouteForIs(routes: Routes, id: string)
    requires Distinct(routes)
    ensures forall i :: 0 <= i < |routes| && routes[i].0 == id ==> RouteFor(routes, id) == Some(routes[i].1)
    ensures RouteFor(routes, id).Some? ==> Named(Refs(RouteFor(routes, id).value)) && RoutedTo(routes, id, RouteFor(routes, id).value)
  {
    if routes != [] {
      var n := |routes| - 1;
      assert forall i :: 0 <= i < n ==> routes[..n][i] == routes[i];
      RouteForIs(routes[..n], id);
      if routes[n].0 == id {
        assert routes[n] == (id, routes[n].1);
      } else if RouteFor(routes[..n], id).Some? {
        var i :| 0 <= i < n && routes[..n][i] == (id, RouteFor(routes[..n], id).value);
        assert routes[i] == (id, RouteFor(routes, id).value);
      }
    }
  }

  /** What becomes of one key: a routed agent that exists is planned, all else is kept. */
  lemma {:induction false} RoutesAt(entries: Fields, routes: Routes, k: string)
    requires Distinct(routes) && PlanRoutes(entries, routes).Ok?
    ensures var after := Get(PlanRoutes(entries, routes).value.entries, k);
            if RouteFor(routes, k).Some? && Truthy(Get(entries, k))
            then Get(entries, k).value.Obj? && after == Some(Obj(PlanEntry(Get(entries, k).value.fields, RouteFor(routes, k).value)))
            else after == Get(entries, k)
  {
    if routes != [] {
      var n := |routes| - 1;
      var (id, r) := routes[n];
      assert forall i :: 0 <= i < n ==> routes[..n][i] == routes[i];
      RoutesAt(entries, routes[..n], k);
      RoutesAt(entries, routes[..n], id);
      NotYetRouted(routes, n);
      RouteAt(PlanRoutes(entries, routes[..n]).value, id, r, k);
    }
  }

  lemma {:induction false} NotYetRouted(routes: Routes, n: nat)
    requires Distinct(routes) && n < |routes|
    ensures Distinct(routes[..n]) && RouteFor(routes[..n], routes[n].0).None?
  {
    RouteForIs(routes[..n], routes[n].0);
    assert forall i :: 0 <= i < n ==> routes[i].0 != routes[n].0;
  }

  lemma {:induction false} RouteAt(e: Entries, id: string, r: Route, k: string)
    requires PlanRoute(e, id, r).Ok?
    ensures var before, after := Get(e.entries, k), Get(PlanRoute(e, id, r).value.entries, k);
            if k == id && Truthy(before) then before.value.Obj? && after == Some(Obj(PlanEntry(before.value.fields, r)))
            else after == before
  {
    if Truthy(Get(e.entries, id)) {
      GetSet(e.entries, id, Obj(Updated(Get(e.entries, id).value.fields, r)), k);
    }
  }

  lemma {:induction false} RoutesSettle(entries: Fields, routes: Routes)
    requires Distinct(routes) && PlanRoutes(entries, routes).Ok?
    ensures Settled(PlanRoutes(entries, routes).value.entries, routes)
  {
    var after := PlanRoutes(entries, routes).value.entries;
    forall i | 0 <= i < |routes| && Truthy(Get(after, routes[i].0))
      ensures Get(after, routes[i].0).value.Obj? && Follows(Get(after, routes[i].0).value.fields, routes[i].1, Refs(routes[i].1))
    {
      var (id, r) := routes[i];
      RoutesAt(entries, routes, id);
      RouteForIs(routes, id);
      assert Truthy(Get(entries, id));
      EntrySpec(Get(entries, id).value.fields, r);
    }
  }

  lemma {:induction false} RoutesKeep(entries: Fields, routes: Routes)
    requires Distinct(routes) && PlanRoutes(entries, routes).Ok?
    ensures OthersKept(entries, PlanRoutes(entries, routes).value.entries, routes)
  {
    var after := PlanRoutes(entries, routes).value.entries;
    forall id
      ensures (forall i :: 0 <= i < |routes| ==> routes[i].0 != id) ==> Get(after, id) == Get(entries, id)
      ensures Truthy(Get(after, id)) <==> Truthy(Get(entries, id))
      ensures !Truthy(Get(entries, id)) ==> Get(after, id) == Get(entries, id)
      ensures Truthy(Get(entries, id)) && Get(entries, id).value.Obj? ==>
                Get(after, id).value.Obj? && SameElsewhereOrSame(Get(entries, id).value.fields, Get(after, id).value.fields)
    {
      RoutesAt(entries, routes, id);
      RouteForIs(routes, id);
      if RouteFor(routes, id).Some? && Truthy(Get(entries, id)) {
        EntrySpec(Get(entries, id).value.fields, RouteFor(routes, id).value);
        var i :| 0 <= i < |routes| && routes[i] == (id, RouteFor(routes, id).value);
        assert routes[i].0 == id;
      }
    }
  }

  lemma {:induction false} RoutesUnchanged(entries: Fields, routes: Routes)
    requires PlanRoutes(entries, routes).Ok? && PlanRoutes(entries, routes).value.changes == []
    ensures PlanRoutes(entries, routes).value.entries == entries
  {
    if routes != [] { RoutesUnchanged(entries, routes[..|routes| - 1]); }
  }

  lemma {:induction false} SettledIsFixed(entries: Fields, routes: Routes)
    requires Distinct(routes) && Settled(entries, routes)
    ensures PlanRoutes(entries, routes).Ok?
    ensures PlanRoutes(entries, routes).value.entries == entries && PlanRoutes(entries, routes).value.changes == []
  {
    if routes != [] {
      var n := |routes| - 1;
      assert forall i :: 0 <= i < n ==> routes[i] == routes[..n][i];
      SettledIsFixed(entries, routes[..n]);
      if Truthy(Get(entries, routes[n].0)) {
        EntrySpec(Get(entries, routes[n].0).value.fields, routes[n].1);
      }
    }
  }

  // ----- the whole plan -----

  function PlanModelPolicy(config: Json, routes: Routes): Result<Plan> {
    var agents := Field(Some(config), "agents");
    var defaults := Field(agents, "defaults");
    var entries := Field(agents, "entries");
    if !Truthy(defaults) || !Truthy(entries) then Err(Missing)
    else if !defaults.value.Obj? then Err(TypeError)
    else
      var (d, changes) := PlanDefaults(defaults.value.fields);
      if !entries.value.Obj? then
        // an id is never a property of a scalar or of an array
        Ok(Plan(changes, Ids(routes), Rebuild(config, Obj(d), entries.value)))
      else
        match PlanRoutes(entries.value.fields, routes)
        case Err(p) => Err(p)
        case Ok(e) => Ok(Plan(changes + e.changes, e.warnings, Rebuild(config, Obj(d), Obj(e.entries))))
  }

  /** The clone, with its defaults and its entries as they were left. */
  function Rebuild(config: Json, defaults: Json, entries: Json): Json {
    if !config.Obj? || Field(Some(config), "agents").None? || !Field(Some(config), "agents").value.Obj? then config
    else
      var agents := Field(Some(config), "agents").value.fields;
      Obj(Set(config.fields, "agents", Obj(Set(Set(agents, "defaults", defaults), "entries", entries))))
  }

  function Defaults(config: Json): Option<Json> { Field(Field(Some(config), "agents"), "defaults") }
  function AgentEntries(config: Json): Option<Json> { Field(Field(Some(config), "agents"), "entries") }

  lemma {:induction false} RebuildSpec(config: Json, defaults: Json, entries: Json)
    requires Defaults(config).Some? && AgentEntries(config).Some?
    ensures var next := Rebuild(config, defaults, entries);
            && Defaults(next) == Some(defaults) && AgentEntries(next) == Some(entries)
            && (forall k :: k != "agents" ==> Field(Some(next), k) == Field(Some(config), k))
            && (forall k :: k != "defaults" && k != "entries" ==> Field(Field(Some(next), "agents"), k) == Field(Field(Some(config), "agents"), k))
    ensures Rebuild(config, Defaults(config).value, AgentEntries(config).value) == config
  {
    var agents := Field(Some(config), "agents").value.fields;
    var a1 := Set(agents, "defaults", defaults);
    var a2 := Set(a1, "entries", entries);
    forall k ensures Get(a2, k) == if k == "entries" then Some(entries) else if k == "defaults" then Some(defaults) else Get(agents, k) {
      GetSet(agents, "defaults", defaults, k);
      GetSet(a1, "entries", entries, k);
    }
    forall k ensures Get(Set(config.fields, "agents", Obj(a2)), k) == if k == "agents" then Some(Obj(a2)) else Get(config.fields, k) {
      GetSet(config.fields, "agents", Obj(a2), k);
    }
    SetSame(agents, "defaults");
    SetSame(agents, "entries");
    SetSame(config.fields, "agents");
  }

  /** The configuration already is what the policy wants. */
  ghost predicate Compliant(config: Json, routes: Routes) {
    && Truthy(Defaults(config)) && Truthy(AgentEntries(config))
    && Defaults(config).value.Obj? && Follows(Defaults(config).value.fields, BUILD, DEFAULT_REFS)
    && (AgentEntries(config).value.Obj? ==> Settled(AgentEntries(config).value.fields, routes))
  }

  lemma {:induction false} PlanIsCompliant(config: Json, routes: Routes)
    requires Distinct(routes) && PlanModelPolicy(config, routes).Ok?
    ensures Compliant(PlanModelPolicy(config, routes).value.nextConfig, routes)
    ensures PlanModelPolicy(config, routes).value.changes == [] ==> PlanModelPolicy(config, routes).value.nextConfig == config
  {
    var d := PlanDefaults(Defaults(config).value.fields).0;
    DefaultsFollow(Defaults(config).value.fields);
    DefaultsSpec(Defaults(config).value.fields);
    RebuildSpec(config, Obj(d), AgentEntries(config).value);
    if AgentEntries(config).value.Obj? {
      var fields := AgentEntries(config).value.fields;
      RoutesSettle(fields, routes);
      if PlanRoutes(fields, routes).value.changes == [] { RoutesUnchanged(fields, routes); }
      RebuildSpec(config, Obj(d), Obj(PlanRoutes(AgentEntries(config).value.fields, routes).value.entries));
    }
  }

  lemma {:induction false} CompliantIsFixed(config: Json, routes: Routes)
    requires Distinct(routes) && Compliant(config, routes)
    ensures PlanModelPolicy(config, routes).Ok?
    ensures PlanModelPolicy(config, routes).value.changes == [] && PlanModelPolicy(config, routes).value.nextConfig == config
  {
    DefaultsFollow(Defaults(config).value.fields);
    DefaultsSpec(Defaults(config).value.fields);
    RebuildSpec(config, Defaults(config).value, AgentEntries(config).value);
    if AgentEntries(config).value.Obj? { SettledIsFixed(AgentEntries(config).value.fields, routes); }
  }

  /** Planning on a plan's own result changes nothing. */
  lemma {:induction false} Idempotent(config: Json, routes: Routes)
    requires Distinct(routes) && PlanModelPolicy(config, routes).Ok?
    ensures var next := PlanModelPolicy(config, routes).value.nextConfig;
            && PlanModelPolicy(next, routes).Ok?
            && PlanModelPolicy(next, routes).value.changes == []
            && PlanModelPolicy(next, routes).value.nextConfig == next
  {
    PlanIsCompliant(config, routes);
    CompliantIsFixed(PlanModelPolicy(config, routes).value.nextConfig, routes);
  }

  /** No changes are reported exactly when the configuration is left as it is,
      which is exactly when it already complies. */
  lemma {:induction false} NoChangesExactly(config: Json, routes: Routes)
    requires Distinct(routes) && PlanModelPolicy(config, routes).Ok?
    ensures PlanModelPolicy(config, routes).value.changes == [] <==> PlanModelPolicy(config, routes).value.nextConfig == config
    ensures PlanModelPolicy(config, routes).value.changes == [] <==> Compliant(config, routes)
  {
    PlanIsCompliant(config, routes);
    if Compliant(config, routes) { CompliantIsFixed(config, routes); }
  }

  /** Every routed agent that exists gets its route with all its references
      registered; every other agent, every field but `model` and `models`, and
      every truthy `models` entry is as it was. */
  lemma {:induction false} CompleteAndFramed(config: Json, routes: Routes, id: string, r: Route)
    requires Distinct(routes) && PlanModelPolicy(config, routes).Ok? && AgentEntries(config).value.Obj?
    ensures var next := PlanModelPolicy(config, routes).value.nextConfig;
            AgentEntries(next).Some? && AgentEntries(next).value.Obj? && Defaults(next).Some? && Defaults(next).value.Obj?
    ensures var before, after := AgentEntries(config).value.fields, AgentEntries(PlanModelPolicy(config, routes).value.nextConfig).value.fields;
            && OthersKept(before, after, routes)
            && (RoutedTo(routes, id, r) && Truthy(Get(before, id)) ==>
                  Get(after, id).Some? && Get(after, id).value.Obj? && Follows(Get(after, id).value.fields, r, Refs(r)))
    ensures var next := PlanModelPolicy(config, routes).value.nextConfig;
            && Follows(Defaults(next).value.fields, BUILD, DEFAULT_REFS)
            && SameElsewhere(Defaults(config).value.fields, Defaults(next).value.fields)
            && (forall k :: k != "agents" ==> Field(Some(next), k) == Field(Some(config), k))
  {
    DefaultsFollow(Defaults(config).value.fields);
    DefaultsSpec(Defaults(config).value.fields);
    var fields := AgentEntries(config).value.fields;
    RoutesSettle(fields, routes);
    RoutesKeep(fields, routes);
    if RoutedTo(routes, id, r) && Truthy(Get(fields, id)) {
      var i :| 0 <= i < |routes| && routes[i] == (id, r);
      assert routes[i].0 == id && routes[i].1 == r;
    }
    RebuildSpec(config, Obj(PlanDefaults(Defaults(config).value.fields).0), Obj(PlanRoutes(AgentEntries(config).value.fields, routes).value.entries));
  }

  function Ids(routes: Routes): (ids: seq<string>)
    ensures |ids| == |routes| && forall i :: 0 <= i < |routes| ==> ids[i] == routes[i].0
  {
    seq(|routes|, i requires 0 <= i < |routes| => routes[i].0)
  }

  // ----- what the plan reports -----

  lemma {:induction false} RegistrationsReported(models: Fields, refs: seq<string>, c: Change)
    ensures c in Registrations(models, refs) <==> c.Registered? && c.ref in refs && !Truthy(Get(models, c.ref))
  {
    if refs != [] {
      var front, last := refs[..|refs| - 1], refs[|refs| - 1];
      assert refs == front + [last];
      RegistrationsReported(models, front, c);
      RegisterSpec(models, front, last);
    }
  }

  /** The ids of the routed agents that do not exist. */
  function Absent(entries: Fields): string -> bool {
    (id: string) => !Truthy(Get(entries, id))
  }

  lemma {:induction false} RoutesReported(entries: Fields, routes: Routes, c: Change)
    requires Distinct(routes) && PlanRoutes(entries, routes).Ok?
    ensures var e := PlanRoutes(entries, routes).value;
            c in e.changes <==> c.Routed? && Get(e.entries, c.id) != Get(entries, c.id)
  {
    if routes != [] {
      var n := |routes| - 1;
      var (id, r) := routes[n];
      assert forall i :: 0 <= i < n ==> routes[..n][i] == routes[i];
      NotYetRouted(routes, n);
      RoutesReported(entries, routes[..n], c);
      RoutesAt(entries, routes[..n], id);
      var e := PlanRoutes(entries, routes[..n]).value;
      if c.Routed? { RouteReported(e, id, r, c.id); }
    }
  }

  lemma {:induction false} RoutesWarned(entries: Fields, routes: Routes)
    requires Distinct(routes) && PlanRoutes(entries, routes).Ok?
    ensures PlanRoutes(entries, routes).value.warnings == Filter(Absent(entries), Ids(routes))
  {
    if routes != [] {
      var n := |routes| - 1;
      var id := routes[n].0;
      NotYetRouted(routes, n);
      RoutesWarned(entries, routes[..n]);
      RoutesAt(entries, routes[..n], id);
      AbsentSnoc(entries, routes);
    }
  }

  lemma {:induction false} AbsentSnoc(entries: Fields, routes: Routes)
    requires routes != []
    ensures var n := |routes| - 1;
            var before := Filter(Absent(entries), Ids(routes[..n]));
            Filter(Absent(entries), Ids(routes)) == if Truthy(Get(entries, routes[n].0)) then before else before + [routes[n].0]
  {
    var n := |routes| - 1;
    assert Ids(routes) == Ids(routes[..n]) + [routes[n].0];
    FilterAppend(Absent(entries), Ids(routes[..n]), [routes[n].0]);
    FilterCons(Absent(entries), routes[n].0, []);
  }

  lemma {:induction false} RouteReported(e: Entries, id: string, r: Route, k: string)
    requires PlanRoute(e, id, r).Ok?
    ensures var e' := PlanRoute(e, id, r).value;
            && e'.changes == e.changes + (if Get(e'.entries, id) != Get(e.entries, id) then [Routed(id)] else [])
            && (k != id ==> Get(e'.entries, k) == Get(e.entries, k))
  {
    if Truthy(Get(e.entries, id)) {
      var updated := Obj(Updated(Get(e.entries, id).value.fields, r));
      GetSet(e.entries, id, updated, k);
      GetSet(e.entries, id, updated, id);
    }
  }

  /** The changes reported are exactly the changes made: the default model if it
      was another one, each reference that was not yet registered, each agent
      whose entry is not as it was; and the warnings are the routed agents that do
      not exist, in the order of the table. */
  lemma {:induction false} ReportExactly(config: Json, routes: Routes, c: Change)
    requires Distinct(routes) && PlanModelPolicy(config, routes).Ok?
    ensures var plan := PlanModelPolicy(config, routes).value;
            var d := Defaults(config).value.fields;
            && (c in plan.changes <==>
                  match c
                  case DefaultModel => Get(d, "model") != Some(ModelOf(BUILD))
                  case Registered(ref) => ref in DEFAULT_REFS && !Truthy(Get(Spread(Get(d, "models")), ref))
                  case Routed(id) => Field(AgentEntries(plan.nextConfig), id) != Field(AgentEntries(config), id))
            && plan.warnings == if AgentEntries(config).value.Obj? then Filter(Absent(AgentEntries(config).value.fields), Ids(routes)) else Ids(routes)
  {
    var d := Defaults(config).value.fields;
    DefaultsAt(d, "models");
    RegistrationsReported(Spread(Get(d, "models")), DEFAULT_REFS, c);
    RebuildSpec(config, Obj(PlanDefaults(d).0), AgentEntries(config).value);
    if AgentEntries(config).value.Obj? {
      var fields := AgentEntries(config).value.fields;
      RoutesReported(fields, routes, c);
      RoutesWarned(fields, routes);
      RebuildSpec(config, Obj(PlanDefaults(d).0), Obj(PlanRoutes(fields, routes).value.entries));
    }
  }

  /** The policy's own table meets what the lemmas ask of a table of routes. */
  lemma {:induction false} TheRoutesAreDistinct()
    ensures Distinct(ROUTES)
  {
  }

  // ----- the code, assigning into its clone -----

  /** withModels */
  method WithModels(entry: Fields, refs: seq<string>) returns (next: Fields)
    ensures next == Set(entry, "models", Obj(Register(Spread(Get(entry, "models")), refs)))
  {
    var models := Spread(Get(entry, "models"));
    for i := 0 to |refs|
      invariant models == Register(Spread(Get(entry, "models")), refs[..i])
    {
      assert refs[..i + 1][..i] == refs[..i];
      var had := Get(models, refs[i]);
      // next.models[r] = next.models[r] || {}
      if Truthy(had) { SetSame(models, refs[i]); }
      models := Set(models, refs[i], if Truthy(had) then had.value else Obj([]));
    }
    assert refs[..|refs|] == refs;
    next := Set(entry, "models", Obj(models));
  }

  /** planModelPolicy */
  method ComputePlan(config: Json) returns (plan: Result<Plan>)
    ensures plan == PlanModelPolicy(config, ROUTES)
  {
    var defaults, entries := Defaults(config), AgentEntries(config);
    if !Truthy(defaults) || !Truthy(entries) { return Err(Missing); }
    if !defaults.value.Obj? { return Err(TypeError); }
    var d, changes := ComputeDefaults(defaults.value.fields);
    if !entries.value.Obj? { return Ok(Plan(changes, Ids(ROUTES), Rebuild(config, Obj(d), entries.value))); }
    var planned := ComputeRoutes(entries.value.fields, ROUTES);
    match planned {
      case Err(problem) => return Err(problem);
      case Ok(e) => return Ok(Plan(changes + e.changes, e.warnings, Rebuild(config, Obj(d), Obj(e.entries))));
    }
  }

  /** Its loop over the agents of the policy. */
  method ComputeRoutes(entries: Fields, routes: Routes) returns (planned: Result<Entries>)
    ensures planned == PlanRoutes(entries, routes)
  {
    var e := Entries(entries, [], []);
    for i := 0 to |routes|
      invariant PlanRoutes(entries, routes[..i]) == Ok(e)
    {
      assert routes[..i + 1][..i] == routes[..i];
      var (id, route) := routes[i];
      var entry := Get(e.entries, id);
      if !Truthy(entry) {
        e := e.(warnings := e.warnings + [id]);
      } else if !entry.value.Obj? {
        RoutesStop(entries, routes, i + 1);
        return Err(TypeError);
      } else {
        var updated := WithModels(entry.value.fields, Refs(route));
        updated := Set(updated, "model", ModelOf(route));
        if !SameModels(updated, entry.value.fields) {
          e := e.(entries := Set(e.entries, id, Obj(updated)), changes := e.changes + [Routed(id)]);
        }
      }
    }
    assert routes[..|routes|] == routes;
    planned := Ok(e);
  }

  method ComputeDefaults(defaults: Fields) returns (d: Fields, changes: seq<Change>)
    ensures (d, changes) == PlanDefaults(defaults)
  {
    d, changes := defaults, [];
    if Get(d, "model") != Some(ModelOf(BUILD)) {
      d := Set(d, "model", ModelOf(BUILD));
      changes := [DefaultModel];
    }
    var models, more := RegisterAll(Spread(Get(d, "models")), DEFAULT_REFS);
    changes := changes + more;
    d := Set(d, "models", Obj(models));
  }

  /** Its loop over the references every agent may fall back on. */
  method RegisterAll(models0: Fields, refs: seq<string>) returns (models: Fields, changes: seq<Change>)
    ensures models == Register(models0, refs) && changes == Registrations(models0, refs)
  {
    models, changes := models0, [];
    for i := 0 to |refs|
      invariant models == Register(models0, refs[..i])
      invariant changes == Registrations(models0, refs[..i])
    {
      assert refs[..i + 1][..i] == refs[..i];
      if !Truthy(Get(models, refs[i])) {
        models := Set(models, refs[i], Obj([]));
        changes := changes + [Registered(refs[i])];
      }
    }
    assert refs[..|refs|] == refs;
  }

  lemma {:induction false} RoutesStop(entries: Fields, routes: Routes, i: nat)
    requires i <= |routes| && PlanRoutes(entries, routes[..i]).Err?
    ensures PlanRoutes(entries, routes) == PlanRoutes(entries, routes[..i])
    decreases |routes|
  {
    if i == |routes| {
      assert routes[..i] == routes;
    } else {
      var front := routes[..|routes| - 1];
      assert front[..i] == routes[..i];
      RoutesStop(entries, front, i);
    }
  }
}
