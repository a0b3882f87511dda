/** The /api/hq/company cache of dashboard/backend/server.mjs: a Map read when a
    request arrives and overwritten when its build completes, with any number
    of requests overlapping and builds finishing in any order. */
module CompanyCache {
  import opened Collections

  datatype Flags = Flags(github: bool, runtime: bool)

  /** A built company state; `flags` and `begunAt` say which build it is. */
  datatype Company = Company(flags: Flags, begunAt: int, body: string)
  datatype Entry = Entry(builtAt: int, value: Company)

  // `${withGithub ? "g" : ""}${withRuntime ? "r" : ""}` || "plain"
  function Key(f: Flags): string {
    var k := (if f.github then "g" else "") + (if f.runtime then "r" else "");
    if k == "" then "plain" else k
  }

  /** The key keeps the four enrichments apart. */
  lemma {:induction false} KeyIsInjective(a: Flags, b: Flags)
    ensures Key(a) == Key(b) <==> a == b
  {
    assert "g" + "" == "g" && "g" + "r" == "gr" && "" + "r" == "r";
    assert |"plain"| == 5 && "g"[0] != "r"[0];
  }

  predicate Hit(cache: map<string, Entry>, f: Flags, force: bool, now: int, ttl: int) {
    !force && Key(f) in cache && now - cache[Key(f)].builtAt < ttl
  }

  // ----- overlapping requests -----

  type RequestId = nat

  datatype Request = Request(flags: Flags, force: bool, at: int)
  datatype Answer = Fresh(value: Company) | Miss(value: Company) | Failed

  /** `building` are the requests awaiting their build; `answered` remembers. */
  datatype Server = Server(clock: int, cache: map<string, Entry>, building: map<RequestId, Request>,
                           answered: map<RequestId, (Request, Answer)>)

  datatype Step =
    | Arrive(id: RequestId, request: Request)
    | Finish(id: RequestId, body: string)
    | Break(id: RequestId)

  function Boot(clock: int): Server { Server(clock, map[], map[], map[]) }

  predicate Enabled(s: Server, step: Step) {
    match step
    case Arrive(id, r) => id !in s.building && id !in s.answered && r.at >= s.clock
    case Finish(id, _) => id in s.building
    case Break(id) => id in s.building
  }

  function Built(r: Request, body: string): Company { Company(r.flags, r.at, body) }

  function Apply(s: Server, ttl: int, step: Step): Server
    requires Enabled(s, step)
  {
    match step
    case Arrive(id, r) =>
      if Hit(s.cache, r.flags, r.force, r.at, ttl) then
        s.(clock := r.at, answered := s.answered[id := (r, Fresh(s.cache[Key(r.flags)].value))])
      else
        s.(clock := r.at, building := s.building[id := r])
    case Finish(id, body) =>
      var r := s.building[id];
      Server(s.clock, s.cache[Key(r.flags) := Entry(r.at, Built(r, body))], s.building - {id},
             s.answered[id := (r, Miss(Built(r, body)))])
    case Break(id) => s.(building := s.building - {id}, answered := s.answered[id := (s.building[id], Failed)])
  }

  ghost predicate Follows(s: Server, ttl: int, run: seq<Step>)
    decreases |run|
  {
    run == [] || (Enabled(s, run[0]) && Follows(Apply(s, ttl, run[0]), ttl, run[1..]))
  }

  ghost function After(s: Server, ttl: int, run: seq<Step>): Server
    requires Follows(s, ttl, run)
    decreases |run|
  {
    if run == [] then s else After(Apply(s, ttl, run[0]), ttl, run[1..])
  }

  /** An answer that keeps its promise. */
  ghost predicate Honest(ttl: int, r: Request, a: Answer) {
    match a
    case Fresh(v) => v.flags == r.flags && !r.force && v.begunAt <= r.at && r.at - v.begunAt < ttl
    case Miss(v) => v.flags == r.flags && v.begunAt == r.at
    case Failed => true
  }

  ghost predicate Inv(s: Server, ttl: int) {
    && (forall k :: k in s.cache ==>
          k == Key(s.cache[k].value.flags) && s.cache[k].builtAt == s.cache[k].value.begunAt <= s.clock)
    && (forall id :: id in s.building ==> s.building[id].at <= s.clock && id !in s.answered)
    && (forall id :: id in s.answered ==> Honest(ttl, s.answered[id].0, s.answered[id].1))
  }

  lemma {:induction false} StepKeeps(s: Server, ttl: int, step: Step)
    requires Inv(s, ttl) && Enabled(s, step)
    ensures Inv(Apply(s, ttl, step), ttl)
  {
    if step.Arrive? && Hit(s.cache, step.request.flags, step.request.force, step.request.at, ttl) {
      KeyIsInjective(step.request.flags, s.cache[Key(step.request.flags)].value.flags);
    }
  }

  /** Every answer of every run: "fresh" has exactly the flags asked for and
      comes from a build begun less than the TTL before the request; a forced
      request is never answered from the cache. */
  lemma {:induction false} EveryAnswerIsHonest(s: Server, ttl: int, run: seq<Step>)
    requires Inv(s, ttl) && Follows(s, ttl, run)
    ensures Inv(After(s, ttl, run), ttl)
    ensures forall id :: id in After(s, ttl, run).answered ==>
              var (r, a) := After(s, ttl, run).answered[id];
              (a.Fresh? ==> a.value.flags == r.flags && !r.force && r.at - a.value.begunAt < ttl && a.value.begunAt <= r.at)
    decreases |run|
  {
    if run != [] {
      StepKeeps(s, ttl, run[0]);
      EveryAnswerIsHonest(Apply(s, ttl, run[0]), ttl, run[1..]);
    }
  }

  /** The last build of the key to finish in a run. */
  ghost function LastFinish(s: Server, ttl: int, run: seq<Step>, k: string): Option<RequestId>
    requires Follows(s, ttl, run)
    decreases |run|
  {
    if run == [] then None
    else
      var later := LastFinish(Apply(s, ttl, run[0]), ttl, run[1..], k);
      if later.Some? then later
      else if run[0].Finish? && Key(s.building[run[0].id].flags) == k then Some(run[0].id)
      else None
  }

  /** What is cached after a run is the build that finished last, whenever it
      began: one already going when the run started began when it says, any
      other began no earlier than the run. */
  lemma {:induction false} LastFinishStays(s: Server, ttl: int, run: seq<Step>, k: string)
    requires Inv(s, ttl) && Follows(s, ttl, run)
    ensures var t := After(s, ttl, run);
            match LastFinish(s, ttl, run, k)
            case None => (k in t.cache <==> k in s.cache) && (k in s.cache ==> t.cache[k] == s.cache[k])
            case Some(id) =>
              && k in t.cache
              && (id in s.building ==> Key(s.building[id].flags) == k && t.cache[k].builtAt == s.building[id].at)
              && (id !in s.building ==> t.cache[k].builtAt >= s.clock)
    ensures forall id :: id in s.answered ==> LastFinish(s, ttl, run, k) != Some(id)
    decreases |run|
  {
    if run != [] {
      StepKeeps(s, ttl, run[0]);
      LastFinishStays(Apply(s, ttl, run[0]), ttl, run[1..], k);
    }
  }

  /** Between two moments of a run the cached build of a key steps back exactly
      when the last build of that key to finish in between was already going at
      the first of them and had begun before the one cached then: the two
      overlapped, and finished in the other order. */
  lemma {:induction false} CacheStepsBackExactly(s: Server, ttl: int, run: seq<Step>, k: string)
    requires Inv(s, ttl) && Follows(s, ttl, run) && k in s.cache
    ensures k in After(s, ttl, run).cache
    ensures After(s, ttl, run).cache[k].builtAt < s.cache[k].builtAt <==>
            var last := LastFinish(s, ttl, run, k);
            last.Some? && last.value in s.building && s.building[last.value].at < s.cache[k].builtAt
  {
    LastFinishStays(s, ttl, run, k);
  }

  lemma {:induction false} First(s: Server, ttl: int, step: Step, rest: seq<Step>)
    requires Enabled(s, step) && Follows(Apply(s, ttl, step), ttl, rest)
    ensures Follows(s, ttl, [step] + rest) && After(s, ttl, [step] + rest) == After(Apply(s, ttl, step), ttl, rest)
  {
    assert ([step] + rest)[1..] == rest;
  }

  /** So a later reader can be given an older company than an earlier one: a
      slow build begun first finishes last, and is served as fresh. */
  lemma {:induction false} LaterReadCanBeOlder(f: Flags, ttl: int)
    requires ttl > 2
    ensures var run := [Arrive(0, Request(f, false, 0)), Arrive(1, Request(f, true, 1)), Finish(1, "new"), Finish(0, "old"), Arrive(2, Request(f, false, 2))];
            && Follows(Boot(0), ttl, run)
            && var s := After(Boot(0), ttl, run);
               && 1 in s.answered && s.answered[1].1 == Miss(Company(f, 1, "new"))
               && 2 in s.answered && s.answered[2].1 == Fresh(Company(f, 0, "old"))
  {
    var a, b, c := Request(f, false, 0), Request(f, true, 1), Request(f, false, 2);
    var s1 := Apply(Boot(0), ttl, Arrive(0, a));
    var s2 := Apply(s1, ttl, Arrive(1, b));
    var s3 := Apply(s2, ttl, Finish(1, "new"));
    var s4 := Apply(s3, ttl, Finish(0, "old"));
    assert s4.cache[Key(f)] == Entry(0, Company(f, 0, "old"));
    var s5 := Apply(s4, ttl, Arrive(2, c));
    assert Follows(s5, ttl, []) && After(s5, ttl, []) == s5;
    First(s4, ttl, Arrive(2, c), []);
    First(s3, ttl, Finish(0, "old"), [Arrive(2, c)]);
    First(s2, ttl, Finish(1, "new"), [Finish(0, "old"), Arrive(2, c)]);
    First(s1, ttl, Arrive(1, b), [Finish(1, "new"), Finish(0, "old"), Arrive(2, c)]);
    First(Boot(0), ttl, Arrive(0, a), [Arrive(1, b), Finish(1, "new"), Finish(0, "old"), Arrive(2, c)]);
    assert [Arrive(2, c)] + [] == [Arrive(2, c)];
    assert [Finish(0, "old")] + [Arrive(2, c)] == [Finish(0, "old"), Arrive(2, c)];
    assert [Finish(1, "new")] + [Finish(0, "old"), Arrive(2, c)] == [Finish(1, "new"), Finish(0, "old"), Arrive(2, c)];
    assert [Arrive(1, b)] + [Finish(1, "new"), Finish(0, "old"), Arrive(2, c)] == [Arrive(1, b), Finish(1, "new"), Finish(0, "old"), Arrive(2, c)];
    assert [Arrive(0, a)] + [Arrive(1, b), Finish(1, "new"), Finish(0, "old"), Arrive(2, c)]
        == [Arrive(0, a), Arrive(1, b), Finish(1, "new"), Finish(0, "old"), Arrive(2, c)];
  }

  // ----- the route handler's two halves, around its one await -----

  /** Each entry sits under its own key, with the time its build began. */
  ghost predicate Sound(cache: map<string, Entry>) {
    forall k :: k in cache ==> k == Key(cache[k].value.flags) && cache[k].builtAt == cache[k].value.begunAt
  }

  class CompanyRoute {
    const ttl: int
    var companyCache: map<string, Entry>

    ghost predicate Valid()
      reads this
    {
      Sound(companyCache)
    }

    constructor (ttl: int)
      ensures Valid() && this.ttl == ttl && companyCache == map[]
    {
      this.ttl, companyCache := ttl, map[];
    }

    /** Up to the await: nothing is answered, and a build begins, exactly when
        the request is forced or every cached build with its flags began at least
        the TTL ago; an answer is such a build, marked fresh. */
    method Look(request: Request) returns (answer: Option<Answer>)
      requires Valid()
      ensures answer.None? <==>
                request.force
                || forall k :: k in companyCache && companyCache[k].value.flags == request.flags ==>
                     request.at - companyCache[k].value.begunAt >= ttl
      ensures answer.Some? ==>
                && answer.value.Fresh? && answer.value.value.flags == request.flags
                && request.at - answer.value.value.begunAt < ttl
                && exists k :: k in companyCache && companyCache[k].value == answer.value.value
    {
      var key := Key(request.flags);
      forall f | Key(f) == key ensures f == request.flags { KeyIsInjective(f, request.flags); }
      if !request.force && key in companyCache && request.at - companyCache[key].builtAt < ttl {
        return Some(Fresh(companyCache[key].value));
      }
      return None;
    }

    /** After the await: store and answer. The step `Finish` of the server. */
    method Store(request: Request, body: string, ghost s: Server, ghost id: RequestId) returns (answer: Answer)
      requires Valid() && s.cache == companyCache && id in s.building && s.building[id] == request
      modifies this
      ensures Valid()
      ensures companyCache == Apply(s, ttl, Finish(id, body)).cache
      ensures (request, answer) == Apply(s, ttl, Finish(id, body)).answered[id]
    {
      var state := Built(request, body);
      companyCache := companyCache[Key(request.flags) := Entry(request.at, state)];
      return Miss(state);
    }
  }
}
