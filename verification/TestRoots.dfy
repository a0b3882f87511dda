/** The shared temporary directory of scripts/run-factory-tests.mjs: each suite
    claims a root named for its process, sweeps the leftovers of dead ones, and
    removes its own root if it passes. Suites overlap, crash and reuse pids. */
module TestRoots {
  import opened Collections

  type Pid = nat
  type Name = string

  const PREFIX := "hq-factory-tests-"

  // ----- names -----

  function RootName(pid: Pid, suffix: string): Name { PREFIX + Decimal(pid) + "-" + suffix }

  // s.split("-")[0]
  function UpToDash(s: string): string {
    if s == "" || s[0] == '-' then "" else [s[0]] + UpToDash(s[1..])
  }

  function LeadingDigits(s: string): string {
    if s == "" || !IsDigit(s[0]) then "" else [s[0]] + LeadingDigits(s[1..])
  }

  function DigitsValue(s: string): nat
    requires forall i :: 0 <= i < |s| ==> IsDigit(s[i])
  {
    if s == "" then 0 else 10 * DigitsValue(s[..|s| - 1]) + ValueOf(s[|s| - 1])
  }

  lemma {:induction false} LeadingDigitsAreDigits(s: string)
    ensures forall i :: 0 <= i < |LeadingDigits(s)| ==> IsDigit(LeadingDigits(s)[i])
  {
    if s != "" && IsDigit(s[0]) { LeadingDigitsAreDigits(s[1..]); }
  }

  // Number.parseInt(s, 10); None is NaN
  function ParseInt(s: string): Option<int> {
    var t := SkipSpaces(s);
    var signed := t != "" && (t[0] == '+' || t[0] == '-');
    var digits := LeadingDigits(if signed then t[1..] else t);
    LeadingDigitsAreDigits(if signed then t[1..] else t);
    if digits == "" then None
    else if signed && t[0] == '-' then Some(-(DigitsValue(digits) as int)) else Some(DigitsValue(digits))
  }

  predicate HasPrefix(name: Name) { PREFIX <= name }

  // a name shorter than the prefix slices to ""
  function OwnerPid(name: Name): Option<int> {
    ParseInt(UpToDash(if |name| < |PREFIX| then "" else name[|PREFIX|..]))
  }

  lemma {:induction false} UpToDashPrinted(digits: string, rest: string)
    requires forall i :: 0 <= i < |digits| ==> IsDigit(digits[i])
    ensures UpToDash(digits + "-" + rest) == digits
  {
    if digits == "" {
      assert (digits + "-" + rest)[0] == '-';
    } else {
      assert (digits + "-" + rest)[1..] == digits[1..] + "-" + rest;
      UpToDashPrinted(digits[1..], rest);
    }
  }

  lemma {:induction false} LeadingDigitsAll(digits: string)
    requires forall i :: 0 <= i < |digits| ==> IsDigit(digits[i])
    ensures LeadingDigits(digits) == digits
  {
    if digits != "" { LeadingDigitsAll(digits[1..]); }
  }

  lemma {:induction false} DecimalValue(n: nat)
    ensures DigitsValue(Decimal(n)) == n
  {
    var s := Decimal(n);
    if n < 10 {
      assert s[..0] == "" && DigitsValue("") == 0;
    } else {
      DecimalValue(n / 10);
      assert s[..|s| - 1] == Decimal(n / 10) && s[|s| - 1] == DigitOf(n % 10);
    }
  }

  /** ownerPid recovers the pid printed into a root's name, whatever follows it. */
  lemma {:induction false} OwnerPidRoundTrip(pid: Pid, suffix: string)
    ensures HasPrefix(RootName(pid, suffix)) && OwnerPid(RootName(pid, suffix)) == Some(pid)
  {
    var name := RootName(pid, suffix);
    assert name == PREFIX + (Decimal(pid) + "-" + suffix);
    assert name[|PREFIX|..] == Decimal(pid) + "-" + suffix;
    UpToDashPrinted(Decimal(pid), suffix);
    LeadingDigitsAll(Decimal(pid));
    DecimalValue(pid);
    assert !IsSpace(Decimal(pid)[0]) && SkipSpaces(Decimal(pid)) == Decimal(pid);
  }

  predicate AlphaNumeric(s: string) {
    forall i :: 0 <= i < |s| ==> IsDigit(s[i]) || 'a' <= s[i] <= 'z' || 'A' <= s[i] <= 'Z'
  }

  lemma {:induction false} NoDash(s: string)
    requires AlphaNumeric(s)
    ensures UpToDash(s) == s
  {
    if s != "" { NoDash(s[1..]); }
  }

  /** A root of the older naming, whose suffix follows the prefix at once, reads
      as "no pid" exactly when that random suffix does not begin with a digit. */
  lemma {:induction false} LegacyNameHasNoPidExactly(suffix: string)
    requires AlphaNumeric(suffix) && suffix != ""
    ensures OwnerPid(PREFIX + suffix) == None <==> !IsDigit(suffix[0])
  {
    assert (PREFIX + suffix)[|PREFIX|..] == suffix;
    NoDash(suffix);
    assert !IsSpace(suffix[0]) && SkipSpaces(suffix) == suffix;
  }

  // ----- the protocol under any interleaving -----

  type Process = nat

  /** `doomed` is the name a sweep has found ownerless and is about to remove,
      with how often that name had been claimed when it was checked. */
  datatype Doomed = Doomed(name: Name, births: nat)
  datatype Suite = Suite(pid: Pid, alive: bool, root: Option<Name>, todo: set<Name>, doomed: Option<Doomed>)

  /** `births` counts the claims of each name so far. */
  datatype Tmp = Tmp(dir: set<Name>, suites: map<Process, Suite>, births: map<Name, nat>)

  datatype Step =
    | Spawn(p: Process, pid: Pid)
    | Claim(p: Process, suffix: string)      // mkdtempSync
    | List(p: Process)                       // readdirSync
    | Check(p: Process, name: Name)          // prefix, own root, owner running?
    | Remove(p: Process)                     // rmSync of the checked name
    | CleanUp(p: Process)                    // a passing run removes its own root
    | Die(p: Process)

  function Births(t: Tmp, name: Name): nat { if name in t.births then t.births[name] else 0 }

  predicate PidAlive(t: Tmp, pid: int) {
    exists p :: p in t.suites && t.suites[p].alive && t.suites[p].pid == pid
  }

  predicate IsRunning(t: Tmp, pid: Option<int>) {
    pid.Some? && pid.value > 0 && PidAlive(t, pid.value)
  }

  predicate Running(t: Tmp, p: Process) { p in t.suites && t.suites[p].alive }

  predicate Enabled(t: Tmp, step: Step) {
    match step
    case Spawn(p, pid) => p !in t.suites && pid > 0 && !PidAlive(t, pid)
    case Claim(p, suffix) => Running(t, p) && t.suites[p].root.None? && RootName(t.suites[p].pid, suffix) !in t.dir
    case List(p) => Running(t, p) && t.suites[p].root.Some?
    case Check(p, name) => Running(t, p) && name in t.suites[p].todo && t.suites[p].doomed.None? && t.suites[p].root.Some?
    case Remove(p) => Running(t, p) && t.suites[p].doomed.Some?
    case CleanUp(p) => Running(t, p) && t.suites[p].root.Some?
    case Die(p) => Running(t, p)
  }

  function With(t: Tmp, p: Process, s: Suite): Tmp { t.(suites := t.suites[p := s]) }

  function Apply(t: Tmp, step: Step): Tmp
    requires Enabled(t, step)
  {
    match step
    case Spawn(p, pid) => With(t, p, Suite(pid, true, None, {}, None))
    case Claim(p, suffix) =>
      var name := RootName(t.suites[p].pid, suffix);
      With(t.(dir := t.dir + {name}, births := t.births[name := Births(t, name) + 1]), p, t.suites[p].(root := Some(name)))
    case List(p) => With(t, p, t.suites[p].(todo := t.dir))
    case Check(p, name) =>
      var s := t.suites[p].(todo := t.suites[p].todo - {name});
      if !HasPrefix(name) || Some(name) == s.root || IsRunning(t, OwnerPid(name)) then With(t, p, s)
      else With(t, p, s.(doomed := Some(Doomed(name, Births(t, name)))))
    case Remove(p) =>
      With(t.(dir := t.dir - {t.suites[p].doomed.value.name}), p, t.suites[p].(doomed := None))
    case CleanUp(p) => t.(dir := t.dir - {t.suites[p].root.value})
    case Die(p) => With(t, p, t.suites[p].(alive := false))
  }

  ghost predicate Follows(t: Tmp, run: seq<Step>)
    decreases |run|
  {
    run == [] || (Enabled(t, run[0]) && Follows(Apply(t, run[0]), run[1..]))
  }

  ghost function After(t: Tmp, run: seq<Step>): Tmp
    requires Follows(t, run)
    decreases |run|
  {
    if run == [] then t else After(Apply(t, run[0]), run[1..])
  }

  /** A step takes the root of a suite that is still running (not counting a
      passing suite that removes its own). */
  ghost predicate TakesLiveRoot(t: Tmp, step: Step) {
    step.Remove? && Enabled(t, step)
    && exists q :: Running(t, q) && t.suites[q].root == Some(t.suites[step.p].doomed.value.name)
  }

  ghost predicate RootsNamed(t: Tmp) {
    forall q :: q in t.suites && t.suites[q].root.Some? ==>
      HasPrefix(t.suites[q].root.value) && OwnerPid(t.suites[q].root.value) == Some(t.suites[q].pid) && t.suites[q].pid > 0
  }

  ghost predicate PidsUnique(t: Tmp) {
    forall p, q :: Running(t, p) && Running(t, q) && t.suites[p].pid == t.suites[q].pid ==> p == q
  }

  /** A doomed name has the prefix, is not the sweeper's own, and unless it has
      been claimed again since its check nobody running owns it. */
  ghost predicate DoomedIsOwnerless(t: Tmp) {
    forall p :: p in t.suites && t.suites[p].doomed.Some? ==>
      var d := t.suites[p].doomed.value;
      && HasPrefix(d.name) && t.suites[p].root.Some? && Some(d.name) != t.suites[p].root && d.births <= Births(t, d.name)
      && (d.births == Births(t, d.name) ==> forall q :: Running(t, q) ==> t.suites[q].root != Some(d.name))
  }

  ghost predicate Inv(t: Tmp) {
    RootsNamed(t) && PidsUnique(t) && DoomedIsOwnerless(t)
  }

  lemma {:induction false} StepNames(t: Tmp, step: Step)
    requires RootsNamed(t) && Enabled(t, step)
    requires forall p :: p in t.suites ==> t.suites[p].pid > 0
    ensures RootsNamed(Apply(t, step))
  {
    if step.Claim? { OwnerPidRoundTrip(t.suites[step.p].pid, step.suffix); }
  }

  lemma {:induction false} StepPids(t: Tmp, step: Step)
    requires PidsUnique(t) && Enabled(t, step)
    ensures PidsUnique(Apply(t, step))
  {
    var t' := Apply(t, step);
    forall p, q | Running(t', p) && Running(t', q) && t'.suites[p].pid == t'.suites[q].pid ensures p == q {
      if step.Spawn? {
        assert p != step.p ==> Running(t, p) && t.suites[p].pid == t'.suites[p].pid;
        assert q != step.p ==> Running(t, q) && t.suites[q].pid == t'.suites[q].pid;
      } else {
        assert Running(t, p) && Running(t, q) && t.suites[p].pid == t'.suites[p].pid && t.suites[q].pid == t'.suites[q].pid;
      }
    }
  }

  lemma {:induction false} CheckDooms(t: Tmp, p: Process, name: Name)
    requires RootsNamed(t) && Enabled(t, Check(p, name))
    requires !IsRunning(t, OwnerPid(name))
    ensures forall q :: Running(t, q) ==> t.suites[q].root != Some(name)
  {
    forall q | Running(t, q) ensures t.suites[q].root != Some(name) {
      if t.suites[q].root == Some(name) {
        assert PidAlive(t, t.suites[q].pid);
      }
    }
  }

  lemma {:induction false} StepDoomed(t: Tmp, step: Step)
    requires RootsNamed(t) && DoomedIsOwnerless(t) && Enabled(t, step)
    ensures DoomedIsOwnerless(Apply(t, step))
  {
    var t' := Apply(t, step);
    if step.Check? && HasPrefix(step.name) && Some(step.name) != t.suites[step.p].root && !IsRunning(t, OwnerPid(step.name)) {
      CheckDooms(t, step.p, step.name);
    }
    forall p | p in t'.suites && t'.suites[p].doomed.Some?
      ensures var d := t'.suites[p].doomed.value;
              && HasPrefix(d.name) && t'.suites[p].root.Some? && Some(d.name) != t'.suites[p].root && d.births <= Births(t', d.name)
              && (d.births == Births(t', d.name) ==> forall q :: Running(t', q) ==> t'.suites[q].root != Some(d.name))
    {
      var d := t'.suites[p].doomed.value;
      forall q | Running(t', q) && d.births == Births(t', d.name) ensures t'.suites[q].root != Some(d.name) {
        if step.Spawn? && step.p == q {
        } else {
          assert Running(t, q);
        }
      }
    }
  }

  ghost predicate PidsPositive(t: Tmp) { forall p :: p in t.suites ==> t.suites[p].pid > 0 }

  lemma {:induction false} EveryRun(t: Tmp, run: seq<Step>)
    requires Inv(t) && PidsPositive(t) && Follows(t, run)
    ensures forall s :: s == After(t, run) ==> Inv(s) && PidsPositive(s)
    decreases |run|
  {
    if run != [] {
      StepNames(t, run[0]);
      StepPids(t, run[0]);
      StepDoomed(t, run[0]);
      EveryRun(Apply(t, run[0]), run[1..]);
    }
  }

  /** Nobody is running yet; the directory may hold anything. */
  ghost predicate CleanBoot(t: Tmp) { t.suites == map[] }

  /** Another suite, still running, has that name for its root. */
  ghost predicate HeldByAnother(t: Tmp, p: Process, name: Name) {
    exists q :: q != p && Running(t, q) && t.suites[q].root == Some(name)
  }

  /** The name a sweep is about to remove was claimed again since its check. */
  predicate ClaimedSinceCheck(t: Tmp, p: Process)
    requires p in t.suites && t.suites[p].doomed.Some?
  {
    t.suites[p].doomed.value.births < Births(t, t.suites[p].doomed.value.name)
  }

  /** In every run, from any directory: a removal takes a live root exactly when
      the doomed name was claimed again since its check and another running suite
      holds it. Without that it never does; it never takes the sweeper's own
      root, and no step takes a name without the prefix. */
  lemma {:induction false} SweepsAreSafe(t: Tmp, run: seq<Step>, step: Step)
    requires CleanBoot(t) && Follows(t, run) && Enabled(After(t, run), step)
    ensures var s := After(t, run);
            && (step.Remove? ==>
                  (TakesLiveRoot(s, step) <==>
                   ClaimedSinceCheck(s, step.p) && HeldByAnother(s, step.p, s.suites[step.p].doomed.value.name)))
            && (step.Remove? ==> Some(s.suites[step.p].doomed.value.name) != s.suites[step.p].root)
            && (forall n :: n in s.dir && !HasPrefix(n) ==> n in Apply(s, step).dir)
            && (forall n :: n in s.dir ==>
                  (n !in Apply(s, step).dir <==>
                   (step.Remove? && n == s.suites[step.p].doomed.value.name) || (step.CleanUp? && s.suites[step.p].root == Some(n))))
  {
    EveryRun(t, run);
    var s := After(t, run);
    assert Inv(s);
    if step.CleanUp? { assert HasPrefix(s.suites[step.p].root.value); }
  }

  /** mkdtemp's random suffix never makes a name twice. */
  ghost predicate NamesFresh(t: Tmp, run: seq<Step>)
    requires Follows(t, run)
    decreases |run|
  {
    run == [] ||
    ((run[0].Claim? ==> Births(t, RootName(t.suites[run[0].p].pid, run[0].suffix)) == 0)
     && NamesFresh(Apply(t, run[0]), run[1..]))
  }

  lemma {:induction false} FreshNamesOnce(t: Tmp, run: seq<Step>)
    requires Follows(t, run) && NamesFresh(t, run)
    requires forall n :: Births(t, n) <= 1
    ensures forall n :: Births(After(t, run), n) <= 1
    decreases |run|
  {
    if run != [] {
      forall n ensures Births(Apply(t, run[0]), n) <= 1 { assert Births(t, n) <= 1; }
      FreshNamesOnce(Apply(t, run[0]), run[1..]);
    }
  }

  /** A doomed name that was in the directory when listed was claimed by then,
      or was there from the start. */
  ghost predicate DoomedOld(t: Tmp) {
    forall p :: p in t.suites ==>
      && (forall n :: n in t.suites[p].todo ==> n in t.births)
      && (t.suites[p].doomed.Some? ==> t.suites[p].doomed.value.births >= 1)
  }

  ghost predicate DirKnown(t: Tmp) {
    && (forall n :: n in t.dir ==> n in t.births)
    && (forall n :: n in t.births ==> t.births[n] >= 1)
  }

  lemma {:induction false} OldAlways(t: Tmp, run: seq<Step>)
    requires Follows(t, run) && DoomedOld(t) && DirKnown(t)
    ensures DoomedOld(After(t, run)) && DirKnown(After(t, run))
    decreases |run|
  {
    if run != [] { OldAlways(Apply(t, run[0]), run[1..]); }
  }

  /** Every name in the directory counts as made once, and so do any others
      remembered from before. */
  ghost predicate Counted(t: Tmp) {
    CleanBoot(t) && (forall n :: n in t.dir ==> n in t.births) && (forall n :: n in t.births ==> t.births[n] == 1)
  }

  /** From any directory and with names never made twice, no sweep ever takes a
      running suite's root. */
  lemma {:induction false} NoLiveRootIsTaken(t: Tmp, run: seq<Step>, step: Step)
    requires Counted(t) && Follows(t, run) && NamesFresh(t, run) && Enabled(After(t, run), step)
    ensures !TakesLiveRoot(After(t, run), step)
  {
    SweepsAreSafe(t, run, step);
    FreshNamesOnce(t, run);
    OldAlways(t, run);
  }

  lemma {:induction false} First(t: Tmp, step: Step, rest: seq<Step>)
    requires Enabled(t, step) && Follows(Apply(t, step), rest)
    ensures Follows(t, [step] + rest) && After(t, [step] + rest) == After(Apply(t, step), rest)
  {
    assert ([step] + rest)[1..] == rest;
  }

  /** A process that dies leaving its root, and a sweeper that has listed and
      checked that root: the sweeper is about to remove it. */
  lemma {:induction false} LeftoverDoomed(t: Tmp, p: Process, name: Name)
    requires Running(t, p) && t.suites[p].root.Some? && t.suites[p].root != Some(name) && t.suites[p].doomed.None?
    requires name in t.dir && HasPrefix(name) && !IsRunning(t, OwnerPid(name))
    ensures var run := [List(p), Check(p, name)];
            && Follows(t, run)
            && var u := After(t, run);
               && u.dir == t.dir && u.births == t.births
               && u.suites.Keys == t.suites.Keys
               && (forall q :: q in t.suites && q != p ==> u.suites[q] == t.suites[q])
               && u.suites[p] == t.suites[p].(todo := t.dir - {name}, doomed := Some(Doomed(name, Births(t, name))))
  {
    var t1 := Apply(t, List(p));
    var t2 := Apply(t1, Check(p, name));
    assert Follows(t2, []) && After(t2, []) == t2;
    First(t1, Check(p, name), []);
    First(t, List(p), [Check(p, name)]);
    assert [Check(p, name)] + [] == [Check(p, name)] && [List(p)] + [Check(p, name)] == [List(p), Check(p, name)];
  }

  lemma {:induction false} Append(t: Tmp, a: seq<Step>, b: seq<Step>)
    requires Follows(t, a) && Follows(After(t, a), b)
    ensures Follows(t, a + b) && After(t, a + b) == After(After(t, a), b)
    decreases |a|
  {
    if a == [] {
      assert a + b == b;
    } else {
      assert (a + b)[1..] == a[1..] + b;
      Append(Apply(t, a[0]), a[1..], b);
    }
  }

  /** A process starts and claims a root that is not there yet. */
  lemma {:induction false} Joins(t: Tmp, p: Process, pid: Pid, suffix: string)
    requires p !in t.suites && pid > 0 && !PidAlive(t, pid) && RootName(pid, suffix) !in t.dir
    ensures var run, name := [Spawn(p, pid), Claim(p, suffix)], RootName(pid, suffix);
            && Follows(t, run)
            && After(t, run) == Tmp(t.dir + {name}, t.suites[p := Suite(pid, true, Some(name), {}, None)], t.births[name := Births(t, name) + 1])
  {
    var t1 := Apply(t, Spawn(p, pid));
    var t2 := Apply(t1, Claim(p, suffix));
    assert Follows(t2, []) && After(t2, []) == t2;
    First(t1, Claim(p, suffix), []);
    First(t, Spawn(p, pid), [Claim(p, suffix)]);
    assert [Claim(p, suffix)] + [] == [Claim(p, suffix)];
    assert [Spawn(p, pid)] + [Claim(p, suffix)] == [Spawn(p, pid), Claim(p, suffix)];
    assert t2.suites == t.suites[p := Suite(pid, true, Some(RootName(pid, suffix)), {}, None)];
  }

  lemma {:induction false} RootsDiffer(suffix: string)
    ensures RootName(7, suffix) != RootName(8, suffix) && RootName(7, suffix) != RootName(9, suffix) && RootName(8, suffix) != RootName(9, suffix)
  {
    OwnerPidRoundTrip(7, suffix);
    OwnerPidRoundTrip(8, suffix);
    OwnerPidRoundTrip(9, suffix);
  }

  const BOOT := Tmp({}, map[], map[])

  const REUSE_0 := [Spawn(0, 7), Claim(0, "a")] + [Die(0)]
  const REUSE_1 := REUSE_0 + [Spawn(1, 8), Claim(1, "a")] + [Spawn(2, 9), Claim(2, "a")]

  lemma {:induction false} OneIsGone() returns (t: Tmp)
    ensures Follows(BOOT, REUSE_0) && t == After(BOOT, REUSE_0)
    ensures var a := RootName(7, "a"); t == Tmp({a}, map[0 := Suite(7, false, Some(a), {}, None)], map[a := 1])
  {
    Joins(BOOT, 0, 7, "a");
    var t1 := After(BOOT, [Spawn(0, 7), Claim(0, "a")]);
    t := Apply(t1, Die(0));
    assert Follows(t, []) && After(t, []) == t;
    First(t1, Die(0), []);
    assert [Die(0)] + [] == [Die(0)];
    Append(BOOT, [Spawn(0, 7), Claim(0, "a")], [Die(0)]);
  }

  /** A dead suite has left a root, and two others are running. */
  lemma {:induction false} TwoSweepersMeet() returns (t: Tmp)
    ensures Follows(BOOT, REUSE_1) && t == After(BOOT, REUSE_1)
    ensures var a, b, c := RootName(7, "a"), RootName(8, "a"), RootName(9, "a");
            && t.dir == {a, b, c} && t.births == map[a := 1, b := 1, c := 1]
            && t.suites == map[0 := Suite(7, false, Some(a), {}, None), 1 := Suite(8, true, Some(b), {}, None), 2 := Suite(9, true, Some(c), {}, None)]
  {
    RootsDiffer("a");
    var t2 := OneIsGone();
    Joins(t2, 1, 8, "a");
    var t3 := After(t2, [Spawn(1, 8), Claim(1, "a")]);
    Joins(t3, 2, 9, "a");
    t := After(t3, [Spawn(2, 9), Claim(2, "a")]);
    Append(BOOT, REUSE_0, [Spawn(1, 8), Claim(1, "a")]);
    Append(BOOT, REUSE_0 + [Spawn(1, 8), Claim(1, "a")], [Spawn(2, 9), Claim(2, "a")]);
  }

  const REUSE_2 := [List(1), Check(1, RootName(7, "a"))] + [List(2), Check(2, RootName(7, "a"))] + [Remove(2)] + [Spawn(3, 7), Claim(3, "a")]

  /** The reservation in `SweepsAreSafe` is needed: two sweeps doom the same
      leftover, one removes it, a new process is given the dead one's pid and
      the same random suffix, and the other sweep then takes its live root. */
  lemma {:induction false} ReusedNameIsTaken()
    ensures Follows(BOOT, REUSE_1 + REUSE_2)
    ensures exists step :: TakesLiveRoot(After(BOOT, REUSE_1 + REUSE_2), step)
  {
    var name := RootName(7, "a");
    var t := TwoSweepersMeet();
    RootsDiffer("a");
    OwnerPidRoundTrip(7, "a");
    assert !PidAlive(t, 7);
    LeftoverDoomed(t, 1, name);
    var u := After(t, [List(1), Check(1, name)]);
    assert !PidAlive(u, 7);
    LeftoverDoomed(u, 2, name);
    var v := After(u, [List(2), Check(2, name)]);
    var w := Apply(v, Remove(2));
    assert Follows(w, []) && After(w, []) == w;
    First(v, Remove(2), []);
    assert [Remove(2)] + [] == [Remove(2)];
    assert !PidAlive(w, 7);
    Joins(w, 3, 7, "a");
    var x := After(w, [Spawn(3, 7), Claim(3, "a")]);
    Append(t, [List(1), Check(1, name)], [List(2), Check(2, name)]);
    Append(t, [List(1), Check(1, name)] + [List(2), Check(2, name)], [Remove(2)]);
    Append(t, [List(1), Check(1, name)] + [List(2), Check(2, name)] + [Remove(2)], [Spawn(3, 7), Claim(3, "a")]);
    Append(BOOT, REUSE_1, REUSE_2);
    assert Running(x, 3) && x.suites[3].root == Some(x.suites[1].doomed.value.name);
    assert TakesLiveRoot(x, Remove(1));
  }

  // ----- one undisturbed sweep -----

  class TmpDir {
    var entries: set<Name>

    /** The sweep loop: exactly the prefixed roots of others whose owner is not
        running are gone; everything else is as it was. */
    method Sweep(listing: seq<Name>, ownRoot: Name, running: int -> bool)
      modifies this
      ensures entries == set n | n in old(entries) && !(n in listing && Leftover(n, ownRoot, running))
    {
      for i := 0 to |listing|
        invariant entries == set n | n in old(entries) && !(n in listing[..i] && Leftover(n, ownRoot, running))
      {
        var name := listing[i];
        assert listing[..i + 1] == listing[..i] + [name];
        if !HasPrefix(name) || name == ownRoot { continue; }
        var pid := OwnerPid(name);
        if pid.Some? && pid.value > 0 && running(pid.value) { continue; }
        entries := entries - {name};
      }
      assert listing[..|listing|] == listing;
    }
  }

  predicate Leftover(name: Name, ownRoot: Name, running: int -> bool) {
    var pid := OwnerPid(name);
    HasPrefix(name) && name != ownRoot && !(pid.Some? && pid.value > 0 && running(pid.value))
  }
}
