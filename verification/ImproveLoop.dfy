/** The overnight improve loop: `main` of scripts/factory-improve-loop.mjs, a
    state machine over rounds with a resume obligation, escalating backoff, a
    wall-clock deadline and a round cap. Everything outside it (what a round
    comes to, what retryableObjective answers, cron pressure, signals, how far
    the clock moves) is an arbitrary night, one entry per round. */
module ImproveLoop {
  import opened Collections
  import opened ObjectiveRetry

  const MINUTE := 60_000

  // BACKOFF_MIN: escalating; the last value repeats
  function BackoffMinutes(k: nat): nat {
    if k == 0 then 20 else if k == 1 then 45 else if k == 2 then 90 else 180
  }

  function Max0(n: int): nat { if n > 0 then n else 0 }

  function Min(a: int, b: int): int { if a < b then a else b }

  datatype Config = Config(deadline: int, maxRounds: nat, gapMs: nat, dryRun: bool, objective: Option<Path>)

  /** Up to the write of the objective's state: only a fresh round plans, and
      only planning marks an error transient (factory/lib/objective/decompose.mjs). */
  datatype Planning = Planned(path: Path) | PlanFailed(transient: bool)

  /** From that write on, or all of a resumed round. `WorkStuck` is a status of
      blocked, integration-blocked or incomplete. */
  datatype Work = WorkStuck | WorkSettled(barren: bool) | WorkThrew

  /** What runRound comes to, with the objective that a stuck or broken round leaves. */
  datatype Result = Stuck(path: Path) | Settled(barren: bool) | PlanThrew(transient: bool) | Broke(path: Path)

  function Worked(cfg: Config, path: Path, work: Work): Result {
    if work.WorkThrew? then Broke(path)
    else if cfg.dryRun then Settled(false)
    else if work.WorkStuck? then Stuck(path)
    else Settled(work.barren)
  }

  function RoundResult(cfg: Config, night: Night, resume: Option<Path>): Result {
    if resume.Some? then Worked(cfg, resume.value, night.work)
    else
      match night.planning
      case PlanFailed(transient) => PlanThrew(transient)
      case Planned(path) => Worked(cfg, path, night.work)
  }

  /** Clock readings only move forward: each field is how far one has moved. */
  datatype Night = Night(
    planning: Planning, work: Work, toEnd: nat, stopInRound: bool,
    retryable: Answer, cron: bool,
    toWait: nat, slept: nat, stopInWait: bool, toCheck: nat, revive: Answer,
    toGuard: nat)

  datatype Reason = Signal | RecoveryRequired | DryRunDone | MaxRounds | Budget | Crashed

  datatype Event =
    | Hold(from: int, ms: int)                 // the initial wait for a reset
    | RoundStarted(at: int, resume: Option<Path>)
    | RoundEnded(result: Result)
    | Checked(path: Path, answer: Answer)      // retryableObjective(path)
    | Pressure(pressured: bool)
    | BackedOff(from: int, ms: int)
    | Gap(from: int, ms: int)
    | Revived(path: Path, answer: Answer)      // retryableObjective(path, { resume: true })
    | Ended(at: int, reason: Reason)

  /** main's variables at the top of its while loop. */
  datatype Vars = Vars(now: int, round: nat, backoffIdx: nat, resumePath: Option<Path>, stop: bool)

  datatype Turn = Again(events: seq<Event>, vars: Vars) | Out(events: seq<Event>, reason: Option<Reason>, stop: bool, now: int)

  // ----- one pass of the while body -----

  /** After a pass that goes on: the pressure read and the wait. */
  function PressureAndWait(cfg: Config, night: Night, v: Vars, barren: bool): Turn {
    var pressured := barren || night.cron;
    var now := v.now + night.toWait;
    var left := Max0(cfg.deadline - now);
    if pressured then
      var waitMs := Min(BackoffMinutes(v.backoffIdx) * MINUTE, left);
      var v' := v.(now := now + night.slept, backoffIdx := v.backoffIdx + 1, stop := v.stop || night.stopInWait);
      if waitMs <= MINUTE then
        Out([Pressure(true)], None, v.stop, now)
      else
        AfterBackoff(cfg, night, v', [Pressure(true), BackedOff(now, waitMs)])
    else
      var gap := Min(cfg.gapMs, left);
      var v' := v.(now := now + night.slept, backoffIdx := 0, stop := v.stop || night.stopInWait);
      Again([Pressure(false)] + (if gap > 0 then [Gap(now, gap)] else []), v'.(now := v'.now + night.toGuard))
  }

  function AfterBackoff(cfg: Config, night: Night, v: Vars, events: seq<Event>): Turn {
    var now := v.now + night.toCheck;
    var v' := v.(now := now + night.toGuard);
    if v.stop || now >= cfg.deadline || v.resumePath.None? then Again(events, v')
    else
      var events' := events + [Revived(v.resumePath.value, night.revive)];
      match night.revive
      case Yes => Again(events', v')
      case No => Out(events', Some(RecoveryRequired), v.stop, now)
      case Throws => Out(events', Some(Crashed), v.stop, now)
  }

  function Body(cfg: Config, night: Night, v: Vars): Turn {
    var result := RoundResult(cfg, night, v.resumePath);
    var events := [RoundStarted(v.now, v.resumePath), RoundEnded(result)];
    var resume := if result.PlanThrew? || result.Broke? then v.resumePath else None;
    var v' := Vars(v.now + night.toEnd, v.round + 1, v.backoffIdx, resume, v.stop || night.stopInRound);
    if cfg.dryRun || v'.stop then Out(events, None, v'.stop, v'.now)
    else
      match result
      case Stuck(path) =>
        var checked := events + [Checked(path, night.retryable)];
        (match night.retryable
         case Yes => Prefixed(checked, PressureAndWait(cfg, night, v'.(resumePath := Some(path)), true))
         case No => Out(checked, Some(RecoveryRequired), v'.stop, v'.now)
         case Throws => Out(checked, Some(Crashed), v'.stop, v'.now))
      case Settled(barren) => Prefixed(events, PressureAndWait(cfg, night, v', barren))
      case PlanThrew(transient) =>
        if transient then Prefixed(events, PressureAndWait(cfg, night, v', true))
        else Out(events, Some(RecoveryRequired), v'.stop, v'.now)
      case Broke(_) => Out(events, Some(RecoveryRequired), v'.stop, v'.now)
  }

  function Prefixed(events: seq<Event>, turn: Turn): Turn {
    match turn
    case Again(more, v) => Again(events + more, v)
    case Out(more, reason, stop, now) => Out(events + more, reason, stop, now)
  }

  predicate Guard(cfg: Config, v: Vars) {
    !v.stop && v.round < cfg.maxRounds && v.now < cfg.deadline
  }

  // the reason of the closing "loop-end" line
  function EndReason(cfg: Config, stop: bool, reason: Option<Reason>, round: nat): Reason {
    if reason == Some(Crashed) then Crashed
    else if stop then Signal
    else if reason.Some? then reason.value
    else if cfg.dryRun then DryRunDone
    else if round >= cfg.maxRounds then MaxRounds
    else Budget
  }

  /** The whole night, as its log. */
  function Run(cfg: Config, nights: nat -> Night, v: Vars): seq<Event>
    decreases cfg.maxRounds - v.round
  {
    if !Guard(cfg, v) then [Ended(v.now, EndReason(cfg, v.stop, None, v.round))]
    else
      match Body(cfg, nights(v.round), v)
      case Again(events, v') =>
        BodyCountsRounds(cfg, nights(v.round), v);
        events + Run(cfg, nights, v')
      case Out(events, reason, stop, now) => events + [Ended(now, EndReason(cfg, stop, reason, v.round + 1))]
  }

  lemma {:induction false} BodyCountsRounds(cfg: Config, night: Night, v: Vars)
    ensures Body(cfg, night, v).Again? ==> Body(cfg, night, v).vars.round == v.round + 1
  {
  }

  lemma {:induction false} Assoc(a: seq<Event>, b: seq<Event>, c: seq<Event>)
    ensures a + (b + c) == (a + b) + c
  {
  }

  lemma {:induction false} RunGoesOn(cfg: Config, nights: nat -> Night, v: Vars, events: seq<Event>, v': Vars)
    requires Guard(cfg, v) && Body(cfg, nights(v.round), v) == Again(events, v')
    ensures v'.round == v.round + 1
    ensures Run(cfg, nights, v) == events + Run(cfg, nights, v')
  {
  }

  lemma {:induction false} RunStops(cfg: Config, nights: nat -> Night, v: Vars, events: seq<Event>, reason: Option<Reason>, stop: bool, now: int)
    requires Guard(cfg, v) && Body(cfg, nights(v.round), v) == Out(events, reason, stop, now)
    ensures Run(cfg, nights, v) == events + [Ended(now, EndReason(cfg, stop, reason, v.round + 1))]
  {
  }

  function Begin(cfg: Config, now: int): Vars {
    Vars(now, 0, 0, cfg.objective, false)
  }

  /** The round and what is decided from its result, updating main's variables:
      whatever log the variables are in step with, only lawful events follow,
      and they stay in step with it. */
  method PlayRound(cfg: Config, nights: nat -> Night, v: Vars) returns (turn: Turn)
    ensures turn == Body(cfg, nights(v.round), v)
    ensures forall w :: InStep(cfg, nights, w, v) && Guard(cfg, v) ==> Continues(cfg, nights, w, turn, v.round + 1)
  {
    BodyContinues(cfg, nights, v);
    var night := nights(v.round);
    var now, stop, round, resumePath := v.now, v.stop, v.round, v.resumePath;
    var log := [RoundStarted(now, resumePath)];
    round := round + 1;
    var barren := false;
    var result := RoundResult(cfg, night, resumePath);
    if !(result.PlanThrew? || result.Broke?) { resumePath := None; }
    now := now + night.toEnd;
    stop := stop || night.stopInRound;
    log := log + [RoundEnded(result)];
    if cfg.dryRun || stop { return Out(log, None, stop, now); }
    match result {
      case Stuck(path) =>
        log := log + [Checked(path, night.retryable)];
        if night.retryable == Throws { return Out(log, Some(Crashed), stop, now); }
        if night.retryable == No { return Out(log, Some(RecoveryRequired), stop, now); }
        resumePath := Some(path);
        barren := true;
      case Settled(b) =>
        barren := b;
      case PlanThrew(transient) =>
        if !transient { return Out(log, Some(RecoveryRequired), stop, now); }
        barren := true;
      case Broke(_) =>
        return Out(log, Some(RecoveryRequired), stop, now);
    }
    turn := ReadPressure(cfg, nights, Vars(now, round, v.backoffIdx, resumePath, stop), barren);
    turn := Prefixed(log, turn);
  }

  lemma {:induction false} BodyContinues(cfg: Config, nights: nat -> Night, v: Vars)
    ensures forall w :: InStep(cfg, nights, w, v) && Guard(cfg, v) ==> Continues(cfg, nights, w, Body(cfg, nights(v.round), v), v.round + 1)
  {
    forall w | InStep(cfg, nights, w, v) && Guard(cfg, v) ensures Continues(cfg, nights, w, Body(cfg, nights(v.round), v), v.round + 1) {
      BodyAllowed(cfg, nights, w, v);
    }
  }

  /** The pressure read and the wait: after any log in which the round has ended
      and nothing was revived yet, they too only add lawful events. */
  method ReadPressure(cfg: Config, nights: nat -> Night, v: Vars, barren: bool) returns (turn: Turn)
    requires v.round > 0
    ensures turn == PressureAndWait(cfg, nights(v.round - 1), v, barren)
    ensures forall w :: Before(cfg, nights, w, v, barren) ==> Continues(cfg, nights, w, turn, v.round)
  {
    var night := nights(v.round - 1);
    forall w | Before(cfg, nights, w, v, barren) ensures Continues(cfg, nights, w, PressureAndWait(cfg, night, v, barren), v.round) {
      WaitAllowed(cfg, nights, w, v, barren);
    }
    var now, stop, backoffIdx := v.now + night.toWait, v.stop, v.backoffIdx;
    var log: seq<Event>;
    if barren || night.cron {
      var waitMs := Min(BackoffMinutes(backoffIdx) * MINUTE, Max0(cfg.deadline - now));
      backoffIdx := backoffIdx + 1;
      if waitMs <= MINUTE { return Out([Pressure(true)], None, stop, now); }
      log := [Pressure(true), BackedOff(now, waitMs)];
      now := now + night.slept;
      stop := stop || night.stopInWait;
      now := now + night.toCheck;
      if !stop && now < cfg.deadline && v.resumePath.Some? {
        log := log + [Revived(v.resumePath.value, night.revive)];
        if night.revive == Throws { return Out(log, Some(Crashed), stop, now); }
        if night.revive == No { return Out(log, Some(RecoveryRequired), stop, now); }
      }
    } else {
      backoffIdx := 0;
      log := [Pressure(false)];
      var gap := Min(cfg.gapMs, Max0(cfg.deadline - now));
      log := log + (if gap > 0 then [Gap(now, gap)] else []);
      now := now + night.slept;
      stop := stop || night.stopInWait;
    }
    return Again(log, Vars(now + night.toGuard, v.round, backoffIdx, v.resumePath, stop));
  }

  /** Before the loop: hold until the reset time, if one was asked for. */
  function Opening(cfg: Config, now0: int, notBefore: int, held: nat, stopped: bool): (seq<Event>, Vars) {
    if notBefore > now0 then
      ([Hold(now0, Min(notBefore, cfg.deadline) - now0)], Begin(cfg, now0).(now := now0 + held, stop := stopped))
    else
      ([], Begin(cfg, now0))
  }

  function Whole(cfg: Config, nights: nat -> Night, now0: int, notBefore: int, held: nat, stopped: bool): seq<Event> {
    var opening := Opening(cfg, now0, notBefore, held, stopped);
    opening.0 + Run(cfg, nights, opening.1)
  }

  method RunNight(cfg: Config, nights: nat -> Night, now0: int, notBefore: int, held: nat, stopped: bool) returns (log: seq<Event>)
    ensures log == Whole(cfg, nights, now0, notBefore, held, stopped)
    ensures Lawful(cfg, nights, log) && ViewOf(log).over
    ensures RoundsAreTheNights(cfg, nights, log)
    ensures forall i :: !StartsFreshOverWork(log, i)
    ensures StartsAsAsked(cfg, log, now0, notBefore, held, stopped)
  {
    log := [];
    var v := Begin(cfg, now0);
    if notBefore > now0 {
      log := [Hold(now0, Min(notBefore, cfg.deadline) - now0)];
      v := v.(now := now0 + held, stop := stopped);
    }
    assert (log, v) == Opening(cfg, now0, notBefore, held, stopped);
    var rest := Loop(cfg, nights, v);
    log := log + rest;
    EveryNightIsLawful(cfg, nights, now0, notBefore, held, stopped);
    TheNightStarts(cfg, nights, now0, notBefore, held, stopped);
    EveryRoundIsTheNights(cfg, nights, log);
  }

  /** Each round's result is what the night of that round came to. */
  ghost predicate RoundsAreTheNights(cfg: Config, nights: nat -> Night, log: seq<Event>) {
    forall i :: 0 <= i < |log| && log[i].RoundEnded? ==>
      var w := ViewOf(log[..i]);
      w.rounds > 0 && CameTo(cfg, nights(w.rounds - 1), w.open, log[i].result)
  }

  lemma {:induction false} EveryRoundIsTheNights(cfg: Config, nights: nat -> Night, log: seq<Event>)
    requires Lawful(cfg, nights, log)
    ensures RoundsAreTheNights(cfg, nights, log)
    ensures forall i :: !StartsFreshOverWork(log, i)
  {
    forall i | 0 <= i < |log|
      ensures !StartsFreshOverWork(log, i)
      ensures log[i].RoundEnded? ==> Allowed(cfg, nights, ViewOf(log[..i]), log[i])
    {
      LawfulAt(cfg, nights, log, i);
      if log[i].RoundStarted? { NeverFreshOverWork(cfg, nights, log, i); }
    }
  }

  /** The first round starts, on the objective that was asked for, unless the loop
      was stopped while it held, has no round to run, or no time left. */
  predicate StartsAsAsked(cfg: Config, log: seq<Event>, now0: int, notBefore: int, held: nat, stopped: bool) {
    var (k, from) := if notBefore > now0 then (1, now0 + held) else (0, now0);
    && |log| > k
    && (k == 1 ==> log[0] == Hold(now0, (if notBefore < cfg.deadline then notBefore else cfg.deadline) - now0))
    && if (k == 1 && stopped) || cfg.maxRounds == 0 || from >= cfg.deadline
       then |log| == k + 1 && log[k].Ended? && (log[k].reason == Signal <==> k == 1 && stopped)
       else log[k] == RoundStarted(from, cfg.objective)
  }

  lemma {:induction false} TheNightStarts(cfg: Config, nights: nat -> Night, now0: int, notBefore: int, held: nat, stopped: bool)
    ensures StartsAsAsked(cfg, Whole(cfg, nights, now0, notBefore, held, stopped), now0, notBefore, held, stopped)
  {
    var (hold, v) := Opening(cfg, now0, notBefore, held, stopped);
    if Guard(cfg, v) {
      var events := Body(cfg, nights(0), v).events;
      assert |events| > 0 && events[0] == RoundStarted(v.now, v.resumePath);
      assert Run(cfg, nights, v)[0] == events[0];
    }
  }

  method Loop(cfg: Config, nights: nat -> Night, start: Vars) returns (log: seq<Event>)
    ensures log == Run(cfg, nights, start)
  {
    var v := start;
    log := [];
    while !v.stop && v.round < cfg.maxRounds && v.now < cfg.deadline
      invariant Run(cfg, nights, start) == log + Run(cfg, nights, v)
      decreases cfg.maxRounds - v.round
    {
      var turn := PlayRound(cfg, nights, v);
      match turn {
        case Again(events, v') =>
          RunGoesOn(cfg, nights, v, events, v');
          Assoc(log, events, Run(cfg, nights, v'));
          log := log + events;
          v := v';
        case Out(events, reason, stop, now) =>
          RunStops(cfg, nights, v, events, reason, stop, now);
          Assoc(log, events, [Ended(now, EndReason(cfg, stop, reason, v.round + 1))]);
          return log + events + [Ended(now, EndReason(cfg, stop, reason, v.round + 1))];
      }
    }
    log := log + [Ended(v.now, EndReason(cfg, v.stop, None, v.round))];
  }

  // ----- what any such log satisfies -----

  datatype Finished = Finished(resume: Option<Path>, result: Result)

  /** What a log says so far: rounds started, when the last one began, whether it
      is running and what it resumed, consecutive pressured rounds, the last round that ended, and since
      then the last answer of retryableObjective, the revivals attempted and
      whether the loop has waited. */
  datatype View = View(rounds: nat, began: int, running: bool, open: Option<Path>, streak: nat, last: Option<Finished>,
                       asked: Option<Answer>, revivals: seq<(Path, Answer)>, waited: bool, over: bool)

  const Blank := View(0, 0, false, None, 0, None, None, [], false, false)

  function Note(w: View, e: Event): View {
    match e
    case RoundStarted(at, resume) => w.(rounds := w.rounds + 1, began := at, running := true, open := resume)
    case RoundEnded(result) =>
      w.(running := false, last := Some(Finished(w.open, result)), asked := None, revivals := [], waited := false)
    case BackedOff(_, _) => w.(waited := true)
    case Gap(_, _) => w.(waited := true)
    case Pressure(p) => w.(streak := if p then w.streak + 1 else 0)
    case Checked(_, answer) => w.(asked := Some(answer))
    case Revived(path, answer) => w.(asked := Some(answer), revivals := w.revivals + [(path, answer)])
    case Ended(_, _) => w.(over := true)
    case _ => w
  }

  function ViewOf(log: seq<Event>): View {
    if log == [] then Blank else Note(ViewOf(log[..|log| - 1]), log[|log| - 1])
  }

  /** The objective the next round must resume, by the round before it. */
  function Owed(cfg: Config, w: View): Option<Path> {
    match w.last
    case None => cfg.objective
    case Some(Finished(_, result)) => LeftBehind(result)
  }

  /** The work a finished round leaves behind unrecovered. */
  function LeftBehind(result: Result): Option<Path> {
    match result
    case Stuck(path) => Some(path)
    case Broke(path) => Some(path)
    case _ => None
  }

  /** A throw that another round may follow: planning lost its provider. */
  predicate MayGoOn(result: Result) { (result.PlanThrew? ==> result.transient) && !result.Broke? }

  /** The night of the last round started. */
  function Tonight(nights: nat -> Night, w: View): Night {
    nights(if w.rounds == 0 then 0 else w.rounds - 1)
  }

  /** The objective that a round runs: the one it resumes, or the one it plans. */
  function Ran(night: Night, resume: Option<Path>): Option<Path> {
    if resume.Some? then resume
    else if night.planning.Planned? then Some(night.planning.path)
    else None
  }

  /** The result that a round of that night is logged with. */
  predicate CameTo(cfg: Config, night: Night, resume: Option<Path>, result: Result) {
    var ran := Ran(night, resume);
    && (ran.None? ==> result == PlanThrew(night.planning.transient))
    && (ran.Some? && night.work.WorkThrew? ==> result == Broke(ran.value))
    && (ran.Some? && night.work.WorkStuck? && !cfg.dryRun ==> result == Stuck(ran.value))
    && (ran.Some? && night.work.WorkSettled? && !cfg.dryRun ==> result == Settled(night.work.barren))
    && (ran.Some? && !night.work.WorkThrew? && cfg.dryRun ==> result == Settled(false))
  }

  /** A signal has come, in a round or in a wait after one. */
  predicate Signalled(nights: nat -> Night, w: View) {
    w.rounds > 0 && (Tonight(nights, w).stopInRound || (w.waited && Tonight(nights, w).stopInWait))
  }

  /** Work that only a person can recover. */
  predicate GivesUp(w: View) {
    w.asked == Some(No) || (w.last.Some? && (w.last.value.result.Broke? || w.last.value.result == PlanThrew(false)))
  }

  /** After a round that neither ended the loop nor can. */
  predicate Between(cfg: Config, nights: nat -> Night, w: View) {
    w.last.Some? && w.rounds > 0 && !cfg.dryRun && !Tonight(nights, w).stopInRound
  }

  /** The last round's work is not lost, and the loop has not waited since. */
  predicate MayWait(cfg: Config, nights: nat -> Night, w: View) {
    && Between(cfg, nights, w) && !w.waited && w.revivals == [] && MayGoOn(w.last.value.result)
    && w.asked == (if w.last.value.result.Stuck? then Some(Yes) else None)
  }

  /** When the pressure is read, by the night's clock. */
  function PressureRead(nights: nat -> Night, w: View): int {
    w.began + Tonight(nights, w).toEnd + Tonight(nights, w).toWait
  }

  /** When the next round starts: after the wait, and after a pressured one also
      the check of what is left to resume. */
  function NextRound(nights: nat -> Night, w: View): int {
    var night := Tonight(nights, w);
    PressureRead(nights, w) + night.slept + (if w.streak > 0 then night.toCheck else 0) + night.toGuard
  }

  /** When an event may follow a log. */
  predicate Allowed(cfg: Config, nights: nat -> Night, w: View, e: Event) {
    && !w.over && (w.running <==> e.RoundEnded?)
    && match e
       case RoundStarted(at, resume) =>
         // inside the budget, inside the cap, on the objective that is owed,
         // which was revived exactly once since the round that left it failed
         && at < cfg.deadline && w.rounds < cfg.maxRounds
         && resume == Owed(cfg, w)
         && (w.rounds > 0 ==>
               && at == NextRound(nights, w) && Between(cfg, nights, w) && !Signalled(nights, w) && MayGoOn(w.last.value.result)
               && w.revivals == (if resume.Some? then [(resume.value, Yes)] else [])
               && (w.streak > 0 || cfg.gapMs > 0 ==> w.waited))
       case RoundEnded(result) => w.rounds > 0 && CameTo(cfg, Tonight(nights, w), w.open, result)
       case Hold(from, ms) => w == Blank && from + ms <= cfg.deadline
       case Checked(path, answer) =>
         Between(cfg, nights, w) && w.last.value.result == Stuck(path) && w.asked.None? && w.revivals == [] && answer == Tonight(nights, w).retryable
       case Pressure(p) =>
         MayWait(cfg, nights, w) && (p <==> w.last.value.result != Settled(false) || Tonight(nights, w).cron)
       case BackedOff(from, ms) =>
         && MayWait(cfg, nights, w) && from == PressureRead(nights, w) && w.streak > 0 && ms > MINUTE && from + ms <= cfg.deadline
         && ms == Min(BackoffMinutes(w.streak - 1) * MINUTE, cfg.deadline - from)
       case Gap(from, ms) =>
         && MayWait(cfg, nights, w) && from == PressureRead(nights, w)
         && w.streak == 0 && 0 < ms == Min(cfg.gapMs, cfg.deadline - from)
       case Revived(path, answer) =>
         && Between(cfg, nights, w) && w.waited && !Signalled(nights, w)
         && w.revivals == [] && Owed(cfg, w) == Some(path) && answer == Tonight(nights, w).revive
       case Ended(at, reason) =>
         && (reason == Crashed <==> w.asked == Some(Throws))
         && (reason == RecoveryRequired ==> GivesUp(w))
         && (GivesUp(w) ==> reason != MaxRounds && reason != Budget)
         && (reason == Signal && w.rounds > 0 ==> Tonight(nights, w).stopInRound || Tonight(nights, w).stopInWait)
         && (Signalled(nights, w) ==> reason == Signal)
         && (reason == DryRunDone ==> cfg.dryRun)
         && (cfg.dryRun ==> reason == DryRunDone || reason == Signal)
         && (reason == MaxRounds ==> w.rounds >= cfg.maxRounds)
         && (reason == Budget ==> w.rounds < cfg.maxRounds && cfg.deadline - at <= MINUTE)
         && (reason == Budget && w.rounds > 0 ==> at == PressureRead(nights, w) || at == NextRound(nights, w))
  }

  predicate Lawful(cfg: Config, nights: nat -> Night, log: seq<Event>) {
    log == [] || (Lawful(cfg, nights, log[..|log| - 1]) && Allowed(cfg, nights, ViewOf(log[..|log| - 1]), log[|log| - 1]))
  }

  lemma {:induction false} Snoc(cfg: Config, nights: nat -> Night, log: seq<Event>, e: Event)
    requires Lawful(cfg, nights, log) && Allowed(cfg, nights, ViewOf(log), e)
    ensures Lawful(cfg, nights, log + [e]) && ViewOf(log + [e]) == Note(ViewOf(log), e)
  {
    assert (log + [e])[..|log|] == log;
  }

  /** Appending events one by one. */
  predicate AllAllowed(cfg: Config, nights: nat -> Night, w: View, events: seq<Event>)
    decreases |events|
  {
    events == [] || (Allowed(cfg, nights, w, events[0]) && AllAllowed(cfg, nights, Note(w, events[0]), events[1..]))
  }

  function NoteAll(w: View, events: seq<Event>): View
    decreases |events|
  {
    if events == [] then w else NoteAll(Note(w, events[0]), events[1..])
  }

  lemma {:induction false} Extend(cfg: Config, nights: nat -> Night, log: seq<Event>, events: seq<Event>)
    requires Lawful(cfg, nights, log) && AllAllowed(cfg, nights, ViewOf(log), events)
    ensures Lawful(cfg, nights, log + events) && ViewOf(log + events) == NoteAll(ViewOf(log), events)
    decreases |events|
  {
    if events == [] {
      assert log + events == log;
    } else {
      var first, rest := [events[0]], events[1..];
      Snoc(cfg, nights, log, events[0]);
      Extend(cfg, nights, log + first, rest);
      assert events == first + rest;
      Assoc(log, first, rest);
    }
  }

  lemma {:induction false} AllowedAppend(cfg: Config, nights: nat -> Night, w: View, a: seq<Event>, b: seq<Event>)
    requires AllAllowed(cfg, nights, w, a) && AllAllowed(cfg, nights, NoteAll(w, a), b)
    ensures AllAllowed(cfg, nights, w, a + b) && NoteAll(w, a + b) == NoteAll(NoteAll(w, a), b)
    decreases |a|
  {
    if a == [] {
      assert a + b == b;
    } else {
      assert (a + b)[1..] == a[1..] + b;
      AllowedAppend(cfg, nights, Note(w, a[0]), a[1..], b);
    }
  }

  /** main's variables agree with what the log and the nights say. */
  predicate InStep(cfg: Config, nights: nat -> Night, w: View, v: Vars) {
    && !w.over && !w.running && w.rounds == v.round && w.streak == v.backoffIdx && v.resumePath == Owed(cfg, w)
    && (w.rounds == 0 ==> w.last.None? && w.asked.None?)
    && (w.rounds > 0 ==>
          && v.now == NextRound(nights, w) && Between(cfg, nights, w) && MayGoOn(w.last.value.result) && !GivesUp(w) && w.asked != Some(Throws)
          && (Signalled(nights, w) ==> v.stop) && (v.stop ==> Tonight(nights, w).stopInWait)
          && (Guard(cfg, v) ==>
                && w.revivals == (if v.resumePath.Some? then [(v.resumePath.value, Yes)] else [])
                && (w.streak > 0 || cfg.gapMs > 0 ==> w.waited)))
  }

  lemma {:induction false} One(cfg: Config, nights: nat -> Night, w: View, e: Event)
    requires Allowed(cfg, nights, w, e)
    ensures AllAllowed(cfg, nights, w, [e]) && NoteAll(w, [e]) == Note(w, e)
  {
    assert [e][1..] == [];
  }

  lemma {:induction false} Two(cfg: Config, nights: nat -> Night, w: View, e: Event, f: Event)
    requires Allowed(cfg, nights, w, e) && Allowed(cfg, nights, Note(w, e), f)
    ensures AllAllowed(cfg, nights, w, [e, f]) && NoteAll(w, [e, f]) == Note(Note(w, e), f)
  {
    One(cfg, nights, Note(w, e), f);
    assert [e, f][1..] == [f];
  }

  /** A pass of the loop that goes on, after its round: nothing revived yet. */
  predicate Waiting(cfg: Config, nights: nat -> Night, w: View, v: Vars) {
    && !w.over && !w.running && Between(cfg, nights, w) && MayGoOn(w.last.value.result) && w.revivals == []
    && w.asked == (if w.last.value.result.Stuck? then Some(Yes) else None)
    && w.rounds == v.round && w.streak == v.backoffIdx && v.resumePath == Owed(cfg, w)
    && v.stop == (w.waited && Tonight(nights, w).stopInWait)
    && v.now == (if w.waited then PressureRead(nights, w) + Tonight(nights, w).slept else w.began + Tonight(nights, w).toEnd)
  }

  /** Before the pressure is read. */
  predicate Before(cfg: Config, nights: nat -> Night, w: View, v: Vars, barren: bool) {
    Waiting(cfg, nights, w, v) && !w.waited && (barren <==> w.last.value.result != Settled(false))
  }

  /** Only lawful events, and the log they leave is one the loop may go on from,
      or end on. */
  ghost predicate Continues(cfg: Config, nights: nat -> Night, w: View, turn: Turn, round: nat) {
    forall after :: after == NoteAll(w, turn.events) ==>
      AllAllowed(cfg, nights, w, turn.events) && LeavesWell(cfg, nights, after, turn, round)
  }

  predicate LeavesWell(cfg: Config, nights: nat -> Night, after: View, turn: Turn, round: nat) {
    && !after.over
    && (turn.Again? ==> InStep(cfg, nights, after, turn.vars))
    && (turn.Out? ==> Allowed(cfg, nights, after, Ended(turn.now, EndReason(cfg, turn.stop, turn.reason, round))))
  }

  lemma {:induction false} WaitAllowed(cfg: Config, nights: nat -> Night, w: View, v: Vars, barren: bool)
    requires Before(cfg, nights, w, v, barren)
    ensures Continues(cfg, nights, w, PressureAndWait(cfg, Tonight(nights, w), v, barren), v.round)
  {
    var night := Tonight(nights, w);
    if barren || night.cron {
      PressuredAllowed(cfg, nights, w, v, barren);
    } else {
      var now := v.now + night.toWait;
      var gap := Min(cfg.gapMs, Max0(cfg.deadline - now));
      One(cfg, nights, w, Pressure(false));
      if gap > 0 {
        Two(cfg, nights, w, Pressure(false), Gap(now, gap));
        assert [Pressure(false)] + [Gap(now, gap)] == [Pressure(false), Gap(now, gap)];
      } else {
        assert [Pressure(false)] + [] == [Pressure(false)];
      }
    }
  }

  lemma {:induction false} PressuredAllowed(cfg: Config, nights: nat -> Night, w: View, v: Vars, barren: bool)
    requires Before(cfg, nights, w, v, barren) && (barren || Tonight(nights, w).cron)
    ensures Continues(cfg, nights, w, PressureAndWait(cfg, Tonight(nights, w), v, barren), v.round)
  {
    var night := Tonight(nights, w);
    var now := v.now + night.toWait;
    var waitMs := Min(BackoffMinutes(v.backoffIdx) * MINUTE, Max0(cfg.deadline - now));
    if waitMs > MINUTE {
      var v' := v.(now := now + night.slept, backoffIdx := v.backoffIdx + 1, stop := v.stop || night.stopInWait);
      BackingOff(cfg, nights, w, v, now, waitMs, v');
      BackoffAllowed(cfg, nights, w, v', [Pressure(true), BackedOff(now, waitMs)]);
    } else {
      OutOfBudget(cfg, nights, w, v, now);
    }
  }

  lemma {:induction false} BackingOff(cfg: Config, nights: nat -> Night, w: View, v: Vars, now: int, ms: int, v': Vars)
    requires Waiting(cfg, nights, w, v) && MayWait(cfg, nights, w) && (w.last.value.result != Settled(false) || Tonight(nights, w).cron)
    requires ms > MINUTE && ms == Min(BackoffMinutes(v.backoffIdx) * MINUTE, Max0(cfg.deadline - now))
    requires now == v.now + Tonight(nights, w).toWait
    requires v' == v.(now := now + Tonight(nights, w).slept, backoffIdx := v.backoffIdx + 1, stop := v.stop || Tonight(nights, w).stopInWait)
    ensures var w' := w.(streak := w.streak + 1, waited := true);
            && AllAllowed(cfg, nights, w, [Pressure(true), BackedOff(now, ms)])
            && NoteAll(w, [Pressure(true), BackedOff(now, ms)]) == w' && Waiting(cfg, nights, w', v')
  {
    Two(cfg, nights, w, Pressure(true), BackedOff(now, ms));
  }

  lemma {:induction false} OutOfBudget(cfg: Config, nights: nat -> Night, w: View, v: Vars, now: int)
    requires Waiting(cfg, nights, w, v) && MayWait(cfg, nights, w) && (w.last.value.result != Settled(false) || Tonight(nights, w).cron)
    requires cfg.deadline - now <= MINUTE && now == PressureRead(nights, w)
    ensures Continues(cfg, nights, w, Out([Pressure(true)], None, v.stop, now), v.round)
  {
    One(cfg, nights, w, Pressure(true));
  }

  lemma {:induction false} BackoffAllowed(cfg: Config, nights: nat -> Night, w: View, v: Vars, events: seq<Event>)
    requires AllAllowed(cfg, nights, w, events) && Waiting(cfg, nights, NoteAll(w, events), v)
    requires NoteAll(w, events).waited && NoteAll(w, events).streak > 0
    ensures Continues(cfg, nights, w, AfterBackoff(cfg, Tonight(nights, NoteAll(w, events)), v, events), v.round)
  {
    if !v.stop && v.now + Tonight(nights, NoteAll(w, events)).toCheck < cfg.deadline && v.resumePath.Some? {
      RevivalAllowed(cfg, nights, w, v, events);
    }
  }

  lemma {:induction false} RevivalAllowed(cfg: Config, nights: nat -> Night, w: View, v: Vars, events: seq<Event>)
    requires AllAllowed(cfg, nights, w, events) && Waiting(cfg, nights, NoteAll(w, events), v)
    requires NoteAll(w, events).waited && NoteAll(w, events).streak > 0
    requires !v.stop && v.now + Tonight(nights, NoteAll(w, events)).toCheck < cfg.deadline && v.resumePath.Some?
    ensures Continues(cfg, nights, w, AfterBackoff(cfg, Tonight(nights, NoteAll(w, events)), v, events), v.round)
  {
    var revived := Revived(v.resumePath.value, Tonight(nights, NoteAll(w, events)).revive);
    RevivalLeaves(cfg, nights, NoteAll(w, events), v, events);
    One(cfg, nights, NoteAll(w, events), revived);
    AllowedAppend(cfg, nights, w, events, [revived]);
  }

  lemma {:induction false} RevivalLeaves(cfg: Config, nights: nat -> Night, w: View, v: Vars, events: seq<Event>)
    requires Waiting(cfg, nights, w, v) && w.waited && w.streak > 0
    requires !v.stop && v.now + Tonight(nights, w).toCheck < cfg.deadline && v.resumePath.Some?
    ensures var revived := Revived(v.resumePath.value, Tonight(nights, w).revive);
            && Allowed(cfg, nights, w, revived)
            && LeavesWell(cfg, nights, Note(w, revived), AfterBackoff(cfg, Tonight(nights, w), v, events), v.round)
  {
  }

  lemma {:induction false} ThenWaits(cfg: Config, nights: nat -> Night, w: View, events: seq<Event>, v: Vars, barren: bool)
    requires AllAllowed(cfg, nights, w, events) && Before(cfg, nights, NoteAll(w, events), v, barren)
    ensures Continues(cfg, nights, w, Prefixed(events, PressureAndWait(cfg, Tonight(nights, NoteAll(w, events)), v, barren)), v.round)
  {
    var turn := PressureAndWait(cfg, Tonight(nights, NoteAll(w, events)), v, barren);
    WaitAllowed(cfg, nights, NoteAll(w, events), v, barren);
    assert LeavesWell(cfg, nights, NoteAll(NoteAll(w, events), turn.events), turn, v.round);
    AllowedAppend(cfg, nights, w, events, turn.events);
  }

  /** The log of a pass up to its round's end. */
  predicate Told(w: View, v: Vars, result: Result) {
    && !w.over && !w.running && w.rounds == v.round + 1 && w.began == v.now && w.streak == v.backoffIdx
    && w.last == Some(Finished(v.resumePath, result)) && w.revivals == [] && w.asked.None? && !w.waited
  }

  lemma {:induction false} BodyAllowed(cfg: Config, nights: nat -> Night, w: View, v: Vars)
    requires InStep(cfg, nights, w, v) && Guard(cfg, v)
    ensures Continues(cfg, nights, w, Body(cfg, nights(v.round), v), v.round + 1)
  {
    var started, ended := RoundStarted(v.now, v.resumePath), RoundEnded(RoundResult(cfg, nights(v.round), v.resumePath));
    assert Allowed(cfg, nights, w, started);
    Two(cfg, nights, w, started, ended);
    RestAllowed(cfg, nights, w, v, [started, ended]);
  }

  lemma {:induction false} RestAllowed(cfg: Config, nights: nat -> Night, w: View, v: Vars, events: seq<Event>)
    requires Guard(cfg, v)
    requires events == [RoundStarted(v.now, v.resumePath), RoundEnded(RoundResult(cfg, nights(v.round), v.resumePath))]
    requires AllAllowed(cfg, nights, w, events) && Told(NoteAll(w, events), v, RoundResult(cfg, nights(v.round), v.resumePath))
    ensures Continues(cfg, nights, w, Body(cfg, nights(v.round), v), v.round + 1)
  {
    var night := nights(v.round);
    var result := RoundResult(cfg, night, v.resumePath);
    var resume := if result.PlanThrew? || result.Broke? then v.resumePath else None;
    var v' := Vars(v.now + night.toEnd, v.round + 1, v.backoffIdx, resume, v.stop || night.stopInRound);
    if !(cfg.dryRun || v'.stop) {
      match result {
        case Stuck(path) => StuckAllowed(cfg, nights, w, v', events, path);
        case Settled(barren) => ThenWaits(cfg, nights, w, events, v', barren);
        case PlanThrew(transient) =>
          if transient { ThenWaits(cfg, nights, w, events, v', true); }
        case Broke(_) =>
      }
    }
  }

  lemma {:induction false} StuckAllowed(cfg: Config, nights: nat -> Night, w: View, v: Vars, events: seq<Event>, path: Path)
    requires AllAllowed(cfg, nights, w, events) && !v.stop
    requires var w2 := NoteAll(w, events);
             && !w2.over && !w2.running && w2.rounds == v.round > 0 && v.now == w2.began + nights(v.round - 1).toEnd && w2.streak == v.backoffIdx
             && w2.revivals == [] && w2.asked.None? && !w2.waited && Between(cfg, nights, w2)
             && w2.last.value.result == Stuck(path)
    ensures var night := nights(v.round - 1);
            var checked := events + [Checked(path, night.retryable)];
            && AllAllowed(cfg, nights, w, checked) && NoteAll(w, checked) == NoteAll(w, events).(asked := Some(night.retryable))
            && (night.retryable == Yes ==>
                  Continues(cfg, nights, w, Prefixed(checked, PressureAndWait(cfg, night, v.(resumePath := Some(path)), true)), v.round))
  {
    var check := Checked(path, nights(v.round - 1).retryable);
    One(cfg, nights, NoteAll(w, events), check);
    AllowedAppend(cfg, nights, w, events, [check]);
    if check.answer == Yes { ThenWaits(cfg, nights, w, events + [check], v.(resumePath := Some(path)), true); }
  }

  lemma {:induction false} RunLawful(cfg: Config, nights: nat -> Night, v: Vars, log: seq<Event>)
    requires Lawful(cfg, nights, log) && InStep(cfg, nights, ViewOf(log), v)
    ensures Lawful(cfg, nights, log + Run(cfg, nights, v)) && ViewOf(log + Run(cfg, nights, v)).over
    decreases cfg.maxRounds - v.round
  {
    if !Guard(cfg, v) {
      Snoc(cfg, nights, log, Ended(v.now, EndReason(cfg, v.stop, None, v.round)));
    } else {
      BodyAllowed(cfg, nights, ViewOf(log), v);
      assert LeavesWell(cfg, nights, NoteAll(ViewOf(log), Body(cfg, nights(v.round), v).events), Body(cfg, nights(v.round), v), v.round + 1);
      match Body(cfg, nights(v.round), v) {
        case Again(events, v') =>
          RunGoesOn(cfg, nights, v, events, v');
          Extend(cfg, nights, log, events);
          RunLawful(cfg, nights, v', log + events);
          Assoc(log, events, Run(cfg, nights, v'));
        case Out(events, reason, stop, now) =>
          var end := Ended(now, EndReason(cfg, stop, reason, v.round + 1));
          RunStops(cfg, nights, v, events, reason, stop, now);
          Extend(cfg, nights, log, events);
          Snoc(cfg, nights, log + events, end);
          Assoc(log, events, [end]);
      }
    }
  }

  /** Every night the loop can have is lawful, and it ends. */
  lemma {:induction false} EveryNightIsLawful(cfg: Config, nights: nat -> Night, now0: int, notBefore: int, held: nat, stopped: bool)
    ensures var log := Whole(cfg, nights, now0, notBefore, held, stopped);
            Lawful(cfg, nights, log) && ViewOf(log).over
  {
    var opening := Opening(cfg, now0, notBefore, held, stopped);
    OpeningInStep(cfg, nights, now0, notBefore, held, stopped);
    RunLawful(cfg, nights, opening.1, opening.0);
  }

  lemma {:induction false} OpeningInStep(cfg: Config, nights: nat -> Night, now0: int, notBefore: int, held: nat, stopped: bool)
    ensures var (log, v) := Opening(cfg, now0, notBefore, held, stopped);
            Lawful(cfg, nights, log) && InStep(cfg, nights, ViewOf(log), v)
  {
    if notBefore > now0 {
      var hold := Hold(now0, Min(notBefore, cfg.deadline) - now0);
      Snoc(cfg, nights, [], hold);
      assert [] + [hold] == [hold];
    }
  }

  lemma {:induction false} LawfulAt(cfg: Config, nights: nat -> Night, log: seq<Event>, i: nat)
    requires Lawful(cfg, nights, log) && i < |log|
    ensures Lawful(cfg, nights, log[..i + 1]) && log[..i + 1][..i] == log[..i]
    decreases |log|
  {
    assert log[..|log|] == log;
    if i < |log| - 1 {
      LawfulAt(cfg, nights, log[..|log| - 1], i);
      assert log[..|log| - 1][..i + 1] == log[..i + 1];
    }
  }

  // ----- what the rounds came to, and never a fresh objective over it -----

  /** The result of each round is what its night made of the objective that it
      resumed or planned; the k-th round started is the k-th night's. */
  lemma {:induction false} ResultsAreTheNights(cfg: Config, nights: nat -> Night, log: seq<Event>, i: nat)
    requires Lawful(cfg, nights, log) && i < |log| && log[i].RoundEnded?
    ensures i > 0 && log[i - 1].RoundStarted? && ViewOf(log[..i]).rounds > 0
    ensures var night, resume, result := nights(ViewOf(log[..i]).rounds - 1), log[i - 1].resume, log[i].result;
            && (resume.None? && night.planning.PlanFailed? ==> result == PlanThrew(night.planning.transient))
            && forall path :: resume == Some(path) || (resume.None? && night.planning == Planned(path)) ==>
                 result == match night.work
                           case WorkThrew => Broke(path)
                           case WorkStuck => if cfg.dryRun then Settled(false) else Stuck(path)
                           case WorkSettled(barren) => if cfg.dryRun then Settled(false) else Settled(barren)
  {
    LawfulAt(cfg, nights, log, i);
    assert i > 0;
    LawfulAt(cfg, nights, log, i - 1);
    assert log[..i][..i - 1] == log[..i - 1];
  }

  /** What a log says of its last round is what that round's night was. */
  predicate Recorded(cfg: Config, nights: nat -> Night, w: View) {
    && (w.rounds == 0 ==> w.last.None?)
    && (w.last.Some? && !w.running ==>
          && CameTo(cfg, Tonight(nights, w), w.last.value.resume, w.last.value.result)
          && (w.revivals != [] ==> w.waited && w.revivals[0].1 == Tonight(nights, w).revive)
          && (w.last.value.result.Stuck? && w.waited ==> Tonight(nights, w).retryable == Yes)
          && (w.revivals == [] && w.asked.Some? ==> w.asked == Some(Tonight(nights, w).retryable)))
  }

  lemma {:induction false} StaysRecorded(cfg: Config, nights: nat -> Night, w: View, e: Event)
    requires Recorded(cfg, nights, w) && Allowed(cfg, nights, w, e)
    ensures Recorded(cfg, nights, Note(w, e))
  {
  }

  lemma {:induction false} LogRecords(cfg: Config, nights: nat -> Night, log: seq<Event>)
    requires Lawful(cfg, nights, log)
    ensures forall w :: w == ViewOf(log) ==> Recorded(cfg, nights, w)
  {
    if log != [] {
      LogRecords(cfg, nights, log[..|log| - 1]);
      StaysRecorded(cfg, nights, ViewOf(log[..|log| - 1]), log[|log| - 1]);
    }
  }

  ghost predicate StartsFreshOverWork(log: seq<Event>, i: nat) {
    && i < |log| && log[i].RoundStarted? && log[i].resume.None?
    && ViewOf(log[..i]).last.Some? && LeftBehind(ViewOf(log[..i]).last.value.result).Some?
  }

  /** In every night the first round runs the objective it was told to resume, if
      any, and each later one exactly the work that the round before it got
      stuck on: a fresh objective only if it left none behind. */
  lemma {:induction false} NeverFreshOverWork(cfg: Config, nights: nat -> Night, log: seq<Event>, i: nat)
    requires Lawful(cfg, nights, log) && i < |log| && log[i].RoundStarted?
    ensures !StartsFreshOverWork(log, i)
    ensures var w := ViewOf(log[..i]);
            if w.rounds == 0 then log[i].resume == cfg.objective
            else
              && w.last.Some?
              && log[i].resume == if nights(w.rounds - 1).work.WorkStuck? then Ran(nights(w.rounds - 1), w.last.value.resume) else None
  {
    LawfulAt(cfg, nights, log, i);
    LogRecords(cfg, nights, log[..i]);
    assert Recorded(cfg, nights, ViewOf(log[..i]));
  }

  /** A night whose round throws is followed by another round only if it was a
      fresh one whose planning failed for a transient reason. */
  lemma {:induction false} ThrowsThatGoOn(cfg: Config, nights: nat -> Night, log: seq<Event>, i: nat)
    requires Lawful(cfg, nights, log) && i < |log| && log[i].RoundStarted? && ViewOf(log[..i]).rounds > 0
    ensures var night := nights(ViewOf(log[..i]).rounds - 1);
            && ViewOf(log[..i]).last.Some?
            && var ran := Ran(night, ViewOf(log[..i]).last.value.resume);
               if ran.Some? then !night.work.WorkThrew? else night.planning == PlanFailed(true) && log[i].resume.None?
  {
    LawfulAt(cfg, nights, log, i);
    LogRecords(cfg, nights, log[..i]);
    assert Recorded(cfg, nights, ViewOf(log[..i]));
  }

  lemma {:induction false} StuckThenResumed(cfg: Config, nights: nat -> Night, w: View, e: Event)
    requires Recorded(cfg, nights, w) && Allowed(cfg, nights, w, e) && e.RoundStarted? && w.rounds > 0 && w.last.Some?
    requires Tonight(nights, w).work.WorkStuck? && Ran(Tonight(nights, w), w.last.value.resume).Some?
    ensures var path := Ran(Tonight(nights, w), w.last.value.resume).value;
            && e.resume == Some(path) && w.revivals == [(path, Yes)]
            && Tonight(nights, w).retryable == Yes && Tonight(nights, w).revive == Yes
  {
    assert w.revivals[0].1 == Yes;
  }

  /** After a night that leaves its round blocked, integration-blocked or
      incomplete, the next round, if there is one, runs that same objective, and
      between the two it was revived exactly once, successfully. */
  lemma {:induction false} StuckIsResumed(cfg: Config, nights: nat -> Night, log: seq<Event>, i: nat)
    requires Lawful(cfg, nights, log) && i < |log| && log[i].RoundStarted? && ViewOf(log[..i]).rounds > 0
    ensures var w := ViewOf(log[..i]);
            var night := nights(w.rounds - 1);
            && w.last.Some?
            && forall path :: night.work.WorkStuck? && Ran(night, w.last.value.resume) == Some(path) ==>
                 log[i].resume == Some(path) && w.revivals == [(path, Yes)] && night.retryable == Yes && night.revive == Yes
  {
    LawfulAt(cfg, nights, log, i);
    LogRecords(cfg, nights, log[..i]);
    var w := ViewOf(log[..i]);
    assert Recorded(cfg, nights, w) && Allowed(cfg, nights, w, log[i]);
    assert w.last.Some? && Tonight(nights, w) == nights(w.rounds - 1);
    if Tonight(nights, w).work.WorkStuck? && Ran(Tonight(nights, w), w.last.value.resume).Some? {
      StuckThenResumed(cfg, nights, w, log[i]);
    }
  }

  /** No wait reaches past the deadline, and the k-th pressured round in a row
      asks for the k-th backoff, clamped to the time left. */
  lemma {:induction false} WaitsInsideTheBudget(cfg: Config, nights: nat -> Night, log: seq<Event>, i: nat)
    requires Lawful(cfg, nights, log) && i < |log|
    ensures log[i].BackedOff? || log[i].Gap? || log[i].Hold? ==> log[i].from + log[i].ms <= cfg.deadline
    ensures log[i].BackedOff? ==>
              var k := ViewOf(log[..i]).streak;
              k > 0 && log[i].ms == Min([20, 45, 90, 180][if k <= 4 then k - 1 else 3] * MINUTE, cfg.deadline - log[i].from)
    ensures log[i].BackedOff? || log[i].Gap? ==>
              var w := ViewOf(log[..i]);
              w.rounds > 0 && log[i].from == w.began + nights(w.rounds - 1).toEnd + nights(w.rounds - 1).toWait
    ensures log[i].RoundStarted? ==> log[i].at < cfg.deadline && ViewOf(log[..i]).rounds < cfg.maxRounds
  {
    LawfulAt(cfg, nights, log, i);
  }

  /** Why the loop ends: within a minute of the deadline, at the cap, after a dry
      run, by a signal, or over work that only a person can recover, and over
      such work for none of the first two reasons. */
  lemma {:induction false} EndsForAReason(cfg: Config, nights: nat -> Night, log: seq<Event>, i: nat)
    requires Lawful(cfg, nights, log) && i < |log| && log[i].Ended?
    ensures var w := ViewOf(log[..i]);
            match log[i].reason
            case Budget => !GivesUp(w) && cfg.deadline - log[i].at <= MINUTE && w.rounds < cfg.maxRounds
            case MaxRounds => !GivesUp(w) && w.rounds >= cfg.maxRounds
            case DryRunDone => cfg.dryRun
            case Signal => w.rounds > 0 ==> Tonight(nights, w).stopInRound || Tonight(nights, w).stopInWait
            case RecoveryRequired => GivesUp(w)
            case Crashed => w.asked == Some(Throws)
  {
    LawfulAt(cfg, nights, log, i);
  }
}
