/**
 The Redis lock as a lease: a token under a key with an expiry, renewed by a task, deleted by a
 compare-and-delete script. A script is one atomic step; its reply may still be lost.
 */
module RedisLease {
  import opened Common
  import opened Text

  datatype Entry = Entry(token: string, expiresAt: int)

  type Store = map<string, Entry>

  /** The server has this token under this key now; an entry is gone at its expiry. */
  predicate Stored(store: Store, now: int, key: string, token: string) {
    key in store && store[key].token == token && now < store[key].expiresAt
  }

  predicate Occupied(store: Store, now: int, key: string) {
    key in store && now < store[key].expiresAt
  }

  /** `SET key token NX PX ttl`. */
  function SetNx(store: Store, now: int, key: string, token: string, ttl: int): Store {
    if Occupied(store, now, key) then store else store[key := Entry(token, now + ttl)]
  }

  /** The renew script. */
  function Renewed(store: Store, now: int, key: string, token: string, ttl: int): Store {
    if Stored(store, now, key, token) then store[key := Entry(token, now + ttl)] else store
  }

  /** The release script. */
  function Deleted(store: Store, now: int, key: string, token: string): Store {
    if Stored(store, now, key, token) then store - {key} else store
  }

  // ---------------------------------------------------------------------------------------
  // The protocol

  datatype Task = Sleeping | Awaiting(renewed: bool) | Stopped

  datatype LeaseError = LeaseBusy | LeaseLost | LeaseUnavailable | NotOwned | InvalidConfig

  datatype Phase = Held | Releasing | Released | ReleaseFailed(error: LeaseError) | Dropped

  datatype Guard = Guard(key: string, token: string, ttl: int, lost: bool, task: Task, phase: Phase)

  /** What became of a call: run and answered, run with its answer lost, or never run. */
  datatype Delivery = Delivered | ReplyLost | NotRun

  datatype Step =
    | Tick(d: nat)
    | Acquire(g: int, key: string, token: string, ttl: int, delivery: Delivery)
    | RenewRun(g: int)
    | RenewReply(g: int, arrived: bool)
    | RenewBroken(g: int)
    | Shutdown(g: int)
    | StopTask(g: int)
    | Release(g: int, delivery: Delivery)
    | Drop(g: int)

  datatype System = System(now: int, store: Store, guards: map<int, Guard>, used: set<string>)

  function With(s: System, g: int, guard: Guard): System {
    s.(guards := s.guards[g := guard])
  }

  function Acquired(s: System, g: int, key: string, token: string, ttl: int, delivery: Delivery): System {
    if g in s.guards || token in s.used || ttl <= 0 || delivery.NotRun? then s
    else if Occupied(s.store, s.now, key) then s.(used := s.used + {token})
    else
      var s' := s.(store := SetNx(s.store, s.now, key, token, ttl), used := s.used + {token});
      if delivery.ReplyLost? then s' else With(s', g, Guard(key, token, ttl, false, Sleeping, Held))
  }

  function ReleaseDone(s: System, g: int, delivery: Delivery): System
    requires g in s.guards
  {
    var guard := s.guards[g];
    if guard.lost then With(s, g, guard.(phase := ReleaseFailed(LeaseLost)))
    else if delivery.NotRun? then With(s, g, guard.(phase := ReleaseFailed(LeaseUnavailable)))
    else
      var removed := Stored(s.store, s.now, guard.key, guard.token);
      var s' := s.(store := Deleted(s.store, s.now, guard.key, guard.token));
      With(s', g, guard.(phase := if delivery.ReplyLost? then ReleaseFailed(LeaseUnavailable)
                                  else if removed then Released else ReleaseFailed(NotOwned)))
  }

  function Next(s: System, step: Step): System {
    match step
    case Tick(d) => s.(now := s.now + d)
    case Acquire(g, key, token, ttl, delivery) => Acquired(s, g, key, token, ttl, delivery)
    case RenewRun(g) =>
      if g in s.guards && s.guards[g].task.Sleeping? then
        var guard := s.guards[g];
        With(s.(store := Renewed(s.store, s.now, guard.key, guard.token, guard.ttl)), g,
             guard.(task := Awaiting(Stored(s.store, s.now, guard.key, guard.token))))
      else s
    case RenewReply(g, arrived) =>
      if g in s.guards && s.guards[g].task.Awaiting? then
        With(s, g, if arrived && s.guards[g].task.renewed then s.guards[g].(task := Sleeping)
                   else s.guards[g].(task := Stopped, lost := true))
      else s
    case RenewBroken(g) =>
      if g in s.guards && s.guards[g].task.Sleeping? then With(s, g, s.guards[g].(task := Stopped, lost := true)) else s
    case Shutdown(g) =>
      if g in s.guards && s.guards[g].phase.Held? then With(s, g, s.guards[g].(phase := Releasing)) else s
    case StopTask(g) =>
      if g in s.guards && s.guards[g].task.Sleeping? && !s.guards[g].phase.Held? then With(s, g, s.guards[g].(task := Stopped)) else s
    case Release(g, delivery) =>
      if g in s.guards && s.guards[g].phase.Releasing? && s.guards[g].task.Stopped? then ReleaseDone(s, g, delivery) else s
    case Drop(g) =>
      if g in s.guards && s.guards[g].phase.Held? then With(s, g, s.guards[g].(phase := Dropped)) else s
  }

  function Run(steps: seq<Step>): System {
    if steps == [] then System(0, map[], map[], {})
    else Next(Run(steps[..|steps| - 1]), steps[|steps| - 1])
  }

  predicate StoreOk(store: Store, used: set<string>) {
    forall k :: k in store ==> store[k].token in used
  }

  /** Tokens are never used twice. */
  predicate GuardsOk(guards: map<int, Guard>, used: set<string>) {
    && (forall g :: g in guards ==> guards[g].token in used && guards[g].ttl > 0)
    && (forall g, h :: g in guards && h in guards && guards[g].token == guards[h].token ==> g == h)
  }

  predicate Inv(s: System) {
    StoreOk(s.store, s.used) && GuardsOk(s.guards, s.used)
  }

  lemma WithKeeps(s: System, g: int, guard: Guard)
    requires Inv(s) && g in s.guards && guard.token == s.guards[g].token && guard.ttl == s.guards[g].ttl
    ensures Inv(With(s, g, guard))
  {
  }

  /** The scripts put no token into the store but the one that is there. */
  lemma ScriptsKeep(s: System, key: string, token: string, ttl: int)
    requires Inv(s)
    ensures Inv(s.(store := Renewed(s.store, s.now, key, token, ttl))) && Inv(s.(store := Deleted(s.store, s.now, key, token)))
  {
    hide GuardsOk;
  }

  lemma AcquireKeeps(s: System, g: int, key: string, token: string, ttl: int, delivery: Delivery)
    requires Inv(s)
    ensures Inv(Acquired(s, g, key, token, ttl, delivery)) && s.used <= Acquired(s, g, key, token, ttl, delivery).used
  {
  }

  lemma NextKeepsInv(s: System, step: Step)
    requires Inv(s)
    ensures Inv(Next(s, step)) && s.used <= Next(s, step).used
  {
    hide Stored, Renewed, Deleted, Acquired, GuardsOk, StoreOk;
    match step {
      case Tick(d) =>
      case Acquire(g, key, token, ttl, delivery) => AcquireKeeps(s, g, key, token, ttl, delivery);
      case RenewRun(g) =>
        if g in s.guards {
          var guard := s.guards[g];
          ScriptsKeep(s, guard.key, guard.token, guard.ttl);
          WithKeeps(s.(store := Renewed(s.store, s.now, guard.key, guard.token, guard.ttl)), g,
                    guard.(task := Awaiting(Stored(s.store, s.now, guard.key, guard.token))));
        }
      case Release(g, delivery) =>
        if g in s.guards {
          var guard := s.guards[g];
          ScriptsKeep(s, guard.key, guard.token, guard.ttl);
          WithKeeps(s, g, Next(s, step).guards[g]);
          WithKeeps(s.(store := Deleted(s.store, s.now, guard.key, guard.token)), g, Next(s, step).guards[g]);
        }
      case RenewReply(g, _) => if g in s.guards { WithKeeps(s, g, Next(s, step).guards[g]); }
      case RenewBroken(g) => if g in s.guards { WithKeeps(s, g, Next(s, step).guards[g]); }
      case Shutdown(g) => if g in s.guards { WithKeeps(s, g, Next(s, step).guards[g]); }
      case StopTask(g) => if g in s.guards { WithKeeps(s, g, Next(s, step).guards[g]); }
      case Drop(g) => if g in s.guards { WithKeeps(s, g, Next(s, step).guards[g]); }
    }
  }

  lemma {:induction false} RunKeepsInv(steps: seq<Step>)
    ensures Inv(Run(steps))
  {
    hide Next, Inv;
    if steps == [] {
      InitInv();
    } else {
      RunKeepsInv(steps[..|steps| - 1]);
      NextKeepsInv(Run(steps[..|steps| - 1]), steps[|steps| - 1]);
    }
  }

  lemma InitInv()
    ensures Inv(System(0, map[], map[], {}))
  {
  }

  /** A used token that is not stored does not come back. */
  lemma GoneStaysGone(s: System, step: Step, key: string, token: string)
    requires Inv(s) && token in s.used && !Stored(s.store, s.now, key, token)
    ensures !Stored(Next(s, step).store, Next(s, step).now, key, token)
  {
  }

  /** A guard keeps its key and token, and gets to `Released` only while its token is stored. */
  lemma GuardSteps(s: System, step: Step, g: int)
    requires g in s.guards
    ensures var s' := Next(s, step);
            && g in s'.guards && s'.guards[g].key == s.guards[g].key && s'.guards[g].token == s.guards[g].token
            && (s'.guards[g].phase.Released? && !s.guards[g].phase.Released? ==>
                  Stored(s.store, s.now, s.guards[g].key, s.guards[g].token) && !s.guards[g].lost)
            && (s.guards[g].phase.Released? ==> s'.guards[g].phase.Released?)
  {
  }

  /** Once the token of an unreleased guard is gone, it stays gone and the release never succeeds. */
  lemma {:induction false} LostIsForever(steps: seq<Step>, g: int, k: nat)
    requires k <= |steps| && g in Run(steps[..k]).guards && !Run(steps[..k]).guards[g].phase.Released?
    requires var s := Run(steps[..k]); !Stored(s.store, s.now, s.guards[g].key, s.guards[g].token)
    ensures var s, s' := Run(steps[..k]), Run(steps);
            && g in s'.guards && s'.guards[g].key == s.guards[g].key && s'.guards[g].token == s.guards[g].token
            && !s'.guards[g].phase.Released? && !Stored(s'.store, s'.now, s.guards[g].key, s.guards[g].token)
  {
    hide Next, Stored;
    if k == |steps| {
      assert steps[..k] == steps;
    } else {
      var init := steps[..|steps| - 1];
      assert init[..k] == steps[..k];
      LostIsForever(init, g, k);
      RunKeepsInv(init);
      var s := Run(init);
      GuardSteps(s, steps[|steps| - 1], g);
      GoneStaysGone(s, steps[|steps| - 1], s.guards[g].key, s.guards[g].token);
    }
  }

  lemma {:induction false} GuardStays(steps: seq<Step>, g: int, k: nat)
    requires k <= |steps| && g in Run(steps[..k]).guards
    ensures g in Run(steps).guards
    ensures Run(steps).guards[g].key == Run(steps[..k]).guards[g].key && Run(steps).guards[g].token == Run(steps[..k]).guards[g].token
  {
    hide Next;
    if k == |steps| {
      assert steps[..k] == steps;
    } else {
      var init := steps[..|steps| - 1];
      assert init[..k] == steps[..k];
      GuardStays(init, g, k);
      GuardSteps(Run(init), steps[|steps| - 1], g);
    }
  }

  /** In this state the guard is between its acquisition and the success of its release. */
  predicate Owning(s: System, g: int) {
    g in s.guards && !s.guards[g].phase.Released?
  }

  /**
   A release that returns Ok proves that the guard's token was stored under its key at every moment
   from the acquisition to the release, over every run of steps.
   */
  lemma {:induction false} OkReleaseProvesOwnership(steps: seq<Step>, g: int, k: nat)
    requires k <= |steps| && Owning(Run(steps[..k]), g)
    requires g in Run(steps).guards && Run(steps).guards[g].phase.Released?
    ensures var s := Run(steps[..k]);
            Stored(s.store, s.now, Run(steps).guards[g].key, Run(steps).guards[g].token)
  {
    hide Run, Stored;
    var s := Run(steps[..k]);
    if !Stored(s.store, s.now, s.guards[g].key, s.guards[g].token) {
      LostIsForever(steps, g, k);
    }
    GuardStays(steps, g, k);
  }

  /** Two guards of one key that were both released Ok never held it at the same moment. */
  lemma OkHoldersExclude(steps: seq<Step>, g: int, h: int, k: nat)
    requires k <= |steps| && Owning(Run(steps[..k]), g) && Owning(Run(steps[..k]), h)
    requires g in Run(steps).guards && Run(steps).guards[g].phase.Released?
    requires h in Run(steps).guards && Run(steps).guards[h].phase.Released?
    requires Run(steps).guards[g].key == Run(steps).guards[h].key
    ensures g == h
  {
    OkReleaseProvesOwnership(steps, g, k);
    OkReleaseProvesOwnership(steps, h, k);
    RunKeepsInv(steps);
    hide Run;
    assert GuardsOk(Run(steps).guards, Run(steps).used);
  }

  /**
   A stored token is taken away only by time, past an expiry that was not renewed, or by the
   release of the guard that has it; no other worker can delete or overwrite it.
   */
  lemma OnlyTimeOrOwnRelease(s: System, step: Step, key: string, token: string)
    requires Inv(s) && Stored(s.store, s.now, key, token)
    requires !Stored(Next(s, step).store, Next(s, step).now, key, token)
    ensures (step.Tick? && s.store[key].expiresAt <= s.now + step.d)
            || (step.Release? && step.g in s.guards && s.guards[step.g].token == token && s.guards[step.g].key == key)
  {
  }

  // ---------------------------------------------------------------------------------------
  // How long a lease lasts

  /** Time passes by the ticks alone. */
  function Elapsed(steps: seq<Step>): nat {
    if steps == [] then 0
    else Elapsed(steps[..|steps| - 1]) + if steps[|steps| - 1].Tick? then steps[|steps| - 1].d else 0
  }

  lemma {:induction false} NowIsElapsed(steps: seq<Step>, k: nat)
    requires k <= |steps|
    ensures Run(steps).now == Run(steps[..k]).now + Elapsed(steps[k..])
  {
    if k == |steps| {
      assert steps[..k] == steps;
    } else {
      var init := steps[..|steps| - 1];
      NowIsElapsed(init, k);
      assert init[..k] == steps[..k] && steps[k..][..|steps[k..]| - 1] == init[k..];
      assert steps[k..][|steps[k..]| - 1] == steps[|steps| - 1];
      OnlyTicksPass(Run(init), steps[|steps| - 1]);
    }
  }

  lemma OnlyTicksPass(s: System, step: Step)
    ensures Next(s, step).now == s.now + if step.Tick? then step.d else 0
  {
  }

  /**
   The step puts the token under the key, or is a renewal that finds it there; in either case for
   `ttl`. A token put there whose answer is lost counts too.
   */
  predicate Refreshes(s: System, step: Step, key: string, token: string, ttl: int) {
    match step
    case Acquire(_, k, t, d, _) =>
      k == key && t == token && d == ttl && !Stored(s.store, s.now, key, token) && Stored(Next(s, step).store, Next(s, step).now, key, token)
    case RenewRun(g) =>
      && g in s.guards && s.guards[g].task.Sleeping? && Stored(s.store, s.now, key, token)
      && s.guards[g].key == key && s.guards[g].token == token && s.guards[g].ttl == ttl
    case _ => false
  }

  predicate ReleasesIt(s: System, step: Step, key: string, token: string) {
    step.Release? && step.g in s.guards && s.guards[step.g].key == key && s.guards[step.g].token == token
  }

  /** The token lives until `since + ttl`, and whoever may renew it does so for `ttl`. */
  predicate Lives(s: System, key: string, token: string, since: int, ttl: int) {
    && token in s.used && since <= s.now && Stored(s.store, since + ttl - 1, key, token)
    && forall g :: g in s.guards && s.guards[g].token == token ==> s.guards[g].ttl == ttl
  }

  lemma RefreshedLives(s: System, step: Step, key: string, token: string, ttl: int)
    requires Inv(s) && Refreshes(s, step, key, token, ttl)
    ensures Lives(Next(s, step), key, token, s.now, ttl) && ttl > 0
  {
  }

  lemma LivesOn(s: System, step: Step, key: string, token: string, since: int, ttl: int)
    requires Inv(s) && Lives(s, key, token, since, ttl) && s.now < since + ttl
    requires !ReleasesIt(s, step, key, token)
    ensures Lives(Next(s, step), key, token, since, ttl)
  {
  }

  /** The token is not stored past this moment. */
  predicate GoneAt(s: System, key: string, token: string, moment: int) {
    token in s.used && !Stored(s.store, moment, key, token)
  }

  lemma RefreshedEnds(s: System, step: Step, key: string, token: string, ttl: int)
    requires Inv(s) && Refreshes(s, step, key, token, ttl)
    ensures GoneAt(Next(s, step), key, token, s.now + ttl)
  {
  }

  lemma EndStays(s: System, step: Step, key: string, token: string, moment: int)
    requires Inv(s) && GoneAt(s, key, token, moment)
    requires forall ttl :: !Refreshes(s, step, key, token, ttl)
    ensures GoneAt(Next(s, step), key, token, moment)
  {
    if step.RenewRun? && step.g in s.guards {
      assert !Refreshes(s, step, key, token, s.guards[step.g].ttl);
    }
  }

  ghost predicate NoReleaseSince(steps: seq<Step>, k: nat, key: string, token: string) {
    forall i :: k <= i < |steps| ==> !ReleasesIt(Run(steps[..i]), steps[i], key, token)
  }

  ghost predicate NoRefreshSince(steps: seq<Step>, k: nat, key: string, token: string) {
    forall i, ttl :: k <= i < |steps| ==> !Refreshes(Run(steps[..i]), steps[i], key, token, ttl)
  }

  lemma {:induction false} ElapsedOneMore(steps: seq<Step>, k: nat)
    requires k < |steps|
    ensures Elapsed(steps[k..]) == Elapsed(steps[..|steps| - 1][k..]) + if steps[|steps| - 1].Tick? then steps[|steps| - 1].d else 0
  {
    assert steps[k..][..|steps[k..]| - 1] == steps[..|steps| - 1][k..];
  }

  /** A run that starts with a refresh has not passed its end while less than `ttl` has elapsed. */
  lemma {:induction false} EndOfLease(steps: seq<Step>, k: nat, key: string, token: string, ttl: int)
    requires k < |steps| && Refreshes(Run(steps[..k]), steps[k], key, token, ttl)
    ensures Run(steps).now == Run(steps[..k]).now + Elapsed(steps[k + 1..])
  {
    hide Next, Stored;
    NowIsElapsed(steps, k);
    assert steps[k..][0] == steps[k];
    ElapsedFirst(steps[k..]);
    assert steps[k..][1..] == steps[k + 1..];
    NoTick(Run(steps[..k]), steps[k], key, token, ttl);
  }

  lemma {:induction false} ElapsedFirst(steps: seq<Step>)
    requires steps != []
    ensures Elapsed(steps) == (if steps[0].Tick? then steps[0].d else 0) + Elapsed(steps[1..])
  {
    if |steps| > 1 {
      ElapsedFirst(steps[..|steps| - 1]);
      assert steps[1..][..|steps[1..]| - 1] == steps[..|steps| - 1][1..];
    }
  }

  lemma {:induction false} LivesThroughout(steps: seq<Step>, k: nat, key: string, token: string, ttl: int)
    requires k < |steps| && Refreshes(Run(steps[..k]), steps[k], key, token, ttl)
    requires NoReleaseSince(steps, k + 1, key, token) && Elapsed(steps[k + 1..]) < ttl
    ensures Lives(Run(steps), key, token, Run(steps[..k]).now, ttl)
  {
    hide Next, Refreshes, Lives, ReleasesIt, Inv, Elapsed;
    var init := steps[..|steps| - 1];
    RunKeepsInv(init);
    if k == |init| {
      RefreshedLives(Run(init), steps[k], key, token, ttl);
    } else {
      assert init[..k] == steps[..k];
      forall i | k + 1 <= i < |init| ensures !ReleasesIt(Run(init[..i]), init[i], key, token) {
        assert init[..i] == steps[..i];
      }
      ElapsedOneMore(steps, k + 1);
      LivesThroughout(init, k, key, token, ttl);
      EndOfLease(init, k, key, token, ttl);
      LivesOn(Run(init), steps[|init|], key, token, Run(steps[..k]).now, ttl);
    }
  }

  lemma NoTick(s: System, step: Step, key: string, token: string, ttl: int)
    requires Refreshes(s, step, key, token, ttl)
    ensures !step.Tick?
  {
  }

  lemma {:induction false} EndsThroughout(steps: seq<Step>, k: nat, key: string, token: string, ttl: int)
    requires k < |steps| && Refreshes(Run(steps[..k]), steps[k], key, token, ttl)
    requires NoRefreshSince(steps, k + 1, key, token)
    ensures GoneAt(Run(steps), key, token, Run(steps[..k]).now + ttl)
  {
    hide Next, Refreshes, GoneAt, Inv;
    var n := |steps| - 1;
    var init := steps[..n];
    RunKeepsInv(init);
    if k == n {
      RefreshedEnds(Run(init), steps[k], key, token, ttl);
    } else {
      assert init[..k] == steps[..k];
      forall i, d | k + 1 <= i < |init| ensures !Refreshes(Run(init[..i]), init[i], key, token, d) {
        assert init[..i] == steps[..i];
      }
      EndsThroughout(init, k, key, token, ttl);
      EndStays(Run(init), steps[n], key, token, Run(steps[..k]).now + ttl);
    }
  }

  /**
   Once acquired or renewed, and while no release of its guard is made, a token stays stored until
   `ttl` has passed, whatever else happens.
   */
  lemma {:induction false} LeaseLasts(steps: seq<Step>, k: nat, key: string, token: string, ttl: int)
    requires k < |steps| && Refreshes(Run(steps[..k]), steps[k], key, token, ttl)
    requires NoReleaseSince(steps, k + 1, key, token) && Elapsed(steps[k + 1..]) < ttl
    ensures Stored(Run(steps).store, Run(steps).now, key, token)
  {
    LivesThroughout(steps, k, key, token, ttl);
    EndOfLease(steps, k, key, token, ttl);
    hide Run, Refreshes, Elapsed;
  }

  /** And it is gone when `ttl` has passed since it was last acquired or renewed. */
  lemma {:induction false} LeaseEnds(steps: seq<Step>, k: nat, key: string, token: string, ttl: int)
    requires k < |steps| && Refreshes(Run(steps[..k]), steps[k], key, token, ttl)
    requires NoRefreshSince(steps, k + 1, key, token) && Elapsed(steps[k + 1..]) >= ttl
    ensures !Stored(Run(steps).store, Run(steps).now, key, token)
  {
    EndsThroughout(steps, k, key, token, ttl);
    EndOfLease(steps, k, key, token, ttl);
    hide Run, Refreshes, Elapsed;
  }

  // ---------------------------------------------------------------------------------------
  // The end of a turn under a lease

  datatype RunResult<+T, +E> = RunOk(value: T) | RunErr(error: E)

  /** `finish_turn_run`: an error of the release wins over the result of the run, even over its error. */
  function FinishTurnRun<T, E>(run: RunResult<T, E>, release: RunResult<(), E>): RunResult<T, E> {
    match (run, release)
    case (RunOk(output), RunOk(_)) => RunOk(output)
    case (RunOk(_), RunErr(e)) => RunErr(e)
    case (RunErr(e), RunOk(_)) => RunErr(e)
    case (RunErr(_), RunErr(e)) => RunErr(e)
  }

  function ReleaseResult(s: System, g: int): RunResult<(), LeaseError>
    requires g in s.guards
  {
    match s.guards[g].phase
    case Released => RunOk(())
    case ReleaseFailed(e) => RunErr(e)
    case _ => RunErr(LeaseUnavailable)
  }

  /** A turn that ends Ok under a lease owned its key at every moment until the release. */
  lemma OkTurnNeverLostOwnership<T>(run: RunResult<T, LeaseError>, steps: seq<Step>, g: int, k: nat)
    requires k <= |steps| && Owning(Run(steps[..k]), g) && g in Run(steps).guards
    requires FinishTurnRun(run, ReleaseResult(Run(steps), g)).RunOk?
    ensures var s := Run(steps[..k]);
            run.RunOk? && Stored(s.store, s.now, Run(steps).guards[g].key, Run(steps).guards[g].token)
  {
    hide Run;
    OkReleaseProvesOwnership(steps, g, k);
  }

  // ---------------------------------------------------------------------------------------
  // Keys under a prefix

  function TrimColons(s: string): string {
    if s != "" && s[|s| - 1] == ':' then TrimColons(s[..|s| - 1]) else s
  }

  function PrefixedKey(prefix: Option<string>, key: string): string {
    if prefix.None? || prefix.value <= key then key else TrimColons(prefix.value) + ":" + key
  }

  lemma SamePrefix(p: string, a: string, b: string)
    requires p + a == p + b
    ensures a == b
  {
    assert a == (p + a)[|p|..] && b == (p + b)[|p|..];
  }

  /** `a` has the prefix already, and is what the prefix makes of `b`, which has not. */
  predicate IsPrefixed(prefix: string, a: string, b: string) {
    prefix <= a && !(prefix <= b) && a == TrimColons(prefix) + ":" + b
  }

  /** Two different keys share one lock exactly when one of them is the other with the prefix put before it. */
  lemma KeysCollideOnlyAcrossThePrefix(prefix: Option<string>, a: string, b: string)
    requires a != b
    ensures PrefixedKey(prefix, a) == PrefixedKey(prefix, b) <==>
            prefix.Some? && (IsPrefixed(prefix.value, a, b) || IsPrefixed(prefix.value, b, a))
  {
    if PrefixedKey(prefix, a) == PrefixedKey(prefix, b) && prefix.Some? && !(prefix.value <= a) && !(prefix.value <= b) {
      SamePrefix(TrimColons(prefix.value) + ":", a, b);
    }
  }

  // ---------------------------------------------------------------------------------------
  // The client

  class RedisServer {
    var now: int
    var store: Store
    /** Everything that happened to the server and to the guards. */
    ghost var trace: seq<Step>

    ghost predicate Valid()
      reads this
    {
      Run(trace).now == now && Run(trace).store == store
    }

    constructor ()
      ensures Valid() && trace == []
    {
      now, store, trace := 0, map[], [];
    }

    ghost method Record(step: Step)
      modifies this`trace
      ensures trace == old(trace) + [step] && Run(trace) == Next(Run(old(trace)), step)
    {
      assert (trace + [step])[..|trace|] == trace;
      trace := trace + [step];
    }

    /** Time passes. */
    method Pass(d: nat)
      requires Valid()
      modifies this
      ensures Valid() && trace == old(trace) + [Tick(d)] && Run(trace).guards == Run(old(trace)).guards
      ensures now == old(now) + d && store == old(store)
    {
      now := now + d;
      Record(Tick(d));
    }
  }

  /** One wake-up of the renewal task: the time slept, and what becomes of its script. */
  datatype Wake = Wake(slept: nat, delivery: Delivery)

  /** The guard's token is stored after these steps. */
  ghost predicate OwnedAfter(steps: seq<Step>, g: int) {
    var s := Run(steps);
    g in s.guards && Stored(s.store, s.now, s.guards[g].key, s.guards[g].token)
  }

  /** The guard's token is stored for exactly its `ttl` from now. */
  predicate FullLease(s: System, g: int) {
    && g in s.guards && Stored(s.store, s.now + s.guards[g].ttl - 1, s.guards[g].key, s.guards[g].token)
    && !Stored(s.store, s.now + s.guards[g].ttl, s.guards[g].key, s.guards[g].token)
  }

  /** The task wakes up in time, and its script is run and answered. */
  predicate InTime(wake: Wake, ttl: int) {
    wake.delivery.Delivered? && wake.slept < ttl
  }

  lemma {:induction false} ReleasedStays(steps: seq<Step>, g: int, k: nat)
    requires k <= |steps| && g in Run(steps[..k]).guards && Run(steps[..k]).guards[g].phase.Released?
    ensures g in Run(steps).guards && Run(steps).guards[g].phase.Released?
  {
    hide Next;
    if k == |steps| {
      assert steps[..k] == steps;
    } else {
      var init := steps[..|steps| - 1];
      assert init[..k] == steps[..k];
      ReleasedStays(init, g, k);
      GuardSteps(Run(init), steps[|steps| - 1], g);
    }
  }

  /** A last step that releases Ok proves ownership after every list of steps before it. */
  lemma OwnedThroughout(steps: seq<Step>, g: int, from: nat)
    requires from < |steps| && g in Run(steps[..from]).guards
    requires Owning(Run(steps[..|steps| - 1]), g) && g in Run(steps).guards && Run(steps).guards[g].phase.Released?
    ensures forall k: nat :: from <= k < |steps| ==> OwnedAfter(steps[..k], g)
  {
    hide Run, Stored;
    forall k: nat | from <= k < |steps| ensures OwnedAfter(steps[..k], g) {
      assert steps[..k][..from] == steps[..from];
      GuardStays(steps[..k], g, from);
      var init := steps[..|steps| - 1];
      assert init[..k] == steps[..k];
      if Run(steps[..k]).guards[g].phase.Released? { ReleasedStays(init, g, k); }
      OkReleaseProvesOwnership(steps, g, k);
      GuardStays(steps, g, k);
    }
  }

  /** The steps of one wake-up: time passes, and a script that can be run is run and perhaps answered. */
  function OneWake(g: int, wake: Wake): seq<Step> {
    if wake.delivery.NotRun? then [Tick(wake.slept), RenewBroken(g)]
    else [Tick(wake.slept), RenewRun(g), RenewReply(g, wake.delivery.Delivered?)]
  }

  function WakeSteps(g: int, wakes: seq<Wake>): seq<Step> {
    if wakes == [] then [] else WakeSteps(g, wakes[..|wakes| - 1]) + OneWake(g, wakes[|wakes| - 1])
  }

  lemma DeletedIsGone(store: Store, now: int, key: string, token: string)
    ensures !Stored(Deleted(store, now, key, token), now, key, token)
  {
  }

  lemma LeaseIsOwned(steps: seq<Step>, g: int)
    requires FullLease(Run(steps), g)
    ensures OwnedAfter(steps, g)
  {
    RunKeepsInv(steps);
    hide Run;
  }

  class RedisLockGuard {
    const id: int
    const key: string
    const token: string
    const ttl: int
    var lost: bool
    /** The renewal task has not returned. */
    var renewing: bool

    constructor (id: int, key: string, token: string, ttl: int)
      ensures this.id == id && this.key == key && this.token == token && this.ttl == ttl && !lost && renewing
    {
      this.id, this.key, this.token, this.ttl, lost, renewing := id, key, token, ttl, false, true;
    }

    /** The guard as the protocol has it. */
    ghost predicate Is(server: RedisServer, phase: Phase)
      reads this, server
    {
      && id in Run(server.trace).guards
      && Run(server.trace).guards[id] == Guard(key, token, ttl, lost, if renewing then Sleeping else Stopped, phase)
    }

    /** One wake-up: a script that is run, renews and is answered keeps the task going. */
    method Renew(server: RedisServer, wake: Wake, ghost phase: Phase)
      requires server.Valid() && Is(server, phase) && renewing
      modifies server, this
      ensures server.Valid() && Is(server, phase) && server.trace == old(server.trace) + OneWake(id, wake)
      ensures if renewing then lost == old(lost) else lost
      ensures renewing <==> wake.delivery.Delivered? && Stored(old(server.store), old(server.now) + wake.slept, key, token)
      ensures !wake.delivery.NotRun? && Stored(old(server.store), old(server.now) + wake.slept, key, token) ==>
                FullLease(Run(server.trace), id) && OwnedAfter(server.trace, id)
    {
      hide Run, Acquired, ReleaseDone;
      RunKeepsInv(server.trace);
      server.Pass(wake.slept);
      if wake.delivery.NotRun? {
        lost, renewing := true, false;
        server.Record(RenewBroken(id));
        return;
      }
      var renewed := Stored(server.store, server.now, key, token);
      server.store := Renewed(server.store, server.now, key, token, ttl);
      server.Record(RenewRun(id));
      server.Record(RenewReply(id, wake.delivery.Delivered?));
      if !(wake.delivery.Delivered? && renewed) {
        lost, renewing := true, false;
      }
    }

    /** With a full lease the token is found after a sleep exactly if that is shorter than the lease. */
    lemma LeaseBounds(server: RedisServer, slept: nat, phase: Phase)
      requires server.Valid() && Is(server, phase)
      ensures FullLease(Run(server.trace), id) ==>
                (Stored(server.store, server.now + slept, key, token) <==> slept < ttl)
    {
    }

    /** `renew_loop` for some wake-ups: it stops at the first that does not renew, and marks the guard lost. */
    method RenewLoop(server: RedisServer, wakes: seq<Wake>, ghost phase: Phase)
      requires server.Valid() && Is(server, phase) && renewing
      modifies server, this
      ensures server.Valid() && old(server.trace) <= server.trace && Is(server, phase)
      ensures renewing ==> lost == old(lost) && server.trace == old(server.trace) + WakeSteps(id, wakes)
      ensures !renewing ==> lost && exists k :: 0 < k <= |wakes| && server.trace == old(server.trace) + WakeSteps(id, wakes[..k])
      ensures old(FullLease(Run(server.trace), id)) ==>
                && (renewing <==> forall i :: 0 <= i < |wakes| ==> InTime(wakes[i], ttl))
                && (renewing ==> FullLease(Run(server.trace), id) && OwnedAfter(server.trace, id))
    {
      hide Run, Next, OneWake, OwnedAfter, Is, FullLease, Stored, Inv;
      for k := 0 to |wakes|
        invariant server.Valid() && Is(server, phase)
        invariant server.trace == old(server.trace) + WakeSteps(id, wakes[..k])
        invariant renewing && lost == old(lost)
        invariant old(FullLease(Run(server.trace), id)) ==>
            && (forall i :: 0 <= i < k ==> InTime(wakes[i], ttl))
            && FullLease(Run(server.trace), id)
      {
        LeaseBounds(server, wakes[k].slept, phase);
        assert wakes[..k + 1][..k] == wakes[..k];
        Assoc(old(server.trace), WakeSteps(id, wakes[..k]), OneWake(id, wakes[k]));
        Renew(server, wakes[k], phase);
        if !renewing {
          return;
        }
      }
      assert wakes[..|wakes|] == wakes;
      if FullLease(Run(server.trace), id) { LeaseIsOwned(server.trace, id); }
    }

    /** The task is told to stop and awaited; `rest` is what it still does. */
    method StopRenewal(server: RedisServer, rest: seq<Wake>)
      requires server.Valid() && Is(server, Held)
      modifies server, this
      ensures server.Valid() && old(server.trace) <= server.trace && Is(server, Releasing) && !renewing
    {
      hide Run, Stored, Renewed, Acquired, ReleaseDone;
      server.Record(Shutdown(id));
      if renewing {
        RenewLoop(server, rest, Releasing);
        if renewing {
          renewing := false;
          server.Record(StopTask(id));
        }
      }
    }

    /** `release_inner`: renewal stops, and the compare-and-delete runs unless the lease is known to be lost. */
    method ReleaseInner(server: RedisServer, rest: seq<Wake>, delivery: Delivery) returns (r: RunResult<(), LeaseError>)
      requires server.Valid() && Is(server, Held)
      modifies server, this
      ensures server.Valid() && old(server.trace) < server.trace
      ensures server.trace[|server.trace| - 1] == Release(id, delivery)
      ensures id in Run(server.trace).guards && r == ReleaseResult(Run(server.trace), id)
      ensures r.RunOk? ==> forall k: nat :: |old(server.trace)| <= k < |server.trace| ==> OwnedAfter(server.trace[..k], id)
      ensures r.RunOk? ==> !Stored(server.store, server.now, key, token)
    {
      hide Run, OwnedAfter, Stored, Deleted, Renewed, Acquired;
      StopRenewal(server, rest);
      ghost var before := server.trace;
      server.Record(Release(id, delivery));
      hide Next;
      if lost {
        return RunErr(LeaseLost);
      }
      if delivery.NotRun? {
        return RunErr(LeaseUnavailable);
      }
      var removed := Stored(server.store, server.now, key, token);
      DeletedIsGone(server.store, server.now, key, token);
      server.store := Deleted(server.store, server.now, key, token);
      if delivery.ReplyLost? {
        return RunErr(LeaseUnavailable);
      }
      if !removed {
        return RunErr(NotOwned);
      }
      assert server.trace[..|server.trace| - 1] == before;
      assert server.trace[..|old(server.trace)|] == old(server.trace);
      OwnedThroughout(server.trace, id, |old(server.trace)|);
      return RunOk(());
    }
  }

  class RedisLockClient {
    const prefix: Option<string>
    const ttl: int

    constructor (prefix: Option<string>, ttl: int)
      ensures this.prefix == prefix && this.ttl == ttl
    {
      this.prefix, this.ttl := prefix, ttl;
    }

    /**
     `acquire_guard`: a guard is made only when the server took the token and said so in time. When
     the answer is lost, the token stays under the key until it expires, and nobody owns it.
     */
    method AcquireGuard(server: RedisServer, id: int, key: string, token: string, delivery: Delivery)
      returns (guard: RedisLockGuard?)
      requires server.Valid() && id !in Run(server.trace).guards && token !in Run(server.trace).used
      modifies server
      ensures server.Valid()
      ensures server.trace == old(server.trace) + [Acquire(id, PrefixedKey(prefix, key), token, ttl, delivery)]
      ensures guard != null <==> ttl > 0 && delivery.Delivered? && !Occupied(old(server.store), old(server.now), PrefixedKey(prefix, key))
      ensures guard != null ==> fresh(guard) && guard.Is(server, Held) && OwnedAfter(server.trace, id) && FullLease(Run(server.trace), id)
      ensures guard == null && !delivery.ReplyLost? ==> server.store == old(server.store)
    {
      hide Run;
      var fullKey := PrefixedKey(prefix, key);
      hide PrefixedKey;
      server.Record(Acquire(id, fullKey, token, ttl, delivery));
      if ttl <= 0 || delivery.NotRun? {
        return null;
      }
      var acquired := !Occupied(server.store, server.now, fullKey);
      server.store := SetNx(server.store, server.now, fullKey, token, ttl);
      if !acquired || delivery.ReplyLost? {
        return null;
      }
      guard := new RedisLockGuard(id, fullKey, token, ttl);
    }
  }
}
