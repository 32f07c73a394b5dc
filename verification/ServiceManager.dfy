/** Service restarts: error handlers that interleave at their awaits, under a restart limit per five minutes. */
module ServiceManager {
  import opened Core
  import opened SlidingWindow

  datatype Status = Stopped | Starting | Running | Restarting | Failed

  /** A registration; `id` tells it from other registrations of the same name. `restarts` is never pruned. */
  datatype Service = Service(id: nat, startable: bool, status: Status, restarts: seq<int>)

  /** Maximum attempts in a closed window of this many seconds. */
  datatype Policy = Policy(attempts: int, window: nat)

  /** `asleep` holds the handlers that wait out the restart delay. */
  datatype Manager = Manager(services: map<string, Service>, active: bool, registrations: nat, asleep: multiset<string>)

  /** The pieces of the operations between two awaits. A start's or stop's end may come at any later time. */
  datatype Step =
    | Register(name: string, startable: bool)
    | Unregister(name: string)
    | StartAll
    | StopAll
    | HandleError(name: string, now: int)
    | Wake(name: string)
    | BeginStart(name: string)
    | FinishStart(name: string, id: nat, ok: bool)
    | FinishStop(name: string, id: nat)

  predicate Granted(p: Policy, restarts: seq<int>, now: int) {
    |Since(restarts, Tick, now - p.window)| < p.attempts
  }

  /** An error that is granted a restart, whose handler then sleeps. */
  predicate FallsAsleep(p: Policy, m: Manager, s: Step, name: string) {
    s.HandleError? && s.name == name && name in m.services && Granted(p, m.services[name].restarts, s.now)
  }

  function WithStatus(m: Manager, name: string, status: Status): Manager
    requires name in m.services
  {
    m.(services := m.services[name := m.services[name].(status := status)])
  }

  function Started(m: Manager, name: string): Manager {
    if name in m.services && m.services[name].startable then WithStatus(m, name, Starting) else m
  }

  function Apply(p: Policy, m: Manager, s: Step): Manager {
    match s
    case Register(name, startable) =>
      m.(services := m.services[name := Service(m.registrations, startable, Stopped, [])], registrations := m.registrations + 1)
    case Unregister(name) => m.(services := m.services - {name})
    case StartAll => m.(active := true)
    case StopAll => m.(active := false)
    case HandleError(name, now) =>
      if name !in m.services then m
      else if !Granted(p, m.services[name].restarts, now) then WithStatus(m, name, Failed)
      else
        var s := m.services[name];
        m.(services := m.services[name := s.(status := Restarting, restarts := s.restarts + [now])],
           asleep := m.asleep + multiset{name})
    case Wake(name) =>
      if name !in m.asleep then m
      else
        var woken := m.(asleep := m.asleep - multiset{name});
        if m.active then Started(woken, name) else woken
    case BeginStart(name) => Started(m, name)
    case FinishStart(name, id, ok) =>
      if name in m.services && m.services[name].id == id then WithStatus(m, name, if ok then Running else Failed) else m
    case FinishStop(name, id) =>
      if name in m.services && m.services[name].id == id then WithStatus(m, name, Stopped) else m
  }

  function Run(p: Policy, m: Manager, steps: seq<Step>): Manager {
    if |steps| == 0 then m else Apply(p, Run(p, m, steps[..|steps| - 1]), steps[|steps| - 1])
  }

  const EMPTY := Manager(map[], false, 0, multiset{})

  // ----- Restarts stay bounded -----

  /** Errors are handled in clock order, none after `clock`. */
  predicate Timed(steps: seq<Step>, clock: int) {
    && (forall i :: 0 <= i < |steps| && steps[i].HandleError? ==> steps[i].now <= clock)
    && forall i, j :: 0 <= i <= j < |steps| && steps[i].HandleError? && steps[j].HandleError? ==> steps[i].now <= steps[j].now
  }

  ghost predicate RestartsBounded(p: Policy, m: Manager) {
    forall name :: name in m.services ==> Bounded(m.services[name].restarts, Tick, p.window, MaxInt(0, p.attempts))
  }

  ghost predicate RestartsUpTo(m: Manager, clock: int) {
    forall name :: name in m.services ==> NotAfter(m.services[name].restarts, Tick, clock)
  }

  /** A restart is granted exactly when granting it keeps every window within the limit. */
  lemma GrantedIsExact(p: Policy, restarts: seq<int>, now: int)
    requires Bounded(restarts, Tick, p.window, MaxInt(0, p.attempts)) && NotAfter(restarts, Tick, now)
    ensures Granted(p, restarts, now) <==> Bounded(restarts + [now], Tick, p.window, MaxInt(0, p.attempts))
  {
    if Granted(p, restarts, now) {
      AdmitKeepsBounded(restarts, now, Tick, now, p.window, MaxInt(0, p.attempts));
    } else {
      SinceCounts(restarts, Tick, now - p.window, now);
      CountInAppend(restarts, now, Tick, now - p.window, now);
      assert Window(restarts + [now], Tick, now - p.window, p.window) > MaxInt(0, p.attempts);
    }
  }

  /** A service's history after a step: as before, empty on registration, or with the granted restart. */
  lemma StepExtendsHistory(p: Policy, m: Manager, s: Step, name: string)
    requires name in Apply(p, m, s).services
    ensures var restarts := Apply(p, m, s).services[name].restarts;
            || restarts == []
            || (name in m.services
                && (restarts == m.services[name].restarts
                    || (FallsAsleep(p, m, s, name) && restarts == m.services[name].restarts + [s.now])))
  {
  }

  lemma StepKeepsRestartsBounded(p: Policy, m: Manager, s: Step, clock: int)
    requires RestartsBounded(p, m) && RestartsUpTo(m, clock) && (s.HandleError? ==> clock <= s.now)
    ensures RestartsBounded(p, Apply(p, m, s))
    ensures RestartsUpTo(Apply(p, m, s), if s.HandleError? then s.now else clock)
  {
    var next := Apply(p, m, s);
    forall name | name in next.services
      ensures Bounded(next.services[name].restarts, Tick, p.window, MaxInt(0, p.attempts))
      ensures NotAfter(next.services[name].restarts, Tick, if s.HandleError? then s.now else clock)
    {
      StepExtendsHistory(p, m, s, name);
      if FallsAsleep(p, m, s, name) {
        GrantedIsExact(p, m.services[name].restarts, s.now);
      }
    }
  }

  function LastError(steps: seq<Step>, earliest: int): int {
    if |steps| == 0 then earliest
    else if steps[|steps| - 1].HandleError? then steps[|steps| - 1].now
    else LastError(steps[..|steps| - 1], earliest)
  }

  lemma {:induction false} LastErrorIsLast(steps: seq<Step>, earliest: int, clock: int)
    requires Timed(steps, clock) && earliest <= clock
    ensures LastError(steps, earliest) <= clock
  {
    if |steps| > 0 {
      LastErrorIsLast(steps[..|steps| - 1], earliest, clock);
    }
  }

  /** Under every interleaving no service records more restarts than the limit within any closed window. */
  lemma {:induction false} RestartsStayBounded(p: Policy, steps: seq<Step>, earliest: int, clock: int)
    requires Timed(steps, clock) && forall i :: 0 <= i < |steps| && steps[i].HandleError? ==> earliest <= steps[i].now
    ensures RestartsBounded(p, Run(p, EMPTY, steps))
    ensures RestartsUpTo(Run(p, EMPTY, steps), LastError(steps, earliest))
  {
    if |steps| > 0 {
      var init, s := steps[..|steps| - 1], steps[|steps| - 1];
      RestartsStayBounded(p, init, earliest, clock);
      if s.HandleError? {
        LastErrorIsLast(init, earliest, s.now);
      }
      StepKeepsRestartsBounded(p, Run(p, EMPTY, init), s, LastError(init, earliest));
    }
  }

  // ----- Shutting down -----

  predicate StartsNothing(s: Step) { !s.StartAll? && !s.BeginStart? }

  /** After a shutdown sleeping handlers start nothing: only a start already under way may still end. */
  lemma {:induction false} HandlersRespectShutdown(p: Policy, m: Manager, steps: seq<Step>, name: string)
    requires !m.active && forall i :: 0 <= i < |steps| ==> StartsNothing(steps[i])
    requires var end := Run(p, m, steps); name in end.services && end.services[name].status.Starting?
    ensures name in m.services && m.services[name].status.Starting?
    ensures !Run(p, m, steps).active
  {
    StaysInactive(p, m, steps);
    if |steps| > 0 {
      StaysInactive(p, m, steps[..|steps| - 1]);
      HandlersRespectShutdown(p, m, steps[..|steps| - 1], name);
    }
  }

  lemma {:induction false} StaysInactive(p: Policy, m: Manager, steps: seq<Step>)
    requires !m.active && forall i :: 0 <= i < |steps| ==> StartsNothing(steps[i])
    ensures !Run(p, m, steps).active
  {
    if |steps| > 0 {
      StaysInactive(p, m, steps[..|steps| - 1]);
    }
  }

  // ----- FAILED is not final -----

  predicate IsStarting(m: Manager, name: string) { name in m.services && m.services[name].status.Starting? }

  /** The service is starting at some moment of the run. */
  predicate EverStarting(p: Policy, m: Manager, steps: seq<Step>, name: string) {
    if |steps| == 0 then IsStarting(m, name)
    else EverStarting(p, m, steps[..|steps| - 1], name) || IsStarting(Run(p, m, steps), name)
  }

  /** A handler of the service slept when the run began, or fell asleep in it. */
  predicate EverAsleep(p: Policy, m: Manager, steps: seq<Step>, name: string) {
    if |steps| == 0 then name in m.asleep
    else
      var init := steps[..|steps| - 1];
      EverAsleep(p, m, init, name) || FallsAsleep(p, Run(p, m, init), steps[|steps| - 1], name)
  }

  /** Some step begins a start, or wakes a handler that had gone to sleep before. */
  predicate EverRevived(p: Policy, m: Manager, steps: seq<Step>, name: string) {
    if |steps| == 0 then false
    else
      var init, s := steps[..|steps| - 1], steps[|steps| - 1];
      EverRevived(p, m, init, name) || s == BeginStart(name) || (s == Wake(name) && EverAsleep(p, m, init, name))
  }

  /** Steps that neither shut down nor replace or remove the registration. */
  predicate Leaves(s: Step, name: string) {
    !s.StopAll? && s != Unregister(name) && s != Register(name, true) && s != Register(name, false)
  }

  predicate Restartable(m: Manager, name: string) { m.active && name in m.services && m.services[name].startable }

  /** A FAILED service starts again over a run exactly when a start is begun or a handler that had gone to sleep wakes:
      handlers do not look at the status they find. */
  lemma {:induction false} FailedStartsAgain(p: Policy, m: Manager, steps: seq<Step>, name: string)
    requires Restartable(m, name) && m.services[name].status.Failed?
    requires forall i :: 0 <= i < |steps| ==> Leaves(steps[i], name)
    ensures EverStarting(p, m, steps, name) <==> EverRevived(p, m, steps, name)
    ensures Restartable(Run(p, m, steps), name)
    ensures !EverStarting(p, m, steps, name) ==> (name in Run(p, m, steps).asleep <==> EverAsleep(p, m, steps, name))
  {
    if |steps| > 0 {
      var init := steps[..|steps| - 1];
      FailedStartsAgain(p, m, init, name);
      ReviveStep(p, Run(p, m, init), steps[|steps| - 1], name);
    }
  }

  lemma ReviveStep(p: Policy, m: Manager, s: Step, name: string)
    requires Restartable(m, name) && Leaves(s, name)
    ensures Restartable(Apply(p, m, s), name)
    ensures !IsStarting(m, name) ==>
              (IsStarting(Apply(p, m, s), name) <==> s == BeginStart(name) || (s == Wake(name) && name in m.asleep))
    ensures !IsStarting(m, name) && !IsStarting(Apply(p, m, s), name) ==>
              (name in Apply(p, m, s).asleep <==> name in m.asleep || FallsAsleep(p, m, s, name))
  {
  }

  lemma RunStep(p: Policy, m: Manager, steps: seq<Step>, s: Step)
    ensures Run(p, m, steps + [s]) == Apply(p, Run(p, m, steps), s)
  {
    assert (steps + [s])[..|steps|] == steps;
  }

  /** A new service's errors, all at one moment. */
  function Errors(name: string, now: int, n: nat): seq<Step> {
    if n == 0 then [Register(name, true), StartAll] else Errors(name, now, n - 1) + [HandleError(name, now)]
  }

  function Copies(now: int, n: nat): (restarts: seq<int>)
    ensures |restarts| == n
  {
    if n == 0 then [] else Copies(now, n - 1) + [now]
  }

  /** An active manager whose one registration of a name has this status and history, every restart with its handler asleep. */
  predicate Erred(m: Manager, name: string, status: Status, restarts: seq<int>) {
    m.active && name in m.services && m.services[name] == Service(0, true, status, restarts) && m.asleep[name] == |restarts|
  }

  /** What handling an error does where the restart is granted. */
  lemma GrantStep(p: Policy, m: Manager, name: string, now: int)
    requires name in m.services && Granted(p, m.services[name].restarts, now)
    ensures var (next, s) := (Apply(p, m, HandleError(name, now)), m.services[name]);
            && next.services == m.services[name := s.(status := Restarting, restarts := s.restarts + [now])]
            && next.asleep == m.asleep + multiset{name} && next.active == m.active
  {
  }

  lemma ErrorGranted(p: Policy, m: Manager, name: string, status: Status, restarts: seq<int>, now: int) returns (next: Manager)
    requires Erred(m, name, status, restarts) && Granted(p, restarts, now)
    ensures next == Apply(p, m, HandleError(name, now)) && Erred(next, name, Restarting, restarts + [now])
  {
    GrantStep(p, m, name, now);
    next := Apply(p, m, HandleError(name, now));
  }

  lemma ErrorRefused(p: Policy, m: Manager, name: string, status: Status, restarts: seq<int>, now: int) returns (next: Manager)
    requires Erred(m, name, status, restarts) && !Granted(p, restarts, now)
    ensures next == Apply(p, m, HandleError(name, now)) && Erred(next, name, Failed, restarts)
  {
    next := Apply(p, m, HandleError(name, now));
  }

  lemma {:induction false} CopiesAreRecent(now: int, n: nat, from: int)
    requires from <= now
    ensures Since(Copies(now, n), Tick, from) == Copies(now, n)
  {
    if n > 0 {
      CopiesAreRecent(now, n - 1, from);
      SinceAppend(Copies(now, n - 1), now, Tick, from);
    }
  }

  lemma CopiesAreGranted(p: Policy, now: int, n: nat)
    ensures Granted(p, Copies(now, n), now) <==> n < p.attempts
  {
    CopiesAreRecent(now, n, now - p.window);
  }

  lemma NewService(p: Policy, name: string, now: int) returns (m: Manager)
    ensures m == Run(p, EMPTY, Errors(name, now, 0)) && Erred(m, name, Stopped, Copies(now, 0))
  {
    RunStep(p, EMPTY, [], Register(name, true));
    RunStep(p, EMPTY, [Register(name, true)], StartAll);
    m := Run(p, EMPTY, Errors(name, now, 0));
  }

  /** Every error is granted its restart until the attempts are spent. */
  lemma {:induction false} ErrorsAreGranted(p: Policy, name: string, now: int, n: nat) returns (m: Manager)
    requires n <= p.attempts
    ensures m == Run(p, EMPTY, Errors(name, now, n))
    ensures Erred(m, name, if n == 0 then Stopped else Restarting, Copies(now, n))
  {
    if n == 0 {
      m := NewService(p, name, now);
    } else {
      var before := ErrorsAreGranted(p, name, now, n - 1);
      CopiesAreGranted(p, now, n - 1);
      RunStep(p, EMPTY, Errors(name, now, n - 1), HandleError(name, now));
      m := ErrorGranted(p, before, name, if n == 1 then Stopped else Restarting, Copies(now, n - 1), now);
    }
  }

  lemma WokenRuns(p: Policy, m: Manager, name: string, id: nat)
    requires Restartable(m, name) && name in m.asleep && m.services[name].id == id
    ensures var revived := Run(p, m, [Wake(name), FinishStart(name, id, true)]);
            name in revived.services && revived.services[name].status.Running?
  {
    RunStep(p, m, [], Wake(name));
    RunStep(p, m, [Wake(name)], FinishStart(name, id, true));
  }

  /** For one, an error more than there are attempts fails a new service, and the handler of an earlier error runs it again. */
  lemma FailedIsNotFinal(p: Policy, name: string, now: int)
    requires p.attempts > 0
    ensures var failed := Run(p, EMPTY, Errors(name, now, p.attempts + 1));
            && name in failed.services && failed.services[name].status.Failed?
            && var revived := Run(p, failed, [Wake(name), FinishStart(name, 0, true)]);
            && name in revived.services && revived.services[name].status.Running?
  {
    var spent := ErrorsAreGranted(p, name, now, p.attempts);
    CopiesAreGranted(p, now, p.attempts);
    var failed := ErrorRefused(p, spent, name, Restarting, Copies(now, p.attempts), now);
    RunStep(p, EMPTY, Errors(name, now, p.attempts), HandleError(name, now));
    WokenRuns(p, failed, name, 0);
  }

  // ----- The manager -----

  class Services {
    const policy: Policy
    var services: map<string, Service>
    var active: bool
    var registrations: nat
    ghost var asleep: multiset<string>

    ghost function State(): Manager
      reads this
    {
      Manager(services, active, registrations, asleep)
    }

    constructor (policy: Policy)
      ensures this.policy == policy && State() == EMPTY
    {
      this.policy := policy;
      services, active, registrations, asleep := map[], false, 0, multiset{};
    }

    method Register(name: string, startable: bool)
      modifies this
      ensures State() == Apply(policy, old(State()), Step.Register(name, startable))
    {
      services := services[name := Service(registrations, startable, Stopped, [])];
      registrations := registrations + 1;
    }

    method Unregister(name: string)
      modifies this
      ensures State() == Apply(policy, old(State()), Step.Unregister(name))
    {
      if name in services {
        services := services - {name};
      }
      assert services == old(services) - {name};
    }

    method SetActive(value: bool)
      modifies this
      ensures State() == Apply(policy, old(State()), if value then StartAll else StopAll)
    {
      active := value;
    }

    method SetStatus(name: string, status: Status)
      requires name in services
      modifies this
      ensures State() == WithStatus(old(State()), name, status)
    {
      services := services[name := services[name].(status := status)];
    }

    /** The handler up to its first await: count recent restarts, then fail the service or record one and go to sleep. */
    method HandleServiceError(name: string, now: int) returns (sleeps: bool)
      modifies this
      ensures State() == Apply(policy, old(State()), HandleError(name, now))
      ensures sleeps <==> asleep != old(asleep)
    {
      if name !in services {
        return false;
      }
      var service := services[name];
      var cutoff := now - policy.window;
      var recent := Since(service.restarts, Tick, cutoff);
      if |recent| >= policy.attempts {
        SetStatus(name, Failed);
        return false;
      }
      services := services[name := service.(status := Restarting, restarts := service.restarts + [now])];
      asleep := asleep + multiset{name};
      assert asleep[name] != old(asleep[name]);
      return true;
    }

    /** The handler after its sleep, up to the start function. */
    method WakeHandler(name: string) returns (starting: bool)
      requires name in asleep
      modifies this
      ensures State() == Apply(policy, old(State()), Wake(name))
      ensures starting == (active && name in services && services[name].startable)
    {
      asleep := asleep - multiset{name};
      if !active {
        return false;
      }
      starting := BeginStartService(name);
    }

    method BeginStartService(name: string) returns (starting: bool)
      modifies this
      ensures State() == Apply(policy, old(State()), BeginStart(name))
      ensures starting == (name in services && services[name].startable)
    {
      if name !in services {
        return false;
      }
      if !services[name].startable {
        return false;
      }
      SetStatus(name, Starting);
      return true;
    }

    /** The end of a start, on the registration it began with. */
    method FinishStartService(name: string, id: nat, ok: bool)
      modifies this
      ensures State() == Apply(policy, old(State()), FinishStart(name, id, ok))
    {
      if name in services && services[name].id == id {
        SetStatus(name, if ok then Running else Failed);
      }
    }

    method FinishStopService(name: string, id: nat)
      modifies this
      ensures State() == Apply(policy, old(State()), FinishStop(name, id))
    {
      if name in services && services[name].id == id {
        SetStatus(name, Stopped);
      }
    }
  }
}
