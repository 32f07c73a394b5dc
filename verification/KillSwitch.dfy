/** The kill switch: a latch that only a confirmed deactivation after a minimum time releases. */
module KillSwitch {
  import opened Core

  /** An attempt to activate; the first one to find the switch inactive activates it. */
  datatype Trigger = Trigger(source: string, at: int, activated: bool)

  datatype Deactivation = Accepted | Refused | BadToken

  /** Clock ticks are microseconds; five minutes is the default minimum. */
  const DEFAULT_MINIMUM := 300_000_000

  /** What happened to the switch, in order. Rejected deactivations leave no entry. */
  datatype Event = Triggered(trigger: Trigger) | Released(at: int)

  datatype Switch = Switch(active: bool, since: Option<int>, events: seq<Event>)

  const OFF := Switch(false, None, [])

  predicate Blank(token: string) { forall c :: c in token ==> c in " \t\n\r\U{000b}\U{000c}" }

  function WithTrigger(s: Switch, source: string, now: int): Switch {
    var events := s.events + [Triggered(Trigger(source, now, !s.active))];
    if s.active then s.(events := events) else Switch(true, Some(now), events)
  }

  predicate CanDeactivate(s: Switch, minimum: int, now: int) {
    s.active && s.since.Some? && now - s.since.value >= minimum
  }

  function WithDeactivation(s: Switch, minimum: int, token: string, now: int): (Switch, Deactivation) {
    if Blank(token) then (s, BadToken)
    else if !CanDeactivate(s, minimum, now) then (s, Refused)
    else (Switch(false, s.since, s.events + [Released(now)]), Accepted)
  }

  // ----- The event log -----

  predicate IsActivation(e: Event) { e.Triggered? && e.trigger.activated }

  function TimeOf(e: Event): int { if e.Triggered? then e.trigger.at else e.at }

  /** Activated after the last release; ignored triggers change nothing. */
  predicate ActiveAfter(events: seq<Event>) {
    if |events| == 0 then false
    else IsActivation(events[|events| - 1]) || (events[|events| - 1].Triggered? && ActiveAfter(events[..|events| - 1]))
  }

  function LastActivation(events: seq<Event>): Option<int> {
    if |events| == 0 then None
    else if IsActivation(events[|events| - 1]) then Some(TimeOf(events[|events| - 1]))
    else LastActivation(events[..|events| - 1])
  }

  /** Only an inactive switch is activated, every other trigger is ignored, and only an active switch is released, no
      sooner than the minimum after its activation. */
  predicate Lawful(events: seq<Event>, minimum: int) {
    |events| > 0 ==>
      var init, last := events[..|events| - 1], events[|events| - 1];
      && Lawful(init, minimum)
      && match last
         case Triggered(trigger) => trigger.activated <==> !ActiveAfter(init)
         case Released(at) => ActiveAfter(init) && LastActivation(init).Some? && at - LastActivation(init).value >= minimum
  }

  predicate InOrder(events: seq<Event>) {
    forall i, j :: 0 <= i <= j < |events| ==> TimeOf(events[i]) <= TimeOf(events[j])
  }

  predicate UpTo(events: seq<Event>, clock: int) { forall i :: 0 <= i < |events| ==> TimeOf(events[i]) <= clock }

  /** The switch follows its log. */
  predicate Latched(s: Switch, minimum: int) {
    Lawful(s.events, minimum) && s.active == ActiveAfter(s.events) && s.since == LastActivation(s.events)
  }

  lemma ActivateLatches(s: Switch, minimum: int, source: string, now: int)
    requires Latched(s, minimum)
    ensures Latched(WithTrigger(s, source, now), minimum)
  {
    var events := WithTrigger(s, source, now).events;
    assert events[..|events| - 1] == s.events;
  }

  lemma DeactivateLatches(s: Switch, minimum: int, token: string, now: int)
    requires Latched(s, minimum)
    ensures Latched(WithDeactivation(s, minimum, token, now).0, minimum)
  {
    var events := s.events + [Released(now)];
    assert events[..|events| - 1] == s.events;
  }

  lemma {:induction false} LastActivationIsLast(events: seq<Event>, i: int)
    requires InOrder(events) && 0 <= i < |events| && IsActivation(events[i])
    ensures LastActivation(events).Some? && LastActivation(events).value >= TimeOf(events[i])
  {
    if !IsActivation(events[|events| - 1]) {
      assert events[..|events| - 1][i] == events[i];
      LastActivationIsLast(events[..|events| - 1], i);
    }
  }

  lemma {:induction false} LawfulPrefix(events: seq<Event>, minimum: int, n: nat)
    requires Lawful(events, minimum) && n <= |events|
    ensures Lawful(events[..n], minimum)
  {
    if n < |events| {
      LawfulPrefix(events[..|events| - 1], minimum, n);
      assert events[..|events| - 1][..n] == events[..n];
    } else {
      assert events[..n] == events;
    }
  }

  /** Any two activations in the log have an accepted deactivation between them, at least the minimum after the first. */
  lemma ActivationsAreSeparated(events: seq<Event>, minimum: int, i: int, j: int) returns (k: int)
    requires Lawful(events, minimum) && InOrder(events) && 0 <= i < j < |events|
    requires IsActivation(events[i]) && IsActivation(events[j])
    ensures i < k < j && events[k].Released? && TimeOf(events[i]) + minimum <= TimeOf(events[k]) <= TimeOf(events[j])
  {
    LawfulPrefix(events, minimum, j + 1);
    LawfulPrefix(events, minimum, j);
    var before := events[..j];
    assert events[..j + 1][..j] == before && !ActiveAfter(before);
    k := j - 1;
    assert before[k] == events[k] && before[..k] == events[..k];
    if k != i {
      assert events[..k][i] == events[i];
      LastActivationIsLast(before[..k], i);
    }
  }

  // ----- The switch -----

  class KillSwitch {
    const minimum: int
    var active: bool
    var activationTime: Option<int>
    var triggers: seq<Trigger>
    ghost var events: seq<Event>

    ghost function State(): Switch
      reads this
    {
      Switch(active, activationTime, events)
    }

    /** The audit trail holds the triggers of the log. */
    ghost predicate Valid()
      reads this
    {
      Latched(State(), minimum) && triggers == TriggersOf(events)
    }

    constructor (minimum: int)
      ensures Valid() && this.minimum == minimum && State() == OFF
    {
      this.minimum := minimum;
      active, activationTime, triggers, events := false, None, [], [];
    }

    /** The body that runs under the activation lock, up to publishing. */
    method Activate(source: string, now: int) returns (activated: bool)
      requires Valid()
      modifies this
      ensures Valid() && State() == WithTrigger(old(State()), source, now)
      ensures activated == !old(active)
      ensures triggers == old(triggers) + [Trigger(source, now, activated)]
    {
      ActivateLatches(State(), minimum, source, now);
      events := events + [Triggered(Trigger(source, now, !active))];
      assert events[..|events| - 1] == old(events);
      if active {
        triggers := triggers + [Trigger(source, now, false)];
        return false;
      }
      triggers := triggers + [Trigger(source, now, true)];
      active, activationTime := true, Some(now);
      return true;
    }

    method Deactivate(token: string, now: int) returns (outcome: Deactivation)
      requires Valid()
      modifies this
      ensures Valid() && triggers == old(triggers)
      ensures (State(), outcome) == WithDeactivation(old(State()), minimum, token, now)
    {
      DeactivateLatches(State(), minimum, token, now);
      if Blank(token) {
        return BadToken;
      }
      if !active {
        return Refused;
      }
      if activationTime.None? || now - activationTime.value < minimum {
        return Refused;
      }
      active := false;
      events := events + [Released(now)];
      assert events[..|events| - 1] == old(events);
      return Accepted;
    }

    method IsSignalAllowed() returns (allowed: bool)
      requires Valid()
      ensures allowed == !ActiveAfter(events)
    {
      allowed := !active;
    }
  }

  function TriggersOf(events: seq<Event>): seq<Trigger> {
    if |events| == 0 then []
    else TriggersOf(events[..|events| - 1])
         + if events[|events| - 1].Triggered? then [events[|events| - 1].trigger] else []
  }
}
