/** What the events of a run say about a subscriber's technology-profile instances and its outcome. */
module Instances {
  import opened Words
  import opened Results
  import opened Protocol

  /** One attempt to create an instance for a subscriber. */
  ghost function Attempt(x: nat, u: nat, ok: bool): Event -> nat {
    (e: Event) => if e == CreateTp(x, u, ok) then 1 else 0
  }

  ghost function Created(events: seq<Event>, x: nat, u: nat): nat { Sum(events, Attempt(x, u, true)) }
  ghost function Refused(events: seq<Event>, x: nat, u: nat): nat { Sum(events, Attempt(x, u, false)) }

  /** How many instances a subscriber has been given and refused, by the stage it is in. */
  ghost predicate Accounts(c: Config, s: State, x: nat, u: nat, created: nat, refused: nat) {
    if !HasSub(s, x, u) then created == refused == 0
    else match s.onus[x].subs[u].phase
      case CreatingTp(d) => created == d <= c.tps && refused == 0
      case TpFailed => created < c.tps && refused == 1
      case Deploying => created == c.tps && refused == 0
      case Finished(_) => created == c.tps && refused == 0
  }

  lemma StepAccountsInstances(c: Config, s: State, e: Event, x: nat, u: nat, created: nat, refused: nat)
    requires ValidConfig(c) && Enabled(c, s, e) && Accounts(c, s, x, u, created, refused)
    ensures Accounts(c, Apply(c, s, e), x, u, created + Attempt(x, u, true)(e), refused + Attempt(x, u, false)(e))
  {
    var s' := Apply(c, s, e);
    if e.LaunchOnu? && HasSub(s', x, u) {
      assert s'.onus[x] == s.onus[x];
    } else if HasSub(s', x, u) && !(e.CreateTp? || e.HandOff? || e.Deployed?) {
      assert HasSub(s, x, u) ==> s'.onus[x].subs[u] == s.onus[x].subs[u];
    }
  }

  lemma {:induction false} RunAccounts(c: Config, states: seq<State>, events: seq<Event>, i: nat, x: nat, u: nat)
    requires ValidConfig(c) && IsRun(c, states, events) && i < |states|
    ensures Accounts(c, states[i], x, u, Created(events[..i], x, u), Refused(events[..i], x, u))
  {
    if i == 0 {
    } else {
      var before, e := events[..i - 1], events[i - 1];
      RunAccounts(c, states, events, i - 1, x, u);
      StepAccountsInstances(c, states[i - 1], e, x, u, Created(before, x, u), Refused(before, x, u));
      SumAppend(before, e, Attempt(x, u, true));
      SumAppend(before, e, Attempt(x, u, false));
      assert events[..i] == before + [e];
    }
  }

  /**
    * Over every run, by its events alone: a subscriber that is being deployed, or has been, was given
    * an instance for each profile id and refused none; one that failed was refused one, before it
    * had them all; and one still creating them has been refused none.
    */
  lemma InstancesFirst(c: Config, states: seq<State>, events: seq<Event>, i: nat, x: nat, u: nat)
    requires ValidConfig(c) && IsRun(c, states, events) && i < |states| && HasSub(states[i], x, u)
    ensures var phase, created, refused :=
              states[i].onus[x].subs[u].phase, Created(events[..i], x, u), Refused(events[..i], x, u);
            && (phase.Deploying? || phase.Finished? ==> created == c.tps && refused == 0)
            && (phase.TpFailed? ==> created < c.tps && refused == 1)
            && (phase.CreatingTp? ==> created <= c.tps && refused == 0)
  {
    RunAccounts(c, states, events, i, x, u);
  }

  ghost predicate LastAttempt(events: seq<Event>, j: nat, x: nat, u: nat) {
    j < |events| && forall k | j < k < |events| :: !(events[k].CreateTp? && events[k].x == x && events[k].u == u)
  }

  /** The refusal ends the attempts. */
  lemma {:induction false} RefusalIsLast(c: Config, states: seq<State>, events: seq<Event>, i: nat, x: nat, u: nat)
    returns (j: nat)
    requires ValidConfig(c) && IsRun(c, states, events) && i < |states| && HasSub(states[i], x, u)
    requires states[i].onus[x].subs[u].phase.TpFailed?
    ensures j < i && events[j] == CreateTp(x, u, false) && LastAttempt(events[..i], j, x, u)
  {
    var e := events[i - 1];
    if e == CreateTp(x, u, false) {
      j := i - 1;
    } else {
      FailedBefore(c, states[i - 1], e, x, u);
      j := RefusalIsLast(c, states, events, i - 1, x, u);
      assert forall k | 0 <= k < i - 1 :: events[..i][k] == events[..i - 1][k];
    }
  }

  lemma FailedBefore(c: Config, s: State, e: Event, x: nat, u: nat)
    requires ValidConfig(c) && Enabled(c, s, e) && e != CreateTp(x, u, false)
    requires HasSub(Apply(c, s, e), x, u) && Apply(c, s, e).onus[x].subs[u].phase.TpFailed?
    ensures HasSub(s, x, u) && s.onus[x].subs[u].phase.TpFailed?
    ensures !(e.CreateTp? && e.x == x && e.u == u)
  {}

  /** A final reason is the one its deployment ended with. */
  lemma {:induction false} ReasonReported(c: Config, states: seq<State>, events: seq<Event>, i: nat, x: nat, u: nat)
    requires ValidConfig(c) && IsRun(c, states, events) && i < |states| && HasSub(states[i], x, u)
    requires states[i].onus[x].subs[u].phase.Finished?
    ensures Deployed(x, u, states[i].onus[x].subs[u].phase.reason) in events[..i]
  {
    var s, e := states[i - 1], events[i - 1];
    assert events[..i] == events[..i - 1] + [e];
    if e == Deployed(x, u, states[i].onus[x].subs[u].phase.reason) {
    } else {
      FinishedBefore(c, s, e, x, u);
      ReasonReported(c, states, events, i - 1, x, u);
    }
  }

  lemma FinishedBefore(c: Config, s: State, e: Event, x: nat, u: nat)
    requires ValidConfig(c) && Enabled(c, s, e)
    requires HasSub(Apply(c, s, e), x, u) && Apply(c, s, e).onus[x].subs[u].phase.Finished?
    requires e != Deployed(x, u, Apply(c, s, e).onus[x].subs[u].phase.reason)
    ensures HasSub(s, x, u) && s.onus[x].subs[u].phase == Apply(c, s, e).onus[x].subs[u].phase
  {}

  /** Every subscriber was given an instance for each profile id, and refused none. */
  ghost predicate AllCreated(c: Config, s: State, events: seq<Event>) {
    forall x: nat, u: nat | HasSub(s, x, u) :: Created(events, x, u) == c.tps && Refused(events, x, u) == 0
  }
}
