/**
 * The rupture state machine (src/model/state_machine.rs): a six-state classifier
 * of rho = strain / (capacity + eps) with an m-of-k confirmation window for
 * candidate episodes, a hold counter before recovery, and an append-only log of
 * closed episodes.
 *
 * `Step` is the transition function on a value snapshot of the machine; the
 * class `StateMachine` updates its fields in place and is proved to perform
 * exactly that transition. `Run` folds `Step` over a series of bars.
 */
module ModelStateMachine {

  import opened Wrappers
  import opened Types
  import opened Config
  import opened RealArith

  /** The label for rho alone, without candidate or confirmation logic. */
  function BaseState(rho: real, cfg: StateMachineConfig): (s: RuptureState)
    ensures s == Stable || s == Stressed || s == Critical
    ensures s == Critical <==> rho >= cfg.rhoRupture || rho >= cfg.rhoCritical
    ensures s == Stable <==> rho < cfg.rhoRupture && rho < cfg.rhoCritical && rho < cfg.rhoStressed
  {
    if rho >= cfg.rhoRupture then Critical
    else if rho >= cfg.rhoCritical then Critical
    else if rho >= cfg.rhoStressed then Stressed
    else Stable
  }

  /** Severity order of the labels; the three base labels rank 0, 1, 2. */
  function Severity(s: RuptureState): nat
  {
    match s
    case Stable => 0
    case Stressed => 1
    case Critical => 2
    case _ => 3
  }

  /** A larger rho never gives a less severe base label, whatever the thresholds. */
  lemma BaseStateMonotone(cfg: StateMachineConfig, rho1: real, rho2: real)
    requires rho1 <= rho2
    ensures Severity(BaseState(rho1, cfg)) <= Severity(BaseState(rho2, cfg))
  {
  }

  /** A snapshot of every field of the machine except its configuration. */
  datatype Machine = Machine(
    state: RuptureState,
    prevRho: real,
    candidateIndex: Option<nat>,
    candidateTimestamp: Option<string>,
    peak: real,
    buffer: seq<bool>,
    recoveryCount: nat,
    events: seq<RuptureEvent>)

  /** The machine after one update, with the two flags that update returns. */
  datatype Transition = Transition(next: Machine, candidateFlag: bool, confirmedFlag: bool)

  /** The freshly constructed machine: Stable, previous rho 0, nothing tracked. */
  function Init(): Machine
  {
    Machine(Stable, 0.0, None, None, 0.0, [], 0, [])
  }

  /** The number of `true` entries. */
  function CountTrue(b: seq<bool>): (n: nat)
    ensures n <= |b|
  {
    if |b| == 0 then 0 else CountTrue(b[..|b| - 1]) + (if b[|b| - 1] then 1 else 0)
  }

  predicate IsBase(s: RuptureState)
  {
    s == Stable || s == Stressed || s == Critical
  }

  /** The event recorded when a candidate episode closes at `index`. */
  function CloseEvent(cfg: StateMachineConfig, m: Machine, index: nat, ts: string, peak: real, confirmed: bool): RuptureEvent
  {
    RuptureEvent(
      m.candidateIndex.GetOr(index),
      m.candidateTimestamp.GetOr(""),
      if confirmed then Some(index) else None,
      if confirmed then Some(ts) else None,
      peak,
      cfg.confirmK,
      cfg.confirmM)
  }

  /** From Stable, Stressed or Critical: open an episode on an upward crossing, else relabel by rho. */
  function AdvanceBase(cfg: StateMachineConfig, m: Machine, index: nat, ts: string, rho: real): Transition
  {
    if rho >= cfg.rhoRupture && m.prevRho < cfg.rhoRupture then
      // First crossing; the crossing bar itself counts towards confirmation.
      var entered := m.(state := CandidateRupture, candidateIndex := Some(index),
                        candidateTimestamp := Some(ts), peak := rho, buffer := [true]);
      Transition(entered, true, false)
    else
      Transition(m.(state := BaseState(rho, cfg)), false, false)
  }

  /** Inside an episode: record this bar, raise the peak, and close the window at k entries. */
  function AdvanceCandidate(cfg: StateMachineConfig, m: Machine, index: nat, ts: string, rho: real): Transition
  {
    var buffer := m.buffer + [rho >= cfg.rhoRupture];
    var peak := if rho > m.peak then rho else m.peak;
    if |buffer| >= cfg.confirmK then
      var confirmed := CountTrue(buffer) >= cfg.confirmM;
      var closed := m.(candidateIndex := None, candidateTimestamp := None, buffer := [], peak := peak,
                       events := m.events + [CloseEvent(cfg, m, index, ts, peak, confirmed)]);
      if confirmed then
        Transition(closed.(state := ConfirmedRupture, recoveryCount := 0), false, true)
      else
        Transition(closed.(state := BaseState(rho, cfg)), false, false)
    else
      Transition(m.(buffer := buffer, peak := peak), false, false)
  }

  /** After a confirmation: count bars below rho_critical towards recovery. */
  function AdvanceConfirmed(cfg: StateMachineConfig, m: Machine, rho: real): Transition
  {
    if cfg.enableRecovery && rho < cfg.rhoCritical then
      var count := m.recoveryCount + 1;
      if count >= cfg.recoveryHold then
        Transition(m.(state := Recovery, recoveryCount := 0), false, false)
      else
        Transition(m.(recoveryCount := count), false, false)
    else
      Transition(m.(recoveryCount := 0), false, false)
  }

  /** The update of one bar, before `prevRho` is overwritten. */
  function Advance(cfg: StateMachineConfig, m: Machine, index: nat, ts: string, rho: real): Transition
  {
    match m.state
    case Stable | Stressed | Critical => AdvanceBase(cfg, m, index, ts, rho)
    case CandidateRupture => AdvanceCandidate(cfg, m, index, ts, rho)
    case ConfirmedRupture => AdvanceConfirmed(cfg, m, rho)
    case Recovery => Transition(m.(state := BaseState(rho, cfg)), false, false)
  }

  /** `update(index, ts, rho)`: the transition, after which the previous rho is this rho. */
  function Step(cfg: StateMachineConfig, m: Machine, index: nat, ts: string, rho: real): Transition
  {
    var t := Advance(cfg, m, index, ts, rho);
    t.(next := t.next.(prevRho := rho))
  }

  /** Every logged event carries the configured k and m, and is confirmed in both fields or in neither. */
  predicate EventFits(cfg: StateMachineConfig, e: RuptureEvent)
  {
    && e.confirmationK == cfg.confirmK
    && e.confirmationM == cfg.confirmM
    && (e.confirmedIndex.Some? <==> e.confirmedTimestamp.Some?)
  }

  function MaxK(cfg: StateMachineConfig): nat
  {
    if cfg.confirmK > 2 then cfg.confirmK else 2
  }

  /**
   * The machine invariant. Inside a candidate episode the candidate index and
   * timestamp are present and the confirmation buffer starts with the crossing
   * bar's `true` and is shorter than max(k, 2); outside one, all three are empty.
   * A confirmed or recovering machine has a confirmed event last in its log.
   */
  predicate Inv(cfg: StateMachineConfig, m: Machine)
  {
    && (m.state == CandidateRupture ==>
          && m.candidateIndex.Some? && m.candidateTimestamp.Some?
          && 0 < |m.buffer| < MaxK(cfg) && m.buffer[0])
    && (m.state != CandidateRupture ==>
          m.candidateIndex == None && m.candidateTimestamp == None && m.buffer == [])
    && (m.state == ConfirmedRupture || m.state == Recovery ==>
          |m.events| > 0 && m.events[|m.events| - 1].confirmedIndex.Some?)
    && (forall i :: 0 <= i < |m.events| ==> EventFits(cfg, m.events[i]))
  }

  lemma InitInv(cfg: StateMachineConfig)
    ensures Inv(cfg, Init())
  {
  }

  /** Every update keeps the invariant. */
  lemma StepKeepsInv(cfg: StateMachineConfig, m: Machine, index: nat, ts: string, rho: real)
    requires Inv(cfg, m)
    ensures Inv(cfg, Step(cfg, m, index, ts, rho).next)
  {
    var t := Step(cfg, m, index, ts, rho);
    if m.state == CandidateRupture && |m.buffer| + 1 >= cfg.confirmK {
      var n := t.next;
      assert n.events[..|m.events|] == m.events;
      assert forall i :: 0 <= i < |m.events| ==> n.events[i] == m.events[i];
    }
  }

  /**
   * The two flags. The candidate flag is raised exactly on an upward crossing of
   * rho_rupture from a base state; the confirmed flag exactly when a candidate
   * window reaches k entries holding at least m `true`s. Never both; Candidate
   * and Confirmed are entered only with their flag.
   */
  lemma StepFlags(cfg: StateMachineConfig, m: Machine, index: nat, ts: string, rho: real)
    ensures var t := Step(cfg, m, index, ts, rho);
            && (t.candidateFlag <==> IsBase(m.state) && rho >= cfg.rhoRupture && m.prevRho < cfg.rhoRupture)
            && (t.confirmedFlag <==>
                  && m.state == CandidateRupture
                  && |m.buffer| + 1 >= cfg.confirmK
                  && CountTrue(m.buffer + [rho >= cfg.rhoRupture]) >= cfg.confirmM)
            && !(t.candidateFlag && t.confirmedFlag)
            && (t.next.state == CandidateRupture ==> t.candidateFlag || m.state == CandidateRupture)
            && (t.next.state == ConfirmedRupture ==> t.confirmedFlag || m.state == ConfirmedRupture)
            && t.next.prevRho == rho
  {
  }

  /** From a base state: a crossing opens an episode at this bar, anything else relabels by rho. */
  lemma StepFromBase(cfg: StateMachineConfig, m: Machine, index: nat, ts: string, rho: real)
    requires IsBase(m.state)
    ensures var t := Step(cfg, m, index, ts, rho);
            && (rho >= cfg.rhoRupture && m.prevRho < cfg.rhoRupture ==>
                  t.next == m.(state := CandidateRupture, candidateIndex := Some(index),
                               candidateTimestamp := Some(ts), peak := rho, buffer := [true], prevRho := rho))
            && (!(rho >= cfg.rhoRupture && m.prevRho < cfg.rhoRupture) ==>
                  t.next == m.(state := BaseState(rho, cfg), prevRho := rho))
  {
  }

  /**
   * Inside an episode each bar appends `rho >= rho_rupture` and raises the peak;
   * at k entries the episode closes, into ConfirmedRupture with at least m
   * `true`s and into the base label otherwise, and the tracking is cleared.
   */
  lemma StepInCandidate(cfg: StateMachineConfig, m: Machine, index: nat, ts: string, rho: real)
    requires m.state == CandidateRupture
    ensures var t := Step(cfg, m, index, ts, rho);
            var buffer := m.buffer + [rho >= cfg.rhoRupture];
            && !t.candidateFlag
            && (|buffer| < cfg.confirmK ==>
                  t.next == m.(buffer := buffer, peak := RealMax(m.peak, rho), prevRho := rho))
            && (|buffer| >= cfg.confirmK ==>
                  && t.next.candidateIndex == None && t.next.candidateTimestamp == None && t.next.buffer == []
                  && t.next.peak == RealMax(m.peak, rho)
                  && (CountTrue(buffer) >= cfg.confirmM ==> t.next.state == ConfirmedRupture && t.next.recoveryCount == 0)
                  && (CountTrue(buffer) < cfg.confirmM ==> t.next.state == BaseState(rho, cfg)))
  {
  }

  /**
   * The log only grows, by exactly one event when an episode closes: it holds
   * the trigger bar's index and timestamp, this bar as confirmation exactly when
   * confirmed, the peak including this bar, and the configured k and m.
   */
  lemma StepEvents(cfg: StateMachineConfig, m: Machine, index: nat, ts: string, rho: real)
    requires Inv(cfg, m)
    ensures var t := Step(cfg, m, index, ts, rho);
            var closes := m.state == CandidateRupture && |m.buffer| + 1 >= cfg.confirmK;
            && (closes ==>
                  t.next.events == m.events + [RuptureEvent(
                    m.candidateIndex.value, m.candidateTimestamp.value,
                    if t.confirmedFlag then Some(index) else None,
                    if t.confirmedFlag then Some(ts) else None,
                    RealMax(m.peak, rho), cfg.confirmK, cfg.confirmM)])
            && (!closes ==> t.next.events == m.events)
  {
    var t := Step(cfg, m, index, ts, rho);
    if m.state == CandidateRupture && |m.buffer| + 1 >= cfg.confirmK {
      var peak := RealMax(m.peak, rho);
      var confirmed := CountTrue(m.buffer + [rho >= cfg.rhoRupture]) >= cfg.confirmM;
      assert t == AdvanceCandidate(cfg, m, index, ts, rho).(next := t.next);
      assert t.confirmedFlag == confirmed;
      assert t.next.events == m.events + [CloseEvent(cfg, m, index, ts, peak, confirmed)];
    }
  }

  /**
   * After a confirmation: with recovery enabled, each bar below rho_critical
   * counts, and the hold-th consecutive one moves to Recovery and resets the
   * counter; any other bar resets the counter and stays confirmed.
   */
  lemma StepInConfirmed(cfg: StateMachineConfig, m: Machine, index: nat, ts: string, rho: real)
    requires m.state == ConfirmedRupture
    ensures var t := Step(cfg, m, index, ts, rho);
            && !t.candidateFlag && !t.confirmedFlag && t.next.events == m.events
            && (cfg.enableRecovery && rho < cfg.rhoCritical && m.recoveryCount + 1 >= cfg.recoveryHold ==>
                  t.next.state == Recovery && t.next.recoveryCount == 0)
            && (cfg.enableRecovery && rho < cfg.rhoCritical && m.recoveryCount + 1 < cfg.recoveryHold ==>
                  t.next.state == ConfirmedRupture && t.next.recoveryCount == m.recoveryCount + 1)
            && (!(cfg.enableRecovery && rho < cfg.rhoCritical) ==>
                  t.next.state == ConfirmedRupture && t.next.recoveryCount == 0)
  {
  }

  /** Recovery lasts one bar: the next returns to the base label and never opens an episode. */
  lemma StepFromRecovery(cfg: StateMachineConfig, m: Machine, index: nat, ts: string, rho: real)
    requires m.state == Recovery
    ensures var t := Step(cfg, m, index, ts, rho);
            && t.next.state == BaseState(rho, cfg)
            && !t.candidateFlag && !t.confirmedFlag && t.next.events == m.events
  {
  }

  /**
   * With k = 1 the window check first runs on the bar after the trigger, when
   * the buffer already holds two entries: every episode closes on that bar, and
   * with m = 1 it always confirms.
   */
  lemma SingleBarConfirmation(cfg: StateMachineConfig, m: Machine, index: nat, ts: string, rho: real)
    requires Inv(cfg, m) && m.state == CandidateRupture && cfg.confirmK == 1
    ensures var t := Step(cfg, m, index, ts, rho);
            && |t.next.events| == |m.events| + 1
            && CountTrue(m.buffer + [rho >= cfg.rhoRupture]) == 1 + (if rho >= cfg.rhoRupture then 1 else 0)
            && (cfg.confirmM <= 1 ==> t.confirmedFlag && t.next.state == ConfirmedRupture)
  {
    assert m.buffer == [true];
    var b := m.buffer + [rho >= cfg.rhoRupture];
    assert b[..1] == [true];
    assert b[..1][..0] == [];
  }

  // ----- Runs over a series of bars -----

  /** The machine after bars 0 .. |rhos| - 1, bar i passing index i, timestamp tss[i] and rho rhos[i]. */
  function Run(cfg: StateMachineConfig, tss: seq<string>, rhos: seq<real>): Machine
    requires |tss| == |rhos|
    decreases |rhos|
  {
    if |rhos| == 0 then Init()
    else
      var n := |rhos| - 1;
      Step(cfg, Run(cfg, tss[..n], rhos[..n]), n, tss[n], rhos[n]).next
  }

  /** The update of bar i within a run. */
  function StepAt(cfg: StateMachineConfig, tss: seq<string>, rhos: seq<real>, i: nat): Transition
    requires |tss| == |rhos| && i < |rhos|
  {
    Step(cfg, Run(cfg, tss[..i], rhos[..i]), i, tss[i], rhos[i])
  }

  lemma RunSnoc(cfg: StateMachineConfig, tss: seq<string>, rhos: seq<real>, i: nat)
    requires |tss| == |rhos| && i < |rhos|
    ensures Run(cfg, tss[..i + 1], rhos[..i + 1]) == StepAt(cfg, tss, rhos, i).next
  {
    assert tss[..i + 1][..i] == tss[..i];
    assert rhos[..i + 1][..i] == rhos[..i];
  }

  /** Every run keeps the invariant. */
  lemma {:induction false} RunInv(cfg: StateMachineConfig, tss: seq<string>, rhos: seq<real>)
    requires |tss| == |rhos|
    ensures Inv(cfg, Run(cfg, tss, rhos))
    decreases |rhos|
  {
    if |rhos| == 0 {
      InitInv(cfg);
    } else {
      var n := |rhos| - 1;
      RunInv(cfg, tss[..n], rhos[..n]);
      StepKeepsInv(cfg, Run(cfg, tss[..n], rhos[..n]), n, tss[n], rhos[n]);
    }
  }

  /** Earlier events are never modified or removed: the log after a prefix is a prefix of the final log. */
  lemma {:induction false} RunEventsAppendOnly(cfg: StateMachineConfig, tss: seq<string>, rhos: seq<real>, n: nat)
    requires |tss| == |rhos| && n <= |rhos|
    ensures Run(cfg, tss[..n], rhos[..n]).events <= Run(cfg, tss, rhos).events
    decreases |rhos| - n
  {
    if n < |rhos| {
      RunEventsAppendOnly(cfg, tss, rhos, n + 1);
      RunSnoc(cfg, tss, rhos, n);
      RunInv(cfg, tss[..n], rhos[..n]);
      StepEvents(cfg, Run(cfg, tss[..n], rhos[..n]), n, tss[n], rhos[n]);
    } else {
      assert tss[..n] == tss && rhos[..n] == rhos;
    }
  }

  /** The number of raised candidate flags and of raised confirmed flags among bars 0 .. n - 1. */
  function CandidateFlags(cfg: StateMachineConfig, tss: seq<string>, rhos: seq<real>, n: nat): nat
    requires |tss| == |rhos| && n <= |rhos|
  {
    if n == 0 then 0
    else CandidateFlags(cfg, tss, rhos, n - 1) + (if StepAt(cfg, tss, rhos, n - 1).candidateFlag then 1 else 0)
  }

  function ConfirmedFlags(cfg: StateMachineConfig, tss: seq<string>, rhos: seq<real>, n: nat): nat
    requires |tss| == |rhos| && n <= |rhos|
  {
    if n == 0 then 0
    else ConfirmedFlags(cfg, tss, rhos, n - 1) + (if StepAt(cfg, tss, rhos, n - 1).confirmedFlag then 1 else 0)
  }

  /** The number of confirmed events in a log. */
  function ConfirmedEvents(events: seq<RuptureEvent>): nat
  {
    if |events| == 0 then 0
    else ConfirmedEvents(events[..|events| - 1]) + (if events[|events| - 1].confirmedIndex.Some? then 1 else 0)
  }

  /** One step changes the episode and confirmation counts exactly by its flags. */
  lemma StepCounts(cfg: StateMachineConfig, m: Machine, index: nat, ts: string, rho: real)
    ensures var t := Step(cfg, m, index, ts, rho);
            var open, open' := if m.state == CandidateRupture then 1 else 0, if t.next.state == CandidateRupture then 1 else 0;
            && |t.next.events| + open' == |m.events| + open + (if t.candidateFlag then 1 else 0)
            && ConfirmedEvents(t.next.events) == ConfirmedEvents(m.events) + (if t.confirmedFlag then 1 else 0)
  {
    var t := Step(cfg, m, index, ts, rho);
    if |t.next.events| != |m.events| {
      var e := t.next.events;
      assert e[..|e| - 1] == m.events;
    }
  }

  /**
   * Every candidate flag opens exactly one episode and every closed episode is
   * one event: the log holds one event per flag except the still open episode.
   * The confirmed events are exactly the confirmed flags.
   */
  lemma {:induction false} RunCounts(cfg: StateMachineConfig, tss: seq<string>, rhos: seq<real>, n: nat)
    requires |tss| == |rhos| && n <= |rhos|
    ensures var m := Run(cfg, tss[..n], rhos[..n]);
            && |m.events| + (if m.state == CandidateRupture then 1 else 0) == CandidateFlags(cfg, tss, rhos, n)
            && ConfirmedEvents(m.events) == ConfirmedFlags(cfg, tss, rhos, n)
  {
    if n > 0 {
      RunCounts(cfg, tss, rhos, n - 1);
      CountsSnoc(cfg, tss, rhos, n - 1);
    }
  }

  lemma CountsSnoc(cfg: StateMachineConfig, tss: seq<string>, rhos: seq<real>, i: nat)
    requires |tss| == |rhos| && i < |rhos|
    ensures var m, m' := Run(cfg, tss[..i], rhos[..i]), Run(cfg, tss[..i + 1], rhos[..i + 1]);
            var t := StepAt(cfg, tss, rhos, i);
            && |m'.events| + (if m'.state == CandidateRupture then 1 else 0)
               == |m.events| + (if m.state == CandidateRupture then 1 else 0) + (if t.candidateFlag then 1 else 0)
            && ConfirmedEvents(m'.events) == ConfirmedEvents(m.events) + (if t.confirmedFlag then 1 else 0)
  {
    RunSnoc(cfg, tss, rhos, i);
    StepCounts(cfg, Run(cfg, tss[..i], rhos[..i]), i, tss[i], rhos[i]);
  }

  /**
   * Where an open episode came from: its candidate index is the last bar that
   * raised the candidate flag, its timestamp is that bar's, and its peak bounds
   * every rho since.
   */
  ghost predicate Tracked(cfg: StateMachineConfig, tss: seq<string>, rhos: seq<real>, n: nat, m: Machine)
    requires |tss| == |rhos| && n <= |rhos|
  {
    m.state == CandidateRupture && m.candidateIndex.Some? ==>
      var c := m.candidateIndex.value;
      && c < n
      && StepAt(cfg, tss, rhos, c).candidateFlag
      && m.candidateTimestamp == Some(tss[c])
      && (forall j :: c < j < n ==> !StepAt(cfg, tss, rhos, j).candidateFlag)
      && (forall j :: c <= j < n ==> rhos[j] <= m.peak)
  }

  lemma {:induction false} RunTracked(cfg: StateMachineConfig, tss: seq<string>, rhos: seq<real>, n: nat)
    requires |tss| == |rhos| && n <= |rhos|
    ensures Tracked(cfg, tss, rhos, n, Run(cfg, tss[..n], rhos[..n]))
  {
    if n > 0 {
      RunTracked(cfg, tss, rhos, n - 1);
      TrackedSnoc(cfg, tss, rhos, n - 1);
    }
  }

  lemma TrackedSnoc(cfg: StateMachineConfig, tss: seq<string>, rhos: seq<real>, i: nat)
    requires |tss| == |rhos| && i < |rhos|
    requires Tracked(cfg, tss, rhos, i, Run(cfg, tss[..i], rhos[..i]))
    ensures Tracked(cfg, tss, rhos, i + 1, Run(cfg, tss[..i + 1], rhos[..i + 1]))
  {
    RunSnoc(cfg, tss, rhos, i);
    var m := Run(cfg, tss[..i], rhos[..i]);
    var t := StepAt(cfg, tss, rhos, i);
    StepTracks(cfg, m, i, tss[i], rhos[i], t);
  }

  /** An open episode after a step was either opened by it or carried over from before it. */
  lemma StepTracks(cfg: StateMachineConfig, m: Machine, index: nat, ts: string, rho: real, t: Transition)
    requires t == Step(cfg, m, index, ts, rho)
    ensures t.next.state == CandidateRupture ==>
              || (t.candidateFlag && t.next.candidateIndex == Some(index)
                  && t.next.candidateTimestamp == Some(ts) && t.next.peak == rho)
              || (!t.candidateFlag && m.state == CandidateRupture
                  && t.next.candidateIndex == m.candidateIndex && t.next.candidateTimestamp == m.candidateTimestamp
                  && t.next.peak >= m.peak && t.next.peak >= rho)
  {
  }

  /**
   * The event a bar appends describes the episode it closes: the candidate index
   * is the bar that raised the candidate flag, no flag was raised since, the
   * timestamp is that bar's, the peak is at least every rho from the trigger to
   * this bar, and the confirmation fields name this bar exactly when it confirms.
   */
  lemma EventProvenance(cfg: StateMachineConfig, tss: seq<string>, rhos: seq<real>, i: nat)
    requires |tss| == |rhos| && i < |rhos|
    requires |StepAt(cfg, tss, rhos, i).next.events| > |Run(cfg, tss[..i], rhos[..i]).events|
    ensures var m, t := Run(cfg, tss[..i], rhos[..i]), StepAt(cfg, tss, rhos, i);
            |t.next.events| == |m.events| + 1 &&
            var e := t.next.events[|m.events|];
            var c := e.candidateIndex;
            && t.next.events[..|m.events|] == m.events
            && c < i
            && StepAt(cfg, tss, rhos, c).candidateFlag
            && (forall j :: c < j <= i ==> !StepAt(cfg, tss, rhos, j).candidateFlag)
            && e.candidateTimestamp == tss[c]
            && (forall j :: c <= j <= i ==> rhos[j] <= e.peakRho)
            && (e.confirmedIndex == Some(i) <==> t.confirmedFlag)
            && (e.confirmedIndex.None? <==> !t.confirmedFlag)
  {
    var m := Run(cfg, tss[..i], rhos[..i]);
    var t := StepAt(cfg, tss, rhos, i);
    RunInv(cfg, tss[..i], rhos[..i]);
    RunTracked(cfg, tss, rhos, i);
    StepCloses(cfg, m, i, tss[i], rhos[i], t);
  }

  /** A step that lengthens the log closes the open episode and appends its event. */
  lemma StepCloses(cfg: StateMachineConfig, m: Machine, index: nat, ts: string, rho: real, t: Transition)
    requires Inv(cfg, m) && t == Step(cfg, m, index, ts, rho)
    requires |t.next.events| > |m.events|
    ensures m.state == CandidateRupture && !t.candidateFlag
    ensures |t.next.events| == |m.events| + 1 && t.next.events[..|m.events|] == m.events
    ensures var e := t.next.events[|m.events|];
            && e.candidateIndex == m.candidateIndex.value
            && e.candidateTimestamp == m.candidateTimestamp.value
            && e.peakRho >= m.peak && e.peakRho >= rho
            && (e.confirmedIndex == Some(index) <==> t.confirmedFlag)
            && (e.confirmedIndex.None? <==> !t.confirmedFlag)
  {
    StepEvents(cfg, m, index, ts, rho);
  }

  // ----- The unit-test traces -----

  /** Thresholds 0.60 / 0.85 / 1.00, k = 3, m = 2, recovery after 2 bars. */
  const TestConfig := StateMachineConfig(0.60, 0.85, 1.00, 3, 2, true, 2)

  /** [0.5, 1.2, 0.8, 0.7]: one candidate, closed unconfirmed after three window entries. */
  lemma SingleSpikeTrace()
    ensures var t0 := Step(TestConfig, Init(), 0, "t0", 0.5);
            var t1 := Step(TestConfig, t0.next, 1, "t1", 1.2);
            var t2 := Step(TestConfig, t1.next, 2, "t2", 0.8);
            var t3 := Step(TestConfig, t2.next, 3, "t3", 0.7);
            && t1.next.state == CandidateRupture && t1.candidateFlag
            && !t2.confirmedFlag && !t3.confirmedFlag && t3.next.state != ConfirmedRupture
            && |t3.next.events| == 1 && t3.next.events[0].confirmedIndex == None
  {
  }

  /** [0.5, 1.5, 1.3, 1.1]: confirmed at bar 3 with candidate index 1; then 0.7 holds, 0.6 recovers, 0.3 is Stable. */
  lemma SustainedAndRecoveryTrace()
    ensures var t0 := Step(TestConfig, Init(), 0, "t0", 0.5);
            var t1 := Step(TestConfig, t0.next, 1, "t1", 1.5);
            var t2 := Step(TestConfig, t1.next, 2, "t2", 1.3);
            var t3 := Step(TestConfig, t2.next, 3, "t3", 1.1);
            var t4 := Step(TestConfig, t3.next, 4, "t4", 0.7);
            var t5 := Step(TestConfig, t4.next, 5, "t5", 0.6);
            var t6 := Step(TestConfig, t5.next, 6, "t6", 0.3);
            && t1.next.state == CandidateRupture && t1.candidateFlag
            && t3.next.state == ConfirmedRupture && t3.confirmedFlag
            && t3.next.events == [RuptureEvent(1, "t1", Some(3), Some("t3"), 1.5, 3, 2)]
            && t4.next.state == ConfirmedRupture
            && t5.next.state == Recovery
            && t6.next.state == Stable
  {
  }

  /** [0.5, 1.1, 0.9, 0.8]: one of three entries above 1.0 does not confirm. */
  lemma FlappingTrace()
    ensures var t0 := Step(TestConfig, Init(), 0, "t0", 0.5);
            var t1 := Step(TestConfig, t0.next, 1, "t1", 1.1);
            var t2 := Step(TestConfig, t1.next, 2, "t2", 0.9);
            var t3 := Step(TestConfig, t2.next, 3, "t3", 0.8);
            && !t3.confirmedFlag && t3.next.state != ConfirmedRupture
  {
  }

  // ----- The mutable machine -----

  class StateMachine {
    const cfg: StateMachineConfig
    var state: RuptureState
    var prevRho: real
    var candidateIndex: Option<nat>
    var candidateTimestamp: Option<string>
    var candidatePeakRho: real
    var confirmBuffer: seq<bool>
    var recoveryCount: nat
    var events: seq<RuptureEvent>

    function Snapshot(): Machine
      reads this
    {
      Machine(state, prevRho, candidateIndex, candidateTimestamp, candidatePeakRho,
              confirmBuffer, recoveryCount, events)
    }

    ghost predicate Valid()
      reads this
    {
      Inv(cfg, Snapshot())
    }

    constructor(cfg: StateMachineConfig)
      ensures Valid()
      ensures this.cfg == cfg && Snapshot() == Init()
    {
      this.cfg := cfg;
      state := Stable;
      prevRho := 0.0;
      candidateIndex := None;
      candidateTimestamp := None;
      candidatePeakRho := 0.0;
      confirmBuffer := [];
      recoveryCount := 0;
      events := [];
    }

    /** Processes one bar and returns the new state and the two flags. */
    method Update(index: nat, timestamp: string, rho: real)
      returns (s: RuptureState, candidateFlag: bool, confirmedFlag: bool)
      requires Valid()
      modifies this
      ensures Valid()
      ensures var t := Step(cfg, old(Snapshot()), index, timestamp, rho);
              && Snapshot() == t.next
              && s == t.next.state && candidateFlag == t.candidateFlag && confirmedFlag == t.confirmedFlag
    {
      ghost var before := Snapshot();
      ghost var a := Advance(cfg, before, index, timestamp, rho);
      candidateFlag := false;
      confirmedFlag := false;
      match state {
        case Stable | Stressed | Critical =>
          candidateFlag := UpdateFromBase(index, timestamp, rho);
        case CandidateRupture =>
          confirmedFlag := UpdateInCandidate(index, timestamp, rho);
        case ConfirmedRupture =>
          UpdateInConfirmed(rho);
        case Recovery =>
          state := BaseState(rho, cfg);
      }
      assert Snapshot() == a.next && candidateFlag == a.candidateFlag && confirmedFlag == a.confirmedFlag;
      prevRho := rho;
      s := state;
      StepKeepsInv(cfg, before, index, timestamp, rho);
    }

    /** The Stable / Stressed / Critical arm of `Update`. */
    method UpdateFromBase(index: nat, timestamp: string, rho: real) returns (candidateFlag: bool)
      modifies this
      ensures var t := AdvanceBase(cfg, old(Snapshot()), index, timestamp, rho);
              Snapshot() == t.next && candidateFlag == t.candidateFlag
    {
      candidateFlag := false;
      if rho >= cfg.rhoRupture && prevRho < cfg.rhoRupture {
        state := CandidateRupture;
        candidateIndex := Some(index);
        candidateTimestamp := Some(timestamp);
        candidatePeakRho := rho;
        confirmBuffer := [];
        confirmBuffer := confirmBuffer + [true];
        candidateFlag := true;
      } else {
        state := BaseState(rho, cfg);
      }
    }

    /** The CandidateRupture arm of `Update`. */
    method UpdateInCandidate(index: nat, timestamp: string, rho: real) returns (confirmedFlag: bool)
      modifies this
      ensures var t := AdvanceCandidate(cfg, old(Snapshot()), index, timestamp, rho);
              Snapshot() == t.next && confirmedFlag == t.confirmedFlag
    {
      confirmedFlag := false;
      confirmBuffer := confirmBuffer + [rho >= cfg.rhoRupture];
      if rho > candidatePeakRho {
        candidatePeakRho := rho;
      }
      if |confirmBuffer| >= cfg.confirmK {
        var aboveCount := CountTrue(confirmBuffer);
        if aboveCount >= cfg.confirmM {
          state := ConfirmedRupture;
          confirmedFlag := true;
          events := events + [RuptureEvent(
            candidateIndex.GetOr(index), candidateTimestamp.GetOr(""),
            Some(index), Some(timestamp), candidatePeakRho, cfg.confirmK, cfg.confirmM)];
          recoveryCount := 0;
        } else {
          events := events + [RuptureEvent(
            candidateIndex.GetOr(index), candidateTimestamp.GetOr(""),
            None, None, candidatePeakRho, cfg.confirmK, cfg.confirmM)];
          state := BaseState(rho, cfg);
        }
        candidateIndex := None;
        candidateTimestamp := None;
        confirmBuffer := [];
      }
    }

    /** The ConfirmedRupture arm of `Update`. */
    method UpdateInConfirmed(rho: real)
      modifies this
      ensures Snapshot() == AdvanceConfirmed(cfg, old(Snapshot()), rho).next
    {
      if cfg.enableRecovery && rho < cfg.rhoCritical {
        recoveryCount := recoveryCount + 1;
        if recoveryCount >= cfg.recoveryHold {
          state := Recovery;
          recoveryCount := 0;
        }
      } else {
        recoveryCount := 0;
      }
    }

    /** The event log; every event in it carries the configured k and m. */
    function Events(): (e: seq<RuptureEvent>)
      requires Valid()
      reads this
      ensures e == Snapshot().events
      ensures forall i :: 0 <= i < |e| ==> EventFits(cfg, e[i])
    {
      events
    }
  }
}
