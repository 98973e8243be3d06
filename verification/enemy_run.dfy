/** A sequence of frames of one enemy, interleaved with the one-shot spawn timer. This is where
    the properties that span several frames live: thinking never stops, the intro is inert,
    the counter stays non-negative, and attacks are at least rechargeTime of frame time apart. */
module EnemyRun {
  import opened Geometry
  import opened EnemyBehaviour

  /** What can happen to an enemy: an engine frame, or the delayed BeginThinking callback firing. */
  datatype Event = Tick(frame: Frame) | TimerFired

  /** Frame time an event contributes. */
  function Delta(e: Event): real {
    match e
    case Tick(f) => f.deltaTime
    case TimerFired => 0.0
  }

  /** Total frame time of a sequence of events. */
  function Elapsed(events: seq<Event>): real {
    if events == [] then 0.0 else Delta(events[0]) + Elapsed(events[1..])
  }

  /** The engine never reports a negative frame time. */
  predicate NonNegativeDeltas(events: seq<Event>) {
    forall i :: 0 <= i < |events| ==> Delta(events[i]) >= 0.0
  }

  /** The effect of one event. */
  function Step(cfg: Config, s: EnemyState, e: Event): (r: TickResult)
    ensures r.state.isThinking <==> s.isThinking || e.TimerFired?
    ensures e.TimerFired? ==> r.destination == None && !r.attacked
                              && r.state.target == s.target && r.state.cooldown == s.cooldown
    ensures r.attacked ==> e.Tick? && s.isThinking && r.state.cooldown == 0.0
    ensures s.isThinking && !r.attacked ==> r.state.cooldown == s.cooldown + Delta(e)
    ensures !s.isThinking && e.Tick? ==> r == TickResult(s, None, false)
  {
    match e
    case Tick(f) => Update(cfg, s, f)
    case TimerFired => TickResult(BeginThinking(s), None, false)
  }

  /** The results of the events one after another, each starting from the previous state. */
  function Run(cfg: Config, s: EnemyState, events: seq<Event>): (trace: seq<TickResult>)
    ensures |trace| == |events|
    ensures s.isThinking ==> forall i :: 0 <= i < |trace| ==> trace[i].state.isThinking
    ensures (!s.isThinking && forall i :: 0 <= i < |events| ==> events[i].Tick?)
            ==> forall i :: 0 <= i < |trace| ==> trace[i] == TickResult(s, None, false)
    ensures (s.cooldown >= 0.0 && NonNegativeDeltas(events))
            ==> forall i :: 0 <= i < |trace| ==> trace[i].state.cooldown >= 0.0
    decreases |events|
  {
    if events == [] then []
    else
      var r := Step(cfg, s, events[0]);
      [r] + Run(cfg, r.state, events[1..])
  }

  /** The trace after event i is the run of the remaining events from the state event i left. */
  lemma {:induction false} RunSuffix(cfg: Config, s: EnemyState, events: seq<Event>, i: nat)
    requires i < |events|
    ensures Run(cfg, s, events)[i + 1..] == Run(cfg, Run(cfg, s, events)[i].state, events[i + 1..])
    decreases i
  {
    var r := Step(cfg, s, events[0]);
    if i > 0 {
      RunSuffix(cfg, r.state, events[1..], i - 1);
      assert events[1..][i..] == events[i + 1..];
    }
  }

  /** Entry i of the trace is the step of event i from the state entry i - 1 left. */
  lemma RunStep(cfg: Config, s: EnemyState, events: seq<Event>, i: nat)
    requires i < |events|
    ensures Run(cfg, s, events)[i]
            == Step(cfg, if i == 0 then s else Run(cfg, s, events)[i - 1].state, events[i])
  {
    if i > 0 {
      var trace := Run(cfg, s, events);
      RunSuffix(cfg, s, events, i - 1);
      assert trace[i] == trace[i..][0];
      assert events[i..][0] == events[i];
    }
  }

  /** Once an enemy thinks at some point of a run, it thinks at every later point. */
  lemma ThinkingIsPermanent(cfg: Config, s: EnemyState, events: seq<Event>, i: nat, j: nat)
    requires i <= j < |events|
    requires Run(cfg, s, events)[i].state.isThinking
    ensures Run(cfg, s, events)[j].state.isThinking
  {
    if i < j {
      var trace := Run(cfg, s, events);
      RunSuffix(cfg, s, events, i);
      assert trace[j] == trace[i + 1..][j - i - 1];
    }
  }

  /** An enemy that is not yet thinking does nothing, frame after frame, until the spawn timer
      fires: this holds for any such state, in particular for the as-written spawn state and for
      the corrected one. */
  lemma SpawnPhaseIsInert(cfg: Config, s: EnemyState, position: Point, events: seq<Event>)
    requires !s.isThinking
    requires forall i :: 0 <= i < |events| ==> events[i].Tick?
    ensures forall i :: 0 <= i < |events| ==> Run(cfg, s, events)[i] == TickResult(s, None, false)
    ensures forall i :: 0 <= i < |events| ==> Run(cfg, Spawn(), events)[i] == TickResult(Spawn(), None, false)
    ensures forall i :: 0 <= i < |events| ==>
              Run(cfg, SpawnAt(position), events)[i] == TickResult(SpawnAt(position), None, false)
  {
  }

  /** Without an attack, a thinking enemy's counter is its starting value plus all frame time. */
  lemma {:induction false} QuietRunAccumulates(cfg: Config, s: EnemyState, events: seq<Event>)
    requires s.isThinking
    requires forall k :: 0 <= k < |events| ==> !Run(cfg, s, events)[k].attacked
    ensures forall k :: 0 <= k < |events| ==>
              Run(cfg, s, events)[k].state.cooldown == s.cooldown + Elapsed(events[..k + 1])
    decreases |events|
  {
    if events != [] {
      var trace := Run(cfg, s, events);
      var r := Step(cfg, s, events[0]);
      var rest := Run(cfg, r.state, events[1..]);
      assert trace == [r] + rest;
      assert forall k :: 0 <= k < |rest| ==> rest[k] == trace[k + 1];
      assert trace[0] == r && !trace[0].attacked;
      QuietRunAccumulates(cfg, r.state, events[1..]);
      forall k | 0 <= k < |events|
        ensures trace[k].state.cooldown == s.cooldown + Elapsed(events[..k + 1])
      {
        assert events[..k + 1][1..] == events[1..][..k];
        assert Elapsed(events[..k + 1]) == Delta(events[0]) + Elapsed(events[1..][..k]);
        if k > 0 {
          assert trace[k] == rest[k - 1];
        } else {
          assert events[1..][..0] == [];
        }
      }
    }
  }

  /** The first attack in a thinking enemy's run comes only once the starting counter plus the
      frame time up to and including that attack's frame reaches rechargeTime. */
  lemma {:induction false} AttackNeedsRechargeTime(cfg: Config, s: EnemyState, events: seq<Event>, j: nat)
    requires s.isThinking
    requires j < |events| && Run(cfg, s, events)[j].attacked
    requires forall k :: 0 <= k < j ==> !Run(cfg, s, events)[k].attacked
    ensures s.cooldown + Elapsed(events[..j + 1]) >= cfg.rechargeTime
    decreases j
  {
    var trace := Run(cfg, s, events);
    var r := Step(cfg, s, events[0]);
    var rest := Run(cfg, r.state, events[1..]);
    assert trace == [r] + rest;
    assert Elapsed(events[..j + 1]) == Delta(events[0]) + Elapsed(events[..j + 1][1..]);
    if j == 0 {
      assert events[..1][1..] == [];
    } else {
      assert trace[0] == r && !r.attacked;
      assert forall k :: 0 <= k < j - 1 ==> rest[k] == trace[k + 1];
      assert rest[j - 1] == trace[j];
      AttackNeedsRechargeTime(cfg, r.state, events[1..], j - 1);
      assert events[..j + 1][1..] == events[1..][..j];
    }
  }

  /** Between two consecutive attacks of a run, at least rechargeTime of frame time passes. */
  lemma AttacksAreRechargeTimeApart(cfg: Config, s: EnemyState, events: seq<Event>, i: nat, j: nat)
    requires i < j < |events|
    requires Run(cfg, s, events)[i].attacked && Run(cfg, s, events)[j].attacked
    requires forall k :: i < k < j ==> !Run(cfg, s, events)[k].attacked
    ensures Elapsed(events[i + 1..j + 1]) >= cfg.rechargeTime
  {
    var trace := Run(cfg, s, events);
    var mid := trace[i].state;
    var tail := events[i + 1..];
    var m := j - i - 1;
    assert mid.isThinking && mid.cooldown == 0.0 by {
      RunStep(cfg, s, events, i);
    }
    var seg := Run(cfg, mid, tail);
    assert seg == trace[i + 1..] by {
      RunSuffix(cfg, s, events, i);
    }
    assert seg[m] == trace[j];
    forall k | 0 <= k < m
      ensures !seg[k].attacked
    {
      assert seg[k] == trace[i + 1 + k];
    }
    AttackNeedsRechargeTime(cfg, mid, tail, m);
    assert tail[..m + 1] == events[i + 1..j + 1];
  }
}
