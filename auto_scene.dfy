/** The beat-driven auto-scene scheduler. Each scene domain (light and visual)
    keeps a baseline: the scene it last saw active and the beat at which that
    scene started. On every time update the scheduler re-arms the baseline when
    the active scene changed under it, and switches to a new auto scene when
    auto is enabled, a period boundary was crossed and the current scene has
    lived longer than one period. */
module AutoScene {
  import opened Util
  import opened Scenes

  /** The recorded scene and the beat it was first seen at (`UserModified`). */
  datatype Baseline = Baseline(beats: real, scene: string)

  /** A baseline that has seen no scene yet. */
  function InitBaseline(): (b: Baseline)
    ensures b.beats == 0.0 && b.scene == ""
  {
    Baseline(0.0, "")
  }

  /** The part of the time state the scheduler reads. */
  datatype TimeState = TimeState(beats: real, quantum: real)

  /** One scene domain of the control state: its library, the active scene and
      its auto settings. */
  datatype Domain = Domain(lib: Library, active: string, auto: AutoConfig)

  /** The length of one auto-scene period, in beats. */
  function BeatsPerScene(next: TimeState, auto: AutoConfig): (bps: real)
    ensures 0.0 <= next.quantum && 0.0 <= auto.period ==> 0.0 <= bps
    ensures 0.0 < next.quantum ==> (auto.period <= 0.0 <==> bps <= 0.0)
  {
    next.quantum * auto.period
  }

  /** The baseline after an active scene other than the recorded one has been
      seen: the active scene, started now. An unchanged scene keeps its baseline. */
  function Rearm(active: string, now: real, b: Baseline): (r: Baseline)
    ensures r.scene == active
    ensures b.scene == active ==> r == b
    ensures b.scene != active ==> r.beats == now
  {
    if active != b.scene then Baseline(now, active) else b
  }

  /** Re-arming twice with the same scene is re-arming once, whatever the later beat. */
  lemma RearmIdempotent(active: string, now: real, later: real, b: Baseline)
    ensures Rearm(active, later, Rearm(active, now, b)) == Rearm(active, now, b)
  {
  }

  /** Whether to switch now, and the baseline after the check. */
  datatype Decision = Decision(switch: bool, baseline: Baseline)

  /** `isNewScene`: re-arms the baseline, then decides. `newPeriod` stands for
      `isNewPeriod(last, next, length)`, whose code is not part of this model. */
  function NewSceneDecision(active: string, beatsLast: real, next: TimeState, auto: AutoConfig,
                            b: Baseline, newPeriod: (real, real, real) -> bool): (d: Decision)
    ensures d.baseline.scene == active
    ensures b.scene == active ==> d.baseline == b
    ensures b.scene != active ==> d.baseline.beats == next.beats
    ensures !auto.enabled ==> !d.switch
    ensures d.switch ==> newPeriod(beatsLast, next.beats, BeatsPerScene(next, auto))
    ensures d.switch ==> next.beats - d.baseline.beats > BeatsPerScene(next, auto)
    ensures (auto.enabled && newPeriod(beatsLast, next.beats, BeatsPerScene(next, auto))
             && next.beats - d.baseline.beats > BeatsPerScene(next, auto)) ==> d.switch
  {
    var bps := BeatsPerScene(next, auto);
    var r := Rearm(active, next.beats, b);
    Decision(auto.enabled && newPeriod(beatsLast, next.beats, bps) && next.beats - r.beats > bps, r)
  }

  /** A scene change made outside the scheduler is absorbed: on the update that
      first sees it no switch happens, as long as the period is not negative. */
  lemma OverrideAbsorbed(active: string, beatsLast: real, next: TimeState, auto: AutoConfig,
                         b: Baseline, newPeriod: (real, real, real) -> bool)
    requires b.scene != active
    requires 0.0 <= BeatsPerScene(next, auto)
    ensures !NewSceneDecision(active, beatsLast, next, auto, b, newPeriod).switch
    ensures NewSceneDecision(active, beatsLast, next, auto, b, newPeriod).baseline == Baseline(next.beats, active)
  {
    var d := NewSceneDecision(active, beatsLast, next, auto, b, newPeriod);
    assert next.beats - d.baseline.beats == 0.0;
  }

  /** Light candidates: the ids, in order, of auto-enabled scenes within 0.15 of
      the auto epicness. */
  function LightCandidates(d: Domain): (r: seq<string>)
    ensures forall i :: 0 <= i < |r| ==> r[i] in d.lib.ids && AutoCandidate(d.lib, r[i], d.auto.epicness, 0.15)
    ensures forall i :: 0 <= i < |d.lib.ids| && AutoCandidate(d.lib, d.lib.ids[i], d.auto.epicness, 0.15) ==>
      d.lib.ids[i] in r
    ensures multiset(r) <= multiset(d.lib.ids)
  {
    CandidatesNear(d.lib, d.auto.epicness, 0.15)
  }

  /** A scene that can be chosen automatically whatever the epicness. */
  predicate AutoEnabledScene(lib: Library, id: string)
  {
    id in lib.byId && lib.byId[id].autoEnabled
  }

  /** Visual candidates: the ids, in order, of auto-enabled scenes; epicness plays
      no part. */
  function VisualCandidates(d: Domain): (r: seq<string>)
    ensures forall i :: 0 <= i < |r| ==> r[i] in d.lib.ids && AutoEnabledScene(d.lib, r[i])
    ensures forall i :: 0 <= i < |d.lib.ids| && AutoEnabledScene(d.lib, d.lib.ids[i]) ==> d.lib.ids[i] in r
    ensures multiset(r) <= multiset(d.lib.ids)
  {
    Filter(d.lib.ids, id => AutoEnabledScene(d.lib, id))
  }

  /** The visual candidates do not depend on the active scene or the auto settings. */
  lemma VisualCandidatesIgnoreAuto(d: Domain, active: string, auto: AutoConfig)
    ensures VisualCandidates(Domain(d.lib, active, auto)) == VisualCandidates(d)
  {
  }

  /** Every light candidate is also a visual-style candidate: the light filter only
      adds the epicness test. */
  lemma {:induction false} LightWithinAutoEnabled(d: Domain)
    ensures LightCandidates(d) == Filter(VisualCandidates(d), id => AutoCandidate(d.lib, id, d.auto.epicness, 0.15))
  {
    FilterOfFilter(d.lib.ids, id => AutoEnabledScene(d.lib, id),
                   id => AutoCandidate(d.lib, id, d.auto.epicness, 0.15));
  }

  /** Filtering by a weaker test first does not change a filter by a stronger one. */
  lemma {:induction false} FilterOfFilter(s: seq<string>, weak: string -> bool, strong: string -> bool)
    requires forall x :: strong(x) ==> weak(x)
    ensures Filter(s, strong) == Filter(Filter(s, weak), strong)
  {
    if s != [] {
      FilterOfFilter(s[1..], weak, strong);
    }
  }

  /** What one domain's update emits (the callback's argument) and its new baseline. */
  datatype Step = Step(emitted: Option<string>, baseline: Baseline)

  /** One domain's update: decide, and on a switch pick a candidate and record it
      as the baseline scene. With no candidate at all nothing is emitted. */
  function DomainStep(d: Domain, candidates: seq<string>, beatsLast: real, next: TimeState, b: Baseline,
                      newPeriod: (real, real, real) -> bool, pick: (seq<string>, string) -> string): (s: Step)
    ensures s.emitted.Some? <==> NewSceneDecision(d.active, beatsLast, next, d.auto, b, newPeriod).switch && |candidates| > 0
    ensures s.emitted.None? ==> s.baseline == Rearm(d.active, next.beats, b)
    ensures s.emitted.Some? ==> s.baseline == Baseline(Rearm(d.active, next.beats, b).beats, s.emitted.value)
    ensures !d.auto.enabled ==> s.emitted.None?
  {
    var dec := NewSceneDecision(d.active, beatsLast, next, d.auto, b, newPeriod);
    if dec.switch && |candidates| > 0 then
      var scene := pick(candidates, d.active);
      Step(Some(scene), dec.baseline.(scene := scene))
    else
      Step(None, dec.baseline)
  }

  /** With a chooser that picks a member, an emitted scene is one of the candidates. */
  lemma EmittedIsCandidate(d: Domain, candidates: seq<string>, beatsLast: real, next: TimeState, b: Baseline,
                           newPeriod: (real, real, real) -> bool, pick: (seq<string>, string) -> string)
    requires PicksMember(pick)
    ensures DomainStep(d, candidates, beatsLast, next, b, newPeriod, pick).emitted.Some? ==>
      DomainStep(d, candidates, beatsLast, next, b, newPeriod, pick).emitted.value in candidates
  {
  }

  /** A scene the scheduler switched to is not taken for an outside change when it
      becomes active: the next update keeps the baseline, so the new scene's
      period is still counted from the previous baseline beat. */
  lemma OwnSwitchKeepsBaseline(d: Domain, candidates: seq<string>, beatsLast: real, next: TimeState, b: Baseline,
                               newPeriod: (real, real, real) -> bool, pick: (seq<string>, string) -> string,
                               later: real)
    requires DomainStep(d, candidates, beatsLast, next, b, newPeriod, pick).emitted.Some?
    ensures var s := DomainStep(d, candidates, beatsLast, next, b, newPeriod, pick);
      Rearm(s.emitted.value, later, s.baseline) == s.baseline
  {
  }

  /** The mutable `UserModified` record of one domain. */
  class UserModified {
    var beats: real
    var scene: string

    function View(): Baseline
      reads this
    {
      Baseline(beats, scene)
    }

    constructor ()
      ensures View() == InitBaseline()
    {
      beats := 0.0;
      scene := "";
    }

    /** `isNewScene`: re-arms this record in place and answers the decision. */
    method IsNewScene(active: string, beatsLast: real, next: TimeState, auto: AutoConfig,
                      newPeriod: (real, real, real) -> bool) returns (switch: bool)
      modifies this
      ensures var d := NewSceneDecision(active, beatsLast, next, auto, old(View()), newPeriod);
        switch == d.switch && View() == d.baseline
    {
      var bps := BeatsPerScene(next, auto);
      ghost var before := View();
      if active != scene {
        scene := active;
        beats := next.beats;
      }
      switch := false;
      if auto.enabled {
        if newPeriod(beatsLast, next.beats, bps) {
          if next.beats - beats > bps {
            switch := true;
          }
        }
      }
      assert View() == Rearm(active, next.beats, before);
    }
  }

  /** The module-level pair of records, one per domain. */
  class Scheduler {
    const light: UserModified
    const visual: UserModified

    predicate Valid()
      reads this
    {
      light != visual
    }

    constructor ()
      ensures Valid() && fresh(light) && fresh(visual)
      ensures light.View() == InitBaseline() && visual.View() == InitBaseline()
    {
      light := new UserModified();
      visual := new UserModified();
    }

    /** `handleAutoScene`: updates each domain's record from that domain alone and
        returns the ids handed to the two callbacks. */
    method HandleAutoScene(beatsLast: real, next: TimeState, lightDomain: Domain, visualDomain: Domain,
                           newPeriod: (real, real, real) -> bool, pick: (seq<string>, string) -> string)
      returns (newLight: Option<string>, newVisual: Option<string>)
      requires Valid()
      modifies light, visual
      ensures var s := DomainStep(lightDomain, LightCandidates(lightDomain), beatsLast, next,
                                  old(light.View()), newPeriod, pick);
        newLight == s.emitted && light.View() == s.baseline
      ensures var s := DomainStep(visualDomain, VisualCandidates(visualDomain), beatsLast, next,
                                  old(visual.View()), newPeriod, pick);
        newVisual == s.emitted && visual.View() == s.baseline
    {
      var lightIds := LightCandidates(lightDomain);
      newLight := None;
      var switchLight := light.IsNewScene(lightDomain.active, beatsLast, next, lightDomain.auto, newPeriod);
      if switchLight && |lightIds| > 0 {
        var scene := pick(lightIds, lightDomain.active);
        light.scene := scene;
        newLight := Some(scene);
      }

      var visualIds := VisualCandidates(visualDomain);
      newVisual := None;
      var switchVisual := visual.IsNewScene(visualDomain.active, beatsLast, next, visualDomain.auto, newPeriod);
      if switchVisual && |visualIds| > 0 {
        var scene := pick(visualIds, visualDomain.active);
        visual.scene := scene;
        newVisual := Some(scene);
      }
    }
  }
}
