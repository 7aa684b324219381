/** The scene-control panel of one scene type, taken out of its React component:
    the scene categories chosen by name and epicness, the intro sequence that
    advances itself on the beat, and the keyboard commands. Every key event and
    every beat update is one atomic step on a `ControlState`. */
module AutoSceneControl {
  import opened Util
  import opened Scenes

  /** A beat count bound from the intro table; the last entry is unbounded. */
  datatype Bound = Finite(beats: real) | Infinite

  /** How many beats each intro scene lasts before the next one takes over. */
  const IntroBeats: seq<Bound> :=
    [Finite(32.0), Finite(27.0), Finite(1.0), Finite(4.0), Finite(32.0), Finite(26.0), Finite(5.0), Infinite]

  /** The table entry for intro index `i`; an index past the table is unbounded. */
  function IntroBeatsAt(i: nat): (b: Bound)
    ensures i >= 7 ==> b == Infinite
    ensures i < 7 ==> b.Finite? && b.beats >= 1.0
  {
    if i < |IntroBeats| then IntroBeats[i] else Infinite
  }

  /** `elapsed > bound`, where nothing exceeds an unbounded entry. */
  predicate Exceeds(elapsed: real, b: Bound)
  {
    b.Finite? && elapsed > b.beats
  }

  /** The panel's state: the store's active scene and auto settings, the scene
      to go back to, the remembered special scene, and the beat the current
      intro scene started at (-1 when the intro is not being tracked). */
  datatype ControlState = ControlState(
    active: string,
    enabled: bool,
    epicness: real,
    period: real,
    prevScene: Option<string>,
    specialScene: Option<string>,
    introChangeBeat: real)

  /** The panel's own state when it first appears over a store state. */
  function InitControl(active: string, auto: AutoConfig): (c: ControlState)
    ensures c.active == active && c.enabled == auto.enabled
    ensures c.epicness == auto.epicness && c.period == auto.period
    ensures c.prevScene == None && c.specialScene == None && c.introChangeBeat == 0.0
  {
    ControlState(active, auto.enabled, auto.epicness, auto.period, None, None, 0.0)
  }

  /** The categories dereference every id's scene, so every id must have one. */
  predicate Indexed(lib: Library)
  {
    forall i :: 0 <= i < |lib.ids| ==> lib.ids[i] in lib.byId
  }

  /** The name and epicness based scene categories. */
  datatype Category = StrobeCat | LightsOnDj | CloseDisco | CloseLaser | CloseStrobe

  /** Whether scene `id` belongs to category `cat` when the panel's epicness is `ep`. */
  predicate InCategory(lib: Library, id: string, cat: Category, ep: real)
  {
    id in lib.byId &&
    var s := lib.byId[id];
    match cat
    case StrobeCat => Contains(s.name, "STROBE")
    case LightsOnDj => Contains(s.name, "Lights on the DJ")
    case CloseDisco => Contains(s.name, "DISCO") && Abs(s.epicness - ep) < 0.2
    case CloseLaser => Contains(s.name, "lasers") && Abs(s.epicness - ep) < 0.13
    case CloseStrobe => Contains(AsciiLower(s.name), "strobe") && Abs(s.epicness - ep) < 0.2
  }

  /** The ids of a category, in library order. */
  function CategoryScenes(lib: Library, cat: Category, ep: real): (r: seq<string>)
    ensures forall i :: 0 <= i < |r| ==> r[i] in lib.ids && InCategory(lib, r[i], cat, ep)
    ensures forall i :: 0 <= i < |lib.ids| && InCategory(lib, lib.ids[i], cat, ep) ==> lib.ids[i] in r
    ensures multiset(r) <= multiset(lib.ids)
  {
    Filter(lib.ids, id => InCategory(lib, id, cat, ep))
  }

  /** A scene whose name marks it as part of the intro. */
  predicate IsIntro(lib: Library, id: string)
  {
    id in lib.byId && Contains(lib.byId[id].name, "INTRO")
  }

  /** The intro scenes, in library order; the epicness plays no part. */
  function IntroScenes(lib: Library): (r: seq<string>)
    ensures forall i :: 0 <= i < |r| ==> r[i] in lib.ids && IsIntro(lib, r[i])
    ensures forall i :: 0 <= i < |lib.ids| && IsIntro(lib, lib.ids[i]) ==> lib.ids[i] in r
    ensures multiset(r) <= multiset(lib.ids)
  {
    Filter(lib.ids, id => IsIntro(lib, id))
  }

  /** The first id whose scene is named exactly "OFF". */
  function OffScene(ids: seq<string>, byId: map<string, SceneInfo>): (r: Option<string>)
    ensures r.Some? ==> r.value in ids && r.value in byId && byId[r.value].name == "OFF"
    ensures r.None? ==> forall i :: 0 <= i < |ids| && ids[i] in byId ==> byId[ids[i]].name != "OFF"
    ensures r.Some? ==> exists i :: 0 <= i < |ids| && ids[i] == r.value &&
                                 forall j :: 0 <= j < i && ids[j] in byId ==> byId[ids[j]].name != "OFF"
  {
    if ids == [] then None
    else if ids[0] in byId && byId[ids[0]].name == "OFF" then
      Some(ids[0])
    else
      var r := OffScene(ids[1..], byId);
      if r.Some? then
        assert forall j :: 0 < j < |ids| ==> ids[j] == ids[1..][j - 1];
        Some(r.value)
      else r
  }

  /** `introScenes[i]` is truthy: in range and not the empty id. */
  predicate Present(intro: seq<string>, i: int)
  {
    0 <= i < |intro| && intro[i] != ""
  }

  /** `Math.floor(rand * n)` for `rand` in [0,1): an index into a list of `n`. */
  function RandomIndex(rand: real, n: nat): (k: nat)
    requires 0.0 <= rand < 1.0 && n > 0
    ensures k < n
    ensures k as real <= rand * n as real < k as real + 1.0
  {
    ScaledBelow(rand, n as real);
    FloorBelow(rand * n as real, n);
    (rand * n as real).Floor
  }

  lemma FloorBelow(x: real, n: nat)
    requires 0.0 <= x < n as real
    ensures 0 <= x.Floor < n
    ensures x.Floor as real <= x < x.Floor as real + 1.0
  {
  }

  lemma ScaledBelow(rand: real, n: real)
    requires 0.0 <= rand < 1.0 && n > 0.0
    ensures 0.0 <= rand * n < n
  {
    assert n - rand * n == (1.0 - rand) * n;
  }

  /** The intro effect, run on every beat or scene change: outside the intro the
      tracking is switched off; while tracking, once the current intro scene has
      lasted longer than its table entry, the next intro scene (if there is one)
      becomes active and tracking restarts at this beat. */
  function IntroTick(c: ControlState, lib: Library, beats: real): (r: ControlState)
    ensures r.enabled == c.enabled && r.epicness == c.epicness && r.period == c.period
    ensures r.prevScene == c.prevScene && r.specialScene == c.specialScene
    ensures c.active !in IntroScenes(lib) ==> r == c.(introChangeBeat := -1.0)
    ensures c.active in IntroScenes(lib) && r != c ==>
      var idx := IndexOf(IntroScenes(lib), c.active);
      c.introChangeBeat > -1.0 && Exceeds(beats - c.introChangeBeat, IntroBeatsAt(idx)) &&
      Present(IntroScenes(lib), idx + 1) &&
      r == c.(active := IntroScenes(lib)[idx + 1], introChangeBeat := beats)
  {
    var intro := IntroScenes(lib);
    var idx := IndexOf(intro, c.active);
    if idx < 0 then
      c.(introChangeBeat := -1.0)
    else if c.introChangeBeat > -1.0 && Exceeds(beats - c.introChangeBeat, IntroBeatsAt(idx)) then
      if !Present(intro, idx + 1) || c.active !in intro then c
      else c.(active := intro[idx + 1], introChangeBeat := beats)
    else c
  }

  /** The converse: a tracked intro scene that has outlasted its entry and has a
      successor always hands over to it. */
  lemma IntroTickAdvances(c: ControlState, lib: Library, beats: real, idx: nat)
    requires idx < |IntroScenes(lib)| && IntroScenes(lib)[idx] == c.active
    requires forall j :: 0 <= j < idx ==> IntroScenes(lib)[j] != c.active
    requires c.introChangeBeat > -1.0 && Exceeds(beats - c.introChangeBeat, IntroBeatsAt(idx))
    requires Present(IntroScenes(lib), idx + 1)
    ensures IntroTick(c, lib, beats).active == IntroScenes(lib)[idx + 1]
    ensures IntroTick(c, lib, beats).introChangeBeat == beats
  {
    assert IndexOf(IntroScenes(lib), c.active) == idx;
  }

  /** The eighth intro scene, and any after it, is never left automatically. */
  lemma NoAdvanceFromLastEntry(c: ControlState, lib: Library, beats: real)
    requires IndexOf(IntroScenes(lib), c.active) >= 7
    ensures IntroTick(c, lib, beats).active == c.active
  {
  }

  /** A run of intro ticks, one per beat update. */
  function IntroTicks(c: ControlState, lib: Library, beats: seq<real>): ControlState
    decreases |beats|
  {
    if beats == [] then c else IntroTicks(IntroTick(c, lib, beats[0]), lib, beats[1..])
  }

  /** With distinct intro ids, a run of intro ticks only moves forward through the
      intro and, started at or before the eighth intro scene, never passes it. */
  lemma {:induction false} IntroTicksMoveForward(c: ControlState, lib: Library, beats: seq<real>)
    requires forall i, j :: 0 <= i < j < |IntroScenes(lib)| ==> IntroScenes(lib)[i] != IntroScenes(lib)[j]
    requires c.active in IntroScenes(lib)
    ensures IntroTicks(c, lib, beats).active in IntroScenes(lib)
    ensures IndexOf(IntroScenes(lib), IntroTicks(c, lib, beats).active) >= IndexOf(IntroScenes(lib), c.active)
    ensures IndexOf(IntroScenes(lib), c.active) <= 7 ==> IndexOf(IntroScenes(lib), IntroTicks(c, lib, beats).active) <= 7
    decreases |beats|
  {
    if beats != [] {
      var intro := IntroScenes(lib);
      var c1 := IntroTick(c, lib, beats[0]);
      if c1.active != c.active {
        var idx := IndexOf(intro, c.active);
        assert IndexOf(intro, c1.active) == idx + 1 by {
          DistinctIndexOf(intro, idx + 1);
        }
        assert idx < 7 by {
          if idx >= 7 { NoAdvanceFromLastEntry(c, lib, beats[0]); }
        }
      }
      IntroTicksMoveForward(c1, lib, beats[1..]);
    }
  }

  lemma DistinctIndexOf(s: seq<string>, i: nat)
    requires forall a, b :: 0 <= a < b < |s| ==> s[a] != s[b]
    requires i < |s|
    ensures IndexOf(s, s[i]) == i
  {
  }

  /** `newSceneFromEpicness(level)`: going back to the remembered scene when the
      level is the panel's current epicness; otherwise forgetting the special
      scene and choosing among the auto scenes within 0.1 of the level. */
  function NewSceneFromEpicness(c: ControlState, lib: Library, level: real,
                                pick: (seq<string>, string) -> string): (r: ControlState)
    ensures r.enabled == c.enabled && r.epicness == c.epicness && r.period == c.period
    ensures r.introChangeBeat == c.introChangeBeat
    ensures Truthy(c.prevScene) && level == c.epicness ==>
      r.active == c.prevScene.value && r.prevScene == None && r.specialScene == c.specialScene
    ensures !(Truthy(c.prevScene) && level == c.epicness) ==>
      r.prevScene == c.prevScene && !Truthy(r.specialScene) &&
      (if |CandidatesNear(lib, level, 0.1)| == 0 then r.active == c.active
       else r.active == pick(CandidatesNear(lib, level, 0.1), c.active))
  {
    if Truthy(c.prevScene) && level == c.epicness then
      c.(active := c.prevScene.value, prevScene := None)
    else
      var c1 := if Truthy(c.specialScene) then c.(specialScene := None) else c;
      var possible := CandidatesNear(lib, level, 0.1);
      if |possible| > 0 then c1.(active := pick(possible, c.active)) else c1
  }

  /** With a chooser that picks a member, a new scene chosen by epicness is an
      auto-enabled scene within 0.1 of the level. */
  lemma NewSceneIsNearLevel(c: ControlState, lib: Library, level: real, pick: (seq<string>, string) -> string)
    requires PicksMember(pick)
    requires !(Truthy(c.prevScene) && level == c.epicness)
    requires NewSceneFromEpicness(c, lib, level, pick).active != c.active
    ensures AutoCandidate(lib, NewSceneFromEpicness(c, lib, level, pick).active, level, 0.1)
  {
    var possible := CandidatesNear(lib, level, 0.1);
    var a := pick(possible, c.active);
    var i :| 0 <= i < |possible| && possible[i] == a;
  }

  /** The keys the panel tells apart. `Char` is a key that types one character;
      `OtherKey` is any other named key. */
  datatype Key = Enter | Escape | ArrowUp | ArrowDown | Char(c: char) | OtherKey(name: string)

  /** Each key value has one form: a one-character key is always a `Char`, the
      four named keys have their own constructors, and no other name starts with
      a digit or a space (so none parses as a number). */
  predicate Canonical(k: Key)
  {
    k.OtherKey? ==>
      |k.name| != 1 && k.name !in {"Enter", "Escape", "ArrowUp", "ArrowDown"} &&
      (|k.name| > 0 ==> !('0' <= k.name[0] <= '9') && k.name[0] != ' ')
  }

  /** A key value as a keyboard event delivers it. */
  type KeyValue = k: Key | Canonical(k) witness Enter

  predicate IsDigit(k: Key)
  {
    k.Char? && '0' <= k.c <= '9'
  }

  /** The epicness level a digit key selects: '0' is 1.0, 'k' is (k-1)/10. */
  function DigitLevel(k: Key): (level: real)
    requires IsDigit(k)
    ensures k.c == '0' ==> level == 1.0
    ensures k.c != '0' ==> level == ((k.c as int - '0' as int) - 1) as real / 10.0
    ensures 0.0 <= level <= 1.0
  {
    var num := k.c as int - '0' as int;
    (if num == 0 then 10 else num - 1) as real / 10.0
  }

  /** Enter with a non-empty intro: the next intro scene, or the first one when the
      active scene is the last, is not an intro scene, or the next id is empty. */
  function EnterTarget(intro: seq<string>, active: string): (i: nat)
    requires |intro| > 0
    ensures i < |intro|
    ensures active in intro && Present(intro, IndexOf(intro, active) + 1) ==> i == IndexOf(intro, active) + 1
    ensures !(active in intro && Present(intro, IndexOf(intro, active) + 1)) ==> i == 0
  {
    var next := IndexOf(intro, active) + 1;
    if !Present(intro, next) || active !in intro then 0 else next
  }

  /** A special key on a non-empty category: bring back the remembered special
      scene when it is in the category and not active; otherwise choose a
      category member at random, remember it as the special scene, remember the
      active scene to go back to, and turn auto off. */
  function SpecialKey(c: ControlState, cat: seq<string>, rand: real): (r: ControlState)
    requires |cat| > 0 && 0.0 <= rand < 1.0
    ensures r.epicness == c.epicness && r.period == c.period && r.introChangeBeat == c.introChangeBeat
    ensures r.prevScene == Some(c.active)
    ensures r.active in cat
    ensures Truthy(c.specialScene) && c.specialScene.value in cat && c.active != c.specialScene.value ==>
      r.active == c.specialScene.value && r.specialScene == c.specialScene && r.enabled == c.enabled
    ensures !(Truthy(c.specialScene) && c.specialScene.value in cat && c.active != c.specialScene.value) ==>
      r.specialScene == Some(r.active) && !r.enabled && r.active == cat[RandomIndex(rand, |cat|)]
  {
    if Truthy(c.specialScene) && c.specialScene.value in cat && c.active != c.specialScene.value then
      c.(prevScene := Some(c.active), active := c.specialScene.value)
    else
      var scene := cat[RandomIndex(rand, |cat|)];
      c.(prevScene := Some(c.active), specialScene := Some(scene), enabled := false, active := scene)
  }

  /** The category a special key toggles, if any. */
  function SpecialCategory(k: Key): Option<Category>
  {
    if k == Char('s') then Some(StrobeCat)
    else if k == Char(' ') then Some(CloseStrobe)
    else if k == Char('l') then Some(CloseLaser)
    else if k == Char('d') then Some(CloseDisco)
    else None
  }

  /** The key-down handler. A repeated event does nothing; Enter steps through the
      intro; every other key first stops intro tracking. */
  function KeyDown(c: ControlState, lib: Library, k: KeyValue, repeat: bool, beats: real, rand: real,
                   pick: (seq<string>, string) -> string): (r: ControlState)
    requires Indexed(lib) && 0.0 <= rand < 1.0
    ensures repeat ==> r == c
    ensures !repeat && k == Enter && |IntroScenes(lib)| > 0 ==>
      r.active in IntroScenes(lib) && r.active == IntroScenes(lib)[EnterTarget(IntroScenes(lib), c.active)] &&
      !r.enabled && r.introChangeBeat == beats && r.epicness == c.epicness && r.period == c.period
    ensures !repeat && !(k == Enter && |IntroScenes(lib)| > 0) ==> r.introChangeBeat == -1.0
    ensures c.period >= 1.0 ==> r.period >= 1.0
  {
    var intro := IntroScenes(lib);
    if repeat then c
    else if k == Enter && |intro| > 0 then EnterKey(c, intro, beats)
    else CommandKey(c.(introChangeBeat := -1.0), lib, k, rand, pick)
  }

  /** Enter on a non-empty intro: activate the target intro scene, turn auto off
      and start tracking the intro at this beat. */
  function EnterKey(c: ControlState, intro: seq<string>, beats: real): (r: ControlState)
    requires |intro| > 0
    ensures r.active in intro && r.active == intro[EnterTarget(intro, c.active)]
    ensures r == c.(active := r.active, enabled := false, introChangeBeat := beats)
  {
    c.(active := intro[EnterTarget(intro, c.active)], enabled := false, introChangeBeat := beats)
  }

  /** Any key but a repeat or an intro Enter, after intro tracking has stopped.
      The handler reads the epicness of the render it was created in, so a digit
      chooses its scene against the epicness from before the key. A command key
      whose category is empty (or, for Escape, with no OFF scene) does nothing. */
  function CommandKey(c: ControlState, lib: Library, k: Key, rand: real,
                      pick: (seq<string>, string) -> string): (r: ControlState)
    requires Indexed(lib) && 0.0 <= rand < 1.0
    ensures r.introChangeBeat == c.introChangeBeat
    ensures k != ArrowUp && k != ArrowDown ==> r.period == c.period
  {
    if IsDigit(k) then DigitKey(c, lib, k, pick)
    else if SpecialCategory(k).Some? then
      var cat := CategoryScenes(lib, SpecialCategory(k).value, c.epicness);
      if |cat| > 0 then SpecialKey(c, cat, rand) else c
    else if k == Char('v') then DjKey(c, lib, rand)
    else if k == Char('a') then AutoKey(c, lib, pick)
    else if k == Escape then EscapeKey(c, lib)
    else if k == ArrowUp || k == ArrowDown then PeriodKey(c, k == ArrowUp)
    else c
  }

  /** A digit: set the epicness and enable auto, choosing a scene by the new level
      (against the old epicness). */
  function DigitKey(c: ControlState, lib: Library, k: Key, pick: (seq<string>, string) -> string): (r: ControlState)
    requires IsDigit(k)
    ensures r.epicness == DigitLevel(k) && r.enabled && r.period == c.period
    ensures r.introChangeBeat == c.introChangeBeat
    ensures r.(epicness := c.epicness, enabled := c.enabled) == NewSceneFromEpicness(c, lib, DigitLevel(k), pick)
  {
    var level := DigitLevel(k);
    NewSceneFromEpicness(c, lib, level, pick).(epicness := level, enabled := true)
  }

  /** `v`: a random "Lights on the DJ" scene, remembering the scene it left and
      turning auto off; the special scene is kept. */
  function DjKey(c: ControlState, lib: Library, rand: real): (r: ControlState)
    requires 0.0 <= rand < 1.0
    ensures |CategoryScenes(lib, LightsOnDj, c.epicness)| == 0 ==> r == c
    ensures |CategoryScenes(lib, LightsOnDj, c.epicness)| > 0 ==>
      r.active in CategoryScenes(lib, LightsOnDj, c.epicness) && !r.enabled &&
      r.prevScene == Some(c.active) && r.specialScene == c.specialScene
    ensures r.epicness == c.epicness && r.period == c.period && r.introChangeBeat == c.introChangeBeat
  {
    var dj := CategoryScenes(lib, LightsOnDj, c.epicness);
    if |dj| > 0 then c.(prevScene := Some(c.active), enabled := false, active := dj[RandomIndex(rand, |dj|)])
    else c
  }

  /** `a`: turn auto off when on; when off, turn it on and choose a scene at the
      current epicness. */
  function AutoKey(c: ControlState, lib: Library, pick: (seq<string>, string) -> string): (r: ControlState)
    ensures r.enabled == !c.enabled
    ensures c.enabled ==> r == c.(enabled := false)
    ensures !c.enabled ==> r == NewSceneFromEpicness(c.(enabled := true), lib, c.epicness, pick)
    ensures r.epicness == c.epicness && r.period == c.period && r.introChangeBeat == c.introChangeBeat
  {
    if !c.enabled then NewSceneFromEpicness(c.(enabled := true), lib, c.epicness, pick)
    else c.(enabled := false)
  }

  /** Escape: the OFF scene, with auto off, when there is one. */
  function EscapeKey(c: ControlState, lib: Library): (r: ControlState)
    ensures !Truthy(OffScene(lib.ids, lib.byId)) ==> r == c
    ensures Truthy(OffScene(lib.ids, lib.byId)) ==>
      !r.enabled && r.active in lib.byId && lib.byId[r.active].name == "OFF" &&
      r == c.(enabled := false, active := r.active)
  {
    var off := OffScene(lib.ids, lib.byId);
    if Truthy(off) then c.(enabled := false, active := off.value) else c
  }

  /** The arrows: double the period, or halve it but not below one beat. */
  function PeriodKey(c: ControlState, up: bool): (r: ControlState)
    ensures r == c.(period := r.period)
    ensures up ==> r.period == c.period * 2.0
    ensures !up ==> r.period >= 1.0
    ensures !up && c.period >= 2.0 ==> r.period == c.period / 2.0
    ensures !up && c.period <= 2.0 ==> r.period == 1.0
  {
    if up then c.(period := c.period * 2.0) else c.(period := Max(c.period / 2.0, 1.0))
  }

  /** Enter on the last intro scene wraps round to the first. */
  lemma EnterWrapsFromLast(c: ControlState, lib: Library, beats: real, rand: real,
                           pick: (seq<string>, string) -> string)
    requires Indexed(lib) && 0.0 <= rand < 1.0
    requires |IntroScenes(lib)| > 0 && IndexOf(IntroScenes(lib), c.active) == |IntroScenes(lib)| - 1
    ensures KeyDown(c, lib, Enter, false, beats, rand, pick).active == IntroScenes(lib)[0]
  {
  }

  /** The key-up handler: releasing space while a strobe scene is active turns auto
      back on and goes back to the remembered scene or one near the epicness. */
  function KeyUp(c: ControlState, lib: Library, k: KeyValue, pick: (seq<string>, string) -> string): (r: ControlState)
    requires Indexed(lib)
    ensures k != Char(' ') ==> r == c
    ensures (k == Char(' ') && (c.active in CategoryScenes(lib, StrobeCat, c.epicness)
                                || c.active in CategoryScenes(lib, CloseStrobe, c.epicness))) ==>
      r.enabled && r == NewSceneFromEpicness(c.(enabled := true), lib, c.epicness, pick)
    ensures (k == Char(' ') && !(c.active in CategoryScenes(lib, StrobeCat, c.epicness)
                                 || c.active in CategoryScenes(lib, CloseStrobe, c.epicness))) ==>
      r == c
    ensures r.epicness == c.epicness && r.period == c.period && r.introChangeBeat == c.introChangeBeat
  {
    if k == Char(' ') && (c.active in CategoryScenes(lib, StrobeCat, c.epicness)
                          || c.active in CategoryScenes(lib, CloseStrobe, c.epicness)) then
      NewSceneFromEpicness(c.(enabled := true), lib, c.epicness, pick)
    else c
  }

  /** Releasing space on a strobe scene that was reached by a special key returns
      to the scene that was active before it. */
  lemma SpaceReleaseReturns(c: ControlState, lib: Library, pick: (seq<string>, string) -> string)
    requires Indexed(lib)
    requires c.active in CategoryScenes(lib, CloseStrobe, c.epicness)
    requires Truthy(c.prevScene)
    ensures var r := KeyUp(c, lib, Char(' '), pick);
      r.enabled && r.active == c.prevScene.value && r.prevScene == None
  {
  }

  /** The panel as a mutable object: the component's state, the intro-beat ref and
      the store fields it writes, updated step by step by the handlers. */
  class SceneControl {
    var active: string
    var enabled: bool
    var epicness: real
    var period: real
    var prevScene: Option<string>
    var specialScene: Option<string>
    var introChangeBeat: real

    function View(): ControlState
      reads this
    {
      ControlState(active, enabled, epicness, period, prevScene, specialScene, introChangeBeat)
    }

    constructor (active0: string, auto: AutoConfig)
      ensures View() == InitControl(active0, auto)
    {
      active := active0;
      enabled := auto.enabled;
      epicness := auto.epicness;
      period := auto.period;
      prevScene := None;
      specialScene := None;
      introChangeBeat := 0.0;
    }

    /** The intro effect for a new beat. */
    method OnBeat(lib: Library, beats: real)
      modifies this
      ensures View() == IntroTick(old(View()), lib, beats)
    {
      var intro := IntroScenes(lib);
      var idx := IndexOf(intro, active);
      if idx < 0 {
        introChangeBeat := -1.0;
        return;
      }
      if introChangeBeat > -1.0 && Exceeds(beats - introChangeBeat, IntroBeatsAt(idx)) {
        var next := idx + 1;
        if !Present(intro, next) || active !in intro {
          return;
        }
        active := intro[next];
        introChangeBeat := beats;
      }
    }

    /** `newSceneFromEpicness`, reading the epicness the handler started with. */
    method NewSceneFrom(lib: Library, level: real, pick: (seq<string>, string) -> string)
      modifies this
      ensures View() == NewSceneFromEpicness(old(View()), lib, level, pick)
    {
      ghost var c := View();
      if Truthy(prevScene) && level == epicness {
        active := prevScene.value;
        prevScene := None;
        return;
      }
      if Truthy(specialScene) {
        specialScene := None;
      }
      var possible := CandidatesNear(lib, level, 0.1);
      if |possible| > 0 {
        active := pick(possible, active);
      }
      assert View() == NewSceneFromEpicness(c, lib, level, pick);
    }

    /** The shared special-key pattern. */
    method PressSpecial(cat: seq<string>, rand: real)
      requires |cat| > 0 && 0.0 <= rand < 1.0
      modifies this
      ensures View() == SpecialKey(old(View()), cat, rand)
    {
      if Truthy(specialScene) && specialScene.value in cat {
        if active != specialScene.value {
          prevScene := Some(active);
          active := specialScene.value;
          return;
        }
        specialScene := None;
      }
      var scene := cat[RandomIndex(rand, |cat|)];
      prevScene := Some(active);
      specialScene := Some(scene);
      enabled := false;
      active := scene;
    }

    /** The key-down listener. */
    method OnKeyDown(lib: Library, k: KeyValue, repeat: bool, beats: real, rand: real,
                     pick: (seq<string>, string) -> string)
      requires Indexed(lib) && 0.0 <= rand < 1.0
      modifies this
      ensures View() == KeyDown(old(View()), lib, k, repeat, beats, rand, pick)
    {
      if repeat {
        return;
      }
      ghost var c := View();
      var intro := IntroScenes(lib);
      if k == Enter && |intro| > 0 {
        OnEnter(intro, beats);
        return;
      }
      introChangeBeat := -1.0;
      assert View() == c.(introChangeBeat := -1.0);
      OnCommandKey(lib, k, rand, pick);
    }

    method OnEnter(intro: seq<string>, beats: real)
      requires |intro| > 0
      modifies this
      ensures View() == EnterKey(old(View()), intro, beats)
    {
      active := intro[EnterTarget(intro, active)];
      enabled := false;
      introChangeBeat := beats;
    }

    method OnCommandKey(lib: Library, k: Key, rand: real, pick: (seq<string>, string) -> string)
      requires Indexed(lib) && 0.0 <= rand < 1.0
      modifies this
      ensures View() == CommandKey(old(View()), lib, k, rand, pick)
    {
      if IsDigit(k) {
        OnDigit(lib, k, pick);
      } else if SpecialCategory(k).Some? {
        var cat := CategoryScenes(lib, SpecialCategory(k).value, epicness);
        if |cat| > 0 {
          PressSpecial(cat, rand);
        }
      } else if k == Char('v') {
        OnDj(lib, rand);
      } else if k == Char('a') {
        OnAuto(lib, pick);
      } else if k == Escape {
        OnEscape(lib);
      } else if k == ArrowUp || k == ArrowDown {
        OnArrow(k == ArrowUp);
      }
    }

    /** A digit key: the scene is chosen before the new epicness is stored. */
    method OnDigit(lib: Library, k: Key, pick: (seq<string>, string) -> string)
      requires IsDigit(k)
      modifies this
      ensures View() == DigitKey(old(View()), lib, k, pick)
    {
      var level := DigitLevel(k);
      NewSceneFrom(lib, level, pick);
      epicness := level;
      enabled := true;
    }

    method OnDj(lib: Library, rand: real)
      requires 0.0 <= rand < 1.0
      modifies this
      ensures View() == DjKey(old(View()), lib, rand)
    {
      var dj := CategoryScenes(lib, LightsOnDj, epicness);
      if |dj| > 0 {
        var scene := dj[RandomIndex(rand, |dj|)];
        prevScene := Some(active);
        enabled := false;
        active := scene;
      }
    }

    method OnAuto(lib: Library, pick: (seq<string>, string) -> string)
      modifies this
      ensures View() == AutoKey(old(View()), lib, pick)
    {
      if !enabled {
        enabled := true;
        NewSceneFrom(lib, epicness, pick);
      } else {
        enabled := false;
      }
    }

    method OnEscape(lib: Library)
      modifies this
      ensures View() == EscapeKey(old(View()), lib)
    {
      var off := OffScene(lib.ids, lib.byId);
      if Truthy(off) {
        enabled := false;
        active := off.value;
      }
    }

    method OnArrow(up: bool)
      modifies this
      ensures View() == PeriodKey(old(View()), up)
    {
      if up {
        period := period * 2.0;
      } else {
        period := Max(period / 2.0, 1.0);
      }
    }

    /** The key-up listener. */
    method OnKeyUp(lib: Library, k: KeyValue, pick: (seq<string>, string) -> string)
      requires Indexed(lib)
      modifies this
      ensures View() == KeyUp(old(View()), lib, k, pick)
    {
      if k == Char(' ') && (active in CategoryScenes(lib, StrobeCat, epicness)
                            || active in CategoryScenes(lib, CloseStrobe, epicness)) {
        enabled := true;
        NewSceneFrom(lib, epicness, pick);
      }
    }
  }
}
