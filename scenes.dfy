/** The scene records both the beat-driven scheduler and the scene-control
    panel work on: a scene library (ordered ids and their descriptions), the
    auto-scene settings, and the injected random chooser. */
module Scenes {
  import opened Util

  /** What the scheduler and the panel read of a scene. */
  datatype SceneInfo = SceneInfo(name: string, epicness: real, autoEnabled: bool)

  /** The ordered scene ids and the scenes they name; an id need not be present
      in `byId`. */
  datatype Library = Library(ids: seq<string>, byId: map<string, SceneInfo>)

  /** The auto-scene settings of one scene type. */
  datatype AutoConfig = AutoConfig(enabled: bool, epicness: real, period: real)

  /** A scene with auto enabled whose epicness is within `tolerance` of `level`. */
  predicate AutoCandidate(lib: Library, id: string, level: real, tolerance: real)
  {
    id in lib.byId && lib.byId[id].autoEnabled && Abs(lib.byId[id].epicness - level) < tolerance
  }

  /** The ids of `lib`, in order, that are auto candidates near `level`. */
  function CandidatesNear(lib: Library, level: real, tolerance: real): (r: seq<string>)
    ensures forall i :: 0 <= i < |r| ==> r[i] in lib.ids && AutoCandidate(lib, r[i], level, tolerance)
    ensures forall i :: 0 <= i < |lib.ids| && AutoCandidate(lib, lib.ids[i], level, tolerance) ==>
      lib.ids[i] in r
    ensures multiset(r) <= multiset(lib.ids)
  {
    Filter(lib.ids, id => AutoCandidate(lib, id, level, tolerance))
  }

  /** A chooser standing for `randomElementExcludeCurrent`, whose code is not part
      of this model: all that is relied on is that from a non-empty list it
      returns one of the list's elements. */
  ghost predicate PicksMember(pick: (seq<string>, string) -> string)
  {
    forall ids: seq<string>, current: string :: |ids| > 0 ==> pick(ids, current) in ids
  }

  /** JavaScript truthiness of an optional scene id: present and non-empty. */
  predicate Truthy(s: Option<string>)
  {
    s.Some? && s.value != ""
  }
}
