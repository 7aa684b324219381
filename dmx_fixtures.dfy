/** DMX fixture data: channel descriptions, the built-in fixture types, the
    test universe, and the 512-slot universe map that records which fixture
    starts at which DMX channel. */
module DmxFixtures {
  import opened Util
  import DmxColors

  const DmxMaxValue: int := 255
  const DmxNumChannels: int := 512
  const DmxDefaultValue: int := 0

  /** The kinds of channel a fixture can have, including the three that no
      channel variant uses any more. */
  datatype ChannelType = ColorType | MasterType | StrobeType | SpeedType | PosType | WidthType | OtherType

  /** The channel kinds a fixture-type editor offers, in `channelTypes` order. */
  const ChannelTypes: seq<ChannelType> := [MasterType, ColorType, StrobeType, OtherType]

  /** One channel of a fixture type. */
  datatype FixtureChannel =
    | ChannelMaster
    | ChannelColor(color: DmxColors.Color)
    | ChannelStrobe(defaultStrobe: int, defaultSolid: int)
    | ChannelOther(default: int)

  /** The `type` tag each channel variant carries. */
  function TypeOf(c: FixtureChannel): ChannelType
  {
    match c
    case ChannelMaster => MasterType
    case ChannelColor(_) => ColorType
    case ChannelStrobe(_, _) => StrobeType
    case ChannelOther(_) => OtherType
  }

  /** The channel variants are exactly the offered channel kinds: every channel's
      tag is offered, and every offered kind is the tag of some channel. */
  lemma ChannelVariantsAreOffered()
    ensures forall c :: TypeOf(c) in ChannelTypes
    ensures forall t :: t in ChannelTypes ==> exists c :: TypeOf(c) == t
  {
    forall t | t in ChannelTypes ensures exists c :: TypeOf(c) == t {
      if t == MasterType {
        assert TypeOf(ChannelMaster) == t;
      } else if t == ColorType {
        assert TypeOf(ChannelColor(DmxColors.Red)) == t;
      } else if t == StrobeType {
        assert TypeOf(ChannelStrobe(0, 0)) == t;
      } else {
        assert TypeOf(ChannelOther(0)) == t;
      }
    }
  }

  /** A DMX value: an integer in 0..DmxMaxValue. */
  predicate IsDmxValue(v: int)
  {
    0 <= v <= DmxMaxValue
  }

  /** Every default value a channel carries is a DMX value. */
  predicate DefaultsInRange(c: FixtureChannel)
  {
    match c
    case ChannelStrobe(strobe, solid) => IsDmxValue(strobe) && IsDmxValue(solid)
    case ChannelOther(d) => IsDmxValue(d)
    case _ => true
  }

  datatype FixtureType = FixtureType(
    id: string,
    name: string,
    epicness: real,
    manufacturer: Option<string>,
    channels: seq<FixtureChannel>)

  /** A fixture type whose defaults are all DMX values. */
  predicate WellFormedType(t: FixtureType)
  {
    forall i :: 0 <= i < |t.channels| ==> DefaultsInRange(t.channels[i])
  }

  const ParFixture := FixtureType("1", "Par", 0.3, Some("YeeSaw"), [
    ChannelMaster,
    ChannelColor(DmxColors.Red),
    ChannelColor(DmxColors.Green),
    ChannelColor(DmxColors.Blue),
    ChannelColor(DmxColors.White),
    ChannelOther(0),
    ChannelStrobe(255, 0),
    ChannelOther(0)])

  const StringLightFixture := FixtureType("2", "Light String", 0.3, None, [ChannelMaster])

  const StrobeFixture := FixtureType("3", "Strobe", 0.8, Some("DragonX"), [
    ChannelMaster,
    ChannelStrobe(251, 0),
    ChannelOther(0)])

  const DerbyFixture := FixtureType("4", "Derby", 0.0, Some("Laluce Natz"), [
    ChannelMaster,
    ChannelColor(DmxColors.Red),
    ChannelColor(DmxColors.Green),
    ChannelColor(DmxColors.Blue),
    ChannelStrobe(220, 0),
    ChannelOther(130),
    ChannelOther(0)])

  const LaserFixture := FixtureType("5", "EL-400", 0.5, Some("Laser World"), [ChannelMaster])

  /** A fresh, empty fixture type; the generated id is a parameter. */
  function InitFixtureType(id: string): (t: FixtureType)
    ensures t.id == id && t.name == "" && t.epicness == 0.0 && t.channels == []
    ensures WellFormedType(t)
  {
    FixtureType(id, "", 0.0, None, [])
  }

  /** The ids of the built-in fixture types. */
  const FixtureTypes: seq<string> := ["1", "2", "3", "4", "5"]

  /** The built-in fixture types by id. */
  const FixtureTypesById: map<string, FixtureType> := map[
    "1" := ParFixture,
    "2" := StringLightFixture,
    "3" := StrobeFixture,
    "4" := DerbyFixture,
    "5" := LaserFixture]

  /** Every listed id names a built-in type carrying that id, no other type is
      registered, and every built-in default is a DMX value. */
  lemma BuiltInTypesConsistent()
    ensures forall i :: 0 <= i < |FixtureTypes| ==>
      FixtureTypes[i] in FixtureTypesById && FixtureTypesById[FixtureTypes[i]].id == FixtureTypes[i]
    ensures forall id :: id in FixtureTypesById ==> id in FixtureTypes
    ensures forall id :: id in FixtureTypesById ==> WellFormedType(FixtureTypesById[id])
  {
    forall id | id in FixtureTypesById ensures WellFormedType(FixtureTypesById[id]) {
      var t := FixtureTypesById[id];
      forall i | 0 <= i < |t.channels| ensures DefaultsInRange(t.channels[i]) {
        if id == "1" {
          assert t == ParFixture;
        } else if id == "2" {
          assert t == StringLightFixture;
        } else if id == "3" {
          assert t == StrobeFixture;
        } else if id == "4" {
          assert t == DerbyFixture;
        } else {
          assert t == LaserFixture;
        }
      }
    }
  }

  /** The channel counts of the built-in types. */
  lemma BuiltInChannelCounts()
    ensures |FixtureTypesById["1"].channels| == 8
    ensures |FixtureTypesById["2"].channels| == 1
    ensures |FixtureTypesById["3"].channels| == 3
    ensures |FixtureTypesById["4"].channels| == 7
    ensures |FixtureTypesById["5"].channels| == 1
  {
  }

  /** A fixture's position in the preview window. */
  datatype Span = Span(pos: real, width: real)
  datatype Window = Window(x: Option<Span>, y: Option<Span>)

  /** A fixture placed in the universe: its first DMX channel (1-based) and the
      id of its type. */
  datatype Fixture = Fixture(ch: int, typeId: string, window: Window)

  /** The number of channels a fixture of a known type occupies. */
  function ChannelCount(f: Fixture): nat
    requires f.typeId in FixtureTypesById
  {
    |FixtureTypesById[f.typeId].channels|
  }

  /** The last DMX channel a fixture of a known type occupies. */
  function LastChannel(f: Fixture): int
    requires f.typeId in FixtureTypesById
  {
    f.ch + ChannelCount(f) - 1
  }

  const TestUniverse: seq<Fixture> := [
    Fixture(1, "4", Window(Some(Span(0.5, 0.0)), Some(Span(0.6, 0.0)))),
    Fixture(8, "3", Window(Some(Span(0.5, 0.0)), None)),
    Fixture(11, "2", Window(Some(Span(0.0, 0.0)), None)),
    Fixture(12, "2", Window(Some(Span(0.33, 0.0)), None)),
    Fixture(13, "2", Window(Some(Span(0.66, 0.0)), None)),
    Fixture(14, "2", Window(Some(Span(1.0, 0.0)), None)),
    Fixture(15, "1", Window(Some(Span(0.8333, 0.0)), None)),
    Fixture(23, "1", Window(Some(Span(0.1666, 0.0)), None)),
    Fixture(35, "5", Window(None, None))]

  /** Fixtures of known types, each occupying at least one channel, each ending
      before the next one starts. */
  predicate Ascending(u: seq<Fixture>)
  {
    (forall i :: 0 <= i < |u| ==> u[i].typeId in FixtureTypesById && ChannelCount(u[i]) >= 1) &&
    forall i :: 0 <= i < |u| - 1 ==> LastChannel(u[i]) < u[i + 1].ch
  }

  /** In an ascending universe every fixture ends before any later one starts. */
  lemma {:induction false} AscendingEndsBefore(u: seq<Fixture>, i: int, j: int)
    requires Ascending(u) && 0 <= i < j < |u|
    ensures LastChannel(u[i]) < u[j].ch
    decreases j - i
  {
    if j > i + 1 {
      AscendingEndsBefore(u, i + 1, j);
    }
  }

  lemma TestUniverseAscending()
    ensures Ascending(TestUniverse)
  {
    var u := TestUniverse;
    forall i | 0 <= i < |u| ensures u[i].typeId in FixtureTypesById && ChannelCount(u[i]) >= 1 {
      TestFixtureKnown(i);
    }
    forall i | 0 <= i < |u| - 1 ensures LastChannel(u[i]) < u[i + 1].ch {
      TestFixtureKnown(i);
    }
  }

  /** The type, length and successor gap of each test fixture, one at a time. */
  lemma TestFixtureKnown(i: int)
    requires 0 <= i < |TestUniverse|
    ensures TestUniverse[i].typeId in FixtureTypes && TestUniverse[i].typeId in FixtureTypesById
    ensures ChannelCount(TestUniverse[i]) >= 1 && 1 <= TestUniverse[i].ch
    ensures LastChannel(TestUniverse[i]) <= DmxNumChannels
    ensures i < |TestUniverse| - 1 ==> LastChannel(TestUniverse[i]) < TestUniverse[i + 1].ch
  {
    BuiltInChannelCounts();
    var u := TestUniverse;
    if i == 0 {
      assert u[i].typeId == "4";
    } else if i == 1 {
      assert u[i].typeId == "3";
    } else if i < 6 {
      assert u[i].typeId == "2";
    } else if i < 8 {
      assert u[i].typeId == "1";
    } else {
      assert u[i].typeId == "5";
    }
  }

  /** Every test fixture has a known type and lies within channels 1..512, and no
      two test fixtures share a channel. */
  lemma TestUniverseLayout()
    ensures forall i :: 0 <= i < |TestUniverse| ==>
      TestUniverse[i].typeId in FixtureTypes && TestUniverse[i].typeId in FixtureTypesById &&
      1 <= TestUniverse[i].ch && LastChannel(TestUniverse[i]) <= DmxNumChannels
    ensures forall i, j :: 0 <= i < j < |TestUniverse| ==>
      LastChannel(TestUniverse[i]) < TestUniverse[j].ch
  {
    TestUniverseAscending();
    forall i, j | 0 <= i < j < |TestUniverse| ensures LastChannel(TestUniverse[i]) < TestUniverse[j].ch {
      AscendingEndsBefore(TestUniverse, i, j);
    }
    forall i | 0 <= i < |TestUniverse| {
      TestFixtureKnown(i);
    }
  }

  /** One slot per DMX channel: the fixture starting there, if any. */
  type UniverseMap = seq<Option<Fixture>>

  /** The map with every slot empty. */
  function EmptyUniverseMap(): (m: UniverseMap)
    ensures |m| == DmxNumChannels
    ensures forall i :: 0 <= i < |m| ==> m[i] == None
  {
    seq(DmxNumChannels, _ => None)
  }

  /** Records `f` in the slot of its first channel; a channel outside 1..512
      leaves the map unchanged. */
  function Place(m: UniverseMap, f: Fixture): (r: UniverseMap)
    requires |m| == DmxNumChannels
    ensures |r| == DmxNumChannels
    ensures 1 <= f.ch <= DmxNumChannels ==> r[f.ch - 1] == Some(f)
    ensures forall j :: 0 <= j < |m| && j != f.ch - 1 ==> r[j] == m[j]
  {
    if 1 <= f.ch <= DmxNumChannels then m[f.ch - 1 := Some(f)] else m
  }

  /** The map after placing the fixtures of `u` in order, later ones overwriting
      earlier ones. */
  function UniverseMapOf(u: seq<Fixture>): (m: UniverseMap)
    ensures |m| == DmxNumChannels
  {
    if u == [] then EmptyUniverseMap()
    else Place(UniverseMapOf(u[..|u| - 1]), u[|u| - 1])
  }

  /** The position of the last fixture of `u` whose first channel is `ch`, or -1. */
  function LastIndexAt(u: seq<Fixture>, ch: int): (r: int)
    ensures -1 <= r < |u|
    ensures r >= 0 ==> u[r].ch == ch && forall k :: r < k < |u| ==> u[k].ch != ch
    ensures r == -1 ==> forall k :: 0 <= k < |u| ==> u[k].ch != ch
  {
    if u == [] then -1
    else if u[|u| - 1].ch == ch then |u| - 1
    else LastIndexAt(u[..|u| - 1], ch)
  }

  /** Slot `i` holds the last fixture starting at channel `i + 1`, and is empty
      exactly when no fixture starts there: only first channels are marked. */
  lemma {:induction false} UniverseMapSlot(u: seq<Fixture>, i: int)
    requires 0 <= i < DmxNumChannels
    ensures var r := LastIndexAt(u, i + 1);
      UniverseMapOf(u)[i] == if r == -1 then None else Some(u[r])
  {
    if u != [] {
      UniverseMapSlot(u[..|u| - 1], i);
    }
  }

  /** In the test universe the derby's first channel holds it, while its second
      channel stays empty although the derby occupies it. */
  lemma TestUniverseMapMarksStarts()
    ensures UniverseMapOf(TestUniverse)[0] == Some(TestUniverse[0])
    ensures UniverseMapOf(TestUniverse)[1] == None
  {
    UniverseMapSlot(TestUniverse, 0);
    UniverseMapSlot(TestUniverse, 1);
    var r := LastIndexAt(TestUniverse, 1);
    assert r != -1 by {
      assert TestUniverse[0].ch == 1;
    }
    assert r == 0;
  }

  /** The array form of an empty universe map. */
  method InitUniverseMap() returns (a: array<Option<Fixture>>)
    ensures fresh(a)
    ensures a[..] == EmptyUniverseMap()
  {
    a := new Option<Fixture>[DmxNumChannels](_ => None);
  }

  /** Fills a fresh 512-slot map with the fixtures of `u`, in list order. */
  method GetUniverseMap(u: seq<Fixture>) returns (a: array<Option<Fixture>>)
    ensures fresh(a)
    ensures a.Length == DmxNumChannels
    ensures a[..] == UniverseMapOf(u)
  {
    a := InitUniverseMap();
    for k := 0 to |u|
      invariant a.Length == DmxNumChannels
      invariant a[..] == UniverseMapOf(u[..k])
    {
      assert u[..k + 1][..k] == u[..k];
      var f := u[k];
      if 1 <= f.ch <= DmxNumChannels {
        a[f.ch - 1] := Some(f);
      }
    }
    assert u[..|u|] == u;
  }
}
