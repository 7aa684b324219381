/** Scene parameter defaults: the thirteen named parameters, the parameter
    maps a new scene starts from, and the (empty) initial modulation. */
module Params {

  /** The thirteen parameter names a scene always carries. */
  datatype DefaultParam =
    | Hue | Saturation | Brightness | X | Width | Y | Height
    | Intensity | Strobe | Randomize | XAxis | YAxis | XMirror

  /** The key under which a parameter is stored in a `Params` map. */
  function Key(p: DefaultParam): string
  {
    match p
    case Hue => "hue"
    case Saturation => "saturation"
    case Brightness => "brightness"
    case X => "x"
    case Width => "width"
    case Y => "y"
    case Height => "height"
    case Intensity => "intensity"
    case Strobe => "strobe"
    case Randomize => "randomize"
    case XAxis => "xAxis"
    case YAxis => "yAxis"
    case XMirror => "xMirror"
  }

  /** Distinct parameters are stored under distinct keys. */
  lemma KeyInjective(p: DefaultParam, q: DefaultParam)
    ensures Key(p) == Key(q) ==> p == q
  {
    if Key(p) == Key(q) {
      // the keys differ in their first characters or in their lengths
      assert Key(p)[0] == Key(q)[0] && |Key(p)| == |Key(q)|;
      if p != q {
        match p
        case Hue =>
        case Saturation =>
        case Brightness =>
        case X =>
        case Width =>
        case Y =>
        case Height =>
        case Intensity =>
        case Strobe =>
        case Randomize =>
        case XAxis =>
        case YAxis =>
        case XMirror =>
      }
    }
  }

  /** A parameter map: absent keys read as `undefined`. */
  type ParamMap = map<string, real>

  /** `defaultParamsList`: the default parameters, in their declared order. */
  function DefaultParamsList(): (r: seq<DefaultParam>)
    ensures |r| == 13
    ensures forall p: DefaultParam :: p in r
    ensures forall i, j :: 0 <= i < j < |r| ==> r[i] != r[j]
  {
    var l := [Hue, Saturation, Brightness, X, Width, Y, Height,
              Intensity, Strobe, Randomize, XAxis, YAxis, XMirror];
    EveryParamListed(l);
    l
  }

  lemma EveryParamListed(l: seq<DefaultParam>)
    requires l == [Hue, Saturation, Brightness, X, Width, Y, Height,
                   Intensity, Strobe, Randomize, XAxis, YAxis, XMirror]
    ensures forall p: DefaultParam :: p in l
  {
    forall p: DefaultParam ensures p in l {
      match p
      case Hue => assert l[0] == p;
      case Saturation => assert l[1] == p;
      case Brightness => assert l[2] == p;
      case X => assert l[3] == p;
      case Width => assert l[4] == p;
      case Y => assert l[5] == p;
      case Height => assert l[6] == p;
      case Intensity => assert l[7] == p;
      case Strobe => assert l[8] == p;
      case Randomize => assert l[9] == p;
      case XAxis => assert l[10] == p;
      case YAxis => assert l[11] == p;
      case XMirror => assert l[12] == p;
    }
  }

  /** The keys of the parameters in `l`. */
  function KeysOf(l: seq<DefaultParam>): set<string>
  {
    set p | p in l :: Key(p)
  }

  /** The set of keys named by DefaultParamsList. */
  function DefaultKeys(): set<string>
  {
    KeysOf(DefaultParamsList())
  }

  /** Hue, saturation and brightness, each at 0.5. */
  function InitBaseParams(): (r: ParamMap)
    ensures r.Keys == {Key(Hue), Key(Saturation), Key(Brightness)}
    ensures forall k :: k in r ==> r[k] == 0.5
  {
    map["hue" := 0.5, "saturation" := 0.5, "brightness" := 0.5]
  }

  /** The value each default parameter starts at. */
  function DefaultValue(p: DefaultParam): (v: real)
    ensures 0.0 <= v <= 1.0
  {
    match p
    case Hue => 0.5
    case Saturation => 0.5
    case Brightness => 0.5
    case X => 0.5
    case Width => 1.0
    case Y => 0.5
    case Height => 1.0
    case Intensity => 1.0
    case Strobe => 0.0
    case Randomize => 1.0
    case XAxis => 0.5
    case YAxis => 0.5
    case XMirror => 0.0
  }

  /** The parameter map holding the default value of each parameter in `l`. */
  function ParamsOf(l: seq<DefaultParam>): ParamMap
  {
    if l == [] then map[] else ParamsOf(l[1..])[Key(l[0]) := DefaultValue(l[0])]
  }

  /** ParamsOf(l) has exactly the keys of `l`, each holding its parameter's default. */
  lemma ParamsOfContents(l: seq<DefaultParam>)
    ensures ParamsOf(l).Keys == KeysOf(l)
    ensures forall p :: p in l ==> ParamsOf(l)[Key(p)] == DefaultValue(p)
  {
    ParamsOfValues(l);
    ParamsOfKeys(l);
    forall k | k in KeysOf(l) ensures k in ParamsOf(l) {
      var p :| p in l && Key(p) == k;
    }
  }

  /** Every parameter of `l` is present in ParamsOf(l) with its default value. */
  lemma {:induction false} ParamsOfValues(l: seq<DefaultParam>)
    ensures forall p :: p in l ==> Key(p) in ParamsOf(l) && ParamsOf(l)[Key(p)] == DefaultValue(p)
  {
    if l != [] {
      ParamsOfValues(l[1..]);
      forall p | p in l ensures Key(p) in ParamsOf(l) && ParamsOf(l)[Key(p)] == DefaultValue(p) {
        KeyInjective(p, l[0]);
        if p != l[0] {
          assert p in l[1..];
        }
      }
    }
  }

  /** ParamsOf(l) has no key other than those of `l`. */
  lemma {:induction false} ParamsOfKeys(l: seq<DefaultParam>)
    ensures forall k :: k in ParamsOf(l) ==> k in KeysOf(l)
  {
    if l != [] {
      ParamsOfKeys(l[1..]);
      forall k | k in ParamsOf(l) ensures k in KeysOf(l) {
        if k != Key(l[0]) {
          assert k in KeysOf(l[1..]);
          var p :| p in l[1..] && Key(p) == k;
          assert p in l;
        }
      }
    }
  }

  /** A value for every default parameter and for no other key, each in [0,1]. */
  function DefaultBaseParams(): (r: ParamMap)
    ensures r.Keys == DefaultKeys()
    ensures forall p: DefaultParam :: Key(p) in r && r[Key(p)] == DefaultValue(p)
    ensures forall k :: k in r ==> 0.0 <= r[k] <= 1.0
  {
    ParamsOfDefaults(DefaultParamsList());
    ParamsOf(DefaultParamsList())
  }

  /** ParamsOf a list naming every parameter: every key present, holding its
      default, and every value normalised. */
  lemma ParamsOfDefaults(l: seq<DefaultParam>)
    requires forall p: DefaultParam :: p in l
    ensures ParamsOf(l).Keys == KeysOf(l)
    ensures forall p: DefaultParam :: Key(p) in ParamsOf(l) && ParamsOf(l)[Key(p)] == DefaultValue(p)
    ensures forall k :: k in ParamsOf(l) ==> 0.0 <= ParamsOf(l)[k] <= 1.0
  {
    ParamsOfContents(l);
    AllValuesNormalised(ParamsOf(l), l);
  }

  lemma AllValuesNormalised(m: ParamMap, l: seq<DefaultParam>)
    requires m.Keys == KeysOf(l)
    requires forall p :: p in l ==> m[Key(p)] == DefaultValue(p)
    ensures forall k :: k in m ==> 0.0 <= m[k] <= 1.0
  {
    forall k | k in m ensures 0.0 <= m[k] <= 1.0 {
      var p :| p in l && Key(p) == k;
    }
  }

  /** The output parameters start out as the same three entries as InitBaseParams. */
  function DefaultOutputParams(): (r: ParamMap)
    ensures r.Keys == {Key(Hue), Key(Saturation), Key(Brightness)}
    ensures forall k :: k in r ==> r[k] == 0.5
  {
    map["hue" := 0.5, "saturation" := 0.5, "brightness" := 0.5]
  }

  /** The full defaults agree with the initial base parameters wherever both are
      defined, and the output parameters start out equal to the initial base ones. */
  lemma DefaultsExtendInit()
    ensures InitBaseParams().Keys <= DefaultBaseParams().Keys
    ensures forall k :: k in InitBaseParams() ==> DefaultBaseParams()[k] == InitBaseParams()[k]
    ensures DefaultOutputParams() == InitBaseParams()
  {
    forall k | k in InitBaseParams()
      ensures k in DefaultBaseParams() && DefaultBaseParams()[k] == InitBaseParams()[k]
    {
      InitKeyIsDefault(k);
    }
  }

  lemma InitKeyIsDefault(k: string)
    requires k in InitBaseParams()
    ensures exists p :: Key(p) == k && DefaultValue(p) == InitBaseParams()[k]
  {
    if k == Key(Hue) {
      assert DefaultValue(Hue) == 0.5;
    } else if k == Key(Saturation) {
      assert DefaultValue(Saturation) == 0.5;
    } else {
      assert DefaultValue(Brightness) == 0.5;
    }
  }

  /** A modulation is a parameter map; a new one is empty. */
  function InitModulation(): (r: ParamMap)
    ensures forall k :: k !in r
  {
    map[]
  }
}
