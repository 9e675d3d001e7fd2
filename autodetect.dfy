/**
 * Self-configuration of the V0 builders ("autodetect mode").
 *
 * Both builders walk the running workflow: every device that reads the
 * V0Datas table (other than the initializer and the cascade builder) has its
 * five V0 topological settings read, and the builder adopts the loosest of
 * all requested values; any device other than the initializer that reads
 * V0Covs switches the covariance table on. The fold is written per setting,
 * with the direction in which a setting becomes looser as a parameter.
 */
module AutoDetect {

  datatype DeviceOption = DeviceOption(name: string, defaultValue: real)

  /** A device of the running workflow; `inputs` holds the binding of each input. */
  datatype DeviceSpec = DeviceSpec(name: string, inputs: seq<string>, options: seq<DeviceOption>)

  const Initializer := "lambdakzero-initializer"
  const MultistrangeBuilder := "multistrange-builder"
  const V0DatasBinding := "V0Datas"
  const V0CovsBinding := "V0Covs"

  const CospaOption := "v0setting_cospa"
  const DcaV0DauOption := "v0setting_dcav0dau"
  const DcaPosOption := "v0setting_dcapostopv"
  const DcaNegOption := "v0setting_dcanegtopv"
  const RadiusOption := "v0setting_radius"

  /** Whether a looser setting is a smaller (lower cut) or a larger (upper cut) value. */
  datatype Kind = Min | Max

  /** `a` is at least as loose as `b`. */
  predicate Looser(k: Kind, a: real, b: real)
  {
    if k == Min then a <= b else a >= b
  }

  /** One comparison of the fold: keep `cur` unless `v` is strictly looser. */
  function Loosen(k: Kind, cur: real, v: real): (r: real)
    ensures Looser(k, r, cur) && Looser(k, r, v)
    ensures r == cur || r == v
  {
    if k == Min then (if v < cur then v else cur)
    else (if v > cur then v else cur)
  }

  /** The five topological thresholds the builders take from their consumers. */
  datatype Thresholds = Thresholds(v0cospa: real, dcav0dau: real, dcapostopv: real,
                                   dcanegtopv: real, v0radius: real)

  /** The starting values of the fold; they remain when nobody subscribes. */
  const Sentinels := Thresholds(100.0, -100.0, 100.0, 100.0, 100.0)

  /** The device's options are scanned for its V0Datas inputs. */
  predicate Subscribes(d: DeviceSpec)
  {
    d.name != Initializer && d.name != MultistrangeBuilder && V0DatasBinding in d.inputs
  }

  /** The device switches the covariance table on. */
  predicate WantsCovs(d: DeviceSpec)
  {
    d.name != Initializer && V0CovsBinding in d.inputs
  }

  // ---------------------------------------------------------------------
  // The fold, in the order of the nested loops: devices, inputs, options.

  function ScanOptions(opts: seq<DeviceOption>, name: string, k: Kind, cur: real): real
  {
    if |opts| == 0 then cur
    else
      var c := ScanOptions(opts[..|opts| - 1], name, k, cur);
      var o := opts[|opts| - 1];
      if o.name == name then Loosen(k, c, o.defaultValue) else c
  }

  function ScanInputs(d: DeviceSpec, inputs: seq<string>, name: string, k: Kind, cur: real): real
  {
    if |inputs| == 0 then cur
    else
      var c := ScanInputs(d, inputs[..|inputs| - 1], name, k, cur);
      if d.name != Initializer && inputs[|inputs| - 1] == V0DatasBinding && d.name != MultistrangeBuilder
      then ScanOptions(d.options, name, k, c)
      else c
  }

  function ScanDevices(devs: seq<DeviceSpec>, name: string, k: Kind, cur: real): real
  {
    if |devs| == 0 then cur
    else
      var d := devs[|devs| - 1];
      ScanInputs(d, d.inputs, name, k, ScanDevices(devs[..|devs| - 1], name, k, cur))
  }

  function ScanOptionsAll(opts: seq<DeviceOption>, t: Thresholds): Thresholds
  {
    Thresholds(ScanOptions(opts, CospaOption, Min, t.v0cospa),
               ScanOptions(opts, DcaV0DauOption, Max, t.dcav0dau),
               ScanOptions(opts, DcaPosOption, Min, t.dcapostopv),
               ScanOptions(opts, DcaNegOption, Min, t.dcanegtopv),
               ScanOptions(opts, RadiusOption, Min, t.v0radius))
  }

  function ScanInputsAll(d: DeviceSpec, inputs: seq<string>, t: Thresholds): Thresholds
  {
    Thresholds(ScanInputs(d, inputs, CospaOption, Min, t.v0cospa),
               ScanInputs(d, inputs, DcaV0DauOption, Max, t.dcav0dau),
               ScanInputs(d, inputs, DcaPosOption, Min, t.dcapostopv),
               ScanInputs(d, inputs, DcaNegOption, Min, t.dcanegtopv),
               ScanInputs(d, inputs, RadiusOption, Min, t.v0radius))
  }

  /** The thresholds the builder adopts. */
  function Loosest(devs: seq<DeviceSpec>): Thresholds
  {
    Thresholds(ScanDevices(devs, CospaOption, Min, Sentinels.v0cospa),
               ScanDevices(devs, DcaV0DauOption, Max, Sentinels.dcav0dau),
               ScanDevices(devs, DcaPosOption, Min, Sentinels.dcapostopv),
               ScanDevices(devs, DcaNegOption, Min, Sentinels.dcanegtopv),
               ScanDevices(devs, RadiusOption, Min, Sentinels.v0radius))
  }

  function LoosestFrom(devs: seq<DeviceSpec>, t: Thresholds): Thresholds
  {
    Thresholds(ScanDevices(devs, CospaOption, Min, t.v0cospa),
               ScanDevices(devs, DcaV0DauOption, Max, t.dcav0dau),
               ScanDevices(devs, DcaPosOption, Min, t.dcapostopv),
               ScanDevices(devs, DcaNegOption, Min, t.dcanegtopv),
               ScanDevices(devs, RadiusOption, Min, t.v0radius))
  }

  predicate CovsRequested(devs: seq<DeviceSpec>)
  {
    exists m :: 0 <= m < |devs| && WantsCovs(devs[m])
  }

  /**
   * The walk over the running workflow. Returns the loosest thresholds and
   * whether some device reads the covariance table.
   */
  method Negotiate(devs: seq<DeviceSpec>) returns (t: Thresholds, covs: bool)
    ensures t == Loosest(devs)
    ensures covs <==> CovsRequested(devs)
  {
    t := Sentinels;
    covs := false;
    var i := 0;
    while i < |devs|
      invariant 0 <= i <= |devs|
      invariant t == LoosestFrom(devs[..i], Sentinels)
      invariant covs <==> exists m :: 0 <= m < i && WantsCovs(devs[m])
    {
      var d := devs[i];
      ghost var tDev := t;
      var j := 0;
      while j < |d.inputs|
        invariant 0 <= j <= |d.inputs|
        invariant t == ScanInputsAll(d, d.inputs[..j], tDev)
        invariant covs <==> ((exists m :: 0 <= m < i && WantsCovs(devs[m]))
                             || (d.name != Initializer && V0CovsBinding in d.inputs[..j]))
      {
        if d.name == Initializer {
          assert d.inputs[..j + 1][..j] == d.inputs[..j];
          j := j + 1;
          continue;
        }
        var input := d.inputs[j];
        if input == V0DatasBinding && d.name != MultistrangeBuilder {
          ghost var tIn := t;
          var k := 0;
          while k < |d.options|
            invariant 0 <= k <= |d.options|
            invariant t == ScanOptionsAll(d.options[..k], tIn)
          {
            var o := d.options[k];
            assert d.options[..k + 1][..k] == d.options[..k];
            if o.name == CospaOption {
              t := t.(v0cospa := Loosen(Min, t.v0cospa, o.defaultValue));
            }
            if o.name == DcaV0DauOption {
              t := t.(dcav0dau := Loosen(Max, t.dcav0dau, o.defaultValue));
            }
            if o.name == DcaPosOption {
              t := t.(dcapostopv := Loosen(Min, t.dcapostopv, o.defaultValue));
            }
            if o.name == DcaNegOption {
              t := t.(dcanegtopv := Loosen(Min, t.dcanegtopv, o.defaultValue));
            }
            if o.name == RadiusOption {
              t := t.(v0radius := Loosen(Min, t.v0radius, o.defaultValue));
            }
            k := k + 1;
          }
          assert d.options[..k] == d.options;
        }
        if input == V0CovsBinding {
          covs := true;
        }
        assert d.inputs[..j + 1][..j] == d.inputs[..j];
        assert d.inputs[..j + 1] == d.inputs[..j] + [input];
        j := j + 1;
      }
      assert d.inputs[..j] == d.inputs;
      assert devs[..i + 1][..i] == devs[..i];
      assert devs[..i + 1][i] == d;
      i := i + 1;
    }
    assert devs[..i] == devs;
  }

  // ---------------------------------------------------------------------
  // Closed form: the fold is the loosest of the start value and every
  // requested value.

  /** Every value requested for option `name` by a subscribing device. */
  function Requested(devs: seq<DeviceSpec>, name: string): set<real>
  {
    set d, o | d in devs && Subscribes(d) && o in d.options && o.name == name :: o.defaultValue
  }

  function OptionValues(opts: seq<DeviceOption>, name: string): set<real>
  {
    set o | o in opts && o.name == name :: o.defaultValue
  }

  /** `r` is the loosest of `cur` and the values in `vals`. */
  predicate IsLoosest(k: Kind, r: real, cur: real, vals: set<real>)
  {
    Looser(k, r, cur) && (forall v :: v in vals ==> Looser(k, r, v)) && (r == cur || r in vals)
  }

  lemma LoosestUnique(k: Kind, r1: real, r2: real, cur: real, vals: set<real>)
    requires IsLoosest(k, r1, cur, vals) && IsLoosest(k, r2, cur, vals)
    ensures r1 == r2
  {
  }

  lemma LoosestCompose(k: Kind, cur: real, r1: real, a: set<real>, r2: real, b: set<real>)
    requires IsLoosest(k, r1, cur, a) && IsLoosest(k, r2, r1, b)
    ensures IsLoosest(k, r2, cur, a + b)
  {
  }

  lemma {:induction false} ScanOptionsLoosest(opts: seq<DeviceOption>, name: string, k: Kind, cur: real)
    ensures IsLoosest(k, ScanOptions(opts, name, k, cur), cur, OptionValues(opts, name))
  {
    if |opts| > 0 {
      var p := opts[..|opts| - 1];
      var o := opts[|opts| - 1];
      assert opts == p + [o];
      ScanOptionsLoosest(p, name, k, cur);
      var c := ScanOptions(p, name, k, cur);
      if o.name == name {
        assert OptionValues(opts, name) == OptionValues(p, name) + {o.defaultValue};
        LoosestCompose(k, cur, c, OptionValues(p, name), Loosen(k, c, o.defaultValue), {o.defaultValue});
      } else {
        assert OptionValues(opts, name) == OptionValues(p, name);
      }
    }
  }

  /** The values device `d` contributes through the inputs it lists. */
  function InputValues(d: DeviceSpec, inputs: seq<string>, name: string): set<real>
  {
    if d.name != Initializer && d.name != MultistrangeBuilder && V0DatasBinding in inputs
    then OptionValues(d.options, name) else {}
  }

  lemma {:induction false} ScanInputsLoosest(d: DeviceSpec, inputs: seq<string>, name: string, k: Kind, cur: real)
    ensures IsLoosest(k, ScanInputs(d, inputs, name, k, cur), cur, InputValues(d, inputs, name))
  {
    if |inputs| > 0 {
      var p := inputs[..|inputs| - 1];
      var x := inputs[|inputs| - 1];
      assert inputs == p + [x];
      ScanInputsLoosest(d, p, name, k, cur);
      var c := ScanInputs(d, p, name, k, cur);
      if d.name != Initializer && x == V0DatasBinding && d.name != MultistrangeBuilder {
        ScanOptionsLoosest(d.options, name, k, c);
        assert InputValues(d, inputs, name) == InputValues(d, p, name) + OptionValues(d.options, name);
        LoosestCompose(k, cur, c, InputValues(d, p, name), ScanOptions(d.options, name, k, c), OptionValues(d.options, name));
      } else {
        assert InputValues(d, inputs, name) == InputValues(d, p, name);
      }
    }
  }

  lemma RequestedSnoc(p: seq<DeviceSpec>, d: DeviceSpec, name: string)
    ensures Requested(p + [d], name) == Requested(p, name) + InputValues(d, d.inputs, name)
  {
    var l := Requested(p + [d], name);
    var r := Requested(p, name) + InputValues(d, d.inputs, name);
    forall v | v in l ensures v in r {
      var d', o :| d' in p + [d] && Subscribes(d') && o in d'.options && o.name == name && o.defaultValue == v;
      if d' in p {
        assert v in Requested(p, name);
      } else {
        assert v in OptionValues(d.options, name);
      }
    }
    forall v | v in r ensures v in l {
      if v in Requested(p, name) {
        var d', o :| d' in p && Subscribes(d') && o in d'.options && o.name == name && o.defaultValue == v;
        assert d' in p + [d];
      } else {
        var o :| o in d.options && o.name == name && o.defaultValue == v;
        assert d in p + [d];
      }
    }
  }

  /**
   * The adopted value of a setting is as loose as the start value and as
   * every value a subscribing device requests, and it is one of them.
   */
  lemma {:induction false} ScanDevicesLoosest(devs: seq<DeviceSpec>, name: string, k: Kind, cur: real)
    ensures IsLoosest(k, ScanDevices(devs, name, k, cur), cur, Requested(devs, name))
  {
    if |devs| == 0 {
      assert Requested(devs, name) == {};
    } else {
      var p := devs[..|devs| - 1];
      var d := devs[|devs| - 1];
      assert devs == p + [d];
      ScanDevicesLoosest(p, name, k, cur);
      var c := ScanDevices(p, name, k, cur);
      ScanInputsLoosest(d, d.inputs, name, k, c);
      RequestedSnoc(p, d, name);
      LoosestCompose(k, cur, c, Requested(p, name), ScanInputs(d, d.inputs, name, k, c), InputValues(d, d.inputs, name));
    }
  }

  /** The adopted thresholds depend only on which values are requested, not on the order of the devices. */
  lemma ScanDevicesOrderIndependent(d1: seq<DeviceSpec>, d2: seq<DeviceSpec>, name: string, k: Kind, cur: real)
    requires multiset(d1) == multiset(d2)
    ensures ScanDevices(d1, name, k, cur) == ScanDevices(d2, name, k, cur)
  {
    assert forall d :: d in d1 <==> d in d2 by {
      forall d ensures d in d1 <==> d in d2 {
        assert d in d1 <==> d in multiset(d1);
        assert d in d2 <==> d in multiset(d2);
      }
    }
    assert Requested(d1, name) == Requested(d2, name);
    ScanDevicesLoosest(d1, name, k, cur);
    ScanDevicesLoosest(d2, name, k, cur);
    LoosestUnique(k, ScanDevices(d1, name, k, cur), ScanDevices(d2, name, k, cur), cur, Requested(d1, name));
  }

  lemma LoosestOrderIndependent(d1: seq<DeviceSpec>, d2: seq<DeviceSpec>)
    requires multiset(d1) == multiset(d2)
    ensures Loosest(d1) == Loosest(d2)
  {
    ScanDevicesOrderIndependent(d1, d2, CospaOption, Min, Sentinels.v0cospa);
    ScanDevicesOrderIndependent(d1, d2, DcaV0DauOption, Max, Sentinels.dcav0dau);
    ScanDevicesOrderIndependent(d1, d2, DcaPosOption, Min, Sentinels.dcapostopv);
    ScanDevicesOrderIndependent(d1, d2, DcaNegOption, Min, Sentinels.dcanegtopv);
    ScanDevicesOrderIndependent(d1, d2, RadiusOption, Min, Sentinels.v0radius);
  }

  lemma {:induction false} ScanDevicesNoSubscriber(devs: seq<DeviceSpec>, name: string, k: Kind, cur: real)
    requires forall d :: d in devs ==> !Subscribes(d)
    ensures ScanDevices(devs, name, k, cur) == cur
  {
    if |devs| > 0 {
      var p := devs[..|devs| - 1];
      var d := devs[|devs| - 1];
      assert forall e :: e in p ==> e in devs;
      assert d in devs;
      assert InputValues(d, d.inputs, name) == {};
      ScanDevicesNoSubscriber(p, name, k, cur);
      ScanInputsLoosest(d, d.inputs, name, k, cur);
    }
  }

  /** With no subscribing device the sentinel values are adopted unchanged. */
  lemma NoSubscriberGivesSentinels(devs: seq<DeviceSpec>)
    requires forall d :: d in devs ==> !Subscribes(d)
    ensures Loosest(devs) == Sentinels
  {
    ScanDevicesNoSubscriber(devs, CospaOption, Min, Sentinels.v0cospa);
    ScanDevicesNoSubscriber(devs, DcaV0DauOption, Max, Sentinels.dcav0dau);
    ScanDevicesNoSubscriber(devs, DcaPosOption, Min, Sentinels.dcapostopv);
    ScanDevicesNoSubscriber(devs, DcaNegOption, Min, Sentinels.dcanegtopv);
    ScanDevicesNoSubscriber(devs, RadiusOption, Min, Sentinels.v0radius);
  }

  /**
   * The cascade builder's subscription leaves the thresholds alone, but its
   * V0Covs subscription still enables the covariance table.
   */
  lemma {:induction false} MultistrangeBuilderIgnored(devs: seq<DeviceSpec>, d: DeviceSpec)
    requires d.name == MultistrangeBuilder
    ensures Loosest(devs + [d]) == Loosest(devs)
    ensures CovsRequested(devs + [d]) <==> CovsRequested(devs) || V0CovsBinding in d.inputs
  {
    var all := devs + [d];
    assert all[..|all| - 1] == devs;
    forall name: string, k: Kind, cur: real
      ensures ScanInputs(d, d.inputs, name, k, cur) == cur
    {
      ScanInputsLoosest(d, d.inputs, name, k, cur);
    }
    if V0CovsBinding in d.inputs {
      assert WantsCovs(all[|devs|]);
    }
    if CovsRequested(devs) {
      var m :| 0 <= m < |devs| && WantsCovs(devs[m]);
      assert all[m] == devs[m];
    }
  }

  /** The five option names are pairwise different. */
  lemma OptionNamesDistinct()
    ensures CospaOption != DcaV0DauOption && CospaOption != DcaPosOption && CospaOption != DcaNegOption
    ensures CospaOption != RadiusOption && DcaV0DauOption != DcaPosOption && DcaV0DauOption != DcaNegOption
    ensures DcaV0DauOption != RadiusOption && DcaPosOption != DcaNegOption
    ensures DcaPosOption != RadiusOption && DcaNegOption != RadiusOption
  {
    assert CospaOption[10] == 'c' && RadiusOption[10] == 'r';
    assert DcaV0DauOption[10] == 'd' && DcaPosOption[10] == 'd' && DcaNegOption[10] == 'd';
    assert DcaV0DauOption[13] == 'v' && DcaPosOption[13] == 'p' && DcaNegOption[13] == 'n';
  }

  /** Two analyses asking for radius 0.5 and 0.9 and DCA 1.0 and 1.5: the builder keeps 0.5 and 1.5. */
  lemma TwoConsumersExample()
    ensures var a := DeviceSpec("analysis-a", [V0DatasBinding],
                                [DeviceOption(RadiusOption, 0.5), DeviceOption(DcaV0DauOption, 1.0)]);
            var b := DeviceSpec("analysis-b", [V0DatasBinding],
                                [DeviceOption(RadiusOption, 0.9), DeviceOption(DcaV0DauOption, 1.5)]);
            var t := Loosest([a, b]);
            t.v0radius == 0.5 && t.dcav0dau == 1.5 && t.v0cospa == 100.0
  {
    var a := DeviceSpec("analysis-a", [V0DatasBinding],
                        [DeviceOption(RadiusOption, 0.5), DeviceOption(DcaV0DauOption, 1.0)]);
    var b := DeviceSpec("analysis-b", [V0DatasBinding],
                        [DeviceOption(RadiusOption, 0.9), DeviceOption(DcaV0DauOption, 1.5)]);
    OptionNamesDistinct();
    assert a.name[9] == 'a' && b.name[9] == 'b';
    assert Initializer[0] == 'l' && MultistrangeBuilder[0] == 'm';
    assert a.name != Initializer && a.name != MultistrangeBuilder;
    assert b.name != Initializer && b.name != MultistrangeBuilder;
    assert [a, b][..1] == [a];
    assert [a][..0] == [];
    assert a.inputs[..0] == [] && b.inputs[..0] == [];
    assert a.options[..1] == [a.options[0]] && [a.options[0]][..0] == [];
    assert b.options[..1] == [b.options[0]] && [b.options[0]][..0] == [];
    assert ScanOptions([a.options[0]], RadiusOption, Min, 100.0) == 0.5;
    assert ScanOptions([a.options[0]], DcaV0DauOption, Max, -100.0) == -100.0;
    assert ScanOptions([a.options[0]], CospaOption, Min, 100.0) == 100.0;
    assert ScanOptions(a.options, RadiusOption, Min, 100.0) == 0.5;
    assert ScanOptions(a.options, DcaV0DauOption, Max, -100.0) == 1.0;
    assert ScanOptions(a.options, CospaOption, Min, 100.0) == 100.0;
    assert ScanInputs(a, a.inputs, RadiusOption, Min, 100.0) == 0.5;
    assert ScanInputs(a, a.inputs, DcaV0DauOption, Max, -100.0) == 1.0;
    assert ScanInputs(a, a.inputs, CospaOption, Min, 100.0) == 100.0;
    assert ScanDevices([a], RadiusOption, Min, 100.0) == 0.5;
    assert ScanDevices([a], DcaV0DauOption, Max, -100.0) == 1.0;
    assert ScanDevices([a], CospaOption, Min, 100.0) == 100.0;
    assert ScanOptions([b.options[0]], RadiusOption, Min, 0.5) == 0.5;
    assert ScanOptions([b.options[0]], DcaV0DauOption, Max, 1.0) == 1.0;
    assert ScanOptions([b.options[0]], CospaOption, Min, 100.0) == 100.0;
    assert ScanOptions(b.options, RadiusOption, Min, 0.5) == 0.5;
    assert ScanOptions(b.options, DcaV0DauOption, Max, 1.0) == 1.5;
    assert ScanOptions(b.options, CospaOption, Min, 100.0) == 100.0;
    assert ScanInputs(b, b.inputs, RadiusOption, Min, 0.5) == 0.5;
    assert ScanInputs(b, b.inputs, DcaV0DauOption, Max, 1.0) == 1.5;
    assert ScanInputs(b, b.inputs, CospaOption, Min, 100.0) == 100.0;
  }
}
