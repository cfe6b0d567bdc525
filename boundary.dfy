/**
 * Boundary features (regions and provinces) and the two ways the components
 * compare a feature's code with the selected region id: the viewport scan
 * converts the property with `toString()` first, the highlight style compares
 * it with `===` as it is.
 */
module Boundary {
  import opened Wrappers
  import opened Leaflet
  import opened Seqs

  /** A GeoJSON property value: a string or a non-negative integer. */
  datatype Prop = Str(s: string) | Num(n: nat) {
    /** JavaScript's `toString()` on the value. */
    function ToString(): (r: string)
      ensures Str? ==> r == s
      ensures Num? ==> |r| >= 1 && forall i :: 0 <= i < |r| ==> '0' <= r[i] <= '9'
      ensures Num? ==> DecimalValue(r) == n
    {
      match this
      case Str(s) => s
      case Num(n) => NatToStringRoundTrip(n); NatToString(n)
    }
  }

  /** Decimal digits of a natural number, as `Number.prototype.toString` writes them. */
  function NatToString(n: nat): (s: string)
    ensures |s| >= 1
    ensures n < 10 <==> |s| == 1
    ensures forall i :: 0 <= i < |s| ==> '0' <= s[i] <= '9'
  {
    if n < 10 then [Digit(n)] else NatToString(n / 10) + [Digit(n % 10)]
  }

  function Digit(d: nat): (c: char)
    requires d < 10
    ensures '0' <= c <= '9'
  {
    ('0' as int + d) as char
  }

  /** The number a string of decimal digits spells, most significant digit first. */
  function DecimalValue(s: string): nat
    requires forall i :: 0 <= i < |s| ==> '0' <= s[i] <= '9'
  {
    if s == [] then 0 else 10 * DecimalValue(s[..|s| - 1]) + (s[|s| - 1] as int - '0' as int)
  }

  /** Reading back the printed digits gives the number: the string spells `n`. */
  lemma {:induction false} NatToStringRoundTrip(n: nat)
    ensures DecimalValue(NatToString(n)) == n
  {
    var s := NatToString(n);
    if n >= 10 {
      var prefix := NatToString(n / 10);
      assert s == prefix + [Digit(n % 10)];
      assert s[..|s| - 1] == prefix;
      NatToStringRoundTrip(n / 10);
      assert DecimalValue(s) == 10 * (n / 10) + n % 10;
    } else {
      assert s[..|s| - 1] == [];
    }
  }

  /** Different numbers print differently, so a numeric code matches at most one id. */
  lemma {:induction false} NatToStringInjective(n: nat, m: nat)
    requires NatToString(n) == NatToString(m)
    ensures n == m
  {
    if n >= 10 && m >= 10 {
      var s, sn, sm := NatToString(n), NatToString(n / 10), NatToString(m / 10);
      assert s == sn + [Digit(n % 10)] == sm + [Digit(m % 10)];
      assert s[..|s| - 1] == sn && s[..|s| - 1] == sm;
      assert Digit(n % 10) == s[|s| - 1] == Digit(m % 10);
      assert n % 10 == m % 10;
      NatToStringInjective(n / 10, m / 10);
    }
  }

  /**
   * One layer of a boundary GeoJSON layer group: its `properties.code`,
   * its `properties.prov_code` and its bounds.
   */
  datatype Feature = Feature(code: Prop, provCode: Prop, bounds: LatLngBounds)

  /** Which property the viewport scan compares. */
  datatype Key = ByRegionCode | ByProvinceCode

  function Property(f: Feature, key: Key): Prop {
    match key
    case ByRegionCode => f.code
    case ByProvinceCode => f.provCode
  }

  /** The scan's test: `property.toString() === regionId`. */
  predicate Matches(f: Feature, key: Key, regionId: string) {
    Property(f, key).ToString() == regionId
  }

  /** The requests one step of the scan makes. */
  function FitStep(f: Feature, key: Key, regionId: string): (rs: seq<MapRequest>)
    ensures |rs| <= 1
    ensures rs != [] <==> Matches(f, key, regionId)
    ensures forall r :: r in rs ==> r == FitBounds(f.bounds)
  {
    if Matches(f, key, regionId) then [FitBounds(f.bounds)] else []
  }

  /** One `fitBounds` to each feature's bounds, in order. */
  function BoundsFits(fs: seq<Feature>): (rs: seq<MapRequest>)
    ensures |rs| == |fs|
    ensures forall i :: 0 <= i < |fs| ==> rs[i] == FitBounds(fs[i].bounds)
  {
    if fs == [] then [] else [FitBounds(fs[0].bounds)] + BoundsFits(fs[1..])
  }

  /** Stepping through the layers fits exactly the matching ones, in order. */
  lemma {:induction false} CollectFitSteps(layers: seq<Feature>, key: Key, regionId: string)
    ensures Collect(layers, f => FitStep(f, key, regionId))
            == BoundsFits(Filter(layers, f => Matches(f, key, regionId)))
  {
    if layers != [] {
      var f := layers[0];
      var kept := Filter(layers[1..], g => Matches(g, key, regionId));
      CollectFitSteps(layers[1..], key, regionId);
      if Matches(f, key, regionId) {
        assert ([f] + kept)[0] == f && ([f] + kept)[1..] == kept;
        assert BoundsFits([f] + kept) == [FitBounds(f.bounds)] + BoundsFits(kept);
      } else {
        assert [] + kept == kept;
      }
    }
  }

  /**
   * The requests the scan over `_layers` makes: one `fitBounds` per
   * matching feature, in scan order.
   */
  function FitRequests(layers: seq<Feature>, key: Key, regionId: string): (rs: seq<MapRequest>)
    ensures rs == BoundsFits(Filter(layers, f => Matches(f, key, regionId)))
  {
    CollectFitSteps(layers, key, regionId);
    Collect(layers, f => FitStep(f, key, regionId))
  }

  /** Every matching feature is fitted: the converse of `FitRequestsAreMatches`. */
  lemma FitRequestsCoverMatches(layers: seq<Feature>, key: Key, regionId: string)
    ensures forall f :: f in layers && Matches(f, key, regionId) ==> FitBounds(f.bounds) in FitRequests(layers, key, regionId)
  {
    var kept := Filter(layers, g => Matches(g, key, regionId));
    forall f | f in layers && Matches(f, key, regionId)
      ensures FitBounds(f.bounds) in FitRequests(layers, key, regionId)
    {
      FilterMember(layers, g => Matches(g, key, regionId), f);
      var i :| 0 <= i < |kept| && kept[i] == f;
      assert FitRequests(layers, key, regionId)[i] == FitBounds(f.bounds);
    }
  }

  /** Every request of the scan fits the map to the bounds of some matching feature. */
  lemma {:induction false} FitRequestsAreMatches(layers: seq<Feature>, key: Key, regionId: string)
    ensures forall r :: r in FitRequests(layers, key, regionId) ==>
              r.FitBounds? && exists f :: f in layers && Matches(f, key, regionId) && r.bounds == f.bounds
  {
    if layers != [] {
      FitRequestsAreMatches(layers[1..], key, regionId);
      assert FitRequests(layers, key, regionId) == FitStep(layers[0], key, regionId) + FitRequests(layers[1..], key, regionId);
    }
  }

  /** Scanning one more layer appends that layer's step. */
  lemma FitRequestsSnoc(layers: seq<Feature>, i: nat, key: Key, regionId: string)
    requires i < |layers|
    ensures FitRequests(layers[..i + 1], key, regionId) == FitRequests(layers[..i], key, regionId) + FitStep(layers[i], key, regionId)
  {
    CollectSnoc(layers, i, f => FitStep(f, key, regionId));
  }

  /** The scan of a concatenation is the concatenation of the scans, so requests follow scan order. */
  lemma FitRequestsAppend(a: seq<Feature>, b: seq<Feature>, key: Key, regionId: string)
    ensures FitRequests(a + b, key, regionId) == FitRequests(a, key, regionId) + FitRequests(b, key, regionId)
  {
    CollectAppend(a, b, f => FitStep(f, key, regionId));
  }

  /** No matching feature: the scan makes no request. */
  lemma FitRequestsNone(layers: seq<Feature>, key: Key, regionId: string)
    requires forall i :: 0 <= i < |layers| ==> !Matches(layers[i], key, regionId)
    ensures FitRequests(layers, key, regionId) == []
  {
    CollectNone(layers, f => FitStep(f, key, regionId));
  }

  /** Exactly one matching feature: the scan fits the map to that feature's bounds, once. */
  lemma FitRequestsUnique(layers: seq<Feature>, key: Key, regionId: string, j: nat)
    requires j < |layers| && Matches(layers[j], key, regionId)
    requires forall i :: 0 <= i < |layers| && i != j ==> !Matches(layers[i], key, regionId)
    ensures FitRequests(layers, key, regionId) == [FitBounds(layers[j].bounds)]
  {
    CollectSingle(layers, j, f => FitStep(f, key, regionId));
  }

  /** deepOrange[700] of Material-UI's palette. */
  const DeepOrange700 := "#e64a19"

  /** The Leaflet path options a style function returns; absent keys are `None`. */
  datatype PathStyle = PathStyle(
    stroke: bool,
    color: Option<string>,
    weight: Option<int>,
    fillColor: string,
    fillOpacity: int)

  const Highlighted := PathStyle(true, Some(DeepOrange700), Some(2), "#FFF", 0)
  const Unhighlighted := PathStyle(false, None, None, "#FFF", 0)

  /**
   * The shared body of the style functions: highlight when the id is not
   * '0' and the property is strictly equal (`===`, no conversion) to it.
   */
  function StyleFor(regionId: string, prop: Prop): (st: PathStyle)
    ensures st.stroke <==> regionId != "0" && prop == Str(regionId)
    ensures st.fillOpacity == 0 && st.fillColor == "#FFF"
    ensures st.stroke ==> st.weight == Some(2) && st.color == Some(DeepOrange700)
    ensures !st.stroke ==> st.weight == None && st.color == None
  {
    if regionId != "0" && prop == Str(regionId) then Highlighted else Unhighlighted
  }

  /** `getRegionStyle(feature)`, the same in both map components. */
  function RegionStyle(regionId: string, f: Feature): (st: PathStyle)
    ensures st.stroke <==> regionId != "0" && f.code == Str(regionId)
    ensures st.fillOpacity == 0
  {
    StyleFor(regionId, f.code)
  }

  /** `getProvinceStyle(feature)`. */
  function ProvinceStyle(regionId: string, f: Feature): (st: PathStyle)
    ensures st.stroke <==> regionId != "0" && f.provCode == Str(regionId)
    ensures st.fillOpacity == 0
  {
    StyleFor(regionId, f.provCode)
  }

  /**
   * For a string code the style and the scan agree (apart from the id '0'),
   * but a numeric code is fitted by the scan and never highlighted.
   */
  lemma StyleVersusScan(regionId: string, f: Feature)
    ensures f.code.Str? && regionId != "0" ==> (RegionStyle(regionId, f).stroke <==> Matches(f, ByRegionCode, regionId))
    ensures f.code.Num? ==> !RegionStyle(regionId, f).stroke
    ensures f.code.Num? && regionId == NatToString(f.code.n) ==> Matches(f, ByRegionCode, regionId)
  {
  }

  /** A concrete case: a feature whose code is the number 3 is fitted for id "3" but not highlighted. */
  lemma NumericCodeExample(b: LatLngBounds)
    ensures Matches(Feature(Num(3), Str(""), b), ByRegionCode, "3")
    ensures !RegionStyle("3", Feature(Num(3), Str(""), b)).stroke
  {
    assert NatToString(3) == "3";
  }
}
