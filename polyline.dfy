/**
 * decodePolyline of src/lib/utils.ts: the Google Encoded Polyline Algorithm.
 *
 * The text is a sequence of values, alternately a latitude delta and a
 * longitude delta. Each value is written least significant group first in
 * 5-bit groups; a character's code minus 63 carries one group in its low five
 * bits and has 0x20 set when another group follows. The unsigned value is
 * zig-zag decoded to a signed delta, and each point is the running sum of the
 * deltas so far. Points here stay in units of 1e-5 degree: the source's final
 * division by 1e5 is not part of the model.
 */
module Polyline {
  import opened Wrappers

  /** A decoded point, in units of 1e-5 degree. */
  datatype Point = Point(lat: int, lng: int)

  /** One latitude/longitude pair of signed deltas. */
  datatype Delta = Delta(dLat: int, dLng: int)

  /**
   * The most 5-bit groups one value may take. Six groups are 30 bits, so for
   * such values the source's 32-bit `<<`, `|` and `>>` are exact and `|` of
   * the disjoint groups is their sum.
   */
  const MaxGroups: nat := 6

  function Pow2(n: nat): (r: nat)
    ensures r >= 1
  {
    if n == 0 then 1 else 2 * Pow2(n - 1)
  }

  lemma Pow2Plus5(n: nat)
    ensures Pow2(n + 5) == 32 * Pow2(n)
  {
    assert Pow2(n + 5) == 2 * Pow2(n + 4);
    assert Pow2(n + 4) == 2 * Pow2(n + 3);
    assert Pow2(n + 3) == 2 * Pow2(n + 2);
    assert Pow2(n + 2) == 2 * Pow2(n + 1);
  }

  /**
   * The group at `index` and whether another group follows: `charCodeAt(index) - 63`
   * masked with 0x1f, continuing while it is at least 0x20. Past the end of the
   * text charCodeAt gives NaN, whose mask is 0 and which does not continue.
   */
  function GroupAt(encoded: string, index: nat): (nat, bool) {
    if index < |encoded| then
      var b := encoded[index] as int - 63;
      (b % 32, b >= 32)
    else (0, false)
  }

  /** `(b & 0x1f) << shift`: the contribution of a group at bit `shift`. */
  function Shifted(chunk: nat, shift: nat): nat {
    chunk * Pow2(shift)
  }

  /** `result & 1 ? ~(result >> 1) : result >> 1`: odd values are negative deltas. */
  function ZigZag(result: nat): int {
    if result % 2 == 1 then -(result / 2) - 1 else result / 2
  }

  /** An unsigned value read from the text, and the index just after its last group. */
  datatype Read = Read(number: nat, next: nat)

  /**
   * The value whose first group is at `index`; None when it takes more than
   * `budget` groups.
   */
  function ReadVarint(encoded: string, index: nat, budget: nat): (r: Option<Read>)
    ensures r.Some? ==> index < r.value.next
    ensures r.Some? && index <= |encoded| ==> r.value.next <= |encoded| + 1
    decreases budget
  {
    if budget == 0 then None
    else
      var group := GroupAt(encoded, index);
      if !group.1 then Some(Read(group.0, index + 1))
      else
        var rest := ReadVarint(encoded, index + 1, budget - 1);
        if rest.None? then None
        else Some(Read(group.0 + 32 * rest.value.number, rest.value.next))
  }

  /** A value of at most `budget` groups is below 2^(5 * budget). */
  lemma {:induction false} ReadVarintBound(encoded: string, index: nat, budget: nat)
    requires ReadVarint(encoded, index, budget).Some?
    ensures ReadVarint(encoded, index, budget).value.number < Pow2(5 * budget)
    decreases budget
  {
    var group := GroupAt(encoded, index);
    Pow2Plus5(5 * (budget - 1));
    if group.1 {
      ReadVarintBound(encoded, index + 1, budget - 1);
    }
  }

  /** The (latitude, longitude) delta pairs from `index` on; None when some value is too long. */
  function Deltas(encoded: string, index: nat): Option<seq<Delta>>
    decreases |encoded| - index
  {
    if index >= |encoded| then Some([])
    else
      var lat := ReadVarint(encoded, index, MaxGroups);
      if lat.None? then None
      else
        var lng := ReadVarint(encoded, lat.value.next, MaxGroups);
        if lng.None? then None
        else
          var rest := Deltas(encoded, lng.value.next);
          if rest.None? then None
          else Some([Delta(ZigZag(lat.value.number), ZigZag(lng.value.number))] + rest.value)
  }

  /** Every value of the text fits in six groups. */
  predicate WellFormed(encoded: string) {
    Deltas(encoded, 0).Some?
  }

  /** The points reached from (lat, lng) by adding the deltas one after the other. */
  function RunningSums(ds: seq<Delta>, lat: int, lng: int): (ps: seq<Point>)
    ensures |ps| == |ds|
  {
    if ds == [] then []
    else
      var p := Point(lat + ds[0].dLat, lng + ds[0].dLng);
      [p] + RunningSums(ds[1..], p.lat, p.lng)
  }

  /** What decodePolyline returns, scaled by 1e5. */
  function Decode(encoded: string): seq<Point>
    requires WellFormed(encoded)
  {
    RunningSums(Deltas(encoded, 0).value, 0, 0)
  }

  /** One step of Deltas: a latitude value, a longitude value, then the rest. */
  lemma DeltasStep(encoded: string, index: nat)
    requires index < |encoded| && Deltas(encoded, index).Some?
    ensures ReadVarint(encoded, index, MaxGroups).Some?
    ensures var lat := ReadVarint(encoded, index, MaxGroups).value;
            ReadVarint(encoded, lat.next, MaxGroups).Some?
    ensures var lat := ReadVarint(encoded, index, MaxGroups).value;
            var lng := ReadVarint(encoded, lat.next, MaxGroups).value;
            && Deltas(encoded, lng.next).Some?
            && Deltas(encoded, index).value
               == [Delta(ZigZag(lat.number), ZigZag(lng.number))] + Deltas(encoded, lng.next).value
  {
  }

  /**
   * One group of a value: when the group at `index` continues, the value is
   * that group plus 32 times the value from `index + 1`; otherwise it is the
   * group alone. Stated for a partial result and the shift of the group.
   */
  lemma ReadStep(encoded: string, index: nat, budget: nat, result: nat, shift: nat)
    requires ReadVarint(encoded, index, budget).Some?
    ensures var group := GroupAt(encoded, index);
            var whole := ReadVarint(encoded, index, budget).value;
            var partial := result + Shifted(group.0, shift);
            if group.1 then
              && ReadVarint(encoded, index + 1, budget - 1).Some?
              && result + Pow2(shift) * whole.number
                 == partial + Pow2(shift + 5) * ReadVarint(encoded, index + 1, budget - 1).value.number
              && whole.next == ReadVarint(encoded, index + 1, budget - 1).value.next
            else
              whole == Read(group.0, index + 1) && result + Pow2(shift) * whole.number == partial
  {
    var group := GroupAt(encoded, index);
    var p := Pow2(shift);
    if group.1 {
      var rest := ReadVarint(encoded, index + 1, budget - 1).value;
      Pow2Plus5(shift);
      ContinuedGroupShift(result, p, Pow2(shift + 5), group.0, rest.number);
    } else {
      assert p * group.0 == group.0 * p;
    }
  }

  lemma ContinuedGroupShift(result: nat, p: nat, p32: nat, chunk: nat, rest: nat)
    requires p32 == 32 * p
    ensures result + p * (chunk + 32 * rest) == (result + chunk * p) + p32 * rest
  {
  }

  /** One do-while loop of decodePolyline: reads the value whose first group is at `index`. */
  method ReadValue(encoded: string, index: nat) returns (result: nat, next: nat)
    requires ReadVarint(encoded, index, MaxGroups).Some?
    ensures ReadVarint(encoded, index, MaxGroups) == Some(Read(result, next))
  {
    ghost var whole := ReadVarint(encoded, index, MaxGroups).value;
    next := index;
    result := 0;
    var shift: nat := 0;
    ghost var groups: nat := 0;
    var more := true;
    while more
      invariant groups <= MaxGroups
      invariant more ==> ReadVarint(encoded, next, MaxGroups - groups).Some?
      invariant more ==> whole.number == result + Pow2(shift) * ReadVarint(encoded, next, MaxGroups - groups).value.number
      invariant more ==> whole.next == ReadVarint(encoded, next, MaxGroups - groups).value.next
      invariant !more ==> whole == Read(result, next)
      decreases MaxGroups - groups
    {
      ReadStep(encoded, next, MaxGroups - groups, result, shift);
      var group := GroupAt(encoded, next);
      next := next + 1;
      result := result + Shifted(group.0, shift);
      shift := shift + 5;
      groups := groups + 1;
      more := group.1;
    }
  }

  /** The two do-while loops of one turn of decodePolyline: a latitude delta, then a longitude delta. */
  method ReadPair(encoded: string, index: nat, ghost before: seq<Delta>)
    returns (dLat: int, dLng: int, next: nat, ghost after: seq<Delta>)
    requires index < |encoded| && Deltas(encoded, index) == Some(before)
    ensures index < next && Deltas(encoded, next) == Some(after)
    ensures before == [Delta(dLat, dLng)] + after
  {
    DeltasStep(encoded, index);
    var latValue, afterLat := ReadValue(encoded, index);
    var lngValue, afterLng := ReadValue(encoded, afterLat);
    dLat := ZigZag(latValue);
    dLng := ZigZag(lngValue);
    next := afterLng;
    after := Deltas(encoded, next).value;
  }

  /** One turn of the decoder loop: reads a pair of deltas and pushes the point they lead to. */
  method DecodeStep(
    encoded: string, index: nat, lat: int, lng: int, points: seq<Point>, ghost rest: seq<Delta>, ghost target: seq<Point>)
    returns (next: nat, lat': int, lng': int, points': seq<Point>, ghost rest': seq<Delta>)
    requires index < |encoded| && Deltas(encoded, index) == Some(rest)
    requires DecodedSoFar(points, rest, lat, lng, target)
    ensures index < next && Deltas(encoded, next) == Some(rest')
    ensures DecodedSoFar(points', rest', lat', lng', target)
  {
    var dLat, dLng;
    dLat, dLng, next, rest' := ReadPair(encoded, index, rest);
    lat' := lat + dLat;
    lng' := lng + dLng;
    points' := points + [Point(lat', lng')];
    SumsStep(points, rest, lat, lng, dLat, dLng, rest', target, points', lat', lng');
  }

  /** decodePolyline, without the final division by 1e5. */
  method DecodePolyline(encoded: string) returns (points: seq<Point>)
    requires WellFormed(encoded)
    ensures points == Decode(encoded)
    ensures encoded == [] ==> points == []
  {
    points := [];
    var index: nat := 0;
    var lat, lng := 0, 0;
    ghost var rest := Deltas(encoded, 0).value;
    ghost var target := Decode(encoded);
    while index < |encoded|
      invariant Deltas(encoded, index) == Some(rest)
      invariant DecodedSoFar(points, rest, lat, lng, target)
      decreases |encoded| - index
    {
      index, lat, lng, points, rest := DecodeStep(encoded, index, lat, lng, points, rest, target);
    }
    assert rest == [];
    assert points + [] == points;
  }

  /** The points pushed so far, followed by the running sums of the deltas still to read, are the whole decoding. */
  ghost predicate DecodedSoFar(points: seq<Point>, rest: seq<Delta>, lat: int, lng: int, target: seq<Point>) {
    points + RunningSums(rest, lat, lng) == target
  }

  /** One turn of the decoder loop: the point it pushes is the first running sum. */
  lemma SumsStep(
    points: seq<Point>, before: seq<Delta>, lat: int, lng: int, dLat: int, dLng: int, rest: seq<Delta>,
    target: seq<Point>, points': seq<Point>, lat': int, lng': int)
    requires before == [Delta(dLat, dLng)] + rest
    requires lat' == lat + dLat && lng' == lng + dLng
    requires points' == points + [Point(lat', lng')]
    requires DecodedSoFar(points, before, lat, lng, target)
    ensures DecodedSoFar(points', rest, lat', lng', target)
  {
    assert before[1..] == rest;
    assert RunningSums(before, lat, lng) == [Point(lat', lng')] + RunningSums(rest, lat', lng');
  }

  // ---------------------------------------------------------------------
  // Properties: running sums, and the encoder the algorithm defines
  // ---------------------------------------------------------------------

  function SumLat(ds: seq<Delta>): int {
    if ds == [] then 0 else ds[0].dLat + SumLat(ds[1..])
  }

  function SumLng(ds: seq<Delta>): int {
    if ds == [] then 0 else ds[0].dLng + SumLng(ds[1..])
  }

  /** Point i is the start plus the sum of the first i + 1 deltas. */
  lemma {:induction false} RunningSumsAt(ds: seq<Delta>, lat: int, lng: int, i: nat)
    requires i < |ds|
    ensures RunningSums(ds, lat, lng)[i] == Point(lat + SumLat(ds[..i + 1]), lng + SumLng(ds[..i + 1]))
  {
    var p := Point(lat + ds[0].dLat, lng + ds[0].dLng);
    assert ds[..i + 1][1..] == ds[1..][..i];
    if i > 0 {
      RunningSumsAt(ds[1..], p.lat, p.lng, i - 1);
    }
  }

  /** Decoded point i is the sum of the first i + 1 decoded deltas. */
  lemma DecodedPointIsPrefixSum(encoded: string, i: nat)
    requires WellFormed(encoded)
    requires i < |Decode(encoded)|
    ensures var ds := Deltas(encoded, 0).value;
            Decode(encoded)[i] == Point(SumLat(ds[..i + 1]), SumLng(ds[..i + 1]))
  {
    RunningSumsAt(Deltas(encoded, 0).value, 0, 0, i);
  }

  /** The inverse of ZigZag: negative deltas go to odd values. */
  function UnZigZag(d: int): nat {
    if d < 0 then -2 * d - 1 else 2 * d
  }

  lemma ZigZagRoundTrip(d: int)
    ensures ZigZag(UnZigZag(d)) == d
  {
  }

  /** A delta fits in six groups. */
  predicate Encodable(d: int) {
    UnZigZag(d) < Pow2(5 * MaxGroups)
  }

  function GroupChar(g: nat): char
    requires g < 64
  {
    (g + 63) as char
  }

  /** The groups of a value, least significant first, all but the last flagged with 0x20. */
  function EncodeVarint(v: nat): (s: string)
    ensures |s| >= 1
    decreases v
  {
    if v < 32 then [GroupChar(v)] else [GroupChar(v % 32 + 32)] + EncodeVarint(v / 32)
  }

  /** The polyline text of a sequence of delta pairs. */
  function Encode(ds: seq<Delta>): string {
    if ds == [] then []
    else EncodeVarint(UnZigZag(ds[0].dLat)) + EncodeVarint(UnZigZag(ds[0].dLng)) + Encode(ds[1..])
  }

  /** The deltas that lead from (lat, lng) through the points. */
  function Differences(ps: seq<Point>, lat: int, lng: int): (ds: seq<Delta>)
    ensures |ds| == |ps|
  {
    if ps == [] then []
    else [Delta(ps[0].lat - lat, ps[0].lng - lng)] + Differences(ps[1..], ps[0].lat, ps[0].lng)
  }

  /** The polyline text of a sequence of points (scaled by 1e5). */
  function EncodePoints(ps: seq<Point>): string {
    Encode(Differences(ps, 0, 0))
  }

  /** Reading an encoded value back, wherever it sits in a text, gives the value and the index after it. */
  lemma {:induction false} ReadEncodedVarint(p: string, v: nat, t: string, budget: nat)
    requires budget >= 1 && v < Pow2(5 * budget)
    ensures ReadVarint(p + EncodeVarint(v) + t, |p|, budget) == Some(Read(v, |p + EncodeVarint(v)|))
    decreases v
  {
    var s := p + EncodeVarint(v) + t;
    assert s[|p|] == EncodeVarint(v)[0];
    if v < 32 {
      assert GroupAt(s, |p|) == (v, false);
    } else {
      Pow2Plus5(5 * (budget - 1));
      assert v / 32 < Pow2(5 * (budget - 1));
      var p' := p + [GroupChar(v % 32 + 32)];
      assert s == p' + EncodeVarint(v / 32) + t;
      assert GroupAt(s, |p|) == (v % 32, true);
      ReadEncodedVarint(p', v / 32, t, budget - 1);
      assert ReadVarint(s, |p| + 1, budget - 1) == Some(Read(v / 32, |p' + EncodeVarint(v / 32)|));
      assert v % 32 + 32 * (v / 32) == v;
    }
  }

  /** Decoding the text of delta pairs gives back those deltas. */
  lemma {:induction false} DeltasOfEncode(p: string, ds: seq<Delta>)
    requires forall i :: 0 <= i < |ds| ==> Encodable(ds[i].dLat) && Encodable(ds[i].dLng)
    ensures Deltas(p + Encode(ds), |p|) == Some(ds)
    decreases |ds|
  {
    if ds == [] {
      assert p + Encode(ds) == p;
    } else {
      var a, b := UnZigZag(ds[0].dLat), UnZigZag(ds[0].dLng);
      var ea, eb := EncodeVarint(a), EncodeVarint(b);
      var rest := Encode(ds[1..]);
      DeltasOfEncode(p + ea + eb, ds[1..]);
      PairStep(p, a, b, rest, ds[1..]);
      ZigZagRoundTrip(ds[0].dLat);
      ZigZagRoundTrip(ds[0].dLng);
      assert [ds[0]] + ds[1..] == ds;
    }
  }

  /** One delta pair more in front of a text whose deltas from its end are known. */
  lemma PairStep(p: string, a: nat, b: nat, rest: string, tail: seq<Delta>)
    requires a < Pow2(5 * MaxGroups) && b < Pow2(5 * MaxGroups)
    requires Deltas(p + EncodeVarint(a) + EncodeVarint(b) + rest, |p + EncodeVarint(a) + EncodeVarint(b)|) == Some(tail)
    ensures Deltas(p + (EncodeVarint(a) + EncodeVarint(b) + rest), |p|) == Some([Delta(ZigZag(a), ZigZag(b))] + tail)
  {
    var ea, eb := EncodeVarint(a), EncodeVarint(b);
    var q := p + ea;
    var r := q + eb;
    var s := p + (ea + eb + rest);
    assert s == p + ea + (eb + rest) && s == q + eb + rest && s == r + rest;
    ReadEncodedVarint(p, a, eb + rest, MaxGroups);
    ReadEncodedVarint(q, b, rest, MaxGroups);
    DeltasUnfold(s, |p|, Read(a, |q|), Read(b, |r|), tail);
  }

  /** Deltas from `index` when both values there and the rest are known. */
  lemma DeltasUnfold(encoded: string, index: nat, lat: Read, lng: Read, rest: seq<Delta>)
    requires index < |encoded|
    requires ReadVarint(encoded, index, MaxGroups) == Some(lat)
    requires ReadVarint(encoded, lat.next, MaxGroups) == Some(lng)
    requires Deltas(encoded, lng.next) == Some(rest)
    ensures Deltas(encoded, index) == Some([Delta(ZigZag(lat.number), ZigZag(lng.number))] + rest)
  {
  }

  /** Adding up the differences of a sequence of points gives back the points. */
  lemma {:induction false} RunningSumsOfDifferences(ps: seq<Point>, lat: int, lng: int)
    ensures RunningSums(Differences(ps, lat, lng), lat, lng) == ps
  {
    if ps != [] {
      RunningSumsOfDifferences(ps[1..], ps[0].lat, ps[0].lng);
      assert [ps[0]] + ps[1..] == ps;
    }
  }

  /** Points whose successive differences each fit in six groups. */
  predicate EncodablePoints(ps: seq<Point>) {
    var ds := Differences(ps, 0, 0);
    forall i :: 0 <= i < |ds| ==> Encodable(ds[i].dLat) && Encodable(ds[i].dLng)
  }

  /** Decoding an encoded polyline gives back its points. */
  lemma DecodeEncodePoints(ps: seq<Point>)
    requires EncodablePoints(ps)
    ensures WellFormed(EncodePoints(ps)) && Decode(EncodePoints(ps)) == ps
  {
    var ds := Differences(ps, 0, 0);
    DeltasOfEncode([], ds);
    assert [] + Encode(ds) == Encode(ds);
    RunningSumsOfDifferences(ps, 0, 0);
  }
}
