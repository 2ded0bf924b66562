/** The dual-threshold AND mask: the per-voxel predicate, the 0/65535 plane it
    produces, how many voxels it marks, and the true-voxel fraction reported
    for a whole mask channel. */
module Masks {
  import opened Volumes

  /** A co-localisation request: channel A with its threshold, channel B with
      its threshold. Thresholds are exact reals; voxels compare exactly. */
  datatype Coloc = Coloc(chA: nat, thrA: real, chB: nat, thrB: real)

  /** The mask predicate at one voxel position. */
  predicate Hit(x: Voxel, y: Voxel, thrA: real, thrB: real) {
    x as real >= thrA && y as real >= thrB
  }

  function MaskVoxel(x: Voxel, y: Voxel, thrA: real, thrB: real): Voxel {
    if Hit(x, y, thrA, thrB) then MaxU16 else 0
  }

  /** The output plane: MaxU16 where both inputs reach their thresholds. */
  function MaskPlane(a: seq<Voxel>, b: seq<Voxel>, thrA: real, thrB: real): seq<Voxel>
    requires |a| == |b|
  {
    seq(|a|, i requires 0 <= i < |a| => MaskVoxel(a[i], b[i], thrA, thrB))
  }

  /** The running count of the inner loop after `i` positions. */
  function HitsBelow(a: seq<Voxel>, b: seq<Voxel>, thrA: real, thrB: real, i: nat): (r: nat)
    requires |a| == |b| && i <= |a|
    ensures r <= i
  {
    if i == 0 then 0
    else HitsBelow(a, b, thrA, thrB, i - 1) + (if Hit(a[i - 1], b[i - 1], thrA, thrB) then 1 else 0)
  }

  /** The number of voxels of a plane the mask marks. */
  function CountTrue(a: seq<Voxel>, b: seq<Voxel>, thrA: real, thrB: real): (r: nat)
    requires |a| == |b|
    ensures r <= |a|
  {
    HitsBelow(a, b, thrA, thrB, |a|)
  }

  /** The positions of a plane where the predicate holds. */
  function HitPositions(a: seq<Voxel>, b: seq<Voxel>, thrA: real, thrB: real): set<nat>
    requires |a| == |b|
  {
    set i: nat | i < |a| && Hit(a[i], b[i], thrA, thrB)
  }

  lemma {:induction false} HitsBelowArePositions(a: seq<Voxel>, b: seq<Voxel>, thrA: real, thrB: real, i: nat)
    requires |a| == |b| && i <= |a|
    ensures HitsBelow(a, b, thrA, thrB, i) == |set j: nat | j < i && Hit(a[j], b[j], thrA, thrB)|
  {
    var hits := set j: nat | j < i && Hit(a[j], b[j], thrA, thrB);
    if i == 0 {
      assert hits == {};
    } else {
      HitsBelowArePositions(a, b, thrA, thrB, i - 1);
      var before := set j: nat | j < i - 1 && Hit(a[j], b[j], thrA, thrB);
      if Hit(a[i - 1], b[i - 1], thrA, thrB) {
        assert hits == before + {i - 1};
      } else {
        assert hits == before;
      }
    }
  }

  /** The count is the number of positions satisfying the predicate. */
  lemma CountTrueIsHitPositions(a: seq<Voxel>, b: seq<Voxel>, thrA: real, thrB: real)
    requires |a| == |b|
    ensures CountTrue(a, b, thrA, thrB) == |HitPositions(a, b, thrA, thrB)|
  {
    HitsBelowArePositions(a, b, thrA, thrB, |a|);
    assert HitPositions(a, b, thrA, thrB) == set j: nat | j < |a| && Hit(a[j], b[j], thrA, thrB);
  }

  lemma {:induction false} HitsBelowAreMaskOnes(a: seq<Voxel>, b: seq<Voxel>, thrA: real, thrB: real, i: nat)
    requires |a| == |b| && i <= |a|
    ensures HitsBelow(a, b, thrA, thrB, i) == multiset(MaskPlane(a, b, thrA, thrB)[..i])[MaxU16]
  {
    if i > 0 {
      HitsBelowAreMaskOnes(a, b, thrA, thrB, i - 1);
      var m := MaskPlane(a, b, thrA, thrB);
      assert m[..i] == m[..i - 1] + [m[i - 1]];
    }
  }

  /** The count is the number of MaxU16 voxels in the written plane. */
  lemma CountTrueIsMaskOnes(a: seq<Voxel>, b: seq<Voxel>, thrA: real, thrB: real)
    requires |a| == |b|
    ensures CountTrue(a, b, thrA, thrB) == multiset(MaskPlane(a, b, thrA, thrB))[MaxU16]
  {
    HitsBelowAreMaskOnes(a, b, thrA, thrB, |a|);
    var m := MaskPlane(a, b, thrA, thrB);
    assert m[..|a|] == m;
  }

  /** The inner loop over one plane: a zero-initialised buffer, MaxU16 written
      where both inputs reach their thresholds, and a running count. */
  method MaskBuffer(a: seq<Voxel>, b: seq<Voxel>, thrA: real, thrB: real) returns (out: seq<Voxel>, cnt: nat)
    requires |a| == |b|
    ensures |out| == |a|
    ensures forall i | 0 <= i < |out| :: out[i] == MaxU16 <==> Hit(a[i], b[i], thrA, thrB)
    ensures forall i | 0 <= i < |out| :: out[i] == 0 <==> !Hit(a[i], b[i], thrA, thrB)
    ensures out == MaskPlane(a, b, thrA, thrB)
    ensures cnt == CountTrue(a, b, thrA, thrB)
  {
    var n := |a|;
    var buf := new Voxel[n](_ => 0);
    cnt := 0;
    for i := 0 to n
      invariant forall j | 0 <= j < i :: buf[j] == MaskVoxel(a[j], b[j], thrA, thrB)
      invariant forall j | i <= j < n :: buf[j] == 0
      invariant cnt == HitsBelow(a, b, thrA, thrB, i)
    {
      if Hit(a[i], b[i], thrA, thrB) {
        buf[i] := MaxU16;
        cnt := cnt + 1;
      }
    }
    out := buf[..];
  }

  /** With a zero threshold on channel B (the DAPI thresholds of the analysis),
      channel B plays no part: any two B planes give the same mask. */
  lemma ZeroThresholdIgnoresB(a: seq<Voxel>, b: seq<Voxel>, b': seq<Voxel>, thrA: real)
    requires |a| == |b| == |b'|
    ensures MaskPlane(a, b, thrA, 0.0) == MaskPlane(a, b', thrA, 0.0)
  {
  }

  lemma {:induction false} ZeroThresholdsHitBelow(a: seq<Voxel>, b: seq<Voxel>, i: nat)
    requires |a| == |b| && i <= |a|
    ensures HitsBelow(a, b, 0.0, 0.0, i) == i
  {
    if i > 0 {
      ZeroThresholdsHitBelow(a, b, i - 1);
    }
  }

  /** Two zero thresholds mark every voxel; the fraction is one. */
  lemma ZeroThresholdsMarkAll(a: seq<Voxel>, b: seq<Voxel>)
    requires |a| == |b|
    ensures MaskPlane(a, b, 0.0, 0.0) == seq(|a|, _ => MaxU16)
    ensures CountTrue(a, b, 0.0, 0.0) == |a|
  {
    ZeroThresholdsHitBelow(a, b, |a|);
  }

  /** A 2x2 plane: A = [100, 0, 700, 600] against 600, B = [1, 1, 1, 1] against 0. */
  lemma ExampleTwoOfFour()
    ensures MaskPlane([100, 0, 700, 600], [1, 1, 1, 1], 600.0, 0.0) == [0, 0, MaxU16, MaxU16]
    ensures CountTrue([100, 0, 700, 600], [1, 1, 1, 1], 600.0, 0.0) == 2
  {
    var a: seq<Voxel> := [100, 0, 700, 600];
    var b: seq<Voxel> := [1, 1, 1, 1];
    assert HitsBelow(a, b, 600.0, 0.0, 1) == 0;
    assert HitsBelow(a, b, 600.0, 0.0, 2) == 0;
    assert HitsBelow(a, b, 600.0, 0.0, 3) == 1;
  }

  // ---- accounting over a whole mask channel ----

  /** Hits of slice (t, z) under the stored planes `P`. */
  function SliceTrue(P: map<Key, seq<Voxel>>, n: nat, co: Coloc, t: nat, z: nat): (r: nat)
    requires Uniform(P, n)
    ensures r <= n
  {
    CountTrue(PlaneIn(P, n, (co.chA, t, z)), PlaneIn(P, n, (co.chB, t, z)), co.thrA, co.thrB)
  }

  /** Hits of the slices (t, 0) .. (t, z - 1). */
  function RowTrue(P: map<Key, seq<Voxel>>, n: nat, co: Coloc, t: nat, z: nat): nat
    requires Uniform(P, n)
  {
    if z == 0 then 0
    else RowTrue(P, n, co, t, z - 1) + SliceTrue(P, n, co, t, z - 1)
  }

  /** Hits of every slice with time below `st` and z below `sz`. */
  function TotalTrue(P: map<Key, seq<Voxel>>, n: nat, co: Coloc, st: nat, sz: nat): nat
    requires Uniform(P, n)
  {
    if st == 0 then 0
    else TotalTrue(P, n, co, st - 1, sz) + RowTrue(P, n, co, st - 1, sz)
  }

  /** A row of `z` slices has at most `n * z` hits. */
  lemma {:induction false} RowTrueBound(P: map<Key, seq<Voxel>>, n: nat, co: Coloc, t: nat, z: nat)
    requires Uniform(P, n)
    ensures RowTrue(P, n, co, t, z) <= n * z
  {
    if z > 0 {
      RowTrueBound(P, n, co, t, z - 1);
      assert n * z == n * (z - 1) + n;
    }
  }

  lemma PassSizeStep(n: nat, st: nat, sz: nat)
    requires st > 0
    ensures n * st * sz == n * (st - 1) * sz + n * sz
  {
    var m := n * (st - 1);
    assert n * st == m + n;
    assert (m + n) * sz == m * sz + n * sz;
  }

  /** A pass over `st` time points of `sz` slices has at most
      `n * st * sz` hits. */
  lemma {:induction false} TotalTrueBound(P: map<Key, seq<Voxel>>, n: nat, co: Coloc, st: nat, sz: nat)
    requires Uniform(P, n)
    ensures TotalTrue(P, n, co, st, sz) <= n * st * sz
  {
    if st > 0 {
      TotalTrueBound(P, n, co, st - 1, sz);
      RowTrueBound(P, n, co, st - 1, sz);
      PassSizeStep(n, st, sz);
    }
  }

  /** A row's count depends on the two input channels only. */
  lemma {:induction false} RowTrueReadsOnlyInputs(P: map<Key, seq<Voxel>>, Q: map<Key, seq<Voxel>>, n: nat, co: Coloc, t: nat, z: nat)
    requires Uniform(P, n) && Uniform(Q, n)
    requires forall z' :: PlaneIn(P, n, (co.chA, t, z')) == PlaneIn(Q, n, (co.chA, t, z'))
    requires forall z' :: PlaneIn(P, n, (co.chB, t, z')) == PlaneIn(Q, n, (co.chB, t, z'))
    ensures RowTrue(P, n, co, t, z) == RowTrue(Q, n, co, t, z)
  {
    if z > 0 {
      RowTrueReadsOnlyInputs(P, Q, n, co, t, z - 1);
      assert PlaneIn(P, n, (co.chA, t, z - 1)) == PlaneIn(Q, n, (co.chA, t, z - 1));
      assert PlaneIn(P, n, (co.chB, t, z - 1)) == PlaneIn(Q, n, (co.chB, t, z - 1));
    }
  }

  /** The count depends on the two input channels only. */
  lemma {:induction false} TotalTrueReadsOnlyInputs(P: map<Key, seq<Voxel>>, Q: map<Key, seq<Voxel>>, n: nat, co: Coloc, st: nat, sz: nat)
    requires Uniform(P, n) && Uniform(Q, n)
    requires forall t, z :: PlaneIn(P, n, (co.chA, t, z)) == PlaneIn(Q, n, (co.chA, t, z))
    requires forall t, z :: PlaneIn(P, n, (co.chB, t, z)) == PlaneIn(Q, n, (co.chB, t, z))
    ensures TotalTrue(P, n, co, st, sz) == TotalTrue(Q, n, co, st, sz)
  {
    if st > 0 {
      TotalTrueReadsOnlyInputs(P, Q, n, co, st - 1, sz);
      RowTrueReadsOnlyInputs(P, Q, n, co, st - 1, sz);
    }
  }

  /** Position `i` of slice (t, z) is marked under the stored planes `P`. */
  predicate HitAt(P: map<Key, seq<Voxel>>, n: nat, co: Coloc, t: nat, z: nat, i: nat)
    requires Uniform(P, n)
  {
    i < n && Hit(PlaneIn(P, n, (co.chA, t, z))[i], PlaneIn(P, n, (co.chB, t, z))[i], co.thrA, co.thrB)
  }

  /** The marked positions (t, z', i) of the slices (t, 0) .. (t, z - 1). */
  ghost function RowHits(P: map<Key, seq<Voxel>>, n: nat, co: Coloc, t: nat, z: nat): set<(nat, nat, nat)>
    requires Uniform(P, n)
  {
    set z': nat, i: nat | z' < z && i < n && HitAt(P, n, co, t, z', i) :: (t, z', i)
  }

  /** The marked positions (t, z, i) of a whole pass over `st` time points of
      `sz` slices. */
  ghost function PassHits(P: map<Key, seq<Voxel>>, n: nat, co: Coloc, st: nat, sz: nat): set<(nat, nat, nat)>
    requires Uniform(P, n)
  {
    set t: nat, z: nat, i: nat | t < st && z < sz && i < n && HitAt(P, n, co, t, z, i) :: (t, z, i)
  }

  /** Positions `S` of slice (t, z) as addresses (t, z, i). */
  ghost function Tagged(t: nat, z: nat, S: set<nat>): set<(nat, nat, nat)> {
    set i | i in S :: (t, z, i)
  }

  /** Tagging positions with a slice address keeps their number. */
  lemma {:induction false} TaggedCard(t: nat, z: nat, S: set<nat>)
    ensures |Tagged(t, z, S)| == |S|
  {
    if S != {} {
      var x :| x in S;
      var rest := S - {x};
      TaggedCard(t, z, rest);
      assert Tagged(t, z, S) == Tagged(t, z, rest) + {(t, z, x)};
      assert S == rest + {x};
    }
  }

  /** The marked positions (t, z, i) of slice (t, z). */
  ghost function SliceHits(P: map<Key, seq<Voxel>>, n: nat, co: Coloc, t: nat, z: nat): set<(nat, nat, nat)>
    requires Uniform(P, n)
  {
    set i: nat | i < n && HitAt(P, n, co, t, z, i) :: (t, z, i)
  }

  /** A slice's count is the number of its marked positions. */
  lemma SliceTrueIsHits(P: map<Key, seq<Voxel>>, n: nat, co: Coloc, t: nat, z: nat)
    requires Uniform(P, n)
    ensures SliceTrue(P, n, co, t, z) == |SliceHits(P, n, co, t, z)|
  {
    var a, b := PlaneIn(P, n, (co.chA, t, z)), PlaneIn(P, n, (co.chB, t, z));
    CountTrueIsHitPositions(a, b, co.thrA, co.thrB);
    TaggedCard(t, z, HitPositions(a, b, co.thrA, co.thrB));
    assert SliceHits(P, n, co, t, z) == Tagged(t, z, HitPositions(a, b, co.thrA, co.thrB));
  }

  /** The row through slice z is the row before it and that slice, apart. */
  lemma RowHitsStep(P: map<Key, seq<Voxel>>, n: nat, co: Coloc, t: nat, z: nat)
    requires Uniform(P, n)
    ensures |RowHits(P, n, co, t, z + 1)| == |RowHits(P, n, co, t, z)| + |SliceHits(P, n, co, t, z)|
  {
    forall x | x in RowHits(P, n, co, t, z + 1)
      ensures x in RowHits(P, n, co, t, z) + SliceHits(P, n, co, t, z)
    {
      var z': nat, i: nat :| z' < z + 1 && i < n && HitAt(P, n, co, t, z', i) && x == (t, z', i);
      if z' < z {
        assert x in RowHits(P, n, co, t, z);
      } else {
        assert x in SliceHits(P, n, co, t, z);
      }
    }
    forall x | x in SliceHits(P, n, co, t, z)
      ensures x in RowHits(P, n, co, t, z + 1) && x !in RowHits(P, n, co, t, z)
    {
      var i: nat :| i < n && HitAt(P, n, co, t, z, i) && x == (t, z, i);
    }
    assert RowHits(P, n, co, t, z + 1) == RowHits(P, n, co, t, z) + SliceHits(P, n, co, t, z);
    assert RowHits(P, n, co, t, z) !! SliceHits(P, n, co, t, z);
  }

  /** No slice before the first has marked positions. */
  lemma EmptyHits(P: map<Key, seq<Voxel>>, n: nat, co: Coloc, t: nat, sz: nat)
    requires Uniform(P, n)
    ensures RowHits(P, n, co, t, 0) == {} && PassHits(P, n, co, 0, sz) == {}
  {
  }

  /** A row's count is the number of its marked positions. */
  lemma {:induction false} RowTrueIsHits(P: map<Key, seq<Voxel>>, n: nat, co: Coloc, t: nat, z: nat)
    requires Uniform(P, n)
    ensures RowTrue(P, n, co, t, z) == |RowHits(P, n, co, t, z)|
  {
    if z == 0 {
      EmptyHits(P, n, co, t, 0);
    } else {
      RowTrueIsHits(P, n, co, t, z - 1);
      SliceTrueIsHits(P, n, co, t, z - 1);
      RowHitsStep(P, n, co, t, z - 1);
    }
  }

  /** The pass through time point t is the pass before it and that row, apart. */
  lemma PassHitsStep(P: map<Key, seq<Voxel>>, n: nat, co: Coloc, t: nat, sz: nat)
    requires Uniform(P, n)
    ensures |PassHits(P, n, co, t + 1, sz)| == |PassHits(P, n, co, t, sz)| + |RowHits(P, n, co, t, sz)|
  {
    forall x | x in PassHits(P, n, co, t + 1, sz)
      ensures x in PassHits(P, n, co, t, sz) + RowHits(P, n, co, t, sz)
    {
      var t': nat, z: nat, i: nat :| t' < t + 1 && z < sz && i < n && HitAt(P, n, co, t', z, i) && x == (t', z, i);
      if t' < t {
        assert x in PassHits(P, n, co, t, sz);
      } else {
        assert x in RowHits(P, n, co, t, sz);
      }
    }
    forall x | x in RowHits(P, n, co, t, sz)
      ensures x in PassHits(P, n, co, t + 1, sz) && x !in PassHits(P, n, co, t, sz)
    {
      var z: nat, i: nat :| z < sz && i < n && HitAt(P, n, co, t, z, i) && x == (t, z, i);
    }
    assert PassHits(P, n, co, t + 1, sz) == PassHits(P, n, co, t, sz) + RowHits(P, n, co, t, sz);
    assert PassHits(P, n, co, t, sz) !! RowHits(P, n, co, t, sz);
  }

  /** The count of a pass is the number of marked positions (t, z, i) with
      t < st, z < sz and i < n. */
  lemma {:induction false} TotalTrueIsHits(P: map<Key, seq<Voxel>>, n: nat, co: Coloc, st: nat, sz: nat)
    requires Uniform(P, n)
    ensures TotalTrue(P, n, co, st, sz) == |PassHits(P, n, co, st, sz)|
  {
    if st == 0 {
      EmptyHits(P, n, co, 0, sz);
    } else {
      TotalTrueIsHits(P, n, co, st - 1, sz);
      RowTrueIsHits(P, n, co, st - 1, sz);
      PassHitsStep(P, n, co, st - 1, sz);
    }
  }

  // ---- the state of a mask channel during and after a pass ----

  /** The mask plane of slice (t, z) computed from the stored planes `P`. */
  function MaskedPlaneAt(P: map<Key, seq<Voxel>>, n: nat, co: Coloc, t: nat, z: nat): seq<Voxel>
    requires Uniform(P, n)
  {
    MaskPlane(PlaneIn(P, n, (co.chA, t, z)), PlaneIn(P, n, (co.chB, t, z)), co.thrA, co.thrB)
  }

  /** Slice (t', z') comes before (t, z) in the time-major, then z, order of
      a pass over slices with z below `sz`. */
  predicate SliceDone(t': nat, z': nat, t: nat, z: nat, sz: nat) {
    z' < sz && (t' < t || (t' == t && z' < z))
  }

  /** Plane `k` once the slices before (t, z) have been masked into channel
      `out`, starting from the stored planes `P`. A whole pass over `st`
      time points ends at (st, 0). */
  function MaskedUpTo(P: map<Key, seq<Voxel>>, n: nat, co: Coloc, out: nat, t: nat, z: nat, sz: nat, k: Key): seq<Voxel>
    requires Uniform(P, n)
  {
    if k.0 == out && SliceDone(k.1, k.2, t, z, sz) then MaskedPlaneAt(P, n, co, k.1, k.2)
    else PlaneIn(P, n, k)
  }

  /** One slice step of a pass: writing the mask of (t, z) into `out` moves
      the view from before (t, z) to before (t, z + 1). */
  lemma MaskedUpToStep(P: map<Key, seq<Voxel>>, Q: map<Key, seq<Voxel>>, Q': map<Key, seq<Voxel>>, n: nat, co: Coloc, out: nat, t: nat, z: nat, sz: nat)
    requires Uniform(P, n) && Uniform(Q, n) && z < sz
    requires forall k :: PlaneIn(Q, n, k) == MaskedUpTo(P, n, co, out, t, z, sz, k)
    requires Q' == Q[(out, t, z) := MaskedPlaneAt(Q, n, co, t, z)]
    ensures forall k :: PlaneIn(Q', n, k) == MaskedUpTo(P, n, co, out, t, z + 1, sz, k)
    ensures SliceTrue(Q, n, co, t, z) == SliceTrue(P, n, co, t, z)
  {
    assert PlaneIn(Q, n, (co.chA, t, z)) == PlaneIn(P, n, (co.chA, t, z));
    assert PlaneIn(Q, n, (co.chB, t, z)) == PlaneIn(P, n, (co.chB, t, z));
    forall k
      ensures PlaneIn(Q', n, k) == MaskedUpTo(P, n, co, out, t, z + 1, sz, k)
    {
      if k != (out, t, z) {
        assert PlaneIn(Q', n, k) == PlaneIn(Q, n, k);
      }
    }
  }

  /** The end of one time point is the start of the next. */
  lemma MaskedUpToNextTime(P: map<Key, seq<Voxel>>, Q: map<Key, seq<Voxel>>, n: nat, co: Coloc, out: nat, t: nat, sz: nat)
    requires Uniform(P, n)
    requires forall k :: PlaneIn(Q, n, k) == MaskedUpTo(P, n, co, out, t, sz, sz, k)
    ensures forall k :: PlaneIn(Q, n, k) == MaskedUpTo(P, n, co, out, t + 1, 0, sz, k)
  {
  }

  /** After a whole pass the output channel holds only 0 and MaxU16, every
      other channel is as before, and the output planes of slices outside
      the geometry are untouched. */
  lemma MaskPassShape(P: map<Key, seq<Voxel>>, n: nat, co: Coloc, out: nat, st: nat, sz: nat, k: Key)
    requires Uniform(P, n)
    ensures k.0 != out ==> MaskedUpTo(P, n, co, out, st, 0, sz, k) == PlaneIn(P, n, k)
    ensures k.0 == out && k.1 < st && k.2 < sz ==>
      var q := MaskedUpTo(P, n, co, out, st, 0, sz, k);
      |q| == n && forall i | 0 <= i < |q| :: q[i] == 0 || q[i] == MaxU16
    ensures !(k.1 < st && k.2 < sz) ==> MaskedUpTo(P, n, co, out, st, 0, sz, k) == PlaneIn(P, n, k)
  {
  }

  /** Re-running a pass whose output channel is neither input reproduces the
      same channel bit for bit, whatever the output channel held before. */
  lemma MaskPassIdempotent(P: map<Key, seq<Voxel>>, Q: map<Key, seq<Voxel>>, n: nat, co: Coloc, out: nat, st: nat, sz: nat)
    requires Uniform(P, n) && Uniform(Q, n)
    requires out != co.chA && out != co.chB
    requires forall k :: PlaneIn(Q, n, k) == MaskedUpTo(P, n, co, out, st, 0, sz, k)
    ensures forall k :: MaskedUpTo(Q, n, co, out, st, 0, sz, k) == PlaneIn(Q, n, k)
  {
    forall k
      ensures MaskedUpTo(Q, n, co, out, st, 0, sz, k) == PlaneIn(Q, n, k)
    {
      assert PlaneIn(Q, n, (co.chA, k.1, k.2)) == PlaneIn(P, n, (co.chA, k.1, k.2));
      assert PlaneIn(Q, n, (co.chB, k.1, k.2)) == PlaneIn(P, n, (co.chB, k.1, k.2));
    }
  }

  // ---- the reported fraction ----

  /** The reported count and the denominator of the reported fraction. */
  datatype MaskReport = MaskReport(trueVoxels: nat, denominator: nat)

  function Max1(x: nat): nat {
    if x < 1 then 1 else x
  }

  /** plane * max(st, 1) * max(sz, 1) */
  function Denominator(n: nat, st: nat, sz: nat): nat {
    n * Max1(st) * Max1(sz)
  }

  function Fraction(rep: MaskReport): real
    requires rep.denominator > 0
  {
    rep.trueVoxels as real / rep.denominator as real
  }

  /** The outcome of a whole pass: the report, or the division by zero a
      plane of no voxels causes. */
  function MaskResult(P: map<Key, seq<Voxel>>, n: nat, co: Coloc, st: nat, sz: nat): Result<MaskReport>
    requires Uniform(P, n)
  {
    if n == 0 then Err(ZeroDivision)
    else Ok(MaskReport(TotalTrue(P, n, co, st, sz), Denominator(n, st, sz)))
  }

  lemma DenominatorBound(n: nat, st: nat, sz: nat)
    requires n > 0
    ensures 0 < Denominator(n, st, sz)
    ensures n * st * sz <= Denominator(n, st, sz)
    ensures st > 0 && sz > 0 ==> Denominator(n, st, sz) == n * st * sz
  {
    assert 0 < n * Max1(st);
    if st == 0 || sz == 0 {
      assert n * st == 0 || n * st * sz == n * st * 0;
    }
  }

  lemma RatioAtMostOne(x: real, d: real)
    requires 0.0 <= x <= d && 0.0 < d
    ensures 0.0 <= x / d <= 1.0
  {
    assert x / d * d == x;
  }

  /** The reported fraction lies in [0, 1]; it is the exact share of true
      voxels when there is at least one slice, and zero when there is none. */
  lemma FractionInUnitInterval(P: map<Key, seq<Voxel>>, n: nat, co: Coloc, st: nat, sz: nat)
    requires Uniform(P, n)
    ensures MaskResult(P, n, co, st, sz).Ok? <==> n > 0
    ensures MaskResult(P, n, co, st, sz).Ok? ==>
      var rep := MaskResult(P, n, co, st, sz).value;
      rep.denominator > 0 && rep.trueVoxels <= rep.denominator &&
      0.0 <= Fraction(rep) <= 1.0 &&
      (st > 0 && sz > 0 ==> rep.denominator == n * st * sz) &&
      (st == 0 || sz == 0 ==> rep.trueVoxels == 0)
  {
    if n > 0 {
      var total := TotalTrue(P, n, co, st, sz);
      var d := Denominator(n, st, sz);
      TotalTrueBound(P, n, co, st, sz);
      DenominatorBound(n, st, sz);
      if st == 0 || sz == 0 {
        assert n * st * sz == 0;
      }
      RatioAtMostOne(total as real, d as real);
    }
  }
}
