/** The channel-derivation pipeline of the Koob analysis: clone the active
    dataset, grow it by four channels (in place, or by reallocation when the
    host does not honour the growth), and write four dual-threshold
    co-localisation masks into the new channels. */
module Koob {
  import opened Volumes
  import opened Masks

  // ---- configuration: channel indices (0-based), thresholds, labels ----

  const ChDapi: nat := 0
  const ChGfapHip: nat := 4
  const ChIba1Hip: nat := 5
  const ChGfapCtx: nat := 7
  const ChIba1Ctx: nat := 8

  const ThrDapiGfap: real := 0.0
  const ThrGfap: real := 6000.0
  const ThrDapiIba1: real := 0.0
  const ThrIba1: real := 600.0

  const OutGHipName: string := "Hippo GFAP DAPI"
  const OutGCtxName: string := "Ctx GFAP DAPI"
  const OutIHipName: string := "Hippo IBA1 DAPI"
  const OutICtxName: string := "Ctx IBA1 DAPI"

  const ColorGreen: int := 0x00FF00FF   // RGBA
  const ColorRed: int := 0xFF0000FF     // RGBA

  /** The number of channels the analysis appends. */
  const Extra: nat := 4

  /** The inputs of the four masks in the order they are written; mask `j`
      goes to channel start + j. The IBA1 surface step, which is not part of
      this model, looks for the IBA1 masks at channels 12 and 13, which are
      their channels only for a ten-channel source. */
  const Jobs: seq<Coloc> := [
    Coloc(ChGfapHip, ThrGfap, ChDapi, ThrDapiGfap),
    Coloc(ChGfapCtx, ThrGfap, ChDapi, ThrDapiGfap),
    Coloc(ChIba1Hip, ThrIba1, ChDapi, ThrDapiIba1),
    Coloc(ChIba1Ctx, ThrIba1, ChDapi, ThrDapiIba1)
  ]

  /** The output channels of the GFAP hippocampus, GFAP cortex, IBA1
      hippocampus and IBA1 cortex masks. */
  function OutputIndices(start: nat): seq<nat> {
    [start + 0, start + 1, start + 2, start + 3]
  }

  /** The output channels are pairwise distinct, lie past the original
      channels and fit in the grown volume. */
  lemma OutputIndicesDistinct(start: nat)
    ensures |OutputIndices(start)| == |Jobs| == Extra
    ensures forall i, j | 0 <= i < j < Extra :: OutputIndices(start)[i] != OutputIndices(start)[j]
    ensures forall j | 0 <= j < Extra :: OutputIndices(start)[j] == start + j && start <= OutputIndices(start)[j] < start + Extra
  {
  }

  /** The name and colour of mask `j`'s output channel: GFAP green, IBA1 red. */
  const OutNames: seq<string> := [OutGHipName, OutGCtxName, OutIHipName, OutICtxName]
  const OutColors: seq<int> := [ColorGreen, ColorGreen, ColorRed, ColorRed]

  /** A GFAP mask's channel is coloured green and an IBA1 mask's red, and
      each carries the name of its own marker and region. */
  lemma MaskLabelsFollowMarkers()
    ensures |OutNames| == |OutColors| == |Jobs|
    ensures forall j | 0 <= j < |Jobs| && (Jobs[j].chA == ChGfapHip || Jobs[j].chA == ChGfapCtx) :: OutColors[j] == ColorGreen
    ensures forall j | 0 <= j < |Jobs| && (Jobs[j].chA == ChIba1Hip || Jobs[j].chA == ChIba1Ctx) :: OutColors[j] == ColorRed
    ensures forall j | 0 <= j < |Jobs| ::
      OutNames[j] == (if Jobs[j].chA == ChGfapHip then OutGHipName
                      else if Jobs[j].chA == ChGfapCtx then OutGCtxName
                      else if Jobs[j].chA == ChIba1Hip then OutIHipName
                      else OutICtxName)
  {
  }

  /** Every input channel the masks read is an original channel. */
  predicate InputsPresent(sc: nat) {
    forall j | 0 <= j < |Jobs| :: Jobs[j].chA < sc && Jobs[j].chB < sc
  }

  lemma InputsPresentIffNineChannels(sc: nat)
    ensures InputsPresent(sc) <==> 9 <= sc
  {
    if InputsPresent(sc) {
      assert Jobs[3].chA == 8;
    }
  }

  // ---- copying, shared by the clone and the growth fallback ----

  /** Copy the extents axis by axis; a refused axis is skipped. `copied`
      holds the axes whose minimum and maximum were both copied. */
  method CopyExtents(src: Volume, dst: Volume) returns (ghost copied: set<Axis>)
    requires src.Valid() && dst.Valid() && src != dst
    modifies dst`extendMin, dst`extendMax
    ensures dst.Valid()
    ensures forall a | a in copied :: dst.extendMin[a] == src.extendMin[a] && dst.extendMax[a] == src.extendMax[a]
    ensures forall a: Axis | a !in copied ::
      dst.extendMax[a] == old(dst.extendMax[a]) &&
      (dst.extendMin[a] == old(dst.extendMin[a]) || dst.extendMin[a] == src.extendMin[a])
  {
    copied := {};
    for i := 0 to |Axes|
      invariant dst.Valid()
      invariant forall a | a in copied :: dst.extendMin[a] == src.extendMin[a] && dst.extendMax[a] == src.extendMax[a]
      invariant forall a: Axis | a !in copied ::
        dst.extendMax[a] == old(dst.extendMax[a]) &&
        (dst.extendMin[a] == old(dst.extendMin[a]) || dst.extendMin[a] == src.extendMin[a])
    {
      var axis := Axes[i];
      var okMin := dst.SetExtendMin(axis, src.extendMin[axis]);
      if okMin {
        var okMax := dst.SetExtendMax(axis, src.extendMax[axis]);
        if okMax {
          copied := copied + {axis};
        }
      }
    }
  }

  /** Plane `k` lies inside a geometry of `st` time points and `sz` slices
      and is copied before channel `c`, time `t`, slice `z`. */
  predicate CopiedBefore(k: Key, c: nat, t: nat, z: nat, st: nat, sz: nat) {
    k.1 < st && k.2 < sz && (k.0 < c || (k.0 == c && (k.1 < t || (k.1 == t && k.2 < z))))
  }

  /** Plane `k` of an empty dataset into which the planes `P` are being
      copied, when the copy is about to reach (c, t, z). */
  function CopiedView(P: map<Key, seq<Voxel>>, n: nat, c: nat, t: nat, z: nat, st: nat, sz: nat, k: Key): seq<Voxel> {
    if CopiedBefore(k, c, t, z, st, sz) then PlaneIn(P, n, k) else Zeros(n)
  }

  lemma CopiedViewStep(P: map<Key, seq<Voxel>>, Q: map<Key, seq<Voxel>>, Q': map<Key, seq<Voxel>>, n: nat, c: nat, t: nat, z: nat, st: nat, sz: nat)
    requires t < st && z < sz
    requires forall k :: PlaneIn(Q, n, k) == CopiedView(P, n, c, t, z, st, sz, k)
    requires Q' == Q[(c, t, z) := PlaneIn(P, n, (c, t, z))]
    ensures forall k :: PlaneIn(Q', n, k) == CopiedView(P, n, c, t, z + 1, st, sz, k)
  {
    forall k
      ensures PlaneIn(Q', n, k) == CopiedView(P, n, c, t, z + 1, st, sz, k)
    {
      if k != (c, t, z) {
        assert PlaneIn(Q', n, k) == PlaneIn(Q, n, k);
      }
    }
  }

  /** Copy the planes of channel `c` at time `t`. */
  method CopyPlanesAt(src: Volume, dst: Volume, c: nat, t: nat)
    requires src.Valid() && dst.Valid() && src != dst
    requires dst.sx == src.sx && dst.sy == src.sy && dst.sz == src.sz && dst.st == src.st
    requires c < src.sc <= dst.sc && t < src.st
    requires forall k :: PlaneIn(dst.planes, src.sx * src.sy, k) == CopiedView(src.planes, src.sx * src.sy, c, t, 0, src.st, src.sz, k)
    modifies dst`planes
    ensures dst.Valid()
    ensures forall k :: PlaneIn(dst.planes, src.sx * src.sy, k) == CopiedView(src.planes, src.sx * src.sy, c, t + 1, 0, src.st, src.sz, k)
  {
    var n := src.sx * src.sy;
    for z := 0 to src.sz
      invariant dst.Valid()
      invariant forall k :: PlaneIn(dst.planes, n, k) == CopiedView(src.planes, n, c, t, z, src.st, src.sz, k)
    {
      var plane := src.ReadPlane(c, t, z);
      ghost var before := dst.planes;
      var w := dst.WritePlane(plane.value, c, t, z);
      assert w.Pass?;
      CopiedViewStep(src.planes, before, dst.planes, n, c, t, z, src.st, src.sz);
    }
  }

  /** The entries of `m` at the channels in `accepted`. */
  function Restrict<V>(m: map<nat, V>, accepted: set<nat>): map<nat, V>
    requires accepted <= m.Keys
  {
    map i | i in accepted :: m[i]
  }

  /** The writes a best-effort copy of the metadata `m` of the channels below
      `c` asks the host for: one per channel that has a value, in channel
      order, accepted exactly for the channels in `accepted`. */
  function CopyLog<V>(m: map<nat, V>, c: nat, accepted: set<nat>): seq<(nat, V, bool)> {
    if c == 0 then []
    else CopyLog(m, c - 1, accepted) + (if c - 1 in m then [(c - 1, m[c - 1], c - 1 in accepted)] else [])
  }

  /** The metadata of a dataset that had none once the metadata `m` of the
      channels below `c` is copied into it, best effort. */
  function Copied<V>(m: map<nat, V>, c: nat, accepted: set<nat>): Meta<V>
    requires accepted <= m.Keys
  {
    Meta(Restrict(m, accepted), CopyLog(m, c, accepted))
  }

  lemma {:induction false} CopyLogBelow<V>(m: map<nat, V>, c: nat, A: set<nat>, B: set<nat>)
    requires forall i | i < c :: i in A <==> i in B
    ensures CopyLog(m, c, A) == CopyLog(m, c, B)
  {
    if c > 0 {
      CopyLogBelow(m, c - 1, A, B);
    }
  }

  /** Copying channel `c` extends a copy of the channels below it. */
  lemma CopiedStep<V>(m: map<nat, V>, c: nat, A: set<nat>, ok: bool)
    requires A <= m.Keys && forall i | i in A :: i < c
    requires ok ==> c in m
    ensures var A' := if ok then A + {c} else A;
      A' <= m.Keys &&
      Copied(m, c + 1, A') == if c in m then Written(Copied(m, c, A), c, m[c], ok) else Copied(m, c, A)
  {
    var A' := if ok then A + {c} else A;
    CopyLogBelow(m, c, A, A');
    if ok {
      assert Restrict(m, A') == Restrict(m, A)[c := m[c]];
    }
  }

  /** A best-effort copy asks the host once for every channel below `c` that
      has a value, in increasing channel order, writing the source's value;
      and it asks for nothing else. */
  lemma {:induction false} CopyLogOncePerChannel<V>(m: map<nat, V>, c: nat, A: set<nat>)
    ensures forall p | 0 <= p < |CopyLog(m, c, A)| ::
      CopyLog(m, c, A)[p].0 < c && CopyLog(m, c, A)[p].0 in m &&
      CopyLog(m, c, A)[p].1 == m[CopyLog(m, c, A)[p].0] &&
      (CopyLog(m, c, A)[p].2 <==> CopyLog(m, c, A)[p].0 in A)
    ensures forall p, q | 0 <= p < q < |CopyLog(m, c, A)| :: CopyLog(m, c, A)[p].0 < CopyLog(m, c, A)[q].0
    ensures forall i | i < c && i in m :: (i, m[i], i in A) in CopyLog(m, c, A)
  {
    if c > 0 {
      CopyLogOncePerChannel(m, c - 1, A);
    }
  }

  /** Copy channel `c`: its name and colour best effort, then its planes. A
      name or colour the source cannot give is not written. */
  method CopyChannel(src: Volume, dst: Volume, c: nat) returns (ghost okName: bool, ghost okColor: bool)
    requires src.Valid() && dst.Valid() && src != dst
    requires dst.sx == src.sx && dst.sy == src.sy && dst.sz == src.sz && dst.st == src.st
    requires c < src.sc <= dst.sc
    requires forall k :: PlaneIn(dst.planes, src.sx * src.sy, k) == CopiedView(src.planes, src.sx * src.sy, c, 0, 0, src.st, src.sz, k)
    modifies dst`planes, dst`names, dst`colors, dst`nameLog, dst`colorLog
    ensures dst.Valid()
    ensures forall k :: PlaneIn(dst.planes, src.sx * src.sy, k) == CopiedView(src.planes, src.sx * src.sy, c + 1, 0, 0, src.st, src.sz, k)
    ensures okName ==> c in src.names
    ensures dst.NameMeta() == if c in src.names then Written(old(dst.NameMeta()), c, src.names[c], okName) else old(dst.NameMeta())
    ensures okColor ==> c in src.colors
    ensures dst.ColorMeta() == if c in src.colors then Written(old(dst.ColorMeta()), c, src.colors[c], okColor) else old(dst.ColorMeta())
  {
    okName, okColor := false, false;
    var name := src.GetChannelName(c);
    if name.Ok? {
      okName := dst.SetChannelName(c, name.value);
    }
    var color := src.GetChannelColor(c);
    if color.Ok? {
      okColor := dst.SetChannelColor(c, color.value);
    }
    for t := 0 to src.st
      modifies dst`planes
      invariant dst.Valid()
      invariant forall k :: PlaneIn(dst.planes, src.sx * src.sy, k) == CopiedView(src.planes, src.sx * src.sy, c, t, 0, src.st, src.sz, k)
    {
      CopyPlanesAt(src, dst, c, t);
    }
  }

  /** Copy every channel of `src` into the empty dataset `dst`; `named` and
      `colored` are the channels whose name and colour the host accepted. */
  method CopyChannels(src: Volume, dst: Volume) returns (ghost named: set<nat>, ghost colored: set<nat>)
    requires src.Valid() && dst.Valid() && src != dst
    requires dst.sx == src.sx && dst.sy == src.sy && dst.sz == src.sz && dst.st == src.st
    requires src.sc <= dst.sc
    requires dst.planes == map[] && dst.NameMeta() == Meta(map[], []) && dst.ColorMeta() == Meta(map[], [])
    modifies dst`planes, dst`names, dst`colors, dst`nameLog, dst`colorLog
    ensures dst.Valid()
    ensures forall k :: dst.Plane(k) == src.Plane(k)
    ensures named <= src.names.Keys && dst.NameMeta() == Copied(src.names, src.sc, named)
    ensures colored <= src.colors.Keys && dst.ColorMeta() == Copied(src.colors, src.sc, colored)
  {
    var n := src.sx * src.sy;
    named, colored := {}, {};
    assert Restrict(src.names, {}) == map[] && Restrict(src.colors, {}) == map[];
    for c := 0 to src.sc
      invariant dst.Valid()
      invariant forall k :: PlaneIn(dst.planes, n, k) == CopiedView(src.planes, n, c, 0, 0, src.st, src.sz, k)
      invariant named <= src.names.Keys && (forall i | i in named :: i < c) && dst.NameMeta() == Copied(src.names, c, named)
      invariant colored <= src.colors.Keys && (forall i | i in colored :: i < c) && dst.ColorMeta() == Copied(src.colors, c, colored)
    {
      ghost var okName, okColor := CopyChannel(src, dst, c);
      CopiedStep(src.names, c, named, okName);
      CopiedStep(src.colors, c, colored, okColor);
      if okName {
        named := named + {c};
      }
      if okColor {
        colored := colored + {c};
      }
    }
    forall k
      ensures dst.Plane(k) == src.Plane(k)
    {
      if !CopiedBefore(k, src.sc, 0, 0, src.st, src.sz) {
        assert k !in src.planes;
      }
    }
  }

  /** A new dataset with the same XYZCT as `src`, its extents copied axis by
      axis (the axes in `extents`), channel names and colours copied best
      effort (accepted for the channels in `named` and `colored`), and every
      plane copied. Only plane reads and writes could fail, and on the
      source's own geometry they do not. */
  method CloneSameC(src: Volume) returns (dst: Volume, ghost extents: set<Axis>, ghost named: set<nat>, ghost colored: set<nat>)
    requires src.Valid()
    ensures fresh(dst) && dst.Valid()
    ensures dst.sx == src.sx && dst.sy == src.sy && dst.sz == src.sz
    ensures dst.sc == src.sc && dst.st == src.st
    ensures forall k :: dst.Plane(k) == src.Plane(k)
    ensures named <= src.names.Keys && dst.NameMeta() == Copied(src.names, src.sc, named)
    ensures colored <= src.colors.Keys && dst.ColorMeta() == Copied(src.colors, src.sc, colored)
    ensures forall a | a in extents :: dst.extendMin[a] == src.extendMin[a] && dst.extendMax[a] == src.extendMax[a]
    ensures forall a: Axis | a !in extents ::
      dst.extendMax[a] == ExtentDefault &&
      (dst.extendMin[a] == ExtentDefault || dst.extendMin[a] == src.extendMin[a])
  {
    dst := new Volume(src.sx, src.sy, src.sz, src.sc, src.st);
    extents := CopyExtents(src, dst);
    named, colored := CopyChannels(src, dst);
  }

  /** Make room for `extra` more channels. In place when the host honours
      `SetSizeC` (checked by reading the count back); otherwise a new
      dataset with the target count, the original channels copied into it
      (names and colours accepted for `named` and `colored`), becomes the
      active dataset. Returns the dataset and the original count; the
      dataset is `ds` itself exactly when the host honoured the one growth
      request. */
  method EnsureExtraChannels(app: App, ds: Volume, extra: nat) returns (res: Volume, start: nat, ghost named: set<nat>, ghost colored: set<nat>)
    requires ds.Valid()
    modifies app, ds`sc, ds`sizeLog
    ensures start == old(ds.sc)
    ensures ds.sizeLog == old(ds.sizeLog) + [(start + extra, res == ds)]
    ensures res.Valid() && res.sc == start + extra
    ensures res.sx == ds.sx && res.sy == ds.sy && res.sz == ds.sz && res.st == ds.st
    ensures forall k :: res.Plane(k) == PlaneIn(old(ds.planes), ds.sx * ds.sy, k)
    ensures res == ds ==> app.dataset == old(app.dataset)
    ensures res != ds ==> fresh(res) && app.dataset == res && ds.sc == old(ds.sc)
    ensures res != ds ==>
      named <= ds.names.Keys && res.NameMeta() == Copied(ds.names, start, named) &&
      colored <= ds.colors.Keys && res.ColorMeta() == Copied(ds.colors, start, colored)
  {
    named, colored := {}, {};
    start := ds.sc;
    var target := start + extra;
    var raised := ds.SetSizeC(target);
    var grew := !raised && ds.sc == target;
    if grew {
      return ds, start, named, colored;
    }
    res := new Volume(ds.sx, ds.sy, ds.sz, target, ds.st);
    ghost var extents := CopyExtents(ds, res);
    named, colored := CopyChannels(ds, res);
    app.SetDataSet(res);
  }

  // ---- the mask pass ----

  /** The first slice's reads and write succeed: there are no slices, or all
      three channels exist. */
  predicate Readable(ds: Volume, chA: nat, chB: nat, out: nat)
    reads ds
  {
    ds.st == 0 || ds.sz == 0 || (chA < ds.sc && chB < ds.sc && out < ds.sc)
  }

  /** One (t, z) step: read both input planes, mask them, write the output
      plane; the count of true voxels is returned. */
  method MaskSlice(ds: Volume, co: Coloc, out: nat, t: nat, z: nat) returns (r: Result<nat>)
    requires ds.Valid() && t < ds.st && z < ds.sz
    modifies ds`planes
    ensures ds.Valid()
    ensures r.Ok? <==> co.chA < ds.sc && co.chB < ds.sc && out < ds.sc
    ensures r.Err? ==> r.error == IndexOutOfRange && ds.planes == old(ds.planes)
    ensures r.Ok? ==>
      ds.planes == old(ds.planes)[(out, t, z) := MaskedPlaneAt(old(ds.planes), ds.sx * ds.sy, co, t, z)] &&
      r.value == SliceTrue(old(ds.planes), ds.sx * ds.sy, co, t, z)
  {
    var a := ds.ReadPlane(co.chA, t, z);
    if a.Err? {
      return Err(a.error);
    }
    var b := ds.ReadPlane(co.chB, t, z);
    if b.Err? {
      return Err(b.error);
    }
    var buf, cnt := MaskBuffer(a.value, b.value, co.thrA, co.thrB);
    var w := ds.WritePlane(buf, out, t, z);
    if w.Fail? {
      return Err(w.error);
    }
    r := Ok(cnt);
  }
  /** The pass labels its output channel: there is a slice, and the first
      slice's reads and write succeed. */
  predicate LabelsOutput(ds: Volume, chA: nat, chB: nat, out: nat)
    reads ds
  {
    ds.st > 0 && ds.sz > 0 && chA < ds.sc && chB < ds.sc && out < ds.sc
  }

  /** `m0` after one best-effort write of `v` to channel `c` when `done`,
      the host answering `ok`, and `m0` itself otherwise. */
  function WrittenIf<V>(m0: Meta<V>, c: nat, v: V, ok: bool, done: bool): Meta<V> {
    if done then Written(m0, c, v, ok) else m0
  }

  /** Name and colour channel `c`, each best effort. */
  method LabelChannel(ds: Volume, c: nat, name: string, color: int) returns (ghost okName: bool, ghost okColor: bool)
    requires ds.Valid()
    modifies ds`names, ds`colors, ds`nameLog, ds`colorLog
    ensures ds.Valid()
    ensures ds.NameMeta() == Written(old(ds.NameMeta()), c, name, okName)
    ensures ds.ColorMeta() == Written(old(ds.ColorMeta()), c, color, okColor)
  {
    okName := ds.SetChannelName(c, name);
    okColor := ds.SetChannelColor(c, color);
  }

  /** The state of a pass over `ds` that started from planes `P` and
      metadata `N0`, `C0`, once the slices before (t, z) are masked into
      `out`. The output channel is labelled exactly once a slice is done,
      which needs all three channels, with the host's answers `okName` and
      `okColor`; before that nothing was written. */
  ghost predicate MaskedThrough(ds: Volume, P: map<Key, seq<Voxel>>, co: Coloc, out: nat, t: nat, z: nat, named: bool,
                                name: string, color: int, N0: Meta<string>, C0: Meta<int>, okName: bool, okColor: bool)
    reads ds
  {
    ds.Valid() && Uniform(P, ds.sx * ds.sy) && t <= ds.st && z <= ds.sz &&
    (named <==> (t > 0 && ds.sz > 0) || z > 0) &&
    (named ==> co.chA < ds.sc && co.chB < ds.sc && out < ds.sc) &&
    (!named ==> ds.planes == P) &&
    (forall k :: PlaneIn(ds.planes, ds.sx * ds.sy, k) == MaskedUpTo(P, ds.sx * ds.sy, co, out, t, z, ds.sz, k)) &&
    ds.NameMeta() == WrittenIf(N0, out, name, okName, named) &&
    ds.ColorMeta() == WrittenIf(C0, out, color, okColor, named)
  }

  /** The end of the slices of time point `t` is the start of time point t + 1. */
  lemma MaskedThroughNextTime(ds: Volume, P: map<Key, seq<Voxel>>, co: Coloc, out: nat, t: nat, named: bool,
                              name: string, color: int, N0: Meta<string>, C0: Meta<int>, okName: bool, okColor: bool)
    requires t < ds.st
    requires MaskedThrough(ds, P, co, out, t, ds.sz, named, name, color, N0, C0, okName, okColor)
    ensures MaskedThrough(ds, P, co, out, t + 1, 0, named, name, color, N0, C0, okName, okColor)
  {
    MaskedUpToNextTime(P, ds.planes, ds.sx * ds.sy, co, out, t, ds.sz);
  }

  /** Slice (t, z) masked into planes `Q` and the output channel labelled:
      the state after slice (t, z). */
  lemma MaskedThroughNextSlice(ds: Volume, P: map<Key, seq<Voxel>>, co: Coloc, out: nat, t: nat, z: nat,
                               name: string, color: int, N0: Meta<string>, C0: Meta<int>, okName: bool, okColor: bool,
                               Q: map<Key, seq<Voxel>>)
    requires ds.Valid() && Uniform(P, ds.sx * ds.sy) && t < ds.st && z < ds.sz
    requires co.chA < ds.sc && co.chB < ds.sc && out < ds.sc
    requires ds.planes == Q
    requires forall k :: PlaneIn(Q, ds.sx * ds.sy, k) == MaskedUpTo(P, ds.sx * ds.sy, co, out, t, z + 1, ds.sz, k)
    requires ds.NameMeta() == Written(N0, out, name, okName) && ds.ColorMeta() == Written(C0, out, color, okColor)
    ensures MaskedThrough(ds, P, co, out, t, z + 1, true, name, color, N0, C0, okName, okColor)
  {
  }

  /** One slice of a pass: mask slice (t, z) into `out`, then label `out`
      unless the pass already has. `count` is the count of the slices of `t`
      before `z`; the result adds this slice's. */
  method MaskAndLabel(ds: Volume, co: Coloc, out: nat, t: nat, z: nat, name: string, color: int, named: bool, count: nat,
                      ghost P: map<Key, seq<Voxel>>, ghost N0: Meta<string>, ghost C0: Meta<int>, ghost okName0: bool, ghost okColor0: bool)
    returns (r: Result<nat>, ghost okName: bool, ghost okColor: bool)
    requires MaskedThrough(ds, P, co, out, t, z, named, name, color, N0, C0, okName0, okColor0)
    requires t < ds.st && z < ds.sz
    requires count == RowTrue(P, ds.sx * ds.sy, co, t, z)
    modifies ds`planes, ds`names, ds`colors, ds`nameLog, ds`colorLog
    ensures ds.Valid()
    ensures r.Ok? <==> co.chA < ds.sc && co.chB < ds.sc && out < ds.sc
    ensures r.Err? ==>
      r.error == IndexOutOfRange && !named &&
      ds.planes == old(ds.planes) && ds.NameMeta() == N0 && ds.ColorMeta() == C0
    ensures r.Ok? ==>
      r.value == RowTrue(P, ds.sx * ds.sy, co, t, z + 1) &&
      MaskedThrough(ds, P, co, out, t, z + 1, true, name, color, N0, C0, okName, okColor)
  {
    okName, okColor := okName0, okColor0;
    ghost var before := ds.planes;
    var slice := MaskSlice(ds, co, out, t, z);
    if slice.Err? {
      return slice, okName, okColor;
    }
    ghost var after := ds.planes;
    MaskedUpToStep(P, before, after, ds.sx * ds.sy, co, out, t, z, ds.sz);
    if !named {
      okName, okColor := LabelChannel(ds, out, name, color);
    }
    MaskedThroughNextSlice(ds, P, co, out, t, z, name, color, N0, C0, okName, okColor, after);
    r := Ok(count + slice.value);
  }

  /** The slices of time point `t`, in z order; when the pass has not
      labelled the output channel yet (`named0` false), it is labelled after
      the first slice. Returns the count of time point `t`. */
  method MaskTimePoint(ds: Volume, co: Coloc, out: nat, t: nat, name: string, color: int, named0: bool,
                       ghost P: map<Key, seq<Voxel>>, ghost N0: Meta<string>, ghost C0: Meta<int>, ghost okName0: bool, ghost okColor0: bool)
    returns (r: Result<nat>, named: bool, ghost okName: bool, ghost okColor: bool)
    requires MaskedThrough(ds, P, co, out, t, 0, named0, name, color, N0, C0, okName0, okColor0)
    requires t < ds.st
    modifies ds`planes, ds`names, ds`colors, ds`nameLog, ds`colorLog
    ensures ds.Valid()
    ensures r.Err? ==>
      r.error == IndexOutOfRange && !named0 && ds.sz > 0 && !(co.chA < ds.sc && co.chB < ds.sc && out < ds.sc) &&
      ds.planes == old(ds.planes) && ds.NameMeta() == N0 && ds.ColorMeta() == C0
    ensures r.Ok? ==>
      r.value == RowTrue(P, ds.sx * ds.sy, co, t, ds.sz) &&
      MaskedThrough(ds, P, co, out, t + 1, 0, named, name, color, N0, C0, okName, okColor)
  {
    var count := 0;
    named := named0;
    okName, okColor := okName0, okColor0;
    var z := 0;
    while z < ds.sz
      invariant MaskedThrough(ds, P, co, out, t, z, named, name, color, N0, C0, okName, okColor)
      invariant count == RowTrue(P, ds.sx * ds.sy, co, t, z)
    {
      var cnt: Result<nat>;
      cnt, okName, okColor := MaskAndLabel(ds, co, out, t, z, name, color, named, count, P, N0, C0, okName, okColor);
      if cnt.Err? {
        return Err(cnt.error), named, okName, okColor;
      }
      count := cnt.value;
      named := true;
      z := z + 1;
    }
    MaskedThroughNextTime(ds, P, co, out, t, named, name, color, N0, C0, okName, okColor);
    r := Ok(count);
  }

  /** All the slices, time-major; the output channel is labelled after the
      first slice only, so exactly one name and one colour write is asked of
      the host when the pass labels it and none otherwise. Returns the number
      of true voxels. */
  method MaskPass(ds: Volume, co: Coloc, out: nat, name: string, color: int) returns (r: Result<nat>, ghost okName: bool, ghost okColor: bool)
    requires ds.Valid()
    modifies ds`planes, ds`names, ds`colors, ds`nameLog, ds`colorLog
    ensures ds.Valid()
    ensures !Readable(ds, co.chA, co.chB, out) ==>
      r == Err(IndexOutOfRange) && ds.planes == old(ds.planes)
    ensures Readable(ds, co.chA, co.chB, out) ==>
      r == Ok(TotalTrue(old(ds.planes), ds.sx * ds.sy, co, ds.st, ds.sz)) &&
      (forall k :: PlaneIn(ds.planes, ds.sx * ds.sy, k) == MaskedUpTo(old(ds.planes), ds.sx * ds.sy, co, out, ds.st, 0, ds.sz, k))
    ensures ds.NameMeta() == WrittenIf(old(ds.NameMeta()), out, name, okName, LabelsOutput(ds, co.chA, co.chB, out))
    ensures ds.ColorMeta() == WrittenIf(old(ds.ColorMeta()), out, color, okColor, LabelsOutput(ds, co.chA, co.chB, out))
  {
    ghost var P, N0, C0 := ds.planes, ds.NameMeta(), ds.ColorMeta();
    var named := false;
    okName, okColor := false, false;
    var totalTrue := 0;
    var t := 0;
    while t < ds.st
      invariant MaskedThrough(ds, P, co, out, t, 0, named, name, color, N0, C0, okName, okColor)
      invariant totalTrue == TotalTrue(P, ds.sx * ds.sy, co, t, ds.sz)
    {
      var row: Result<nat>;
      row, named, okName, okColor := MaskTimePoint(ds, co, out, t, name, color, named, P, N0, C0, okName, okColor);
      if row.Err? {
        return row, okName, okColor;
      }
      totalTrue := totalTrue + row.value;
      t := t + 1;
    }
    assert named == LabelsOutput(ds, co.chA, co.chB, out);
    r := Ok(totalTrue);
  }

  /** Write the mask of (chA >= thrA and chB >= thrB) into channel `out` for
      every (t, z), labelling `out` with `name` and `color` after the first
      slice only, and report the true voxels over
      plane * max(st, 1) * max(sz, 1). */
  method WriteAndMaskU16(ds: Volume, chA: nat, thrA: real, chB: nat, thrB: real, out: nat, name: string, color: int)
    returns (r: Result<MaskReport>, ghost okName: bool, ghost okColor: bool)
    requires ds.Valid()
    modifies ds`planes, ds`names, ds`colors, ds`nameLog, ds`colorLog
    ensures ds.Valid()
    ensures !Readable(ds, chA, chB, out) ==>
      r == Err(IndexOutOfRange) && ds.planes == old(ds.planes)
    ensures Readable(ds, chA, chB, out) ==>
      forall k :: PlaneIn(ds.planes, ds.sx * ds.sy, k) == MaskedUpTo(old(ds.planes), ds.sx * ds.sy, Coloc(chA, thrA, chB, thrB), out, ds.st, 0, ds.sz, k)
    ensures Readable(ds, chA, chB, out) ==>
      r == MaskResult(old(ds.planes), ds.sx * ds.sy, Coloc(chA, thrA, chB, thrB), ds.st, ds.sz)
    ensures r.Err? ==> r.error == IndexOutOfRange || r.error == ZeroDivision
    ensures ds.NameMeta() == WrittenIf(old(ds.NameMeta()), out, name, okName, LabelsOutput(ds, chA, chB, out))
    ensures ds.ColorMeta() == WrittenIf(old(ds.ColorMeta()), out, color, okColor, LabelsOutput(ds, chA, chB, out))
  {
    var n := ds.sx * ds.sy;
    var total: Result<nat>;
    total, okName, okColor := MaskPass(ds, Coloc(chA, thrA, chB, thrB), out, name, color);
    if total.Err? {
      return Err(total.error), okName, okColor;
    }
    if n == 0 {
      r := Err(ZeroDivision);
    } else {
      r := Ok(MaskReport(total.value, Denominator(n, ds.st, ds.sz)));
    }
  }

  // ---- the four masks on the grown volume ----

  /** The planes of the original channels are those of `S`. */
  ghost predicate SameBelow(S: map<Key, seq<Voxel>>, Q: map<Key, seq<Voxel>>, n: nat, sc: nat) {
    forall k: Key | k.0 < sc :: PlaneIn(Q, n, k) == PlaneIn(S, n, k)
  }

  /** Plane `k` of a volume grown from planes `S` with `sc` original
      channels, once the first `j` masks are written. */
  function JobsView(S: map<Key, seq<Voxel>>, n: nat, sc: nat, st: nat, sz: nat, j: nat, k: Key): seq<Voxel>
    requires Uniform(S, n) && j <= |Jobs|
  {
    if sc <= k.0 < sc + j && k.1 < st && k.2 < sz then MaskedPlaneAt(S, n, Jobs[k.0 - sc], k.1, k.2)
    else PlaneIn(S, n, k)
  }

  ghost predicate JobsDone(S: map<Key, seq<Voxel>>, Q: map<Key, seq<Voxel>>, n: nat, sc: nat, st: nat, sz: nat, j: nat)
    requires Uniform(S, n) && j <= |Jobs|
  {
    forall k :: PlaneIn(Q, n, k) == JobsView(S, n, sc, st, sz, j, k)
  }

  /** A pass into a channel past the original ones keeps the original ones. */
  lemma PassKeepsOriginals(S: map<Key, seq<Voxel>>, Q: map<Key, seq<Voxel>>, Q': map<Key, seq<Voxel>>, n: nat, sc: nat, co: Coloc, out: nat, st: nat, sz: nat)
    requires Uniform(Q, n) && sc <= out
    requires SameBelow(S, Q, n, sc)
    requires forall k :: PlaneIn(Q', n, k) == MaskedUpTo(Q, n, co, out, st, 0, sz, k)
    ensures SameBelow(S, Q', n, sc)
  {
    forall k: Key | k.0 < sc
      ensures PlaneIn(Q', n, k) == PlaneIn(S, n, k)
    {
      assert PlaneIn(Q', n, k) == MaskedUpTo(Q, n, co, out, st, 0, sz, k);
    }
  }

  /** When every input is an original channel, mask `j` reads the source
      planes whatever the earlier masks wrote, so its report is that of the
      source. */
  lemma JobReadsSource(S: map<Key, seq<Voxel>>, Q: map<Key, seq<Voxel>>, n: nat, sc: nat, st: nat, sz: nat, j: nat)
    requires Uniform(S, n) && Uniform(Q, n) && InputsPresent(sc) && j < |Jobs|
    requires JobsDone(S, Q, n, sc, st, sz, j)
    ensures MaskResult(Q, n, Jobs[j], st, sz) == MaskResult(S, n, Jobs[j], st, sz)
  {
    var co := Jobs[j];
    assert co.chA < sc && co.chB < sc;
    forall t, z
      ensures PlaneIn(Q, n, (co.chA, t, z)) == PlaneIn(S, n, (co.chA, t, z))
      ensures PlaneIn(Q, n, (co.chB, t, z)) == PlaneIn(S, n, (co.chB, t, z))
    {
      assert PlaneIn(Q, n, (co.chA, t, z)) == JobsView(S, n, sc, st, sz, j, (co.chA, t, z));
      assert PlaneIn(Q, n, (co.chB, t, z)) == JobsView(S, n, sc, st, sz, j, (co.chB, t, z));
    }
    TotalTrueReadsOnlyInputs(Q, S, n, co, st, sz);
  }

  /** When every input is an original channel, mask `j` leaves its channel
      holding the mask of the source planes and every other plane as the
      earlier masks left it. */
  lemma JobStep(S: map<Key, seq<Voxel>>, Q: map<Key, seq<Voxel>>, Q': map<Key, seq<Voxel>>, n: nat, sc: nat, st: nat, sz: nat, j: nat)
    requires Uniform(S, n) && Uniform(Q, n) && InputsPresent(sc) && j < |Jobs|
    requires JobsDone(S, Q, n, sc, st, sz, j)
    requires forall k :: PlaneIn(Q', n, k) == MaskedUpTo(Q, n, Jobs[j], sc + j, st, 0, sz, k)
    ensures JobsDone(S, Q', n, sc, st, sz, j + 1)
  {
    var co := Jobs[j];
    assert co.chA < sc && co.chB < sc;
    forall k: Key
      ensures PlaneIn(Q', n, k) == JobsView(S, n, sc, st, sz, j + 1, k)
    {
      assert PlaneIn(Q', n, k) == MaskedUpTo(Q, n, co, sc + j, st, 0, sz, k);
      if k.0 == sc + j && k.1 < st && k.2 < sz {
        assert PlaneIn(Q, n, (co.chA, k.1, k.2)) == JobsView(S, n, sc, st, sz, j, (co.chA, k.1, k.2));
        assert PlaneIn(Q, n, (co.chB, k.1, k.2)) == JobsView(S, n, sc, st, sz, j, (co.chB, k.1, k.2));
      } else {
        assert PlaneIn(Q, n, k) == JobsView(S, n, sc, st, sz, j, k);
      }
    }
  }

  /** Planes `Q` hold what the first |reports| masks leave on a volume grown
      from planes `S` with `sc` original channels: the original channels
      unchanged and, when every input is an original channel, each written
      output channel holding its mask of `S`, with `reports` their reports. */
  ghost predicate MasksWritten(S: map<Key, seq<Voxel>>, Q: map<Key, seq<Voxel>>, n: nat, sc: nat, st: nat, sz: nat, reports: seq<MaskReport>)
    requires Uniform(S, n)
  {
    |reports| <= |Jobs| && SameBelow(S, Q, n, sc) &&
    (InputsPresent(sc) ==>
      JobsDone(S, Q, n, sc, st, sz, |reports|) &&
      forall j | 0 <= j < |reports| :: Ok(reports[j]) == MaskResult(S, n, Jobs[j], st, sz))
  }

  /** Writing mask |reports| with report `rep` extends what the masks
      before it left. */
  lemma JobWritten(S: map<Key, seq<Voxel>>, Q: map<Key, seq<Voxel>>, Q': map<Key, seq<Voxel>>, n: nat, sc: nat, st: nat, sz: nat,
                   reports: seq<MaskReport>, rep: MaskReport)
    requires Uniform(S, n) && Uniform(Q, n) && |reports| < |Jobs|
    requires MasksWritten(S, Q, n, sc, st, sz, reports)
    requires forall k :: PlaneIn(Q', n, k) == MaskedUpTo(Q, n, Jobs[|reports|], sc + |reports|, st, 0, sz, k)
    requires Ok(rep) == MaskResult(Q, n, Jobs[|reports|], st, sz)
    ensures MasksWritten(S, Q', n, sc, st, sz, reports + [rep])
  {
    var j := |reports|;
    PassKeepsOriginals(S, Q, Q', n, sc, Jobs[j], sc + j, st, sz);
    if InputsPresent(sc) {
      JobReadsSource(S, Q, n, sc, st, sz, j);
      JobStep(S, Q, Q', n, sc, st, sz, j);
    }
  }


  /** The state of the analysis once the first |reports| masks are written
      into a volume grown from `start` channels whose planes were `S` and
      whose metadata was `N0`, `C0`: the planes those masks leave, and the
      output channels they labelled, the host answering `okNames` and
      `okColors`. */
  ghost predicate JobsState(work: Volume, start: nat, S: map<Key, seq<Voxel>>, N0: Meta<string>, C0: Meta<int>,
                            reports: seq<MaskReport>, okNames: seq<bool>, okColors: seq<bool>)
    reads work
  {
    work.Valid() && work.sc == start + Extra && Uniform(S, work.sx * work.sy) &&
    |okNames| == |okColors| == |reports| <= |Jobs| &&
    MasksWritten(S, work.planes, work.sx * work.sy, start, work.st, work.sz, reports) &&
    work.NameMeta() == LabelsSoFar(N0, start, OutNames, okNames, work.st > 0 && work.sz > 0) &&
    work.ColorMeta() == LabelsSoFar(C0, start, OutColors, okColors, work.st > 0 && work.sz > 0)
  }

  /** What mask `j` leaves in `work` when it started from planes `Q` and
      metadata `Nb`, `Cb`: the pass into channel start + j, its report `r`
      and the name and colour of mask `j` written when the pass labels. */
  ghost predicate JobDone(work: Volume, start: nat, j: nat, Q: map<Key, seq<Voxel>>, Nb: Meta<string>, Cb: Meta<int>,
                          r: Result<MaskReport>, okName: bool, okColor: bool)
    requires j < |Jobs| && Uniform(Q, work.sx * work.sy)
    reads work
  {
    (!Readable(work, Jobs[j].chA, Jobs[j].chB, start + j) ==> r == Err(IndexOutOfRange) && work.planes == Q) &&
    (Readable(work, Jobs[j].chA, Jobs[j].chB, start + j) ==>
      r == MaskResult(Q, work.sx * work.sy, Jobs[j], work.st, work.sz) &&
      forall k :: PlaneIn(work.planes, work.sx * work.sy, k) == MaskedUpTo(Q, work.sx * work.sy, Jobs[j], start + j, work.st, 0, work.sz, k)) &&
    (r.Err? ==> r.error == IndexOutOfRange || r.error == ZeroDivision) &&
    work.NameMeta() == WrittenIf(Nb, start + j, OutNames[j], okName, LabelsOutput(work, Jobs[j].chA, Jobs[j].chB, start + j)) &&
    work.ColorMeta() == WrittenIf(Cb, start + j, OutColors[j], okColor, LabelsOutput(work, Jobs[j].chA, Jobs[j].chB, start + j))
  }

  /** Mask `j` of the analysis into its output channel, start + j, labelled
      with the name and colour of mask `j`: one of the four mask calls. */
  method MaskJob(work: Volume, start: nat, j: nat) returns (r: Result<MaskReport>, ghost okName: bool, ghost okColor: bool)
    requires work.Valid() && j < |Jobs|
    modifies work`planes, work`names, work`colors, work`nameLog, work`colorLog
    ensures work.Valid()
    ensures !Readable(work, Jobs[j].chA, Jobs[j].chB, start + j) ==> r == Err(IndexOutOfRange) && work.planes == old(work.planes)
    ensures Readable(work, Jobs[j].chA, Jobs[j].chB, start + j) ==>
      r == MaskResult(old(work.planes), work.sx * work.sy, Jobs[j], work.st, work.sz) &&
      forall k :: PlaneIn(work.planes, work.sx * work.sy, k) == MaskedUpTo(old(work.planes), work.sx * work.sy, Jobs[j], start + j, work.st, 0, work.sz, k)
    ensures r.Err? ==> r.error == IndexOutOfRange || r.error == ZeroDivision
    ensures work.NameMeta() == WrittenIf(old(work.NameMeta()), start + j, OutNames[j], okName, LabelsOutput(work, Jobs[j].chA, Jobs[j].chB, start + j))
    ensures work.ColorMeta() == WrittenIf(old(work.ColorMeta()), start + j, OutColors[j], okColor, LabelsOutput(work, Jobs[j].chA, Jobs[j].chB, start + j))
    ensures JobDone(work, start, j, old(work.planes), old(work.NameMeta()), old(work.ColorMeta()), r, okName, okColor)
  {
    var co := Jobs[j];
    assert Coloc(co.chA, co.thrA, co.chB, co.thrB) == co;
    OutputIndicesDistinct(start);
    var out, name, color := OutputIndices(start)[j], OutNames[j], OutColors[j];
    r, okName, okColor := WriteAndMaskU16(work, co.chA, co.thrA, co.chB, co.thrB, out, name, color);
  }

  /** The next mask of the analysis, mask j = |reports|, advances the state
      of the analysis when it succeeds. */
  method RunJob(work: Volume, start: nat, reports: seq<MaskReport>, ghost S: map<Key, seq<Voxel>>,
                ghost N0: Meta<string>, ghost C0: Meta<int>, ghost okNames: seq<bool>, ghost okColors: seq<bool>)
    returns (r: Result<MaskReport>, ghost okName: bool, ghost okColor: bool)
    requires JobsState(work, start, S, N0, C0, reports, okNames, okColors) && |reports| < |Jobs|
    modifies work`planes, work`names, work`colors, work`nameLog, work`colorLog
    ensures work.Valid()
    ensures InputsPresent(start) ==> r == MaskResult(S, work.sx * work.sy, Jobs[|reports|], work.st, work.sz)
    ensures InputsPresent(start) && work.sx * work.sy > 0 ==> r.Ok?
    ensures r.Err? ==> r.error == IndexOutOfRange || r.error == ZeroDivision
    ensures r.Ok? ==> JobsState(work, start, S, N0, C0, reports + [r.value], okNames + [okName], okColors + [okColor])
  {
    var j := |reports|;
    ghost var n := work.sx * work.sy;
    ghost var Q, Nb, Cb := work.planes, work.NameMeta(), work.ColorMeta();
    r, okName, okColor := MaskJob(work, start, j);
    if InputsPresent(start) {
      JobReadsSource(S, Q, n, start, work.st, work.sz, j);
    }
    if r.Ok? {
      JobsStateNext(work, start, S, N0, C0, reports, okNames, okColors, Q, Nb, Cb, r.value, okName, okColor);
    }
  }

  /** Mask j = |reports| written from planes `Q` and metadata `Nb`, `Cb`
      that held what the masks before it left extends that state. */
  lemma JobsStateNext(work: Volume, start: nat, S: map<Key, seq<Voxel>>, N0: Meta<string>, C0: Meta<int>,
                      reports: seq<MaskReport>, okNames: seq<bool>, okColors: seq<bool>,
                      Q: map<Key, seq<Voxel>>, Nb: Meta<string>, Cb: Meta<int>, rep: MaskReport, okName: bool, okColor: bool)
    requires work.Valid() && work.sc == start + Extra && Uniform(S, work.sx * work.sy) && Uniform(Q, work.sx * work.sy)
    requires |okNames| == |okColors| == |reports| < |Jobs|
    requires MasksWritten(S, Q, work.sx * work.sy, start, work.st, work.sz, reports)
    requires Nb == LabelsSoFar(N0, start, OutNames, okNames, work.st > 0 && work.sz > 0)
    requires Cb == LabelsSoFar(C0, start, OutColors, okColors, work.st > 0 && work.sz > 0)
    requires JobDone(work, start, |reports|, Q, Nb, Cb, Ok(rep), okName, okColor)
    ensures JobsState(work, start, S, N0, C0, reports + [rep], okNames + [okName], okColors + [okColor])
  {
    var j := |reports|;
    JobWritten(S, Q, work.planes, work.sx * work.sy, start, work.st, work.sz, reports, rep);
    assert LabelsOutput(work, Jobs[j].chA, Jobs[j].chB, start + j) == (work.st > 0 && work.sz > 0);
    LabelsSoFarStep(Nb, work.NameMeta(), N0, start, OutNames, okNames, okName, work.st > 0 && work.sz > 0);
    LabelsSoFarStep(Cb, work.ColorMeta(), C0, start, OutColors, okColors, okColor, work.st > 0 && work.sz > 0);
  }

  /** What the four masks leave, plane by plane. */
  lemma MasksWrittenPlanes(S: map<Key, seq<Voxel>>, Q: map<Key, seq<Voxel>>, n: nat, sc: nat, st: nat, sz: nat, reports: seq<MaskReport>)
    requires Uniform(S, n) && |reports| == |Jobs| && MasksWritten(S, Q, n, sc, st, sz, reports)
    ensures forall k: Key | k.0 < sc :: PlaneIn(Q, n, k) == PlaneIn(S, n, k)
    ensures InputsPresent(sc) ==>
      forall j: nat, t: nat, z: nat | j < |Jobs| && t < st && z < sz ::
        PlaneIn(Q, n, (sc + j, t, z)) == MaskedPlaneAt(S, n, Jobs[j], t, z)
    ensures InputsPresent(sc) ==>
      forall k: Key | !(sc <= k.0 < sc + Extra && k.1 < st && k.2 < sz) :: PlaneIn(Q, n, k) == PlaneIn(S, n, k)
  {
    if InputsPresent(sc) {
      forall j: nat, t: nat, z: nat | j < |Jobs| && t < st && z < sz
        ensures PlaneIn(Q, n, (sc + j, t, z)) == MaskedPlaneAt(S, n, Jobs[j], t, z)
      {
        assert PlaneIn(Q, n, (sc + j, t, z)) == JobsView(S, n, sc, st, sz, |Jobs|, (sc + j, t, z));
      }
      forall k: Key | !(sc <= k.0 < sc + Extra && k.1 < st && k.2 < sz)
        ensures PlaneIn(Q, n, k) == PlaneIn(S, n, k)
      {
        assert PlaneIn(Q, n, k) == JobsView(S, n, sc, st, sz, |Jobs|, k);
      }
    }
  }

  // ---- the labels of the output channels ----

  /** Metadata `m` once the first |oks| masks have labelled channels start,
      start + 1, ... with `labels`, the host answering `oks`. */
  function JobLabels<V>(m: Meta<V>, start: nat, labels: seq<V>, oks: seq<bool>): Meta<V>
    requires |oks| <= |labels|
    decreases |oks|
  {
    if oks == [] then m
    else Written(JobLabels(m, start, labels, oks[..|oks| - 1]), start + |oks| - 1, labels[|oks| - 1], oks[|oks| - 1])
  }

  lemma JobLabelsStep<V>(m: Meta<V>, start: nat, labels: seq<V>, oks: seq<bool>, ok: bool)
    requires |oks| < |labels|
    ensures JobLabels(m, start, labels, oks + [ok]) == Written(JobLabels(m, start, labels, oks), start + |oks|, labels[|oks|], ok)
  {
    assert (oks + [ok])[..|oks|] == oks;
  }

  /** `m` after the labelling by the first |oks| masks, which label only
      when `labelled` (the volume has a slice). */
  function LabelsSoFar<V>(m: Meta<V>, start: nat, labels: seq<V>, oks: seq<bool>, labelled: bool): Meta<V>
    requires |oks| <= |labels|
  {
    if labelled then JobLabels(m, start, labels, oks) else m
  }

  /** Mask |oks| labels its channel exactly when the masks label. */
  lemma LabelsSoFarStep<V>(before: Meta<V>, after: Meta<V>, m: Meta<V>, start: nat, labels: seq<V>, oks: seq<bool>, ok: bool, labelled: bool)
    requires |oks| < |labels|
    requires before == LabelsSoFar(m, start, labels, oks, labelled)
    requires after == WrittenIf(before, start + |oks|, labels[|oks|], ok, labelled)
    ensures after == LabelsSoFar(m, start, labels, oks + [ok], labelled)
  {
    JobLabelsStep(m, start, labels, oks, ok);
  }

  /** The writes the labelling of the masks asks the host for. */
  function LabelCalls<V>(start: nat, labels: seq<V>, oks: seq<bool>): seq<(nat, V, bool)>
    requires |oks| <= |labels|
  {
    seq(|oks|, j requires 0 <= j < |oks| => (start + j, labels[j], oks[j]))
  }

  /** Labelling the masks keeps the metadata of the channels below `start`,
      gives output channel start + j label j exactly when the host accepted
      it, and asks the host for one write per mask, in mask order. */
  lemma {:induction false} JobLabelsValues<V>(m: Meta<V>, start: nat, labels: seq<V>, oks: seq<bool>)
    requires |oks| <= |labels| && forall c | c in m.values :: c < start
    ensures var r := JobLabels(m, start, labels, oks);
      (forall c | c < start :: (c in r.values <==> c in m.values) && (c in m.values ==> r.values[c] == m.values[c])) &&
      (forall c | c in r.values :: c < start + |oks|) &&
      (forall j | 0 <= j < |oks| :: (start + j in r.values <==> oks[j]) && (oks[j] ==> r.values[start + j] == labels[j])) &&
      r.log == m.log + LabelCalls(start, labels, oks)
  {
    if oks != [] {
      var k := |oks| - 1;
      JobLabelsValues(m, start, labels, oks[..k]);
      assert LabelCalls(start, labels, oks) == LabelCalls(start, labels, oks[..k]) + [(start + k, labels[k], oks[k])];
    }
  }

  /** Below channel `c`, `m` holds exactly the entries of `src` at the
      channels in `accepted`. */
  ghost predicate KeptBelow<V>(src: map<nat, V>, m: map<nat, V>, accepted: set<nat>, c: nat) {
    forall i | i < c :: (i in m <==> i in accepted) && (i in accepted ==> i in src && m[i] == src[i])
  }

  /** Output channel start + j carries `labels[j]` exactly when the masks
      labelled their channels and the host accepted it. */
  predicate LabelledAt<V(==)>(m: map<nat, V>, start: nat, labelled: bool, labels: seq<V>, oks: seq<bool>)
    requires |oks| == |labels|
  {
    forall j | 0 <= j < |oks| :: (start + j in m <==> labelled && oks[j]) && (start + j in m ==> m[start + j] == labels[j])
  }

  /** The metadata of the original channels survives the labelling. */
  lemma LabelsOverCopies<V>(src: map<nat, V>, m0: Meta<V>, m: Meta<V>, accepted: set<nat>, start: nat, labelled: bool, labels: seq<V>, oks: seq<bool>)
    requires KeptBelow(src, m0.values, accepted, start) && (forall c | c in m0.values :: c < start)
    requires |oks| == |labels|
    requires m == LabelsSoFar(m0, start, labels, oks, labelled)
    ensures KeptBelow(src, m.values, accepted, start) && LabelledAt(m.values, start, labelled, labels, oks)
  {
    JobLabelsValues(m0, start, labels, oks);
  }

  // ---- the analysis ----

  /** The four mask calls of the analysis, GFAP then IBA1, each into its own
      new channel; the first failure ends the sequence. */
  method WriteMasks(work: Volume, start: nat, ghost S: map<Key, seq<Voxel>>)
    returns (r: Result<seq<MaskReport>>, ghost okNames: seq<bool>, ghost okColors: seq<bool>)
    requires work.Valid() && work.sc == start + Extra && Uniform(S, work.sx * work.sy)
    requires forall k :: PlaneIn(work.planes, work.sx * work.sy, k) == PlaneIn(S, work.sx * work.sy, k)
    modifies work`planes, work`names, work`colors, work`nameLog, work`colorLog
    ensures work.Valid()
    ensures r.Err? ==> r.error == IndexOutOfRange || r.error == ZeroDivision
    ensures r.Ok? ==>
      |r.value| == |Jobs| && JobsState(work, start, S, old(work.NameMeta()), old(work.ColorMeta()), r.value, okNames, okColors)
    ensures InputsPresent(start) && work.sx * work.sy > 0 ==> r.Ok?
  {
    ghost var N0, C0 := work.NameMeta(), work.ColorMeta();
    okNames, okColors := [], [];
    assert JobsDone(S, work.planes, work.sx * work.sy, start, work.st, work.sz, 0);
    assert JobsState(work, start, S, N0, C0, [], okNames, okColors);
    ghost var okName: bool, okColor: bool;
    var reports: seq<MaskReport> := [];
    var rep: Result<MaskReport>;
    // GFAP (green)
    rep, okName, okColor := RunJob(work, start, reports, S, N0, C0, okNames, okColors);
    if rep.Err? {
      return Err(rep.error), okNames, okColors;
    }
    reports, okNames, okColors := reports + [rep.value], okNames + [okName], okColors + [okColor];
    rep, okName, okColor := RunJob(work, start, reports, S, N0, C0, okNames, okColors);
    if rep.Err? {
      return Err(rep.error), okNames, okColors;
    }
    reports, okNames, okColors := reports + [rep.value], okNames + [okName], okColors + [okColor];
    // IBA1 (red)
    rep, okName, okColor := RunJob(work, start, reports, S, N0, C0, okNames, okColors);
    if rep.Err? {
      return Err(rep.error), okNames, okColors;
    }
    reports, okNames, okColors := reports + [rep.value], okNames + [okName], okColors + [okColor];
    rep, okName, okColor := RunJob(work, start, reports, S, N0, C0, okNames, okColors);
    if rep.Err? {
      return Err(rep.error), okNames, okColors;
    }
    okNames, okColors := okNames + [okName], okColors + [okColor];
    r := Ok(reports + [rep.value]);
  }

  /** The start index and the four reports of a completed analysis. */
  datatype Outputs = Outputs(start: nat, reports: seq<MaskReport>)

  /** What a completed analysis leaves in `work`, derived from `src`: the
      same geometry with four more channels; the planes the four masks leave
      on the source planes; the original channels' names and colours where
      the host accepted their copies (`named`, `colored`); and output
      channel start + j named and coloured as mask j when the masks had a
      slice to label after and the host accepted (`okNames`, `okColors`). */
  ghost predicate Derived(src: Volume, work: Volume, o: Outputs, named: set<nat>, colored: set<nat>, okNames: seq<bool>, okColors: seq<bool>)
    reads src, work
  {
    src.Valid() && work.Valid() &&
    work.sx == src.sx && work.sy == src.sy && work.sz == src.sz && work.st == src.st &&
    work.sc == src.sc + Extra && o.start == src.sc && |o.reports| == |Jobs| &&
    MasksWritten(src.planes, work.planes, src.sx * src.sy, src.sc, src.st, src.sz, o.reports) &&
    |okNames| == |okColors| == |Jobs| &&
    KeptBelow(src.names, work.names, named, o.start) &&
    KeptBelow(src.colors, work.colors, colored, o.start) &&
    LabelledAt(work.names, o.start, src.st > 0 && src.sz > 0, OutNames, okNames) &&
    LabelledAt(work.colors, o.start, src.st > 0 && src.sz > 0, OutColors, okColors)
  }

  /** Clone the active dataset and make the clone active, grow it by four
      channels, and write the four masks; the first failing mask ends the
      run, leaving what was already written. */
  method KoobAnalysis(app: App)
    returns (r: Result<Outputs>, ghost named: set<nat>, ghost colored: set<nat>, ghost okNames: seq<bool>, ghost okColors: seq<bool>)
    requires app.dataset != null ==> app.dataset.Valid()
    modifies app
    ensures r == Err(NoDataset) <==> old(app.dataset) == null
    ensures old(app.dataset) == null ==> app.dataset == null
    ensures r.Ok? ==>
              old(app.dataset) != null && app.dataset != null && fresh(app.dataset) &&
              Derived(old(app.dataset), app.dataset, r.value, named, colored, okNames, okColors)
    ensures old(app.dataset) != null && InputsPresent(old(app.dataset.sc)) && old(app.dataset.sx * app.dataset.sy) > 0 ==> r.Ok?
  {
    named, colored, okNames, okColors := {}, {}, [], [];
    var src := app.dataset;
    if src == null {
      return Err(NoDataset), named, colored, okNames, okColors;
    }
    var work: Volume;
    ghost var extents: set<Axis>;
    work, extents, named, colored := CloneSameC(src);
    app.SetDataSet(work);
    ghost var clone := work;
    ghost var named2: set<nat>, colored2: set<nat>;
    var start: nat;
    work, start, named2, colored2 := EnsureExtraChannels(app, work, Extra);
    if work != clone {
      named, colored := named2, colored2;
    }
    assert KeptBelow(src.names, work.names, named, start) && KeptBelow(src.colors, work.colors, colored, start);
    ghost var n := src.sx * src.sy;
    forall k
      ensures PlaneIn(work.planes, n, k) == PlaneIn(src.planes, n, k)
    {
      assert work.Plane(k) == src.Plane(k);
    }
    ghost var N1, C1 := work.NameMeta(), work.ColorMeta();
    var masks: Result<seq<MaskReport>>;
    masks, okNames, okColors := WriteMasks(work, start, src.planes);
    if masks.Err? {
      return Err(masks.error), named, colored, okNames, okColors;
    }
    LabelsOverCopies(src.names, N1, work.NameMeta(), named, start, work.st > 0 && work.sz > 0, OutNames, okNames);
    LabelsOverCopies(src.colors, C1, work.ColorMeta(), colored, start, work.st > 0 && work.sz > 0, OutColors, okColors);
    r := Ok(Outputs(start, masks.value));
  }
}
