/** The host-owned image dataset: a five-dimensional volume (X, Y, Z, channel,
    time) with per-channel metadata and spatial extents, and the application
    object that holds the active dataset. The methods of `Volume` are the
    plane-level accessors of the host's dataset API; the ones the host may
    refuse at will (metadata, extents, in-place growth) choose their outcome
    nondeterministically. */
module Volumes {

  /** The largest value of the unsigned 16-bit voxel encoding. */
  const MaxU16: int := 65535

  /** A voxel of an unsigned 16-bit channel. */
  type Voxel = v: int | 0 <= v <= MaxU16

  datatype Error =
    | NoDataset         // no active dataset in the host application
    | IndexOutOfRange   // a plane address outside the volume's geometry
    | ShapeMismatch     // a plane buffer whose length is not sizeX * sizeY
    | MetadataMissing   // a channel name or colour that cannot be read
    | ZeroDivision      // the true-voxel fraction of an empty plane

  datatype Result<T> = Ok(value: T) | Err(error: Error)

  datatype Outcome = Pass | Fail(error: Error)

  datatype Axis = X | Y | Z

  /** The axes in the order the extents are copied. */
  const Axes: seq<Axis> := [X, Y, Z]

  /** The extent of every axis of a freshly created dataset. */
  const ExtentDefault: real := 0.0

  const DefaultExtents: map<Axis, real> := map[X := ExtentDefault, Y := ExtentDefault, Z := ExtentDefault]

  /** The address of one plane: (channel, time, z). */
  type Key = (nat, nat, nat)

  function Zeros(n: nat): seq<Voxel> {
    seq(n, _ => 0)
  }

  /** The plane stored at `k`; a plane never written holds the backend's
      default content, zero. */
  function PlaneIn(planes: map<Key, seq<Voxel>>, n: nat, k: Key): seq<Voxel> {
    if k in planes then planes[k] else Zeros(n)
  }

  /** Every stored plane has `n` voxels. */
  predicate Uniform(planes: map<Key, seq<Voxel>>, n: nat) {
    forall k | k in planes :: |planes[k]| == n
  }

  /** One kind of channel metadata (names or colours) together with the log
      of every write the host was asked for, in order: the channel, the value,
      and whether the host accepted it. */
  datatype Meta<V> = Meta(values: map<nat, V>, log: seq<(nat, V, bool)>)

  /** `m` after one best-effort write of `v` to channel `c`. */
  function Written<V>(m: Meta<V>, c: nat, v: V, ok: bool): Meta<V> {
    Meta(if ok then m.values[c := v] else m.values, m.log + [(c, v, ok)])
  }

  class Volume {
    var sx: nat
    var sy: nat
    var sz: nat
    var sc: nat
    var st: nat
    var names: map<nat, string>
    var colors: map<nat, int>   // packed RGBA
    var extendMin: map<Axis, real>
    var extendMax: map<Axis, real>
    var planes: map<Key, seq<Voxel>>
    // every name and colour write the host was asked for, in order
    ghost var nameLog: seq<(nat, string, bool)>
    ghost var colorLog: seq<(nat, int, bool)>
    // every channel-count request, with whether the host honoured it
    ghost var sizeLog: seq<(nat, bool)>

    /** Stored planes lie inside the geometry and have sizeX * sizeY voxels;
        metadata belongs to existing channels; every axis has an extent. */
    ghost predicate Valid()
      reads this
    {
      Uniform(planes, sx * sy) &&
      (forall k | k in planes :: k.0 < sc && k.1 < st && k.2 < sz) &&
      (forall c | c in names :: c < sc) &&
      (forall c | c in colors :: c < sc) &&
      (forall a: Axis :: a in extendMin && a in extendMax)
    }

    /** `Create(eTypeUInt16, sx, sy, sz, sc, st)` on a new dataset. */
    constructor (sx: nat, sy: nat, sz: nat, sc: nat, st: nat)
      ensures Valid()
      ensures this.sx == sx && this.sy == sy && this.sz == sz
      ensures this.sc == sc && this.st == st
      ensures planes == map[] && NameMeta() == Meta(map[], []) && ColorMeta() == Meta(map[], [])
      ensures sizeLog == []
      ensures forall a: Axis :: a in extendMin && extendMin[a] == ExtentDefault
      ensures forall a: Axis :: a in extendMax && extendMax[a] == ExtentDefault
    {
      this.sx, this.sy, this.sz, this.sc, this.st := sx, sy, sz, sc, st;
      planes, names, colors := map[], map[], map[];
      nameLog, colorLog, sizeLog := [], [], [];
      extendMin, extendMax := DefaultExtents, DefaultExtents;
      forall a: Axis
        ensures a in DefaultExtents && DefaultExtents[a] == ExtentDefault
      {
        match a
        case X =>
        case Y =>
        case Z =>
      }
    }

    ghost function NameMeta(): Meta<string>
      reads this`names, this`nameLog
    {
      Meta(names, nameLog)
    }

    ghost function ColorMeta(): Meta<int>
      reads this`colors, this`colorLog
    {
      Meta(colors, colorLog)
    }

    /** The voxel content of the plane at `k`. */
    function Plane(k: Key): seq<Voxel>
      reads this
    {
      PlaneIn(planes, sx * sy, k)
    }

    predicate InRange(c: nat, t: nat, z: nat)
      reads this
    {
      c < sc && t < st && z < sz
    }

    /** `GetDataSubVolumeAs1DArrayFloats(0, 0, z, c, t, sx, sy, 1)`. */
    method ReadPlane(c: nat, t: nat, z: nat) returns (r: Result<seq<Voxel>>)
      requires Valid()
      ensures r.Ok? <==> InRange(c, t, z)
      ensures r.Ok? ==> r.value == Plane((c, t, z)) && |r.value| == sx * sy
      ensures r.Err? ==> r.error == IndexOutOfRange
    {
      if InRange(c, t, z) {
        r := Ok(Plane((c, t, z)));
      } else {
        r := Err(IndexOutOfRange);
      }
    }

    /** `SetDataSubVolumeAs1DArray…(p, 0, 0, z, c, t, sx, sy, 1)`. */
    method WritePlane(p: seq<Voxel>, c: nat, t: nat, z: nat) returns (r: Outcome)
      requires Valid()
      modifies this`planes
      ensures Valid()
      ensures r == if !InRange(c, t, z) then Fail(IndexOutOfRange)
                   else if |p| != sx * sy then Fail(ShapeMismatch)
                   else Pass
      ensures planes == if r.Pass? then old(planes)[(c, t, z) := p] else old(planes)
    {
      if !InRange(c, t, z) {
        r := Fail(IndexOutOfRange);
      } else if |p| != sx * sy {
        r := Fail(ShapeMismatch);
      } else {
        planes := planes[(c, t, z) := p];
        r := Pass;
      }
    }

    method GetChannelName(c: nat) returns (r: Result<string>)
      requires Valid()
      ensures r.Ok? <==> c in names
      ensures r.Ok? ==> c < sc && r.value == names[c]
    {
      if c in names {
        r := Ok(names[c]);
      } else {
        r := Err(MetadataMissing);
      }
    }

    method GetChannelColor(c: nat) returns (r: Result<int>)
      requires Valid()
      ensures r.Ok? <==> c in colors
      ensures r.Ok? ==> c < sc && r.value == colors[c]
    {
      if c in colors {
        r := Ok(colors[c]);
      } else {
        r := Err(MetadataMissing);
      }
    }

    /** Best effort: the host may refuse, and always refuses a channel that
        does not exist. */
    method SetChannelName(c: nat, name: string) returns (ok: bool)
      requires Valid()
      modifies this`names, this`nameLog
      ensures Valid()
      ensures ok ==> c < sc
      ensures NameMeta() == Written(old(NameMeta()), c, name, ok)
    {
      ok := *;
      ok := ok && c < sc;
      if ok {
        names := names[c := name];
      }
      nameLog := nameLog + [(c, name, ok)];
    }

    method SetChannelColor(c: nat, color: int) returns (ok: bool)
      requires Valid()
      modifies this`colors, this`colorLog
      ensures Valid()
      ensures ok ==> c < sc
      ensures ColorMeta() == Written(old(ColorMeta()), c, color, ok)
    {
      ok := *;
      ok := ok && c < sc;
      if ok {
        colors := colors[c := color];
      }
      colorLog := colorLog + [(c, color, ok)];
    }

    /** Best effort, like the metadata setters. */
    method SetExtendMin(a: Axis, v: real) returns (ok: bool)
      requires Valid()
      modifies this`extendMin
      ensures Valid()
      ensures extendMin == if ok then old(extendMin)[a := v] else old(extendMin)
    {
      ok := *;
      if ok {
        extendMin := extendMin[a := v];
      }
    }

    method SetExtendMax(a: Axis, v: real) returns (ok: bool)
      requires Valid()
      modifies this`extendMax
      ensures Valid()
      ensures extendMax == if ok then old(extendMax)[a := v] else old(extendMax)
    {
      ok := *;
      if ok {
        extendMax := extendMax[a := v];
      }
    }

    /** `SetSizeC(n)`: the host may honour the request, ignore it silently,
        or raise; a raise leaves the channel count as it was. */
    method SetSizeC(n: nat) returns (raised: bool)
      requires Valid()
      requires sc <= n
      modifies this`sc, this`sizeLog
      ensures Valid()
      ensures raised ==> sc == old(sc)
      ensures sc == old(sc) || sc == n
      ensures sizeLog == old(sizeLog) + [(n, !raised && sc == n)]
    {
      var honoured: bool := *;
      raised := *;
      if !raised && honoured {
        sc := n;
      }
      sizeLog := sizeLog + [(n, !raised && sc == n)];
    }
  }

  /** The host application; `dataset` is its active dataset. */
  class App {
    var dataset: Volume?

    method SetDataSet(ds: Volume)
      modifies this
      ensures dataset == ds
    {
      dataset := ds;
    }
  }
}
