# Koob analysis: a verified model of the channel-derivation pipeline

`Scripts/koobanalysis.py` is an Imaris extension. It derives four
co-localisation channels from an open five-dimensional image dataset (X, Y,
Z, channel, time):

1. It clones the active dataset with the same XYZCT, best-effort extents and
   channel metadata, and every plane, then makes the clone active.
2. It grows the clone by four channels. This happens in place when the host
   honours `SetSizeC`; otherwise it reallocates a dataset with the target
   channel count, copies the original channels into it and makes it active.
3. It writes four binary AND masks into the new channels. Each mask is
   65535 where channel A reaches its threshold and channel B (DAPI) reaches
   its own, and 0 elsewhere.
4. Each mask's output channel is named and coloured after its first slice.
   The pass reports the number of true voxels and the fraction over
   plane * max(T, 1) * max(Z, 1).

The project has three modules:

- `Volumes` (`volume.dfy`) models the host's dataset as a `Volume` class, with
  the geometry, per-channel names and colours, extents, and a map from (c, t,
  z) to planes. A plane never written reads as zeros. The host `App` holds the
  active dataset. Metadata setters, extent setters and `SetSizeC` are best
  effort: their outcome is chosen nondeterministically, so every proof holds
  whatever the host does. Every name and colour write is also appended to a
  ghost log, with the channel, the value and the host's answer. The
  contracts can therefore say exactly which writes were asked for, in which
  order, and not only what the maps hold afterwards. Each channel-count
  request is logged likewise, with whether the host honoured it, so the
  growth's choice between its two paths is part of its contract.
- `Masks` (`mask.dfy`) holds the pure part of the mask: the per-voxel
  predicate, the output plane, and the counts per slice, time point and pass.
  It also holds the report and its fraction, plus the inner per-plane loop as
  an array method.
- `Koob` (`koob.dfy`) holds the imperative pipeline: the copies, the clone,
  the growth, the slice-by-slice mask pass with its one-time labelling, the
  four mask calls, and the entry point.

Each state-changing method is proved against a specification:

- The plane-level views (`CopiedView`, `MaskedUpTo`, `JobsView`) say what
  every plane holds part-way through a loop.
- The counting functions (`SliceTrue`, `RowTrue`, `TotalTrue`) say what the
  running count is.
- Lemmas prove what the source promises about those functions:
  - the count of a plane, a time point and a whole pass equals the number of
    marked positions (t, z, i);
  - the bounds;
  - the fraction lies in [0, 1];
  - a mask depends only on its two inputs;
  - a pass is idempotent;
  - with at least nine source channels, so that every input is an original
    channel, the four masks of the analysis are exactly the masks of the
    source planes;
  - each output channel is named and coloured once, after its first slice,
    with the name and colour of its mask.

## Model

| member | source | states |
|---|---|---|
| Volumes.Volume.constructor | Scripts/koobanalysis.py:57 | `Create(eTypeUInt16, sx, sy, sz, sc, st)` gives the requested geometry, no stored planes (all zero), no metadata, empty metadata and size logs, and default extents |
| Volumes.Volume.ReadPlane | Scripts/koobanalysis.py:134-135 | a plane read succeeds exactly inside the geometry and returns the stored plane of sizeX * sizeY voxels; outside it fails with an index error |
| Volumes.Volume.WritePlane | Scripts/koobanalysis.py:144 | a plane write fails outside the geometry or on a buffer of the wrong length and then changes nothing; otherwise exactly that one plane is replaced |
| Volumes.Volume.GetChannelName | Scripts/koobanalysis.py:70 | the name read succeeds exactly when the channel has a name, and returns it |
| Volumes.Volume.GetChannelColor | Scripts/koobanalysis.py:72 | the colour read succeeds exactly when the channel has a colour, and returns it |
| Volumes.Volume.SetChannelName | Scripts/koobanalysis.py:147-148 | best effort: the name map either stays the same or gains exactly that entry, only for an existing channel; the write (channel, name, accepted or not) is appended to the name log |
| Volumes.Volume.SetChannelColor | Scripts/koobanalysis.py:149-150 | best effort: the colour map either stays the same or gains exactly that entry, only for an existing channel; the write (channel, colour, accepted or not) is appended to the colour log |
| Volumes.Volume.SetExtendMin | Scripts/koobanalysis.py:62 | best effort: the minimum extent of that axis is set or left as it was |
| Volumes.Volume.SetExtendMax | Scripts/koobanalysis.py:63 | best effort: the maximum extent of that axis is set or left as it was |
| Volumes.Volume.SetSizeC | Scripts/koobanalysis.py:87-93 | growth may be honoured, silently ignored, or raise; the channel count ends up old or the target, and a raise leaves it old; the request is logged with whether it was honoured (no raise and the count now the target) |
| Volumes.App.SetDataSet | Scripts/koobanalysis.py:187 | the given dataset becomes the active one |
| Masks.HitsBelow | Scripts/koobanalysis.py:137-142 | the running count after i positions is at most i |
| Masks.CountTrue | Scripts/koobanalysis.py:137-142 | a plane's count is at most its number of voxels |
| Masks.HitsBelowArePositions | Scripts/koobanalysis.py:137-142 | the running count after i positions is the number of positions below i where both inputs reach their thresholds |
| Masks.CountTrueIsHitPositions | Scripts/koobanalysis.py:140-142 | `cnt` is exactly the number of positions where both inputs reach their thresholds |
| Masks.HitsBelowAreMaskOnes | Scripts/koobanalysis.py:136-142 | the running count after i positions is the number of 65535 values among the first i voxels written |
| Masks.CountTrueIsMaskOnes | Scripts/koobanalysis.py:136-142 | `cnt` equals the number of 65535 voxels in the written plane |
| Masks.MaskBuffer | Scripts/koobanalysis.py:136-142 | the zero-initialised buffer ends with 65535 exactly where both inputs reach their thresholds (both directions) and 0 exactly elsewhere; it equals the mask plane and `cnt` is its count |
| Masks.ZeroThresholdIgnoresB | Scripts/koobanalysis.py:140 | with a DAPI threshold of 0.0, as both masks of the analysis use, the B channel does not affect the mask |
| Masks.ZeroThresholdsHitBelow | Scripts/koobanalysis.py:140 | with both thresholds 0.0 every position counts |
| Masks.ZeroThresholdsMarkAll | Scripts/koobanalysis.py:140 | with both thresholds 0.0 the plane is all 65535 and the count is the plane size |
| Masks.ExampleTwoOfFour | Scripts/koobanalysis.py:140-141 | a worked 2x2 plane: A = [100, 0, 700, 600] against 600 gives [0, 0, 65535, 65535] and count 2 |
| Masks.SliceTrue | Scripts/koobanalysis.py:137-143 | one slice adds at most `plane` true voxels |
| Masks.RowTrueBound | Scripts/koobanalysis.py:132-143 | a time point of sz slices counts at most plane * sz |
| Masks.TotalTrueBound | Scripts/koobanalysis.py:131-143 | `total_true` is at most plane * st * sz |
| Masks.RowTrueReadsOnlyInputs | Scripts/koobanalysis.py:134-143 | a time point's count depends only on the planes of channels A and B |
| Masks.TotalTrueReadsOnlyInputs | Scripts/koobanalysis.py:131-143 | `total_true` depends only on the planes of channels A and B |
| Masks.SliceTrueIsHits | Scripts/koobanalysis.py:137-143 | a slice's count is the number of its positions (t, z, i) where both inputs reach their thresholds |
| Masks.RowTrueIsHits | Scripts/koobanalysis.py:132-143 | a time point's count is the number of its marked positions (t, z, i) with z below the slices counted |
| Masks.TotalTrueIsHits | Scripts/koobanalysis.py:130-143 | `total_true` is the number of positions (t, z, i) with t < st, z < sz and i < plane where both inputs reach their thresholds |
| Masks.MaskedUpToStep | Scripts/koobanalysis.py:133-144 | writing slice (t, z) advances the pass's view by one slice, and the slice reads the original inputs (the output channel's earlier writes are at other slices) |
| Masks.MaskedUpToNextTime | Scripts/koobanalysis.py:131-132 | finishing the z loop of time t is starting time t + 1 |
| Masks.MaskPassShape | Scripts/koobanalysis.py:131-144 | after a pass, only the output channel differs; its in-range planes hold only 0 and 65535, and planes outside the geometry are untouched |
| Masks.MaskPassIdempotent | Scripts/koobanalysis.py:131-144 | re-running a pass whose output is neither input leaves every plane as the first run left it |
| Masks.DenominatorBound | Scripts/koobanalysis.py:153 | plane * max(st, 1) * max(sz, 1) is positive for a non-empty plane, at least plane * st * sz, and equal to it when st, sz > 0 |
| Masks.FractionInUnitInterval | Scripts/koobanalysis.py:153 | the report exists exactly when the plane is non-empty; the count is at most the denominator; the fraction lies in [0, 1] and is zero with no slices |
| Koob.OutputIndicesDistinct | Scripts/koobanalysis.py:192-195 | the four output indices, from which each mask call takes its output channel, are start + 0 .. start + 3: pairwise distinct, at least `start` and inside the grown volume |
| Koob.InputsPresentIffNineChannels | Scripts/koobanalysis.py:16-21 | every input channel of the four masks (0, 4, 5, 7, 8) is an original channel exactly when the source has at least nine channels |
| Koob.MaskLabelsFollowMarkers | Scripts/koobanalysis.py:5-6 | the two GFAP masks are coloured green and the two IBA1 masks red, and each mask is named after its own marker and region (hippocampus or cortex) |
| Koob.CopyExtents | Scripts/koobanalysis.py:60-66 | each axis either has both extents copied, or keeps its maximum (the minimum may have been copied before the maximum was refused) |
| Koob.CopiedViewStep | Scripts/koobanalysis.py:76-77 | copying plane (c, t, z) advances the copy's view by one plane |
| Koob.CopyPlanesAt | Scripts/koobanalysis.py:75-77 | the z loop copies every slice of channel c at time t |
| Koob.CopiedStep | Scripts/koobanalysis.py:69-73 | copying channel c's name (or colour) extends the copy of the channels below c by one logged write when the source has a value, accepted as the host answers, and by nothing otherwise |
| Koob.CopyLogOncePerChannel | Scripts/koobanalysis.py:69-73 | a best-effort metadata copy asks for one write per source channel that has a value and for nothing else, in increasing channel order, with the source's value, accepted exactly for the accepted channels |
| Koob.CopyChannel | Scripts/koobanalysis.py:69-77 | channel c's name is written exactly once, with the source's name, when the source has one, and not at all otherwise; the same for its colour; every plane of channel c is copied |
| Koob.CopyChannels | Scripts/koobanalysis.py:69-79 | into an empty dataset: every plane equals the source's; the names are exactly the source's at the channels whose copy the host accepted, and the log holds one write per named source channel, in channel order, with the source's name; the same for colours |
| Koob.CloneSameC | Scripts/koobanalysis.py:48-80 | a fresh dataset with the same XYZCT whose every plane equals the source's; names and colours are exactly the source's at the accepted channels, each asked for once in channel order (metadata failures are non-fatal); each axis copied or at its default maximum |
| Koob.EnsureExtraChannels | Scripts/koobanalysis.py:82-123 | one growth request for sc + extra is made first, and the input dataset is returned exactly when the host honoured it, otherwise a new one; both paths return the original count and a dataset with sc + extra channels and the same other sizes and planes; the in-place path keeps the active dataset and its metadata; the fallback returns a fresh active dataset whose names and colours are the original's at the accepted channels, each asked for once in channel order |
| Koob.MaskSlice | Scripts/koobanalysis.py:133-144 | one slice fails with an index error, changing nothing, exactly when a channel is missing; otherwise it writes exactly the mask plane at (out, t, z) and returns its count |
| Koob.LabelChannel | Scripts/koobanalysis.py:146-150 | exactly one name write and one colour write of the output channel, with the given name and colour, each recorded with the host's answer |
| Koob.MaskAndLabel | Scripts/koobanalysis.py:133-151 | one slice step adds the slice's count and advances the view; the output channel is named and coloured after this slice exactly when no earlier slice did; a failure comes first and changes nothing |
| Koob.MaskTimePoint | Scripts/koobanalysis.py:132-151 | the z loop of time t returns the time point's count and advances the view to time t + 1, with the output labelled once as soon as a slice is done; it can only fail on the pass's first slice, with nothing changed |
| Koob.MaskPass | Scripts/koobanalysis.py:129-151 | fails with an index error exactly when a slice exists and a channel is missing, changing nothing; otherwise it returns `total_true` and leaves the pass's view; `out_name` and `out_color` are each written to `out_index` exactly once when st * sz > 0 and the channels exist, and never otherwise |
| Koob.WriteAndMaskU16 | Scripts/koobanalysis.py:125-154 | the whole function: error paths (index, division by zero for an empty plane), the plane-level result, the report (`total_true`, plane * max(st,1) * max(sz,1)), and exactly one name and one colour write of `out_index` when the pass labels, none otherwise |
| Koob.PassKeepsOriginals | Scripts/koobanalysis.py:200-205 | a mask into a new channel keeps every original channel |
| Koob.JobReadsSource | Scripts/koobanalysis.py:200-205 | when the inputs are original channels, each report equals the report computed from the source planes, whatever earlier masks wrote |
| Koob.JobStep | Scripts/koobanalysis.py:200-205 | when the inputs are original channels, each mask channel ends up holding the mask of the source planes, whatever earlier masks wrote |
| Koob.JobWritten | Scripts/koobanalysis.py:200-205 | the next mask call extends what the earlier calls left by one mask and one report |
| Koob.MaskJob | Scripts/koobanalysis.py:200-205 | mask call j: its inputs, thresholds and output channel start + j from the table of the four masks; the result of `_write_and_mask_U16` on them, with name j ("Hippo GFAP DAPI", ...) and colour j (green for GFAP, red for IBA1) written to start + j exactly once when the pass labels |
| Koob.RunJob | Scripts/koobanalysis.py:200-205 | the next mask call advances the analysis state: on success the labels of the output channels so far, each the name and colour of its mask, and, with at least nine source channels (all inputs original), the planes and reports of the masks so far against the source planes; with all inputs present and a non-empty plane the call succeeds |
| Koob.JobsStateNext | Scripts/koobanalysis.py:200-205 | a successful mask call j that labelled channel start + j with name and colour j extends the state of the masks before it by one mask, one report and one label |
| Koob.JobLabelsValues | Scripts/koobanalysis.py:198-205 | labelling the masks keeps the metadata below `start`; channel start + j carries label j exactly when the host accepted it; the log gains one write per mask, in mask order |
| Koob.LabelsOverCopies | Scripts/koobanalysis.py:198-205 | the names and colours copied into the clone survive the labelling, and each output channel carries its mask's label exactly when labelled and accepted |
| Koob.MasksWrittenPlanes | Scripts/koobanalysis.py:198-205 | after the four calls the original channels are unchanged; with at least nine source channels (all inputs original), channel start + j holds mask j of the source and every other plane is untouched |
| Koob.WriteMasks | Scripts/koobanalysis.py:198-205 | the four calls in order, GFAP then IBA1; the first failure ends the run; on success the labels of channels start .. start + 3 (when the volume has a slice) and, with at least nine source channels (all inputs original), the planes and reports of all four masks against the source planes; with all inputs present and a non-empty plane all four succeed |
| Koob.KoobAnalysis | Scripts/koobanalysis.py:172-205 | fails with NoDataset exactly when no dataset is active; on success the active dataset is fresh, with the source geometry plus four channels, the original channels' planes, and, with at least nine source channels, the four masks of the source planes; the original channels carry the source's names and colours where the host accepted the copies; output channel start + j carries mask j's name and colour exactly when the volume has a slice and the host accepted; with at least nine channels and a non-empty plane it succeeds |

## Left out

- Connecting to the application (`ImarisLib`, `GetApplication`) and its
  failure are not modelled. The entry point takes the `App` and keeps only the
  missing-dataset guard.
- The surface steps (`_run_script` and the scripts it runs,
  `Scripts/iba1surfaces.py` and `Scripts/neunsurfaces.py`) are not modelled.
  They are file reads and `exec` of other programs. Their fixed IBA1 channels
  12 and 13 are noted on `Koob.Jobs`.
- Printing and logging are left out. This includes the progress line of the
  clone that reads the channel name once more outside a `try`.
- Koob.CloneSameC: it does not model that the log line's unguarded name read
  at line 78 would abort the clone if the host raised there. The model's
  metadata reads fail only through the guarded calls.
- Extents are modelled as exact real numbers. The getters are taken to
  succeed; a setter may refuse.
- The fraction is an exact rational: `Fraction` is `real` division, not
  IEEE-754 double division, and the `:.6f` formatting is not modelled.
- Voxel type views are not modelled. Planes are read as floats and written
  as shorts or floats; the model holds unsigned 16-bit values throughout, and
  thresholds compare exactly.
- Volumes.Volume.SetSizeC: it does not model a host that sets some count
  other than the one requested, or shrinks the dataset. Shrinking is never
  requested here.
- A raise from `SetSizeC` is modelled as leaving the count unchanged. A
  partial effect before the raise is not modelled.
- Allocation failure of a new dataset and the host's factory object
  (`GetFactory`, `CreateDataSet`) are not modelled. As a result the clone
  does not take the application parameter.
- Channels added by growth read as zeros, the host's default content.
- The voxel type tag and the absolute paths of the surface scripts are
  constants with no behaviour here.
- Koob.KoobAnalysis: the plane-level result (every mask is the mask of the
  source planes) holds only when every input channel is an original channel,
  that is, with at least nine source channels. With fewer, the configured
  channels 7 and 8 can be new channels the run itself writes, and the model
  then states only that the original channels survive.
- A host exception (an out-of-range channel read or write) is modelled as an
  `Err` result that ends the run, not as a Python exception.
- Koob.WriteMasks: on a failure it does not state what the masks before the
  failing one left in the dataset, nor their labels. On success it states
  every label, but the output planes and the reports only with at least nine
  source channels. With fewer, a later mask reads the output channel of an
  earlier one (with five channels, mask 2 reads mask 0's output and mask 3
  its own), and the model does not state the planes that chain produces.
- Koob.RunJob: on a failure it states only the error. On success it states
  the labels, but the planes and reports against the source planes only with
  at least nine source channels, for the reason given for Koob.WriteMasks.
  The planes and labels a single mask call leaves, failure included and for
  any channel count, are stated by Koob.MaskJob.
- Koob.MasksWrittenPlanes: the output channels' planes, and that no other
  plane changes, are stated only with at least nine source channels, for the
  reason given for Koob.WriteMasks. The original channels are stated for any
  channel count.
- The host's answers to metadata writes (`okName`, `okColor`, the accepted
  channel sets) are ghost outputs: the source swallows refusals and never
  looks at them.
