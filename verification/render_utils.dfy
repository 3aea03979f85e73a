/** The metrics summary dictionary kept while cameras are processed
    (`update_metrics_summary`) and the render settings chosen by quality
    (`setup_render_settings`). render_utils.py and utils/render_utils.py hold
    identical copies of both; this module models them once. PSNR and SSIM
    values are opaque reals computed elsewhere. */
module RenderUtils {
  import opened Wrappers
  import opened Seqs

  /** A `min_*`/`max_*` key of the summary: absent, `float('inf')`, or a value. */
  datatype Bound = Missing | Infinity | Finite(v: real)

  /** One element of the summary's `cameras` list. */
  datatype CameraEntry = CameraEntry(camera: string, psnr: real, ssim: real)

  /** Store `x` when the key is missing or `x` is strictly below it. */
  function TightenMin(b: Bound, x: real): (r: Bound)
    ensures r.Finite? && r.v <= x
    ensures b.Finite? ==> r.v <= b.v
    ensures r == b || r == Finite(x)
  {
    match b
    case Missing => Finite(x)
    case Infinity => Finite(x)
    case Finite(v) => if x < v then Finite(x) else b
  }

  /** Store `x` when the key is missing or `x` is strictly above it. */
  function TightenMax(b: Bound, x: real): (r: Bound)
    ensures r.Finite? ==> x <= r.v
    ensures b.Finite? ==> r.Finite? && b.v <= r.v
    ensures b == Infinity <==> r == Infinity
    ensures r == b || r == Finite(x)
  {
    match b
    case Missing => Finite(x)
    case Infinity => Infinity
    case Finite(v) => if x > v then Finite(x) else b
  }

  function Psnrs(es: seq<CameraEntry>): (xs: seq<real>)
    ensures |xs| == |es|
    ensures forall i :: 0 <= i < |es| ==> xs[i] == es[i].psnr
  {
    seq(|es|, i requires 0 <= i < |es| => es[i].psnr)
  }

  function Ssims(es: seq<CameraEntry>): (xs: seq<real>)
    ensures |xs| == |es|
    ensures forall i :: 0 <= i < |es| ==> xs[i] == es[i].ssim
  {
    seq(|es|, i requires 0 <= i < |es| => es[i].ssim)
  }

  /** A min key after one `TightenMin` per value, in order, from `start`. */
  function FoldMin(start: Bound, xs: seq<real>): Bound {
    if xs == [] then start else TightenMin(FoldMin(start, xs[..|xs| - 1]), xs[|xs| - 1])
  }

  /** A max key after one `TightenMax` per value, in order, from `start`. */
  function FoldMax(start: Bound, xs: seq<real>): Bound {
    if xs == [] then start else TightenMax(FoldMax(start, xs[..|xs| - 1]), xs[|xs| - 1])
  }

  /** From a missing key or `inf`, the min key ends as the smallest value seen. */
  lemma {:induction false} FoldMinIsMinimum(start: Bound, xs: seq<real>)
    requires start == Missing || start == Infinity
    requires xs != []
    ensures FoldMin(start, xs).Finite?
    ensures FoldMin(start, xs).v in xs
    ensures forall k :: 0 <= k < |xs| ==> FoldMin(start, xs).v <= xs[k]
    decreases |xs|
  {
    var init := xs[..|xs| - 1];
    if init != [] {
      FoldMinIsMinimum(start, init);
      assert forall k :: 0 <= k < |init| ==> xs[k] == init[k];
      assert FoldMin(start, init).v in init;
    }
  }

  /** From a missing key, the max key ends as the largest value seen. */
  lemma {:induction false} FoldMaxIsMaximum(xs: seq<real>)
    requires xs != []
    ensures FoldMax(Missing, xs).Finite?
    ensures FoldMax(Missing, xs).v in xs
    ensures forall k :: 0 <= k < |xs| ==> xs[k] <= FoldMax(Missing, xs).v
    decreases |xs|
  {
    var init := xs[..|xs| - 1];
    if init != [] {
      FoldMaxIsMaximum(init);
      assert forall k :: 0 <= k < |init| ==> xs[k] == init[k];
      assert FoldMax(Missing, init).v in init;
    }
  }

  /** From the `0.0` a calculation starts with, the max key is the largest
      value seen or `0.0`, whichever is greater: it never drops below zero. */
  lemma {:induction false} FoldMaxFromZero(xs: seq<real>)
    ensures FoldMax(Finite(0.0), xs).Finite?
    ensures 0.0 <= FoldMax(Finite(0.0), xs).v
    ensures forall k :: 0 <= k < |xs| ==> xs[k] <= FoldMax(Finite(0.0), xs).v
    ensures FoldMax(Finite(0.0), xs).v == 0.0 || FoldMax(Finite(0.0), xs).v in xs
    decreases |xs|
  {
    if xs != [] {
      var init := xs[..|xs| - 1];
      FoldMaxFromZero(init);
      assert forall k :: 0 <= k < |init| ==> xs[k] == init[k];
      if FoldMax(Finite(0.0), init).v != 0.0 {
        assert FoldMax(Finite(0.0), init).v in init;
      }
    }
  }

  /** Appending one entry extends each value column by one and folds it in. */
  lemma FoldedStep(es: seq<CameraEntry>, e: CameraEntry, minStart: Bound, maxStart: Bound)
    ensures Psnrs(es + [e]) == Psnrs(es) + [e.psnr] && Ssims(es + [e]) == Ssims(es) + [e.ssim]
    ensures FoldMin(minStart, Psnrs(es + [e])) == TightenMin(FoldMin(minStart, Psnrs(es)), e.psnr)
    ensures FoldMin(minStart, Ssims(es + [e])) == TightenMin(FoldMin(minStart, Ssims(es)), e.ssim)
    ensures FoldMax(maxStart, Psnrs(es + [e])) == TightenMax(FoldMax(maxStart, Psnrs(es)), e.psnr)
    ensures FoldMax(maxStart, Ssims(es + [e])) == TightenMax(FoldMax(maxStart, Ssims(es)), e.ssim)
  {
    assert Psnrs(es + [e]) == Psnrs(es) + [e.psnr];
    assert Ssims(es + [e]) == Ssims(es) + [e.ssim];
    assert (Psnrs(es) + [e.psnr])[..|es|] == Psnrs(es);
    assert (Ssims(es) + [e.ssim])[..|es|] == Ssims(es);
  }

  /** The mean of a non-empty sequence of values. */
  function Average(xs: seq<real>): real
    requires xs != []
  {
    Sum(xs) / (|xs| as real)
  }

  /** The summary keys a run of `update_metrics_summary` calls leaves behind
      from min and max keys `minStart` and `maxStart`: every min/max key is
      the fold of the recorded values and, once an entry exists, each
      average is sum over count. */
  ghost predicate IsFoldOf(es: seq<CameraEntry>, minStart: Bound, maxStart: Bound,
                           minPsnr: Bound, minSsim: Bound, maxPsnr: Bound, maxSsim: Bound,
                           averagePsnr: Option<real>, averageSsim: Option<real>)
  {
    && minPsnr == FoldMin(minStart, Psnrs(es))
    && minSsim == FoldMin(minStart, Ssims(es))
    && maxPsnr == FoldMax(maxStart, Psnrs(es))
    && maxSsim == FoldMax(maxStart, Ssims(es))
    && (es != [] ==> averagePsnr == Some(Average(Psnrs(es))) && averageSsim == Some(Average(Ssims(es))))
  }

  /** One more `update_metrics_summary` call keeps the keys the fold of the
      entries, now including the new one. */
  lemma FoldOfSnoc(es: seq<CameraEntry>, e: CameraEntry, minStart: Bound, maxStart: Bound,
                   minPsnr: Bound, minSsim: Bound, maxPsnr: Bound, maxSsim: Bound,
                   averagePsnr: Option<real>, averageSsim: Option<real>)
    requires IsFoldOf(es, minStart, maxStart, minPsnr, minSsim, maxPsnr, maxSsim, averagePsnr, averageSsim)
    ensures IsFoldOf(es + [e], minStart, maxStart,
                     TightenMin(minPsnr, e.psnr), TightenMin(minSsim, e.ssim),
                     TightenMax(maxPsnr, e.psnr), TightenMax(maxSsim, e.ssim),
                     Some(Average(Psnrs(es + [e]))), Some(Average(Ssims(es + [e]))))
  {
    FoldedStep(es, e, minStart, maxStart);
  }

  /** A metrics summary dictionary, key by key; `None`/`Missing` is an absent key. */
  class MetricsSummary {
    var meshName: Option<string>
    var cameras: Option<seq<CameraEntry>>
    var minPsnr: Bound
    var minSsim: Bound
    var maxPsnr: Bound
    var maxSsim: Bound
    var averagePsnr: Option<real>
    var averageSsim: Option<real>

    /** The empty dictionary `{}`. */
    constructor Empty()
      ensures meshName == None && cameras == None
      ensures minPsnr == Missing && minSsim == Missing && maxPsnr == Missing && maxSsim == Missing
      ensures averagePsnr == None && averageSsim == None
    {
      meshName := None;
      cameras := None;
      minPsnr, minSsim, maxPsnr, maxSsim := Missing, Missing, Missing, Missing;
      averagePsnr, averageSsim := None, None;
    }

    /** The dictionary a calculation starts from: no cameras, averages 0,
        minima `inf`, maxima `0.0`. */
    constructor Start(mesh: string)
      ensures meshName == Some(mesh) && cameras == Some([])
      ensures averagePsnr == Some(0.0) && averageSsim == Some(0.0)
      ensures minPsnr == Infinity && minSsim == Infinity
      ensures maxPsnr == Finite(0.0) && maxSsim == Finite(0.0)
      ensures Folded(Infinity, Finite(0.0))
    {
      meshName := Some(mesh);
      cameras := Some([]);
      averagePsnr, averageSsim := Some(0.0), Some(0.0);
      minPsnr, minSsim := Infinity, Infinity;
      maxPsnr, maxSsim := Finite(0.0), Finite(0.0);
    }

    /** The recorded entries; an absent `cameras` key reads as none. */
    function Entries(): seq<CameraEntry>
      reads this
    {
      cameras.GetOr([])
    }

    /** The invariant of a summary grown only by `Update` from a dictionary
        whose min and max keys were `minStart` and `maxStart`. */
    ghost predicate Folded(minStart: Bound, maxStart: Bound)
      reads this
    {
      && cameras.Some?
      && IsFoldOf(Entries(), minStart, maxStart, minPsnr, minSsim, maxPsnr, maxSsim, averagePsnr, averageSsim)
    }

    /** `update_metrics_summary`: append one entry (creating the list when
        the key is missing), tighten the four bounds and recompute both
        averages over every entry. Nothing else in the dictionary changes. */
    method Update(cameraName: string, psnr: real, ssim: real)
      modifies this
      ensures cameras == Some(old(Entries()) + [CameraEntry(cameraName, psnr, ssim)])
      ensures minPsnr == TightenMin(old(minPsnr), psnr) && maxPsnr == TightenMax(old(maxPsnr), psnr)
      ensures minSsim == TightenMin(old(minSsim), ssim) && maxSsim == TightenMax(old(maxSsim), ssim)
      ensures averagePsnr == Some(Average(Psnrs(Entries())))
      ensures averageSsim == Some(Average(Ssims(Entries())))
      ensures meshName == old(meshName)
      ensures old(Folded(Infinity, Finite(0.0))) ==> Folded(Infinity, Finite(0.0))
    {
      var entries := if cameras.None? then [] else cameras.value;
      var entry := CameraEntry(cameraName, psnr, ssim);
      if Folded(Infinity, Finite(0.0)) {
        FoldOfSnoc(entries, entry, Infinity, Finite(0.0), minPsnr, minSsim, maxPsnr, maxSsim, averagePsnr, averageSsim);
      }
      entries := entries + [entry];

      cameras := Some(entries);
      minPsnr, maxPsnr := TightenMin(minPsnr, psnr), TightenMax(maxPsnr, psnr);
      minSsim, maxSsim := TightenMin(minSsim, ssim), TightenMax(maxSsim, ssim);
      averagePsnr := Some(Average(Psnrs(entries)));
      averageSsim := Some(Average(Ssims(entries)));
    }
  }

  /** The Cycles sample count for a render quality: each of the three named
      qualities has its own count, and every other name gets 256. */
  function SamplesFor(quality: string): (samples: nat)
    ensures samples == 32 || samples == 64 || samples == 128 || samples == 256
    ensures samples == 32 <==> quality == "preview"
    ensures samples == 64 <==> quality == "medium"
    ensures samples == 128 <==> quality == "high"
  {
    if quality == "preview" then 32
    else if quality == "medium" then 64
    else if quality == "high" then 128
    else 256
  }

  /** The scene's render settings that `setup_render_settings` writes. */
  class RenderSettings {
    var engine: string
    var samples: nat
    var resolutionPercentage: nat
    var filmTransparent: bool

    constructor (engine: string, samples: nat, resolutionPercentage: nat, filmTransparent: bool)
      ensures this.engine == engine && this.samples == samples
      ensures this.resolutionPercentage == resolutionPercentage && this.filmTransparent == filmTransparent
    {
      this.engine := engine;
      this.samples := samples;
      this.resolutionPercentage := resolutionPercentage;
      this.filmTransparent := filmTransparent;
    }

    /** `setup_render_settings`: Cycles at the quality's sample count, full
        resolution, opaque film. */
    method Setup(quality: string)
      modifies this
      ensures engine == "CYCLES" && samples == SamplesFor(quality)
      ensures resolutionPercentage == 100 && !filmTransparent
    {
      engine := "CYCLES";
      if quality == "preview" {
        samples := 32;
      } else if quality == "medium" {
        samples := 64;
      } else if quality == "high" {
        samples := 128;
      } else {
        samples := 256;
      }
      resolutionPercentage := 100;
      filmTransparent := false;
    }
  }
}
