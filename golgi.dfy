/**
 * Golgi inference (infer_subc_2d/organelles/golgi.py): a fixed pipeline of
 * primitive operators (extract, smooth, threshold, thin, dot filter, or,
 * size filter), its preset parameter set, and the compute-or-load wrapper
 * that caches the result under the name "golgi".
 *
 * The repository reads the golgi channel index from a global constant; here
 * it is the parameter `golgiCh`.
 */
module Golgi {
  import opened Volumes
  import opened Primitives
  import opened Store

  const GOLGI := "golgi"

  /**
   * infer_golgi. The dot filter runs on the smoothed channel (not on the
   * thresholded mask) with the single (cutoff, scale) pair; its mask and the
   * thinned threshold mask are or-ed and then size filtered with
   * face connectivity (1).
   */
  function InferGolgi(
    ops: Operators, golgiCh: nat, inImg: Image,
    medianSz: int, gaussSig: real, moMethod: string, moAdjust: real, moCutoffSize: int,
    minThickness: real, thin: int, dotScale: real, dotCut: real, smallObjW: int
  ): (r: Result<Mask>)
    ensures ops.selectChannel(inImg, golgiCh).Err? ==> r == Err(ops.selectChannel(inImg, golgiCh).error)
    ensures r.Err? ==> r.error == ShapeMismatch || ops.selectChannel(inImg, golgiCh).Err?
    ensures PreservesShape(ops) && ops.selectChannel(inImg, golgiCh).Ok? ==>
      r.Ok? && r.value.shape == ops.selectChannel(inImg, golgiCh).value.shape
  {
    match ops.selectChannel(inImg, golgiCh)
    case Err(e) => Err(e)
    case Ok(channel) =>
      var golgi := ops.scaleAndSmooth(channel, medianSz, gaussSig);
      var bw := ops.maskedObjectThresh(golgi, moMethod, moCutoffSize, moAdjust);
      var bwThin := ops.thinning(bw, minThickness, thin);
      var s3Param := [(dotCut, dotScale)];
      var bwExtra := ops.dotSliceBySlice(golgi, s3Param);
      if bwExtra.shape != bwThin.shape then Err(ShapeMismatch)
      else Ok(ops.sizeFilter(Or(bwExtra, bwThin), smallObjW, 1))
  }

  /**
   * The stages in order: the result is the size filter of the or of the dot
   * mask of the smoothed channel and the thinned threshold mask of it.
   */
  lemma InferGolgiStages(
    ops: Operators, golgiCh: nat, inImg: Image,
    medianSz: int, gaussSig: real, moMethod: string, moAdjust: real, moCutoffSize: int,
    minThickness: real, thin: int, dotScale: real, dotCut: real, smallObjW: int
  )
    requires PreservesShape(ops)
    requires ops.selectChannel(inImg, golgiCh).Ok?
    ensures var smoothed := ops.scaleAndSmooth(ops.selectChannel(inImg, golgiCh).value, medianSz, gaussSig);
      var bwThin := ops.thinning(ops.maskedObjectThresh(smoothed, moMethod, moCutoffSize, moAdjust), minThickness, thin);
      var bwExtra := ops.dotSliceBySlice(smoothed, [(dotCut, dotScale)]);
      && bwExtra.shape == bwThin.shape
      && InferGolgi(ops, golgiCh, inImg, medianSz, gaussSig, moMethod, moAdjust, moCutoffSize,
                    minThickness, thin, dotScale, dotCut, smallObjW)
         == Ok(ops.sizeFilter(Or(bwExtra, bwThin), smallObjW, 1))
  {
  }

  /**
   * The mask handed to the size filter contains both the dot mask and the
   * thinned mask (each voxel of it is the or of theirs, by `Or`).
   */
  lemma CombineIsUnion(bwExtra: Mask, bwThin: Mask)
    requires bwExtra.shape == bwThin.shape
    ensures Contains(Or(bwExtra, bwThin), bwExtra) && Contains(Or(bwExtra, bwThin), bwThin)
  {
  }

  /**
   * fixed_infer_golgi: infer_golgi with the preset parameters. The cytoplasm
   * mask is accepted for a uniform preset signature and not used.
   */
  function FixedInferGolgi(ops: Operators, golgiCh: nat, inImg: Image, cytoplasmMask: Option<Mask> := None): (r: Result<Mask>)
    ensures ops.selectChannel(inImg, golgiCh).Err? ==> r == Err(ops.selectChannel(inImg, golgiCh).error)
    ensures PreservesShape(ops) && ops.selectChannel(inImg, golgiCh).Ok? ==>
      r.Ok? && r.value.shape == ops.selectChannel(inImg, golgiCh).value.shape
  {
    var medianSz := 4;
    var gaussSig := 1.34;
    var moMethod := "tri";
    var moAdjust := 0.90;
    var moCutoffSize := 1200;
    var minThickness := 1.6;
    var thin := 1;
    var dotScale := 1.6;
    var dotCut := 0.02;
    var smallObjW := 3;
    InferGolgi(ops, golgiCh, inImg, medianSz, gaussSig, moMethod, moAdjust, moCutoffSize,
               minThickness, thin, dotScale, dotCut, smallObjW)
  }

  /** The preset, in infer_golgi's positional order. */
  lemma FixedInferGolgiPreset(ops: Operators, golgiCh: nat, inImg: Image, cytoplasmMask: Option<Mask>)
    ensures FixedInferGolgi(ops, golgiCh, inImg, cytoplasmMask)
         == InferGolgi(ops, golgiCh, inImg, 4, 1.34, "tri", 0.90, 1200, 1.6, 1, 1.6, 0.02, 3)
  {
  }

  /** Any two cytoplasm masks, or none, give the same golgi mask. */
  lemma FixedInferGolgiIgnoresCytoplasm(ops: Operators, golgiCh: nat, inImg: Image, c1: Option<Mask>, c2: Option<Mask>)
    ensures FixedInferGolgi(ops, golgiCh, inImg, c1) == FixedInferGolgi(ops, golgiCh, inImg, c2)
  {
  }

  /**
   * infer_and_export_golgi: infers with the preset, writes the mask under
   * "golgi" and returns the mask (not the file name). An exception during
   * inference propagates and nothing is written.
   */
  method InferAndExportGolgi(ops: Operators, golgiCh: nat, store: OrganelleStore, inImg: Image, meta: Meta, outPath: Path)
    returns (r: Result<Mask>)
    modifies store
    ensures r == FixedInferGolgi(ops, golgiCh, inImg)
    ensures r.Ok? ==> store.files == old(store.files)[Key(GOLGI, meta, outPath) := Readable(r.value)]
    ensures r.Err? ==> store.files == old(store.files)
  {
    r := FixedInferGolgi(ops, golgiCh, inImg);
    if r.Ok? {
      var outFileN := store.Export(r.value, GOLGI, meta, outPath);
    }
  }

  /** One call of get_golgi on the given files: its result and the files it leaves. */
  function GetGolgiStep(ops: Operators, golgiCh: nat, files: Files, inImg: Image, meta: Meta, outPath: Path): Step
  {
    var k := Key(GOLGI, meta, outPath);
    if k in files && files[k].Readable? then
      Step(Ok(files[k].mask), files)
    else
      var r := FixedInferGolgi(ops, golgiCh, inImg);
      Step(r, if r.Ok? then files[k := Readable(r.value)] else files)
  }

  /**
   * get_golgi: loads the golgi; the bare `except` treats every failure of
   * the load (an absent file or an unreadable one) as a miss, and on a miss
   * it infers and exports.
   */
  method GetGolgi(ops: Operators, golgiCh: nat, store: OrganelleStore, inImg: Image, meta: Meta, outPath: Path)
    returns (r: Result<Mask>)
    modifies store
    ensures Step(r, store.files) == GetGolgiStep(ops, golgiCh, old(store.files), inImg, meta, outPath)
  {
    var golgi := store.ImportOrRaise(GOLGI, meta, outPath);
    if golgi.Ok? {
      r := golgi;
    } else {
      r := InferAndExportGolgi(ops, golgiCh, store, inImg, meta, outPath);
    }
  }

  /** A readable cached golgi is returned unchanged; nothing is inferred or written. */
  lemma GetGolgiHit(ops: Operators, golgiCh: nat, files: Files, inImg: Image, meta: Meta, outPath: Path)
    requires Key(GOLGI, meta, outPath) in files
    requires files[Key(GOLGI, meta, outPath)].Readable?
    ensures GetGolgiStep(ops, golgiCh, files, inImg, meta, outPath)
         == Step(Ok(files[Key(GOLGI, meta, outPath)].mask), files)
  {
  }

  /**
   * When the load fails for any reason, absent or unreadable, the result is
   * the preset inference, and the files then hold it under "golgi" with every
   * other entry as it was (an unreadable file is overwritten).
   */
  lemma GetGolgiMiss(ops: Operators, golgiCh: nat, files: Files, inImg: Image, meta: Meta, outPath: Path)
    requires Key(GOLGI, meta, outPath) !in files || files[Key(GOLGI, meta, outPath)].Unreadable?
    ensures var s := GetGolgiStep(ops, golgiCh, files, inImg, meta, outPath);
      && s.result == FixedInferGolgi(ops, golgiCh, inImg)
      && (s.result.Ok? ==> Key(GOLGI, meta, outPath) in s.files && s.files[Key(GOLGI, meta, outPath)] == Readable(s.result.value))
      && (s.result.Err? ==> s.files == files)
      && OthersUnchanged(files, s.files, Key(GOLGI, meta, outPath))
  {
  }

  /** A second call on the files the first one left is a hit or the same failure: same result, nothing written. */
  lemma GetGolgiIdempotent(ops: Operators, golgiCh: nat, files: Files, inImg: Image, meta: Meta, outPath: Path)
    ensures var s := GetGolgiStep(ops, golgiCh, files, inImg, meta, outPath);
      GetGolgiStep(ops, golgiCh, s.files, inImg, meta, outPath) == s
  {
  }
}
