/**
 * Cytosol inference (infer_subc_2d/organelles/cytosol.py): the cytosol is the
 * soma mask combined by exclusive or with the nuclei mask, eroded by default,
 * and the compute-or-load wrapper that caches it under the name "cytosol".
 */
module Cytosol {
  import opened Volumes
  import opened Primitives
  import opened Store

  const CYTOSOL := "cytosol"

  /** The nuclei mask the exclusive or is taken with: eroded or as given. */
  function NucleiUsed(ops: Operators, nucleiObject: Mask, erodeNuclei: bool): Mask
  {
    if erodeNuclei then ops.erosion(nucleiObject) else nucleiObject
  }

  /**
   * infer_cytosol. The nuclei restricted to the soma (apply_mask) are computed
   * and then discarded: the exclusive or uses the unrestricted nuclei. Operands
   * of different shapes make numpy raise.
   */
  function InferCytosol(ops: Operators, nucleiObject: Mask, somaMask: Mask, erodeNuclei: bool := true): (r: Result<Mask>)
    ensures var nuclei := NucleiUsed(ops, nucleiObject, erodeNuclei);
      && (r.Ok? <==> nuclei.shape == somaMask.shape)
      && (r.Err? ==> r.error == ShapeMismatch)
      && (r.Ok? ==> r.value.shape == somaMask.shape)
      && (r.Ok? ==> forall i :: 0 <= i < |r.value.data| ==> (r.value.data[i] <==> somaMask.data[i] != nuclei.data[i]))
  {
    var nucleusObj := ops.applyMask(nucleiObject, somaMask);
    if erodeNuclei then
      var eroded := ops.erosion(nucleiObject);
      if somaMask.shape != eroded.shape then Err(ShapeMismatch) else Ok(Xor(somaMask, eroded))
    else
      if somaMask.shape != nucleiObject.shape then Err(ShapeMismatch) else Ok(Xor(somaMask, nucleiObject))
  }

  /** The result depends on the operators only through the erosion: apply_mask's value is unused. */
  lemma InferCytosolUsesOnlyErosion(ops1: Operators, ops2: Operators, nucleiObject: Mask, somaMask: Mask, erodeNuclei: bool)
    requires ops1.erosion(nucleiObject) == ops2.erosion(nucleiObject)
    ensures InferCytosol(ops1, nucleiObject, somaMask, erodeNuclei) == InferCytosol(ops2, nucleiObject, somaMask, erodeNuclei)
  {
  }

  /** Inputs of one shape give a cytosol mask of that shape. */
  lemma InferCytosolKeepsShape(ops: Operators, nucleiObject: Mask, somaMask: Mask, erodeNuclei: bool)
    requires PreservesShape(ops)
    requires nucleiObject.shape == somaMask.shape
    ensures InferCytosol(ops, nucleiObject, somaMask, erodeNuclei).Ok?
    ensures InferCytosol(ops, nucleiObject, somaMask, erodeNuclei).value.shape == somaMask.shape
  {
  }

  /**
   * When the nuclei used lie inside the soma, the exclusive or is the set
   * difference "soma AND NOT nucleus" that the function's documentation names.
   */
  lemma {:induction false} InferCytosolIsSomaMinusNuclei(ops: Operators, nucleiObject: Mask, somaMask: Mask, erodeNuclei: bool)
    requires Contains(somaMask, NucleiUsed(ops, nucleiObject, erodeNuclei))
    ensures InferCytosol(ops, nucleiObject, somaMask, erodeNuclei) == Ok(AndNot(somaMask, NucleiUsed(ops, nucleiObject, erodeNuclei)))
  {
    var nuclei := NucleiUsed(ops, nucleiObject, erodeNuclei);
    var r := InferCytosol(ops, nucleiObject, somaMask, erodeNuclei);
    MaskExtensionality(r.value, AndNot(somaMask, nuclei));
  }

  /**
   * Without that inclusion the two differ: a nucleus voxel outside the soma
   * is set in the result, though "soma AND NOT nucleus" leaves it clear.
   */
  lemma InferCytosolDiffersOutsideSoma(ops: Operators)
    ensures var nuclei, soma := Fill([1], true), Fill([1], false);
      && InferCytosol(ops, nuclei, soma, false) == Ok(Fill([1], true))
      && AndNot(soma, nuclei) == Fill([1], false)
  {
    var nuclei, soma := Fill([1], true), Fill([1], false);
    MaskExtensionality(InferCytosol(ops, nuclei, soma, false).value, Fill([1], true));
    MaskExtensionality(AndNot(soma, nuclei), Fill([1], false));
  }

  /** An all-false nuclei mask with an all-true soma gives an all-true cytosol. */
  lemma InferCytosolEmptyNuclei(ops: Operators, shape: Shape)
    ensures InferCytosol(ops, Fill(shape, false), Fill(shape, true), false) == Ok(Fill(shape, true))
  {
    MaskExtensionality(InferCytosol(ops, Fill(shape, false), Fill(shape, true), false).value, Fill(shape, true));
  }

  /**
   * infer_and_export_cytosol: infers with the default erosion, writes the
   * mask under "cytosol" and returns the mask (not the file name). An
   * exception during inference propagates and nothing is written.
   */
  method InferAndExportCytosol(ops: Operators, store: OrganelleStore, nucleiObject: Mask, somaMask: Mask, meta: Meta, outPath: Path)
    returns (r: Result<Mask>)
    modifies store
    ensures r == InferCytosol(ops, nucleiObject, somaMask, true)
    ensures r.Ok? ==> store.files == old(store.files)[Key(CYTOSOL, meta, outPath) := Readable(r.value)]
    ensures r.Err? ==> store.files == old(store.files)
  {
    r := InferCytosol(ops, nucleiObject, somaMask);
    if r.Ok? {
      var outFileN := store.Export(r.value, CYTOSOL, meta, outPath);
    }
  }

  /** One call of get_cytosol on the given files: its result and the files it leaves. */
  function GetCytosolStep(ops: Operators, files: Files, nucleiObj: Mask, somaMask: Mask, meta: Meta, outPath: Path): Step
  {
    var k := Key(CYTOSOL, meta, outPath);
    if k !in files then
      var r := InferCytosol(ops, nucleiObj, somaMask);
      Step(r, if r.Ok? then files[k := Readable(r.value)] else files)
    else if files[k].Unreadable? then
      Step(Err(ReadFailure), files)
    else
      Step(Ok(files[k].mask), files)
  }

  /**
   * get_cytosol: loads the cytosol; on the `None` sentinel it infers and
   * exports it. A file that exists but cannot be read is assumed to make the
   * loader raise (see `ImportOrNone`).
   */
  method GetCytosol(ops: Operators, store: OrganelleStore, nucleiObj: Mask, somaMask: Mask, meta: Meta, outPath: Path)
    returns (r: Result<Mask>)
    modifies store
    ensures Step(r, store.files) == GetCytosolStep(ops, old(store.files), nucleiObj, somaMask, meta, outPath)
  {
    var cytosol := store.ImportOrNone(CYTOSOL, meta, outPath);
    if cytosol.Err? {
      r := Err(cytosol.error);
    } else if cytosol.value.None? {
      r := InferAndExportCytosol(ops, store, nucleiObj, somaMask, meta, outPath);
    } else {
      r := Ok(cytosol.value.value);
    }
  }

  /** A readable cached cytosol is returned unchanged and nothing is written. */
  lemma GetCytosolHit(ops: Operators, files: Files, nucleiObj: Mask, somaMask: Mask, meta: Meta, outPath: Path)
    requires Key(CYTOSOL, meta, outPath) in files
    requires files[Key(CYTOSOL, meta, outPath)].Readable?
    ensures GetCytosolStep(ops, files, nucleiObj, somaMask, meta, outPath)
         == Step(Ok(files[Key(CYTOSOL, meta, outPath)].mask), files)
  {
  }

  /**
   * On a miss the result is the freshly inferred (eroded) cytosol, and the
   * files then hold it under "cytosol" with every other entry as it was.
   */
  lemma GetCytosolMiss(ops: Operators, files: Files, nucleiObj: Mask, somaMask: Mask, meta: Meta, outPath: Path)
    requires Key(CYTOSOL, meta, outPath) !in files
    ensures var s := GetCytosolStep(ops, files, nucleiObj, somaMask, meta, outPath);
      && s.result == InferCytosol(ops, nucleiObj, somaMask, true)
      && (s.result.Ok? ==> Key(CYTOSOL, meta, outPath) in s.files && s.files[Key(CYTOSOL, meta, outPath)] == Readable(s.result.value))
      && (s.result.Err? ==> s.files == files)
      && OthersUnchanged(files, s.files, Key(CYTOSOL, meta, outPath))
  {
  }

  /**
   * If the loader raises on an unreadable file, as `ImportOrNone` assumes, that
   * file is an error here and not a miss as on the golgi path.
   */
  lemma GetCytosolSurfacesReadFailure(ops: Operators, files: Files, nucleiObj: Mask, somaMask: Mask, meta: Meta, outPath: Path)
    requires Key(CYTOSOL, meta, outPath) in files
    requires files[Key(CYTOSOL, meta, outPath)].Unreadable?
    ensures GetCytosolStep(ops, files, nucleiObj, somaMask, meta, outPath) == Step(Err(ReadFailure), files)
  {
  }

  /** A second call on the files the first one left returns the same result and writes nothing. */
  lemma GetCytosolIdempotent(ops: Operators, files: Files, nucleiObj: Mask, somaMask: Mask, meta: Meta, outPath: Path)
    ensures var s := GetCytosolStep(ops, files, nucleiObj, somaMask, meta, outPath);
      GetCytosolStep(ops, s.files, nucleiObj, somaMask, meta, outPath) == s
  {
  }
}
