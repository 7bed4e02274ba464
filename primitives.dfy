/**
 * The primitive image operators the organelle algorithms sequence. Their
 * implementations live in other packages (skimage, aicssegmentation and the
 * repository's own image helpers), so here each is an arbitrary function
 * handed to the algorithms in one record; the only thing assumed of them, and
 * only where a property needs it, is that they keep the shape of their input.
 */
module Primitives {
  import opened Volumes

  datatype Operators = Operators(
    /** select_channel_from_raw(in_img, ch): one channel of a multichannel volume. */
    selectChannel: (Image, nat) -> Result<Image>,
    /** scale_and_smooth(img, median_sz, gauss_sig). */
    scaleAndSmooth: (Image, int, real) -> Image,
    /** masked_object_thresh(img, th_method, cutoff_size, th_adjust). */
    maskedObjectThresh: (Image, string, int, real) -> Mask,
    /** topology_preserving_thinning(bw, min_thickness, thin). */
    thinning: (Mask, real, int) -> Mask,
    /** dot_2d_slice_by_slice_wrapper(img, [(cutoff, scale), ...]). */
    dotSliceBySlice: (Image, seq<(real, real)>) -> Mask,
    /** size_filter_linear_size(bw, min_size, connectivity). */
    sizeFilter: (Mask, int, int) -> Mask,
    /** skimage binary_erosion with its default footprint. */
    erosion: Mask -> Mask,
    /** apply_mask(img, mask). */
    applyMask: (Mask, Mask) -> Mask
  )

  /** Every operator except channel selection and apply_mask returns a volume of its input's shape. */
  ghost predicate PreservesShape(ops: Operators)
  {
    && (forall g: Image, w: int, s: real :: ops.scaleAndSmooth(g, w, s).shape == g.shape)
    && (forall g: Image, m: string, c: int, a: real :: ops.maskedObjectThresh(g, m, c, a).shape == g.shape)
    && (forall b: Mask, t: real, n: int :: ops.thinning(b, t, n).shape == b.shape)
    && (forall g: Image, p: seq<(real, real)> :: ops.dotSliceBySlice(g, p).shape == g.shape)
    && (forall b: Mask, w: int, c: int :: ops.sizeFilter(b, w, c).shape == b.shape)
    && (forall b: Mask :: ops.erosion(b).shape == b.shape)
  }
}
