# Organelle inference with compute-or-load caching — a Dafny model

This project models the core of `infer_subc_2d`'s organelle modules for the
cytosol and the Golgi apparatus:

- **Mask combinators.** `infer_cytosol` is the elementwise exclusive or of the
  soma mask with the nuclei mask. By default the nuclei mask is eroded first.
  `infer_golgi` runs a fixed pipeline of primitive operators: extract the
  Golgi channel, smooth, masked-object threshold, topology-preserving
  thinning, a slice-by-slice dot filter on the smoothed channel, an
  elementwise or of the dot mask and the thinned mask, and a size filter.
  `fixed_infer_golgi` binds the preset parameters.
- **Compute-or-load memoisation.** `get_cytosol` and `get_golgi` first try to
  load a cached mask for (organelle name, metadata, output directory). On a
  miss they infer the mask, export it and return it. On a hit they return the
  loaded mask.

Files:

- `volumes.dfy`: volumes as a shape plus flat data (`Grid`, `Mask`, `Image`),
  the error kinds, `Result`/`Option`, and the pointwise `Xor`, `Or`, `AndNot`.
- `primitives.dfy`: the primitive image operators. Their code is not part of
  this model, so they are arbitrary functions held in one `Operators` record.
  `PreservesShape` states that every operator except channel selection and
  `apply_mask` keeps its input's shape. Properties that
  need this take it as a precondition.
- `store.dfy`: the persistence adapter. It is a class `OrganelleStore` whose
  `files` map goes from key to artifact. An artifact is a mask that reads
  back, or a file that exists but cannot be read.
- `cytosol.dfy`, `golgi.dfy`: the two organelle modules. Each load-or-compute
  function is a module-level method that takes the store and modifies it. A pure `...Step` function describes one
  call. The method is proved equal to it, and the hit, miss and idempotence
  lemmas are proved about it.

A Python exception is an `Err` result. An exception raised during inference
propagates out of `get_*` and nothing is exported.

The two modules import their loader from different packages: golgi.py from
`infer_subc_2d.core.file_io`, cytosol.py from `infer_subc_2d.utils.file_io`.
The two loaders are modelled separately:

- `ImportOrNone` (cytosol) returns the sentinel `None` for an absent file.
  For an unreadable file it is assumed to raise.
- `ImportOrRaise` (golgi) raises in both cases.

`get_golgi` wraps its load in a bare `except`, so any failure of the load is a
miss: an unreadable file is recomputed and overwritten
(`Golgi.GetGolgiMiss`). Under the assumption above, `get_cytosol` passes a read failure on to its
caller (`Cytosol.GetCytosolSurfacesReadFailure`). Neither loader file is part
of this model. The `None` sentinel for an absent file is inferred from
cytosol.py:72 and 92, and the golgi loader's raising from the `except` at
golgi.py:192. What the cytosol loader does with an unreadable file is
assumed.

Where the code disagrees with its own docstrings and annotations, the model
follows the code:

- `min_thickness` is annotated `int` (golgi.py:29), but the preset passes
  `1.6` (golgi.py:126), so it is a real here.
- The docstrings say the functions return the "exported file name"
  (cytosol.py:60,87; golgi.py:162,186). The `infer_and_export_*` functions
  only print that name, and all four return the mask.
- The `get_golgi` docstring says "load golgi if it exists" (golgi.py:173).
  Its bare `except` also recomputes when a file exists but cannot be read.
- The nuclei mask restricted to the soma (`apply_mask`) is computed and
  discarded. The model keeps that: `Cytosol.InferCytosolUsesOnlyErosion`.
  The docstring calls the result "soma AND NOT nucleus" (cytosol.py:14). That
  holds when the nuclei used lie inside the soma
  (`Cytosol.InferCytosolIsSomaMinusNuclei`). Otherwise a nucleus voxel
  outside the soma ends up in the cytosol
  (`Cytosol.InferCytosolDiffersOutsideSoma`).

## Model

| member | source | states |
|---|---|---|
| `Volumes.Xor` | infer_subc_2d/organelles/cytosol.py:34-36 | same shape as the operands; a voxel is set exactly when the two operands differ there |
| `Volumes.Or` | infer_subc_2d/organelles/golgi.py:95 | same shape as the operands; a voxel is set exactly when either operand is set there |
| `Store.OrganelleStore.Export` | infer_subc_2d/organelles/golgi.py:166 | writes the mask under (organelle, metadata, output path) and changes no other entry; returns the key written |
| `Store.OrganelleStore.ImportOrNone` | infer_subc_2d/organelles/cytosol.py:90-92 | `None` exactly when no file exists for the key; the stored mask when it reads back; a read failure otherwise |
| `Store.OrganelleStore.ImportOrRaise` | infer_subc_2d/organelles/golgi.py:190-192 | the stored mask exactly when a readable file exists; otherwise an error, NotFound for an absent file and ReadFailure for an unreadable one |
| `Cytosol.InferCytosol` | infer_subc_2d/organelles/cytosol.py:12-38 | succeeds exactly when the soma and the (eroded or raw) nuclei agree in shape; then each voxel is soma XOR nuclei and the shape is the soma's; otherwise ShapeMismatch |
| `Cytosol.InferCytosolUsesOnlyErosion` | infer_subc_2d/organelles/cytosol.py:31-38 | two operator sets that agree on the erosion of the nuclei give the same cytosol, so the apply_mask value is unused |
| `Cytosol.InferCytosolKeepsShape` | infer_subc_2d/organelles/cytosol.py:33-38 | with shape-preserving operators, inputs of one shape give a result of that shape, with or without erosion |
| `Cytosol.InferCytosolIsSomaMinusNuclei` | infer_subc_2d/organelles/cytosol.py:14-36 | when the nuclei used lie inside the soma, the result is soma AND NOT nuclei |
| `Cytosol.InferCytosolDiffersOutsideSoma` | infer_subc_2d/organelles/cytosol.py:31-36 | a one-voxel nucleus outside an empty soma gives a set voxel, where soma AND NOT nucleus gives a clear one |
| `Cytosol.InferCytosolEmptyNuclei` | infer_subc_2d/organelles/cytosol.py:35-36 | without erosion, an all-false nuclei mask with an all-true soma gives an all-true cytosol of the same shape |
| `Cytosol.InferAndExportCytosol` | infer_subc_2d/organelles/cytosol.py:63-67 | returns infer_cytosol with erosion on; on success the cytosol entry holds that mask and nothing else changes; on failure nothing is written |
| `Cytosol.GetCytosol` | infer_subc_2d/organelles/cytosol.py:90-97 | its result and the files it leaves are those of one get_cytosol step on the old files |
| `Cytosol.GetCytosolHit` | infer_subc_2d/organelles/cytosol.py:90-97 | a readable cached cytosol is returned unchanged and the files are unchanged |
| `Cytosol.GetCytosolMiss` | infer_subc_2d/organelles/cytosol.py:92-93 | with no cached file, the result is infer_cytosol with erosion; on success the files then hold it under "cytosol"; every other entry is unchanged |
| `Cytosol.GetCytosolSurfacesReadFailure` | infer_subc_2d/organelles/cytosol.py:90 | an unreadable cached cytosol is an error and nothing is inferred or written |
| `Cytosol.GetCytosolIdempotent` | infer_subc_2d/organelles/cytosol.py:90-97 | a second call on the files the first call left returns the same result and leaves the files unchanged |
| `Golgi.InferGolgi` | infer_subc_2d/organelles/golgi.py:22-101 | a channel-selection error propagates unchanged; the only other failure is a shape mismatch at the or (numpy broadcasting is not modelled); with shape-preserving operators the result has the selected channel's shape |
| `Golgi.InferGolgiStages` | infer_subc_2d/organelles/golgi.py:77-101 | the result is size_filter(dot(smoothed, [(dot_cut, dot_scale)]) OR thin(threshold(smoothed)), small_obj_w, 1), where smoothed is the smoothed selected channel |
| `Golgi.CombineIsUnion` | infer_subc_2d/organelles/golgi.py:95 | the combined mask has the operands' shape and contains every voxel set in the dot mask and every voxel set in the thinned mask |
| `Golgi.FixedInferGolgi` | infer_subc_2d/organelles/golgi.py:107-144 | channel errors propagate; with shape-preserving operators it succeeds with the selected channel's shape |
| `Golgi.FixedInferGolgiPreset` | infer_subc_2d/organelles/golgi.py:121-144 | equals infer_golgi with (4, 1.34, "tri", 0.90, 1200, 1.6, 1, 1.6, 0.02, 3) in positional order |
| `Golgi.FixedInferGolgiIgnoresCytoplasm` | infer_subc_2d/organelles/golgi.py:107 | any two cytoplasm masks, or none, give equal results |
| `Golgi.InferAndExportGolgi` | infer_subc_2d/organelles/golgi.py:165-168 | returns fixed_infer_golgi's mask; on success only the golgi entry for (metadata, output path) is written; on failure nothing is written |
| `Golgi.GetGolgi` | infer_subc_2d/organelles/golgi.py:190-199 | its result and the files it leaves are those of one get_golgi step on the old files |
| `Golgi.GetGolgiHit` | infer_subc_2d/organelles/golgi.py:190-191 | a readable cached golgi is returned unchanged; nothing is inferred and the files are unchanged |
| `Golgi.GetGolgiMiss` | infer_subc_2d/organelles/golgi.py:192-195 | when the load fails for any reason, the result is fixed_infer_golgi; on success the files then hold it under "golgi", overwriting an unreadable file; every other entry is unchanged |
| `Golgi.GetGolgiIdempotent` | infer_subc_2d/organelles/golgi.py:190-199 | a second call on the files the first call left returns the same result and leaves the files unchanged |

## Left out

- The primitive image operators are not modelled internally: channel selection, scale_and_smooth, masked_object_thresh, size_filter_linear_size, apply_mask, topology_preserving_thinning, the dot filter and binary_erosion. Their code is not part of this model. They are arbitrary functions. Where a property needs it, they are assumed to keep the input's shape.
- Floating-point parameters and the smoothing and thresholding maths are out of scope. `gauss_sig`, `mo_adjust`, `min_thickness`, `dot_scale` and `dot_cut` are exact reals that are only forwarded.
- Parameter validation (an unknown `mo_method`, negative sizes) would happen inside the primitive operators, so it is not modelled.
- `Cytosol.InferCytosol`: numpy broadcasting of unequal but compatible shapes in `logical_xor` (cytosol.py:34,36) is not modelled. Any shape difference is a ShapeMismatch error.
- `Golgi.InferGolgi`: numpy broadcasting in `logical_or` (golgi.py:95) is not modelled. If the operators return a dot mask and a thinned mask of unequal but compatible shapes, such as (1,Y,X) and (Z,Y,X), numpy returns a broadcast mask where the model returns ShapeMismatch. With shape-preserving operators the two shapes are always equal (`Golgi.InferGolgiStages`).
- `Volumes.Or`, `Volumes.Xor`: defined only for operands of one shape; numpy broadcasting is not modelled.
- `Store.OrganelleStore.ImportOrNone`: assumes that an unreadable file makes the cytosol loader raise rather than return `None`. The loader's code is not part of this model. `Cytosol.GetCytosolSurfacesReadFailure` rests on this assumption. If the loader returned `None` instead, get_cytosol would recompute and overwrite, as get_golgi does.
- `Cytosol.InferCytosol`: apply_mask is treated as total. An exception it might raise before the exclusive or is not modelled.
- The OME-TIFF format and file I/O are not modelled. The files are an abstract map from key to artifact. The exported file name is the key.
- Failures while writing an export are not modelled: export always succeeds.
- `print` output and `time.time()` timing are not modelled; they are observability only.
- The global `GOLGI_CH` is passed in as the parameter `golgiCh`. `infer_subc_2d/constants.py` is not part of this model.
- The commented-out `dot_3d_wrapper` alternative is not modelled.
- Concurrent writers to the same cache entry are out of scope.
