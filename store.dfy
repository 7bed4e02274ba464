/**
 * The persistence adapter behind the compute-or-load protocol: inferred
 * organelle masks written to and read back from disk, addressed by organelle
 * name, run metadata and output directory.
 *
 * The files on disk are a map from key to artifact. An artifact is either a
 * mask that reads back as written or a file that exists but cannot be read
 * (truncated, corrupt, wrong format); the two import functions of the
 * repository treat the latter differently from an absent file.
 */
module Store {
  import opened Volumes

  /** The OME metadata dictionary, treated as an opaque value. */
  type Meta = map<string, string>

  /** The output directory. */
  type Path = string

  datatype Key = Key(organelle: string, meta: Meta, outPath: Path)

  datatype Artifact = Readable(mask: Mask) | Unreadable

  type Files = map<Key, Artifact>

  /** What one call of a compute-or-load function returns and leaves on disk. */
  datatype Step = Step(result: Result<Mask>, files: Files)

  /** `after` agrees with `before` on every key other than `key`. */
  ghost predicate OthersUnchanged(before: Files, after: Files, key: Key)
  {
    forall k :: k != key ==> (k in after <==> k in before) && (k in before ==> after[k] == before[k])
  }

  class OrganelleStore {
    var files: Files

    constructor (initial: Files)
      ensures files == initial
    {
      files := initial;
    }

    /**
     * export_inferred_organelle: writes `mask` under the key and returns the
     * key as the identifier of what was written. Writing the same mask twice
     * leaves the same files.
     */
    method Export(mask: Mask, organelle: string, meta: Meta, outPath: Path) returns (written: Key)
      modifies this
      ensures written == Key(organelle, meta, outPath)
      ensures files == old(files)[written := Readable(mask)]
    {
      written := Key(organelle, meta, outPath);
      files := files[written := Readable(mask)];
    }

    /**
     * import_inferred_organelle of the utils package, used for the cytosol:
     * an absent file is the sentinel `None`. A file that cannot be read is assumed
     * to raise; the loader's code is not part of this model.
     */
    method ImportOrNone(organelle: string, meta: Meta, outPath: Path) returns (r: Result<Option<Mask>>)
      ensures var k := Key(organelle, meta, outPath);
        && (r == Ok(None) <==> k !in files)
        && (r.Ok? && r.value.Some? <==> k in files && files[k].Readable?)
        && (r.Ok? && r.value.Some? ==> r.value.value == files[k].mask)
        && (r.Err? ==> r.error == ReadFailure)
    {
      var k := Key(organelle, meta, outPath);
      if k !in files {
        r := Ok(None);
      } else if files[k].Unreadable? {
        r := Err(ReadFailure);
      } else {
        r := Ok(Some(files[k].mask));
      }
    }

    /**
     * import_inferred_organelle of the core package, used for the golgi:
     * it returns the mask or raises, for an absent file as for an unreadable one.
     */
    method ImportOrRaise(organelle: string, meta: Meta, outPath: Path) returns (r: Result<Mask>)
      ensures var k := Key(organelle, meta, outPath);
        && (r.Ok? <==> k in files && files[k].Readable?)
        && (r.Ok? ==> r.value == files[k].mask)
        && (r.Err? ==> r.error == if k in files then ReadFailure else NotFound)
    {
      var k := Key(organelle, meta, outPath);
      if k !in files {
        r := Err(NotFound);
      } else if files[k].Unreadable? {
        r := Err(ReadFailure);
      } else {
        r := Ok(files[k].mask);
      }
    }
  }
}
