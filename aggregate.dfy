/**
  `getMetadatas`: read and decode every matched `codelab.json`, rewrite each
  record's URL and collect the records in file order, stopping at the first
  file that cannot be read or decoded.
 */
module Aggregate {
  import opened Wrappers
  import opened Learnings

  type Bytes = seq<bv8>

  /** A file matched by the glob, with what reading it gave (`None`: the read failed). */
  datatype FileEntry = FileEntry(path: string, contents: Option<Bytes>)

  /** Why aggregation stopped. */
  datatype Error =
    | BadPattern              // the glob pattern was malformed
    | ReadFailed(path: string) // reading failed; Go's error names the file
    | DecodeFailed            // the JSON did not decode; Go's error does not name the file

  /** Reads and decodes one matched file, before its URL is rewritten. */
  function Load(f: FileEntry, decode: Bytes -> Option<Metadata>): Result<Metadata, Error> {
    match f.contents
    case None => Err(ReadFailed(f.path))
    case Some(bytes) =>
      match decode(bytes)
      case None => Err(DecodeFailed)
      case Some(m) => Ok(m)
  }

  /** Every matched file reads and decodes. */
  ghost predicate AllLoad(files: seq<FileEntry>, decode: Bytes -> Option<Metadata>) {
    forall i :: 0 <= i < |files| ==> Load(files[i], decode).Ok?
  }

  /** File `k` is the first that fails, and fails with `e`. */
  ghost predicate FirstFailure(files: seq<FileEntry>, decode: Bytes -> Option<Metadata>, k: nat, e: Error) {
    && k < |files|
    && (forall i :: 0 <= i < k ==> Load(files[i], decode).Ok?)
    && Load(files[k], decode) == Err(e)
  }

  /** `ms` holds, in order, the rewritten records of the first `|ms|` files. */
  ghost predicate RewrittenPrefix(ms: seq<Metadata>, files: seq<FileEntry>, decode: Bytes -> Option<Metadata>) {
    && |ms| <= |files|
    && forall i :: 0 <= i < |ms| ==>
         Load(files[i], decode).Ok? && ms[i] == Rewrite(Load(files[i], decode).value)
  }

  /** `ms` holds one rewritten record per file, in file order. */
  ghost predicate Rewritten(ms: seq<Metadata>, files: seq<FileEntry>, decode: Bytes -> Option<Metadata>) {
    |ms| == |files| && RewrittenPrefix(ms, files, decode)
  }

  /**
    The loop of `getMetadatas`. `matched` is what the glob returned, each
    file paired with the outcome of reading it; `decode` is JSON decoding.
   */
  method GetMetadatas(matched: Result<seq<FileEntry>, Error>, decode: Bytes -> Option<Metadata>)
    returns (r: Result<seq<Metadata>, Error>)
    ensures matched.Err? ==> r == Err(matched.error)
    ensures matched.Ok? ==> (r.Ok? <==> AllLoad(matched.value, decode))
    ensures matched.Ok? && r.Ok? ==> Rewritten(r.value, matched.value, decode)
    ensures matched.Ok? && r.Err? ==> exists k :: FirstFailure(matched.value, decode, k, r.error)
    ensures matched == Ok([]) ==> r == Ok([])
  {
    if matched.Err? {
      return Err(matched.error);
    }
    var files := matched.value;
    var metadatas: seq<Metadata> := [];
    var i := 0;
    while i < |files|
      invariant i == |metadatas| <= |files|
      invariant RewrittenPrefix(metadatas, files, decode)
    {
      var file := files[i];
      if file.contents.None? {
        assert FirstFailure(files, decode, i, ReadFailed(file.path));
        return Err(ReadFailed(file.path));
      }
      var decoded := decode(file.contents.value);
      if decoded.None? {
        assert FirstFailure(files, decode, i, DecodeFailed);
        return Err(DecodeFailed);
      }
      var metadata := decoded.value;
      metadata := metadata.(url := LearningsPrefix + metadata.url);
      metadatas := metadatas + [metadata];
      i := i + 1;
    }
    return Ok(metadatas);
  }

  /**
    A single bad file anywhere fails the whole list: no prefix of good files
    is ever returned.
   */
  lemma {:induction false} OneBadFileFailsAll(files: seq<FileEntry>, decode: Bytes -> Option<Metadata>, k: nat)
    requires k < |files| && Load(files[k], decode).Err?
    ensures !AllLoad(files, decode)
    ensures exists j: nat, e :: j <= k && FirstFailure(files, decode, j, e)
  {
    var j := 0;
    while j < k && Load(files[j], decode).Ok?
      invariant j <= k
      invariant forall i :: 0 <= i < j ==> Load(files[i], decode).Ok?
    {
      j := j + 1;
    }
    assert FirstFailure(files, decode, j, Load(files[j], decode).error);
  }
}
