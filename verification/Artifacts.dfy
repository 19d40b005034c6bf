/** gateway/src/artifacts/store.ts and gateway/src/domain/filenames.ts: media on disk, as a map from
    (job, filename) to bytes. Hashing is whatever function the caller passes. */
module Artifacts {
  import opened Types

  const OUTPUT := "output.mp4"

  predicate SafeChar(c: char) {
    'A' <= c <= 'Z' || 'a' <= c <= 'z' || '0' <= c <= '9' || c == '.' || c == '_' || c == '-'
  }

  predicate SafeFilename(name: string) {
    && 0 < |name| <= 255
    && (forall i :: 0 <= i < |name| ==> SafeChar(name[i]))
    && (exists i :: 0 <= i < |name| && name[i] != '.')
  }

  /** The one name agents use. */
  lemma {:induction false} SafeOutput()
    ensures SafeFilename(OUTPUT)
  {
    assert OUTPUT[0] != '.';
  }

  /** Whatever is accepted names a file in its own directory, and every plain name is accepted. */
  lemma {:induction false} SafeNames(name: string)
    ensures SafeFilename(name) ==> name != "" && name != "." && name != ".." && '/' !in name && '\\' !in name && '%' !in name && '\0' !in name
    ensures SafeFilename(name) <==>
      (1 <= |name| <= 255 && name != seq(|name|, _ => '.')
       && forall c :: c in name ==> 'a' <= c <= 'z' || 'A' <= c <= 'Z' || '0' <= c <= '9' || c == '.' || c == '_' || c == '-')
  {
    var dots := seq(|name|, _ => '.');
    assert name == dots <==> forall i :: 0 <= i < |name| ==> name[i] == '.';
    assert (forall i :: 0 <= i < |name| ==> SafeChar(name[i])) <==> forall c :: c in name ==> SafeChar(c);
  }

  function Flatten(chunks: seq<Bytes>): Bytes {
    if chunks == [] then [] else Flatten(chunks[..|chunks| - 1]) + chunks[|chunks| - 1]
  }

  /** The chunks one after another. */
  lemma {:induction false} FlattenNext(chunks: seq<Bytes>, chunk: Bytes)
    ensures Flatten([]) == [] && Flatten(chunks + [chunk]) == Flatten(chunks) + chunk
  {
    assert (chunks + [chunk])[..|chunks|] == chunks;
  }

  lemma {:induction false} FlattenGrows(chunks: seq<Bytes>, i: nat)
    requires i <= |chunks|
    ensures |Flatten(chunks[..i])| <= |Flatten(chunks)|
    decreases |chunks|
  {
    if i < |chunks| {
      assert chunks[..|chunks| - 1][..i] == chunks[..i];
      FlattenGrows(chunks[..|chunks| - 1], i);
    } else {
      assert chunks[..i] == chunks;
    }
  }

  datatype Stored = Stored(bytes: nat, sha256: Digest)

  function Without(files: map<(JobId, string), Bytes>, jobId: JobId): map<(JobId, string), Bytes> {
    map k | k in files && k.0 != jobId :: files[k]
  }

  class ArtifactStore {
    var files: map<(JobId, string), Bytes>
    var parts: map<(JobId, string), Bytes>

    constructor ()
      ensures files == map[] && parts == map[]
    {
      files, parts := map[], map[];
    }

    /** Streams to the part file, counting and hashing, then renames it into place; `None` when the byte
        cap was exceeded, and then no artifact appears. Nobody else touches the job's directory meanwhile. */
    method WriteArtifact(jobId: JobId, filename: string, source: seq<Bytes>, maxBytes: nat, hash: Bytes -> Digest)
      returns (stored: Option<Stored>)
      modifies this
      ensures stored.Some? <==> |Flatten(source)| <= maxBytes
      ensures stored.Some? ==> stored.value == Stored(|Flatten(source)|, hash(Flatten(source)))
      ensures files == if stored.Some? then old(files)[(jobId, filename) := Flatten(source)] else old(files)
      ensures parts == old(parts) - {(jobId, filename)}
    {
      var name := (jobId, filename);
      parts := parts[name := []];
      var bytes := 0;
      var i := 0;
      while i < |source|
        invariant 0 <= i <= |source| && parts == old(parts)[name := Flatten(source[..i])]
        invariant bytes == |Flatten(source[..i])| <= maxBytes
        invariant files == old(files)
      {
        assert source[..i + 1][..i] == source[..i];
        bytes := bytes + |source[i]|;
        if bytes > maxBytes {
          FlattenGrows(source, i + 1);
          parts := parts - {name};
          return None;
        }
        parts := parts[name := parts[name] + source[i]];
        i := i + 1;
      }
      assert source[..|source|] == source;
      files, parts := files[name := parts[name]], parts - {name};
      stored := Some(Stored(bytes, hash(files[name])));
    }

    method Exists(jobId: JobId, filename: string) returns (size: Option<nat>)
      ensures size == if (jobId, filename) in files then Some(|files[(jobId, filename)]|) else None
    {
      size := if (jobId, filename) in files then Some(|files[(jobId, filename)]|) else None;
    }

    method RemoveJob(jobId: JobId)
      modifies this
      ensures files == Without(old(files), jobId) && parts == Without(old(parts), jobId)
    {
      files, parts := Without(files, jobId), Without(parts, jobId);
    }
  }
}
