/** The artifact store (shared_kernel artifacts.py): blobs by location, written once. */
module Artifacts {
  import opened Base
  import opened Json

  /** The top-level members of a model package. */
  datatype Member =
    | SchemaVersion | ModelName | ModelVersion | DatasetHash | RandomSeed | Algorithm
    | FeatureSpecRef | TrainingSpecRef | FeatureOrder | Preprocessing | Classifier
    | OperatingThresholds | Metrics | Lineage | Signature | Other(name: string)

  type Package = map<Member, Json>

  /** Stored bytes: the canonical text of a model package, or anything else. */
  datatype Blob = PackageText(package: Package) | OtherBytes(id: int)

  /** A location; stores put it under their root as directory/stem.json. */
  datatype Uri = Uri(directory: string, stem: string)

  type Blobs = map<Uri, Blob>

  datatype StoreError = Collision | NotFound | InvalidUri

  datatype Stored<+T> = Done(value: T) | Failed(kind: StoreError)

  predicate Alphanumeric(c: char) {
    'a' <= c <= 'z' || 'A' <= c <= 'Z' || '0' <= c <= '9'
  }

  predicate SafeChar(c: char) {
    Alphanumeric(c) || c == '.' || c == '_' || c == '-'
  }

  /** Two to 256 letters, digits, dots, underscores and dashes, the first a letter or a digit. */
  predicate SafeComponent(s: string) {
    2 <= |s| <= 256 && Alphanumeric(s[0]) && forall i | 0 <= i < |s| :: SafeChar(s[i])
  }

  /** The store and the answer after a write. */
  function Written(blobs: Blobs, directory: string, stem: string, payload: Blob, overwrite: bool): (Blobs, Stored<Uri>) {
    var uri := Uri(directory, stem);
    if !SafeComponent(directory) || !SafeComponent(stem) then (blobs, Failed(InvalidUri))
    else if uri in blobs && blobs[uri] != payload && !overwrite then (blobs, Failed(Collision))
    else (blobs[uri := payload], Done(uri))
  }

  function Read(blobs: Blobs, uri: Uri): Stored<Blob> {
    if uri in blobs then Done(blobs[uri]) else Failed(NotFound)
  }

  /** Without overwrite a location keeps its first bytes, and a write that succeeds can be read back. */
  lemma WriteOnce(blobs: Blobs, directory: string, stem: string, payload: Blob)
    ensures var (blobs', r) := Written(blobs, directory, stem, payload, false);
      && (forall u | u in blobs :: u in blobs' && blobs'[u] == blobs[u])
      && (r.Done? <==> SafeComponent(directory) && SafeComponent(stem) && Read(blobs', Uri(directory, stem)) == Done(payload))
      && (r.Done? ==> r.value == Uri(directory, stem))
      && (r.Failed? ==> blobs' == blobs)
  {
  }

  /** A name is refused unless it has 2 to 256 characters, a first one that is no mark, and no separator or blank;
      a location holding something else is a collision; otherwise the location holds the payload. */
  lemma WriteAnswers(blobs: Blobs, directory: string, stem: string, payload: Blob, overwrite: bool)
    ensures var (blobs', r) := Written(blobs, directory, stem, payload, overwrite);
      var uri, safe := Uri(directory, stem), SafeComponent(directory) && SafeComponent(stem);
      && (safe ==> forall s | s in {directory, stem} :: 2 <= |s| <= 256 && s[0] !in "._-" && forall c | c in s :: c !in "/\\: ")
      && (r == Failed(InvalidUri) <==> !safe)
      && (r == Failed(Collision) <==> safe && !overwrite && uri in blobs && blobs[uri] != payload)
      && (if r.Failed? then blobs' == blobs else r.value == uri && blobs' == blobs[uri := payload])
  {
  }

  class ArtifactStore {
    var blobs: Blobs

    constructor ()
      ensures blobs == map[]
    {
      blobs := map[];
    }

    method WriteBytes(directory: string, stem: string, payload: Blob, overwrite: bool) returns (r: Stored<Uri>)
      modifies this
      ensures (blobs, r) == Written(old(blobs), directory, stem, payload, overwrite)
    {
      if !SafeComponent(directory) || !SafeComponent(stem) {
        return Failed(InvalidUri);
      }
      var target := Uri(directory, stem);
      if target in blobs {
        var existing := blobs[target];
        if !overwrite && existing != payload {
          return Failed(Collision);
        }
        if existing == payload {
          assert blobs == blobs[target := payload];
          return Done(target);
        }
      }
      blobs := blobs[target := payload];
      return Done(target);
    }

    method ReadBytes(uri: Uri) returns (r: Stored<Blob>)
      ensures r == Read(blobs, uri)
    {
      if uri !in blobs {
        return Failed(NotFound);
      }
      return Done(blobs[uri]);
    }
  }
}
