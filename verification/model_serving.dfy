/** Resolving the promoted model for scoring (scoring_service runtime.py): the registry row, the cache, the
    stored package and its checks. */
module ModelServing {
  import opened Base
  import opened Json
  import opened Artifacts
  import opened ModelRegistry

  datatype ActiveModel = ActiveModel(key: ModelKey, entry: Entry, package: Package)

  datatype CacheKey = CacheKey(uri: Uri, digest: string, version: string)

  type Cache = map<CacheKey, ActiveModel>

  datatype Settings = Settings(modelName: string, stage: string, publicKey: Option<string>)

  const NOT_PROMOTED := ServiceError("SCORING_MODEL_NOT_PROMOTED", 503)
  const REGISTRY_INVALID := ServiceError("SCORING_MODEL_REGISTRY_INVALID", 500)
  const ARTIFACT_MISSING := ServiceError("SCORING_MODEL_ARTIFACT_MISSING", 500)
  const DIGEST_MISMATCH := ServiceError("SCORING_MODEL_ARTIFACT_DIGEST_MISMATCH", 500)
  const INVALID_JSON := ServiceError("SCORING_MODEL_ARTIFACT_INVALID_JSON", 500)
  const VALIDATION_FAILED := ServiceError("UNEXPECTED_ERROR", 500)
  const ARTIFACT_INVALID := ServiceError("SCORING_MODEL_ARTIFACT_INVALID", 500)
  const PUBLIC_KEY_MISSING := ServiceError("SCORING_MODEL_SIGNATURE_PUBLIC_KEY_MISSING", 500)
  const SIGNATURE_INVALID := ServiceError("SCORING_MODEL_SIGNATURE_INVALID", 500)

  // ---- the package schema ----

  predicate HasText(p: Package, m: Member, length: nat) {
    m in p && p[m].Str? && |p[m].s| >= length
  }

  predicate Reals(j: Json) {
    j.Obj? && forall k | k in j.fields :: j.fields[k].Real?
  }

  predicate Fraction(j: Json) {
    j.Real? && 0.0 <= j.r <= 1.0
  }

  predicate PreprocessingOk(j: Json) {
    && j.Obj? && j.fields.Keys == {"type", "means", "scales"}
    && j.fields["type"] == Str("standard_scaler") && Reals(j.fields["means"]) && Reals(j.fields["scales"])
  }

  predicate ClassifierOk(j: Json) {
    && j.Obj? && j.fields.Keys == {"type", "coefficients", "intercept"}
    && j.fields["type"] == Str("logistic_regression") && Reals(j.fields["coefficients"]) && j.fields["intercept"].Real?
  }

  predicate ThresholdsOk(j: Json) {
    && j.Obj? && j.fields.Keys == {"approve_threshold", "decline_threshold"}
    && Fraction(j.fields["approve_threshold"]) && Fraction(j.fields["decline_threshold"])
  }

  predicate MetricsOk(j: Json) {
    && j.Obj? && j.fields.Keys == {"auc", "precision_at_50", "recall_at_50", "calibration_error"}
    && forall k | k in j.fields :: Fraction(j.fields[k])
  }

  predicate TextItems(j: Json) {
    j.Arr? && forall i | 0 <= i < |j.items| :: j.items[i].Str?
  }

  predicate TextMembers(j: Json) {
    j.Obj? && forall k | k in j.fields :: j.fields[k].Str?
  }

  /** The members training fills in and registration leaves alone. */
  predicate BodyOk(p: Package) {
    && HasText(p, ModelName, 3) && HasText(p, DatasetHash, 16)
    && RandomSeed in p && p[RandomSeed].Int? && p[RandomSeed].n >= 0
    && Algorithm in p && p[Algorithm] == Str("sklearn_logistic_regression")
    && HasText(p, FeatureSpecRef, 3) && HasText(p, TrainingSpecRef, 3)
    && FeatureOrder in p && TextItems(p[FeatureOrder])
    && Preprocessing in p && PreprocessingOk(p[Preprocessing])
    && Classifier in p && ClassifierOk(p[Classifier])
    && OperatingThresholds in p && ThresholdsOk(p[OperatingThresholds])
    && Metrics in p && MetricsOk(p[Metrics])
    && Lineage in p && p[Lineage].Obj?
  }

  const BODY: set<Member> := {
    ModelName, DatasetHash, RandomSeed, Algorithm, FeatureSpecRef, TrainingSpecRef, FeatureOrder, Preprocessing,
    Classifier, OperatingThresholds, Metrics, Lineage }

  /** _RuntimeModelPackage: every member present and none other. */
  predicate PackageOk(p: Package) {
    && p.Keys == BODY + {SchemaVersion, ModelVersion, Signature}
    && BodyOk(p)
    && p[SchemaVersion] == Str(PACKAGE_V2) && HasText(p, ModelVersion, 3) && TextMembers(p[Signature])
  }

  const FEATURE_ORDER: Json := Arr([
    Str("requested_amount"), Str("debt_to_income"), Str("amount_to_income"),
    Str("credit_history_months"), Str("existing_defaults") ])

  // ---- the checks ----

  function SignatureText(p: Package, name: string): Option<string>
    requires Signature in p && TextMembers(p[Signature])
  {
    if name in p[Signature].fields && !Blank(p[Signature].fields[name].s) then Some(p[Signature].fields[name].s) else None
  }

  /** _load_signature; None stands for a member that is missing or blank. */
  function LoadSignature(p: Package): Option<SignatureBlock>
    requires Signature in p && TextMembers(p[Signature])
  {
    var schema, algorithm := SignatureText(p, "schema_version"), SignatureText(p, "algorithm");
    var keyId, value := SignatureText(p, "key_id"), SignatureText(p, "value");
    if schema.Some? && algorithm.Some? && keyId.Some? && value.Some?
    then Some(SignatureBlock(schema.value, algorithm.value, keyId.value, value.value)) else None
  }

  /** verify_model_package_signature over the package without its signature. */
  predicate SignatureHolds(p: Package, s: SignatureBlock, publicKey: string, crypto: Crypto) {
    && s.schemaVersion == SIGNATURE_SCHEMA && s.algorithm == SIGNATURE_ALGORITHM
    && crypto.verify(publicKey, s.value, PackageText(p - {Signature}))
  }

  /** _validate_package: None when every check passes, else the first failure. */
  function Complaint(p: Package, key: ModelKey, entry: Entry, publicKey: Option<string>,
                     crypto: Crypto): Option<ServiceError>
    requires PackageOk(p)
  {
    if p[ModelName] != Str(key.name) || p[ModelVersion] != Str(key.version) || p[Algorithm] != Str(entry.algorithm)
       || p[FeatureSpecRef] != Str(entry.featureSpecRef) || p[TrainingSpecRef] != Str(entry.trainingSpecRef)
       || p[FeatureOrder] != FEATURE_ORDER || Blank(key.version)
    then Some(ARTIFACT_INVALID)
    else
      var s := LoadSignature(p);
      if s.None? || s.value.algorithm != entry.signature.algorithm || s.value.keyId != entry.signature.keyId
         || s.value.value != entry.signature.value
      then Some(ARTIFACT_INVALID)
      else if publicKey.None? then Some(PUBLIC_KEY_MISSING)
      else if !SignatureHolds(p, s.value, publicKey.value, crypto) then Some(SIGNATURE_INVALID)
      else None
  }

  /** The registry strings the row must carry. */
  predicate RowComplete(key: ModelKey, entry: Entry) {
    && !Blank(key.name) && !Blank(entry.featureSpecRef) && !Blank(entry.trainingSpecRef) && !Blank(entry.algorithm)
    && !Blank(entry.signature.algorithm) && !Blank(entry.signature.keyId) && !Blank(entry.signature.value)
  }

  /** Reading, digesting, parsing and verifying the stored package of a registry row. */
  function Loaded(blobs: Blobs, key: ModelKey, entry: Entry, publicKey: Option<string>,
                  crypto: Crypto): Result<ActiveModel> {
    if entry.artifactUri !in blobs then Err(ARTIFACT_MISSING)
    else
      var text := blobs[entry.artifactUri];
      if crypto.digest(text) != entry.artifactDigest then Err(DIGEST_MISMATCH)
      else if !text.PackageText? then Err(INVALID_JSON)
      else if !PackageOk(text.package) then Err(VALIDATION_FAILED)
      else if !RowComplete(key, entry) then Err(REGISTRY_INVALID)
      else
        var complaint := Complaint(text.package, key, entry, publicKey, crypto);
        if complaint.Some? then Err(complaint.value) else Ok(ActiveModel(key, entry, text.package))
  }

  /** The row of the latest assignment of the configured name and stage; ties are free. */
  ghost predicate IsActive(t: Tables, name: string, stage: string, row: Option<ModelKey>) {
    match row
    case None => forall a | a in t.assignments :: !(a.key.name == name && a.stage == stage && a.key in t.registry)
    case Some(key) =>
      exists a :: IsLatest(t, name, stage, a) && a.key == key
  }

  ghost predicate IsLatest(t: Tables, name: string, stage: string, a: Assignment) {
    && a in t.assignments && a.key.name == name && a.stage == stage && a.key in t.registry
    && forall b | b in t.assignments && b.key.name == name && b.stage == stage && b.key in t.registry :: b.promotedAt <= a.promotedAt
  }

  function KeyOf(key: ModelKey, entry: Entry): CacheKey {
    CacheKey(entry.artifactUri, entry.artifactDigest, key.version)
  }

  /** The package's members agree with the row. */
  predicate Agrees(p: Package, key: ModelKey, entry: Entry) {
    && {ModelName, ModelVersion, Algorithm, FeatureSpecRef, TrainingSpecRef, FeatureOrder} <= p.Keys
    && p[ModelName] == Str(key.name) && p[ModelVersion] == Str(key.version) && p[Algorithm] == Str(entry.algorithm)
    && p[FeatureSpecRef] == Str(entry.featureSpecRef) && p[TrainingSpecRef] == Str(entry.trainingSpecRef)
    && p[FeatureOrder] == Arr([Str("requested_amount"), Str("debt_to_income"), Str("amount_to_income"),
                               Str("credit_history_months"), Str("existing_defaults")])
  }

  /** The package is signed with the row's signature, which verifies over the package without it. */
  predicate SignedAs(p: Package, entry: Entry, publicKey: Option<string>, crypto: Crypto) {
    && publicKey.Some? && Signature in p && p[Signature].Obj?
    && var m := p[Signature].fields;
       && {"schema_version", "algorithm", "key_id", "value"} <= m.Keys
       && m["schema_version"] == Str("credit-model-signature.v1") && m["algorithm"] == Str("ed25519")
       && m["algorithm"] == Str(entry.signature.algorithm) && m["key_id"] == Str(entry.signature.keyId)
       && m["value"] == Str(entry.signature.value) && !Blank(entry.signature.keyId) && !Blank(entry.signature.value)
       && crypto.verify(publicKey.value, entry.signature.value, PackageText(p - {Signature}))
  }

  /** A row loads exactly when its artifact is stored, has the row's digest and is a package of the schema, the
      row is complete, the package agrees with it and is signed as it says; the model is then that package. */
  lemma LoadsIff(blobs: Blobs, key: ModelKey, entry: Entry, publicKey: Option<string>, crypto: Crypto)
    ensures var loaded := Loaded(blobs, key, entry, publicKey, crypto);
      && (loaded.Ok? <==>
            && entry.artifactUri in blobs && crypto.digest(blobs[entry.artifactUri]) == entry.artifactDigest
            && blobs[entry.artifactUri].PackageText? && PackageOk(blobs[entry.artifactUri].package)
            && RowComplete(key, entry) && !Blank(key.version) && Agrees(blobs[entry.artifactUri].package, key, entry)
            && SignedAs(blobs[entry.artifactUri].package, entry, publicKey, crypto))
      && (loaded.Ok? ==> loaded.value == ActiveModel(key, entry, blobs[entry.artifactUri].package))
  {
    AlgorithmIsNot();
    if entry.artifactUri in blobs && blobs[entry.artifactUri].PackageText? && PackageOk(blobs[entry.artifactUri].package) {
      SignatureReads(blobs[entry.artifactUri].package);
    }
  }

  lemma AlgorithmIsNot()
    ensures !Blank("credit-model-signature.v1") && !Blank("ed25519")
  {
  }

  lemma SignatureReads(p: Package)
    requires Signature in p && TextMembers(p[Signature])
    ensures LoadSignature(p).Some? <==> var m := p[Signature].fields;
      && {"schema_version", "algorithm", "key_id", "value"} <= m.Keys
      && !Blank(m["schema_version"].s) && !Blank(m["algorithm"].s) && !Blank(m["key_id"].s) && !Blank(m["value"].s)
    ensures LoadSignature(p).Some? ==> var m := p[Signature].fields;
      LoadSignature(p).value == SignatureBlock(m["schema_version"].s, m["algorithm"].s, m["key_id"].s, m["value"].s)
  {
  }

  /** A load of a row from a store. */
  type Loader = (Blobs, ModelKey, Entry) -> Result<ActiveModel>

  function LoaderFor(publicKey: Option<string>, crypto: Crypto): Loader {
    (blobs, key, entry) => Loaded(blobs, key, entry, publicKey, crypto)
  }

  /** resolve_active_scoring_model for a row: the cache first, then a load that fills it. */
  function Resolved(cache: Cache, blobs: Blobs, key: ModelKey, entry: Entry, load: Loader): (Cache, Result<ActiveModel>) {
    if Blank(entry.artifactDigest) || Blank(key.version) then (cache, Err(REGISTRY_INVALID))
    else if KeyOf(key, entry) in cache then (cache, Ok(cache[KeyOf(key, entry)]))
    else
      var loaded := load(blobs, key, entry);
      (if loaded.Ok? then cache[KeyOf(key, entry) := loaded.value] else cache, loaded)
  }

  class ScoringRuntime {
    var cache: Cache

    constructor ()
      ensures cache == map[]
    {
      cache := map[];
    }

    /** The query's row is given; the rest is resolve_active_scoring_model. */
    method ResolveActiveModel(repo: MLOpsRepository, store: ArtifactStore, row: Option<ModelKey>, settings: Settings,
                              crypto: Crypto)
      returns (r: Result<ActiveModel>)
      requires IsActive(repo.Contents(), settings.modelName, settings.stage, row)
      modifies this
      ensures row.None? ==> r == Err(NOT_PROMOTED) && cache == old(cache)
      ensures row.Some? ==> row.value in repo.registry
      ensures row.Some? ==> (cache, r) == Resolved(old(cache), store.blobs, row.value, repo.registry[row.value], LoaderFor(settings.publicKey, crypto))
      ensures row.Some? ==> var c := KeyOf(row.value, repo.registry[row.value]);
        && (c in old(cache) && !Blank(row.value.version) && !Blank(c.digest) ==> r == Ok(old(cache)[c]) && cache == old(cache))
        && (c !in old(cache) && r.Ok? ==> cache == old(cache)[c := r.value])
        && (r.Err? ==> cache == old(cache))
    {
      if row.None? {
        return Err(NOT_PROMOTED);
      }
      var key, entry := row.value, repo.registry[row.value];
      if Blank(entry.artifactDigest) || Blank(key.version) {
        return Err(REGISTRY_INVALID);
      }
      var cacheKey := KeyOf(key, entry);
      if cacheKey in cache {
        return Ok(cache[cacheKey]);
      }
      var bytes := store.ReadBytes(entry.artifactUri);
      if bytes.Failed? {
        return Err(ARTIFACT_MISSING);
      }
      if crypto.digest(bytes.value) != entry.artifactDigest {
        return Err(DIGEST_MISMATCH);
      }
      if !bytes.value.PackageText? {
        return Err(INVALID_JSON);
      }
      var package := bytes.value.package;
      if !PackageOk(package) {
        return Err(VALIDATION_FAILED);
      }
      if !RowComplete(key, entry) {
        return Err(REGISTRY_INVALID);
      }
      var complaint := Complaint(package, key, entry, settings.publicKey, crypto);
      if complaint.Some? {
        return Err(complaint.value);
      }
      var model := ActiveModel(key, entry, package);
      cache := cache[cacheKey := model];
      r := Ok(model);
    }
  }
}
