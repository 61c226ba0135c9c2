/** Training runs, evaluations, the model registry and its stage assignments (mlops_service routes.py,
    lifecycle.py and repositories.py): append-only rows, and the guards and signing of a registration. */
module ModelRegistry {
  import opened Base
  import opened Json
  import opened Artifacts

  datatype TrainingMetrics = TrainingMetrics(auc: real, precisionAt50: real, recallAt50: real, calibrationError: real)

  datatype Run = Run(
    modelName: string, datasetHash: string, randomSeed: int, algorithm: string,
    featureSpecRef: string, trainingSpecRef: string, artifactUri: Uri, artifactDigest: string, metrics: TrainingMetrics)

  datatype Evaluation = Evaluation(runId: Id, metrics: TrainingMetrics, passedPolicy: bool, policyFailures: seq<string>)

  datatype Request = Request(
    modelName: string, modelVersion: string, runId: Id, evaluationId: Id, featureSpecRef: string, trainingSpecRef: string)

  datatype ModelKey = ModelKey(name: string, version: string)

  datatype SignatureBlock = SignatureBlock(schemaVersion: string, algorithm: string, keyId: string, value: string)

  /** A registry row, reduced to what registration decides and serving reads. */
  datatype Entry = Entry(
    runId: Id, evaluationId: Id, featureSpecRef: string, trainingSpecRef: string, algorithm: string,
    artifactUri: Uri, artifactDigest: string, signature: SignatureBlock)

  datatype Assignment = Assignment(eventId: Id, key: ModelKey, stage: string, approvalTicket: string, promotedAt: Time)

  datatype Tables = Tables(
    runs: map<Id, Run>, evaluations: map<Id, Evaluation>, registry: map<ModelKey, Entry>, assignments: seq<Assignment>)

  /** The hash and the signature scheme, as functions. */
  datatype Crypto = Crypto(
    digest: Blob -> string,
    publicOf: string -> string,
    sign: (string, Blob) -> string,
    verify: (string, string, Blob) -> bool)
  {
    /** A signature verifies under the signer's public key and no other; digests are text. */
    ghost predicate Ideal() {
      && (forall key, pub, text :: verify(pub, sign(key, text), text) <==> pub == publicOf(key))
      && (forall key, text :: !Blank(sign(key, text)))
      && (forall text :: !Blank(digest(text)))
    }
  }

  const REGISTERED_DIR := "registered_artifacts"
  const CARDS_DIR := "model_cards"
  const PACKAGE_V2 := "credit-model-package.v2"
  const SIGNATURE_SCHEMA := "credit-model-signature.v1"
  const SIGNATURE_ALGORITHM := "ed25519"

  const RUN_EXISTS := ServiceError("ML_RUN_ALREADY_EXISTS", 409)
  const RUN_NOT_FOUND := ServiceError("ML_RUN_NOT_FOUND", 404)
  const EVALUATION_NOT_FOUND := ServiceError("ML_EVALUATION_NOT_FOUND", 404)
  const RUN_EVALUATION_MISMATCH := ServiceError("ML_RUN_EVALUATION_MISMATCH", 400)
  const FEATURE_SPEC_MISMATCH := ServiceError("ML_FEATURE_SPEC_MISMATCH", 400)
  const TRAINING_SPEC_MISMATCH := ServiceError("ML_TRAINING_SPEC_MISMATCH", 400)
  const POLICY_GATE_FAILED := ServiceError("ML_POLICY_GATE_FAILED", 409)
  const PRIVATE_KEY_MISSING := ServiceError("ML_MODEL_SIGNING_PRIVATE_KEY_MISSING", 500)
  const SIGNING_CONFIGURATION_INVALID := ServiceError("ML_MODEL_SIGNING_CONFIGURATION_INVALID", 500)
  const ARTIFACT_INVALID_JSON := ServiceError("ML_ARTIFACT_INVALID_JSON", 500)
  const VERSION_EXISTS := ServiceError("MODEL_VERSION_ALREADY_EXISTS", 409)
  const UNIQUE_VIOLATION := ServiceError("UNEXPECTED_ERROR", 500)
  const VERSION_NOT_FOUND := ServiceError("MODEL_VERSION_NOT_FOUND", 404)

  function StoreFailure(kind: StoreError): ServiceError {
    match kind
    case InvalidUri => ServiceError("ML_ARTIFACT_PATH_INVALID", 400)
    case NotFound => ServiceError("ML_ARTIFACT_MISSING", 500)
    case Collision => ServiceError("ML_ARTIFACT_DIGEST_COLLISION", 500)
  }

  // ---- evaluation policy ----

  datatype Thresholds = Thresholds(minAuc: real, maxCalibrationError: real)

  /** evaluate_policy: the metrics pass exactly when neither gate adds a failure. */
  method EvaluatePolicy(metrics: TrainingMetrics, gate: Thresholds) returns (passed: bool, failures: seq<string>)
    ensures passed <==> Passes(metrics, gate)
    ensures failures == PolicyFailures(metrics, gate)
    ensures passed <==> metrics.auc >= gate.minAuc && metrics.calibrationError <= gate.maxCalibrationError
    ensures "auc_below_threshold" in failures <==> metrics.auc < gate.minAuc
    ensures "calibration_error_above_threshold" in failures <==> metrics.calibrationError > gate.maxCalibrationError
    ensures passed <==> failures == []
  {
    failures := [];
    assert "auc_below_threshold"[0] != "calibration_error_above_threshold"[0];
    if metrics.auc < gate.minAuc {
      failures := failures + ["auc_below_threshold"];
    }
    if metrics.calibrationError > gate.maxCalibrationError {
      failures := failures + ["calibration_error_above_threshold"];
    }
    passed := |failures| == 0;
  }

  predicate Passes(m: TrainingMetrics, gate: Thresholds) {
    m.auc >= gate.minAuc && m.calibrationError <= gate.maxCalibrationError
  }

  function PolicyFailures(m: TrainingMetrics, gate: Thresholds): seq<string> {
    (if m.auc < gate.minAuc then ["auc_below_threshold"] else [])
    + (if m.calibrationError > gate.maxCalibrationError then ["calibration_error_above_threshold"] else [])
  }

  // ---- signing ----

  /** The training artifact under the registry's schema and version. */
  function Unsigned(artifact: Package, version: string): Package {
    artifact[SchemaVersion := Str(PACKAGE_V2)][ModelVersion := Str(version)]
  }

  function SignatureJson(s: SignatureBlock): Json {
    Obj(map["schema_version" := Str(s.schemaVersion), "algorithm" := Str(s.algorithm), "key_id" := Str(s.keyId), "value" := Str(s.value)])
  }

  function SignedPackage(unsigned: Package, s: SignatureBlock): Package {
    unsigned[Signature := SignatureJson(s)]
  }

  function Sign(crypto: Crypto, unsigned: Package, privateKey: string, keyId: string): SignatureBlock {
    SignatureBlock(SIGNATURE_SCHEMA, SIGNATURE_ALGORITHM, keyId, crypto.sign(privateKey, PackageText(unsigned)))
  }

  function Stem(name: string, version: string): string {
    name + "--" + version
  }

  function CardStem(req: Request): string {
    Stem(req.modelName, req.modelVersion)
  }

  function Prefix16(digest: string): string {
    if |digest| >= 16 then digest[..16] else digest
  }

  function ArtifactStem(name: string, version: string, digest: string): string {
    name + ("--" + version + "--" + Prefix16(digest))
  }

  /** The names may contain dashes, so a stem does not determine a name and a version; a version and a
      digest determine the name. */
  lemma StemDeterminesName(a: string, b: string, version: string, digest: string)
    requires ArtifactStem(a, version, digest) == ArtifactStem(b, version, digest)
    ensures a == b
  {
    var tail := "--" + version + "--" + Prefix16(digest);
    assert |a| == |b|;
    assert (a + tail)[..|a|] == a && (b + tail)[..|b|] == b;
  }

  /** Packages of one version under one name have one location only if their digests begin alike. */
  lemma StemDeterminesDigest(name: string, version: string, a: string, b: string)
    requires |a| >= 16 && |b| >= 16 && ArtifactStem(name, version, a) == ArtifactStem(name, version, b)
    ensures a[..16] == b[..16]
  {
    var front := name + "--" + version + "--";
    assert ArtifactStem(name, version, a) == front + a[..16] && ArtifactStem(name, version, b) == front + b[..16];
    assert (front + a[..16])[|front|..] == a[..16] && (front + b[..16])[|front|..] == b[..16];
  }

  // ---- registration ----

  /** The guards of register_model, in order. */
  function Refusal(t: Tables, req: Request): Option<ServiceError> {
    if req.runId !in t.runs then Some(RUN_NOT_FOUND)
    else if req.evaluationId !in t.evaluations then Some(EVALUATION_NOT_FOUND)
    else
      var run, evaluation := t.runs[req.runId], t.evaluations[req.evaluationId];
      if evaluation.runId != req.runId then Some(RUN_EVALUATION_MISMATCH)
      else if req.featureSpecRef != run.featureSpecRef then Some(FEATURE_SPEC_MISMATCH)
      else if req.trainingSpecRef != run.trainingSpecRef then Some(TRAINING_SPEC_MISMATCH)
      else if !evaluation.passedPolicy then Some(POLICY_GATE_FAILED)
      else None
  }

  datatype SigningKey = SigningKey(privateKey: Option<string>, keyId: string)

  /** build_signed_registered_model_artifact on a store: the package written and its signature. */
  function SignedArtifact(blobs: Blobs, req: Request, run: Run, key: SigningKey, crypto: Crypto)
    : (Blobs, Result<(Uri, string, SignatureBlock)>)
    requires key.privateKey.Some?
  {
    var raw := Read(blobs, run.artifactUri);
    if raw.Failed? then (blobs, Err(StoreFailure(raw.kind)))
    else if !raw.value.PackageText? then (blobs, Err(ARTIFACT_INVALID_JSON))
    else if Blank(key.keyId) then (blobs, Err(SIGNING_CONFIGURATION_INVALID))
    else
      var unsigned := Unsigned(raw.value.package, req.modelVersion);
      var signature := Sign(crypto, unsigned, key.privateKey.value, key.keyId);
      var text := PackageText(SignedPackage(unsigned, signature));
      var digest := crypto.digest(text);
      var (blobs', written) := Written(blobs, REGISTERED_DIR, ArtifactStem(req.modelName, req.modelVersion, digest), text, false);
      if written.Failed? then (blobs', Err(StoreFailure(written.kind)))
      else (blobs', Ok((written.value, digest, signature)))
  }

  /** A whole registration; card is the model card's text, which carries the time it was made. */
  function Registered(t: Tables, blobs: Blobs, req: Request, card: Blob, key: SigningKey, crypto: Crypto)
    : (Tables, Blobs, Result<()>)
  {
    var refusal := Refusal(t, req);
    if refusal.Some? then (t, blobs, Err(refusal.value))
    else
      var run := t.runs[req.runId];
      var (blobs1, carded) := Written(blobs, CARDS_DIR, CardStem(req), card, false);
      if carded.Failed? then (t, blobs1, Err(StoreFailure(carded.kind)))
      else if key.privateKey.None? then (t, blobs1, Err(PRIVATE_KEY_MISSING))
      else
        var (blobs2, signed) := SignedArtifact(blobs1, req, run, key, crypto);
        if signed.Err? then (t, blobs2, Err(signed.error))
        else
          var modelKey := ModelKey(req.modelName, req.modelVersion);
          if modelKey in t.registry then (t, blobs2, Err(VERSION_EXISTS))
          else (t.(registry := t.registry[modelKey := EntryFor(req, run, signed.value)]), blobs2, Ok(()))
  }

  function EntryFor(req: Request, run: Run, signed: (Uri, string, SignatureBlock)): Entry {
    Entry(req.runId, req.evaluationId, req.featureSpecRef, req.trainingSpecRef, run.algorithm, signed.0, signed.1, signed.2)
  }

  // ---- what a registration comes to ----

  ghost predicate Extends<K, V>(m: map<K, V>, m': map<K, V>) {
    forall k | k in m :: k in m' && m'[k] == m[k]
  }

  /** The text is at the row's location, which its name, version and digest make up. */
  ghost predicate StoredAt(blobs: Blobs, key: ModelKey, entry: Entry, text: Blob, crypto: Crypto) {
    && entry.artifactUri == Uri(REGISTERED_DIR, ArtifactStem(key.name, key.version, entry.artifactDigest))
    && entry.artifactUri in blobs && blobs[entry.artifactUri] == text && entry.artifactDigest == crypto.digest(text)
  }

  /** A row whose package is the given artifact with schema and version replaced, signed with the given key. */
  ghost predicate SignedFrom(blobs: Blobs, key: ModelKey, entry: Entry, artifact: Package, privateKey: string,
                             crypto: Crypto) {
    var unsigned := Unsigned(artifact, key.version);
    && !Blank(entry.signature.keyId) && entry.signature == Sign(crypto, unsigned, privateKey, entry.signature.keyId)
    && StoredAt(blobs, key, entry, PackageText(SignedPackage(unsigned, entry.signature)), crypto)
  }

  ghost predicate Copies(t: Tables, req: Request, entry: Entry)
    requires req.runId in t.runs
  {
    var run := t.runs[req.runId];
    && entry.runId == req.runId && entry.evaluationId == req.evaluationId && entry.algorithm == run.algorithm
    && entry.featureSpecRef == run.featureSpecRef && entry.trainingSpecRef == run.trainingSpecRef
  }

  /** The tables, the store and the answer of a registration that was not refused. */
  datatype Outcome = Outcome(tables: Tables, blobs: Blobs, result: Result<()>)

  ghost predicate Adds(t: Tables, req: Request, signing: SigningKey, crypto: Crypto, o: Outcome, entry: Entry,
                       artifact: Package) {
    var key := ModelKey(req.modelName, req.modelVersion);
    && Refusal(t, req).None? && signing.privateKey.Some?
    && key !in t.registry && o.tables == t.(registry := t.registry[key := entry]) && Copies(t, req, entry)
    && t.runs[req.runId].artifactUri in o.blobs && o.blobs[t.runs[req.runId].artifactUri] == PackageText(artifact)
    && SignedFrom(o.blobs, key, entry, artifact, signing.privateKey.value, crypto)
  }

  ghost predicate Registers(t: Tables, blobs: Blobs, req: Request, signing: SigningKey, crypto: Crypto, o: Outcome) {
    && Extends(blobs, o.blobs)
    && (o.result.Err? ==> o.tables == t)
    && (o.result.Ok? ==> exists entry, artifact :: Adds(t, req, signing, crypto, o, entry, artifact))
  }

  function OutcomeOf(t: Tables, blobs: Blobs, req: Request, card: Blob, signing: SigningKey, crypto: Crypto): Outcome {
    var (t', blobs', r) := Registered(t, blobs, req, card, signing, crypto);
    Outcome(t', blobs', r)
  }

  /** The package written by a signing that succeeds. */
  lemma SigningOutcome(blobs: Blobs, req: Request, run: Run, signing: SigningKey, crypto: Crypto)
    requires signing.privateKey.Some?
    ensures var (blobs', r) := SignedArtifact(blobs, req, run, signing, crypto);
      && Extends(blobs, blobs')
      && (r.Ok? ==> run.artifactUri in blobs' && blobs'[run.artifactUri].PackageText?)
      && (r.Ok? ==> SignedFrom(blobs', ModelKey(req.modelName, req.modelVersion), EntryFor(req, run, r.value),
                               blobs'[run.artifactUri].package, signing.privateKey.value, crypto))
  {
  }

  /** A registration adds to the store and never changes it; it adds one row, with everything the row
      stands for, or leaves the tables alone. */
  lemma RegistrationOutcome(t: Tables, blobs: Blobs, req: Request, card: Blob, signing: SigningKey, crypto: Crypto)
    ensures Registers(t, blobs, req, signing, crypto, OutcomeOf(t, blobs, req, card, signing, crypto))
  {
    var o := OutcomeOf(t, blobs, req, card, signing, crypto);
    var blobs1 := Written(blobs, CARDS_DIR, CardStem(req), card, false).0;
    WriteOnce(blobs, CARDS_DIR, CardStem(req), card);
    if Refusal(t, req).None? && signing.privateKey.Some? {
      var run := t.runs[req.runId];
      SigningOutcome(blobs1, req, run, signing, crypto);
      if o.result.Ok? {
        var entry := o.tables.registry[ModelKey(req.modelName, req.modelVersion)];
        assert Adds(t, req, signing, crypto, o, entry, o.blobs[run.artifactUri].package);
      }
    }
  }

  class MLOpsRepository {
    var runs: map<Id, Run>
    var evaluations: map<Id, Evaluation>
    var registry: map<ModelKey, Entry>
    var assignments: seq<Assignment>

    constructor ()
      ensures Contents() == Tables(map[], map[], map[], [])
    {
      runs, evaluations, registry, assignments := map[], map[], map[], [];
    }

    function Contents(): Tables
      reads this
    {
      Tables(runs, evaluations, registry, assignments)
    }

    method PersistTrainingRun(runId: Id, run: Run) returns (r: Result<()>)
      modifies this
      ensures r == if runId in old(runs) then Err(RUN_EXISTS) else Ok(())
      ensures Contents() == if r.Ok? then old(Contents()).(runs := old(runs)[runId := run]) else old(Contents())
    {
      if runId in runs {
        return Err(RUN_EXISTS);
      }
      runs := runs[runId := run];
      r := Ok(());
    }

    /** evaluate_run: the policy is applied to the metrics the run stored. */
    method EvaluateRun(runId: Id, evaluationId: Id, gate: Thresholds) returns (r: Result<Evaluation>)
      requires evaluationId !in evaluations
      modifies this
      ensures r.Ok? <==> runId in old(runs)
      ensures r.Err? ==> r.error == RUN_NOT_FOUND && Contents() == old(Contents())
      ensures r.Ok? ==> var m := old(runs)[runId].metrics;
        && r.value == Evaluation(runId, m, Passes(m, gate), PolicyFailures(m, gate))
        && (r.value.passedPolicy <==> m.auc >= gate.minAuc && m.calibrationError <= gate.maxCalibrationError)
        && Contents() == old(Contents()).(evaluations := old(evaluations)[evaluationId := r.value])
    {
      if runId !in runs {
        return Err(RUN_NOT_FOUND);
      }
      var passed, failures := EvaluatePolicy(runs[runId].metrics, gate);
      var evaluation := Evaluation(runId, runs[runId].metrics, passed, failures);
      evaluations := evaluations[evaluationId := evaluation];
      r := Ok(evaluation);
    }

    method RegisterModel(store: ArtifactStore, req: Request, card: Blob, key: SigningKey,
                         crypto: Crypto) returns (r: Result<()>)
      modifies this, store
      ensures (Contents(), store.blobs, r) == Registered(old(Contents()), old(store.blobs), req, card, key, crypto)
    {
      if req.runId !in runs {
        return Err(RUN_NOT_FOUND);
      }
      if req.evaluationId !in evaluations {
        return Err(EVALUATION_NOT_FOUND);
      }
      var run, evaluation := runs[req.runId], evaluations[req.evaluationId];
      if evaluation.runId != req.runId {
        return Err(RUN_EVALUATION_MISMATCH);
      }
      if req.featureSpecRef != run.featureSpecRef {
        return Err(FEATURE_SPEC_MISMATCH);
      }
      if req.trainingSpecRef != run.trainingSpecRef {
        return Err(TRAINING_SPEC_MISMATCH);
      }
      if !evaluation.passedPolicy {
        return Err(POLICY_GATE_FAILED);
      }
      var carded := store.WriteBytes(CARDS_DIR, CardStem(req), card, false);
      if carded.Failed? {
        return Err(StoreFailure(carded.kind));
      }
      if key.privateKey.None? {
        return Err(PRIVATE_KEY_MISSING);
      }
      var signed := BuildSignedArtifact(store, req, run, key, crypto);
      if signed.Err? {
        return Err(signed.error);
      }
      var modelKey := ModelKey(req.modelName, req.modelVersion);
      if modelKey in registry {
        return Err(VERSION_EXISTS);
      }
      registry := registry[modelKey := EntryFor(req, run, signed.value)];
      r := Ok(());
    }

    method BuildSignedArtifact(store: ArtifactStore, req: Request, run: Run, key: SigningKey, crypto: Crypto)
      returns (r: Result<(Uri, string, SignatureBlock)>)
      requires key.privateKey.Some?
      modifies store
      ensures (store.blobs, r) == SignedArtifact(old(store.blobs), req, run, key, crypto)
    {
      var raw := store.ReadBytes(run.artifactUri);
      if raw.Failed? {
        return Err(StoreFailure(raw.kind));
      }
      if !raw.value.PackageText? {
        return Err(ARTIFACT_INVALID_JSON);
      }
      if Blank(key.keyId) {
        return Err(SIGNING_CONFIGURATION_INVALID);
      }
      var payload := raw.value.package;
      payload := payload[SchemaVersion := Str(PACKAGE_V2)];
      payload := payload[ModelVersion := Str(req.modelVersion)];
      var signature := Sign(crypto, payload, key.privateKey.value, key.keyId);
      var text := PackageText(payload[Signature := SignatureJson(signature)]);
      var digest := crypto.digest(text);
      var written := store.WriteBytes(REGISTERED_DIR, ArtifactStem(req.modelName, req.modelVersion, digest), text, false);
      if written.Failed? {
        return Err(StoreFailure(written.kind));
      }
      return Ok((written.value, digest, signature));
    }

    /** promote_model: the INSERT ... SELECT adds a row exactly when the version is registered; a ticket or an
        event id used before breaks a unique index and rolls the transaction back. */
    method PromoteModel(key: ModelKey, stage: string, ticket: string, eventId: Id, at: Time) returns (r: Result<()>)
      modifies this
      ensures r == if key !in old(registry) then Err(VERSION_NOT_FOUND)
        else if Used(old(assignments), ticket, eventId) then Err(UNIQUE_VIOLATION) else Ok(())
      ensures r.Ok? <==> key in old(registry) && forall a | a in old(assignments) :: a.approvalTicket != ticket && a.eventId != eventId
      ensures Contents() == if r.Ok?
        then old(Contents()).(assignments := old(assignments) + [Assignment(eventId, key, stage, ticket, at)])
        else old(Contents())
    {
      if key !in registry {
        return Err(VERSION_NOT_FOUND);
      }
      if Used(assignments, ticket, eventId) {
        return Err(UNIQUE_VIOLATION);
      }
      assignments := assignments + [Assignment(eventId, key, stage, ticket, at)];
      r := Ok(());
    }
  }

  /** The primary key and the unique index of the assignments table. */
  predicate Used(assignments: seq<Assignment>, ticket: string, eventId: Id) {
    exists a | a in assignments :: a.approvalTicket == ticket || a.eventId == eventId
  }
}
