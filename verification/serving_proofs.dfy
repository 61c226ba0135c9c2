/** Where a served model comes from, over every run of training, evaluation, registration, promotion, store
    writes by anybody, and resolutions with a cache. */
module ServingProofs {
  import opened Base
  import opened Json
  import opened Artifacts
  import opened ModelRegistry
  import opened ModelServing
  import opened Registration

  /** The system, with memories of what was done: the artifact each run trained, the thresholds each
      evaluation was made with, the private key each version was signed with, and every model ever served with the
      public key it was served under. The scoring service has the public key it was last started with. */
  datatype State = State(
    tables: Tables, blobs: Blobs, cache: Cache, publicKey: Option<string>,
    trained: map<Id, Package>, gates: map<Id, Thresholds>, signers: map<ModelKey, string>, served: set<Served>)

  datatype Served = Served(model: ActiveModel, publicKey: Option<string>)

  /** How the service loads a row under each public key. */
  type Loaders = Option<string> -> Loader

  function LoadersFor(crypto: Crypto): Loaders {
    key => LoaderFor(key, crypto)
  }

  datatype Label =
    | Train(runId: Id, run: Run, artifact: Package)
    | Evaluate(runId: Id, evaluationId: Id, gate: Thresholds)
    | Register(req: Request, card: Blob, signing: SigningKey)
    | Promote(key: ModelKey, stage: string, ticket: string, eventId: Id, at: Time)
    | StoreWrite(directory: string, stem: string, payload: Blob)
    | Resolve(name: string, stage: string, key: ModelKey)
    | Restart(publicKey: Option<string>)

  predicate IsInit(s: State) {
    s == State(Tables(map[], map[], map[], []), map[], map[], s.publicKey, map[], map[], map[], {})
  }

  /** What training writes: the v1 package of the run, without a version. */
  predicate IsTrained(p: Package, run: Run) {
    p.Keys == BODY + {SchemaVersion} && BodyOk(p) && TrainedFor(p, run)
  }

  predicate TrainedFor(p: Package, run: Run)
    requires BODY <= p.Keys
  {
    && p[ModelName] == Str(run.modelName) && p[DatasetHash] == Str(run.datasetHash) && p[RandomSeed] == Int(run.randomSeed)
    && p[Algorithm] == Str(run.algorithm)
    && p[FeatureSpecRef] == Str(run.featureSpecRef) && p[TrainingSpecRef] == Str(run.trainingSpecRef)
    && p[FeatureOrder] == FEATURE_ORDER
    && !Blank(run.algorithm) && !Blank(run.featureSpecRef) && !Blank(run.trainingSpecRef)
  }

  function RealObject(m: map<string, real>): Json {
    Obj(map k | k in m :: Real(m[k]))
  }

  /** The package train_deterministic_model writes; the fitted numbers are inputs. */
  function TrainingArtifact(run: Run, datasetReference: string, means: map<string, real>, scales: map<string, real>,
                            coefficients: map<string, real>, intercept: real): Package {
    map[SchemaVersion := Str("credit-model-package.v1"),
        ModelName := Str(run.modelName), DatasetHash := Str(run.datasetHash), RandomSeed := Int(run.randomSeed),
        Algorithm := Str(run.algorithm), FeatureSpecRef := Str(run.featureSpecRef), TrainingSpecRef := Str(run.trainingSpecRef),
        FeatureOrder := FEATURE_ORDER,
        Preprocessing := Obj(map["type" := Str("standard_scaler"), "means" := RealObject(means), "scales" := RealObject(scales)]),
        Classifier := Obj(map["type" := Str("logistic_regression"), "coefficients" := RealObject(coefficients), "intercept" := Real(intercept)]),
        OperatingThresholds := Obj(map["approve_threshold" := Real(0.45), "decline_threshold" := Real(0.70)]),
        Metrics := MetricsJson(run.metrics),
        Lineage := Obj(map["dataset_reference" := Str(datasetReference), "dataset_hash" := Str(run.datasetHash),
                           "run_spec" := Obj(map["algorithm" := Str(run.algorithm), "feature_spec_ref" := Str(run.featureSpecRef),
                                                 "training_spec_ref" := Str(run.trainingSpecRef)])])]
  }

  function MetricsJson(m: TrainingMetrics): Json {
    Obj(map["auc" := Real(m.auc), "precision_at_50" := Real(m.precisionAt50), "recall_at_50" := Real(m.recallAt50),
            "calibration_error" := Real(m.calibrationError)])
  }

  /** The schemas of a training request and its result. */
  predicate RunFieldsOk(run: Run) {
    && |run.modelName| >= 3 && |run.datasetHash| >= 16 && run.randomSeed >= 0 && run.algorithm == "sklearn_logistic_regression"
    && |run.featureSpecRef| >= 3 && |run.trainingSpecRef| >= 3 && !Blank(run.featureSpecRef) && !Blank(run.trainingSpecRef)
    && 0.0 <= run.metrics.auc <= 1.0 && 0.0 <= run.metrics.precisionAt50 <= 1.0
    && 0.0 <= run.metrics.recallAt50 <= 1.0 && 0.0 <= run.metrics.calibrationError <= 1.0
  }

  lemma PartsOk(m: TrainingMetrics, means: map<string, real>, scales: map<string, real>, coefficients: map<string,
                real>, intercept: real)
    requires 0.0 <= m.auc <= 1.0 && 0.0 <= m.precisionAt50 <= 1.0 && 0.0 <= m.recallAt50 <= 1.0 && 0.0 <= m.calibrationError <= 1.0
    ensures MetricsOk(MetricsJson(m))
    ensures PreprocessingOk(Obj(map["type" := Str("standard_scaler"), "means" := RealObject(means), "scales" := RealObject(scales)]))
    ensures ClassifierOk(Obj(map["type" := Str("logistic_regression"), "coefficients" := RealObject(coefficients), "intercept" := Real(intercept)]))
    ensures ThresholdsOk(Obj(map["approve_threshold" := Real(0.45), "decline_threshold" := Real(0.70)]))
  {
  }

  lemma TrainingKeys(run: Run, datasetReference: string, means: map<string, real>, scales: map<string, real>,
                     coefficients: map<string, real>, intercept: real)
    ensures TrainingArtifact(run, datasetReference, means, scales, coefficients, intercept).Keys == BODY + {SchemaVersion}
  {
  }

  lemma TrainingMembers(run: Run, p: Package, datasetReference: string, means: map<string, real>, scales: map<string,
                        real>,
                        coefficients: map<string, real>, intercept: real)
    requires p == TrainingArtifact(run, datasetReference, means, scales, coefficients, intercept) && BODY <= p.Keys
    requires !Blank(run.algorithm) && !Blank(run.featureSpecRef) && !Blank(run.trainingSpecRef)
    ensures TrainedFor(p, run)
  {
  }

  lemma TrainingBody(run: Run, datasetReference: string, means: map<string, real>, scales: map<string, real>,
                     coefficients: map<string, real>, intercept: real)
    requires RunFieldsOk(run)
    ensures BodyOk(TrainingArtifact(run, datasetReference, means, scales, coefficients, intercept))
  {
    PartsOk(run.metrics, means, scales, coefficients, intercept);
  }

  /** What training writes has every member the scoring service's schema asks of it. */
  lemma TrainingWritesTrained(run: Run, datasetReference: string, means: map<string, real>, scales: map<string, real>,
                              coefficients: map<string, real>, intercept: real)
    requires RunFieldsOk(run)
    ensures IsTrained(TrainingArtifact(run, datasetReference, means, scales, coefficients, intercept), run)
  {
    var p := TrainingArtifact(run, datasetReference, means, scales, coefficients, intercept);
    NotBlank("sklearn_logistic_regression");
    TrainingKeys(run, datasetReference, means, scales, coefficients, intercept);
    TrainingMembers(run, p, datasetReference, means, scales, coefficients, intercept);
    TrainingBody(run, datasetReference, means, scales, coefficients, intercept);
  }

  /** The patterns of a registration request: a model name and version are never blank or short. */
  predicate RequestOk(req: Request) {
    |req.modelVersion| >= 3 && !Blank(req.modelName) && !Blank(req.modelVersion)
  }

  predicate Wrote(blobs: Blobs, run: Run, artifact: Package) {
    run.artifactUri in blobs && blobs[run.artifactUri] == PackageText(artifact)
  }

  /** Training has written its artifact before it stores its run. A resolution is of the query's row. */
  ghost predicate Enabled(s: State, l: Label) {
    match l
    case Train(runId, run, artifact) => runId !in s.tables.runs && IsTrained(artifact, run) && Wrote(s.blobs, run, artifact)
    case Evaluate(runId, evaluationId, gate) => runId in s.tables.runs && evaluationId !in s.tables.evaluations
    case Register(req, card, signing) => RequestOk(req)
    case Promote(key, stage, ticket, eventId, at) => key in s.tables.registry && !Used(s.tables.assignments, ticket, eventId)
    case StoreWrite(directory, stem, payload) => true
    case Resolve(name, stage, key) => IsActive(s.tables, name, stage, Some(key))
    case Restart(_) => true
  }

  function Trained(s: State, runId: Id, run: Run, artifact: Package): State {
    s.(tables := s.tables.(runs := s.tables.runs[runId := run]), trained := s.trained[runId := artifact])
  }

  function Evaluated(s: State, runId: Id, evaluationId: Id, gate: Thresholds): State {
    if runId !in s.tables.runs then s
    else
      var m := s.tables.runs[runId].metrics;
      var evaluation := ModelRegistry.Evaluation(runId, m, Passes(m, gate), PolicyFailures(m, gate));
      s.(tables := s.tables.(evaluations := s.tables.evaluations[evaluationId := evaluation]), gates := s.gates[evaluationId := gate])
  }

  function AfterRegister(s: State, req: Request, signing: SigningKey, o: Outcome): State {
    s.(tables := o.tables, blobs := o.blobs,
       signers := if o.result.Ok? && signing.privateKey.Some?
         then s.signers[ModelKey(req.modelName, req.modelVersion) := signing.privateKey.value] else s.signers)
  }

  function AfterResolve(s: State, o: (Cache, Result<ActiveModel>)): State {
    s.(cache := o.0, served := if o.1.Ok? then s.served + {Served(o.1.value, s.publicKey)} else s.served)
  }

  function Apply(s: State, l: Label, loaders: Loaders, crypto: Crypto): State {
    match l
    case Train(runId, run, artifact) => Trained(s, runId, run, artifact)
    case Evaluate(runId, evaluationId, gate) => Evaluated(s, runId, evaluationId, gate)
    case Register(req, card, signing) => AfterRegister(s, req, signing, OutcomeOf(s.tables, s.blobs, req, card, signing, crypto))
    case Promote(key, stage, ticket, eventId, at) =>
      s.(tables := s.tables.(assignments := s.tables.assignments + [Assignment(eventId, key, stage, ticket, at)]))
    case StoreWrite(directory, stem, payload) => s.(blobs := Written(s.blobs, directory, stem, payload, false).0)
    case Resolve(_, _, key) =>
      if key !in s.tables.registry then s
      else AfterResolve(s, Resolved(s.cache, s.blobs, key, s.tables.registry[key], loaders(s.publicKey)))
    case Restart(publicKey) => s.(cache := map[], publicKey := publicKey)
  }

  ghost predicate IsStep(s: State, l: Label, s': State, loaders: Loaders, crypto: Crypto) {
    Enabled(s, l) && s' == Apply(s, l, loaders, crypto)
  }

  ghost predicate Next(s: State, s': State, loaders: Loaders, crypto: Crypto) {
    exists l :: IsStep(s, l, s', loaders, crypto)
  }

  ghost predicate StepAt(run: seq<State>, i: nat, loaders: Loaders, crypto: Crypto) {
    i + 1 < |run| && Next(run[i], run[i + 1], loaders, crypto)
  }

  ghost predicate IsRun(run: seq<State>, loaders: Loaders, crypto: Crypto) {
    |run| >= 1 && IsInit(run[0]) && forall i | 0 <= i < |run| - 1 :: StepAt(run, i, loaders, crypto)
  }

  // ---- what rows stand for ----

  /** Each run's artifact is remembered, well formed, and still stored. */
  ghost predicate TrainedOk(s: State) {
    forall id | id in s.tables.runs :: id in s.trained && IsTrained(s.trained[id], s.tables.runs[id])
  }

  ghost predicate RunsOk(s: State) {
    && s.trained.Keys == s.tables.runs.Keys
    && forall id | id in s.tables.runs :: id in s.trained && Wrote(s.blobs, s.tables.runs[id], s.trained[id])
  }

  ghost predicate EvaluationsOk(s: State) {
    forall id | id in s.tables.evaluations :: EvaluationOk(s, id, s.tables.evaluations[id])
  }

  /** An evaluation is of a stored run's metrics against the thresholds it was made with. */
  ghost predicate EvaluationOk(s: State, id: Id, e: ModelRegistry.Evaluation) {
    && e.runId in s.tables.runs && e.metrics == s.tables.runs[e.runId].metrics
    && id in s.gates && (e.passedPolicy <==> Passes(e.metrics, s.gates[id]))
  }

  /** The row's evaluation is of the row's run, which passed the thresholds in force. */
  ghost predicate Approved(s: State, entry: Entry) {
    && entry.runId in s.tables.runs && entry.evaluationId in s.tables.evaluations && entry.evaluationId in s.gates
    && s.tables.evaluations[entry.evaluationId].runId == entry.runId
    && s.tables.evaluations[entry.evaluationId].passedPolicy
    && Passes(s.tables.runs[entry.runId].metrics, s.gates[entry.evaluationId])
  }

  ghost predicate RowOf(run: Run, entry: Entry) {
    entry.featureSpecRef == run.featureSpecRef && entry.trainingSpecRef == run.trainingSpecRef && entry.algorithm == run.algorithm
  }

  /** The row is the run's, and its stored package is the run's artifact with schema and version replaced, signed. */
  ghost predicate Packaged(s: State, key: ModelKey, entry: Entry, crypto: Crypto) {
    && entry.runId in s.tables.runs && RowOf(s.tables.runs[entry.runId], entry)
    && entry.runId in s.trained && key in s.signers
    && SignedFrom(s.blobs, key, entry, s.trained[entry.runId], s.signers[key], crypto)
  }

  ghost predicate EntryOk(s: State, key: ModelKey, entry: Entry, crypto: Crypto) {
    && |key.version| >= 3 && !Blank(key.name) && !Blank(key.version)
    && Approved(s, entry) && Packaged(s, key, entry, crypto)
  }

  ghost predicate RegistryOk(s: State, crypto: Crypto) {
    forall key | key in s.tables.registry :: EntryOk(s, key, s.tables.registry[key], crypto)
  }

  /** Gates and signers are only remembered for rows that exist. */
  ghost predicate MemoryOk(s: State) {
    && (forall id | id in s.gates :: id in s.tables.evaluations)
    && (forall key | key in s.signers :: key in s.tables.registry)
  }

  ghost predicate Inv(s: State, crypto: Crypto) {
    MemoryOk(s) && RunsOk(s) && EvaluationsOk(s) && RegistryOk(s, crypto)
  }

  // ---- rows and blobs only accumulate ----

  ghost predicate Later(s: State, s': State) {
    && Extends(s.tables.runs, s'.tables.runs) && Extends(s.tables.evaluations, s'.tables.evaluations)
    && Extends(s.tables.registry, s'.tables.registry) && Extends(s.trained, s'.trained)
    && Extends(s.blobs, s'.blobs) && Extends(s.gates, s'.gates) && Extends(s.signers, s'.signers)
  }

  lemma EntryStays(s: State, s': State, key: ModelKey, entry: Entry, crypto: Crypto)
    requires Later(s, s') && EntryOk(s, key, entry, crypto)
    ensures EntryOk(s', key, entry, crypto)
  {
  }

  lemma EvaluationStays(s: State, s': State, id: Id, e: ModelRegistry.Evaluation)
    requires Later(s, s') && EvaluationOk(s, id, e)
    ensures EvaluationOk(s', id, e)
  {
  }

  /** What is new in a step must be right; the rest stays right. */
  lemma LaterKeeps(s: State, s': State, crypto: Crypto)
    requires Inv(s, crypto) && Later(s, s') && MemoryOk(s') && RunsOk(s')
    requires forall id | id in s'.tables.evaluations && id !in s.tables.evaluations :: EvaluationOk(s', id, s'.tables.evaluations[id])
    requires forall key | key in s'.tables.registry && key !in s.tables.registry :: EntryOk(s', key, s'.tables.registry[key], crypto)
    ensures Inv(s', crypto)
  {
    forall id | id in s'.tables.evaluations ensures EvaluationOk(s', id, s'.tables.evaluations[id]) {
      if id in s.tables.evaluations {
        EvaluationStays(s, s', id, s.tables.evaluations[id]);
      }
    }
    forall key | key in s'.tables.registry ensures EntryOk(s', key, s'.tables.registry[key], crypto) {
      if key in s.tables.registry {
        EntryStays(s, s', key, s.tables.registry[key], crypto);
      }
    }
  }

  // ---- the steps ----

  lemma TrainKeeps(s: State, s': State, runId: Id, run: Run, artifact: Package, crypto: Crypto)
    requires Inv(s, crypto) && runId !in s.tables.runs && Wrote(s.blobs, run, artifact) && s' == Trained(s, runId, run, artifact)
    ensures Inv(s', crypto) && Later(s, s')
  {
    TrainLater(s, s', runId, run, artifact);
    LaterKeeps(s, s', crypto);
  }

  lemma TrainLater(s: State, s': State, runId: Id, run: Run, artifact: Package)
    requires MemoryOk(s) && RunsOk(s)
    requires runId !in s.tables.runs && Wrote(s.blobs, run, artifact) && s' == Trained(s, runId, run, artifact)
    ensures Later(s, s') && MemoryOk(s') && RunsOk(s')
  {
  }

  lemma EvaluateKeeps(s: State, s': State, runId: Id, evaluationId: Id, gate: Thresholds, crypto: Crypto)
    requires Inv(s, crypto) && runId in s.tables.runs && evaluationId !in s.tables.evaluations
    requires s' == Evaluated(s, runId, evaluationId, gate)
    ensures Inv(s', crypto) && Later(s, s')
  {
    EvaluateLater(s, s', runId, evaluationId, gate);
    LaterKeeps(s, s', crypto);
  }

  lemma EvaluateLater(s: State, s': State, runId: Id, evaluationId: Id, gate: Thresholds)
    requires MemoryOk(s) && RunsOk(s) && runId in s.tables.runs && evaluationId !in s.tables.evaluations
    requires s' == Evaluated(s, runId, evaluationId, gate)
    ensures Later(s, s') && MemoryOk(s') && RunsOk(s') && s'.tables.registry == s.tables.registry
    ensures forall id | id in s'.tables.evaluations && id !in s.tables.evaluations :: EvaluationOk(s', id, s'.tables.evaluations[id])
  {
  }

  /** The row a registration adds stands for an approved, signed version. */
  lemma AddedEntry(s: State, s': State, req: Request, signing: SigningKey, o: Outcome, entry: Entry,
                   artifact: Package, crypto: Crypto)
    requires EvaluationsOk(s) && RunsOk(s) && RequestOk(req) && s' == AfterRegister(s, req, signing, o) && o.result.Ok?
    requires Adds(s.tables, req, signing, crypto, o, entry, artifact) && Extends(s.blobs, o.blobs)
    ensures EntryOk(s', ModelKey(req.modelName, req.modelVersion), entry, crypto)
  {
    assert EvaluationOk(s, req.evaluationId, s.tables.evaluations[req.evaluationId]);
    assert artifact == s.trained[req.runId];
  }

  lemma RegisterKeeps(s: State, s': State, req: Request, signing: SigningKey, o: Outcome, crypto: Crypto)
    requires Inv(s, crypto) && RequestOk(req)
    requires Registers(s.tables, s.blobs, req, signing, crypto, o) && s' == AfterRegister(s, req, signing, o)
    ensures Inv(s', crypto) && Later(s, s')
  {
    if o.result.Ok? {
      var entry, artifact :| Adds(s.tables, req, signing, crypto, o, entry, artifact);
      AddedEntry(s, s', req, signing, o, entry, artifact, crypto);
      RegisteredLater(s, s', req, signing, o, entry, artifact, crypto);
    }
    LaterKeeps(s, s', crypto);
  }

  lemma RegisteredLater(s: State, s': State, req: Request, signing: SigningKey, o: Outcome, entry: Entry,
                        artifact: Package, crypto: Crypto)
    requires MemoryOk(s) && RunsOk(s) && s' == AfterRegister(s, req, signing, o) && o.result.Ok?
    requires Adds(s.tables, req, signing, crypto, o, entry, artifact) && Extends(s.blobs, o.blobs)
    ensures Later(s, s') && MemoryOk(s') && RunsOk(s')
    ensures forall key | key in s'.tables.registry && key !in s.tables.registry :: key == ModelKey(req.modelName, req.modelVersion)
    ensures s'.tables.registry[ModelKey(req.modelName, req.modelVersion)] == entry && s'.tables.evaluations == s.tables.evaluations
  {
  }

  lemma QuietKeeps(s: State, s': State, crypto: Crypto)
    requires Inv(s, crypto) && Extends(s.blobs, s'.blobs)
    requires s' == s.(tables := s.tables.(assignments := s'.tables.assignments), blobs := s'.blobs, cache := s'.cache,
                     publicKey := s'.publicKey, served := s'.served)
    ensures Inv(s', crypto) && Later(s, s')
  {
    LaterKeeps(s, s', crypto);
  }

  predicate IsQuiet(l: Label) {
    l.Promote? || l.StoreWrite? || l.Resolve? || l.Restart?
  }

  lemma QuietStep(s: State, l: Label, s': State, loaders: Loaders, crypto: Crypto)
    requires IsQuiet(l) && s' == Apply(s, l, loaders, crypto)
    ensures Extends(s.blobs, s'.blobs)
    ensures s' == s.(tables := s.tables.(assignments := s'.tables.assignments), blobs := s'.blobs, cache := s'.cache,
                     publicKey := s'.publicKey, served := s'.served)
  {
    if l.StoreWrite? {
      WriteOnce(s.blobs, l.directory, l.stem, l.payload);
    }
  }

  lemma LoudKeeps(s: State, l: Label, s': State, loaders: Loaders, crypto: Crypto)
    requires Inv(s, crypto) && !IsQuiet(l) && IsStep(s, l, s', loaders, crypto)
    ensures Inv(s', crypto) && Later(s, s')
  {
    match l
    case Train(runId, run, artifact) => TrainKeeps(s, s', runId, run, artifact, crypto);
    case Evaluate(runId, evaluationId, gate) => EvaluateKeeps(s, s', runId, evaluationId, gate, crypto);
    case Register(req, card, signing) =>
      RegistrationOutcome(s.tables, s.blobs, req, card, signing, crypto);
      RegisterKeeps(s, s', req, signing, OutcomeOf(s.tables, s.blobs, req, card, signing, crypto), crypto);
  }

  lemma NextKeeps(s: State, l: Label, s': State, loaders: Loaders, crypto: Crypto)
    requires Inv(s, crypto) && IsStep(s, l, s', loaders, crypto)
    ensures Inv(s', crypto) && Later(s, s')
  {
    if IsQuiet(l) {
      QuietStep(s, l, s', loaders, crypto);
      QuietKeeps(s, s', crypto);
    } else {
      LoudKeeps(s, l, s', loaders, crypto);
    }
  }

  lemma {:induction false} RunKeeps(run: seq<State>, loaders: Loaders, crypto: Crypto, i: nat)
    requires IsRun(run, loaders, crypto) && i < |run|
    ensures Inv(run[i], crypto)
  {
    if i > 0 {
      RunKeeps(run, loaders, crypto, i - 1);
      assert StepAt(run, i - 1, loaders, crypto);
      var l :| IsStep(run[i - 1], l, run[i], loaders, crypto);
      NextKeeps(run[i - 1], l, run[i], loaders, crypto);
    }
  }

  lemma LaterTwice(a: State, b: State, c: State)
    requires Later(a, b) && Later(b, c)
    ensures Later(a, c)
  {
  }

  lemma {:induction false} RunIsLater(run: seq<State>, loaders: Loaders, crypto: Crypto, i: nat, j: nat)
    requires IsRun(run, loaders, crypto) && i <= j < |run|
    ensures Later(run[i], run[j])
  {
    if i < j {
      RunIsLater(run, loaders, crypto, i, j - 1);
      RunKeeps(run, loaders, crypto, j - 1);
      assert StepAt(run, j - 1, loaders, crypto);
      var l :| IsStep(run[j - 1], l, run[j], loaders, crypto);
      NextKeeps(run[j - 1], l, run[j], loaders, crypto);
      LaterTwice(run[i], run[j - 1], run[j]);
    }
  }

  /** Once a card is in the store, whether or not its registration went through, no registration of that
      version with another card ever succeeds or changes the tables. */
  lemma VersionStaysBurnt(run: seq<State>, loaders: Loaders, crypto: Crypto, i: nat, j: nat, req: Request, card: Blob,
                          signing: SigningKey)
    requires IsRun(run, loaders, crypto) && i <= j < |run|
    requires Uri(CARDS_DIR, CardStem(req)) in run[i].blobs && run[i].blobs[Uri(CARDS_DIR, CardStem(req))] != card
    ensures OutcomeOf(run[j].tables, run[j].blobs, req, card, signing, crypto).result.Err?
    ensures OutcomeOf(run[j].tables, run[j].blobs, req, card, signing, crypto).tables == run[j].tables
  {
    RunIsLater(run, loaders, crypto, i, j);
    RegistrationSucceedsIff(run[j].tables, run[j].blobs, req, card, signing, crypto);
    RegistrationOutcome(run[j].tables, run[j].blobs, req, card, signing, crypto);
  }

  /** Over every run: after a registration failed, its version can be registered with a new card exactly when a
      guard refused the first attempt and the new one has everything it needs. */
  lemma RetryInRun(run: seq<State>, loaders: Loaders, crypto: Crypto, i: nat, j: nat, req: Request, card: Blob,
                   signing: SigningKey, card2: Blob, signing2: SigningKey)
    requires IsRun(run, loaders, crypto) && i < j < |run| && run[i + 1] == Apply(run[i], Register(req, card, signing), loaders, crypto)
    requires OutcomeOf(run[i].tables, run[i].blobs, req, card, signing, crypto).result.Err?
    requires CardUri(req) !in run[i].blobs && card2 != card && (CardUri(req) in run[j].blobs ==> CardUri(req) in run[i + 1].blobs)
    ensures OutcomeOf(run[j].tables, run[j].blobs, req, card2, signing2, crypto).result.Ok? <==>
      Refusal(run[i].tables, req).Some? && Ready(run[j].tables, run[j].blobs, req, card2, signing2, crypto)
  {
    RunIsLater(run, loaders, crypto, i + 1, j);
    RetryIff(run[i].tables, run[i].blobs, req, card, signing, run[j].tables, run[j].blobs, card2, signing2, crypto);
  }

  /** Only training adds runs. */
  lemma StepTrains(s: State, l: Label, s': State, loaders: Loaders, crypto: Crypto)
    requires TrainedOk(s) && IsStep(s, l, s', loaders, crypto)
    ensures TrainedOk(s')
  {
    match l
    case Register(req, card, signing) =>
      RegistrationOutcome(s.tables, s.blobs, req, card, signing, crypto);
      SameRuns(s.tables, s.blobs, req, signing, crypto, OutcomeOf(s.tables, s.blobs, req, card, signing, crypto));
    case _ =>
  }

  lemma SameRuns(t: Tables, blobs: Blobs, req: Request, signing: SigningKey, crypto: Crypto, o: Outcome)
    requires Registers(t, blobs, req, signing, crypto, o)
    ensures o.tables.runs == t.runs && o.tables.assignments == t.assignments
  {
    if o.result.Ok? {
      var entry, artifact :| Adds(t, req, signing, crypto, o, entry, artifact);
    }
  }

  lemma {:induction false} RunTrains(run: seq<State>, loaders: Loaders, crypto: Crypto, i: nat)
    requires IsRun(run, loaders, crypto) && i < |run|
    ensures TrainedOk(run[i])
  {
    if i > 0 {
      RunTrains(run, loaders, crypto, i - 1);
      assert StepAt(run, i - 1, loaders, crypto);
      var l :| IsStep(run[i - 1], l, run[i], loaders, crypto);
      StepTrains(run[i - 1], l, run[i], loaders, crypto);
    }
  }

  // ---- the cache ----

  /** A load depends on the row and on what is stored at its location, nothing else. */
  ghost predicate Local(load: Loader) {
    forall key: ModelKey, entry: Entry, b: Blobs, b': Blobs |
      entry.artifactUri in b && entry.artifactUri in b' && b[entry.artifactUri] == b'[entry.artifactUri] :: load(b, key, entry) == load(b', key, entry)
  }

  lemma LoaderIsLocal(publicKey: Option<string>, crypto: Crypto)
    ensures Local(LoaderFor(publicKey, crypto))
  {
  }

  /** The model is a load of its row, which is still in the registry and stored. */
  ghost predicate LoadedFrom(s: State, c: CacheKey, m: ActiveModel, load: Loader) {
    && m.key in s.tables.registry && m.entry == s.tables.registry[m.key] && c == KeyOf(m.key, m.entry)
    && m.entry.artifactUri in s.blobs && load(s.blobs, m.key, m.entry) == Ok(m)
  }

  ghost predicate CachedOk(s: State, load: Loader) {
    forall c | c in s.cache :: LoadedFrom(s, c, s.cache[c], load)
  }

  ghost predicate ServedOk(s: State, loaders: Loaders) {
    forall x | x in s.served :: LoadedFrom(s, KeyOf(x.model.key, x.model.entry), x.model, loaders(x.publicKey))
  }

  /** The cache holds loads under the public key in force, and each served model was a load under its own. */
  ghost predicate CacheOk(s: State, loaders: Loaders) {
    CachedOk(s, loaders(s.publicKey)) && ServedOk(s, loaders)
  }

  lemma LoadedStays(s: State, s': State, c: CacheKey, m: ActiveModel, load: Loader)
    requires Local(load) && Later(s, s') && LoadedFrom(s, c, m, load)
    ensures LoadedFrom(s', c, m, load)
  {
  }

  /** A loader answers about the row it was asked for. */
  ghost predicate Honest(load: Loader) {
    forall blobs: Blobs, key: ModelKey, entry: Entry | load(blobs, key, entry).Ok? ::
      && load(blobs, key, entry).value.key == key && load(blobs, key, entry).value.entry == entry
      && entry.artifactUri in blobs
  }

  lemma LoaderIsHonest(publicKey: Option<string>, crypto: Crypto)
    ensures Honest(LoaderFor(publicKey, crypto))
  {
  }

  ghost predicate Faithful(loaders: Loaders) {
    forall key :: Local(loaders(key)) && Honest(loaders(key))
  }

  lemma LoadersAreFaithful(crypto: Crypto)
    ensures Faithful(LoadersFor(crypto))
  {
    forall key ensures Local(LoadersFor(crypto)(key)) && Honest(LoadersFor(crypto)(key)) {
      LoaderIsLocal(key, crypto);
      LoaderIsHonest(key, crypto);
      assert LoadersFor(crypto)(key) == LoaderFor(key, crypto);
    }
  }

  lemma CachedStays(s: State, s': State, load: Loader)
    requires Local(load) && Later(s, s') && CachedOk(s, load) && s'.cache == s.cache
    ensures CachedOk(s', load)
  {
    forall c | c in s'.cache ensures LoadedFrom(s', c, s'.cache[c], load) {
      LoadedStays(s, s', c, s.cache[c], load);
    }
  }

  lemma ServedStays(s: State, s': State, loaders: Loaders)
    requires Faithful(loaders) && Later(s, s') && ServedOk(s, loaders) && s'.served == s.served
    ensures ServedOk(s', loaders)
  {
    forall x | x in s'.served ensures LoadedFrom(s', KeyOf(x.model.key, x.model.entry), x.model, loaders(x.publicKey)) {
      assert Local(loaders(x.publicKey));
      LoadedStays(s, s', KeyOf(x.model.key, x.model.entry), x.model, loaders(x.publicKey));
    }
  }

  lemma ResolveKeeps(s: State, s': State, key: ModelKey, load: Loader)
    requires CachedOk(s, load) && Honest(load) && key in s.tables.registry
    requires s' == AfterResolve(s, Resolved(s.cache, s.blobs, key, s.tables.registry[key], load))
    ensures CachedOk(s', load)
    ensures forall x | x in s'.served && x !in s.served ::
      x.publicKey == s.publicKey && LoadedFrom(s', KeyOf(x.model.key, x.model.entry), x.model, load)
    ensures s'.publicKey == s.publicKey
  {
    var entry := s.tables.registry[key];
    var c := KeyOf(key, entry);
    var (cache, r) := Resolved(s.cache, s.blobs, key, entry, load);
    if r.Ok? {
      assert LoadedFrom(s, c, r.value, load) by {
        if c in s.cache {
          assert LoadedFrom(s, c, s.cache[c], load);
        }
      }
      assert LoadedFrom(s', c, r.value, load);
    }
    forall d | d in s'.cache ensures LoadedFrom(s', d, s'.cache[d], load) {
      assert d == c || LoadedFrom(s, d, s.cache[d], load);
    }
  }

  lemma ServedGrows(s: State, s': State, loaders: Loaders)
    requires Faithful(loaders) && Later(s, s') && ServedOk(s, loaders)
    requires forall x | x in s'.served && x !in s.served ::
      x.publicKey == s.publicKey && LoadedFrom(s', KeyOf(x.model.key, x.model.entry), x.model, loaders(s.publicKey))
    ensures ServedOk(s', loaders)
  {
    forall x | x in s'.served ensures LoadedFrom(s', KeyOf(x.model.key, x.model.entry), x.model, loaders(x.publicKey)) {
      if x in s.served {
        assert Local(loaders(x.publicKey));
        LoadedStays(s, s', KeyOf(x.model.key, x.model.entry), x.model, loaders(x.publicKey));
      }
    }
  }

  lemma StepCaches(s: State, l: Label, s': State, loaders: Loaders, crypto: Crypto)
    requires Faithful(loaders) && CacheOk(s, loaders) && Later(s, s') && IsStep(s, l, s', loaders, crypto)
    ensures CacheOk(s', loaders)
  {
    assert Local(loaders(s.publicKey)) && Honest(loaders(s.publicKey));
    if l.Resolve? {
      ResolveKeeps(s, s', l.key, loaders(s.publicKey));
      ServedGrows(s, s', loaders);
    } else {
      OthersServeNothing(s, l, s', loaders, crypto);
      ServedStays(s, s', loaders);
      if s'.cache != map[] {
        CachedStays(s, s', loaders(s.publicKey));
      }
    }
  }

  lemma OthersServeNothing(s: State, l: Label, s': State, loaders: Loaders, crypto: Crypto)
    requires IsStep(s, l, s', loaders, crypto) && !l.Resolve?
    ensures s'.served == s.served && (s'.cache == map[] || (s'.cache == s.cache && s'.publicKey == s.publicKey))
  {
  }

  lemma {:induction false} RunCaches(run: seq<State>, loaders: Loaders, crypto: Crypto, i: nat)
    requires IsRun(run, loaders, crypto) && i < |run| && Faithful(loaders)
    ensures CacheOk(run[i], loaders)
  {
    if i > 0 {
      RunCaches(run, loaders, crypto, i - 1);
      RunKeeps(run, loaders, crypto, i - 1);
      assert StepAt(run, i - 1, loaders, crypto);
      var l :| IsStep(run[i - 1], l, run[i], loaders, crypto);
      NextKeeps(run[i - 1], l, run[i], loaders, crypto);
      StepCaches(run[i - 1], l, run[i], loaders, crypto);
    }
  }

  /** Two rows with one location, digest and version are one row. */
  lemma OneRowPerLocation(s: State, a: ModelKey, b: ModelKey, crypto: Crypto)
    requires RegistryOk(s, crypto) && a in s.tables.registry && b in s.tables.registry
    requires KeyOf(a, s.tables.registry[a]) == KeyOf(b, s.tables.registry[b])
    ensures a == b
  {
    assert EntryOk(s, a, s.tables.registry[a], crypto) && EntryOk(s, b, s.tables.registry[b], crypto);
    StemDeterminesName(a.name, b.name, a.version, s.tables.registry[a].artifactDigest);
  }

  /** In every state of every run, whatever public keys the service was started with, resolving a row through
      the cache gives exactly what resolving it with an empty cache would: the same model after the same checks
      under the key in force, or the same error. */
  lemma CachedIsFresh(run: seq<State>, crypto: Crypto, loaders: Loaders, i: nat, key: ModelKey, load: Loader)
    requires loaders == LoadersFor(crypto) && IsRun(run, loaders, crypto) && i < |run| && key in run[i].tables.registry
    requires load == loaders(run[i].publicKey)
    ensures var s := run[i];
      Resolved(s.cache, s.blobs, key, s.tables.registry[key], load).1
      == Resolved(map[], s.blobs, key, s.tables.registry[key], load).1
  {
    LoadersAreFaithful(crypto);
    RunKeeps(run, loaders, crypto, i);
    RunCaches(run, loaders, crypto, i);
    HitIsLoad(run[i], key, load, crypto);
  }

  lemma HitIsLoad(s: State, key: ModelKey, load: Loader, crypto: Crypto)
    requires RegistryOk(s, crypto) && CachedOk(s, load) && key in s.tables.registry
    ensures Resolved(s.cache, s.blobs, key, s.tables.registry[key], load).1 == Resolved(map[], s.blobs, key, s.tables.registry[key], load).1
  {
    var c := KeyOf(key, s.tables.registry[key]);
    if c in s.cache {
      assert LoadedFrom(s, c, s.cache[c], load);
      OneRowPerLocation(s, key, s.cache[c].key, crypto);
    }
  }

  // ---- promotion ----

  predicate Promoted(t: Tables, key: ModelKey) {
    exists a | a in t.assignments :: a.key == key
  }

  ghost predicate ServedPromoted(s: State) {
    forall x | x in s.served :: Promoted(s.tables, x.model.key)
  }

  lemma PromotedStays(t: Tables, t': Tables, key: ModelKey)
    requires t.assignments <= t'.assignments && Promoted(t, key)
    ensures Promoted(t', key)
  {
    var a :| a in t.assignments && a.key == key;
    assert a in t'.assignments;
  }

  /** A resolution answers with the very row it was asked for, from the cache or not. */
  lemma ResolvedIsAsked(s: State, key: ModelKey, load: Loader, crypto: Crypto)
    requires RegistryOk(s, crypto) && CachedOk(s, load) && Honest(load) && key in s.tables.registry
    ensures var r := Resolved(s.cache, s.blobs, key, s.tables.registry[key], load).1;
      r.Ok? ==> r.value.key == key
  {
    var c := KeyOf(key, s.tables.registry[key]);
    if c in s.cache {
      assert LoadedFrom(s, c, s.cache[c], load);
      OneRowPerLocation(s, key, s.cache[c].key, crypto);
    }
  }

  lemma AssignmentsGrow(s: State, l: Label, s': State, loaders: Loaders, crypto: Crypto)
    requires IsStep(s, l, s', loaders, crypto)
    ensures s.tables.assignments <= s'.tables.assignments
  {
    if l.Register? {
      RegistrationOutcome(s.tables, s.blobs, l.req, l.card, l.signing, crypto);
      SameRuns(s.tables, s.blobs, l.req, l.signing, crypto, OutcomeOf(s.tables, s.blobs, l.req, l.card, l.signing, crypto));
    }
  }

  lemma StepPromotes(s: State, l: Label, s': State, loaders: Loaders, crypto: Crypto)
    requires RegistryOk(s, crypto) && CachedOk(s, loaders(s.publicKey)) && Honest(loaders(s.publicKey))
    requires ServedPromoted(s) && IsStep(s, l, s', loaders, crypto)
    ensures ServedPromoted(s')
  {
    AssignmentsGrow(s, l, s', loaders, crypto);
    if l.Resolve? {
      ResolvedIsAsked(s, l.key, loaders(s.publicKey), crypto);
      var a :| IsLatest(s.tables, l.name, l.stage, a) && a.key == l.key;
      assert Promoted(s.tables, l.key);
    } else {
      OthersServeNothing(s, l, s', loaders, crypto);
    }
    forall x | x in s'.served ensures Promoted(s'.tables, x.model.key) {
      PromotedStays(s.tables, s'.tables, x.model.key);
    }
  }

  lemma NextPromotes(s: State, s': State, loaders: Loaders, crypto: Crypto)
    requires RegistryOk(s, crypto) && CacheOk(s, loaders) && Faithful(loaders)
    requires ServedPromoted(s) && Next(s, s', loaders, crypto)
    ensures ServedPromoted(s')
  {
    var l :| IsStep(s, l, s', loaders, crypto);
    assert Honest(loaders(s.publicKey));
    StepPromotes(s, l, s', loaders, crypto);
  }

  lemma RunStepPromotes(run: seq<State>, loaders: Loaders, crypto: Crypto, i: nat)
    requires IsRun(run, loaders, crypto) && 1 <= i < |run| && Faithful(loaders) && ServedPromoted(run[i - 1])
    ensures ServedPromoted(run[i])
  {
    RunIsSound(run, loaders, crypto, i - 1);
    assert StepAt(run, i - 1, loaders, crypto);
    NextPromotes(run[i - 1], run[i], loaders, crypto);
  }

  lemma RunIsSound(run: seq<State>, loaders: Loaders, crypto: Crypto, i: nat)
    requires IsRun(run, loaders, crypto) && i < |run| && Faithful(loaders)
    ensures RegistryOk(run[i], crypto) && CacheOk(run[i], loaders)
  {
    RunKeeps(run, loaders, crypto, i);
    RunCaches(run, loaders, crypto, i);
  }

  lemma {:induction false} RunPromotes(run: seq<State>, loaders: Loaders, crypto: Crypto, i: nat)
    requires IsRun(run, loaders, crypto) && i < |run| && Faithful(loaders)
    ensures ServedPromoted(run[i])
  {
    if i > 0 {
      RunPromotes(run, loaders, crypto, i - 1);
      RunStepPromotes(run, loaders, crypto, i);
    }
  }

  /** A promotion later than every earlier one of its name and stage makes its version the active one, and the
      only one. */
  lemma PromotionActivates(t: Tables, a: Assignment, key: ModelKey)
    requires a.key in t.registry
    requires forall b | b in t.assignments && b.key.name == a.key.name && b.stage == a.stage :: b.promotedAt < a.promotedAt
    ensures IsActive(t.(assignments := t.assignments + [a]), a.key.name, a.stage, Some(key)) <==> key == a.key
    ensures !IsActive(t.(assignments := t.assignments + [a]), a.key.name, a.stage, None)
  {
    var t' := t.(assignments := t.assignments + [a]);
    assert t'.assignments[|t.assignments|] == a;
    assert a in t'.assignments;
    assert IsLatest(t', a.key.name, a.stage, a);
    if b :| IsLatest(t', a.key.name, a.stage, b) && b.key == key {
      assert b == a || b in t.assignments;
    }
  }

  // ---- provenance ----

  /** A model's row is in the registry and approved; its package without the signature is its run's training
      artifact with only schema and version replaced; the signature verifies; and it bears its run's name. */
  ghost predicate Provenance(s: State, m: ActiveModel, publicKey: Option<string>, crypto: Crypto) {
    && m.key in s.tables.registry && m.entry == s.tables.registry[m.key]
    && Approved(s, m.entry) && Packaged(s, m.key, m.entry, crypto)
    && m.package - {Signature} == Unsigned(s.trained[m.entry.runId], m.key.version)
    && (forall f | f in s.trained[m.entry.runId] && f != SchemaVersion ::
          f in m.package && m.package[f] == s.trained[m.entry.runId][f])
    && publicKey.Some? && crypto.verify(publicKey.value, m.entry.signature.value, PackageText(m.package - {Signature}))
    && s.tables.runs[m.entry.runId].modelName == m.key.name
  }

  /** Dropping the signature gives back what was signed; the members of the artifact are untouched. */
  lemma UnsignedAgain(artifact: Package, version: string, signature: SignatureBlock)
    requires ModelVersion !in artifact && Signature !in artifact
    ensures var p := SignedPackage(Unsigned(artifact, version), signature);
      && p - {Signature} == Unsigned(artifact, version)
      && (forall f | f in artifact && f != SchemaVersion :: f in p && p[f] == artifact[f])
  {
  }

  lemma TrainedMembers(artifact: Package, run: Run)
    requires IsTrained(artifact, run)
    ensures ModelVersion !in artifact && Signature !in artifact && BODY <= artifact.Keys && ModelName in artifact
    ensures artifact[ModelName] == Str(run.modelName)
  {
  }

  lemma LoadedPackage(blobs: Blobs, m: ActiveModel, artifact: Package, privateKey: string, publicKey: Option<string>,
                      crypto: Crypto)
    requires SignedFrom(blobs, m.key, m.entry, artifact, privateKey, crypto)
    requires Loaded(blobs, m.key, m.entry, publicKey, crypto) == Ok(m)
    ensures m.package == SignedPackage(Unsigned(artifact, m.key.version), m.entry.signature)
    ensures PackageOk(m.package) && Complaint(m.package, m.key, m.entry, publicKey, crypto).None?
  {
  }

  lemma NoComplaint(p: Package, key: ModelKey, entry: Entry, publicKey: Option<string>, crypto: Crypto)
    requires PackageOk(p) && Complaint(p, key, entry, publicKey, crypto).None?
    ensures p[ModelName] == Str(key.name) && publicKey.Some?
    ensures crypto.verify(publicKey.value, entry.signature.value, PackageText(p - {Signature}))
  {
  }

  lemma LoadedIsProven(s: State, m: ActiveModel, publicKey: Option<string>, crypto: Crypto)
    requires EntryOk(s, m.key, m.entry, crypto) && m.key in s.tables.registry && m.entry == s.tables.registry[m.key]
    requires IsTrained(s.trained[m.entry.runId], s.tables.runs[m.entry.runId])
    requires Loaded(s.blobs, m.key, m.entry, publicKey, crypto) == Ok(m)
    ensures Provenance(s, m, publicKey, crypto)
  {
    var artifact := s.trained[m.entry.runId];
    TrainedMembers(artifact, s.tables.runs[m.entry.runId]);
    UnsignedAgain(artifact, m.key.version, m.entry.signature);
    LoadedPackage(s.blobs, m, artifact, s.signers[m.key], publicKey, crypto);
    NoComplaint(m.package, m.key, m.entry, publicKey, crypto);
  }

  /** Every model ever served, from the cache or not, whatever keys the service was started with, was promoted
      and has its provenance, verified under the public key it was served with. */
  lemma ServedIsProven(run: seq<State>, crypto: Crypto, i: nat, x: Served)
    requires IsRun(run, LoadersFor(crypto), crypto) && i < |run| && x in run[i].served
    ensures Provenance(run[i], x.model, x.publicKey, crypto) && Promoted(run[i].tables, x.model.key)
  {
    var loaders, m := LoadersFor(crypto), x.model;
    LoadersAreFaithful(crypto);
    RunKeeps(run, loaders, crypto, i);
    RunTrains(run, loaders, crypto, i);
    RunCaches(run, loaders, crypto, i);
    RunPromotes(run, loaders, crypto, i);
    ServedLoaded(run[i], x, crypto);
    assert EntryOk(run[i], m.key, m.entry, crypto);
    LoadedIsProven(run[i], m, x.publicKey, crypto);
  }

  lemma ServedLoaded(s: State, x: Served, crypto: Crypto)
    requires ServedOk(s, LoadersFor(crypto)) && x in s.served
    ensures x.model.key in s.tables.registry && x.model.entry == s.tables.registry[x.model.key]
    ensures Loaded(s.blobs, x.model.key, x.model.entry, x.publicKey, crypto) == Ok(x.model)
  {
    assert LoadedFrom(s, KeyOf(x.model.key, x.model.entry), x.model, LoadersFor(crypto)(x.publicKey));
  }

  // ---- which registered versions can be served ----

  lemma SignatureReadBack(p: Package, s: SignatureBlock)
    requires Signature in p && p[Signature] == SignatureJson(s)
    requires !Blank(s.schemaVersion) && !Blank(s.algorithm) && !Blank(s.keyId) && !Blank(s.value)
    ensures TextMembers(p[Signature]) && LoadSignature(p) == Some(s)
  {
  }

  lemma NotBlank(s: string)
    requires s != "" && !IsSpace(s[0])
    ensures !Blank(s)
  {
  }

  lemma BodyStays(a: Package, p: Package)
    requires BodyOk(a) && forall f | f in BODY :: f in a && f in p && p[f] == a[f]
    ensures BodyOk(p)
  {
  }

  lemma PackageIsValid(artifact: Package, run: Run, version: string, s: SignatureBlock)
    requires IsTrained(artifact, run) && |version| >= 3 && TextMembers(SignatureJson(s))
    ensures PackageOk(SignedPackage(Unsigned(artifact, version), s))
  {
    var p := SignedPackage(Unsigned(artifact, version), s);
    TrainedMembers(artifact, run);
    UnsignedAgain(artifact, version, s);
    BodyStays(artifact, p);
    assert p.Keys == BODY + {SchemaVersion, ModelVersion, Signature};
  }

  /** The members the checks compare, in the stored package of a version. */
  lemma StoredMembers(artifact: Package, run: Run, version: string, s: SignatureBlock)
    requires IsTrained(artifact, run)
    ensures var p := SignedPackage(Unsigned(artifact, version), s);
      && BODY <= p.Keys && TrainedFor(p, run) && ModelVersion in p && p[ModelVersion] == Str(version)
      && Signature in p && p[Signature] == SignatureJson(s) && p - {Signature} == Unsigned(artifact, version)
  {
    TrainedMembers(artifact, run);
    UnsignedAgain(artifact, version, s);
  }

  lemma ComplaintIff(p: Package, unsigned: Package, run: Run, key: ModelKey, entry: Entry, privateKey: string,
                     publicKey: Option<string>, crypto: Crypto)
    requires crypto.Ideal() && !Blank(key.version) && PackageOk(p)
    requires TrainedFor(p, run) && RowOf(run, entry) && p[ModelVersion] == Str(key.version)
    requires LoadSignature(p) == Some(entry.signature)
    requires p - {Signature} == unsigned && entry.signature == Sign(crypto, unsigned, privateKey, entry.signature.keyId)
    ensures Complaint(p, key, entry, publicKey, crypto).None? <==>
      run.modelName == key.name && publicKey == Some(crypto.publicOf(privateKey))
  {
  }

  lemma EntryServable(s: State, key: ModelKey, entry: Entry, publicKey: Option<string>, crypto: Crypto)
    requires crypto.Ideal() && EntryOk(s, key, entry, crypto)
    requires IsTrained(s.trained[entry.runId], s.tables.runs[entry.runId])
    ensures Loaded(s.blobs, key, entry, publicKey, crypto).Ok? <==>
      s.tables.runs[entry.runId].modelName == key.name && publicKey == Some(crypto.publicOf(s.signers[key]))
  {
    var artifact, run := s.trained[entry.runId], s.tables.runs[entry.runId];
    var p := SignedPackage(Unsigned(artifact, key.version), entry.signature);
    NotBlank(SIGNATURE_SCHEMA);
    NotBlank(SIGNATURE_ALGORITHM);
    StoredMembers(artifact, run, key.version, entry.signature);
    SignatureReadBack(p, entry.signature);
    PackageIsValid(artifact, run, key.version, entry.signature);
    ComplaintIff(p, Unsigned(artifact, key.version), run, key, entry, s.signers[key], publicKey, crypto);
    LoadedIff(s.blobs, key, entry, p, publicKey, crypto);
  }

  /** A registered version loads exactly when it was registered under its run's model name and the scoring
      service holds the public key of the key that signed it. Registration checks neither. */
  lemma ServableIff(run: seq<State>, publicKey: Option<string>, crypto: Crypto, i: nat, key: ModelKey)
    requires IsRun(run, LoadersFor(crypto), crypto) && i < |run| && key in run[i].tables.registry && crypto.Ideal()
    ensures var s := run[i];
      var entry := s.tables.registry[key];
      && entry.runId in s.tables.runs && key in s.signers
      && (Loaded(s.blobs, key, entry, publicKey, crypto).Ok? <==>
            s.tables.runs[entry.runId].modelName == key.name && publicKey == Some(crypto.publicOf(s.signers[key])))
  {
    RunKeeps(run, LoadersFor(crypto), crypto, i);
    RunTrains(run, LoadersFor(crypto), crypto, i);
    assert EntryOk(run[i], key, run[i].tables.registry[key], crypto);
    EntryServable(run[i], key, run[i].tables.registry[key], publicKey, crypto);
  }

  lemma LoadedIff(blobs: Blobs, key: ModelKey, entry: Entry, p: Package, publicKey: Option<string>, crypto: Crypto)
    requires StoredAt(blobs, key, entry, PackageText(p), crypto) && PackageOk(p) && RowComplete(key, entry)
    ensures Loaded(blobs, key, entry, publicKey, crypto).Ok? <==> Complaint(p, key, entry, publicKey, crypto).None?
  {
  }
}
