/** Two runs that go wrong: a registration without a signing key that burns its version, and a promoted
    version that no scoring service can load. */
module ServingExamples {
  import opened Base
  import opened Json
  import opened Artifacts
  import opened ModelRegistry
  import opened Registration
  import opened ModelServing
  import opened ServingProofs

  const RUN_ID := Id("run-0001")
  const EVALUATION_ID := Id("eval-001")
  const ARTIFACT_URI := Uri("runs", "r1")
  const GATE := Thresholds(0.5, 0.5)
  const METRICS := TrainingMetrics(0.75, 0.5, 0.5, 0.25)

  const RUN := Run("abc", "0123456789abcdef", 7, "sklearn_logistic_regression", "features", "training", ARTIFACT_URI, "", METRICS)

  const ARTIFACT: Package := TrainingArtifact(RUN, "dataset", map[], map[], map[], 0.0)

  const EVALUATED := ModelRegistry.Evaluation(RUN_ID, METRICS, true, [])

  /** A request to register the run under some name. */
  function RequestFor(name: string): Request {
    Request(name, "v01", RUN_ID, EVALUATION_ID, "features", "training")
  }

  const START := State(Tables(map[], map[], map[], []), map[], map[], None, map[], map[], map[], {})

  const WRITTEN := START.(blobs := map[ARTIFACT_URI := PackageText(ARTIFACT)])

  const TRAINED := Trained(WRITTEN, RUN_ID, RUN, ARTIFACT)

  const PREPARED := TRAINED.(
    tables := Tables(map[RUN_ID := RUN], map[EVALUATION_ID := EVALUATED], map[], []), gates := map[EVALUATION_ID := GATE])

  lemma SafeNames()
    ensures SafeComponent("runs") && SafeComponent("r1")
    ensures ModelComponent("abc") && ModelComponent("xyz") && ModelComponent("v01") && "abc" != "xyz"
  {
    assert "abc"[0] != "xyz"[0];
  }

  lemma ArtifactIsTrained()
    ensures IsTrained(ARTIFACT, RUN)
  {
    NotBlank("features");
    NotBlank("training");
    TrainingWritesTrained(RUN, "dataset", map[], map[], map[], 0.0);
  }

  lemma Longer(run: seq<State>, l: Label, s: State, loaders: Loaders, crypto: Crypto)
    requires IsRun(run, loaders, crypto) && IsStep(run[|run| - 1], l, s, loaders, crypto)
    ensures IsRun(run + [s], loaders, crypto)
  {
    var more := run + [s];
    forall i | 0 <= i < |more| - 1 ensures StepAt(more, i, loaders, crypto) {
      if i < |run| - 1 {
        assert StepAt(run, i, loaders, crypto);
      } else {
        assert IsStep(more[i], l, more[i + 1], loaders, crypto);
      }
    }
  }

  lemma WriteStep(loaders: Loaders, crypto: Crypto)
    ensures IsStep(START, StoreWrite("runs", "r1", PackageText(ARTIFACT)), WRITTEN, loaders, crypto)
  {
    SafeNames();
  }

  lemma TrainingStep(s: State, runId: Id, run: Run, artifact: Package, loaders: Loaders, crypto: Crypto)
    requires runId !in s.tables.runs && IsTrained(artifact, run) && Wrote(s.blobs, run, artifact)
    ensures IsStep(s, Train(runId, run, artifact), Trained(s, runId, run, artifact), loaders, crypto)
  {
  }

  lemma TrainStep(loaders: Loaders, crypto: Crypto)
    ensures IsStep(WRITTEN, Train(RUN_ID, RUN, ARTIFACT), TRAINED, loaders, crypto)
  {
    ArtifactIsTrained();
    TrainingStep(WRITTEN, RUN_ID, RUN, ARTIFACT, loaders, crypto);
  }

  lemma EvaluateStep(loaders: Loaders, crypto: Crypto)
    ensures IsStep(TRAINED, Evaluate(RUN_ID, EVALUATION_ID, GATE), PREPARED, loaders, crypto)
  {
    assert PolicyFailures(METRICS, GATE) == [];
    assert TRAINED.tables == Tables(map[RUN_ID := RUN], map[], map[], []);
    assert map[][EVALUATION_ID := EVALUATED] == map[EVALUATION_ID := EVALUATED];
    assert map[][EVALUATION_ID := GATE] == map[EVALUATION_ID := GATE];
  }

  /** Written, trained and evaluated. */
  lemma PreparedRun(loaders: Loaders, crypto: Crypto) returns (run: seq<State>)
    ensures IsRun(run, loaders, crypto) && |run| == 4 && run[3] == PREPARED
  {
    WriteStep(loaders, crypto);
    TrainStep(loaders, crypto);
    EvaluateStep(loaders, crypto);
    run := [START];
    Longer(run, StoreWrite("runs", "r1", PackageText(ARTIFACT)), WRITTEN, loaders, crypto);
    run := run + [WRITTEN];
    Longer(run, Train(RUN_ID, RUN, ARTIFACT), TRAINED, loaders, crypto);
    run := run + [TRAINED];
    Longer(run, Evaluate(RUN_ID, EVALUATION_ID, GATE), PREPARED, loaders, crypto);
    run := run + [PREPARED];
  }

  // ---- a request that would succeed ----

  /** Digests are written in letters and digits, sixteen or more. */
  ghost predicate TextDigests(crypto: Crypto) {
    forall text :: |crypto.digest(text)| >= 16 && forall i | 0 <= i < |crypto.digest(text)| :: Alphanumeric(crypto.digest(text)[i])
  }

  lemma PackageStemIsSafe(name: string, version: string, text: Blob, crypto: Crypto)
    requires ModelComponent(name) && ModelComponent(version) && TextDigests(crypto)
    ensures SafeComponent(ArtifactStem(name, version, crypto.digest(text)))
  {
    StemIsSafe(name, version);
    var head, tail := Stem(name, version), "--" + Prefix16(crypto.digest(text));
    var stem := ArtifactStem(name, version, crypto.digest(text));
    assert stem == head + tail;
    forall i | 0 <= i < |stem| ensures SafeChar(stem[i]) {
      if i < |head| {
        assert stem[i] == head[i];
      } else if i >= |head| + 2 {
        assert stem[i] == crypto.digest(text)[i - |head| - 2];
      }
    }
  }

  lemma CardIsElsewhere(req: Request)
    ensures CardUri(req) != ARTIFACT_URI && CardUri(req).directory != REGISTERED_DIR
  {
    DirectoriesDiffer();
    assert |CARDS_DIR| != |"runs"|;
  }

  /** With a signing key, the prepared run can be registered under any name. */
  lemma PreparedIsReady(name: string, card: Blob, privateKey: string, keyId: string, crypto: Crypto)
    requires ModelComponent(name) && !Blank(keyId) && TextDigests(crypto)
    ensures var s := PREPARED;
      Ready(s.tables, s.blobs, RequestFor(name), card, SigningKey(Some(privateKey), keyId), crypto)
      && Takes(s.blobs, CardUri(RequestFor(name)), card)
  {
    var req := RequestFor(name);
    SafeNames();
    DirectoriesDiffer();
    CardIsElsewhere(req);
    StemIsSafe(name, "v01");
    var text := SignedText(ARTIFACT, req, privateKey, keyId, crypto);
    PackageStemIsSafe(name, "v01", text, crypto);
    assert Refusal(PREPARED.tables, req).None?;
    assert |REGISTERED_DIR| != |"runs"|;
  }

  // ---- a missing key burns a version ----

  function AfterFailure(card: Blob): State {
    PREPARED.(blobs := PREPARED.blobs[CardUri(RequestFor("abc")) := card])
  }

  lemma WithoutKeyFails(card: Blob, keyId: string, loaders: Loaders, crypto: Crypto)
    ensures var o := OutcomeOf(PREPARED.tables, PREPARED.blobs, RequestFor("abc"), card, SigningKey(None, keyId), crypto);
      o.result == Err(PRIVATE_KEY_MISSING) && o.tables == PREPARED.tables && o.blobs == AfterFailure(card).blobs
  {
    SafeNames();
    DirectoriesDiffer();
    CardIsElsewhere(RequestFor("abc"));
    StemIsSafe("abc", "v01");
  }

  lemma RequestIsOk(name: string)
    requires ModelComponent(name)
    ensures RequestOk(RequestFor(name))
  {
    NotBlank("v01");
    NotBlank(name);
  }

  /** No registration of the version with another card than this succeeds, whatever key it brings. */
  ghost predicate Burnt(s: State, req: Request, card: Blob, crypto: Crypto) {
    forall card2, signing | card2 != card :: OutcomeOf(s.tables, s.blobs, req, card2, signing, crypto).result.Err?
  }

  /** A run in which a registration is tried without a private key. With the key it would have succeeded; after
      it the version is burnt, in every continuation of the run. */
  lemma MissingKeyBurns(card: Blob, privateKey: string, keyId: string, loaders: Loaders, crypto: Crypto) returns (run: seq<State>)
    requires !Blank(keyId) && TextDigests(crypto)
    ensures IsRun(run, loaders, crypto) && |run| == 5
    ensures run[4] == Apply(run[3], Register(RequestFor("abc"), card, SigningKey(None, keyId)), loaders, crypto)
    ensures OutcomeOf(run[3].tables, run[3].blobs, RequestFor("abc"), card, SigningKey(Some(privateKey), keyId), crypto).result.Ok?
    ensures forall more: seq<State>, j | IsRun(more, loaders, crypto) && run <= more && 4 <= j < |more| ::
      Burnt(more[j], RequestFor("abc"), card, crypto)
  {
    var req, signing := RequestFor("abc"), SigningKey(None, keyId);
    run := PreparedRun(loaders, crypto);
    SafeNames();
    PreparedIsReady("abc", card, privateKey, keyId, crypto);
    RegistrationSucceedsIff(PREPARED.tables, PREPARED.blobs, req, card, SigningKey(Some(privateKey), keyId), crypto);
    WithoutKeyFails(card, keyId, loaders, crypto);
    RequestIsOk("abc");
    var s := Apply(PREPARED, Register(req, card, signing), loaders, crypto);
    assert CardUri(req) in s.blobs && s.blobs[CardUri(req)] == card;
    assert IsStep(PREPARED, Register(req, card, signing), s, loaders, crypto);
    Longer(run, Register(req, card, signing), s, loaders, crypto);
    run := run + [s];
    forall more: seq<State>, j | IsRun(more, loaders, crypto) && run <= more && 4 <= j < |more|
      ensures Burnt(more[j], req, card, crypto)
    {
      forall card2, signing2 | card2 != card
        ensures OutcomeOf(more[j].tables, more[j].blobs, req, card2, signing2, crypto).result.Err?
      {
        VersionStaysBurnt(more, loaders, crypto, 4, j, req, card2, signing2);
      }
    }
  }

  // ---- a promoted version that does not load ----

  const KEY := ModelKey("xyz", "v01")

  lemma OtherName(card: Blob, privateKey: string, keyId: string, loaders: Loaders, crypto: Crypto) returns (s: State)
    requires !Blank(keyId) && TextDigests(crypto)
    ensures IsStep(PREPARED, Register(RequestFor("xyz"), card, SigningKey(Some(privateKey), keyId)), s, loaders, crypto)
    ensures KEY in s.tables.registry && s.tables.registry[KEY].runId == RUN_ID
    ensures RUN_ID in s.tables.runs && s.tables.runs[RUN_ID] == RUN && s.tables.assignments == []
  {
    var req, signing := RequestFor("xyz"), SigningKey(Some(privateKey), keyId);
    SafeNames();
    PreparedIsReady("xyz", card, privateKey, keyId, crypto);
    RegistrationSucceedsIff(PREPARED.tables, PREPARED.blobs, req, card, signing, crypto);
    RequestIsOk("xyz");
    RegistrationOutcome(PREPARED.tables, PREPARED.blobs, req, card, signing, crypto);
    var o := OutcomeOf(PREPARED.tables, PREPARED.blobs, req, card, signing, crypto);
    s := AfterRegister(PREPARED, req, signing, o);
    var entry, artifact :| Adds(PREPARED.tables, req, signing, crypto, o, entry, artifact);
  }

  /** A run that registers a run's artifact under another model's name and promotes it: it is the active row of
      that name, and no public key makes it load. */
  lemma PromotedDoesNotLoad(card: Blob, privateKey: string, keyId: string, crypto: Crypto)
    returns (run: seq<State>)
    requires !Blank(keyId) && TextDigests(crypto) && crypto.Ideal()
    ensures IsRun(run, LoadersFor(crypto), crypto) && |run| == 6
    ensures IsActive(run[5].tables, "xyz", "production", Some(KEY)) && KEY in run[5].tables.registry
    ensures forall publicKey :: Loaded(run[5].blobs, KEY, run[5].tables.registry[KEY], publicKey, crypto).Err?
  {
    var loaders := LoadersFor(crypto);
    run := PreparedRun(loaders, crypto);
    var s := OtherName(card, privateKey, keyId, loaders, crypto);
    Longer(run, Register(RequestFor("xyz"), card, SigningKey(Some(privateKey), keyId)), s, loaders, crypto);
    run := run + [s];
    var l := Promote(KEY, "production", "ticket", Id("event"), 0);
    var s' := Apply(s, l, loaders, crypto);
    assert IsStep(s, l, s', loaders, crypto);
    Longer(run, l, s', loaders, crypto);
    run := run + [s'];
    PromotedIsActive(s, s', loaders, crypto);
    forall publicKey ensures Loaded(run[5].blobs, KEY, run[5].tables.registry[KEY], publicKey, crypto).Err? {
      NeverLoads(run, publicKey, crypto);
    }
  }

  lemma PromotedIsActive(s: State, s': State, loaders: Loaders, crypto: Crypto)
    requires s.tables.assignments == [] && KEY in s.tables.registry
    requires s' == Apply(s, Promote(KEY, "production", "ticket", Id("event"), 0), loaders, crypto)
    ensures IsActive(s'.tables, "xyz", "production", Some(KEY))
  {
    var a := Assignment(Id("event"), KEY, "production", "ticket", 0);
    assert s'.tables.assignments == [a];
    assert IsLatest(s'.tables, "xyz", "production", a);
  }

  lemma NeverLoads(run: seq<State>, publicKey: Option<string>, crypto: Crypto)
    requires IsRun(run, LoadersFor(crypto), crypto) && |run| == 6 && crypto.Ideal() && KEY in run[5].tables.registry
    requires run[5].tables.registry[KEY].runId == RUN_ID && RUN_ID in run[5].tables.runs && run[5].tables.runs[RUN_ID] == RUN
    ensures Loaded(run[5].blobs, KEY, run[5].tables.registry[KEY], publicKey, crypto).Err?
  {
    ServableIff(run, publicKey, crypto, 5, KEY);
    SafeNames();
  }
}
