/** When a registration succeeds, what a failed one leaves behind, when it can be repeated, and when two
    versions share the location of their model cards (mlops_service routes.py and lifecycle.py). */
module Registration {
  import opened Base
  import opened Json
  import opened Artifacts
  import opened ModelRegistry

  // ---- when a registration succeeds ----

  function CardUri(req: Request): Uri {
    Uri(CARDS_DIR, CardStem(req))
  }

  /** A write-once location takes the bytes: it holds nothing, or these. */
  predicate Takes(blobs: Blobs, uri: Uri, bytes: Blob) {
    SafeComponent(uri.directory) && SafeComponent(uri.stem) && (uri in blobs ==> blobs[uri] == bytes)
  }

  /** The run's artifact is a package when the card has been stored. */
  predicate Readable(blobs: Blobs, req: Request, card: Blob, uri: Uri) {
    uri in blobs[CardUri(req) := card] && blobs[CardUri(req) := card][uri].PackageText?
  }

  function SignedText(artifact: Package, req: Request, privateKey: string, keyId: string, crypto: Crypto): Blob {
    var unsigned := Unsigned(artifact, req.modelVersion);
    PackageText(SignedPackage(unsigned, Sign(crypto, unsigned, privateKey, keyId)))
  }

  /** The signing key is configured and the run's artifact can be signed into its place. */
  predicate Signable(blobs: Blobs, req: Request, card: Blob, uri: Uri, signing: SigningKey, crypto: Crypto) {
    && signing.privateKey.Some? && !Blank(signing.keyId) && Readable(blobs, req, card, uri)
    && var text := SignedText(blobs[CardUri(req) := card][uri].package, req, signing.privateKey.value, signing.keyId, crypto);
       Takes(blobs, Uri(REGISTERED_DIR, ArtifactStem(req.modelName, req.modelVersion, crypto.digest(text))), text)
  }

  /** Everything a registration needs besides a place for its card. */
  predicate Ready(t: Tables, blobs: Blobs, req: Request, card: Blob, signing: SigningKey, crypto: Crypto) {
    && Refusal(t, req).None? && SafeComponent(CardStem(req))
    && Signable(blobs, req, card, t.runs[req.runId].artifactUri, signing, crypto)
    && ModelKey(req.modelName, req.modelVersion) !in t.registry
  }

  lemma DirectoriesDiffer()
    ensures SafeComponent(CARDS_DIR) && SafeComponent(REGISTERED_DIR) && CARDS_DIR != REGISTERED_DIR
  {
    assert |CARDS_DIR| != |REGISTERED_DIR|;
  }

  lemma SigningSucceedsIff(blobs: Blobs, req: Request, card: Blob, run: Run, signing: SigningKey, crypto: Crypto)
    requires signing.privateKey.Some?
    ensures SignedArtifact(blobs[CardUri(req) := card], req, run, signing, crypto).1.Ok? <==>
      Signable(blobs, req, card, run.artifactUri, signing, crypto)
  {
    DirectoriesDiffer();
  }

  /** A registration succeeds exactly when no guard refuses it, the card's location is safe and free or holds
      this very card, a private key and a key id are configured, the run's artifact reads as a package, the
      signed package's location is safe and free or holds this very package, and the version is not registered. */
  lemma RegistrationSucceedsIff(t: Tables, blobs: Blobs, req: Request, card: Blob, signing: SigningKey, crypto: Crypto)
    ensures OutcomeOf(t, blobs, req, card, signing, crypto).result.Ok? <==>
      Ready(t, blobs, req, card, signing, crypto) && Takes(blobs, CardUri(req), card)
  {
    DirectoriesDiffer();
    if Refusal(t, req).None? && signing.privateKey.Some? {
      SigningSucceedsIff(blobs, req, card, t.runs[req.runId], signing, crypto);
    }
  }

  /** The first guard that refuses, with its status. */
  function FirstGuard(t: Tables, req: Request): Option<(string, int)> {
    if req.runId !in t.runs then Some(("ML_RUN_NOT_FOUND", 404))
    else if req.evaluationId !in t.evaluations then Some(("ML_EVALUATION_NOT_FOUND", 404))
    else if t.evaluations[req.evaluationId].runId != req.runId then Some(("ML_RUN_EVALUATION_MISMATCH", 400))
    else if req.featureSpecRef != t.runs[req.runId].featureSpecRef then Some(("ML_FEATURE_SPEC_MISMATCH", 400))
    else if req.trainingSpecRef != t.runs[req.runId].trainingSpecRef then Some(("ML_TRAINING_SPEC_MISMATCH", 400))
    else if !t.evaluations[req.evaluationId].passedPolicy then Some(("ML_POLICY_GATE_FAILED", 409))
    else None
  }

  /** What is wrong with signing the artifact, once the card is stored. */
  function FirstOfSigning(carded: Blobs, req: Request, uri: Uri, privateKey: string, keyId: string,
                          crypto: Crypto): Option<(string, int)> {
    if uri !in carded then Some(("ML_ARTIFACT_MISSING", 500))
    else if !carded[uri].PackageText? then Some(("ML_ARTIFACT_INVALID_JSON", 500))
    else if Blank(keyId) then Some(("ML_MODEL_SIGNING_CONFIGURATION_INVALID", 500))
    else
      var text := SignedText(carded[uri].package, req, privateKey, keyId, crypto);
      var stem := ArtifactStem(req.modelName, req.modelVersion, crypto.digest(text));
      if !SafeComponent(stem) then Some(("ML_ARTIFACT_PATH_INVALID", 400))
      else if !Takes(carded, Uri(REGISTERED_DIR, stem), text) then Some(("ML_ARTIFACT_DIGEST_COLLISION", 500))
      else None
  }

  /** The first thing that is wrong with a registration, in the order it is looked at. */
  function FirstWrong(t: Tables, blobs: Blobs, req: Request, card: Blob, signing: SigningKey, crypto: Crypto): Option<(string, int)> {
    if FirstGuard(t, req).Some? || req.runId !in t.runs then FirstGuard(t, req)
    else if !SafeComponent(CardStem(req)) then Some(("ML_ARTIFACT_PATH_INVALID", 400))
    else if !Takes(blobs, CardUri(req), card) then Some(("ML_ARTIFACT_DIGEST_COLLISION", 500))
    else if signing.privateKey.None? then Some(("ML_MODEL_SIGNING_PRIVATE_KEY_MISSING", 500))
    else
      var wrong := FirstOfSigning(blobs[CardUri(req) := card], req, t.runs[req.runId].artifactUri, signing.privateKey.value,
                                  signing.keyId, crypto);
      if wrong.Some? then wrong
      else if ModelKey(req.modelName, req.modelVersion) in t.registry then Some(("MODEL_VERSION_ALREADY_EXISTS", 409))
      else None
  }

  predicate Answers<T>(r: Result<T>, wrong: Option<(string, int)>) {
    if wrong.None? then r.Ok? else r.Err? && r.error.code == wrong.value.0 && r.error.statusCode == wrong.value.1
  }

  lemma SigningAnswers(carded: Blobs, req: Request, run: Run, signing: SigningKey, crypto: Crypto)
    requires signing.privateKey.Some?
    ensures Answers(SignedArtifact(carded, req, run, signing, crypto).1,
                    FirstOfSigning(carded, req, run.artifactUri, signing.privateKey.value, signing.keyId, crypto))
  {
    DirectoriesDiffer();
  }

  lemma GuardAnswers(t: Tables, req: Request)
    ensures match Refusal(t, req)
      case None => FirstGuard(t, req).None? && req.runId in t.runs
      case Some(error) => FirstGuard(t, req) == Some((error.code, error.statusCode))
  {
  }

  /** A registration succeeds when nothing is wrong, and else answers with the first thing that is. */
  lemma RegistrationAnswers(t: Tables, blobs: Blobs, req: Request, card: Blob, signing: SigningKey, crypto: Crypto)
    ensures Answers(OutcomeOf(t, blobs, req, card, signing, crypto).result, FirstWrong(t, blobs, req, card, signing, crypto))
  {
    DirectoriesDiffer();
    GuardAnswers(t, req);
    if Refusal(t, req).None? && signing.privateKey.Some? {
      SigningAnswers(blobs[CardUri(req) := card], req, t.runs[req.runId], signing, crypto);
    }
  }

  // ---- what a failure leaves behind ----

  /** A registration whose card's location was free leaves it free exactly when a guard refused it or the
      location is not safe; otherwise the location holds its card. */
  lemma CardStaysIff(t: Tables, blobs: Blobs, req: Request, card: Blob, signing: SigningKey, crypto: Crypto)
    requires CardUri(req) !in blobs
    ensures var blobs' := OutcomeOf(t, blobs, req, card, signing, crypto).blobs;
      && (CardUri(req) !in blobs' <==> Refusal(t, req).Some? || !SafeComponent(CardStem(req)))
      && (CardUri(req) in blobs' ==> blobs'[CardUri(req)] == card)
  {
    DirectoriesDiffer();
    RegistrationOutcome(t, blobs, req, card, signing, crypto);
    if Refusal(t, req).None? && SafeComponent(CardStem(req)) {
      var blobs1 := Written(blobs, CARDS_DIR, CardStem(req), card, false).0;
      if signing.privateKey.Some? {
        SigningOutcome(blobs1, req, t.runs[req.runId], signing, crypto);
      }
    }
  }

  /** A version whose registration failed can be registered with a new card exactly when the first attempt was
      refused by a guard and the second has everything it needs; the card carries the time it was made, so a
      new attempt has a new card. Nobody else writes the card's location in between. */
  lemma RetryIff(t: Tables, blobs: Blobs, req: Request, card: Blob, signing: SigningKey, t2: Tables, blobs2: Blobs,
                 card2: Blob, signing2: SigningKey, crypto: Crypto)
    requires CardUri(req) !in blobs && card2 != card
    requires var o := OutcomeOf(t, blobs, req, card, signing, crypto);
      && o.result.Err? && Extends(o.blobs, blobs2)
      && (CardUri(req) in blobs2 ==> CardUri(req) in o.blobs)
    ensures OutcomeOf(t2, blobs2, req, card2, signing2, crypto).result.Ok? <==>
      Refusal(t, req).Some? && Ready(t2, blobs2, req, card2, signing2, crypto)
  {
    DirectoriesDiffer();
    CardStaysIff(t, blobs, req, card, signing, crypto);
    RegistrationSucceedsIff(t2, blobs2, req, card2, signing2, crypto);
  }

  // ---- the names of a request ----

  predicate ComponentStart(c: char) {
    'a' <= c <= 'z' || '0' <= c <= '9'
  }

  predicate ComponentChar(c: char) {
    ComponentStart(c) || c == '.' || c == '_' || c == '-'
  }

  /** The pattern of model names and versions: 3 to 64 characters, the first a letter or a digit. */
  predicate ModelComponent(s: string) {
    3 <= |s| <= 64 && ComponentStart(s[0]) && forall i | 0 <= i < |s| :: ComponentChar(s[i])
  }

  /** A request that passes its schema always has a safe card location. */
  lemma StemIsSafe(name: string, version: string)
    requires ModelComponent(name) && ModelComponent(version)
    ensures SafeComponent(Stem(name, version))
  {
    var stem := Stem(name, version);
    forall i | 0 <= i < |stem| ensures SafeChar(stem[i]) {
      if i < |name| {
        assert stem[i] == name[i];
      } else if i >= |name| + 2 {
        assert stem[i] == version[i - |name| - 2];
      }
    }
  }

  // ---- when two versions share a card location ----

  /** The stem can also be read as a name and a version parted at p. */
  predicate PartsAt(stem: string, p: nat) {
    && p + 2 <= |stem| && stem[p] == '-' && stem[p + 1] == '-'
    && ModelComponent(stem[..p]) && ModelComponent(stem[p + 2..])
  }

  ghost predicate Shares(name: string, version: string, other: string, otherVersion: string) {
    && ModelComponent(other) && ModelComponent(otherVersion) && (other, otherVersion) != (name, version)
    && Stem(other, otherVersion) == Stem(name, version)
  }

  lemma StemParts(name: string, version: string)
    requires ModelComponent(name) && ModelComponent(version)
    ensures PartsAt(Stem(name, version), |name|)
    ensures Stem(name, version)[..|name|] == name && Stem(name, version)[|name| + 2..] == version
  {
  }

  lemma PartsMakeStem(stem: string, p: nat)
    requires PartsAt(stem, p)
    ensures Stem(stem[..p], stem[p + 2..]) == stem
  {
    assert stem[p..p + 2] == "--";
    assert stem == stem[..p] + stem[p..p + 2] + stem[p + 2..];
  }

  /** Some other version has the card location of this one exactly when the stem can be parted elsewhere into
      a name and a version, which is seen from the request alone. */
  lemma StemSharedIff(name: string, version: string)
    requires ModelComponent(name) && ModelComponent(version)
    ensures (exists other, otherVersion :: Shares(name, version, other, otherVersion)) <==>
      exists p: nat :: p != |name| && PartsAt(Stem(name, version), p)
  {
    var stem := Stem(name, version);
    StemParts(name, version);
    if other, otherVersion :| Shares(name, version, other, otherVersion) {
      StemParts(other, otherVersion);
      assert PartsAt(stem, |other|);
    }
    if p: nat :| p != |name| && PartsAt(stem, p) {
      PartsMakeStem(stem, p);
      assert Shares(name, version, stem[..p], stem[p + 2..]);
    }
  }

  predicate NoDoubleDash(name: string) {
    forall i | 0 <= i < |name| - 1 :: !(name[i] == '-' && name[i + 1] == '-')
  }

  /** A longer name without two dashes in a row makes another stem: it parts from this one within three characters. */
  lemma LongerDiffers(name: string, version: string, other: string, otherVersion: string)
    requires ModelComponent(version) && NoDoubleDash(other) && |name| < |other|
    ensures Stem(name, version) != Stem(other, otherVersion)
  {
    var a, b := Stem(name, version), Stem(other, otherVersion);
    assert a[|name|] == '-' && a[|name| + 1] == '-' && a[|name| + 2] == version[0];
    assert b[|name|] == other[|name|];
    if other[|name|] == '-' {
      if |name| + 1 < |other| {
        assert b[|name| + 1] == other[|name| + 1];
      } else {
        assert b[|name| + 2] == '-';
      }
    }
  }

  /** Names without two dashes in a row never share a card location, whatever their versions. */
  lemma StemInjective(name: string, version: string, other: string, otherVersion: string)
    requires ModelComponent(version) && ModelComponent(otherVersion) && NoDoubleDash(name) && NoDoubleDash(other)
    requires Stem(name, version) == Stem(other, otherVersion)
    ensures name == other && version == otherVersion
  {
    var stem := Stem(name, version);
    if |name| < |other| {
      LongerDiffers(name, version, other, otherVersion);
    } else if |other| < |name| {
      LongerDiffers(other, otherVersion, name, version);
    } else {
      assert stem[..|name|] == name && stem[..|other|] == other;
      assert stem[|name| + 2..] == version && stem[|other| + 2..] == otherVersion;
    }
  }

  /** Two versions of different models that pass the schema and share a card location: registering one blocks
      the other. */
  lemma CardStemsCollide()
    ensures Shares("abc--def", "ghi", "abc", "def--ghi")
    ensures PartsAt(Stem("abc--def", "ghi"), 3)
  {
    assert |"abc--def"| != |"abc"|;
    assert "abc--def" + "--" + "ghi" == "abc" + "--" + "def--ghi";
    StemParts("abc", "def--ghi");
  }
}
