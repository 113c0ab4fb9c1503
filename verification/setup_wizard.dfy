/** The five-step setup wizard: environment check, OAuth2 keys, first
    consumer, CORS, summary. Each page build records what the next "forward"
    needs in the form state; "forward" performs the current step's work and
    advances only when it succeeds; "back" steps back unconditionally. */
module SetupWizard {

  import opened Text
  import opened Configuration
  import OAuthKeys
  import opened Consumers
  import SettingsForm
  import CreateConsumerForm

  const FIRST_STEP := 1
  const LAST_STEP := 5
  const NEXT_LABEL := "Next"
  const COMPLETE_LABEL := "Complete Setup"

  /** The wizard's form state: the step (unset before the first build),
      the environment verdict of step 1, whether step 2 found keys, and the
      credentials step 3 created. An unset flag reads as FALSE. */
  datatype FormState = FormState(
    step: Option<int>,
    environmentOk: bool,
    keysExist: bool,
    credentials: Option<CreateConsumerForm.Credentials>)

  /** The form state of a new session. */
  const FRESH := FormState(None, false, false, None)

  /** What step 1 inspects besides the private directory: the installed
      modules and whether OpenSSL's key generation is available. */
  datatype Environment = Environment(installed: set<String>, opensslAvailable: bool)

  /** The three settings step 4 writes. */
  datatype CorsConfig = CorsConfig(enabled: bool, allowedOrigins: String, rateLimiting: bool)

  /** What the wizard changes outside the form: the key files, the
      consumers, their secrets, and the CORS settings. */
  datatype World = World(
    keys: OAuthKeys.KeyEnv,
    consumers: ConsumerStore,
    secrets: map<String, String>,
    cors: CorsConfig)

  /** The values submitted with "forward". */
  datatype Values = Values(
    regenerate: bool,
    consumerName: String,
    consumerDescription: String,
    framework: Option<String>,
    enableCors: bool,
    corsOrigins: Option<String>,
    enableRateLimiting: bool)

  /** The navigation buttons: "back", "forward" with its label, "finish". */
  datatype Nav = Nav(back: bool, next: Option<String>, finish: bool)

  /** A built page: the form state it leaves, the progress bar width in
      percent, and the buttons. */
  datatype Page = Page(state: FormState, progress: int, nav: Nav)

  /** The progress bar: a fifth of the way per step. */
  function ProgressWidth(step: int): (w: int) {
    step * 20
  }

  /** Over the five steps the bar grows from a fifth to full, and is full
      exactly at the last step. */
  lemma ProgressBounds(step: int)
    requires FIRST_STEP <= step <= LAST_STEP
    ensures 20 <= ProgressWidth(step) <= 100
    ensures ProgressWidth(step) == 100 <==> step == LAST_STEP
    ensures ProgressWidth(step) < ProgressWidth(step + 1)
  {
  }

  /** "Back" on the middle steps only; "forward" before the last step,
      labelled "Complete Setup" on the CORS step; "finish" otherwise. */
  function NavButtons(step: int): (n: Nav)
    ensures n.back <==> FIRST_STEP < step < LAST_STEP
    ensures n.next.Some? <==> step < LAST_STEP
    ensures n.next.Some? ==> (n.next.value == COMPLETE_LABEL <==> step == 4)
    ensures n.next.Some? ==> (n.next.value == NEXT_LABEL <==> step != 4)
    ensures n.finish <==> n.next.None?
  {
    Nav(FIRST_STEP < step < LAST_STEP,
        if step < LAST_STEP then Some(if step == 4 then COMPLETE_LABEL else NEXT_LABEL) else None,
        step >= LAST_STEP)
  }

  /** Step 1's verdict: no required module is missing, the private
      directory resolves, and OpenSSL is available. */
  predicate EnvironmentOk(env: Environment, keys: OAuthKeys.KeyEnv) {
    && Filter(REQUIRED_MODULES, NotInstalled(env.installed)) == []
    && Truthy(keys.privatePath)
    && env.opensslAvailable
  }

  /** Builds the page of the current step, starting a new session at step
      1. Step 1 records the environment verdict and step 2 whether keys
      exist; no other step changes the form state. */
  function Build(fs: FormState, env: Environment, world: World): (p: Page)
    ensures p.state.step == Some(fs.step.GetOr(FIRST_STEP))
    ensures fs.step.None? ==> p.state.step == Some(1) && p.progress == 20 && p.nav == Nav(false, Some(NEXT_LABEL), false)
    ensures p.progress == ProgressWidth(p.state.step.value) && p.nav == NavButtons(p.state.step.value)
    ensures p.state.step.value == 1 ==>
              (p.state.environmentOk <==> && (forall m :: m in REQUIRED_MODULES ==> m in env.installed)
                                          && Truthy(world.keys.privatePath) && env.opensslAvailable)
    ensures p.state.step.value == 2 ==> (p.state.keysExist <==> OAuthKeys.KeysExist(world.keys))
    ensures p.state.step.value !in {1, 2} ==> p.state == fs.(step := p.state.step)
    ensures p.state.credentials == fs.credentials
  {
    var step := fs.step.GetOr(FIRST_STEP);
    var state :=
      if step == 1 then
        FilterNone(REQUIRED_MODULES, NotInstalled(env.installed));
        fs.(step := Some(step), environmentOk := EnvironmentOk(env, world.keys))
      else if step == 2 then fs.(step := Some(step), keysExist := OAuthKeys.KeysExist(world.keys))
      else fs.(step := Some(step));
    Page(state, ProgressWidth(step), NavButtons(step))
  }

  /** Why "forward" refused to advance. */
  datatype StepError = EnvironmentIssues | KeyGenerationFailed | ConsumerCreationFailed

  /** The result of "forward": the form state, the world, and the error
      when the step's work failed. */
  datatype Advance = Advance(state: FormState, world: World, error: Option<StepError>)

  /** The step "forward" and "back" act on: PHP arithmetic reads an unset
      step as 0, and 0 matches none of the steps. */
  function StepOf(fs: FormState): (step: int) {
    fs.step.GetOr(0)
  }

  /** Whether step 2 asks for keys: when none were found or regeneration
      was ticked. */
  predicate WantsKeys(fs: FormState, v: Values) {
    !fs.keysExist || v.regenerate
  }

  /** Step 2's key work: regeneration when ticked, else generation. */
  function KeyStep(keys: OAuthKeys.KeyEnv, v: Values, fx: OAuthKeys.KeyGenEffects): (r: (bool, OAuthKeys.KeyEnv))
    ensures v.regenerate ==> r == OAuthKeys.RegenerateKeys(keys, fx)
    ensures !v.regenerate ==> r == OAuthKeys.GenerateKeys(keys, fx)
  {
    if v.regenerate then OAuthKeys.RegenerateKeys(keys, fx) else OAuthKeys.GenerateKeys(keys, fx)
  }

  /** The origins step 4 stores: the text's lines, trimmed, without the
      falsy ones, joined with commas. */
  function JoinedOrigins(text: Option<String>): (joined: String)
    ensures SettingsForm.ParseOrigins(text) == [] ==> joined == []
  {
    Join(SettingsForm.ParseOrigins(text), ',')
  }

  /** "Forward": performs the current step's work and advances by one when
      it succeeds. Step 1 fails without a good environment. Step 2 creates
      keys when it wants them and fails when that fails. Step 3 creates a
      consumer with the fresh UUID `uuid` and gives it the fresh secret
      `secret`, failing when the save fails. Step 4 stores the CORS
      settings, the origins only when CORS is enabled. A failure keeps the
      form state, with the step, as it was. */
  function Forward(fs: FormState, world: World, v: Values, fx: OAuthKeys.KeyGenEffects, uuid: String, secret: String, saveFails: bool)
    : (r: Advance)
    requires StepOf(fs) == 3 ==> uuid !in world.consumers
    ensures r.error.Some? ==> r.state == fs
    ensures r.error.None? ==> r.state.step == Some(StepOf(fs) + 1)
    ensures r.error == Some(EnvironmentIssues) <==> StepOf(fs) == 1 && !fs.environmentOk
    ensures r.error == Some(KeyGenerationFailed) <==> StepOf(fs) == 2 && WantsKeys(fs, v) && !KeyStep(world.keys, v, fx).0
    ensures r.error == Some(ConsumerCreationFailed) <==> StepOf(fs) == 3 && saveFails
    ensures StepOf(fs) != 2 ==> r.world.keys == world.keys
    ensures StepOf(fs) == 2 && !WantsKeys(fs, v) ==> r.world == world
    ensures StepOf(fs) == 2 && WantsKeys(fs, v) ==> r.world.keys == KeyStep(world.keys, v, fx).1
    ensures StepOf(fs) != 3 ==> r.world.consumers == world.consumers && r.world.secrets == world.secrets
    ensures StepOf(fs) == 3 && !saveFails ==>
              && r.world.consumers.Keys == world.consumers.Keys + {uuid}
              && r.world.consumers[uuid].title == v.consumerName
              && r.world.consumers[uuid].description == v.consumerDescription
              && r.world.secrets == world.secrets[uuid := secret]
              && r.state.credentials == Some(CreateConsumerForm.Credentials(uuid, secret, v.framework, None))
    ensures StepOf(fs) != 4 ==> r.world.cors == world.cors
    ensures StepOf(fs) == 4 ==>
              && r.world.cors.enabled == v.enableCors
              && r.world.cors.rateLimiting == v.enableRateLimiting
              && r.world.cors.allowedOrigins == (if v.enableCors then JoinedOrigins(v.corsOrigins) else world.cors.allowedOrigins)
    ensures StepOf(fs) !in {1, 2, 3} ==> r.error.None?
    ensures r.error.None? && StepOf(fs) != 3 ==> r.state == fs.(step := r.state.step)
  {
    var step := StepOf(fs);
    var advanced := fs.(step := Some(step + 1));
    if step == 1 then
      if !fs.environmentOk then Advance(fs, world, Some(EnvironmentIssues))
      else Advance(advanced, world, None)
    else if step == 2 then
      if !WantsKeys(fs, v) then Advance(advanced, world, None)
      else
        var (ok, keys) := KeyStep(world.keys, v, fx);
        if !ok then Advance(fs, world.(keys := keys), Some(KeyGenerationFailed))
        else Advance(advanced, world.(keys := keys), None)
    else if step == 3 then
      var (created, consumers) := CreateConsumer(world.consumers, v.consumerName, v.consumerDescription, Options(None, None), uuid, saveFails);
      if created.None? then Advance(fs, world, Some(ConsumerCreationFailed))
      else
        var credentials := CreateConsumerForm.Credentials(created.value.uuid, secret, v.framework, None);
        Advance(advanced.(credentials := Some(credentials)),
                world.(consumers := consumers, secrets := world.secrets[uuid := secret]),
                None)
    else if step == 4 then
      var cors := CorsConfig(v.enableCors,
                             if v.enableCors then JoinedOrigins(v.corsOrigins) else world.cors.allowedOrigins,
                             v.enableRateLimiting);
      Advance(advanced, world.(cors := cors), None)
    else Advance(advanced, world, None)
  }

  /** "Back": one step back, nothing else changes. */
  function Back(fs: FormState): (r: FormState)
    ensures r.step.Some? && r.step.value < StepOf(fs)
    ensures r == fs.(step := r.step)
  {
    fs.(step := Some(StepOf(fs) - 1))
  }

  /** "Back" after a successful "forward" returns to the step that was
      left. */
  lemma BackUndoesForward(fs: FormState, world: World, v: Values, fx: OAuthKeys.KeyGenEffects, uuid: String, secret: String, saveFails: bool)
    requires fs.step.Some?
    requires StepOf(fs) == 3 ==> uuid !in world.consumers
    requires Forward(fs, world, v, fx, uuid, secret, saveFails).error.None?
    ensures Back(Forward(fs, world, v, fx, uuid, secret, saveFails).state).step == fs.step
  {
  }

  /** Pressing a button the page offers keeps the step between the first
      and the last. */
  lemma ButtonsKeepStepInRange(fs: FormState, world: World, v: Values, fx: OAuthKeys.KeyGenEffects, uuid: String, secret: String, saveFails: bool)
    requires fs.step.Some? && FIRST_STEP <= fs.step.value <= LAST_STEP
    requires StepOf(fs) == 3 ==> uuid !in world.consumers
    ensures NavButtons(fs.step.value).back ==> FIRST_STEP <= Back(fs).step.value <= LAST_STEP
    ensures NavButtons(fs.step.value).next.Some? ==>
              var r := Forward(fs, world, v, fx, uuid, secret, saveFails).state;
              r.step.Some? && FIRST_STEP <= r.step.value <= LAST_STEP
  {
  }

  /** The origins stored at step 4 are the parsed origins again when split
      at the commas, provided there is one and none contains a comma. */
  lemma {:induction false} JoinedOriginsSplit(text: Option<String>)
    requires SettingsForm.ParseOrigins(text) != []
    requires forall o :: o in SettingsForm.ParseOrigins(text) ==> ',' !in o
    ensures Split(JoinedOrigins(text), ',') == SettingsForm.ParseOrigins(text)
  {
    var origins := SettingsForm.ParseOrigins(text);
    assert forall i :: 0 <= i < |origins| ==> ',' !in origins[i] by {
      forall i | 0 <= i < |origins| ensures ',' !in origins[i] {
        assert origins[i] in origins;
      }
    }
    SplitJoin(origins, ',');
  }

  /** A session in a good environment without keys, where every step's
      work succeeds, reaches the summary after four "forward"s: the keys
      exist and validate, the consumer exists with its secret and its
      credentials are kept for the summary, and the CORS settings are
      stored. */
  lemma WizardCompletes(env: Environment, world: World, v: Values, uuid: String, secret: String)
    requires EnvironmentOk(env, world.keys) && !OAuthKeys.KeysExist(world.keys)
    requires uuid !in world.consumers
    ensures var fx := OAuthKeys.KeyGenEffects(true, true, true, true);
            var p1 := Build(FRESH, env, world);
            var a1 := Forward(p1.state, world, v, fx, uuid, secret, false);
            var p2 := Build(a1.state, env, a1.world);
            var a2 := Forward(p2.state, a1.world, v, fx, uuid, secret, false);
            var p3 := Build(a2.state, env, a2.world);
            var a3 := Forward(p3.state, a2.world, v, fx, uuid, secret, false);
            var p4 := Build(a3.state, env, a3.world);
            var a4 := Forward(p4.state, a3.world, v, fx, uuid, secret, false);
            var p5 := Build(a4.state, env, a4.world);
            && a1.error.None? && a2.error.None? && a3.error.None? && a4.error.None?
            && p5.state.step == Some(LAST_STEP) && p5.progress == 100
            && p5.nav == Nav(false, None, true)
            && OAuthKeys.ValidateKeys(a4.world.keys).status
            && uuid in a4.world.consumers && a4.world.consumers[uuid].title == v.consumerName
            && a4.world.secrets[uuid] == secret
            && p5.state.credentials == Some(CreateConsumerForm.Credentials(uuid, secret, v.framework, None))
            && a4.world.cors.enabled == v.enableCors && a4.world.cors.rateLimiting == v.enableRateLimiting
  {
    var fx := OAuthKeys.KeyGenEffects(true, true, true, true);
    FilterNone(REQUIRED_MODULES, NotInstalled(env.installed));
    var p1 := Build(FRESH, env, world);
    var a1 := Forward(p1.state, world, v, fx, uuid, secret, false);
    assert a1.state.step == Some(2) && a1.world == world;
    var p2 := Build(a1.state, env, a1.world);
    var a2 := Forward(p2.state, a1.world, v, fx, uuid, secret, false);
    OAuthKeys.GeneratedKeysValidate(world.keys, fx);
    assert a2.state.step == Some(3) && OAuthKeys.ValidateKeys(a2.world.keys).status;
    var p3 := Build(a2.state, env, a2.world);
    var a3 := Forward(p3.state, a2.world, v, fx, uuid, secret, false);
    assert a3.state.step == Some(4) && a3.world.keys == a2.world.keys;
    var p4 := Build(a3.state, env, a3.world);
    var a4 := Forward(p4.state, a3.world, v, fx, uuid, secret, false);
    assert a4.state.step == Some(5) && a4.world.keys == a2.world.keys;
  }

  /** `buildForm` as written: the CORS step asks the configuration manager
      for `getConfig()`, which it does not define, so that page never
      renders. Every other step builds as `Build`. */
  function BuildAsWritten(fs: FormState, env: Environment, world: World): (r: Outcome<Page>)
    ensures r.Uncaught? <==> fs.step.GetOr(FIRST_STEP) == 4
    ensures r.Returned? ==> r.value == Build(fs, env, world)
  {
    if fs.step.GetOr(FIRST_STEP) == 4 then Uncaught(UNDEFINED_GET_CONFIG) else Returned(Build(fs, env, world))
  }

  /** The `LogicException` Drupal's form state throws when an error is
      set after validation has finished, as in a submit handler. */
  const ERRORS_AFTER_VALIDATION := "Form errors cannot be set after form validation has finished."

  /** `stepForward` as written. It runs as a submit handler, where
      `setError` throws instead of recording a message: a step that fails
      ends in that exception, keeping whatever keys step 2 wrote. Step 3
      calls the undefined `Uuid::generate()` right after saving the
      consumer, which is left stored without a secret; step 4 calls the
      undefined `getConfig()` before storing anything. Every other step
      finishes as `Forward`. */
  function ForwardAsWritten(fs: FormState, world: World, v: Values, fx: OAuthKeys.KeyGenEffects, uuid: String, secret: String, saveFails: bool)
    : (r: (Outcome<FormState>, World))
    requires StepOf(fs) == 3 ==> uuid !in world.consumers
    ensures var a := Forward(fs, world, v, fx, uuid, secret, saveFails);
            && (r.0.Uncaught? <==> a.error.Some? || StepOf(fs) in {3, 4})
            && (a.error.Some? ==> r == (Uncaught(ERRORS_AFTER_VALIDATION), a.world))
            && (r.0.Returned? ==> r == (Returned(a.state), a.world))
            && (StepOf(fs) == 3 && !saveFails ==>
                  && r.0 == Uncaught(CreateConsumerForm.UNDEFINED_UUID_GENERATE)
                  && r.1.consumers == a.world.consumers && r.1.secrets == world.secrets)
    ensures StepOf(fs) == 4 ==> r == (Uncaught(UNDEFINED_GET_CONFIG), world)
  {
    var a := Forward(fs, world, v, fx, uuid, secret, saveFails);
    if a.error.Some? then (Uncaught(ERRORS_AFTER_VALIDATION), a.world)
    else if StepOf(fs) == 3 then (Uncaught(CreateConsumerForm.UNDEFINED_UUID_GENERATE), a.world.(secrets := world.secrets))
    else if StepOf(fs) == 4 then (Uncaught(UNDEFINED_GET_CONFIG), world)
    else (Returned(a.state), a.world)
  }

  /** As written, "forward" never leaves the consumer step: a failed save
      throws, and a successful one throws at `Uuid::generate()` with the
      consumer stored and no secret on it. `Forward` moves on to the CORS
      step with the secret stored. */
  lemma ConsumerStepAsWrittenFails(fs: FormState, world: World, v: Values, fx: OAuthKeys.KeyGenEffects, uuid: String, secret: String, saveFails: bool)
    requires fs.step == Some(3) && uuid !in world.consumers && uuid !in world.secrets
    ensures ForwardAsWritten(fs, world, v, fx, uuid, secret, saveFails).0.Uncaught?
    ensures !saveFails ==>
              var w := ForwardAsWritten(fs, world, v, fx, uuid, secret, saveFails).1;
              uuid in w.consumers && uuid !in w.secrets
    ensures !saveFails ==>
              var a := Forward(fs, world, v, fx, uuid, secret, saveFails);
              a.state.step == Some(4) && a.world.secrets[uuid] == secret
  {
  }

  /** As written, a session that reaches the CORS step can neither show it
      nor leave it forward: the summary step is out of reach, whereas
      `Forward` moves on to it. */
  lemma CorsStepAsWrittenFails(fs: FormState, env: Environment, world: World, v: Values, fx: OAuthKeys.KeyGenEffects, uuid: String, secret: String)
    requires fs.step == Some(4)
    ensures BuildAsWritten(fs, env, world).Uncaught?
    ensures ForwardAsWritten(fs, world, v, fx, uuid, secret, false).0.Uncaught?
    ensures Forward(fs, world, v, fx, uuid, secret, false).state.step == Some(LAST_STEP)
  {
  }
}
