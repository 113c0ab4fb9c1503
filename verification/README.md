# Drupal Headless module: a Dafny model

This project models the rules at the core of the `drupal_headless` Drupal
module, which prepares a Drupal site to serve a decoupled frontend. The
model covers these parts:

- **Webhook dispatch engine** (`webhooks.dfy`, `queue_worker.dfy`):
  - the ordered store of registrations;
  - the event, entity-type and bundle filter;
  - queueing on entity events;
  - signing and sending a delivery, and classifying its outcome;
  - the newest-first delivery log capped at 100 entries;
  - the queue worker's retry rule, which allows four sends of one job.
- **Preview tokens and preview URLs** (`preview.dfy`): token expiry, validation, cleanup, and how the preview URL is built.
- **Configuration rules** (`configuration.dfy`):
  - the allowed origins and the frontend-framework list;
  - the rate-limit defaults;
  - the module dependency check.
- **Consumers** (`consumers.dfy`): creating, listing and deleting OAuth consumers, where deleting also unlinks frameworks.
- **OAuth key management** (`oauth_keys.dfy`): the key paths, the key-presence test, the validation verdict and its messages, and the guards of key generation.
- **Health checks and the checklist** (`health_check.dfy`, `checklist.dfy`):
  - the nine setup checks and the completion percentage;
  - the automatic fixes;
  - how the checklist page groups, orders and decorates the checks.
- **Forms** (`setup_wizard.dfy`, `create_consumer_form.dfy`, `settings_form.dfy`, `env_variables.dfy`):
  - the five-step setup wizard;
  - the `.env` file shown after a consumer is created, and the one-time display of credentials;
  - origin parsing and validation in the settings form.

`text.dfy` gives the PHP primitives the module relies on:
- `empty()` on strings, where "" and "0" are empty;
- `trim`, `ltrim` and `rtrim` with a character list;
- `explode`, `implode`, and `array_filter` without a callback.

The model is written as pure functions over immutable values. Several inputs are parameters rather than computed:
- the clock (`now`);
- fresh identifiers (`uuid`, `token`, `id`, each with a freshness precondition);
- the HTTP client, an oracle that returns a response, a request exception or any other exception;
- JSON encoding, HMAC-SHA256 and the message of the exception Guzzle raises for an error status (`Webhooks.Codec`);
- the URL validator of the settings form;
- the module installer (`HealthCheck.InstallOutcome`);
- the side effects of OpenSSL key generation (`OAuthKeys.KeyGenEffects`).

Source paths below are relative to the repository root.

## Model

| member | source | states |
|---|---|---|
| Webhooks.ShouldTrigger | drupal_headless/src/Service/WebhookManager.php:273-294 | A webhook fires exactly when all three hold: the event is among its events (create/update/delete when unset); the entity type is among its entity types (node when unset); and the bundle is listed, or the bundle list is unset or empty. |
| Webhooks.DefaultFilters | drupal_headless/src/Service/WebhookManager.php:275-284 | A webhook with no filters fires exactly for create, update and delete on nodes. |
| Webhooks.ArticleCreationFilter | drupal_headless/src/Service/WebhookManager.php:273-294 | A webhook for article creation fires when an article is created, but not when one is updated or when a page is created. |
| Webhooks.AddWebhookHooks | drupal_headless/src/Service/WebhookManager.php:302-331 | After adding, the active webhooks are the earlier ones in their order, followed by the new registration with its id, creation time and `enabled = TRUE`. |
| Webhooks.DeleteWebhookHooks | drupal_headless/src/Service/WebhookManager.php:302-382 | Deleting the webhook at position k leaves the active webhooks as before with only position k removed. |
| Webhooks.BuildPayload | drupal_headless/src/Service/WebhookManager.php:204-242 | The payload carries the event, the time and the entity's type, bundle, id, uuid, label and URL. For a node it also carries the published flag, the created and changed times and the author, with the entity's values. For other entities these fields are absent. |
| Webhooks.QueueJobs | drupal_headless/src/Service/WebhookManager.php:118-129 | The queued jobs are the matching webhooks in store order. Each job carries the same payload, zero attempts and the current time. |
| Webhooks.Trigger | drupal_headless/src/Service/WebhookManager.php:90-108 | An entity event appends one job per matching stored webhook and keeps the existing queue as a prefix. It leaves the store and the log unchanged, and changes nothing when no webhook is stored. |
| Webhooks.TriggerReachesExactlyListeners | drupal_headless/src/Service/WebhookManager.php:90-108 | A webhook receives a job if and only if it is stored and its filter accepts the event. The number of new jobs is the number of matching webhooks. |
| Webhooks.DisabledWebhookStillQueued | drupal_headless/src/Service/WebhookManager.php:90-108 | A registration whose `enabled` flag is FALSE is still queued: the flag is never read. |
| Webhooks.AddWebhook | drupal_headless/src/Service/WebhookManager.php:315-331 | A registration is stored under the fresh id, appended to the key order. It is stored with its id, creation time and `enabled = TRUE` forced, and every other entry is kept. |
| Webhooks.UpdateWebhook | drupal_headless/src/Service/WebhookManager.php:344-357 | An update succeeds exactly for a stored id. It replaces only that entry, forces the entry's id and keeps the key order. An unknown id leaves the store unchanged. |
| Webhooks.DeleteWebhook | drupal_headless/src/Service/WebhookManager.php:368-382 | A delete succeeds exactly for a stored id and removes only that key, preserving the order of the rest. An unknown id leaves the store unchanged. |
| Webhooks.DeleteUndoesAdd | drupal_headless/src/Service/WebhookManager.php:315-382 | Deleting a just-added registration succeeds and restores the store exactly. |
| Webhooks.GenerateSignature | drupal_headless/src/Service/WebhookManager.php:255-258 | The signature is `sha256=` followed by the HMAC of the JSON payload under the secret. |
| Webhooks.BuildRequest | drupal_headless/src/Service/WebhookManager.php:142-164 | The request goes to the webhook URL with the JSON body, a 10-second timeout, the JSON content type and the module's user agent. The signature header is present exactly when the secret is non-empty, and then carries the signature. |
| Webhooks.NewLogEntry | drupal_headless/src/Service/WebhookManager.php:398-411 | A log entry records the webhook id ("unknown" when missing), the URL, the payload and the time. |
| Webhooks.LogWebhook | drupal_headless/src/Service/WebhookManager.php:398-416 | The new entry is put first and the older entries follow in order. The log grows by one up to 100 entries, after which the oldest entry is dropped. |
| Webhooks.LogAllNewestFirst | drupal_headless/src/Service/WebhookManager.php:398-416 | After any series of deliveries, the log holds the newest 100 entries of all of them, newest first. |
| Webhooks.GetLogs | drupal_headless/src/Service/WebhookManager.php:427-430 | The returned entries are a prefix of the log: the first `limit` entries, or all of them. A negative limit drops entries from the end, as `array_slice` does. |
| Webhooks.DefaultLogLimit | drupal_headless/src/Service/WebhookManager.php:427-430 | With the default limit, the newest 50 entries are listed, or all of them when there are fewer. |
| Webhooks.Send | drupal_headless/src/Service/WebhookManager.php:142-191 | A delivery reports success exactly for a 2xx response. A response below 400 is logged as "success" with its status. A 4xx or 5xx response makes Guzzle raise a request exception, so it is logged as "failed" with that status and the exception's message. A request exception is logged as "failed" with its code and message. Any other exception logs nothing. The store and the queue are untouched. |
| Webhooks.ErrorStatusLoggedAsFailed | drupal_headless/src/Service/WebhookManager.php:160-179 | A response is logged as "success" exactly when its status is below 400. An error status fails the delivery and is logged as "failed" with that status. |
| Webhooks.TestPayload | drupal_headless/src/Service/WebhookManager.php:441-447 | The test payload is a synthetic "test" event stamped with the current time. |
| Webhooks.TestWebhook | drupal_headless/src/Service/WebhookManager.php:441-449 | A test delivery sends the test payload once and queues nothing. It reports and logs each outcome exactly as a normal delivery of the test payload would. |
| QueueWorker.RetryDelayDoubles | drupal_headless/src/Plugin/QueueWorker/WebhookQueueWorker.php:87 | The computed backoff is 60 seconds times 2 to the power of the attempts: 60, 120, 240, doubling each time. |
| QueueWorker.ProcessItem | drupal_headless/src/Plugin/QueueWorker/WebhookQueueWorker.php:72-93 | A job is sent once and the send's log entry is kept. Exactly one job is requeued, with one more attempt and otherwise unchanged, if and only if the send failed and fewer than 3 attempts were made. Otherwise nothing is queued. |
| QueueWorker.RunNext | drupal_headless/src/Plugin/QueueWorker/WebhookQueueWorker.php:72-93 | Running the next job removes it from the front of the queue and leaves the remaining jobs in order. |
| QueueWorker.RunSingleJob | drupal_headless/src/Plugin/QueueWorker/WebhookQueueWorker.php:78-91 | For a lone job with k attempts, the queue empties exactly when the send succeeds or k is at least 3. Otherwise it holds the same job with k+1 attempts. |
| QueueWorker.ServerErrorRequeued | drupal_headless/src/Plugin/QueueWorker/WebhookQueueWorker.php:78-91 | A job answered with status 500 while retries remain is logged as failed with status 500 and queued again with one more attempt. |
| QueueWorker.TriggerKeepsAttemptsBounded | drupal_headless/src/Plugin/QueueWorker/WebhookQueueWorker.php:81-91 | Queueing an entity event keeps every job's attempts at 3 or fewer. |
| QueueWorker.RunNextKeepsAttemptsBounded | drupal_headless/src/Plugin/QueueWorker/WebhookQueueWorker.php:81-91 | Processing a job keeps every job's attempts at 3 or fewer. |
| QueueWorker.DeliverJob | drupal_headless/src/Plugin/QueueWorker/WebhookQueueWorker.php:72-93 | Running a job until the queue is empty sends it at attempts k, k+1, … and stops at the first success or after attempt 3. Against an endpoint that always fails it sends exactly 4 − k times, and a first-time success sends once. |
| Preview.GenerateToken | drupal_headless/src/Service/PreviewManager.php:82-104 | A new token is added with the entity's type, id, uuid and bundle, created now and expiring 3600 seconds later. Every other token is untouched. |
| Preview.DeleteToken | drupal_headless/src/Service/PreviewManager.php:139-146 | Only the named token is removed, and an absent token leaves the store unchanged. |
| Preview.ValidateToken | drupal_headless/src/Service/PreviewManager.php:115-131 | A token is valid exactly when it is stored and has not expired (expiring at `now` is still valid). A valid token returns its record and keeps the store. An expired token is removed. An unknown token changes nothing. |
| Preview.GeneratedTokenLifetime | drupal_headless/src/Service/PreviewManager.php:82-131 | A token issued at t validates exactly until t + 3600 and then returns the entity's uuid. Once expired, its validation restores the store as it was before the token was issued. |
| Preview.DeleteUndoesGenerate | drupal_headless/src/Service/PreviewManager.php:82-146 | Deleting a freshly generated token restores the store. |
| Preview.ActiveIffValid | drupal_headless/src/Service/PreviewManager.php:302-310 | A token is among the active tokens exactly when it validates. Validating an active token returns its record and keeps the store. |
| Preview.CleanupExpiredTokens | drupal_headless/src/Service/PreviewManager.php:151-167 | Cleanup leaves exactly the active tokens. The source returns nothing; its removal count only decides whether the store is written back and a positive count logged. The count is zero exactly when the store is unchanged, so skipping the write loses nothing. |
| Preview.GetPreviewPath | drupal_headless/src/Service/PreviewManager.php:235-256 | The path depends on the entity: `/articles/<uuid>` for node articles, `/pages/<uuid>` for node pages, `/<bundle>/<uuid>` for other node bundles, and `/<type>/<uuid>` for other entity types. |
| Preview.PreviewPathShape | drupal_headless/src/Service/PreviewManager.php:235-256 | Every preview path starts with `/` and ends with the entity's uuid. |
| Preview.GetPreviewBaseUrl | drupal_headless/src/Service/PreviewManager.php:211-224 | The framework's configured URL is used when a non-empty framework with a URL is given; otherwise the default URL. |
| Preview.JoinUrl | drupal_headless/src/Service/PreviewManager.php:195 | The URL is the base without trailing slashes, then a single `/`, then the path without leading slashes. No slash is doubled at the join. |
| Preview.AddQuery | drupal_headless/src/Service/PreviewManager.php:196-197 | The parameter is appended after `&` when the URL already has a query, and after `?` otherwise. |
| Preview.GeneratePreviewUrl | drupal_headless/src/Service/PreviewManager.php:180-200 | The token is always stored. A URL is returned exactly when a base URL is known, and it is the joined base and path with `preview=<token>` appended. |
| Preview.ArticlePreviewUrl | drupal_headless/src/Service/PreviewManager.php:180-200 | With the default base `http://localhost:3000/`, an article previews at `http://localhost:3000/articles/<uuid>?preview=<token>`. |
| Configuration.GetAllowedOrigins | drupal_headless/src/Service/ConfigurationManager.php:78-81 | The stored origins when they are an array, else the empty list. |
| Configuration.GetFrameworks | drupal_headless/src/Service/ConfigurationManager.php:112-115 | The stored frameworks when they are an array, else the empty list. |
| Configuration.GetRateLimitConfig | drupal_headless/src/Service/ConfigurationManager.php:99-104 | The stored request count and window, defaulting to 100 requests and 3600 seconds. |
| Configuration.AddFramework | drupal_headless/src/Service/ConfigurationManager.php:126-142 | A framework is appended exactly when its name and type are both non-empty; otherwise nothing changes. No other setting is touched. |
| Configuration.RemoveFramework | drupal_headless/src/Service/ConfigurationManager.php:153-167 | Removal succeeds exactly when some framework is linked to the consumer. It then drops every linked framework and keeps the others, in order. If none is linked, nothing changes. |
| Configuration.RemoveFrameworkKeepsOthers | drupal_headless/src/Service/ConfigurationManager.php:153-167 | After removal no framework is linked to the consumer, and every framework linked elsewhere (or to nothing) survives. |
| Configuration.MissingModules | drupal_headless/src/Service/ConfigurationManager.php:175-186 | The missing modules are the required ones that are not installed, in the required order. |
| Configuration.CheckDependencies | drupal_headless/src/Service/ConfigurationManager.php:175-186 | jsonapi, consumers and simple_oauth are checked in that order. The result lists the uninstalled ones, and is empty exactly when all three are installed. |
| Consumers.CreateConsumer | drupal_headless/src/Service/ConsumerManager.php:64-97 | A consumer is stored under the fresh uuid with the given label and description and `is_default` FALSE. The user id and roles are copied only when non-empty. A failing save returns nothing and stores nothing. |
| Consumers.GetConsumers | drupal_headless/src/Service/ConsumerManager.php:105-126 | Listing returns nothing when the query fails or finds no ids. It returns only stored consumers, and when every id is stored, exactly one per id in query order. |
| Consumers.ListsEveryConsumerByLabel | drupal_headless/src/Service/ConsumerManager.php:105-118 | Given the ids of the label-sorted query, the listing holds one consumer per id. It contains every stored consumer and no other, in label order. |
| Consumers.DeleteConsumer | drupal_headless/src/Service/ConsumerManager.php:137-163 | Deletion succeeds exactly for a stored consumer when storage works. It removes only that consumer and unlinks its frameworks. Otherwise neither the consumers nor the frameworks change. |
| Consumers.DeleteConsumerUnlinksFrameworks | drupal_headless/src/Service/ConsumerManager.php:147-155 | After a successful delete no framework is linked to the consumer, and the other frameworks are kept in order. |
| Consumers.DeleteUndoesCreate | drupal_headless/src/Service/ConsumerManager.php:64-163 | Deleting a just-created consumer restores the consumer storage. |
| OAuthKeys.GetKeyPaths | drupal_headless/src/Service/OAuth2KeyManager.php:192-206 | No paths without a private directory. Otherwise the key directory is `<private>/oauth_keys`. |
| OAuthKeys.KeyPathsDistinct | drupal_headless/src/Service/OAuth2KeyManager.php:192-206 | The two key files are different and both lie under the key directory. |
| OAuthKeys.KeyPathsExample | drupal_headless/src/Service/OAuth2KeyManager.php:192-206 | For `/var/www/private` the files are `/var/www/private/oauth_keys/private.key` and `/var/www/private/oauth_keys/public.key`. |
| OAuthKeys.KeysExist | drupal_headless/src/Service/OAuth2KeyManager.php:172-184 | FALSE without a private directory. Otherwise true exactly when both key files exist. |
| OAuthKeys.KeyFailures | drupal_headless/src/Service/OAuth2KeyManager.php:254-275 | A readability or configuration message is reported exactly for an unreadable private key, an unreadable public key, or an installed Simple OAuth whose key paths are empty. |
| OAuthKeys.ValidateKeys | drupal_headless/src/Service/OAuth2KeyManager.php:233-282 | A missing private directory or missing keys each give one failure message and nothing more. Otherwise the status is true exactly when no check fails, and only then is the single success message given. An unreadable key always forces failure. |
| OAuthKeys.GenerateKeys | drupal_headless/src/Service/OAuth2KeyManager.php:57-129 | Generation refuses, changing nothing, without a private directory, when the directory cannot be prepared, or when both keys exist. It succeeds exactly when every step succeeds, and then both keys exist. |
| OAuthKeys.GeneratedKeysValidate | drupal_headless/src/Service/OAuth2KeyManager.php:57-129 | Keys produced by a successful generation pass validation. |
| OAuthKeys.RegenerateKeys | drupal_headless/src/Service/OAuth2KeyManager.php:137-164 | Regeneration refuses without a private directory. Otherwise it succeeds exactly when every generation step succeeds, whether or not keys exist, and then both keys exist. |
| OAuthKeys.RegenerateReplacesExistingKeys | drupal_headless/src/Service/OAuth2KeyManager.php:137-164 | With keys present, generation refuses while regeneration succeeds. |
| EnvVariables.EnvKeys | drupal_headless/src/Form/CreateConsumerForm.php:236-264 | Each framework has three variable names, and unknown frameworks use the generic ones. |
| EnvVariables.EnvKeysAreNames | drupal_headless/src/Form/CreateConsumerForm.php:236-262 | Every framework's variable names are non-empty, are not comments, and contain no `=` or line break. |
| CreateConsumerForm.FrameworkOf | drupal_headless/src/Form/CreateConsumerForm.php:233 | A missing framework means Next.js. |
| CreateConsumerForm.GenerateEnvContent | drupal_headless/src/Form/CreateConsumerForm.php:230-274 | The file starts with two comment lines and a blank line, and ends with a line break. |
| CreateConsumerForm.HeadersAreComments | drupal_headless/src/Form/CreateConsumerForm.php:266-267 | The two header lines are comments on single lines. |
| CreateConsumerForm.SplitEnvLines | drupal_headless/src/Form/CreateConsumerForm.php:269-271 | The lines the loop writes, split at line breaks, are one `KEY=value` line per variable in order, followed by an empty piece. |
| CreateConsumerForm.EnvFileRoundTrip | drupal_headless/src/Form/CreateConsumerForm.php:266-271 | A file made of the header and the loop's lines, for any variables with proper names and single-line values, reads back as exactly those variables, in order. |
| CreateConsumerForm.EnvRoundTrip | drupal_headless/src/Form/CreateConsumerForm.php:230-274 | Reading the generated file back gives exactly three settings in the framework's order: base URL, client id, client secret. |
| CreateConsumerForm.BuildForm | drupal_headless/src/Form/CreateConsumerForm.php:63-70 | The credentials view is shown exactly when the temporary store holds credentials, and it shows those credentials. |
| CreateConsumerForm.SubmitForm | drupal_headless/src/Form/CreateConsumerForm.php:279-307 | Corrected (see Findings): a failed creation changes nothing. A successful one stores the consumer and its secret, and puts the new credentials in the temporary store. |
| CreateConsumerForm.CredentialsDone | drupal_headless/src/Form/CreateConsumerForm.php:312-320 | "Done" clears the stored credentials and redirects to the dashboard route. |
| CreateConsumerForm.CreateAnother | drupal_headless/src/Form/CreateConsumerForm.php:325-332 | "Create another" clears the stored credentials and redirects back to the consumer creation route. |
| CreateConsumerForm.CredentialsShownOnce | drupal_headless/src/Form/CreateConsumerForm.php:279-332 | Corrected (see Findings): after a successful creation the form shows the new client id and its stored secret. Both "Done" and "Create another" clear them, so the creation form returns. |
| CreateConsumerForm.SubmitFormAsWritten | drupal_headless/src/Form/CreateConsumerForm.php:286-291 | As written, a successful save is followed by an uncaught "undefined method" error. The consumer stays stored, no secret is set and the temporary store is untouched. A failed save changes nothing and raises nothing. |
| CreateConsumerForm.ConsumerWithoutSecretAsWritten | drupal_headless/src/Form/CreateConsumerForm.php:289 | As written, a successful creation leaves a consumer without a secret, and the creation form is shown again. The corrected handler stores the secret and shows the credentials. |
| SettingsForm.ParseOrigins | drupal_headless/src/Form/SettingsForm.php:183-186 | Empty text gives no origins. Otherwise every non-empty trimmed line is an origin and every origin is a trimmed line. Each origin is a clean single line. |
| SettingsForm.ParseJoinedOrigins | drupal_headless/src/Form/SettingsForm.php:76 | Parsing the stored origins, written one per line as the form pre-fills them, gives back the same list. |
| SettingsForm.ReportInvalid | drupal_headless/src/Form/SettingsForm.php:169-173 | One "Invalid URL" error per rejected origin, in order, and none exactly when every origin is accepted. |
| SettingsForm.ValidateForm | drupal_headless/src/Form/SettingsForm.php:161-175 | The parsed origins of the submitted text are validated, with one error raised per rejected origin and none exactly when all are accepted. The form shows one message, because Drupal keeps only the first error per element: "Invalid URL: " and the first rejected origin. |
| SettingsForm.SubmitForm | drupal_headless/src/Form/SettingsForm.php:180-199 | The seven form settings take the submitted values, with the origins parsed into a list. The frameworks and preview URLs are kept. |
| SettingsForm.ResubmitKeepsOrigins | drupal_headless/src/Form/SettingsForm.php:76-190 | Saving the form as pre-filled keeps the stored origin list. |
| HealthCheck.ModuleCheck | drupal_headless/src/Service/HealthCheckManager.php:147-199 | A module check is complete exactly when the module is installed, and otherwise incomplete and auto-fixable. It is critical and carries its enable action. |
| HealthCheck.CheckPrivateFiles | drupal_headless/src/Service/HealthCheckManager.php:204-219 | Complete exactly when the private directory is configured, and otherwise incomplete. It has no automatic fix. |
| HealthCheck.CheckOAuthKeys | drupal_headless/src/Service/HealthCheckManager.php:224-239 | Complete exactly when the keys exist and validate, and otherwise incomplete. It is auto-fixable exactly when the keys are missing. |
| HealthCheck.OAuthKeysCheckMatchesValidation | drupal_headless/src/Service/HealthCheckManager.php:224-239 | The key check is complete exactly when key validation succeeds. |
| HealthCheck.CheckConsumerCreated | drupal_headless/src/Service/HealthCheckManager.php:244-259 | Complete exactly when listing finds a consumer, and otherwise incomplete. It is high priority with no automatic fix. |
| HealthCheck.CheckCors | drupal_headless/src/Service/HealthCheckManager.php:264-279 | Complete exactly when CORS is enabled and origins are listed, and otherwise a warning. It is auto-fixable exactly when CORS is disabled. |
| HealthCheck.CheckPreviewUrls | drupal_headless/src/Service/HealthCheckManager.php:284-302 | Complete exactly when a default or framework preview URL exists, and otherwise optional. |
| HealthCheck.CheckWebhooks | drupal_headless/src/Service/HealthCheckManager.php:307-324 | Complete exactly when a webhook is registered, and otherwise optional. |
| HealthCheck.GetAllChecks | drupal_headless/src/Service/HealthCheckManager.php:110-122 | Nine checks in the fixed key order. Each has a known status and priority, and every auto-fixable one is incomplete and names a known action. |
| HealthCheck.OptionalFeaturesStatus | drupal_headless/src/Service/HealthCheckManager.php:284-324 | The preview and webhook checks are only ever complete or optional. |
| HealthCheck.CompletionPercentage | drupal_headless/src/Service/HealthCheckManager.php:130-142 | The percentage is within 0 to 100. It is 100 when every check is complete and 0 when none is. |
| HealthCheck.CompletionExtremes | drupal_headless/src/Service/HealthCheckManager.php:130-142 | For fewer than 200 checks, the percentage is 100 exactly when all are complete and 0 exactly when none is. |
| HealthCheck.SiteCompletion | drupal_headless/src/Service/HealthCheckManager.php:110-142 | A site is at 100 percent exactly when all nine checks are complete. |
| HealthCheck.EnableModule | drupal_headless/src/Service/HealthCheckManager.php:407-431 | An enabled module succeeds without installing anything. Otherwise it succeeds exactly when the installer succeeds. A success adds the module together with the dependencies the installer brought in, and a failure leaves the modules unchanged. Only the module set can change. |
| HealthCheck.EnableWithDependency | drupal_headless/src/Service/HealthCheckManager.php:416 | Enabling Simple OAuth while Consumers is missing, when the installer brings Consumers in, completes both modules' checks. |
| HealthCheck.EnableCors | drupal_headless/src/Service/HealthCheckManager.php:356-374 | Corrected (see Findings): CORS is switched on. The localhost defaults are set only when no origins are stored, and nothing else changes. |
| HealthCheck.ExecuteAction | drupal_headless/src/Service/HealthCheckManager.php:335-394 | Corrected (see Findings): the three enable actions install their module, key generation runs the key generator, and enable_cors enables CORS. An unknown action fails with "Unknown action: <action>" and changes nothing. |
| HealthCheck.EnableModuleCompletesCheck | drupal_headless/src/Service/HealthCheckManager.php:407-431 | After a successful enable, the module's check is complete. |
| HealthCheck.EnableCorsCompletesCheck | drupal_headless/src/Service/HealthCheckManager.php:356-374 | Corrected (see Findings): after the CORS fix, the CORS check is complete. |
| HealthCheck.GenerateKeysCompletesCheck | drupal_headless/src/Service/HealthCheckManager.php:335-394 | After a successful key generation, the key check is complete. |
| HealthCheck.ExecuteActionAsWritten | drupal_headless/src/Service/HealthCheckManager.php:357 | As written, enable_cors ends in an uncaught error and every other action behaves as modelled. |
| HealthCheck.CorsAutoFixAsWrittenFails | drupal_headless/src/Service/HealthCheckManager.php:264-279 | The CORS check offers its automatic fix whenever CORS is disabled, and as written that fix always raises. |
| Checklist.NameInOrder | drupal_headless/src/Controller/ChecklistController.php:81 | The four group priorities are exactly critical, high, medium and optional. |
| Checklist.MembersSpec | drupal_headless/src/Controller/ChecklistController.php:85-88 | A check belongs to a group exactly when its priority (medium when missing) is the group's. |
| Checklist.GroupTitleFromPriority | drupal_headless/src/Controller/ChecklistController.php:95-102 | A group's heading is its priority name with the first letter capitalised followed by " Items"; the optional group is headed "Optional Features Items". |
| Checklist.Groups | drupal_headless/src/Controller/ChecklistController.php:81-110 | At most four groups are built, and every group holds exactly the checks of its priority, never none. |
| Checklist.GroupOpen | drupal_headless/src/Controller/ChecklistController.php:95-103 | A group is expanded exactly when it is critical or high. |
| Checklist.GroupsCoverLevels | drupal_headless/src/Controller/ChecklistController.php:90-110 | A group is shown exactly when some check has its priority. |
| Checklist.ChecklistGroups | drupal_headless/src/Controller/ChecklistController.php:81-110 | Groups appear in the order critical, high, medium, optional. Empty groups are left out, and each shown group holds exactly its checks. |
| Checklist.RenderedIffKnownPriority | drupal_headless/src/Controller/ChecklistController.php:90-110 | A check is rendered exactly when its priority is one of the four, and only in its own group. |
| Checklist.SiteChecksAllRendered | drupal_headless/src/Controller/ChecklistController.php:90-110 | Every one of the nine site checks is rendered. |
| Checklist.StatusIcon | drupal_headless/src/Controller/ChecklistController.php:152-167 | Complete, incomplete and warning each have their icon and class. Optional and unknown statuses get `○`/`optional`. |
| Checklist.StatusIconsDistinct | drupal_headless/src/Controller/ChecklistController.php:152-167 | The four known statuses have four different icons. |
| Checklist.ActionRoute | drupal_headless/src/Controller/ChecklistController.php:243-255 | Only the create-consumer, preview and webhook actions have a settings route. |
| Checklist.ItemButton | drupal_headless/src/Controller/ChecklistController.php:196-228 | "Fix Automatically" appears exactly for a non-empty action that is auto-fixable and not complete. "Configure" appears exactly for a non-empty action with a route that is neither auto-fixable nor complete. A complete check has no button. |
| Checklist.SiteFixButtonsKnown | drupal_headless/src/Controller/ChecklistController.php:196-214 | Every "Fix Automatically" button on the site checklist names an action the health manager carries out. |
| Checklist.CompletionValue | drupal_headless/src/Service/HealthCheckManager.php:130-142 | The percentage is a PHP float for a non-empty check list, and the integer 0 for an empty one. |
| Checklist.ShowsCompleteBannerAsWritten | drupal_headless/src/Controller/ChecklistController.php:66 | As written, the "Setup Complete" banner is never shown. |
| Checklist.CompleteBannerNeverShown | drupal_headless/src/Controller/ChecklistController.php:66 | Even with all nine checks complete and the percentage at 100, the banner stays hidden. |
| Checklist.ShowsCompleteBanner | drupal_headless/src/Controller/ChecklistController.php:66 | Corrected: the banner shows when every check is complete. Below 200 checks, it shows only then. |
| Checklist.CompleteBannerIffAllComplete | drupal_headless/src/Controller/ChecklistController.php:66 | Corrected: the site banner shows exactly when all nine checks are complete. |
| SetupWizard.ProgressBounds | drupal_headless/src/Form/SetupWizardForm.php:99-103 | The progress bar is step × 20 percent. It grows with the step, stays between 20 and 100, and reaches 100 only at step 5. |
| SetupWizard.NavButtons | drupal_headless/src/Form/SetupWizardForm.php:137-162 | Back appears exactly for steps 2 to 4. Next appears exactly before step 5 and is labelled "Complete Setup" at step 4. Finish appears exactly at the last step. |
| SetupWizard.Build | drupal_headless/src/Form/SetupWizardForm.php:89-165 | The step starts at 1. Step 1 records whether the environment is ready: all dependencies, a private directory and OpenSSL. Step 2 records whether keys exist. Other steps leave the form state alone. |
| SetupWizard.KeyStep | drupal_headless/src/Form/SetupWizardForm.php:482-497 | "Regenerate" selects key regeneration, and otherwise keys are generated. |
| SetupWizard.JoinedOrigins | drupal_headless/src/Form/SetupWizardForm.php:530-533 | No parsed origins gives the empty string. |
| SetupWizard.JoinedOriginsSplit | drupal_headless/src/Form/SetupWizardForm.php:530-533 | The comma-joined origins split back into the parsed origin list. |
| SetupWizard.Forward | drupal_headless/src/Form/SetupWizardForm.php:467-543 | Corrected (see Findings): step 1 stays put with an error when the environment is not ready. Step 2 generates keys only when missing or asked to, and stays put on failure. Step 3 creates the consumer and stores its secret, staying put on failure. Step 4 writes the CORS settings, with the origins only when CORS is on. A success advances exactly one step. |
| SetupWizard.Back | drupal_headless/src/Form/SetupWizardForm.php:548-552 | "Back" goes one step back and changes nothing else. |
| SetupWizard.BackUndoesForward | drupal_headless/src/Form/SetupWizardForm.php:541-552 | Going back after a successful forward returns to the same step. |
| SetupWizard.ButtonsKeepStepInRange | drupal_headless/src/Form/SetupWizardForm.php:137-162 | Through the offered buttons the step stays between 1 and 5. |
| SetupWizard.WizardCompletes | drupal_headless/src/Form/SetupWizardForm.php:467-543 | Corrected (see Findings): on a ready site without keys, four forward steps succeed and reach step 5 with the progress bar at 100. |
| SetupWizard.BuildAsWritten | drupal_headless/src/Form/SetupWizardForm.php:331-365 | As written, building step 4 raises an uncaught error. Every other step builds as modelled. |
| SetupWizard.ForwardAsWritten | drupal_headless/src/Form/SetupWizardForm.php:467-543 | As written, a failing step raises the "errors after validation" exception, keeping any keys step 2 wrote. Step 3 raises at `Uuid::generate()` with the consumer stored and no secret. Step 4 raises at `getConfig()` with nothing written. Every other step advances as corrected. |
| SetupWizard.ConsumerStepAsWrittenFails | drupal_headless/src/Form/SetupWizardForm.php:500-514 | As written, "forward" at step 3 always raises, and a successful save leaves the consumer without a secret. The corrected wizard moves to step 4 with the secret stored. |
| SetupWizard.CorsStepAsWrittenFails | drupal_headless/src/Form/SetupWizardForm.php:527 | At step 4 both building and advancing raise as written, while the corrected wizard reaches step 5. |

## Left out

- HTTP transport: Guzzle's request and its timeout are replaced by an outcome oracle. Guzzle's default `http_errors` rule, under which a 4xx or 5xx status raises a request exception with that status as its code, is kept in `Webhooks.Send`.
- JSON encoding and HMAC-SHA256 are uninterpreted parameters, so only the signature's format and presence are stated, not its correctness.
- Time and identifiers: `time()`, `uniqid` and `random_bytes` become parameters with freshness preconditions, and so does the fresh secret the corrected consumer forms store.
- Drupal's backends become in-memory values: state, configuration, queue, temporary store and entity storage. The entity API calls used by `buildPayload` become an entity descriptor with optional fields.
- Messenger and logger calls are left out; they do not affect the returned values.
- OpenSSL key generation, file writes, `chmod`, backup copies and the removal of old keys are left out. Their outcomes enter as `KeyGenEffects`.
- Simple OAuth's configuration write is modelled only as pointing the configured key paths at the new keys.
- The module installer enters as `InstallOutcome`. The dependency graph is not modelled: a successful install names the dependencies it installed along with the module.
- HealthCheck.EnableModule: which dependencies the installer adds is an input (`Installed(dependencies)`), not derived from the modules' declared dependencies.
- Preview.CleanupExpiredTokens: the method returns nothing; the model's `cleaned` output is the count that gates the state write and the log line.
- Concurrency: two queue workers or two requests running at once are not modelled.
- Floating point: the completion percentage uses integer half-up rounding. It is exact for fewer than 200 checks, and the site has nine.
- QueueWorker.ProcessItem: the backoff delay is computed (`RetryDelay`) but, as in the source, never applied to the requeued job.
- Configuration.AddFramework, Configuration.RemoveFramework, Consumers.DeleteConsumer: a stored non-array framework list is excluded by a precondition. PHP raises a type error there.
- `getPreviewConfigurations` and `updatePreviewConfiguration` are not modelled. The latter calls the undefined `getConfig()`.
- `getConsumerSecret` is not modelled: it is a storage lookup with no rule of its own.
- The wizard's `finish` and `submitForm` are not modelled; they only redirect.
- The checklist's `executeAction` route handler is not modelled. It forwards to the health manager and shows the message.
- Rendering is not modelled beyond the group headings (`Checklist.GroupTitle`): markup, item titles, descriptions, `#states` and detail texts are left out.
- The CORS step of the wizard writes `cors.enabled`, `cors.allowed_origins` (a comma-joined string) and `rate_limiting.enabled`. These are kept in their own record (`SetupWizard.CorsConfig`), apart from the settings the rest of the module reads.
- Consumers.GetConsumers: the query's access check and the database's label collation are not modelled. The query result enters as a parameter, and `ListsEveryConsumerByLabel` states the listing for any collation. Entity ids are identified with UUIDs.
- EnvVariables.EnvKeys: its contract fixes only the count of names and the generic fallback. The framework-specific names are checked through EnvKeysAreNames and EnvRoundTrip rather than listed in an ensures.
- HealthCheck.CompletionPercentage: "100 exactly when all complete" is proved for fewer than 200 checks, not for every length, because integer half-up rounding reaches 100 earlier on longer lists.
- Checklist.ShowsCompleteBanner: its if-and-only-if is stated for fewer than 200 checks, for the same reason.
- The `headless_integration` module, the browser API tester and the rendering-only controllers and forms are not part of this model.

## Findings

| source | as written | input that shows it | evidently intended | confidence | as-written member | corrected member |
|---|---|---|---|---|---|---|
| drupal_headless/src/Controller/ChecklistController.php:66 | `$completion === 100`, where the completion comes from `round()` and is therefore a float | any site where all nine checks are complete: the completion is `100.0` and `100.0 === 100` is FALSE | show the "Setup Complete" banner when the completion is 100 | high, not executed | Checklist.ShowsCompleteBannerAsWritten, Checklist.CompleteBannerNeverShown | Checklist.ShowsCompleteBanner, Checklist.CompleteBannerIffAllComplete |
| drupal_headless/src/Service/HealthCheckManager.php:357 | the enable_cors action calls `$this->configManager->getConfig()`, a method ConfigurationManager does not define | any site with CORS disabled: the checklist offers "Fix Automatically" with action enable_cors, and the call raises an Error that `catch (\Exception)` does not catch | enable CORS and set the default origins in the editable module settings | high, not executed | HealthCheck.ExecuteActionAsWritten, HealthCheck.CorsAutoFixAsWrittenFails | HealthCheck.ExecuteAction, HealthCheck.EnableCorsCompletesCheck |
| drupal_headless/src/Form/SetupWizardForm.php:337 | step 4 of the wizard calls the undefined `getConfig()` both when building (line 337) and when advancing (line 527) | any session that reaches step 4, which needs the step-3 correction of line 513 first | show and save the CORS settings, then advance to step 5 | high, not executed | SetupWizard.BuildAsWritten, SetupWizard.ForwardAsWritten, SetupWizard.CorsStepAsWrittenFails | SetupWizard.Forward, SetupWizard.WizardCompletes |
| drupal_headless/src/Form/CreateConsumerForm.php:289 | the secret comes from `\Drupal\Component\Uuid\Uuid::generate()`, a static method that class does not define (it has only `isValid()`) | any creation whose save succeeds: the consumer is saved first, then the call raises an Error, so no secret is set and no credentials are shown | take the secret from the UUID service (`\Drupal::service('uuid')->generate()`) and show the credentials once | high, not executed | CreateConsumerForm.SubmitFormAsWritten, CreateConsumerForm.ConsumerWithoutSecretAsWritten | CreateConsumerForm.SubmitForm, CreateConsumerForm.CredentialsShownOnce |
| drupal_headless/src/Form/SetupWizardForm.php:513 | step 3 of the wizard takes the secret from the same undefined `Uuid::generate()` | any session whose consumer save succeeds at step 3: the consumer stays without a secret and the wizard never reaches step 4 | store a fresh secret, keep the credentials for the summary, and advance | high, not executed | SetupWizard.ForwardAsWritten, SetupWizard.ConsumerStepAsWrittenFails | SetupWizard.Forward, SetupWizard.WizardCompletes |
| drupal_headless/src/Form/SetupWizardForm.php:475 | the submit handler `stepForward` reports failures with `setError` (lines 475, 494 and 508), but Drupal's form state throws a `LogicException` when an error is set after validation has finished | step 1 with the environment not ready, a failed key generation at step 2, or a failed consumer save at step 3 | show the message and stay on the step | medium, not executed | SetupWizard.ForwardAsWritten | SetupWizard.Forward |
