/** The webhook manager: the stored webhook registrations, the decision which
    of them an entity event reaches, the queue jobs an event produces, the
    signed HTTP delivery and the bounded delivery log. */
module Webhooks {

  import opened Text

  const NODE := "node"

  /** The events and entity types a registration listens to when it names none. */
  const DEFAULT_EVENTS: seq<String> := ["create", "update", "delete"]
  const DEFAULT_ENTITY_TYPES: seq<String> := [NODE]

  /** The delivery log keeps the newest 100 entries; `getLogs` returns 50 by default. */
  const LOG_CAPACITY: nat := 100
  const DEFAULT_LOG_LIMIT := 50

  const SIGNATURE_HEADER := "X-Webhook-Signature"
  const SIGNATURE_PREFIX := "sha256="
  const USER_AGENT := "Drupal-Headless-Webhook/1.0"
  const REQUEST_TIMEOUT := 10
  const TEST_EVENT := "test"
  const TEST_MESSAGE := "This is a test webhook from Drupal Headless Module"
  const UNKNOWN_ID := "unknown"

  /** A webhook registration. Keys the stored array may lack are `None`. */
  datatype Webhook = Webhook(
    id: Option<String>,
    title: Option<String>,
    url: String,
    secret: Option<String>,
    events: Option<seq<String>>,
    entityTypes: Option<seq<String>>,
    bundles: Option<seq<String>>,
    enabled: Option<bool>,
    created: Option<int>)

  datatype Author = Author(id: String, name: String)

  /** What the payload builder reads from an entity. `title` (the label) is absent for
      entities without a label method, `canonicalUrl` for entities without a
      canonical link template, and `author` unless the entity has a `uid`
      field referencing an existing user. */
  datatype Entity = Entity(
    entityType: String,
    bundle: String,
    id: String,
    uuid: String,
    title: Option<String>,
    canonicalUrl: Option<String>,
    published: bool,
    createdTime: int,
    changedTime: int,
    author: Option<Author>)

  datatype Payload =
    | EntityEvent(
        event: String,
        entityType: String,
        entityBundle: String,
        entityId: String,
        entityUuid: String,
        timestamp: int,
        entityLabel: Option<String>,
        entityUrl: Option<String>,
        published: Option<bool>,
        created: Option<int>,
        changed: Option<int>,
        author: Option<Author>)
    | TestEvent(event: String, message: String, timestamp: int)

  /** One item of the `drupal_headless_webhooks` queue. */
  datatype QueueItem = QueueItem(webhook: Webhook, payload: Payload, attempts: nat, created: int)

  /** One entry of the delivery log. */
  datatype LogEntry = LogEntry(
    webhookId: String,
    url: String,
    payload: Payload,
    statusCode: int,
    status: String,
    error: String,
    timestamp: int)

  /** The stored registrations: a PHP array keyed by webhook ID, i.e. a map
      together with the insertion order of its keys. */
  datatype Store = Store(order: seq<String>, hooks: map<String, Webhook>)

  /** The state the manager and the queue worker share. */
  datatype State = State(store: Store, queue: seq<QueueItem>, logs: seq<LogEntry>)

  /** The store is a well-formed ordered map: every key once, in both views. */
  ghost predicate ValidStore(s: Store) {
    Distinct(s.order) && forall k :: k in s.hooks <==> k in s.order
  }

  /** The registrations in iteration order. */
  function Hooks(s: Store): (ws: seq<Webhook>)
    requires ValidStore(s)
    ensures |ws| == |s.order|
    ensures forall i :: 0 <= i < |ws| ==> ws[i] == s.hooks[s.order[i]]
  {
    seq(|s.order|, i requires 0 <= i < |s.order| && s.order[i] in s.hooks => s.hooks[s.order[i]])
  }

  // ---------------------------------------------------------------------
  // Event filtering and queueing
  // ---------------------------------------------------------------------

  /** Whether a registration listens to `event` on `e`: the event must be in
      its event list (default create/update/delete), the entity type in its
      type list (default node), and, when it names bundles, the bundle among
      them. The `enabled` flag is not consulted. */
  function ShouldTrigger(w: Webhook, e: Entity, event: String): (r: bool)
    ensures r ==> event in w.events.GetOr(DEFAULT_EVENTS)
    ensures r ==> e.entityType in w.entityTypes.GetOr(DEFAULT_ENTITY_TYPES)
    ensures r && w.bundles.Some? && w.bundles.value != [] ==> e.bundle in w.bundles.value
    ensures (&& event in w.events.GetOr(DEFAULT_EVENTS)
             && e.entityType in w.entityTypes.GetOr(DEFAULT_ENTITY_TYPES)
             && (w.bundles.None? || w.bundles.value == [] || e.bundle in w.bundles.value)) ==> r
  {
    if event !in w.events.GetOr(DEFAULT_EVENTS) then false
    else if e.entityType !in w.entityTypes.GetOr(DEFAULT_ENTITY_TYPES) then false
    else if w.bundles.Some? && w.bundles.value != [] && e.bundle !in w.bundles.value then false
    else true
  }

  /** `ShouldTrigger` as a predicate over registrations. */
  function Matches(e: Entity, event: String): Webhook -> bool {
    (w: Webhook) => ShouldTrigger(w, e, event)
  }

  /** The payload sent for an entity event at time `now`. Node metadata
      (publication state, timestamps) is present exactly for nodes, and the
      author only for nodes. */
  function BuildPayload(e: Entity, event: String, now: int): (p: Payload)
    ensures p.EntityEvent? && p.event == event && p.timestamp == now
    ensures p.entityType == e.entityType && p.entityBundle == e.bundle
    ensures p.entityId == e.id && p.entityUuid == e.uuid
    ensures p.entityLabel == e.title && p.entityUrl == e.canonicalUrl
    ensures p.published.Some? <==> e.entityType == NODE
    ensures p.created.Some? <==> e.entityType == NODE
    ensures p.changed.Some? <==> e.entityType == NODE
    ensures p.published.Some? ==> p.published.value == e.published
    ensures p.author.Some? ==> e.entityType == NODE
    ensures e.entityType == NODE ==>
              p.created == Some(e.createdTime) && p.changed == Some(e.changedTime) && p.author == e.author
  {
    var isNode := e.entityType == NODE;
    EntityEvent(
      event, e.entityType, e.bundle, e.id, e.uuid, now,
      e.title, e.canonicalUrl,
      if isNode then Some(e.published) else None,
      if isNode then Some(e.createdTime) else None,
      if isNode then Some(e.changedTime) else None,
      if isNode then e.author else None)
  }

  /** The registrations the jobs of `jobs` deliver to, in order. */
  function JobHooks(jobs: seq<QueueItem>): (ws: seq<Webhook>)
    ensures |ws| == |jobs|
    ensures forall i :: 0 <= i < |jobs| ==> ws[i] == jobs[i].webhook
  {
    seq(|jobs|, i requires 0 <= i < |jobs| => jobs[i].webhook)
  }

  /** The jobs the `trigger` loop queues for `hooks`: one fresh job (no
      attempts yet, created now, carrying the shared payload) for each
      listening registration, in store order. */
  function QueueJobs(hooks: seq<Webhook>, e: Entity, event: String, payload: Payload, now: int): (jobs: seq<QueueItem>)
    ensures JobHooks(jobs) == Filter(hooks, Matches(e, event))
    ensures forall i :: 0 <= i < |jobs| ==> jobs[i] == QueueItem(jobs[i].webhook, payload, 0, now)
    decreases |hooks|
  {
    if hooks == [] then []
    else
      var rest := QueueJobs(hooks[1..], e, event, payload, now);
      var jobs := (if ShouldTrigger(hooks[0], e, event) then [QueueItem(hooks[0], payload, 0, now)] else []) + rest;
      assert JobHooks(jobs) == (if ShouldTrigger(hooks[0], e, event) then [hooks[0]] else []) + JobHooks(rest);
      jobs
  }

  /** An entity event appends to the queue one job per listening registration,
      in store order, all carrying the payload built for the event; the store
      and the log are untouched, and an empty store changes nothing. */
  function Trigger(st: State, e: Entity, event: String, now: int): (r: State)
    requires ValidStore(st.store)
    ensures r.store == st.store && r.logs == st.logs
    ensures st.store.order == [] ==> r == st
    ensures |st.queue| <= |r.queue| && r.queue[..|st.queue|] == st.queue
    ensures JobHooks(r.queue[|st.queue|..]) == Filter(Hooks(st.store), Matches(e, event))
    ensures forall i :: |st.queue| <= i < |r.queue| ==>
              r.queue[i].payload == BuildPayload(e, event, now) && r.queue[i].attempts == 0 && r.queue[i].created == now
  {
    if st.store.order == [] then st
    else
      var jobs := QueueJobs(Hooks(st.store), e, event, BuildPayload(e, event, now), now);
      var q := st.queue + jobs;
      assert q[|st.queue|..] == jobs;
      st.(queue := q)
  }

  /** A registration receives a job exactly when it is stored and listens to
      the event, and the number of new jobs is the number of listeners. */
  lemma TriggerReachesExactlyListeners(st: State, e: Entity, event: String, now: int, w: Webhook)
    requires ValidStore(st.store)
    ensures var added := Trigger(st, e, event, now).queue[|st.queue|..];
            (w in JobHooks(added) <==> w in Hooks(st.store) && ShouldTrigger(w, e, event))
            && |added| == Count(Hooks(st.store), Matches(e, event))
  {
    FilterCount(Hooks(st.store), Matches(e, event));
    FilterMembers(Hooks(st.store), Matches(e, event));
  }

  /** A disabled registration still receives jobs: `trigger` never reads the
      `enabled` flag. */
  lemma DisabledWebhookStillQueued(st: State, e: Entity, now: int)
    requires st.queue == [] && e.entityType == NODE
    requires st.store == Store(["w1"], map["w1" := Webhook(Some("w1"), None, "https://example.com/hook", None, None, None, None, Some(false), None)])
    ensures |Trigger(st, e, "update", now).queue| == 1
    ensures Trigger(st, e, "update", now).queue[0].webhook.enabled == Some(false)
  {
    var hooks := Hooks(st.store);
    assert hooks == [st.store.hooks["w1"]];
    assert ShouldTrigger(hooks[0], e, "update");
    assert Filter(hooks, Matches(e, "update")) == [hooks[0]];
  }

  /** A registration for node creations of bundle `article` listens to the
      creation of an article and ignores its update and the creation of a page. */
  lemma ArticleCreationFilter(w: Webhook, article: Entity, page: Entity)
    requires w.events == Some(["create"]) && w.entityTypes == Some([NODE]) && w.bundles == Some(["article"])
    requires article.entityType == NODE && article.bundle == "article"
    requires page.entityType == NODE && page.bundle == "page"
    ensures ShouldTrigger(w, article, "create")
    ensures !ShouldTrigger(w, article, "update")
    ensures !ShouldTrigger(w, page, "create")
  {
    assert "page" != "article";
    assert "update" != "create";
  }

  /** A registration that names neither events nor entity types listens to
      exactly the create, update and delete events on nodes. */
  lemma DefaultFilters(w: Webhook, e: Entity, event: String)
    requires w.events.None? && w.entityTypes.None? && w.bundles.None?
    ensures ShouldTrigger(w, e, event) <==> event in DEFAULT_EVENTS && e.entityType == NODE
  {
  }

  // ---------------------------------------------------------------------
  // Registrations
  // ---------------------------------------------------------------------

  /** Stores a new registration under the fresh ID `id` (the source's
      `uniqid`), stamped with that ID, the creation time and `enabled`. It is
      appended after the existing registrations, which are unchanged. */
  function AddWebhook(s: Store, w: Webhook, id: String, now: int): (r: (String, Store))
    requires ValidStore(s) && id !in s.hooks
    ensures r.0 == id && ValidStore(r.1)
    ensures r.1.order == s.order + [id]
    ensures r.1.hooks == s.hooks[id := w.(id := Some(id), created := Some(now), enabled := Some(true))]
  {
    (id, Store(s.order + [id], s.hooks[id := w.(id := Some(id), created := Some(now), enabled := Some(true))]))
  }

  /** Replaces the registration stored under `id`, keeping its position and
      stamping the ID; reports FALSE and writes nothing for an unknown ID.
      The `enabled` flag and creation time are whatever the caller passes. */
  function UpdateWebhook(s: Store, id: String, w: Webhook): (r: (bool, Store))
    requires ValidStore(s)
    ensures r.0 <==> id in s.hooks
    ensures ValidStore(r.1)
    ensures !r.0 ==> r.1 == s
    ensures r.0 ==> r.1.order == s.order && r.1.hooks == s.hooks[id := w.(id := Some(id))]
  {
    if id !in s.hooks then (false, s)
    else (true, Store(s.order, s.hooks[id := w.(id := Some(id))]))
  }

  /** The predicate selecting keys other than `id`. */
  function KeyIsNot(id: String): String -> bool {
    (k: String) => k != id
  }

  /** Removes the registration stored under `id`; reports FALSE and writes
      nothing for an unknown ID. The others keep their order. */
  function DeleteWebhook(s: Store, id: String): (r: (bool, Store))
    requires ValidStore(s)
    ensures r.0 <==> id in s.hooks
    ensures ValidStore(r.1)
    ensures !r.0 ==> r.1 == s
    ensures r.0 ==> r.1.order == Filter(s.order, KeyIsNot(id)) && r.1.hooks == s.hooks - {id}
  {
    if id !in s.hooks then (false, s)
    else
      FilterDistinct(s.order, KeyIsNot(id));
      FilterMembers(s.order, KeyIsNot(id));
      (true, Store(Filter(s.order, KeyIsNot(id)), s.hooks - {id}))
  }

  /** Deleting a registration just added restores the store exactly. */
  lemma {:induction false} DeleteUndoesAdd(s: Store, w: Webhook, id: String, now: int)
    requires ValidStore(s) && id !in s.hooks
    ensures DeleteWebhook(AddWebhook(s, w, id, now).1, id) == (true, s)
  {
    var added := AddWebhook(s, w, id, now).1;
    DropAppendedKey(s.order, id);
    assert added.hooks - {id} == s.hooks;
  }

  /** Filtering out a key appended to an order without it gives the order back. */
  lemma DropAppendedKey(order: seq<String>, id: String)
    requires id !in order
    ensures Filter(order + [id], KeyIsNot(id)) == order
  {
    var p := KeyIsNot(id);
    FilterConcat(order, [id], p);
    forall i | 0 <= i < |order| ensures p(order[i]) {
      assert order[i] in order;
    }
    FilterAll(order, p);
    assert Filter([id], p) == Filter([id][1..], p);
  }

  /** A new registration is listed last, after the others in their order. */
  lemma AddWebhookHooks(s: Store, w: Webhook, id: String, now: int)
    requires ValidStore(s) && id !in s.hooks
    ensures Hooks(AddWebhook(s, w, id, now).1) == Hooks(s) + [w.(id := Some(id), created := Some(now), enabled := Some(true))]
  {
    var after := AddWebhook(s, w, id, now).1;
    forall i | 0 <= i < |s.order| ensures Hooks(after)[i] == Hooks(s)[i] {
      assert s.order[i] in s.order;
    }
  }

  /** Deleting the registration listed at position `k` lists the others as
      before, in their order. */
  lemma DeleteWebhookHooks(s: Store, k: nat)
    requires ValidStore(s) && k < |s.order|
    ensures var before := Hooks(s);
            Hooks(DeleteWebhook(s, s.order[k]).1) == before[..k] + before[k + 1..]
  {
    var id := s.order[k];
    var after := DeleteWebhook(s, id).1;
    DropKeyAt(s.order, k);
    var before := Hooks(s);
    forall i | 0 <= i < |after.order| ensures Hooks(after)[i] == (before[..k] + before[k + 1..])[i] {
      if i < k {
        assert after.order[i] == s.order[i];
      } else {
        assert after.order[i] == s.order[i + 1];
      }
    }
  }

  /** Filtering a key out of an order that holds it once removes just its
      position. */
  lemma DropKeyAt(order: seq<String>, k: nat)
    requires Distinct(order) && k < |order|
    ensures Filter(order, KeyIsNot(order[k])) == order[..k] + order[k + 1..]
  {
    var id := order[k];
    var left, right := order[..k], order[k + 1..];
    assert id !in left by {
      forall i | 0 <= i < k ensures left[i] != id {
        assert left[i] == order[i];
      }
    }
    assert id !in right by {
      forall i | 0 <= i < |right| ensures right[i] != id {
        assert right[i] == order[k + 1 + i];
      }
    }
    assert order == left + [id] + right;
    DropKeyBetween(left, id, right);
  }

  /** Filtering out a key that occurs once, between two runs without it,
      joins the runs. */
  lemma DropKeyBetween(left: seq<String>, id: String, right: seq<String>)
    requires id !in left && id !in right
    ensures Filter(left + [id] + right, KeyIsNot(id)) == left + right
  {
    var p := KeyIsNot(id);
    FilterConcat(left + [id], right, p);
    DropAppendedKey(left, id);
    forall i | 0 <= i < |right| ensures p(right[i]) {
      assert right[i] in right;
    }
    FilterAll(right, p);
  }

  // ---------------------------------------------------------------------
  // Delivery
  // ---------------------------------------------------------------------

  datatype Header = Header(name: String, value: String)

  /** The POST request the HTTP client is asked to send. */
  datatype Request = Request(url: String, headers: seq<Header>, body: String, timeout: int)

  /** What the HTTP client call ends in: a response, a request exception
      (with its code and message), or any other exception. */
  datatype HttpOutcome =
    | Response(status: int)
    | RequestError(code: int, message: String)
    | OtherError(message: String)

  /** What the model takes as given: the JSON encoder, the HMAC-SHA256
      primitive (message, key), and the message of the exception the HTTP
      client raises for a request answered with an error status. */
  datatype Codec = Codec(
    json: Payload -> String,
    hmac: (String, String) -> String,
    badResponse: (Request, int) -> String)

  /** The value of the first header named `name`, if any. */
  function HeaderValue(hs: seq<Header>, name: String): (v: Option<String>)
    ensures v.None? <==> forall i :: 0 <= i < |hs| ==> hs[i].name != name
    decreases |hs|
  {
    if hs == [] then None
    else if hs[0].name == name then Some(hs[0].value)
    else
      var v := HeaderValue(hs[1..], name);
      assert forall i :: 1 <= i < |hs| ==> hs[i] == hs[1..][i - 1];
      v
  }

  /** The signature header value: "sha256=" followed by the HMAC of the JSON
      encoding of the payload, keyed by the secret. */
  function GenerateSignature(p: Payload, secret: String, c: Codec): (sig: String)
    ensures SIGNATURE_PREFIX <= sig
    ensures sig[|SIGNATURE_PREFIX|..] == c.hmac(c.json(p), secret)
  {
    SIGNATURE_PREFIX + c.hmac(c.json(p), secret)
  }

  /** The request for delivering `p` to `w`: JSON content type and the
      module's user agent always, and a signature header exactly when the
      registration has a non-empty secret ("0" counts as empty). */
  function BuildRequest(w: Webhook, p: Payload, c: Codec): (req: Request)
    ensures req.url == w.url && req.body == c.json(p) && req.timeout == REQUEST_TIMEOUT
    ensures HeaderValue(req.headers, "Content-Type") == Some("application/json")
    ensures HeaderValue(req.headers, "User-Agent") == Some(USER_AGENT)
    ensures HeaderValue(req.headers, SIGNATURE_HEADER).Some? <==> Truthy(w.secret)
    ensures Truthy(w.secret) ==> HeaderValue(req.headers, SIGNATURE_HEADER) == Some(GenerateSignature(p, w.secret.value, c))
  {
    var secret := w.secret.GetOr("");
    var base := [Header("Content-Type", "application/json"), Header("User-Agent", USER_AGENT)];
    var headers := if !PhpEmpty(secret) then base + [Header(SIGNATURE_HEADER, GenerateSignature(p, secret, c))] else base;
    assert HeaderValue(headers, SIGNATURE_HEADER) == HeaderValue(headers[1..], SIGNATURE_HEADER)
        == HeaderValue(headers[2..], SIGNATURE_HEADER);
    Request(w.url, headers, c.json(p), REQUEST_TIMEOUT)
  }

  /** The log entry for one delivery; a registration without an ID is
      logged as "unknown". */
  function NewLogEntry(w: Webhook, p: Payload, statusCode: int, status: String, error: String, now: int): (l: LogEntry)
    ensures w.id.Some? ==> l.webhookId == w.id.value
    ensures w.id.None? ==> l.webhookId == UNKNOWN_ID
    ensures l.url == w.url && l.payload == p && l.timestamp == now
  {
    LogEntry(w.id.GetOr(UNKNOWN_ID), w.url, p, statusCode, status, error, now)
  }

  /** Records a delivery: the entry becomes the newest, the older entries
      follow in order, and only the newest 100 are kept. */
  function LogWebhook(logs: seq<LogEntry>, entry: LogEntry): (r: seq<LogEntry>)
    ensures |r| == if |logs| < LOG_CAPACITY then |logs| + 1 else LOG_CAPACITY
    ensures r[0] == entry
    ensures r[1..] == logs[..|r| - 1]
  {
    Take([entry] + logs, LOG_CAPACITY)
  }

  /** Records several deliveries, oldest first. */
  function LogAll(logs: seq<LogEntry>, entries: seq<LogEntry>): (r: seq<LogEntry>)
    ensures entries != [] ==> |r| <= LOG_CAPACITY
    decreases |entries|
  {
    if entries == [] then logs else LogAll(LogWebhook(logs, entries[0]), entries[1..])
  }

  /** After any run of deliveries the log holds the newest entries first,
      followed by the older log, cut at 100 entries. */
  lemma {:induction false} LogAllNewestFirst(logs: seq<LogEntry>, entries: seq<LogEntry>)
    requires |logs| <= LOG_CAPACITY
    ensures LogAll(logs, entries) == Take(Reverse(entries) + logs, LOG_CAPACITY)
    decreases |entries|
  {
    if entries == [] {
      assert Reverse(entries) + logs == logs;
    } else {
      var e := entries[0];
      var logged := LogWebhook(logs, e);
      assert logged == Take([e] + logs, LOG_CAPACITY);
      LogAllNewestFirst(logged, entries[1..]);
      TakeAbsorbs(Reverse(entries[1..]), [e] + logs, LOG_CAPACITY);
      ReverseThenAppend(entries, logs);
    }
  }

  /** `getLogs($limit)`: PHP `array_slice($logs, 0, $limit)`, where a
      negative limit stops that many entries before the end. */
  function GetLogs(logs: seq<LogEntry>, limit: int): (r: seq<LogEntry>)
    ensures r <= logs
    ensures limit >= 0 ==> |r| == if |logs| <= limit then |logs| else limit
    ensures limit < 0 ==> |r| == if |logs| + limit <= 0 then 0 else |logs| + limit
  {
    if limit >= 0 then Take(logs, limit)
    else if |logs| + limit <= 0 then []
    else logs[..|logs| + limit]
  }

  /** Without a limit, the newest 50 entries are listed, newest first. */
  lemma DefaultLogLimit(logs: seq<LogEntry>)
    ensures var r := GetLogs(logs, DEFAULT_LOG_LIMIT);
            r <= logs && |r| == if |logs| < DEFAULT_LOG_LIMIT then |logs| else DEFAULT_LOG_LIMIT
  {
  }

  /** Whether a delivery outcome counts as success: a 2xx response. */
  predicate Delivered(o: HttpOutcome) {
    o.Response? && 200 <= o.status < 300
  }

  /** The lowest status the HTTP client (Guzzle, whose `http_errors`
      option is on unless a request turns it off) answers with a request
      exception carrying that status as its code: every 4xx and 5xx. */
  const ERROR_STATUS := 400

  /** Delivers `p` to `w` through `client` at time `now`. A response with
      an error status never reaches the success branch: the client raises
      a request exception, logged as "failed" with the status and the
      client's message. Any other response is logged as "success" with its
      status, and the result is TRUE only for 2xx. A request exception is
      logged as "failed" with its code and message; any other exception is
      not logged. Only the log changes. */
  function Send(st: State, w: Webhook, p: Payload, client: Request -> HttpOutcome, c: Codec, now: int): (r: (bool, State))
    ensures r.1.store == st.store && r.1.queue == st.queue
    ensures r.0 <==> Delivered(client(BuildRequest(w, p, c)))
    ensures var req := BuildRequest(w, p, c);
            var o := client(req);
            && (o.Response? && o.status < ERROR_STATUS ==>
                  r.1.logs == LogWebhook(st.logs, NewLogEntry(w, p, o.status, "success", "", now)))
            && (o.Response? && o.status >= ERROR_STATUS ==>
                  r.1.logs == LogWebhook(st.logs, NewLogEntry(w, p, o.status, "failed", c.badResponse(req, o.status), now)))
            && (o.RequestError? ==> r.1.logs == LogWebhook(st.logs, NewLogEntry(w, p, o.code, "failed", o.message, now)))
            && (o.OtherError? ==> r.1.logs == st.logs)
  {
    var req := BuildRequest(w, p, c);
    match client(req)
    case Response(status) =>
      if status >= ERROR_STATUS then
        (false, st.(logs := LogWebhook(st.logs, NewLogEntry(w, p, status, "failed", c.badResponse(req, status), now))))
      else
        (200 <= status < 300, st.(logs := LogWebhook(st.logs, NewLogEntry(w, p, status, "success", "", now))))
    case RequestError(code, message) =>
      (false, st.(logs := LogWebhook(st.logs, NewLogEntry(w, p, code, "failed", message, now))))
    case OtherError(_) =>
      (false, st)
  }

  /** A delivery answered with a response is logged as "success" exactly
      when the status is below 400; an error status is reported and logged
      as a failure carrying that status. */
  lemma ErrorStatusLoggedAsFailed(st: State, w: Webhook, p: Payload, client: Request -> HttpOutcome, c: Codec, now: int)
    requires client(BuildRequest(w, p, c)).Response?
    ensures var status := client(BuildRequest(w, p, c)).status;
            var r := Send(st, w, p, client, c, now);
            && (r.1.logs[0].status == "success" <==> status < ERROR_STATUS)
            && r.1.logs[0].statusCode == status
            && (status >= ERROR_STATUS ==> !r.0 && r.1.logs[0].status == "failed")
  {
    assert "success" != "failed" by {
      assert "success"[0] != "failed"[0];
    }
  }

  /** The payload of a test delivery. */
  function TestPayload(now: int): (p: Payload)
    ensures p.TestEvent? && p.event == TEST_EVENT && p.timestamp == now
  {
    TestEvent(TEST_EVENT, TEST_MESSAGE, now)
  }

  /** Sends a test payload to `w` immediately, bypassing the queue: the queue
      and the store are untouched, and the test delivery is logged as any
      delivery is. */
  function TestWebhook(st: State, w: Webhook, client: Request -> HttpOutcome, c: Codec, now: int): (r: (bool, State))
    ensures r.1.store == st.store && r.1.queue == st.queue
    ensures r.0 <==> Delivered(client(BuildRequest(w, TestPayload(now), c)))
    ensures var p := TestPayload(now);
            var req := BuildRequest(w, p, c);
            var o := client(req);
            && (o.Response? && o.status < ERROR_STATUS ==>
                  r.1.logs == LogWebhook(st.logs, NewLogEntry(w, p, o.status, "success", "", now)))
            && (o.Response? && o.status >= ERROR_STATUS ==>
                  r.1.logs == LogWebhook(st.logs, NewLogEntry(w, p, o.status, "failed", c.badResponse(req, o.status), now)))
            && (o.RequestError? ==> r.1.logs == LogWebhook(st.logs, NewLogEntry(w, p, o.code, "failed", o.message, now)))
            && (o.OtherError? ==> r.1.logs == st.logs)
  {
    Send(st, w, TestPayload(now), client, c, now)
  }
}
