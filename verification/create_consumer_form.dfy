/** The consumer creation form: the one-time credentials kept in the
    session's temporary store, and the `.env` file offered for download. */
module CreateConsumerForm {

  import opened Text
  import opened Consumers
  import opened EnvVariables

  const HEADER_TITLE := "# Drupal API Configuration"
  const HEADER_ORIGIN := "# Generated by Drupal Headless Module"
  const DEFAULT_FRAMEWORK := "nextjs"
  const FALLBACK_FRAMEWORK := "other"

  /** The error PHP raises at `Uuid::generate()`: the class defines only
      `isValid()`, so the call reaches no method. */
  const UNDEFINED_UUID_GENERATE := "Call to undefined method Drupal\\Component\\Uuid\\Uuid::generate()"

  /** The credentials shown once after creation. `title` is the application
      name when the form recorded one. */
  datatype Credentials = Credentials(clientId: String, clientSecret: String, framework: Option<String>, title: Option<String>)

  /** The framework the file is written for: Next.js when none is recorded. */
  function FrameworkOf(c: Credentials): (f: String)
    ensures c.framework.None? ==> f == DEFAULT_FRAMEWORK
  {
    c.framework.GetOr(DEFAULT_FRAMEWORK)
  }

  /** The two comment lines and the blank line the file starts with. */
  const HEADER := HEADER_TITLE + "\n" + HEADER_ORIGIN + "\n\n"

  /** `KEY=value`, the line that sets one variable. */
  function Setting(binding: (String, String)): (line: String) {
    binding.0 + "=" + binding.1
  }

  /** The setting lines of some variables, in order. */
  function Settings(vars: seq<(String, String)>): (lines: seq<String>)
    ensures |lines| == |vars|
    ensures forall i :: 0 <= i < |vars| ==> lines[i] == Setting(vars[i])
  {
    if vars == [] then [] else [Setting(vars[0])] + Settings(vars[1..])
  }

  /** The loop that writes the variables: one setting line each, every
      line ended by a line feed. */
  function EnvLines(vars: seq<(String, String)>): (text: String)
    ensures vars == [] <==> text == []
    ensures vars != [] ==> text[|text| - 1] == '\n'
  {
    if vars == [] then []
    else Setting(vars[0]) + "\n" + EnvLines(vars[1..])
  }

  /** The variables the file sets: the base URL, the client id and the
      client secret under the framework's three names. */
  function EnvVars(c: Credentials, baseUrl: String): (vars: seq<(String, String)>) {
    var keys := EnvKeys(FrameworkOf(c));
    [(keys[0], baseUrl), (keys[1], c.clientId), (keys[2], c.clientSecret)]
  }

  /** The `.env` file: the header, then the base URL, client id and client
      secret under the framework's names. */
  function GenerateEnvContent(c: Credentials, baseUrl: String): (content: String)
    ensures HEADER <= content
    ensures content[|content| - 1] == '\n'
  {
    HEADER + EnvLines(EnvVars(c, baseUrl))
  }

  /** Splits a line at its first `c`: the part before and the part after
      (all of the line and nothing when there is no `c`). */
  function SplitFirst(s: String, c: char): (r: (String, String))
    ensures c !in r.0
    ensures c in s ==> r.0 + [c] + r.1 == s
    ensures c !in s ==> r == (s, [])
  {
    if s == [] then ([], [])
    else if s[0] == c then ([], s[1..])
    else
      var (k, v) := SplitFirst(s[1..], c);
      assert [s[0]] + s[1..] == s;
      ([s[0]] + k, v)
  }

  /** Whether a line of a `.env` file sets a variable: it is neither blank
      nor a comment. */
  predicate IsSetting(line: String) {
    line != [] && line[0] != '#'
  }

  /** The variables a `.env` file sets, in order, as (name, value) pairs. */
  function ParseEnv(content: String): (vars: seq<(String, String)>)
    ensures |vars| == |Filter(Split(content, '\n'), IsSetting)|
  {
    Assignments(Filter(Split(content, '\n'), IsSetting))
  }

  /** Each line split at its first `=`, in order. */
  function Assignments(lines: seq<String>): (vars: seq<(String, String)>)
    ensures |vars| == |lines|
    ensures forall i :: 0 <= i < |lines| ==> vars[i] == SplitFirst(lines[i], '=')
  {
    if lines == [] then [] else [SplitFirst(lines[0], '=')] + Assignments(lines[1..])
  }

  /** Splitting `k=v` at its first `=` gives back `k` and `v` when `k` has
      no `=`. */
  lemma {:induction false} SplitFirstPair(k: String, v: String)
    requires '=' !in k
    ensures SplitFirst(k + "=" + v, '=') == (k, v)
    decreases |k|
  {
    var s := k + "=" + v;
    if k == [] {
      assert s[1..] == v;
    } else {
      SplitFirstPair(k[1..], v);
      assert s[1..] == k[1..] + "=" + v;
      assert [k[0]] + k[1..] == k;
    }
  }

  /** Whether the variables can be written one per line and read back:
      proper names and single-line values. */
  predicate Writable(vars: seq<(String, String)>) {
    forall i :: 0 <= i < |vars| ==> EnvName(vars[i].0) && '\n' !in vars[i].1
  }

  /** The written lines, split at the line feeds, are the setting lines and
      a final empty piece. */
  lemma {:induction false} SplitEnvLines(vars: seq<(String, String)>)
    requires Writable(vars)
    ensures Split(EnvLines(vars), '\n') == Settings(vars) + [[]]
    decreases |vars|
  {
    if vars == [] {
      assert Split([], '\n') == [[]];
    } else {
      var line, rest := Setting(vars[0]), EnvLines(vars[1..]);
      assert EnvName(vars[0].0) && '\n' !in vars[0].1;
      assert '\n' !in line;
      assert Writable(vars[1..]) by {
        forall i | 0 <= i < |vars| - 1 ensures EnvName(vars[1..][i].0) && '\n' !in vars[1..][i].1 {
          assert vars[1..][i] == vars[i + 1];
        }
      }
      SplitEnvLines(vars[1..]);
      SplitConcat(line, rest, '\n');
      assert EnvLines(vars) == line + ['\n'] + rest;
      assert Settings(vars) == [line] + Settings(vars[1..]);
    }
  }

  /** Setting lines are all kept as settings, and split back into the
      variables they set. */
  lemma SettingsReadBack(vars: seq<(String, String)>)
    requires Writable(vars)
    ensures Filter(Settings(vars), IsSetting) == Settings(vars)
    ensures Assignments(Settings(vars)) == vars
  {
    var lines := Settings(vars);
    forall i | 0 <= i < |vars|
      ensures IsSetting(lines[i]) && SplitFirst(lines[i], '=') == vars[i]
    {
      assert EnvName(vars[i].0);
      assert lines[i][0] == vars[i].0[0];
      SplitFirstPair(vars[i].0, vars[i].1);
    }
    FilterAll(lines, IsSetting);
  }

  /** Two single-line header lines and a blank line split off as three
      pieces of their own. */
  lemma SplitHeader(h1: String, h2: String, text: String)
    requires '\n' !in h1 && '\n' !in h2
    ensures Split(h1 + "\n" + h2 + "\n\n" + text, '\n') == [h1, h2, []] + Split(text, '\n')
  {
    var nl := '\n';
    var tail := [] + [nl] + text;
    var body := h2 + [nl] + tail;
    assert h1 + "\n" + h2 + "\n\n" + text == h1 + [nl] + body;
    SplitConcat([], text, nl);
    SplitConcat(h2, tail, nl);
    SplitConcat(h1, body, nl);
  }

  /** The header's pieces set nothing, so only the setting lines remain. */
  lemma KeepSettings(heads: seq<String>, vars: seq<(String, String)>)
    requires forall i :: 0 <= i < |heads| ==> !IsSetting(heads[i])
    requires Writable(vars)
    ensures Filter(heads + (Settings(vars) + [[]]), IsSetting) == Settings(vars)
  {
    FilterConcat(heads, Settings(vars) + [[]], IsSetting);
    FilterConcat(Settings(vars), [[]], IsSetting);
    FilterNone(heads, IsSetting);
    FilterNone([[]], IsSetting);
    SettingsReadBack(vars);
  }

  /** A file of the header and the lines of any writable variables sets
      exactly those variables, in order. */
  lemma EnvFileRoundTrip(vars: seq<(String, String)>)
    requires Writable(vars)
    ensures ParseEnv(HEADER + EnvLines(vars)) == vars
  {
    HeadersAreComments();
    SplitHeader(HEADER_TITLE, HEADER_ORIGIN, EnvLines(vars));
    SplitEnvLines(vars);
    KeepSettings([HEADER_TITLE, HEADER_ORIGIN, []], vars);
    SettingsReadBack(vars);
  }

  /** The generated file sets exactly the framework's three variables, in
      order, to the base URL, the client id and the client secret, provided
      none of the three values spans lines. */
  lemma EnvRoundTrip(c: Credentials, baseUrl: String)
    requires '\n' !in baseUrl && '\n' !in c.clientId && '\n' !in c.clientSecret
    ensures var keys := EnvKeys(FrameworkOf(c));
            ParseEnv(GenerateEnvContent(c, baseUrl)) == [(keys[0], baseUrl), (keys[1], c.clientId), (keys[2], c.clientSecret)]
  {
    EnvKeysAreNames(FrameworkOf(c));
    EnvFileRoundTrip(EnvVars(c, baseUrl));
  }

  /** The two header lines are single-line comments. */
  lemma HeadersAreComments()
    ensures !IsSetting(HEADER_TITLE) && !IsSetting(HEADER_ORIGIN)
    ensures '\n' !in HEADER_TITLE && '\n' !in HEADER_ORIGIN
  {
  }

  /** What the form shows. */
  datatype View = CredentialsView(credentials: Credentials) | CreateView

  /** Shows the stored credentials when there are any, else the creation
      form. */
  function BuildForm(temp: Option<Credentials>): (v: View)
    ensures v.CredentialsView? <==> temp.Some?
    ensures v.CredentialsView? ==> v.credentials == temp.value
  {
    if temp.Some? then CredentialsView(temp.value) else CreateView
  }

  /** What the creation form submits. */
  datatype Submission = Submission(title: String, description: String, framework: Option<String>)

  /** The consumers, and the secrets stored on them. */
  datatype ConsumerData = ConsumerData(store: ConsumerStore, secrets: map<String, String>)

  /** Creates the consumer with the fresh UUID `uuid` and sets its fresh
      secret `secret`; on success the credentials go to the temporary store.
      A failed save changes nothing at all. */
  function SubmitForm(temp: Option<Credentials>, data: ConsumerData, sub: Submission, uuid: String, secret: String, saveFails: bool)
    : (r: (Option<Credentials>, ConsumerData))
    requires uuid !in data.store
    ensures saveFails ==> r == (temp, data)
    ensures !saveFails ==> r.0 == Some(Credentials(uuid, secret, sub.framework, Some(sub.title)))
    ensures !saveFails ==> r.1.store.Keys == data.store.Keys + {uuid} && r.1.store[uuid].title == sub.title
    ensures !saveFails ==> r.1.secrets == data.secrets[uuid := secret]
  {
    var (created, store) := CreateConsumer(data.store, sub.title, sub.description, Options(None, None), uuid, saveFails);
    if created.None? then (temp, data)
    else (Some(Credentials(created.value.uuid, secret, sub.framework, Some(sub.title))),
          ConsumerData(store, data.secrets[created.value.uuid := secret]))
  }

  /** What a submission leaves behind: the temporary store, the consumer
      data, and the error that escaped the handler, if any. */
  datatype Submitted = Submitted(temp: Option<Credentials>, data: ConsumerData, error: Option<String>)

  /** `submitForm` as written: once the consumer is saved, the secret is
      asked of `Uuid::generate()`, which does not exist. The error escapes
      with the consumer already stored, before any secret is set and
      before the temporary store is written. */
  function SubmitFormAsWritten(temp: Option<Credentials>, data: ConsumerData, sub: Submission, uuid: String, saveFails: bool)
    : (r: Submitted)
    requires uuid !in data.store
    ensures r.temp == temp && r.data.secrets == data.secrets
    ensures r.error.Some? <==> !saveFails
    ensures r.error.Some? ==> r.error.value == UNDEFINED_UUID_GENERATE
    ensures saveFails ==> r.data == data
    ensures !saveFails ==> r.data.store.Keys == data.store.Keys + {uuid} && r.data.store[uuid].title == sub.title
  {
    var (created, store) := CreateConsumer(data.store, sub.title, sub.description, Options(None, None), uuid, saveFails);
    if created.None? then Submitted(temp, data, None)
    else Submitted(temp, ConsumerData(store, data.secrets), Some(UNDEFINED_UUID_GENERATE))
  }

  /** As written, a successful save leaves a consumer without a secret and
      the creation form on screen, where `SubmitForm` stores the secret and
      shows the credentials. */
  lemma ConsumerWithoutSecretAsWritten(data: ConsumerData, sub: Submission, uuid: String, secret: String)
    requires uuid !in data.store && uuid !in data.secrets
    ensures var r := SubmitFormAsWritten(None, data, sub, uuid, false);
            && uuid in r.data.store && uuid !in r.data.secrets
            && BuildForm(r.temp) == CreateView
    ensures var (t, d) := SubmitForm(None, data, sub, uuid, secret, false);
            d.secrets[uuid] == secret && BuildForm(t).CredentialsView?
  {
  }

  /** The route "Done" leads to. */
  const DASHBOARD_ROUTE := "drupal_headless.dashboard"

  /** The route "Create another" leads to. */
  const CREATE_CONSUMER_ROUTE := "drupal_headless.create_consumer"

  /** "Done": the credentials are discarded and the dashboard follows. */
  function CredentialsDone(temp: Option<Credentials>): (r: (Option<Credentials>, String))
    ensures r.0.None? && r.1 == DASHBOARD_ROUTE
  {
    (None, DASHBOARD_ROUTE)
  }

  /** "Create another": the credentials are discarded as well, and the
      creation form follows. */
  function CreateAnother(temp: Option<Credentials>): (r: (Option<Credentials>, String))
    ensures r.0.None? && r.1 == CREATE_CONSUMER_ROUTE
  {
    (None, CREATE_CONSUMER_ROUTE)
  }

  /** After a successful creation the form shows the new client id and the
      secret stored on the consumer; after either button it shows the
      creation form again. */
  lemma CredentialsShownOnce(temp: Option<Credentials>, data: ConsumerData, sub: Submission, uuid: String, secret: String)
    requires uuid !in data.store
    ensures var (t, d) := SubmitForm(temp, data, sub, uuid, secret, false);
            && BuildForm(t).CredentialsView?
            && BuildForm(t).credentials.clientId == uuid
            && BuildForm(t).credentials.clientSecret == d.secrets[uuid]
            && BuildForm(CredentialsDone(t).0) == CreateView
            && BuildForm(CreateAnother(t).0) == CreateView
  {
  }
}
