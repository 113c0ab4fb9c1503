/** The environment variable names the generated `.env` file uses for each
    frontend framework. */
module EnvVariables {

  /** The generic names; the frameworks add their own prefixes. */
  const BASE_URL := "DRUPAL_BASE_URL"
  const CLIENT_ID := "CLIENT_ID"
  const CLIENT_SECRET := "CLIENT_SECRET"

  /** The three variable names, for base URL, client id and client secret,
      that each frontend framework expects; unknown frameworks get the
      generic names. */
  function EnvKeys(framework: seq<char>): (keys: seq<seq<char>>)
    ensures |keys| == 3
    ensures framework !in ["nextjs", "react", "vue", "astro"] ==> keys == [BASE_URL, CLIENT_ID, CLIENT_SECRET]
  {
    match framework
    case "nextjs" => ["NEXT_PUBLIC_" + BASE_URL, "DRUPAL_" + CLIENT_ID, "DRUPAL_" + CLIENT_SECRET]
    case "react" => ["REACT_APP_" + BASE_URL, "REACT_APP_" + CLIENT_ID, CLIENT_SECRET]
    case "vue" => ["VUE_APP_" + BASE_URL, "VUE_APP_" + CLIENT_ID, CLIENT_SECRET]
    case "astro" => ["PUBLIC_" + BASE_URL, "DRUPAL_" + CLIENT_ID, "DRUPAL_" + CLIENT_SECRET]
    case _ => [BASE_URL, CLIENT_ID, CLIENT_SECRET]
  }

  /** A variable name as a `.env` line can carry it: non-empty, not a
      comment, and without `=` or a line feed. */
  predicate EnvName(k: seq<char>) {
    k != [] && k[0] != '#' && '=' !in k && '\n' !in k
  }

  /** Every framework's variable names are proper names. */
  lemma EnvKeysAreNames(framework: seq<char>)
    ensures forall i :: 0 <= i < 3 ==> EnvName(EnvKeys(framework)[i])
  {
    GenericNames();
    PrefixNames();
    var keys := EnvKeys(framework);
    assert EnvName(keys[0]) && EnvName(keys[1]) && EnvName(keys[2]) by {
      if framework == "nextjs" {
        PrefixedName("NEXT_PUBLIC_", BASE_URL);
        PrefixedName("DRUPAL_", CLIENT_ID);
        PrefixedName("DRUPAL_", CLIENT_SECRET);
      } else if framework == "react" {
        PrefixedName("REACT_APP_", BASE_URL);
        PrefixedName("REACT_APP_", CLIENT_ID);
      } else if framework == "vue" {
        PrefixedName("VUE_APP_", BASE_URL);
        PrefixedName("VUE_APP_", CLIENT_ID);
      } else if framework == "astro" {
        PrefixedName("PUBLIC_", BASE_URL);
        PrefixedName("DRUPAL_", CLIENT_ID);
        PrefixedName("DRUPAL_", CLIENT_SECRET);
      }
    }
  }

  lemma GenericNames()
    ensures EnvName(BASE_URL) && EnvName(CLIENT_ID) && EnvName(CLIENT_SECRET)
  {
  }

  lemma PrefixNames()
    ensures EnvName("NEXT_PUBLIC_") && EnvName("DRUPAL_") && EnvName("PUBLIC_")
    ensures EnvName("REACT_APP_") && EnvName("VUE_APP_")
  {
  }

  /** A name behind a prefix that is itself a name is a name. */
  lemma PrefixedName(prefix: seq<char>, k: seq<char>)
    requires EnvName(prefix) && EnvName(k)
    ensures EnvName(prefix + k)
  {
  }
}
