/** The settings form: the allowed-origins text area (one origin per line),
    its validation, and what a submission saves. */
module SettingsForm {

  import opened Text
  import opened Configuration

  const INVALID_URL := "Invalid URL: "

  /** An origin as a parsed text area yields it: truthy, on one line, and
      without surrounding whitespace. */
  predicate CleanOrigin(o: String) {
    && !PhpEmpty(o)
    && '\n' !in o
    && !IsSpace(o[0]) && !IsSpace(o[|o| - 1])
  }

  /** The origins of a text area: nothing for an empty (or missing) text;
      otherwise its lines, trimmed, without the falsy ones ("" and "0"), in
      order. */
  function ParseOrigins(text: Option<String>): (origins: seq<String>)
    ensures !Truthy(text) ==> origins == []
    ensures forall i :: 0 <= i < |origins| ==> CleanOrigin(origins[i])
    ensures Truthy(text) ==> forall line :: line in Split(text.value, '\n') && NonEmpty(Trim(line)) ==> Trim(line) in origins
    ensures Truthy(text) ==> forall o :: o in origins ==> exists line :: line in Split(text.value, '\n') && o == Trim(line)
  {
    if !Truthy(text) then []
    else
      var lines := Split(text.value, '\n');
      TrimmedLinesClean(lines);
      MapFilterMembers(lines, TrimAll(lines), Trim, NonEmpty);
      KeepTruthy(TrimAll(lines))
  }

  /** The truthy trimmed lines are clean origins. */
  lemma TrimmedLinesClean(lines: seq<String>)
    requires forall i :: 0 <= i < |lines| ==> '\n' !in lines[i]
    ensures var kept := KeepTruthy(TrimAll(lines));
            forall i :: 0 <= i < |kept| ==> CleanOrigin(kept[i])
  {
    var trimmed := TrimAll(lines);
    var kept := KeepTruthy(trimmed);
    FilterMembers(trimmed, NonEmpty);
    forall i | 0 <= i < |kept| ensures CleanOrigin(kept[i]) {
      assert kept[i] in kept;
      TrimmedLineClean(lines, trimmed, kept[i]);
    }
  }

  /** A truthy trimmed line is a clean origin. */
  lemma TrimmedLineClean(lines: seq<String>, trimmed: seq<String>, o: String)
    requires forall i :: 0 <= i < |lines| ==> '\n' !in lines[i]
    requires |trimmed| == |lines| && forall i :: 0 <= i < |lines| ==> trimmed[i] == Trim(lines[i])
    requires o in trimmed && NonEmpty(o)
    ensures CleanOrigin(o)
  {
    var j :| 0 <= j < |lines| && trimmed[j] == o;
    assert '\n' !in lines[j];
  }

  /** The text area is pre-filled with the stored origins, one per line;
      saving it unchanged stores the same origins again. */
  lemma {:induction false} ParseJoinedOrigins(origins: seq<String>)
    requires forall i :: 0 <= i < |origins| ==> CleanOrigin(origins[i])
    ensures ParseOrigins(Some(Join(origins, '\n'))) == origins
  {
    if origins != [] {
      var text := Join(origins, '\n');
      JoinStartsWithFirst(origins, '\n');
      assert Truthy(Some(text)) by {
        if |origins| == 1 {
          assert text == origins[0];
        } else {
          assert |text| > |origins[0]| >= 1;
          assert text[|origins[0]|] == '\n';
        }
      }
      SplitJoin(origins, '\n');
      var trimmed := TrimAll(origins);
      assert trimmed == origins by {
        forall i | 0 <= i < |origins| ensures trimmed[i] == origins[i] {
          TrimUnspaced(origins[i]);
        }
      }
      FilterAll(origins, NonEmpty);
    }
  }

  /** `implode` begins with the first piece, followed by the separator when
      there are more. */
  lemma JoinStartsWithFirst(parts: seq<String>, sep: char)
    requires parts != []
    ensures |Join(parts, sep)| >= |parts[0]| && Join(parts, sep)[..|parts[0]|] == parts[0]
    ensures |parts| > 1 ==> |Join(parts, sep)| > |parts[0]| && Join(parts, sep)[|parts[0]|] == sep
  {
  }

  /** `Invalid URL: <origin>` for each origin. */
  function ErrorMessages(origins: seq<String>): (errors: seq<String>)
    ensures |errors| == |origins|
    ensures forall i :: 0 <= i < |origins| ==> errors[i] == INVALID_URL + origins[i]
  {
    seq(|origins|, i requires 0 <= i < |origins| => INVALID_URL + origins[i])
  }

  lemma ErrorMessagesConcat(a: seq<String>, b: seq<String>)
    ensures ErrorMessages(a + b) == ErrorMessages(a) + ErrorMessages(b)
  {
  }

  function Invalid(isUrl: String -> bool): (rejected: String -> bool) {
    (o: String) => !isUrl(o)
  }

  /** One error for each origin `isUrl` rejects, in order; none exactly
      when it accepts them all. */
  method ReportInvalid(origins: seq<String>, isUrl: String -> bool) returns (errors: seq<String>)
    ensures errors == ErrorMessages(Filter(origins, Invalid(isUrl)))
    ensures errors == [] <==> forall i :: 0 <= i < |origins| ==> isUrl(origins[i])
  {
    errors := [];
    var i := 0;
    while i < |origins|
      invariant 0 <= i <= |origins|
      invariant errors == ErrorMessages(Filter(origins[..i], Invalid(isUrl)))
    {
      var o := origins[i];
      var before := Filter(origins[..i], Invalid(isUrl));
      FilterConcat(origins[..i], [o], Invalid(isUrl));
      assert origins[..i + 1] == origins[..i] + [o];
      if !isUrl(o) {
        assert Filter([o], Invalid(isUrl)) == [o];
        ErrorMessagesConcat(before, [o]);
        errors := errors + [INVALID_URL + o];
      } else {
        assert Filter([o], Invalid(isUrl)) == [];
        assert before + [] == before;
      }
      i := i + 1;
    }
    assert origins[..i] == origins;
    FilterNone(origins, Invalid(isUrl));
  }

  /** Validates the origins text with the URL check `isUrl`: one error is
      raised for each parsed origin it rejects, in order, and none
      otherwise. The form state keeps only the first error set on an
      element, so `shown`, the message the form displays, names the first
      rejected origin. */
  method ValidateForm(text: Option<String>, isUrl: String -> bool) returns (errors: seq<String>, shown: Option<String>)
    ensures errors == ErrorMessages(Filter(ParseOrigins(text), Invalid(isUrl)))
    ensures errors == [] <==> forall i :: 0 <= i < |ParseOrigins(text)| ==> isUrl(ParseOrigins(text)[i])
    ensures shown.None? <==> errors == []
    ensures shown.Some? ==>
              var origins := ParseOrigins(text);
              exists i :: && 0 <= i < |origins| && !isUrl(origins[i])
                          && shown.value == INVALID_URL + origins[i]
                          && forall j :: 0 <= j < i ==> isUrl(origins[j])
  {
    var origins := ParseOrigins(text);
    errors := ReportInvalid(origins, isUrl);
    if errors == [] {
      shown := None;
    } else {
      var i := FilterFirst(origins, Invalid(isUrl));
      shown := Some(errors[0]);
      assert shown.value == INVALID_URL + origins[i];
    }
  }

  /** The values a submission carries. */
  datatype Values = Values(
    enableCors: bool,
    corsAllowedOrigins: Option<String>,
    enableRateLimiting: bool,
    rateLimitRequests: Option<int>,
    rateLimitWindow: Option<int>,
    autoConfigureOauth: bool,
    defaultTokenExpiration: Option<int>)

  /** Saves a submission: the seven form settings take the submitted values,
      with the origins parsed into a list; the frameworks and preview URLs
      are kept. */
  function SubmitForm(s: Settings, v: Values): (r: Settings)
    ensures GetAllowedOrigins(r) == ParseOrigins(v.corsAllowedOrigins)
    ensures r.enableCors == v.enableCors && r.enableRateLimiting == v.enableRateLimiting
    ensures r.rateLimitRequests == v.rateLimitRequests && r.rateLimitWindow == v.rateLimitWindow
    ensures r.autoConfigureOauth == v.autoConfigureOauth && r.defaultTokenExpiration == v.defaultTokenExpiration
    ensures r.frontendFrameworks == s.frontendFrameworks
    ensures r.defaultPreviewUrl == s.defaultPreviewUrl && r.previewUrls == s.previewUrls
  {
    s.(enableCors := v.enableCors,
       corsAllowedOrigins := Array(ParseOrigins(v.corsAllowedOrigins)),
       enableRateLimiting := v.enableRateLimiting,
       rateLimitRequests := v.rateLimitRequests,
       rateLimitWindow := v.rateLimitWindow,
       autoConfigureOauth := v.autoConfigureOauth,
       defaultTokenExpiration := v.defaultTokenExpiration)
  }

  /** Saving the form with the origins text it was pre-filled with keeps
      the stored origin list. */
  lemma ResubmitKeepsOrigins(s: Settings, v: Values)
    requires forall i :: 0 <= i < |GetAllowedOrigins(s)| ==> CleanOrigin(GetAllowedOrigins(s)[i])
    requires v.corsAllowedOrigins == Some(Join(GetAllowedOrigins(s), '\n'))
    ensures GetAllowedOrigins(SubmitForm(s, v)) == GetAllowedOrigins(s)
  {
    ParseJoinedOrigins(GetAllowedOrigins(s));
  }
}
