/** What the handler promises its callers, stated over `Handle`: the order
    of the checks, which response each failed check produces, and what is
    sent when they all pass. */
module HandlerProperties {
  import opened Wrappers
  import opened JsString
  import opened ServiceRequest

  /** Any method other than POST is refused with 405 before anything else
      is looked at, and nothing is sent. */
  lemma NonPostRejected(httpMethod: string, apiKey: Option<string>, body: Option<Submission>,
                        provider: ProviderResult)
    requires httpMethod != "POST"
    ensures Handle(httpMethod, apiKey, body, provider)
         == Outcome(Response(405, Error("Method not allowed")), None)
  {
  }

  /** A POST without a usable API key fails with 500 whatever the body is,
      and nothing is sent. */
  lemma MissingKeyRejected(apiKey: Option<string>, body: Option<Submission>,
                           provider: ProviderResult)
    requires apiKey.None? || apiKey.value == ""
    ensures Handle("POST", apiKey, body, provider)
         == Outcome(Response(500, Error("Server configuration error.")), None)
  {
  }

  /** A POST with a key whose body does not parse fails with 400, and
      nothing is sent. */
  lemma InvalidBodyRejected(apiKey: Option<string>, provider: ProviderResult)
    requires Truthy(apiKey)
    ensures Handle("POST", apiKey, None, provider)
         == Outcome(Response(400, Error("Invalid request body.")), None)
  {
  }

  /** A required field counts as missing exactly when it is absent or made
      only of whitespace. */
  lemma BlankIffWhitespace(v: Option<string>)
    ensures Blank(v) <==> v.None? || AllWhitespace(v.value)
  {
  }

  /** Different fields have different names, so the error message names
      exactly one field. */
  lemma FieldNameInjective(f: Field, g: Field)
    requires FieldName(f) == FieldName(g)
    ensures f == g
  {
  }

  /** The checking order lists each field once. */
  lemma RequiredDistinct(i: int, j: int)
    requires 0 <= i < |Required| && 0 <= j < |Required| && Required[i] == Required[j]
    ensures i == j
  {
  }

  /** At most one index is the first blank one. */
  lemma FirstBlankUnique(s: Submission, fields: seq<Field>, i: int, j: int)
    requires IsFirstBlank(s, fields, i) && IsFirstBlank(s, fields, j)
    ensures i == j
  {
  }

  /** With a POST, a key and a parsed body, the checks stop at the
      missing-field error naming the k-th required field exactly when that
      field is blank and every field before it is filled in. */
  lemma MissingFieldReported(apiKey: Option<string>, s: Submission, k: int)
    requires Truthy(apiKey) && 0 <= k < |Required|
    ensures Validate("POST", apiKey, Some(s))
         == Some(Response(400, Error("Missing required field: " + FieldName(Required[k]))))
      <==> IsFirstBlank(s, Required, k)
  {
    var r := Validate("POST", apiKey, Some(s));
    var message := "Missing required field: " + FieldName(Required[k]);
    var first := FirstMissing(s, Required);
    if IsFirstBlank(s, Required, k) {
      assert first.Some?;
      var j :| IsFirstBlank(s, Required, j) && Required[j] == first.value;
      FirstBlankUnique(s, Required, j, k);
    }
    if r == Some(Response(400, Error(message))) {
      assert message[0] == 'M' && PhotoRequired[0] == 'A';
      assert first.Some?;
      var j :| IsFirstBlank(s, Required, j) && Required[j] == first.value;
      assert MissingFieldPrefix + FieldName(first.value) == message;
      assert FieldName(first.value) == message[|MissingFieldPrefix|..];
      FieldNameInjective(first.value, Required[k]);
      RequiredDistinct(j, k);
    }
  }

  /** The photo check is reached only when all eight fields pass: with a
      POST, a key and a parsed body, the photo error comes back exactly
      when every required field is filled in and there is no photo. */
  lemma PhotoRequiredReported(apiKey: Option<string>, s: Submission)
    requires Truthy(apiKey)
    ensures Validate("POST", apiKey, Some(s))
         == Some(Response(400, Error("At least one photo is required.")))
      <==> (forall k :: 0 <= k < |Required| ==> !Blank(Get(s, Required[k]))) && NoPhotos(s)
  {
    var r := Validate("POST", apiKey, Some(s));
    var first := FirstMissing(s, Required);
    if first.Some? {
      assert r.value.body.message[0] == 'M';
    }
  }

  /** Once the checks pass, exactly one payload goes out, built from the
      body; an ok provider gives 200 and success, and a provider that
      answers not-ok or cannot be reached gives the same 502. */
  lemma ValidRequestSendsOnce(apiKey: Option<string>, s: Submission)
    requires Truthy(apiKey) && Acceptable(s)
    ensures Complete(s)
    ensures Handle("POST", apiKey, Some(s), Ok)
         == Outcome(Response(200, Success), Some(BuildPayload(s)))
    ensures Handle("POST", apiKey, Some(s), NotOk)
         == Handle("POST", apiKey, Some(s), NetworkError)
         == Outcome(Response(502, Error("Failed to send email. Please try again later.")),
                    Some(BuildPayload(s)))
  {
    AcceptableIsComplete(s);
  }

  /** The payload of an accepted submission carries one attachment per
      photo, in order; the reply-to is the submitter; the email body holds
      the urgency badge, the install-date text and the photo count. */
  lemma PayloadOfAcceptedSubmission(s: Submission)
    requires Acceptable(s)
    ensures Complete(s)
    ensures var p := BuildPayload(s);
      && |p.attachment| == |s.photos.value| >= 1
      && (forall i :: 0 <= i < |p.attachment| ==>
            p.attachment[i].content == s.photos.value[i].content
            && p.attachment[i].name == s.photos.value[i].name)
      && p.replyTo == Contact(s.email.value, s.firstName.value + " " + s.lastName.value)
      && Contains(p.htmlContent, UrgencyBadge(s.urgency))
      && Contains(p.htmlContent, InstallDateText(s.installDate))
      && Contains(p.htmlContent, Decimal(|s.photos.value|))
  {
    AcceptableIsComplete(s);
    HtmlMentions(s);
  }
}
