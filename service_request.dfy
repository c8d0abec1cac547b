/** The service-request handler: validate a submission, build the email
    payload for the delivery provider, send it once and map the provider's
    answer to the caller's response.

    What the handler reads from its surroundings arrives as parameters:
    the request method, the API key from the process environment (`None`
    when unset), the parsed body (`None` when the body does not parse) and
    what the provider answers if it is called. */
module ServiceRequest {
  import opened Wrappers
  import opened JsString

  // ---------------------------------------------------------------------
  // Data model
  // ---------------------------------------------------------------------

  /** One inline photo: encoded content and display file name. */
  datatype Photo = Photo(content: string, name: string)

  /** The parsed request body. Every field may be absent. */
  datatype Submission = Submission(
    firstName: Option<string>,
    lastName: Option<string>,
    email: Option<string>,
    phone: Option<string>,
    address: Option<string>,
    requestType: Option<string>,
    material: Option<string>,
    description: Option<string>,
    installDate: Option<string>,
    urgency: Option<string>,
    photos: Option<seq<Photo>>)

  /** The eight fields a submission must fill in. */
  datatype Field =
    FirstName | LastName | Email | Phone | Address | RequestType | Material | Description

  /** The checking order of the required fields. */
  const Required: seq<Field> :=
    [FirstName, LastName, Email, Phone, Address, RequestType, Material, Description]

  /** The property name of a field in the request body. */
  function FieldName(f: Field): string {
    match f
    case FirstName => "firstName"
    case LastName => "lastName"
    case Email => "email"
    case Phone => "phone"
    case Address => "address"
    case RequestType => "requestType"
    case Material => "material"
    case Description => "description"
  }

  /** The position of a field in the checking order. */
  function FieldIndex(f: Field): (k: nat)
    ensures k < |Required| && Required[k] == f
  {
    match f
    case FirstName => 0
    case LastName => 1
    case Email => 2
    case Phone => 3
    case Address => 4
    case RequestType => 5
    case Material => 6
    case Description => 7
  }

  /** `data[field]` */
  function Get(s: Submission, f: Field): Option<string> {
    match f
    case FirstName => s.firstName
    case LastName => s.lastName
    case Email => s.email
    case Phone => s.phone
    case Address => s.address
    case RequestType => s.requestType
    case Material => s.material
    case Description => s.description
  }

  /** A name and address as the provider expects them. */
  datatype Contact = Contact(email: string, name: string)

  /** One entry of the payload's attachment list. */
  datatype Attachment = Attachment(content: string, name: string)

  /** The body of the provider's send call. */
  datatype Payload = Payload(
    sender: Contact,
    to: seq<Contact>,
    replyTo: Contact,
    subject: string,
    htmlContent: string,
    attachment: seq<Attachment>)

  /** What the provider call ends in: an ok response, a response that is
      not ok, or a thrown transport error. */
  datatype ProviderResult = Ok | NotOk | NetworkError

  datatype Body = Success | Error(message: string)

  /** The response returned to the caller (headers left out). */
  datatype Response = Response(status: int, body: Body)

  /** The response together with the payload sent to the provider, if any. */
  datatype Outcome = Outcome(response: Response, sent: Option<Payload>)

  const MethodNotAllowed := "Method not allowed"
  const ConfigurationError := "Server configuration error."
  const InvalidBody := "Invalid request body."
  const MissingFieldPrefix := "Missing required field: "
  const PhotoRequired := "At least one photo is required."
  const SendFailed := "Failed to send email. Please try again later."

  // ---------------------------------------------------------------------
  // Validation
  // ---------------------------------------------------------------------

  /** JavaScript truthiness of an optional string: present and not empty. */
  predicate Truthy(v: Option<string>) {
    v.Some? && v.value != ""
  }

  /** `!v || !v.trim()`: the value is missing or only whitespace. */
  predicate Blank(v: Option<string>) {
    !Truthy(v) || Trim(v.value) == ""
  }

  /** The first field of `fields` whose value in `s` is blank, or `None`
      when every one of them is filled in. */
  function FirstMissing(s: Submission, fields: seq<Field>): (r: Option<Field>)
    ensures r.None? <==> forall j :: 0 <= j < |fields| ==> !Blank(Get(s, fields[j]))
    ensures r.Some? ==> exists k :: IsFirstBlank(s, fields, k) && fields[k] == r.value
  {
    if fields == [] then None
    else if Blank(Get(s, fields[0])) then
      assert IsFirstBlank(s, fields, 0);
      Some(fields[0])
    else
      var r := FirstMissing(s, fields[1..]);
      if r.Some? then
        var k :| IsFirstBlank(s, fields[1..], k) && fields[1..][k] == r.value;
        assert IsFirstBlank(s, fields, k + 1);
        r
      else
        r
  }

  /** Index `k` holds a blank field and every field before it is filled in. */
  predicate IsFirstBlank(s: Submission, fields: seq<Field>, k: int) {
    && 0 <= k < |fields|
    && Blank(Get(s, fields[k]))
    && forall j :: 0 <= j < k ==> !Blank(Get(s, fields[j]))
  }

  /** `!data.photos || data.photos.length === 0` */
  predicate NoPhotos(s: Submission) {
    s.photos.None? || |s.photos.value| == 0
  }

  /** The reference definition of an acceptable submission: every required
      field present and not blank, and at least one photo. */
  predicate Acceptable(s: Submission) {
    && (forall f :: f in Required ==> !Blank(Get(s, f)))
    && s.photos.Some? && |s.photos.value| >= 1
  }

  /** An acceptable submission holds every field the payload reads. */
  lemma AcceptableIsComplete(s: Submission)
    requires Acceptable(s)
    ensures Complete(s)
  {
    forall f: Field ensures Get(s, f).Some? {
      assert f == Required[FieldIndex(f)];
    }
    assert Get(s, FirstName).Some? && Get(s, LastName).Some? && Get(s, Email).Some?;
    assert Get(s, Phone).Some? && Get(s, Address).Some? && Get(s, RequestType).Some?;
    assert Get(s, Material).Some? && Get(s, Description).Some?;
  }

  /** A request gets past every check before the send. */
  predicate Sendable(httpMethod: string, apiKey: Option<string>, body: Option<Submission>) {
    httpMethod == "POST" && Truthy(apiKey) && body.Some? && Acceptable(body.value)
  }

  // ---------------------------------------------------------------------
  // Payload
  // ---------------------------------------------------------------------

  /** The fields the payload reads are all there. */
  predicate Complete(s: Submission) {
    && s.firstName.Some? && s.lastName.Some? && s.email.Some? && s.phone.Some?
    && s.address.Some? && s.requestType.Some? && s.material.Some?
    && s.description.Some? && s.photos.Some?
  }

  /** The two visual variants of the urgency indicator. */
  const NormalBadge := "<span style=\"color:#5b7b2f;font-weight:600;\">Normal</span>"
  const UrgentBadge := "<span style=\"color:#c0392b;font-weight:600;\">Urgent - Affecting daily use</span>"

  /** The urgency indicator: the normal variant for exactly the string
      "Normal", the urgent variant for anything else, absence included. */
  function UrgencyBadge(urgency: Option<string>): (b: string)
    ensures b == NormalBadge <==> urgency == Some("Normal")
    ensures b == UrgentBadge <==> urgency != Some("Normal")
  {
    if urgency == Some("Normal") then NormalBadge else UrgentBadge
  }

  /** `data.installDate || 'Not provided'` */
  function InstallDateText(installDate: Option<string>): (t: string)
    ensures Truthy(installDate) ==> t == installDate.value
    ensures !Truthy(installDate) ==> t == "Not provided"
  {
    if Truthy(installDate) then installDate.value else "Not provided"
  }

  /** `${data.firstName} ${data.lastName}` */
  function FullName(s: Submission): string
    requires Complete(s)
  {
    s.firstName.value + " " + s.lastName.value
  }

  /** The separator between request type and name in the subject, as the
      source file holds it: the three characters an en dash turns into when
      its UTF-8 bytes are read as Windows-1252. */
  const SubjectSeparator := " \U{00E2}\U{20AC}\U{201C} "

  const SubjectPrefix := "Service Request: "

  function Subject(s: Submission): (subject: string)
    requires Complete(s)
    ensures |subject| >= |SubjectPrefix| + |FullName(s)|
    ensures subject[..|SubjectPrefix|] == SubjectPrefix
    ensures subject[|subject| - |FullName(s)|..] == FullName(s)
    ensures OccursAt(subject, s.requestType.value, |SubjectPrefix|)
  {
    SubjectPrefix + s.requestType.value + SubjectSeparator + FullName(s)
  }

  /** The pieces of the HTML email body, in document order. The styling
      attributes of the surrounding markup are left out; the interpolated
      values are kept, unescaped. */
  function HtmlParts(s: Submission): seq<string>
    requires Complete(s)
  {
    [ "<div><h1>Countertop Service Request</h1><h2>Contact Information</h2>"
      + "<table><tr><td>Name</td><td>", FullName(s),
      "</td></tr><tr><td>Email</td><td><a href=\"mailto:", s.email.value, "\">",
      s.email.value,
      "</a></td></tr><tr><td>Phone</td><td><a href=\"tel:", s.phone.value, "\">",
      s.phone.value,
      "</a></td></tr><tr><td>Service Address</td><td>", s.address.value,
      "</td></tr></table><h2>Service Details</h2>"
      + "<table><tr><td>Request Type</td><td>", s.requestType.value,
      "</td></tr><tr><td>Material</td><td>", s.material.value,
      "</td></tr><tr><td>Install Date</td><td>", InstallDateText(s.installDate),
      "</td></tr><tr><td>Urgency</td><td>", UrgencyBadge(s.urgency),
      "</td></tr></table><h2>Description</h2><p>", s.description.value,
      "</p><p>", Decimal(|s.photos.value|), " photo(s) attached to this email.</p></div>" ]
  }

  function HtmlContent(s: Submission): string
    requires Complete(s)
  {
    Concat(HtmlParts(s))
  }

  /** The email body carries the urgency badge, the install-date text, the
      photo count and every submitted detail. */
  lemma HtmlMentions(s: Submission)
    requires Complete(s)
    ensures Contains(HtmlContent(s), UrgencyBadge(s.urgency))
    ensures Contains(HtmlContent(s), InstallDateText(s.installDate))
    ensures Contains(HtmlContent(s), Decimal(|s.photos.value|))
    ensures Contains(HtmlContent(s), FullName(s))
    ensures Contains(HtmlContent(s), s.email.value) && Contains(HtmlContent(s), s.phone.value)
    ensures Contains(HtmlContent(s), s.address.value)
    ensures Contains(HtmlContent(s), s.requestType.value)
    ensures Contains(HtmlContent(s), s.material.value)
    ensures Contains(HtmlContent(s), s.description.value)
  {
    var parts := HtmlParts(s);
    ConcatContains(parts, 1);
    ConcatContains(parts, 3);
    ConcatContains(parts, 7);
    ConcatContains(parts, 11);
    ConcatContains(parts, 13);
    ConcatContains(parts, 15);
    ConcatContains(parts, 17);
    ConcatContains(parts, 19);
    ConcatContains(parts, 21);
    ConcatContains(parts, 23);
  }

  /** `data.photos.map(photo => ({content: photo.content, name: photo.name}))` */
  function Attachments(photos: seq<Photo>): (a: seq<Attachment>)
    ensures |a| == |photos|
    ensures forall i :: 0 <= i < |photos| ==>
      a[i].content == photos[i].content && a[i].name == photos[i].name
  {
    seq(|photos|, i requires 0 <= i < |photos| => Attachment(photos[i].content, photos[i].name))
  }

  const Sender := Contact("sam@sccountertops.ca", "FloForm Service Request")
  const ServiceTeam := Contact("sbeaumont@floform.com", "FloForm Service Team")

  /** The provider payload built from a validated submission. */
  function BuildPayload(s: Submission): (p: Payload)
    requires Complete(s)
    ensures p.sender == Sender && p.to == [ServiceTeam]
    ensures p.replyTo.email == s.email.value
    ensures p.replyTo.name == s.firstName.value + " " + s.lastName.value
    ensures |p.subject| >= |SubjectPrefix| + |p.replyTo.name|
    ensures p.subject[..|SubjectPrefix|] == SubjectPrefix
    ensures p.subject[|p.subject| - |p.replyTo.name|..] == p.replyTo.name
    ensures |p.attachment| == |s.photos.value|
    ensures forall i :: 0 <= i < |p.attachment| ==>
      p.attachment[i] == Attachment(s.photos.value[i].content, s.photos.value[i].name)
  {
    Payload(
      Sender,
      [ServiceTeam],
      Contact(s.email.value, FullName(s)),
      Subject(s),
      HtmlContent(s),
      Attachments(s.photos.value))
  }

  // ---------------------------------------------------------------------
  // The handler
  // ---------------------------------------------------------------------

  /** The checks made before anything is sent, in the order the handler
      makes them: the response of the first one that fails, or `None` when
      they all pass. */
  function Validate(httpMethod: string, apiKey: Option<string>, body: Option<Submission>)
    : (r: Option<Response>)
    ensures r.None? <==> Sendable(httpMethod, apiKey, body)
    ensures r.Some? ==> r.value.status in {400, 405, 500} && r.value.body.Error?
  {
    if httpMethod != "POST" then Some(Response(405, Error(MethodNotAllowed)))
    else if !Truthy(apiKey) then Some(Response(500, Error(ConfigurationError)))
    else if body.None? then Some(Response(400, Error(InvalidBody)))
    else
      var s := body.value;
      match FirstMissing(s, Required)
      case Some(f) =>
        assert !Acceptable(s);
        Some(Response(400, Error(MissingFieldPrefix + FieldName(f))))
      case None =>
        if NoPhotos(s) then Some(Response(400, Error(PhotoRequired)))
        else
          assert Acceptable(s) by {
            forall f | f in Required ensures !Blank(Get(s, f)) {
              var j :| 0 <= j < |Required| && Required[j] == f;
            }
          }
          None
  }

  /** The caller's response once the payload has been sent. A provider
      that answers not-ok and one that cannot be reached give the same
      response. */
  function ProviderResponse(provider: ProviderResult): (r: Response)
    ensures r.status == 200 <==> provider == Ok
    ensures provider == Ok ==> r.body == Success
    ensures provider != Ok ==> r == Response(502, Error(SendFailed))
  {
    match provider
    case Ok => Response(200, Success)
    case NotOk => Response(502, Error(SendFailed))
    case NetworkError => Response(502, Error(SendFailed))
  }

  /** The whole handler. A payload is sent exactly when every check passes,
      it is the one built from the body, and the response then reflects
      the provider; an early exit sends nothing and answers with the
      failed check's response. */
  function Handle(httpMethod: string, apiKey: Option<string>, body: Option<Submission>,
                  provider: ProviderResult): (r: Outcome)
    ensures r.sent.Some? <==> Sendable(httpMethod, apiKey, body)
    ensures r.sent.Some? ==> Complete(body.value) && r.sent.value == BuildPayload(body.value)
    ensures r.sent.Some? ==> r.response == ProviderResponse(provider)
    ensures r.sent.None? ==> Some(r.response) == Validate(httpMethod, apiKey, body)
    ensures r.response.status == 200 <==> Sendable(httpMethod, apiKey, body) && provider == Ok
  {
    match Validate(httpMethod, apiKey, body)
    case Some(rejection) => Outcome(rejection, None)
    case None =>
      AcceptableIsComplete(body.value);
      Outcome(ProviderResponse(provider), Some(BuildPayload(body.value)))
  }
}
