# Service-request handler, modelled in Dafny

This project models the serverless function that accepts a countertop
service request from a web form and relays it as one transactional email
through the Brevo delivery API
(`netlify/functions/send-service-request.mjs`). The handler is a single
pure decision once its surroundings are made into parameters:

- the HTTP method of the request (`httpMethod`);
- the API key read from the environment, `Option<string>` (`None` when the
  variable is unset);
- the parsed request body, `Option<Submission>` (`None` when `req.json()`
  throws), every field of which is itself optional;
- what the provider does if it is called: `Ok`, `NotOk` (a response that is
  not ok) or `NetworkError` (the `fetch` throws).

`ServiceRequest.Validate` is the cascade of checks that ends the request
early; `ServiceRequest.Handle` runs it and returns an `Outcome`: the response `(status, body)`
and the payload that was sent, if any. Because the send is a value in the
result, "nothing is sent on an early exit" and "at most one send" are
properties of that value.

Files:

- `wrappers.dfy` — the `Option` type.
- `js_string.dfy` — the JavaScript string behaviour the handler relies on:
  `trim` (over the ECMAScript WhiteSpace and LineTerminator code points),
  template-literal concatenation, and the decimal form of a number.
- `service_request.dfy` — the data model, the validation cascade, the payload
  builder, the mapping of the provider's answer, and `Handle`.
- `handler_properties.dfy` — the handler's promises stated over `Handle`:
  check precedence, which response each failed check gives, what is sent.

Truthiness follows the code: the key is missing when unset or empty; a
required field is missing when absent, empty, or whitespace only; the
install date falls back to `"Not provided"` when absent or empty.

The subject separator is modelled as the source file holds it: the three
characters `â`, `€`, `“` (U+00E2, U+20AC, U+201C), which is what an en dash
becomes when its UTF-8 bytes are decoded as Windows-1252. The properties
proved about the subject (its prefix, that it carries the request type and
ends with the submitter's name) do not depend on this separator.

## Model

| member | source | states |
|---|---|---|
| JsString.Leading | netlify/functions/send-service-request.mjs:31 | the count of leading characters `trim` drops: all of them whitespace, and the next character (if any) is not |
| JsString.Trailing | netlify/functions/send-service-request.mjs:31 | where the trailing whitespace `trim` drops begins: everything after it is whitespace, the character before it is not |
| JsString.Trim | netlify/functions/send-service-request.mjs:31 | `trim` yields a slice of its input with only whitespace before and after it, that neither starts nor ends with whitespace, and that is empty exactly when the input is all whitespace |
| JsString.ConcatContains | netlify/functions/send-service-request.mjs:51-79 | every interpolated piece of the email template occurs in the finished string |
| JsString.Decimal | netlify/functions/send-service-request.mjs:76 | the photo count is written as a non-empty string of decimal digits with no leading zero |
| JsString.DecimalRoundTrip | netlify/functions/send-service-request.mjs:76 | reading the written count back as a decimal number gives the count |
| ServiceRequest.FirstMissing | netlify/functions/send-service-request.mjs:29-37 | the field search returns nothing exactly when every field is filled in, and otherwise a field that is blank with every field before it filled in |
| ServiceRequest.AcceptableIsComplete | netlify/functions/send-service-request.mjs:29-44 | a submission that passes the field and photo checks holds every value the email body and payload read |
| ServiceRequest.UrgencyBadge | netlify/functions/send-service-request.mjs:47-49 | the badge is the normal variant exactly when urgency is the string "Normal", and the urgent variant for every other value, absence included |
| ServiceRequest.InstallDateText | netlify/functions/send-service-request.mjs:69 | the install-date cell shows the submitted date when it is present and non-empty, and "Not provided" otherwise |
| ServiceRequest.Subject | netlify/functions/send-service-request.mjs:94 | the subject starts with "Service Request: ", carries the request type right after that prefix, and ends with the submitter's full name |
| ServiceRequest.HtmlMentions | netlify/functions/send-service-request.mjs:51-79 | the email body contains the urgency badge, the install-date text, the photo count, the name, email, phone, address, request type, material and description |
| ServiceRequest.Attachments | netlify/functions/send-service-request.mjs:96-99 | the attachment list has one entry per photo, and entry i has the content and name of photo i |
| ServiceRequest.BuildPayload | netlify/functions/send-service-request.mjs:82-100 | fixed sender and single fixed recipient; reply-to is the submitter's email and "first last"; the subject's prefix and ending; attachments copied from the photos in order |
| ServiceRequest.ProviderResponse | netlify/functions/send-service-request.mjs:102-133 | status 200 with success exactly when the provider answered ok; a not-ok answer and a transport failure both give 502 with the same message |
| ServiceRequest.Validate | netlify/functions/send-service-request.mjs:3-44 | the checks before the send let a request through exactly when method, key, body, all eight fields and the photos pass; otherwise they answer with a 400, 405 or 500 error |
| ServiceRequest.Handle | netlify/functions/send-service-request.mjs:1-134 | a payload is sent exactly when every check passes, and it is the payload built from the body; an early exit sends nothing and answers with the failed check's response; status 200 exactly when sent and accepted |
| HandlerProperties.NonPostRejected | netlify/functions/send-service-request.mjs:3-8 | any non-POST method gives 405 "Method not allowed" and no send, whatever the key, body or provider |
| HandlerProperties.MissingKeyRejected | netlify/functions/send-service-request.mjs:10-16 | a POST with an unset or empty key gives 500 "Server configuration error." and no send, whatever the body |
| HandlerProperties.InvalidBodyRejected | netlify/functions/send-service-request.mjs:18-26 | a POST with a key and an unparsable body gives 400 "Invalid request body." and no send |
| HandlerProperties.BlankIffWhitespace | netlify/functions/send-service-request.mjs:31 | a field fails the required check exactly when it is absent or consists only of whitespace |
| HandlerProperties.FieldNameInjective | netlify/functions/send-service-request.mjs:29 | distinct required fields have distinct names, so the error message identifies one field |
| HandlerProperties.RequiredDistinct | netlify/functions/send-service-request.mjs:29 | each field appears once in the checking order |
| HandlerProperties.FirstBlankUnique | netlify/functions/send-service-request.mjs:30-37 | at most one position is the first blank field |
| HandlerProperties.MissingFieldReported | netlify/functions/send-service-request.mjs:29-37 | after the method, key and body checks, the checks stop with "Missing required field: F" for the k-th field exactly when that field is blank and all earlier ones are filled in |
| HandlerProperties.PhotoRequiredReported | netlify/functions/send-service-request.mjs:39-44 | after the method, key and body checks, the checks stop with "At least one photo is required." exactly when all eight fields pass and photos are absent or empty |
| HandlerProperties.ValidRequestSendsOnce | netlify/functions/send-service-request.mjs:102-133 | for an accepted request exactly one payload, built from the body, is sent; Ok gives 200 success; NotOk and NetworkError give the identical 502 outcome |
| HandlerProperties.PayloadOfAcceptedSubmission | netlify/functions/send-service-request.mjs:90-99 | for an accepted submission the payload has one attachment per photo with matching content and name in order, reply-to is the submitter, and the body shows the badge, install date and photo count |

## Left out

- The `fetch` to the Brevo endpoint, its headers carrying the key, and reading the error response text: network I/O, replaced by the `ProviderResult` input; the key is checked but not carried into the model of the call.
- The reading of `BREVO_API_KEY` from the process environment: an `Option<string>` parameter instead.
- `req.json()`: the runtime's JSON parser is not part of this model; its result is the `Option<Submission>` parameter.
- `console.error` logging: a side effect with no observable behaviour for the caller.
- Response headers and the JSON serialisation of response and payload bodies: a response is a status and a body value.
- The styling attributes of the HTML template: the body is modelled as the same sequence of interpolated values between simplified markup; only the two badge spans keep their source text. Nothing is escaped, as in the source.
- Body values that are not strings (a number in a required field makes `.trim()` throw; a `null` body makes property access throw) and what the hosting platform then answers: fields are restricted to optional strings, photos to records with string content and name.
- Extra properties of a photo object: the model's photo has only the two the payload copies.
