# Publish-notification mail handler: a verified model

This project models the serverless endpoint `api/send-email.js` of the Jejak
Mufassir blog. When an article is published, the frontend POSTs the article
(title, content, labels, description, focus keyword, author name). The handler
mails an HTML notification to two fixed operator addresses through Zoho SMTP.

The model has three modules:

- `JsStrings` (`js_strings.dfy`) represents JavaScript strings as sequences of
  UTF-16 code units (`newtype CodeUnit`). It gives the truthiness of an optional
  string field (`undefined`/`null`/`""` are falsy). It also defines
  `String.prototype.trim` over the ECMAScript white-space and line-terminator
  set, and `split` / `join` on a one-unit separator.
- `EmailTemplate` (`email_template.dfy`) builds the mail:
  - the subject, which is "📝 " followed by the first 60 code units of the title, plus "..." when the title was cut;
  - the label tags;
  - the fallback texts for absent optional fields;
  - the two fixed recipients;
  - the sender address.

  The HTML document is represented only by the fragments it interpolates.
- `SendEmail` (`send_email.dfy`) models the handler's decision procedure. It
  is a pure function of the request, the credentials taken from the
  environment, and an oracle for the SMTP transport. The oracle supplies the
  result of `verify` and the result of `sendMail` for each mail. The outcome
  holds four things:
  - the HTTP status;
  - the JSON body;
  - the transport calls made, in order (create, verify, send);
  - the step at which the handler returned: preflight, method check,
    destructuring, validation, configuration, verification, sending or
    completed.

The handler returns at the first step that fails. Its contract and lemmas state
that no early exit touches the transport, and that a mail is sent exactly when
every check before sending has passed.

Facts about `api/send-email.js` that shape the model:

- The subject keeps at most 60 code units of the title (line 150).
- The author field is `name` (lines 30, 103).
- There is no fallback mail provider, no author directory lookup and no mail
  to the author.
- The recipients are the two fixed addresses of line 149
  (`RecipientsWellFormed`).

## Model

| member | source | states |
|---|---|---|
| `JsStrings.Truthy` | api/send-email.js:38 | Definition only: a string field is truthy when present and non-empty. The same test is used at lines 43, 103, 113, 119 and 127. It is used by `Valid`, `Configured`, `OrElse` and `RenderLabels`, whose contracts state its role. |
| `SendEmail.Handle` | api/send-email.js:13-173 | The status is always one of 200, 400, 405 or 500. The transport calls are always a prefix of create-verify-send. A mail is sent if and only if the method is POST, the body is an object, title and content are truthy, both credentials are truthy, and verification succeeded. Status 200 means exactly a preflight or a completed send. 405 means exactly a method other than OPTIONS and POST. 400 means exactly a POST with falsy title or content. The configuration exit is taken exactly when the fields are valid and a credential is missing. |
| `SendEmail.Valid` | api/send-email.js:38 | Definition only: `title && content`, both truthy. Its role is stated in `Handle` (400 exactly when it fails) and in `MissingFieldsRefused`. |
| `SendEmail.Configured` | api/send-email.js:43 | Definition only: both `ZOHO_EMAIL` and `ZOHO_PASSWORD` truthy. Its role is stated in `Handle` (the configuration exit exactly when it fails after validation) and in `UnconfiguredRefused`. |
| `SendEmail.PreflightAnswered` | api/send-email.js:13-16 | OPTIONS gets 200 with an empty body and no transport call. The result does not depend on the configuration or the transport. |
| `SendEmail.OtherMethodsRefused` | api/send-email.js:18-20 | Any method other than OPTIONS and POST gets 405 "Method not allowed". Nothing else is consulted. |
| `SendEmail.MissingBodyCaught` | api/send-email.js:23-33 | A POST whose body is `undefined`/`null` throws while destructuring. It gets the catch-all 500 "Failed to send email" and the transport is not touched. |
| `SendEmail.MissingFieldsRefused` | api/send-email.js:38-40 | A POST with falsy title or content gets 400 "Title and content are required". No transport is created. The result is the same under every configuration and transport, so validation comes before the credentials check. |
| `SendEmail.UnconfiguredRefused` | api/send-email.js:43-49 | Valid fields with a falsy `ZOHO_EMAIL` or `ZOHO_PASSWORD` get 500 "Email service not configured" with the fixed hint. No transport call is made, whatever the transport would answer. |
| `SendEmail.VerifyFailureNeverSends` | api/send-email.js:68-77 | When verification fails, the answer is 500 "SMTP connection failed" with the verify error's message as `details`. The calls are exactly create-then-verify with the configured credentials. `sendMail` is never called. |
| `SendEmail.SendOutcome` | api/send-email.js:147-173 | After a successful verification exactly one mail is sent, and it is the mail `ComposeMail` builds from the payload and the configured account, so the label and fallback properties hold for it. It goes to the two fixed recipients, with the truncated subject, from the configured account. The answer is 200 with the transport's `messageId` when the send is accepted. It is 500 "Failed to send email" with the error message when the send is rejected. |
| `EmailTemplate.ComposeMail` | api/send-email.js:147-152 | The mail goes to the fixed recipient list and comes from `"Jejak Mufassir" <account>`. Its subject is the subject of the title. Title and content are inserted verbatim. The label block is the placeholder exactly when labels are falsy, and otherwise the tags of the trimmed comma-separated labels. Author, description and keyword are the given text when truthy and their fallback texts otherwise. |
| `EmailTemplate.SenderAddress` | api/send-email.js:148 | Definition only: `"Jejak Mufassir" <account>`. `ComposeMail` and `SendOutcome` state that the sent mail carries it. |
| `EmailTemplate.Subject` | api/send-email.js:150 | The subject is the 3-unit prefix "📝 " followed by the whole title when it has at most 60 units, and by its first 60 units and "..." otherwise. The subject is at most 3 + 63 units long. |
| `EmailTemplate.Substring` | api/send-email.js:150 | `substring(start, end)`: both bounds are clamped to the string, then the slice between them is taken in either order. So within bounds it is the slice between the two indices. A bound past the end stops at the end, which keeps a title shorter than 60 units whole. A bound below zero starts at the beginning. The clauses cover every combination of bounds, so they fix the result. It is never longer than the string. |
| `EmailTemplate.SubjectBody` | api/send-email.js:150 | A title of at most 60 units is kept unchanged. A longer title becomes its first 60 units followed by "...". The body never exceeds 63 units. |
| `EmailTemplate.SubjectBodyFixedPoints` | api/send-email.js:150 | The body equals the title if and only if the title fits in 60 units or already is 60 units followed by "...". |
| `EmailTemplate.SubjectBodyIdempotent` | api/send-email.js:150 | Truncating an already-truncated subject body changes nothing. |
| `EmailTemplate.LongTitlesShareSubject` | api/send-email.js:150 | Two titles longer than 60 units that agree on their first 60 units get the same subject. |
| `EmailTemplate.TruncationCanSplitSurrogatePair` | api/send-email.js:150 | The cut counts code units. A long title whose unit 59 is a high surrogate keeps that lone surrogate, followed directly by "...". |
| `EmailTemplate.LabelTexts` | api/send-email.js:119-120 | There is one tag text per comma-separated piece, so there are one more tags than commas, and empty pieces are kept. Tag k is the trimmed piece k. |
| `EmailTemplate.LabelTextsAppend` | api/send-email.js:119-120 | The tag texts of `a,b` are the tag texts of `a` followed by those of `b`, so the order is preserved. |
| `EmailTemplate.LabelTextsExample` | api/send-email.js:119-120 | The shape "a, b ,c" gives exactly the three bare texts a, b, c. |
| `EmailTemplate.RenderLabels` | api/send-email.js:119-121 | The output is the placeholder "Tidak ada label" if and only if labels are absent or empty. Otherwise it starts with a label tag. |
| `EmailTemplate.Tag` | api/send-email.js:120 | Definition only: the text between `<span class="label">` and `</span>`, unescaped. Its properties are in `TagsAppend` and `TagsStartWithOpen`. |
| `EmailTemplate.Tags` | api/send-email.js:119-121 | Definition only: `.map(tag).join('')`. Its properties are in `TagsAppend` and `TagsStartWithOpen`. |
| `EmailTemplate.TagsAppend` | api/send-email.js:119-121 | The tags of a concatenated list are the tags of the first part followed by those of the second, so `join('')` keeps the order. |
| `EmailTemplate.TagsStartWithOpen` | api/send-email.js:119-121 | A non-empty list of tags starts with an opening label tag and is never the placeholder. |
| `EmailTemplate.TrimAll` | api/send-email.js:119-120 | Definition only: `.map(label => label.trim())`. `LabelTexts` states that text k is the trim of piece k, and `TrimAllAppend` states that it distributes over concatenation. |
| `EmailTemplate.TrimAllAppend` | api/send-email.js:119-120 | Trimming each piece of a concatenated list is trimming each part's pieces and concatenating. |
| `EmailTemplate.RenderJoinedLabels` | api/send-email.js:119-121 | Labels written as a comma-joined list render as one tag per item, each trimmed, in the order written. |
| `EmailTemplate.RenderLabelsAppend` | api/send-email.js:119-121 | For non-empty `a` and `b`, rendering `a,b` is rendering `a` followed by rendering `b`. |
| `EmailTemplate.OrElse` | api/send-email.js:103 | A falsy optional field renders its fallback text. A truthy one is inserted unchanged, with no escaping. The result is never empty when the fallback is non-empty. The same rule is used for the description and the focus keyword at lines 113 and 127. |
| `EmailTemplate.FallbackIsAmbiguous` | api/send-email.js:113 | A field whose value equals its fallback text renders the same as an absent field. |
| `EmailTemplate.RecipientsWellFormed` | api/send-email.js:149 | There are exactly two fixed recipients. They are distinct and each contains '@'. |
| `JsStrings.Split` | api/send-email.js:119 | `split(',')` gives one more piece than there are separators, and no piece contains the separator. |
| `JsStrings.JoinSplit` | api/send-email.js:119 | Joining the pieces of a split with the separator gives back the original string. |
| `JsStrings.SplitJoin` | api/send-email.js:119 | Splitting a join of separator-free pieces gives back the pieces. |
| `JsStrings.SplitAppend` | api/send-email.js:119 | Splitting `a + sep + b` gives the pieces of `a` followed by the pieces of `b`. |
| `JsStrings.Trim` | api/send-email.js:120 | `trim()` never lengthens a string and leaves no white space at either edge. Its exact result is fixed by `TrimIsTrimOf` and `TrimOfIsTrim`. |
| `JsStrings.TrimIsTrimOf` | api/send-email.js:120 | `trim()` returns a slice of its input with only white space before and after it, and no white space at either edge. |
| `JsStrings.TrimOfIsTrim` | api/send-email.js:120 | Any slice described that way is exactly what `trim()` returns, so the description determines the result. |
| `JsStrings.TrimIdempotent` | api/send-email.js:120 | Trimming twice gives the same result as trimming once. |

## Left out

- CORS response headers (lines 7–10): a fixed header list with nothing to decide.
- Reading `process.env`: the two credentials are passed in as optional strings.
- Nodemailer transport construction (host, port, TLS options, lines 52–63): the model records only that a transport was created with the configured user and password.
- The real `verify` and `sendMail` calls: an oracle gives their results. Nodemailer is not part of this model.
- Console logging and the async/await mechanics.
- The HTML/CSS template text around the interpolated fragments: `Html` keeps only the interpolated values.
- The `postID`, `timestamp` and `seoScore` interpolations (lines 97, 98, 128). These depend on JavaScript's coercion of arbitrary values to text.
- HTML escaping: the source escapes nothing, and the model inserts every value verbatim.
- Non-string request fields: every field is modelled as absent or a string. A truthy non-string title would throw at `substring` and reach the catch-all; that path is not modelled.
- The wording of the TypeError thrown when the body is missing: it comes from the JavaScript engine, so `details` is the marker `BodyNotAnObject`.
- Exceptions thrown by the response object itself after a successful send are not modelled.
- `EmailTemplate.ComposeMail`: requires title and content to be present. The source reaches this code only after validation. An absent content would be interpolated as the text "undefined", and that case is not modelled.
- String literals: `JsStrings.Lit` accepts only literals in the Basic Multilingual Plane and renders them one code unit per character. The subject's emoji is outside that plane, and `EmailTemplate.SubjectPrefix` spells it out as its surrogate pair.
