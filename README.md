# Consumer complaint intake — a verified model

The system takes consumer complaints over HTTP. A web form checks the five
inputs (name, email, phone, product, issue) and posts them. The service then:

1. validates that all five are present and non-empty;
2. asks an external service for a summary of the issue, falling back to the
   first 250 characters plus `...`;
3. stores the complaint in an append-only table;
4. emails the support mailbox, copying the submitter;
5. answers with one outcome: 200, 400 or one of two kinds of 500.

A second endpoint lists every stored complaint.

This project models both halves in Dafny and proves what each promises.

- `wrappers.dfy` (module `Wrappers`): `Option`.
- `text.dfy` (module `Text`): Python's `s[:n]`, substring containment
  (`in` / `includes`), and the concatenation of lines.
- `timestamps.dfy` (module `Timestamps`): the complaint's UTC creation time and
  its `%Y-%m-%d %H:%M:%S` rendering, with a parser that proves the rendering
  loses only the microseconds.
- `backend.dfy` (module `Backend`): the intake service. The summarizer's
  fallback policy, the email's composition, the pipeline as a function
  (`Intake`), the same pipeline as a method with early returns on the store
  class (`ComplaintStore.SendComplaint`), and the listing (`GetComplaints`).
- `complaint_form.dfy` (module `ComplaintForm`): the web form. `trim`, the two
  regular expressions, the per-field validator, the component's state machine
  (`ComplaintFormComponent`) and the message-styling rule.

Every outside dependency is an input:

- the summarization service's reply (`SummarizerOutcome`);
- whether the database commit succeeds (`CommitOutcome`);
- what the SMTP session does (`SmtpOutcome`: delivered, `SMTPException`,
  or another exception);
- whether the table read succeeds (`ReadOutcome`);
- the clock (`now`);
- the configuration read from the environment at startup (`Config`);
- the HTTP client's answer to the form (`Reply`).

A request body that is not a JSON object is its own input
(`Request.Unreadable`). It lands in the generic 500 handler.

Behaviour worth knowing, all proved:

- The service does not trim, so a whitespace-only field passes its
  validation. The form rejects it (`ServerAcceptsBlankField`). Everything the
  form lets through, the service accepts (`ClientValidIsServerAccepted`).
- When the email fails, the stored complaint stays and is listed
  (`Intake`, `ListingAfterIntake`). This partial success is accepted.
- A JSON `null` as the summarizer's `summary` is stored as SQL NULL, and the
  email then says `None` (`SummarizeText`, `Render`): `summarized_issue` is
  nullable, so such a summary is kept, not replaced by the fallback.
- The form styles a message as an error only when it contains `"error"`. So
  the service's `"Failed to send email: …"` is shown with the success style
  unless the transport's own text says "error" (`EmailFailureStyledAsSuccess`,
  and end to end through the HTTP client in `SmtpFailureShownAsSuccess`).
  The 400 text `"All fields are required."` has no "error" either
  (`MissingFieldsStyledAsSuccess`).
- The phone pattern is anchored, so a padded phone number is rejected
  (`PaddedPhoneRejected`); the email pattern is not, so a padded email that
  is otherwise accepted stays accepted (`PaddedEmailAccepted`).

## Model

| member | source | states |
|---|---|---|
| `Backend.Fallback` | backend/app.py:56-61 | the fallback is the first min(\|text\|, 250) characters of the text followed by `...`, of length min(\|text\|, 250) + 3, and exactly `text + "..."` for a text of at most 250 characters |
| `Backend.SummarizeText` | backend/app.py:52-61 | with status 200 and a `summary` member, that member is used verbatim (JSON null gives None); a non-200 status, a missing member or a raised exception all give the fallback; it never fails |
| `Backend.BodyMentionsDetails` | backend/app.py:96-113 | the body has a line for each of name, email, phone and product, and the summary on the line after "Issue Description (Summary):" |
| `Backend.ComposeEmail` | backend/app.py:95-122 | From is the configured sender, To the support address, Cc the submitter's email, the subject "New Consumer Complaint from " + name; the body is filled from name, email, phone, product and the summary, never the raw issue |
| `Backend.AppendKeepsWellFormed` | backend/app.py:37-45 | appending a row with the next id, a valid time and non-empty required columns keeps the store invariant (ids 1..n in order, valid times, required columns non-empty) |
| `Backend.Intake` | backend/app.py:65-135 | the store stays well formed and only ever gains one row at its end; a request that fails validation changes nothing, calls nothing and sends nothing (400 "All fields are required.", or 500 for an unreadable body); an accepted request is summarized once from its full issue; a failed commit stores and sends nothing and gives 500 "An unexpected error occurred: …"; a successful commit appends exactly the submitted values with the obtained summary, the next id and the current time, then sends the composed email; an `SMTPException` gives 500 "Failed to send email: …" and any other exception 500 "An unexpected error occurred: …", both keeping the row; 200 with the success message exactly when both commit and send succeed, and every other response carries a non-empty `error` text |
| `Backend.GetComplaints` | backend/app.py:139-157 | one entry per stored row in store order, every column copied unchanged, the timestamp a 19-character string that parses back to the stored time without microseconds; a read failure gives 500 "Failed to retrieve complaints: …" |
| `Backend.ListingAfterIntake` | backend/app.py:83-92 | after one submission every previously listed entry is listed unchanged; after a successful commit, whatever the email did, one more entry follows with the submitted values, the summary and the creation time; otherwise the listing is the same |
| `Backend.ComplaintStore.constructor` | backend/app.py:47-49 | the service starts with the given configuration on the rows already in its database file (none on a first start, when `create_all` makes the table), which must satisfy the store invariant |
| `Backend.ComplaintStore.Commit` | backend/app.py:91-92 | a successful commit makes the row, with the next id and the current time, the table's new last row; a failed one leaves the table unchanged |
| `Backend.ComplaintStore.SendComplaint` | backend/app.py:65-135 | the step-by-step handler (read, validate, summarize, commit, compose, send, with early returns) produces the response, new store, summarizer call and sent email that `Intake` specifies, and keeps the store invariant |
| `Timestamps.Format` | backend/app.py:151 | the rendering is 19 characters, `-` at 4 and 7, a space at 10, `:` at 13 and 16, digits everywhere else |
| `Timestamps.Parse` | backend/app.py:151 | whatever it reads back is a valid time with zero microseconds |
| `Timestamps.ParseFormat` | backend/app.py:151 | parsing the rendering gives back the time without its microseconds |
| `Timestamps.FormatParse` | backend/app.py:151 | every string the parser accepts is the rendering of what it reads |
| `Timestamps.FormatInjective` | backend/app.py:151 | two times with the same rendering agree to the second |
| `ComplaintForm.FormData.Set` | frontend/src/components/ComplaintForm.js:45-47 | the named input takes the new value and every other input keeps its value |
| `ComplaintForm.TrimEmptyIffAllWhitespace` | frontend/src/components/ComplaintForm.js:21-37 | `!value.trim()` holds exactly when every character is JavaScript white space, the empty string included |
| `ComplaintForm.LooksLikeEmailIffRegexTest` | frontend/src/components/ComplaintForm.js:26 | the decision procedure agrees with the unanchored match of `\S+@\S+\.\S+` anywhere in the untrimmed value |
| `ComplaintForm.FieldError` | frontend/src/components/ComplaintForm.js:18-40 | a field has a message exactly when it is blank after trimming, or it is the email and fails the email pattern, or it is the phone and is not exactly ten digits; a blank field gets its "… is required." message, a non-blank bad email "Invalid email format.", a non-blank bad phone "Phone number must be 10 digits." |
| `ComplaintForm.Errors.Count` | frontend/src/components/ComplaintForm.js:42 | the number of keys of the errors object is zero exactly when no field has a message |
| `ComplaintForm.PaddedPhoneRejected` | frontend/src/components/ComplaintForm.js:29-33 | a phone value with white space in it that is not all white space gets "Phone number must be 10 digits." |
| `ComplaintForm.PaddedEmailAccepted` | frontend/src/components/ComplaintForm.js:24-28 | an email value the form accepts is still accepted with any text, white space included, before and after it |
| `ComplaintForm.ClientValidIsServerAccepted` | frontend/src/components/ComplaintForm.js:18-43 | a form the validator lets through posts a body that passes the service's validation |
| `ComplaintForm.ServerAcceptsBlankField` | backend/app.py:76-77 | a submission whose fields are all non-empty passes the service's validation even when one of them is only white space, which the form reports as missing |
| `ComplaintForm.FailureMessage` | frontend/src/components/ComplaintForm.js:69-74 | after a failed request the message is the response's non-empty `error` text, otherwise the fixed default |
| `ComplaintForm.ReplyTo` | frontend/src/components/ComplaintForm.js:60-74 | a 2xx response resolves, with its `message`; any other status rejects, carrying the response's `error` member |
| `ComplaintForm.SubmissionReplyShown` | frontend/src/components/ComplaintForm.js:60-74 | a submission that reaches the service resolves exactly when the service reports success, with the success text; otherwise the form shows the service's own `error` text, never its default |
| `ComplaintForm.SmtpFailureShownAsSuccess` | backend/app.py:132-133 | when the complaint is stored but sending raises an `SMTPException` whose text has no "error", the form receives "Failed to send email: …" and styles it `success-message` |
| `ComplaintForm.MessageClass` | frontend/src/components/ComplaintForm.js:84 | the class is `error-message` exactly when the message contains "error", otherwise `success-message` |
| `ComplaintForm.MissingFieldsStyledAsSuccess` | frontend/src/components/ComplaintForm.js:84 | the service's 400 text "All fields are required." is styled `success-message` |
| `ComplaintForm.DefaultFailureStyledAsError` | frontend/src/components/ComplaintForm.js:70-84 | the default failure text is styled as an error |
| `ComplaintForm.EmailFailureStyledAsSuccess` | backend/app.py:132-133 | the service's "Failed to send email: …" text, shown by the form, is styled `success-message` whenever the transport's text does not contain "error" |
| `ComplaintForm.ComplaintFormComponent.constructor` | frontend/src/components/ComplaintForm.js:6-16 | the component starts with five empty inputs, no errors, no message and not loading |
| `ComplaintForm.ComplaintFormComponent.HandleChange` | frontend/src/components/ComplaintForm.js:45-47 | only the named input changes |
| `ComplaintForm.ComplaintFormComponent.Validate` | frontend/src/components/ComplaintForm.js:18-43 | the stored errors hold, for every field, exactly the message `FieldError` gives, and the result is true exactly when no field has one |
| `ComplaintForm.ComplaintFormComponent.Submit` | frontend/src/components/ComplaintForm.js:49-58 | the message is cleared and the errors recomputed; an invalid form posts nothing and leaves loading false; a valid form posts exactly the current inputs and sets loading |
| `ComplaintForm.ComplaintFormComponent.Settle` | frontend/src/components/ComplaintForm.js:59-77 | on success the message is the server's and all five inputs are emptied; on failure the inputs are kept and the message is `FailureMessage`; loading is false afterwards |
| `ComplaintForm.ComplaintFormComponent.HandleSubmit` | frontend/src/components/ComplaintForm.js:49-78 | the whole handler: it posts exactly when the form is valid, never leaves loading set, and ends in the states `Submit` and `Settle` describe |

## Left out

- Flask setup, CORS, route registration and `app.run`: framework plumbing.
- Database configuration and table creation: the table is a sequence of rows whose ids are their positions plus one. That is what SQLite's row ids give for a table that is never deleted from.
- The column length limits (`String(100)` and so on): SQLite does not enforce them.
- The session state left behind by a failed commit: each request is modelled on its own.
- The HTTP call to the summarization service and its own summarizing: only its outcome is modelled.
- The SMTP session (connect, STARTTLS, login, send, quit) and MIME encoding: only the composed headers and body and the three outcomes are modelled. The body is carried as the values filled into its template; `BodyText` renders it.
- Reading environment variables and the startup prints: the values are the `Config` parameter.
- The diagnostic `print` when the summarization call raises: console output only; the fallback it precedes is modelled.
- `datetime.utcnow`: the time is a parameter.
- JSON values that are not strings, in the request fields or in the summarizer's `summary` member: not modelled.
- Concurrent requests against the store: one request at a time.
- Listing order: the query has no ordering clause, so the model assumes insertion order, which is row id order.
- Timestamps.Format: requires a four-digit year, because below year 1000 the width of `%Y` depends on the platform.
- JSX rendering, the `disabled` submit button and React's batching of state updates: UI. `Submit` and `Settle` are separate steps, so a change made while the request is pending is allowed.
- The axios transport: its result is the `Reply` parameter. A 2xx response without a `message` member shows nothing; `ReplyTo` gives `""` for it, which also shows nothing.
- `e.preventDefault()`: browser plumbing.
