/**
 * The complaint intake service: validate a submission, summarize its issue
 * (falling back to truncation), persist it in an append-only store, notify the
 * support mailbox by email, and report one outcome; plus the listing of all
 * stored complaints.
 *
 * Every dependency outside the service is an input: the summarization
 * service's reply, whether the database commit succeeds, what the mail
 * transport does, the clock, and the configuration read at startup.
 */
module Backend {
  import opened Wrappers
  import opened Text
  import opened Timestamps

  // ---------------------------------------------------------------- data

  /** The configuration read from the environment once, at startup. */
  datatype Config = Config(senderAddress: string, senderPassword: string, supportAddress: string)

  /** One row of the complaint table. */
  datatype Complaint = Complaint(
    id: nat,
    name: string,
    email: string,
    phone: string,
    product: string,
    issue: string,
    summarizedIssue: Option<string>,   // the column is nullable: None is SQL NULL
    timestamp: DateTime)

  /**
   * The store's invariant: ids are assigned 1, 2, 3, ... in insertion order
   * (the table is never deleted from), every row was stamped with a valid
   * time, and every required column holds a non-empty value.
   */
  predicate WellFormed(records: seq<Complaint>)
  {
    forall i | 0 <= i < |records| ::
      && records[i].id == i + 1
      && Timestamps.Valid(records[i].timestamp)
      && records[i].name != "" && records[i].email != "" && records[i].phone != ""
      && records[i].product != "" && records[i].issue != ""
  }

  /**
   * The body of a POST request. A body that is not a JSON object (not JSON at
   * all, a list, null, ...) makes the handler raise before validation; the
   * text of that exception is `detail`.
   */
  datatype Request = JsonObject(fields: map<string, string>) | Unreadable(detail: string)

  /** `data.get(key)` followed by Python's truth test: present and not "". */
  predicate Truthy(fields: map<string, string>, key: string)
  {
    key in fields && fields[key] != ""
  }

  /** The validation of the intake handler: all five fields present and non-empty. */
  predicate HasRequiredFields(fields: map<string, string>)
  {
    Truthy(fields, "name") && Truthy(fields, "email") && Truthy(fields, "phone")
      && Truthy(fields, "product") && Truthy(fields, "issue")
  }

  /** Appending a row with the next id, a valid time and non-empty required columns keeps the invariant. */
  lemma AppendKeepsWellFormed(records: seq<Complaint>, c: Complaint)
    requires WellFormed(records)
    requires c.id == |records| + 1 && Timestamps.Valid(c.timestamp)
    requires c.name != "" && c.email != "" && c.phone != "" && c.product != "" && c.issue != ""
    ensures WellFormed(records + [c])
  {
  }

  /** A request that gets past validation. */
  predicate Accepted(req: Request)
  {
    req.JsonObject? && HasRequiredFields(req.fields)
  }

  // ---------------------------------------------------------- summarizer

  /** The `summary` member of the summarization service's JSON reply. */
  datatype SummaryField = Absent | Null | Summary(text: string)

  /**
   * What the single call to the summarization service did: it replied with a
   * status and a JSON object, or it raised (connection refused, timeout, a
   * body that is not JSON, ...).
   */
  datatype SummarizerOutcome = Replied(status: int, summary: SummaryField) | Raised

  const FallbackLength: nat := 250

  /** The deterministic fallback summary `text[:250] + '...'`. */
  function Fallback(text: string): (r: string)
    ensures |r| == Min(|text|, FallbackLength) + 3
    ensures r[..|r| - 3] == text[..Min(|text|, FallbackLength)]
    ensures r[|r| - 3..] == "..."
    ensures |text| <= FallbackLength ==> r == text + "..."
  {
    Prefix(text, FallbackLength) + "..."
  }

  /** The service produced the summary itself: status 200 and a `summary` member. */
  predicate ServiceSummarized(service: SummarizerOutcome)
  {
    service.Replied? && service.status == 200 && !service.summary.Absent?
  }

  /**
   * `summarize_text`. It never fails: the service's summary is used verbatim
   * when it answers 200 with a `summary` member (a JSON null there is kept as
   * None), and every other outcome gives the fallback.
   */
  function SummarizeText(text: string, service: SummarizerOutcome): (r: Option<string>)
    ensures ServiceSummarized(service) && service.summary.Summary? ==> r == Some(service.summary.text)
    ensures ServiceSummarized(service) && service.summary.Null? ==> r == None
    ensures !ServiceSummarized(service) ==> r == Some(Fallback(text))
  {
    match service
    case Raised => Some(Fallback(text))
    case Replied(status, summary) =>
      if status != 200 then Some(Fallback(text))
      else match summary
        case Absent => Some(Fallback(text))
        case Null => None
        case Summary(s) => Some(s)
  }

  // ------------------------------------------------------------ notifier

  /**
   * The values the notification's fixed plain-text template is filled with;
   * the raw issue is not among them, only its summary.
   */
  datatype BodyFields = BodyFields(name: string, email: string, phone: string, product: string,
                                   summary: Option<string>)

  /** The composed notification: its headers and the contents of its body. */
  datatype Email = Email(from: string, to: string, cc: string, subject: string, body: BodyFields)

  /** How an f-string renders the summary: Python's `str(None)` is "None". */
  function Render(v: Option<string>): string
  {
    match v
    case None => "None"
    case Some(s) => s
  }

  const Indent := "        "

  /** The lines of the notification's fixed plain-text template, filled in. */
  function BodyLines(b: BodyFields): seq<string>
  {
    [ "\n",
      Indent + "Dear Support Team,\n",
      "\n",
      Indent + "A consumer has submitted a complaint. Below are the details:\n",
      "\n",
      Indent + "Name: " + b.name + "\n",
      Indent + "Email: " + b.email + "\n",
      Indent + "Phone: " + b.phone + "\n",
      Indent + "Product: " + b.product + "\n",
      "\n",
      Indent + "Issue Description (Summary):\n",
      Indent + Render(b.summary) + "\n",
      "\n",
      Indent + "Please address this issue promptly.\n",
      "\n",
      Indent + "Regards,\n",
      Indent + "Automated Complaint System\n",
      Indent ]
  }

  /** The plain-text body the template produces. */
  function BodyText(b: BodyFields): string
  {
    Concat(BodyLines(b))
  }

  /**
   * The body carries a line for each of name, email, phone and product, and
   * the summary on the line after its heading.
   */
  lemma BodyMentionsDetails(b: BodyFields)
    ensures Contains(BodyText(b), Indent + "Name: " + b.name + "\n")
    ensures Contains(BodyText(b), Indent + "Email: " + b.email + "\n")
    ensures Contains(BodyText(b), Indent + "Phone: " + b.phone + "\n")
    ensures Contains(BodyText(b), Indent + "Product: " + b.product + "\n")
    ensures Contains(BodyText(b), Indent + "Issue Description (Summary):\n" + Indent + Render(b.summary) + "\n")
  {
    var lines := BodyLines(b);
    ConcatContainsLine(lines, 5);
    ConcatContainsLine(lines, 6);
    ConcatContainsLine(lines, 7);
    ConcatContainsLine(lines, 8);
    ConcatContainsAdjacentLines(lines, 10);
    assert lines[10] + lines[11]
      == Indent + "Issue Description (Summary):\n" + Indent + Render(b.summary) + "\n";
  }

  /** The message composed for the mail transport: to support, copied to the submitter. */
  function ComposeEmail(config: Config, name: string, email: string, phone: string,
                        product: string, summary: Option<string>): (m: Email)
    ensures m.from == config.senderAddress
    ensures m.to == config.supportAddress && m.cc == email
    ensures m.subject == "New Consumer Complaint from " + name
    ensures m.body == BodyFields(name, email, phone, product, summary)
  {
    Email(config.senderAddress, config.supportAddress, email, "New Consumer Complaint from " + name,
          BodyFields(name, email, phone, product, summary))
  }

  // ------------------------------------------------------------ outcomes

  datatype CommitOutcome = Committed | CommitFailed(detail: string)

  /**
   * What the SMTP session did: delivered the message, raised an
   * `SMTPException` (authentication, rejection, ...), or raised some other
   * exception (a socket error while connecting, ...).
   */
  datatype SmtpOutcome = Delivered | SmtpError(detail: string) | OtherError(detail: string)

  /** One row of the listing's JSON array. */
  datatype ComplaintJson = ComplaintJson(
    id: nat,
    name: string,
    email: string,
    phone: string,
    product: string,
    issue: string,
    summarizedIssue: Option<string>,
    timestamp: string)

  datatype ResponseBody = Message(message: string) | Error(error: string) | Listing(items: seq<ComplaintJson>)

  datatype Response = Response(status: int, body: ResponseBody)

  const SuccessMessage := "Complaint submitted and saved successfully!"
  const MissingFieldsMessage := "All fields are required."

  function UnexpectedError(detail: string): string
  {
    "An unexpected error occurred: " + detail
  }

  function EmailFailure(detail: string): string
  {
    "Failed to send email: " + detail
  }

  // -------------------------------------------------------------- intake

  /**
   * What one submission does: the response, the store afterwards, the text
   * sent to the summarization service (None when it was not called) and the
   * message composed for sending (None when none was composed; the transport
   * may still fail before handing it over).
   */
  datatype IntakeResult = IntakeResult(
    response: Response,
    records: seq<Complaint>,
    summarized: Option<string>,
    notification: Option<Email>)

  /** The row a committed submission adds to `records`. */
  function NewRecord(records: seq<Complaint>, fields: map<string, string>, summary: Option<string>,
                     now: DateTime): Complaint
    requires HasRequiredFields(fields)
  {
    Complaint(|records| + 1, fields["name"], fields["email"], fields["phone"],
              fields["product"], fields["issue"], summary, now)
  }

  /** The notification for an accepted submission with its obtained summary. */
  function NotificationFor(config: Config, fields: map<string, string>, summary: Option<string>): Email
    requires HasRequiredFields(fields)
  {
    ComposeEmail(config, fields["name"], fields["email"], fields["phone"], fields["product"], summary)
  }

  /** `send_complaint` as a function of the store and of every outside outcome. */
  function Intake(config: Config, records: seq<Complaint>, req: Request,
                  service: SummarizerOutcome, commit: CommitOutcome, smtp: SmtpOutcome,
                  now: DateTime): (r: IntakeResult)
    requires WellFormed(records) && Timestamps.Valid(now)
    ensures WellFormed(r.records)
    // the store only ever grows by one row at its end
    ensures r.records == records || (|r.records| == |records| + 1 && r.records[..|records|] == records)
    // validation happens before anything else, and failing it has no effect
    ensures !Accepted(req) ==> r.records == records && r.summarized == None && r.notification == None
    ensures req.Unreadable? ==> r.response == Response(500, Error(UnexpectedError(req.detail)))
    ensures req.JsonObject? && !Accepted(req) ==> r.response == Response(400, Error(MissingFieldsMessage))
    // an accepted submission is summarized exactly once, from its full issue text
    ensures Accepted(req) ==> r.summarized == Some(req.fields["issue"])
    // a commit that fails stores nothing and sends nothing
    ensures commit.CommitFailed? ==> r.records == records && r.notification == None
    ensures Accepted(req) && commit.CommitFailed? ==>
              r.response == Response(500, Error(UnexpectedError(commit.detail)))
    // a successful commit appends exactly the submission, then the notification is sent
    ensures Accepted(req) && commit.Committed? ==>
              var summary := SummarizeText(req.fields["issue"], service);
              && r.records == records + [NewRecord(records, req.fields, summary, now)]
              && r.notification == Some(NotificationFor(config, req.fields, summary))
    // a failed send keeps the stored row (accepted partial success)
    ensures Accepted(req) && commit.Committed? && smtp.SmtpError? ==>
              r.response == Response(500, Error(EmailFailure(smtp.detail)))
    ensures Accepted(req) && commit.Committed? && smtp.OtherError? ==>
              r.response == Response(500, Error(UnexpectedError(smtp.detail)))
    // success is reported exactly when both the commit and the send succeed
    ensures r.response.status == 200 <==> Accepted(req) && commit.Committed? && smtp.Delivered?
    ensures r.response.status == 200 ==> r.response.body == Message(SuccessMessage)
    // every other outcome carries a non-empty `error` text
    ensures r.response.status != 200 ==> r.response.body.Error? && r.response.body.error != ""
    ensures r.response.status == 200 || r.response.status == 400 || r.response.status == 500
  {
    match req
    case Unreadable(detail) =>
      IntakeResult(Response(500, Error(UnexpectedError(detail))), records, None, None)
    case JsonObject(fields) =>
      if !HasRequiredFields(fields) then
        IntakeResult(Response(400, Error(MissingFieldsMessage)), records, None, None)
      else
        var summary := SummarizeText(fields["issue"], service);
        match commit
        case CommitFailed(detail) =>
          IntakeResult(Response(500, Error(UnexpectedError(detail))), records, Some(fields["issue"]), None)
        case Committed =>
          var stored := records + [NewRecord(records, fields, summary, now)];
          AppendKeepsWellFormed(records, NewRecord(records, fields, summary, now));
          var mail := Some(NotificationFor(config, fields, summary));
          var response := match smtp
            case Delivered => Response(200, Message(SuccessMessage))
            case SmtpError(detail) => Response(500, Error(EmailFailure(detail)))
            case OtherError(detail) => Response(500, Error(UnexpectedError(detail)));
          IntakeResult(response, stored, Some(fields["issue"]), mail)
  }

  // ------------------------------------------------------------- listing

  /** One row of the listing: every column copied, the time rendered. */
  function ToJson(c: Complaint): (j: ComplaintJson)
    requires Timestamps.Valid(c.timestamp)
  {
    ComplaintJson(c.id, c.name, c.email, c.phone, c.product, c.issue, c.summarizedIssue,
                  Format(c.timestamp))
  }

  /** What the listing shows of a stored row. */
  predicate Shows(j: ComplaintJson, c: Complaint)
  {
    && j.id == c.id && j.name == c.name && j.email == c.email && j.phone == c.phone
    && j.product == c.product && j.issue == c.issue && j.summarizedIssue == c.summarizedIssue
    && Timestamps.Valid(c.timestamp) && Parse(j.timestamp) == Some(c.timestamp.(microsecond := 0))
  }

  datatype ReadOutcome = ReadOk | ReadFailed(detail: string)

  /** `get_complaints`: one entry per stored row, in the store's order. */
  function GetComplaints(records: seq<Complaint>, read: ReadOutcome): (r: Response)
    requires WellFormed(records)
    ensures read.ReadFailed? ==> r == Response(500, Error("Failed to retrieve complaints: " + read.detail))
    ensures read.ReadOk? ==> r.status == 200 && r.body.Listing? && |r.body.items| == |records|
    ensures read.ReadOk? ==> forall i | 0 <= i < |records| ::
              Shows(r.body.items[i], records[i]) && |r.body.items[i].timestamp| == 19
  {
    match read
    case ReadFailed(detail) => Response(500, Error("Failed to retrieve complaints: " + detail))
    case ReadOk =>
      var items := seq(|records|, i requires 0 <= i < |records| => ToJson(records[i]));
      assert forall i | 0 <= i < |records| :: Shows(items[i], records[i]) by {
        forall i | 0 <= i < |records| ensures Shows(items[i], records[i]) {
          ParseFormat(records[i].timestamp);
        }
      }
      Response(200, Listing(items))
  }

  /**
   * What the listing shows after one submission: every row listed before is
   * listed unchanged, and when the commit succeeded (whatever the mail
   * transport then did) one more entry follows, carrying exactly the submitted
   * values, the obtained summary and the creation time. Nothing else ever
   * changes the listing.
   */
  lemma {:induction false} ListingAfterIntake(config: Config, records: seq<Complaint>, req: Request,
                                              service: SummarizerOutcome, commit: CommitOutcome,
                                              smtp: SmtpOutcome, now: DateTime)
    requires WellFormed(records) && Timestamps.Valid(now)
    ensures var r := Intake(config, records, req, service, commit, smtp, now);
            var before := GetComplaints(records, ReadOk).body.items;
            var after := GetComplaints(r.records, ReadOk).body.items;
            && after[..|before|] == before
            && (Accepted(req) && commit.Committed? ==>
                  && |after| == |before| + 1
                  && var j := after[|before|];
                  && j.id == |records| + 1
                  && j.name == req.fields["name"] && j.email == req.fields["email"]
                  && j.phone == req.fields["phone"] && j.product == req.fields["product"]
                  && j.issue == req.fields["issue"]
                  && j.summarizedIssue == SummarizeText(req.fields["issue"], service)
                  && Parse(j.timestamp) == Some(now.(microsecond := 0)))
            && (!(Accepted(req) && commit.Committed?) ==> after == before)
  {
    var r := Intake(config, records, req, service, commit, smtp, now);
    var before := GetComplaints(records, ReadOk).body.items;
    var after := GetComplaints(r.records, ReadOk).body.items;
    if Accepted(req) && commit.Committed? {
      assert r.records[..|records|] == records;
      forall i | 0 <= i < |records| ensures after[i] == before[i] {
        assert r.records[i] == records[i];
      }
      assert after[..|before|] == before;
    } else {
      assert after[..|before|] == before;
    }
  }

  // ---------------------------------------------------------------- store

  /** The complaint table, with the intake handler that is its only writer. */
  class ComplaintStore {
    const config: Config
    var records: seq<Complaint>

    ghost predicate Valid()
      reads this
    {
      WellFormed(records)
    }

    /**
     * The service starting on its database file: `db.create_all()` creates the
     * table when it is missing (`existing == []`) and otherwise keeps the rows
     * stored by earlier runs.
     */
    constructor (config: Config, existing: seq<Complaint>)
      requires WellFormed(existing)
      ensures Valid() && this.config == config && records == existing
    {
      this.config := config;
      records := existing;
    }

    /**
     * `db.session.add` then `db.session.commit`: on success the row, with the
     * next id and the current time, becomes the last one of the table; on
     * failure the table is unchanged.
     */
    method Commit(name: string, email: string, phone: string, product: string, issue: string,
                  summary: Option<string>, outcome: CommitOutcome, now: DateTime)
      returns (saved: Option<Complaint>)
      requires Valid() && Timestamps.Valid(now)
      requires name != "" && email != "" && phone != "" && product != "" && issue != ""
      modifies this`records
      ensures Valid()
      ensures outcome.Committed? ==>
                && saved == Some(Complaint(|old(records)| + 1, name, email, phone, product, issue, summary, now))
                && records == old(records) + [saved.value]
      ensures outcome.CommitFailed? ==> saved == None && records == old(records)
    {
      if outcome.CommitFailed? {
        return None;
      }
      var row := Complaint(|records| + 1, name, email, phone, product, issue, summary, now);
      records := records + [row];
      saved := Some(row);
    }

    /**
     * `send_complaint`, step by step: read the body, validate, summarize,
     * commit, compose and send, each failure returning at once.
     */
    method SendComplaint(req: Request, service: SummarizerOutcome, commit: CommitOutcome,
                         smtp: SmtpOutcome, now: DateTime)
      returns (response: Response, summarized: Option<string>, notification: Option<Email>)
      requires Valid() && Timestamps.Valid(now)
      modifies this`records
      ensures Valid()
      ensures IntakeResult(response, records, summarized, notification)
                == Intake(config, old(records), req, service, commit, smtp, now)
    {
      summarized, notification := None, None;
      if req.Unreadable? {
        return Response(500, Error(UnexpectedError(req.detail))), summarized, notification;
      }
      var data := req.fields;
      if !(Truthy(data, "name") && Truthy(data, "email") && Truthy(data, "phone")
           && Truthy(data, "product") && Truthy(data, "issue")) {
        return Response(400, Error(MissingFieldsMessage)), summarized, notification;
      }
      var name, email, phone, product, issue := data["name"], data["email"], data["phone"],
                                                data["product"], data["issue"];

      summarized := Some(issue);
      var summary := SummarizeText(issue, service);

      var saved := Commit(name, email, phone, product, issue, summary, commit, now);
      if saved.None? {
        return Response(500, Error(UnexpectedError(commit.detail))), summarized, notification;
      }

      assert records == old(records) + [NewRecord(old(records), data, summary, now)];
      var msg := ComposeEmail(config, name, email, phone, product, summary);
      assert msg == NotificationFor(config, data, summary);
      notification := Some(msg);
      match smtp {
        case Delivered =>
          response := Response(200, Message(SuccessMessage));
        case SmtpError(detail) =>
          response := Response(500, Error(EmailFailure(detail)));
        case OtherError(detail) =>
          response := Response(500, Error(UnexpectedError(detail)));
      }
    }
  }
}
