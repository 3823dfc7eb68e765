/**
 * The complaint form of the web client: client-side validation, the form's
 * state (the five inputs, the per-field errors, the status message and the
 * loading flag), its change and submit handlers, and the styling rule for the
 * status message. The server's answer to a submission is an input.
 */
module ComplaintForm {
  import opened Wrappers
  import opened Text
  import Backend
  import Timestamps

  // ------------------------------------------------------------ the form

  datatype Field = Name | Email | Phone | Product | Issue

  /** The five inputs of the form. */
  datatype FormData = FormData(name: string, email: string, phone: string, product: string, issue: string)
  {
    function Get(f: Field): string
    {
      match f
      case Name => name
      case Email => email
      case Phone => phone
      case Product => product
      case Issue => issue
    }

    /** `{ ...formData, [field]: value }`: one input replaced, the others kept. */
    function Set(f: Field, value: string): (d: FormData)
      ensures d.Get(f) == value
      ensures forall g: Field | g != f :: d.Get(g) == Get(g)
    {
      match f
      case Name => this.(name := value)
      case Email => this.(email := value)
      case Phone => this.(phone := value)
      case Product => this.(product := value)
      case Issue => this.(issue := value)
    }
  }

  const EmptyForm := FormData("", "", "", "", "")

  // ------------------------------------------------- JavaScript text rules

  /**
   * JavaScript's white space and line terminators: what `trim()` removes and
   * what `\s` matches.
   */
  predicate IsJsWhitespace(c: char)
  {
    var n := c as int;
    || 0x09 <= n <= 0x0D          // tab, line feed, vertical tab, form feed, carriage return
    || n == 0x20 || n == 0xA0 || n == 0x1680 || 0x2000 <= n <= 0x200A
    || n == 0x2028 || n == 0x2029 // line and paragraph separators
    || n == 0x202F || n == 0x205F || n == 0x3000
    || n == 0xFEFF                // byte order mark
  }

  function TrimStart(s: string): string
  {
    if s != [] && IsJsWhitespace(s[0]) then TrimStart(s[1..]) else s
  }

  function TrimEnd(s: string): string
  {
    if s != [] && IsJsWhitespace(s[|s| - 1]) then TrimEnd(s[..|s| - 1]) else s
  }

  /** `s.trim()`. */
  function Trim(s: string): string
  {
    TrimEnd(TrimStart(s))
  }

  /** Every character is white space (the empty string included). */
  predicate AllWhitespace(s: string)
  {
    forall i | 0 <= i < |s| :: IsJsWhitespace(s[i])
  }

  lemma {:induction false} TrimStartEmpty(s: string)
    ensures TrimStart(s) == "" <==> AllWhitespace(s)
    ensures TrimStart(s) != "" ==> !IsJsWhitespace(TrimStart(s)[0])
  {
    if s != [] && IsJsWhitespace(s[0]) {
      TrimStartEmpty(s[1..]);
      assert AllWhitespace(s) <==> AllWhitespace(s[1..]) by {
        assert forall i | 1 <= i < |s| :: s[i] == s[1..][i - 1];
      }
    }
  }

  lemma {:induction false} TrimEndKeepsStart(s: string)
    requires s != [] && !IsJsWhitespace(s[0])
    ensures TrimEnd(s) != ""
  {
    if |s| > 1 && IsJsWhitespace(s[|s| - 1]) {
      TrimEndKeepsStart(s[..|s| - 1]);
    }
  }

  /** `!value.trim()`: trimming leaves nothing exactly when the value is all white space. */
  lemma TrimEmptyIffAllWhitespace(s: string)
    ensures Trim(s) == "" <==> AllWhitespace(s)
  {
    TrimStartEmpty(s);
    if TrimStart(s) != "" {
      TrimEndKeepsStart(TrimStart(s));
    }
  }

  /** The test `!value.trim()` of the validator. */
  predicate IsBlank(s: string)
  {
    Trim(s) == ""
  }

  /** `s[i..j]` is a non-empty run of non-white-space characters: a match of `\S+`. */
  ghost predicate NonSpaceRun(s: string, i: int, j: int)
  {
    0 <= i < j <= |s| && forall k | i <= k < j :: !IsJsWhitespace(s[k])
  }

  /** `s[a..b]` matches `\S+@\S+\.\S+`, its `@` at `p` and its `.` at `d`. */
  ghost predicate EmailMatchAt(s: string, a: int, p: int, d: int, b: int)
  {
    && 0 <= a < p < d < b <= |s|
    && NonSpaceRun(s, a, p) && s[p] == '@'
    && NonSpaceRun(s, p + 1, d) && s[d] == '.'
    && NonSpaceRun(s, d + 1, b)
  }

  /** `/\S+@\S+\.\S+/.test(s)`: the pattern is unanchored, so it may match anywhere. */
  ghost predicate EmailRegexTest(s: string)
  {
    exists a, p, d, b :: EmailMatchAt(s, a, p, d, b)
  }

  /**
   * The test, decided: an `@` with a non-space character before it, then a
   * run of non-space characters up to a `.`, then a non-space character.
   */
  predicate EmailShapeAt(s: string, p: int, d: int)
  {
    && 1 <= p && p + 1 < d && d + 1 < |s|
    && !IsJsWhitespace(s[p - 1]) && s[p] == '@'
    && (forall k | p < k < d :: !IsJsWhitespace(s[k])) && s[d] == '.'
    && !IsJsWhitespace(s[d + 1])
  }

  predicate LooksLikeEmail(s: string)
  {
    exists p, d | 0 <= p < |s| && 0 <= d < |s| :: EmailShapeAt(s, p, d)
  }

  /** The decision procedure answers what the regular expression answers. */
  lemma LooksLikeEmailIffRegexTest(s: string)
    ensures LooksLikeEmail(s) <==> EmailRegexTest(s)
  {
    if LooksLikeEmail(s) {
      var p, d :| 0 <= p < |s| && 0 <= d < |s| && EmailShapeAt(s, p, d);
      assert EmailMatchAt(s, p - 1, p, d, d + 2);
    }
    if EmailRegexTest(s) {
      var a, p, d, b :| EmailMatchAt(s, a, p, d, b);
      assert EmailShapeAt(s, p, d);
    }
  }

  /** `/^\d{10}$/.test(s)`: exactly ten ASCII digits and nothing else. */
  predicate IsTenDigits(s: string)
  {
    |s| == 10 && forall i | 0 <= i < 10 :: IsDigit(s[i])
  }

  // ----------------------------------------------------------- validation

  const NameRequired := "Name is required."
  const EmailRequired := "Email is required."
  const InvalidEmail := "Invalid email format."
  const PhoneRequired := "Phone number is required."
  const InvalidPhone := "Phone number must be 10 digits."
  const ProductRequired := "Product details are required."
  const IssueRequired := "Issue description is required."

  function RequiredMessage(f: Field): string
  {
    match f
    case Name => NameRequired
    case Email => EmailRequired
    case Phone => PhoneRequired
    case Product => ProductRequired
    case Issue => IssueRequired
  }

  /** The rule `validate` applies to one field. */
  function FieldError(form: FormData, f: Field): (r: Option<string>)
    ensures IsBlank(form.Get(f)) ==> r == Some(RequiredMessage(f))
    ensures r.Some? <==> || IsBlank(form.Get(f))
                         || (f == Email && !EmailRegexTest(form.email))
                         || (f == Phone && !IsTenDigits(form.phone))
    ensures f == Email && r.Some? && !IsBlank(form.email) ==> r == Some(InvalidEmail)
    ensures f == Phone && r.Some? && !IsBlank(form.phone) ==> r == Some(InvalidPhone)
  {
    LooksLikeEmailIffRegexTest(form.email);
    var v := form.Get(f);
    if IsBlank(v) then Some(RequiredMessage(f))
    else if f == Email && !LooksLikeEmail(v) then Some(InvalidEmail)
    else if f == Phone && !IsTenDigits(v) then Some(InvalidPhone)
    else None
  }

  /** A form `validate` lets through. */
  predicate ClientValid(form: FormData)
  {
    && FieldError(form, Name).None? && FieldError(form, Email).None? && FieldError(form, Phone).None?
    && FieldError(form, Product).None? && FieldError(form, Issue).None?
  }

  /** The validator's `errors` object: at most one message per field. */
  datatype Errors = Errors(name: Option<string>, email: Option<string>, phone: Option<string>,
                           product: Option<string>, issue: Option<string>)
  {
    function Get(f: Field): Option<string>
    {
      match f
      case Name => name
      case Email => email
      case Phone => phone
      case Product => product
      case Issue => issue
    }

    /** `Object.keys(errors).length`: zero exactly when no field has a message. */
    function Count(): (n: nat)
      ensures n == 0 <==> name.None? && email.None? && phone.None? && product.None? && issue.None?
    {
      (if name.Some? then 1 else 0) + (if email.Some? then 1 else 0) + (if phone.Some? then 1 else 0)
        + (if product.Some? then 1 else 0) + (if issue.Some? then 1 else 0)
    }
  }

  const NoErrors := Errors(None, None, None, None, None)

  /**
   * The phone pattern is anchored and looks at the untrimmed value, so a
   * padded phone number is rejected.
   */
  lemma PaddedPhoneRejected(form: FormData, i: nat)
    requires i < |form.phone| && IsJsWhitespace(form.phone[i]) && !AllWhitespace(form.phone)
    ensures FieldError(form, Phone) == Some(InvalidPhone)
  {
    TrimEmptyIffAllWhitespace(form.phone);
  }

  /** A run of non-space characters is still one with text around it. */
  lemma NonSpaceRunPadded(e: string, before: string, after: string, i: int, j: int)
    requires NonSpaceRun(e, i, j)
    ensures NonSpaceRun(before + e + after, |before| + i, |before| + j)
  {
    var padded := before + e + after;
    forall k | |before| + i <= k < |before| + j ensures !IsJsWhitespace(padded[k]) {
      assert padded[k] == e[k - |before|];
    }
  }

  /** A match of the email pattern is still a match with text around it. */
  lemma {:induction false} EmailMatchPadded(e: string, before: string, after: string)
    requires EmailRegexTest(e)
    ensures EmailRegexTest(before + e + after) && !AllWhitespace(before + e + after)
  {
    var padded := before + e + after;
    var a, p, d, b :| EmailMatchAt(e, a, p, d, b);
    var n := |before|;
    NonSpaceRunPadded(e, before, after, a, p);
    NonSpaceRunPadded(e, before, after, p + 1, d);
    NonSpaceRunPadded(e, before, after, d + 1, b);
    assert padded[n + p] == e[p] == '@';
    assert padded[n + d] == e[d] == '.';
    assert EmailMatchAt(padded, n + a, n + p, n + d, n + b);
  }

  /**
   * The email pattern is unanchored, so an accepted email stays accepted with
   * anything, white space included, around it.
   */
  lemma PaddedEmailAccepted(form: FormData, before: string, after: string)
    requires FieldError(form, Email) == None
    ensures FieldError(form.(email := before + form.email + after), Email) == None
  {
    EmailMatchPadded(form.email, before, after);
    TrimEmptyIffAllWhitespace(before + form.email + after);
  }

  // ------------------------------------------------------- the server side

  /** The JSON body the form posts. */
  function RequestOf(form: FormData): (req: Backend.Request)
  {
    Backend.JsonObject(map["name" := form.name, "email" := form.email, "phone" := form.phone,
                           "product" := form.product, "issue" := form.issue])
  }

  /** Whatever the client's validation lets through, the server's validation accepts. */
  lemma ClientValidIsServerAccepted(form: FormData)
    requires ClientValid(form)
    ensures Backend.Accepted(RequestOf(form))
  {
    assert FieldError(form, Name).None? && FieldError(form, Email).None? && FieldError(form, Phone).None?;
    assert FieldError(form, Product).None? && FieldError(form, Issue).None?;
  }

  /**
   * The converse fails: the server does not trim, so a whitespace-only field
   * passes its validation while the client reports it as missing.
   */
  lemma ServerAcceptsBlankField(form: FormData, f: Field)
    requires form.name != "" && form.email != "" && form.phone != ""
    requires form.product != "" && form.issue != ""
    requires AllWhitespace(form.Get(f))
    ensures Backend.Accepted(RequestOf(form))
    ensures FieldError(form, f) == Some(RequiredMessage(f))
  {
    TrimEmptyIffAllWhitespace(form.Get(f));
  }

  /**
   * What the HTTP client hands back: a 2xx response's `message`, or the
   * rejection, with the response's `error` member when there is one (None
   * when there was no response or no such member).
   */
  datatype Reply = Resolved(message: string) | Rejected(error: Option<string>)

  /** How the HTTP client presents one of the intake service's responses. */
  function ReplyTo(resp: Backend.Response): (r: Reply)
    ensures r.Resolved? <==> 200 <= resp.status < 300
    ensures r.Resolved? && resp.body.Message? ==> r.message == resp.body.message
    ensures r.Rejected? && resp.body.Error? ==> r.error == Some(resp.body.error)
  {
    if 200 <= resp.status < 300 then
      Resolved(if resp.body.Message? then resp.body.message else "")
    else
      Rejected(if resp.body.Error? then Some(resp.body.error) else None)
  }

  const DefaultFailureMessage := "An unexpected error occurred. Please try again."

  /** The message shown after a rejection: the server's non-empty `error`, else the default. */
  function FailureMessage(error: Option<string>): (m: string)
    ensures error.Some? && error.value != "" ==> m == error.value
    ensures error.None? || error.value == "" ==> m == DefaultFailureMessage
  {
    if error.Some? && error.value != "" then error.value else DefaultFailureMessage
  }

  /**
   * What the form shows after a submission reaches the service: the success
   * text exactly when the service reports success, and otherwise the
   * service's own `error` text, never the client's default.
   */
  lemma SubmissionReplyShown(config: Backend.Config, records: seq<Backend.Complaint>, req: Backend.Request,
                             service: Backend.SummarizerOutcome, commit: Backend.CommitOutcome,
                             smtp: Backend.SmtpOutcome, now: Timestamps.DateTime)
    requires Backend.WellFormed(records) && Timestamps.Valid(now)
    ensures var resp := Backend.Intake(config, records, req, service, commit, smtp, now).response;
            var reply := ReplyTo(resp);
            && (reply.Resolved? <==> Backend.Accepted(req) && commit.Committed? && smtp.Delivered?)
            && (reply.Resolved? ==> reply.message == Backend.SuccessMessage)
            && (reply.Rejected? ==> resp.body.Error? && FailureMessage(reply.error) == resp.body.error)
  {
  }

  // --------------------------------------------------------------- styling

  /** The class of the status message: `error-message` when it mentions "error". */
  function MessageClass(message: string): (c: string)
    ensures c == "error-message" || c == "success-message"
    ensures c == "error-message" <==> Contains(message, "error")
  {
    if Contains(message, "error") then "error-message" else "success-message"
  }

  /** The default failure text is styled as an error. */
  lemma DefaultFailureStyledAsError()
    ensures MessageClass(DefaultFailureMessage) == "error-message"
  {
    var m := DefaultFailureMessage;
    assert m[14] == 'e' && m[15] == 'r' && m[16] == 'r' && m[17] == 'o' && m[18] == 'r';
    assert m[14..19] == "error";
    ContainsAt(m, "error", 14);
  }

  /** No occurrence of "error" starts anywhere in "All fields are required.". */
  lemma NoErrorInMissingFields(i: nat)
    ensures !OccursAt(Backend.MissingFieldsMessage, "error", i)
  {
    var m := Backend.MissingFieldsMessage;
    if i + 5 <= |m| {
      assert forall k | 0 <= k < |m| :: m[k] == "All fields are required."[k];
      if m[i] == 'e' {
        assert i == 6 || i == 13 || i == 16 || i == 21;
        assert m[i..i + 5][1] != "error"[1];
      } else {
        assert m[i..i + 5][0] != "error"[0];
      }
    }
  }

  /** The service's 400 text is styled as a success. */
  lemma MissingFieldsStyledAsSuccess()
    ensures MessageClass(Backend.MissingFieldsMessage) == "success-message"
  {
    forall i: nat | i <= |Backend.MissingFieldsMessage|
      ensures !OccursAt(Backend.MissingFieldsMessage, "error", i)
    {
      NoErrorInMissingFields(i);
    }
  }

  /** No occurrence of "error" starts inside "Failed to send email: ". */
  lemma NoErrorStartsInEmailFailureHead(detail: string, i: nat)
    requires i < |"Failed to send email: "|
    ensures !OccursAt("Failed to send email: " + detail, "error", i)
  {
    var head := "Failed to send email: ";
    var s := head + detail;
    if i + 5 <= |s| {
      assert forall k | 0 <= k < |head| :: s[k] == head[k];
      if s[i] == 'e' {
        assert i == 4 || i == 11 || i == 15;
        assert s[i..i + 5][1] != "error"[1];
      } else {
        assert s[i..i + 5][0] != "error"[0];
      }
    }
  }

  /**
   * A failed email send is reported by the service as "Failed to send email:
   * ...": unless the transport's own text says "error", the form styles that
   * failure as a success.
   */
  lemma EmailFailureStyledAsSuccess(detail: string)
    requires !Contains(detail, "error")
    ensures MessageClass(FailureMessage(Some(Backend.EmailFailure(detail)))) == "success-message"
  {
    var head := "Failed to send email: ";
    var s := head + detail;
    assert Backend.EmailFailure(detail) == s;
    if Contains(s, "error") {
      var i: nat :| i <= |s| && OccursAt(s, "error", i);
      if i < |head| {
        NoErrorStartsInEmailFailureHead(detail, i);
        assert false;
      } else {
        assert detail[i - |head|..i - |head| + 5] == s[i..i + 5];
        ContainsAt(detail, "error", i - |head|);
        assert false;
      }
    }
  }

  /**
   * End to end: when the complaint is stored but the mail transport raises an
   * `SMTPException` whose text has no "error" in it, the form shows the
   * service's failure text styled as a success.
   */
  lemma SmtpFailureShownAsSuccess(config: Backend.Config, records: seq<Backend.Complaint>,
                                  req: Backend.Request, service: Backend.SummarizerOutcome,
                                  detail: string, now: Timestamps.DateTime)
    requires Backend.WellFormed(records) && Timestamps.Valid(now)
    requires Backend.Accepted(req) && !Contains(detail, "error")
    ensures var r := Backend.Intake(config, records, req, service, Backend.Committed,
                                    Backend.SmtpError(detail), now);
            var reply := ReplyTo(r.response);
            && |r.records| == |records| + 1
            && reply == Rejected(Some(Backend.EmailFailure(detail)))
            && MessageClass(FailureMessage(reply.error)) == "success-message"
  {
    EmailFailureStyledAsSuccess(detail);
  }

  // ------------------------------------------------------------ component

  /** The component's state and its event handlers. */
  class ComplaintFormComponent {
    var formData: FormData
    var errors: Errors
    var message: string
    var loading: bool

    constructor ()
      ensures formData == EmptyForm && errors == NoErrors && message == "" && !loading
    {
      formData := EmptyForm;
      errors := NoErrors;
      message := "";
      loading := false;
    }

    /** `handleChange`: the named input takes the new value, the others keep theirs. */
    method HandleChange(f: Field, value: string)
      modifies this`formData
      ensures formData.Get(f) == value
      ensures forall g: Field | g != f :: formData.Get(g) == old(formData).Get(g)
    {
      formData := formData.Set(f, value);
    }

    /**
     * `validate`: records one message for every field that fails its rule and
     * none for the others, and answers whether there were none.
     */
    method Validate() returns (ok: bool)
      modifies this`errors
      ensures forall f: Field :: errors.Get(f) == FieldError(formData, f)
      ensures ok <==> ClientValid(formData)
    {
      LooksLikeEmailIffRegexTest(formData.email);
      var errs := NoErrors;
      if IsBlank(formData.name) {
        errs := errs.(name := Some(NameRequired));
      }
      assert errs.name == FieldError(formData, Name);
      if IsBlank(formData.email) {
        errs := errs.(email := Some(EmailRequired));
      } else if !LooksLikeEmail(formData.email) {
        errs := errs.(email := Some(InvalidEmail));
      }
      assert errs.email == FieldError(formData, Email);
      if IsBlank(formData.phone) {
        errs := errs.(phone := Some(PhoneRequired));
      } else if !IsTenDigits(formData.phone) {
        errs := errs.(phone := Some(InvalidPhone));
      }
      assert errs.phone == FieldError(formData, Phone);
      if IsBlank(formData.product) {
        errs := errs.(product := Some(ProductRequired));
      }
      assert errs.product == FieldError(formData, Product);
      if IsBlank(formData.issue) {
        errs := errs.(issue := Some(IssueRequired));
      }
      assert errs.issue == FieldError(formData, Issue);
      forall f: Field ensures errs.Get(f) == FieldError(formData, f) {
        match f {
          case Name =>
          case Email =>
          case Phone =>
          case Product =>
          case Issue =>
        }
      }
      errors := errs;
      ok := errs.Count() == 0;
    }

    /**
     * The first part of `handleSubmit`, up to the request: clear the message,
     * validate, and when the form is valid post it and show the loading state.
     * Returns the data posted, None when nothing was.
     */
    method Submit() returns (posted: Option<FormData>)
      modifies this`errors, this`message, this`loading
      ensures formData == old(formData)
      ensures forall f: Field :: errors.Get(f) == FieldError(formData, f)
      ensures message == ""
      ensures posted.Some? <==> ClientValid(formData)
      ensures posted.Some? ==> posted.value == formData && loading
      ensures posted.None? ==> !loading
    {
      message := "";
      loading := false;
      var ok := Validate();
      if !ok {
        return None;
      }
      loading := true;
      posted := Some(formData);
    }

    /**
     * The rest of `handleSubmit`, once the request settles: on success show
     * the server's message and empty the form, on failure keep the form and
     * show the server's error or the default; in every case stop loading.
     */
    method Settle(reply: Reply)
      modifies this`formData, this`message, this`loading
      ensures !loading
      ensures reply.Resolved? ==> message == reply.message && formData == EmptyForm
      ensures reply.Rejected? ==> message == FailureMessage(reply.error) && formData == old(formData)
    {
      match reply {
        case Resolved(text) =>
          message := text;
          formData := EmptyForm;
        case Rejected(error) =>
          message := FailureMessage(error);
      }
      loading := false;
    }

    /** `handleSubmit` with the request's outcome given: Submit, then Settle if anything was posted. */
    method HandleSubmit(reply: Reply) returns (posted: Option<FormData>)
      modifies this`errors, this`formData, this`message, this`loading
      ensures !loading
      ensures posted.Some? <==> ClientValid(old(formData))
      ensures forall f: Field :: errors.Get(f) == FieldError(old(formData), f)
      ensures posted.None? ==> formData == old(formData) && message == ""
      ensures posted.Some? ==> posted.value == old(formData)
      ensures posted.Some? && reply.Resolved? ==> message == reply.message && formData == EmptyForm
      ensures posted.Some? && reply.Rejected? ==>
                message == FailureMessage(reply.error) && formData == old(formData)
    {
      posted := Submit();
      if posted.Some? {
        Settle(reply);
      }
    }
  }
}
