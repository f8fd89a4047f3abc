/**
 * The contact endpoint, app/api/contact/route.ts: the `POST` handler's
 * validation and status mapping, the mail options built by `sendEmail`, and
 * the configuration check of `createTransporter`. The handler is a total
 * function of the decoded request body, the environment and the outcome of
 * `sendMail`, which is a parameter.
 */
module ContactApi {
  import opened Wrappers
  import opened Text
  import opened RepoData

  /* ---------- inputs ---------- */

  /**
   * One destructured property of the body: absent or `null` (`?.` then gives
   * `undefined`), a string, or any other value, whose `.trim` is not a
   * function, so calling it throws.
   */
  datatype Field = Missing | Str(s: string) | NonString

  /**
   * What `await request.json()` yields: a body that is not JSON (the call
   * throws), `null` (destructuring it throws), or a value whose four
   * properties are read. A number or an array has all four `Missing`.
   */
  datatype Body = Unparseable | NullBody | Fields(name: Field, email: Field, subject: Field, message: Field)

  /** The environment variables read by the route; an unset variable is `None`. */
  datatype Env = Env(emailUser: Option<string>, emailPassword: Option<string>, emailTo: Option<string>)

  /* ---------- outputs ---------- */

  /** A JSON response: its status, its `success` flag and its `error` or `message` text. */
  datatype Response = Response(status: int, success: bool, text: string)

  /** The options handed to `sendMail`. */
  datatype MailOptions = MailOptions(from: string, to: string, replyTo: string, subject: string, text: string, html: string)

  /** The response and, when the handler reached `sendMail`, the options it sent. */
  datatype Outcome = Outcome(response: Response, mail: Option<MailOptions>)

  const RequiredError := "Name, email, subject, and message are required"
  const InvalidEmailError := "Please enter a valid email address"
  const SentMessage := "Your message has been sent successfully!"
  const FailedError := "Failed to send message. Please try again later."

  /* ---------- validation ---------- */

  /** How the `||` chain of line 61 ends: all four present, a falsy trim first, or a throw first. */
  datatype Presence = AllPresent | Blank | Throws

  /** A field that passes `!f?.trim()`: a string with something other than white space. */
  predicate Present(f: Field) {
    f.Str? && Trim(f.s) != []
  }

  /** One step of the `||` chain: a field that fails decides, a field that passes defers to the rest. */
  function Check(f: Field, rest: Presence): (r: Presence)
    ensures r == AllPresent <==> Present(f) && rest == AllPresent
    ensures r == Throws <==> f.NonString? || (Present(f) && rest == Throws)
  {
    match f
    case Missing => Blank
    case Str(s) => if Trim(s) == [] then Blank else rest
    case NonString => Throws
  }

  /** Line 61: `!f?.trim()` for the four fields, left to right, stopping at the first that decides. */
  function CheckPresent(name: Field, email: Field, subject: Field, message: Field): (r: Presence)
    ensures r == AllPresent <==> Present(name) && Present(email) && Present(subject) && Present(message)
  {
    Check(name, Check(email, Check(subject, Check(message, AllPresent))))
  }

  /** A character of `[^\s@]`. */
  predicate Plain(c: char) {
    !IsSpace(c) && c != '@'
  }

  predicate AllPlain(s: string) {
    forall i :: 0 <= i < |s| ==> Plain(s[i])
  }

  /**
   * A match of `^[^\s@]+@[^\s@]+\.[^\s@]+$` with its `@` at `at` and its
   * escaped `.` at `dot`: non-empty runs before the `@`, between it and the
   * dot, and after the dot, and no white space or other `@` anywhere.
   */
  predicate EmailMatch(s: string, at: int, dot: int) {
    0 < at && at + 1 < dot < |s| - 1 && s[at] == '@' && s[dot] == '.'
    && forall i :: 0 <= i < |s| && i != at ==> Plain(s[i])
  }

  /** Line 68 computed: split at the first `@`, then look for a dot strictly inside the domain. */
  predicate ValidEmail(s: string) {
    '@' in s &&
    var at := IndexOfChar(s, '@');
    var domain := s[at + 1..];
    at > 0 && AllPlain(s[..at]) && AllPlain(domain) && |domain| >= 3 && '.' in domain[1..|domain| - 1]
  }

  /** The computed check accepts exactly the texts the regular expression matches. */
  lemma ValidEmailIff(s: string)
    ensures ValidEmail(s) <==> exists at, dot :: EmailMatch(s, at, dot)
  {
    if ValidEmail(s) {
      var at := IndexOfChar(s, '@');
      var domain := s[at + 1..];
      var inner := domain[1..|domain| - 1];
      var k :| 0 <= k < |inner| && inner[k] == '.';
      assert s[at + 2 + k] == '.';
      assert forall i :: 0 <= i < at ==> s[..at][i] == s[i];
      assert forall i :: 0 <= i < |domain| ==> domain[i] == s[at + 1 + i];
      assert EmailMatch(s, at, at + 2 + k);
    }
    if exists at, dot :: EmailMatch(s, at, dot) {
      var at, dot :| EmailMatch(s, at, dot);
      assert s[at] == '@';
      var a := IndexOfChar(s, '@');
      assert !Plain(s[a]);
      var domain := s[at + 1..];
      assert domain[1..|domain| - 1][dot - at - 2] == '.';
      assert forall i :: 0 <= i < at ==> s[..at][i] == s[i];
      assert forall i :: 0 <= i < |domain| ==> domain[i] == s[at + 1 + i];
    }
  }

  /** The test runs on the untrimmed email: leading or trailing white space fails it. */
  lemma UntrimmedEmailRejected(s: string)
    requires s != [] && (IsSpace(s[0]) || IsSpace(s[|s| - 1]))
    ensures !ValidEmail(s)
  {
    ValidEmailIff(s);
    forall at, dot ensures !EmailMatch(s, at, dot) {
      if 0 < at && at + 1 < dot < |s| - 1 {
        assert !Plain(s[0]) || !Plain(s[|s| - 1]);
      }
    }
  }

  /* ---------- sending ---------- */

  /** Lines 6-9: the transporter can be created only when user and password are both truthy. */
  predicate Configured(env: Env) {
    Truthy(env.emailUser) && Truthy(env.emailPassword)
  }

  /** Lines 23-41: the options for the trimmed fields. */
  function MailOptionsFor(env: Env, name: string, email: string, subject: string, message: string): (m: MailOptions)
    requires Configured(env)
    ensures m.from == env.emailUser.value
    ensures m.to == (if Truthy(env.emailTo) then env.emailTo.value else env.emailUser.value)
    ensures m.replyTo == email
    ensures m.subject == (if subject != [] then subject else "New contact from portfolio: " + name)
  {
    MailOptions(
      env.emailUser.value,
      OrElse(env.emailTo, env.emailUser.value),
      email,
      if subject != [] then subject else "New contact from portfolio: " + name,
      MessageText(name, email, subject, message),
      MessageHtml(name, email, subject, message))
  }

  /** Lines 28-33: the plain-text body. */
  function MessageText(name: string, email: string, subject: string, message: string): string {
    "\n      Name: " + name + "\n      Email: " + email + "\n      Subject: " + subject
      + "\n      Message: " + message + "\n    "
  }

  /** Lines 34-40: the HTML body, with every line break of the message turned into `<br>`. */
  function MessageHtml(name: string, email: string, subject: string, message: string): string {
    "\n      <h3>New Contact Message</h3>\n      <p><strong>Name:</strong> " + name
      + "</p>\n      <p><strong>Email:</strong> " + email
      + "</p>\n      <p><strong>Subject:</strong> " + subject
      + "</p>\n      <p><strong>Message:</strong><br>" + ReplaceAll(message, '\n', "<br>") + "</p>\n    "
  }

  /** The message part of the HTML keeps no line break and grows by three characters per break. */
  lemma MessageHtmlBreaks(message: string)
    ensures '\n' !in ReplaceAll(message, '\n', "<br>")
    ensures |ReplaceAll(message, '\n', "<br>")| == |message| + 3 * multiset(message)['\n']
  {
    ReplaceAllLength(message, '\n', "<br>");
  }

  /**
   * Each line break becomes `<br>` in its own place: a text without breaks is
   * kept, and the text around a break is rewritten on each side of it.
   */
  lemma MessageBreakInPlace(a: string, b: string)
    ensures '\n' !in a ==> ReplaceAll(a, '\n', "<br>") == a
    ensures ReplaceAll(a + "\n" + b, '\n', "<br>") == ReplaceAll(a, '\n', "<br>") + "<br>" + ReplaceAll(b, '\n', "<br>")
  {
    if '\n' !in a {
      ReplaceAllAbsent(a, '\n', "<br>");
    }
    ReplaceAllAppend(a + "\n", b, '\n', "<br>");
    ReplaceAllAppend(a, "\n", '\n', "<br>");
    ReplaceAllOne('\n', '\n', "<br>");
  }

  /* ---------- the handler ---------- */

  /**
   * Lines 54-99. `sent` is what `transporter.sendMail` does: resolve (true)
   * or reject (false); `sendEmail` turns a rejection into `false`, which the
   * handler throws on.
   */
  function Post(body: Body, env: Env, sent: bool): Outcome {
    match body
    case Unparseable => Outcome(Response(500, false, FailedError), None)
    case NullBody => Outcome(Response(500, false, FailedError), None)
    case Fields(name, email, subject, message) =>
      match CheckPresent(name, email, subject, message)
      case Blank => Outcome(Response(400, false, RequiredError), None)
      case Throws => Outcome(Response(500, false, FailedError), None)
      case AllPresent =>
        if !ValidEmail(email.s) then Outcome(Response(400, false, InvalidEmailError), None)
        else if !Configured(env) then Outcome(Response(500, false, FailedError), None)
        else
          var mail := MailOptionsFor(env, Trim(name.s), Trim(email.s), Trim(subject.s), Trim(message.s));
          if sent then Outcome(Response(200, true, SentMessage), Some(mail))
          else Outcome(Response(500, false, FailedError), Some(mail))
  }

  /** Four non-blank strings, a matching email and a full configuration: the request reaches `sendMail`. */
  predicate Deliverable(body: Body, env: Env) {
    body.Fields? && Present(body.name) && Present(body.email) && Present(body.subject) && Present(body.message)
    && ValidEmail(body.email.s) && Configured(env)
  }

  /** Every response is 200, 400 or 500, `success` is set exactly on 200, and each status carries its own text. */
  lemma PostStatus(body: Body, env: Env, sent: bool)
    ensures var o := Post(body, env, sent);
      (o.response.status == 200 || o.response.status == 400 || o.response.status == 500)
      && (o.response.success <==> o.response.status == 200)
      && (o.response.status == 200 ==> o.response.text == SentMessage)
      && (o.response.status == 500 ==> o.response.text == FailedError)
  {
  }

  /**
   * Mail is attempted exactly for a deliverable request, and 200 comes
   * exactly from a deliverable request whose send succeeded.
   */
  lemma PostDelivers(body: Body, env: Env, sent: bool)
    ensures var o := Post(body, env, sent);
      (o.mail.Some? <==> Deliverable(body, env))
      && (o.response.status == 200 <==> Deliverable(body, env) && sent)
  {
  }

  /**
   * A missing or blank field gives 400 with the required-fields error, before
   * the email is looked at, as long as no field is a non-string.
   */
  lemma MissingFieldGives400(name: Field, email: Field, subject: Field, message: Field, env: Env, sent: bool)
    requires !name.NonString? && !email.NonString? && !subject.NonString? && !message.NonString?
    requires name.Missing? || email.Missing? || subject.Missing? || message.Missing?
      || (name.Str? && Trim(name.s) == []) || (email.Str? && Trim(email.s) == [])
      || (subject.Str? && Trim(subject.s) == []) || (message.Str? && Trim(message.s) == [])
    ensures Post(Fields(name, email, subject, message), env, sent) == Outcome(Response(400, false, RequiredError), None)
  {
  }

  /** Present fields with an email the expression rejects give 400 with the email error. */
  lemma InvalidEmailGives400(name: string, email: string, subject: string, message: string, env: Env, sent: bool)
    requires Trim(name) != [] && Trim(email) != [] && Trim(subject) != [] && Trim(message) != []
    requires !ValidEmail(email)
    ensures Post(Fields(Str(name), Str(email), Str(subject), Str(message)), env, sent)
      == Outcome(Response(400, false, InvalidEmailError), None)
  {
    assert CheckPresent(Str(name), Str(email), Str(subject), Str(message)) == AllPresent;
  }

  /**
   * A request that passes both checks but meets a missing user or password
   * makes `createTransporter` throw, which the handler reports as 500 before
   * any mail is attempted.
   */
  lemma MissingConfigGives500(name: string, email: string, subject: string, message: string, env: Env, sent: bool)
    requires Trim(name) != [] && Trim(email) != [] && Trim(subject) != [] && Trim(message) != []
    requires ValidEmail(email)
    requires !Configured(env)
    ensures Post(Fields(Str(name), Str(email), Str(subject), Str(message)), env, sent)
      == Outcome(Response(500, false, FailedError), None)
  {
    assert CheckPresent(Str(name), Str(email), Str(subject), Str(message)) == AllPresent;
  }

  /**
   * A deliverable request whose send fails is reported as 500, after the mail
   * was attempted (SentMailUsesTrimmedFields states what that mail holds).
   */
  lemma SendFailureGives500(name: string, email: string, subject: string, message: string, env: Env)
    requires Trim(name) != [] && Trim(email) != [] && Trim(subject) != [] && Trim(message) != []
    requires ValidEmail(email) && Configured(env)
    ensures Post(Fields(Str(name), Str(email), Str(subject), Str(message)), env, false).response
      == Response(500, false, FailedError)
    ensures Post(Fields(Str(name), Str(email), Str(subject), Str(message)), env, false).mail.Some?
  {
    assert CheckPresent(Str(name), Str(email), Str(subject), Str(message)) == AllPresent;
  }

  /** A body that is not JSON, or is JSON `null`, makes the handler throw: 500 and no mail. */
  lemma UnparseableGives500(body: Body, env: Env, sent: bool)
    requires body.Unparseable? || body.NullBody?
    ensures Post(body, env, sent) == Outcome(Response(500, false, FailedError), None)
  {
  }

  /**
   * A non-string field that the `||` chain reaches (every field before it
   * present) makes `.trim` throw: 500 and no mail.
   */
  lemma NonStringGives500(name: Field, email: Field, subject: Field, message: Field, env: Env, sent: bool)
    requires name.NonString?
      || (Present(name) && (email.NonString?
      || (Present(email) && (subject.NonString?
      || (Present(subject) && message.NonString?)))))
    ensures Post(Fields(name, email, subject, message), env, sent) == Outcome(Response(500, false, FailedError), None)
  {
    assert CheckPresent(name, email, subject, message) == Throws;
  }

  /**
   * The mail that is sent carries the trimmed fields: the reply goes to the
   * trimmed email and the subject is the trimmed subject, so the
   * `New contact from portfolio` fallback is never reached through `POST`.
   */
  lemma SentMailUsesTrimmedFields(body: Body, env: Env, sent: bool)
    requires Post(body, env, sent).mail.Some?
    ensures var m := Post(body, env, sent).mail.value;
      m.replyTo == Trim(body.email.s) && m.subject == Trim(body.subject.s)
      && m.from == env.emailUser.value
      && m.to == (if Truthy(env.emailTo) then env.emailTo.value else env.emailUser.value)
      && m.html == MessageHtml(Trim(body.name.s), Trim(body.email.s), Trim(body.subject.s), Trim(body.message.s))
  {
    PostDelivers(body, env, sent);
    var Fields(name, email, subject, message) := body;
    assert CheckPresent(name, email, subject, message) == AllPresent;
    assert Post(body, env, sent).mail.value
      == MailOptionsFor(env, Trim(name.s), Trim(email.s), Trim(subject.s), Trim(message.s));
  }
}
