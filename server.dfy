/** The two request handlers that involve mail: saving a submission and then
    notifying the operator (server.js, lines 113-247), and the debug probe
    that sends a test message (lines 262-311). The database insert, the
    transport's `sendMail` and `verify` are not run: their outcomes are
    parameters. */
module Server {
  import opened Js
  import opened Text
  import opened Rendering
  import opened Retry
  import opened Smtp

  const NoTransporterProblem := "Email transporter not configured. "
  const NoTransporterHint := "Set GMAIL_USER and GMAIL_PASS."
  const NoRecipientProblem := "No recipient configured. "
  const NoRecipientHint := "Set NOTIFY_EMAIL or RECIPIENT_EMAIL."

  /** Thrown at line 144 (and reported at line 265) when `mailTransporter` is null. */
  const NoTransporterError := NewError(NoTransporterProblem + NoTransporterHint)
  /** Thrown at line 147 (and reported at line 270) when no recipient is set. */
  const NoRecipientError := NewError(NoRecipientProblem + NoRecipientHint)

  /** Neither configuration error looks like a timeout, so neither is retried. */
  lemma ConfigErrorsAreNotTimeouts()
    ensures !TimeoutLike(NoTransporterError) && !TimeoutLike(NoRecipientError)
  {
    PairFreeConcat(NoTransporterProblem, NoTransporterHint, 't', 'i');
    NoPairNoMatch(NoTransporterError.message, "timeout");
    PairFreeConcat(NoRecipientProblem, NoRecipientHint, 't', 'i');
    NoPairNoMatch(NoRecipientError.message, "timeout");
  }

  /** `err?.message || String(err)`: the text a caught error is reported with. */
  function ErrorText(e: MailError): (t: string)
    ensures t == "" <==> e.message == "" && e.text == ""
    ensures e.message != "" ==> t == e.message
    ensures e.message == "" ==> t == e.text
  {
    if e.message != "" then e.message else e.text
  }

  /** The message handed to `sendMail`. */
  datatype Mail = Mail(from: EnvVar, to: string, subject: string, text: string, html: string)

  /** The operator notification for submission `id` (lines 149-205): it goes
      to the configured recipient from the configured sender, and its subject
      names the submission so that the id reads back from it. */
  function Notification(env: Env, s: Submission, id: int): (m: Mail)
    requires IsSet(Recipient(env))
    ensures m.to == Recipient(env).value && m.to != ""
    ensures m.from == Sender(env)
    ensures |m.subject| > |SubjectPrefix| && m.subject[..|SubjectPrefix|] == SubjectPrefix
    ensures ParseInt(m.subject[|SubjectPrefix|..]) == id
  {
    SubjectCarriesId(id);
    Mail(Sender(env), Recipient(env).value, Subject(id), PlainText(s, id), Html(s, id))
  }

  /** The notification's two bodies read back line by line as the rendering
      lays them out, as long as no field value carries a line break. */
  lemma NotificationBodies(env: Env, s: Submission, id: int)
    requires IsSet(Recipient(env)) && SingleLineFields(s)
    ensures SplitLines(Notification(env, s, id).text) == PlainLines(s, id)
    ensures SplitLines(Notification(env, s, id).html) == [""] + HtmlLines(s, id) + ["        "]
  {
    PlainTextLines(s, id);
    HtmlTextLines(s, id);
  }

  function Copies(m: Mail, n: nat): (ms: seq<Mail>)
    ensures |ms| == n && forall k :: 0 <= k < n ==> ms[k] == m
  {
    seq(n, _ => m)
  }

  lemma CopiesGrow(m: Mail, n: nat)
    ensures Copies(m, n) + [m] == Copies(m, n + 1)
  {
    assert forall k :: 0 <= k < n + 1 ==> (Copies(m, n) + [m])[k] == m;
  }

  /** The error raised by the checks ahead of `sendMail`, if any: the
      transporter is checked first, the recipient second. */
  function ConfigGap(env: Env, transporter: Option<SmtpProfile>): (g: Option<MailError>)
    ensures g.None? <==> transporter.Some? && IsSet(Recipient(env))
    ensures transporter.None? ==> g == Some(NoTransporterError)
    ensures transporter.Some? && !IsSet(Recipient(env)) ==> g == Some(NoRecipientError)
  {
    if transporter.None? then Some(NoTransporterError)
    else if !IsSet(Recipient(env)) then Some(NoRecipientError)
    else None
  }

  /** How each attempt of the notification send ends: with the configuration
      error when there is one (it is raised inside the retried block), else
      with the outcome of that attempt's `sendMail`. */
  function PlannedSends(env: Env, transporter: Option<SmtpProfile>, outcomes: seq<Attempt>): seq<Attempt>
  {
    match ConfigGap(env, transporter)
    case Some(e) => [Failed(e), Failed(e), Failed(e)]
    case None => outcomes
  }

  /** What one call of a retrying helper did, with the messages it handed to
      the transport, one per transmission, in order. */
  datatype SendRun = SendRun(finish: Finish, attempts: nat, backoffs: nat, sent: seq<Mail>)

  /** The notification send in closed form: the retry policy applied to the
      planned attempts; every attempt that passes the configuration checks
      hands the same notification to the transport. */
  function SendSpec(env: Env, transporter: Option<SmtpProfile>, s: Submission, id: int,
                    outcomes: seq<Attempt>): (r: SendRun)
    ensures 1 <= r.attempts <= MaxAttempts && r.backoffs == r.attempts - 1
    ensures ConfigGap(env, transporter).Some? ==> r.sent == []
    ensures ConfigGap(env, transporter).None? ==>
      |r.sent| == r.attempts && forall k :: 0 <= k < |r.sent| ==> r.sent[k] == Notification(env, s, id)
  {
    var run := Run(PlannedSends(env, transporter, outcomes));
    var sent := if ConfigGap(env, transporter).Some? then [] else Copies(Notification(env, s, id), run.attempts);
    SendRun(run.finish, run.attempts, run.backoffs, sent)
  }

  /** The closed form is fixed by where the attempts stop: one transmission
      per attempt when the configuration is complete, none otherwise. */
  lemma SendSpecStopsAt(env: Env, transporter: Option<SmtpProfile>, s: Submission, id: int,
                        outcomes: seq<Attempt>, n: nat)
    requires n <= MaxRetries
    requires forall k :: 0 <= k < n ==> Retryable(At(PlannedSends(env, transporter, outcomes), k))
    requires n == MaxRetries || !Retryable(At(PlannedSends(env, transporter, outcomes), n))
    ensures SendSpec(env, transporter, s, id, outcomes) ==
            SendRun(FinishOf(At(PlannedSends(env, transporter, outcomes), n)), n + 1, n,
                    if ConfigGap(env, transporter).Some? then [] else Copies(Notification(env, s, id), n + 1))
  {
    RunStopsAt(PlannedSends(env, transporter, outcomes), n);
  }

  /** `sendEmailWithRetry` (lines 142-225), its recursion on `retryCount`
      written as a loop. */
  method SendEmailWithRetry(env: Env, transporter: Option<SmtpProfile>, s: Submission, id: int,
                            outcomes: seq<Attempt>) returns (r: SendRun)
    ensures r == SendSpec(env, transporter, s, id, outcomes)
  {
    ghost var planned := PlannedSends(env, transporter, outcomes);
    var retryCount: nat := 0;
    var sent: seq<Mail> := [];
    while true
      invariant retryCount <= MaxRetries
      invariant forall k :: 0 <= k < retryCount ==> Retryable(At(planned, k))
      invariant sent == if ConfigGap(env, transporter).Some? then [] else Copies(Notification(env, s, id), retryCount)
      decreases MaxRetries - retryCount
    {
      var outcome: Attempt;
      if transporter.None? {
        outcome := Failed(NoTransporterError);
      } else {
        var recipient := Recipient(env);
        if !IsSet(recipient) {
          outcome := Failed(NoRecipientError);
        } else {
          var mail := Notification(env, s, id);
          CopiesGrow(mail, retryCount);
          sent := sent + [mail];
          outcome := At(outcomes, retryCount);
        }
      }
      assert outcome == At(planned, retryCount);
      if outcome.Delivered? {
        SendSpecStopsAt(env, transporter, s, id, outcomes, retryCount);
        return SendRun(Returned, retryCount + 1, retryCount, sent);
      }
      if retryCount < MaxRetries && TimeoutLike(ErrorOf(outcome)) {
        RetryableExtend(planned, retryCount);
        retryCount := retryCount + 1;
      } else {
        SendSpecStopsAt(env, transporter, s, id, outcomes, retryCount);
        return SendRun(Threw(ErrorOf(outcome)), retryCount + 1, retryCount, sent);
      }
    }
  }

  /** A missing transporter or recipient ends the send on its first attempt,
      with no pause and nothing handed to the transport; a missing
      transporter is reported even when the recipient is missing too. */
  lemma ConfigGapEndsAtOnce(env: Env, transporter: Option<SmtpProfile>, s: Submission, id: int,
                            outcomes: seq<Attempt>)
    requires ConfigGap(env, transporter).Some?
    ensures SendSpec(env, transporter, s, id, outcomes) ==
            SendRun(Threw(ConfigGap(env, transporter).value), 1, 0, [])
    ensures transporter.None? ==> SendSpec(env, transporter, s, id, outcomes).finish == Threw(NoTransporterError)
  {
    ConfigErrorsAreNotTimeouts();
    var e := ConfigGap(env, transporter).value;
    OtherErrorsEndTheRun(PlannedSends(env, transporter, outcomes), 0, e);
  }

  /** Three timeouts in a row: the helper throws the timer's error after
      three transmissions of the notification, so the operator may still
      receive up to three copies of a notification reported as not sent. */
  lemma TimeoutsTransmitThreeTimes(env: Env, transporter: Option<SmtpProfile>, s: Submission, id: int)
    requires ConfigGap(env, transporter).None?
    ensures var r := SendSpec(env, transporter, s, id, [TimedOut, TimedOut, TimedOut]);
            r.finish == Threw(NewError(SendTimeoutMessage)) && r.attempts == 3 && r.backoffs == 2 &&
            r.sent == Copies(Notification(env, s, id), 3)
  {
    ThreeTimeouts();
  }

  /** The outcome of the `INSERT ... RETURNING id`: the new row's id, or an error. */
  datatype InsertResult = Inserted(id: int) | InsertFailed

  /** The JSON body of the submission response. */
  datatype SubmitBody =
    | Saved(message: string, id: int, emailSent: bool, emailError: Option<string>)
    | SaveFailed(error: string)

  datatype Response<B> = Response(status: nat, body: B)

  /** `POST /api/submissions` once the insert has finished (lines 136-246). */
  method HandleSubmission(env: Env, transporter: Option<SmtpProfile>, s: Submission,
                          insert: InsertResult, outcomes: seq<Attempt>)
    returns (resp: Response<SubmitBody>, sent: seq<Mail>)
    ensures insert.InsertFailed? ==> resp == Response(500, SaveFailed("Failed to save submission")) && sent == []
    ensures insert.Inserted? ==>
      var run := SendSpec(env, transporter, s, insert.id, outcomes);
      resp.status == 201 && resp.body.Saved? &&
      resp.body.message == "Submission saved successfully" && resp.body.id == insert.id &&
      (resp.body.emailSent <==> run.finish.Returned?) &&
      (resp.body.emailError.Some? <==> run.finish.Threw? && ErrorText(run.finish.error) != "") &&
      (resp.body.emailError.Some? ==> resp.body.emailError.value == ErrorText(run.finish.error)) &&
      sent == run.sent
    ensures resp.body.Saved? ==> !(resp.body.emailSent && resp.body.emailError.Some?)
  {
    match insert
    case InsertFailed =>
      resp := Response(500, SaveFailed("Failed to save submission"));
      sent := [];
    case Inserted(id) =>
      var emailSent := false;
      var emailError: Option<string> := None;
      var run := SendEmailWithRetry(env, transporter, s, id, outcomes);
      if run.finish.Returned? {
        emailSent := true;
      } else {
        emailError := Some(ErrorText(run.finish.error));
      }
      resp := Response(201, Saved("Submission saved successfully", id, emailSent,
                                  if emailError.Some? && emailError.value != "" then emailError else None));
      sent := run.sent;
  }

  /** One attempt of the debug send: `verify()` fails, or it passes and the
      send ends as the attempt says. */
  datatype ProbeStep = VerifyFailed(error: MailError) | VerifyPassed(send: Attempt)

  /** Step `k` of the probe; a step the given ones do not cover is a
      verification that passes followed by a send that never answers. */
  function StepAt(steps: seq<ProbeStep>, k: nat): ProbeStep
  {
    if k < |steps| then steps[k] else VerifyPassed(TimedOut)
  }

  function StepOutcome(p: ProbeStep): (a: Attempt)
    ensures a.Delivered? ==> p.VerifyPassed?
  {
    match p
    case VerifyFailed(e) => Failed(e)
    case VerifyPassed(a) => a
  }

  function PlannedProbe(steps: seq<ProbeStep>): (planned: seq<Attempt>)
    ensures forall k :: 0 <= k < MaxAttempts && StepAt(steps, k).VerifyFailed? ==>
              At(planned, k) == Failed(StepAt(steps, k).error)
    ensures forall k :: 0 <= k < MaxAttempts && StepAt(steps, k).VerifyPassed? ==>
              At(planned, k) == StepAt(steps, k).send
  {
    [StepOutcome(StepAt(steps, 0)), StepOutcome(StepAt(steps, 1)), StepOutcome(StepAt(steps, 2))]
  }

  /** The fixed test message (lines 278-284). */
  function DebugMail(env: Env): (m: Mail)
    requires IsSet(Recipient(env))
    ensures m.to == Recipient(env).value && m.from == Sender(env)
  {
    Mail(Sender(env), Recipient(env).value, "HospiceConnect debug email",
         "This is a test email to verify SMTP configuration.",
         "<p>This is a test email to verify SMTP configuration.</p>")
  }

  /** The messages handed to the transport by the first `n` probe steps:
      one for each step whose verification passed. */
  function Transmitted(steps: seq<ProbeStep>, n: nat, m: Mail): (ms: seq<Mail>)
    ensures |ms| <= n && forall k :: 0 <= k < |ms| ==> ms[k] == m
    ensures (forall k :: 0 <= k < n ==> StepAt(steps, k).VerifyPassed?) ==> ms == Copies(m, n)
  {
    if n == 0 then []
    else Transmitted(steps, n - 1, m) + (if StepAt(steps, n - 1).VerifyPassed? then [m] else [])
  }

  /** The debug send in closed form: the retry policy applied to the probe
      steps, transmitting once per step whose verification passed. */
  function TestEmailSpec(env: Env, steps: seq<ProbeStep>): (r: SendRun)
    requires IsSet(Recipient(env))
    ensures 1 <= r.attempts <= MaxAttempts && r.backoffs == r.attempts - 1
    ensures |r.sent| <= r.attempts && forall k :: 0 <= k < |r.sent| ==> r.sent[k] == DebugMail(env)
  {
    var run := Run(PlannedProbe(steps));
    SendRun(run.finish, run.attempts, run.backoffs, Transmitted(steps, run.attempts, DebugMail(env)))
  }

  /** `testEmail` (lines 274-303), its recursion on `retryCount` written as a loop. */
  method TestEmail(env: Env, steps: seq<ProbeStep>) returns (r: SendRun)
    requires IsSet(Recipient(env))
    ensures r == TestEmailSpec(env, steps)
  {
    ghost var planned := PlannedProbe(steps);
    var retryCount: nat := 0;
    var sent: seq<Mail> := [];
    while true
      invariant retryCount <= MaxRetries
      invariant forall k :: 0 <= k < retryCount ==> Retryable(At(planned, k))
      invariant sent == Transmitted(steps, retryCount, DebugMail(env))
      decreases MaxRetries - retryCount
    {
      var outcome: Attempt;
      match StepAt(steps, retryCount) {
        case VerifyFailed(e) =>
          outcome := Failed(e);
        case VerifyPassed(a) =>
          sent := sent + [DebugMail(env)];
          outcome := a;
      }
      assert outcome == At(planned, retryCount);
      if outcome.Delivered? {
        RunStopsAt(planned, retryCount);
        return SendRun(Returned, retryCount + 1, retryCount, sent);
      }
      if retryCount < MaxRetries && TimeoutLike(ErrorOf(outcome)) {
        RetryableExtend(planned, retryCount);
        retryCount := retryCount + 1;
      } else {
        RunStopsAt(planned, retryCount);
        return SendRun(Threw(ErrorOf(outcome)), retryCount + 1, retryCount, sent);
      }
    }
  }

  /** The JSON body of the probe: `{ok: true, message}` or `{ok: false, error}`. */
  datatype DebugBody = DebugOk(message: string) | DebugFailed(error: string)

  /** `GET /api/debug/email` (lines 262-311). */
  method DebugEmail(env: Env, transporter: Option<SmtpProfile>, steps: seq<ProbeStep>)
    returns (resp: Response<DebugBody>, sent: seq<Mail>)
    ensures resp.status == 200 || resp.status == 400 || resp.status == 500
    ensures resp.status == 400 <==> ConfigGap(env, transporter).Some?
    ensures ConfigGap(env, transporter).Some? ==>
      resp.body == DebugFailed(ConfigGap(env, transporter).value.message) && sent == []
    ensures ConfigGap(env, transporter).None? ==>
      var run := TestEmailSpec(env, steps);
      sent == run.sent &&
      (run.finish.Returned? ==> resp == Response(200, DebugOk("Debug email sent successfully"))) &&
      (run.finish.Threw? ==> resp == Response(500, DebugFailed(ErrorText(run.finish.error))))
    ensures resp.status == 200 <==> resp.body.DebugOk?
  {
    if transporter.None? {
      return Response(400, DebugFailed(NoTransporterError.message)), [];
    }
    var recipient := Recipient(env);
    if !IsSet(recipient) {
      return Response(400, DebugFailed(NoRecipientError.message)), [];
    }
    var run := TestEmail(env, steps);
    sent := run.sent;
    if run.finish.Returned? {
      resp := Response(200, DebugOk("Debug email sent successfully"));
    } else {
      resp := Response(500, DebugFailed(ErrorText(run.finish.error)));
    }
  }

  /** A failed verification counts as an attempt, and is retried like a send
      when its error looks like a timeout, but hands nothing to the
      transport. */
  lemma ProbeTransmitsAfterVerifyOnly(env: Env, steps: seq<ProbeStep>)
    requires IsSet(Recipient(env))
    requires forall k :: 0 <= k < MaxAttempts ==> StepAt(steps, k).VerifyFailed?
    ensures TestEmailSpec(env, steps).sent == []
    ensures TestEmailSpec(env, steps).finish.Threw?
  {
    var run := Run(PlannedProbe(steps));
    assert !At(PlannedProbe(steps), run.attempts - 1).Delivered?;
    NothingTransmitted(steps, run.attempts, DebugMail(env));
  }

  /** A verification that fails with an error that does not look like a
      timeout ends the probe on that attempt: the probe throws that error,
      and the attempt hands nothing to the transport. */
  lemma VerifyFailureEndsProbe(env: Env, steps: seq<ProbeStep>, k: nat)
    requires IsSet(Recipient(env))
    requires k <= MaxRetries && StepAt(steps, k).VerifyFailed?
    requires !TimeoutLike(StepAt(steps, k).error)
    requires forall i :: 0 <= i < k ==> Retryable(At(PlannedProbe(steps), i))
    ensures TestEmailSpec(env, steps).finish == Threw(StepAt(steps, k).error)
    ensures TestEmailSpec(env, steps).attempts == k + 1
    ensures TestEmailSpec(env, steps).sent == Transmitted(steps, k, DebugMail(env))
  {
    OtherErrorsEndTheRun(PlannedProbe(steps), k, StepAt(steps, k).error);
  }

  lemma {:induction false} NothingTransmitted(steps: seq<ProbeStep>, n: nat, m: Mail)
    requires n <= MaxAttempts
    requires forall k :: 0 <= k < n ==> StepAt(steps, k).VerifyFailed?
    ensures Transmitted(steps, n, m) == []
  {
    if n > 0 {
      NothingTransmitted(steps, n - 1, m);
    }
  }
}
