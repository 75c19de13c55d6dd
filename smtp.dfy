/** Mail configuration: the environment variables the server reads, the two
    Gmail SMTP profiles, and the module-level transporter that
    `verifyConnection` moves from one profile to the next (server.js,
    lines 33-96, 146 and 200). */
module Smtp {
  import opened Js

  /** The environment variables that decide how mail is sent. */
  datatype Env = Env(
    gmailUser: EnvVar, gmailPass: EnvVar, gmailFrom: EnvVar,
    notifyEmail: EnvVar, recipientEmail: EnvVar)

  /** `process.env.NOTIFY_EMAIL || process.env.RECIPIENT_EMAIL`. */
  function Recipient(env: Env): (r: EnvVar)
    ensures IsSet(r) <==> IsSet(env.notifyEmail) || IsSet(env.recipientEmail)
    ensures IsSet(env.notifyEmail) ==> r == env.notifyEmail
    ensures !IsSet(env.notifyEmail) ==> r == env.recipientEmail
  {
    Or(env.notifyEmail, env.recipientEmail)
  }

  /** `process.env.GMAIL_FROM || process.env.GMAIL_USER`. */
  function Sender(env: Env): (r: EnvVar)
    ensures IsSet(r) <==> IsSet(env.gmailFrom) || IsSet(env.gmailUser)
    ensures IsSet(env.gmailFrom) ==> r == env.gmailFrom
    ensures !IsSet(env.gmailFrom) ==> r == env.gmailUser
  {
    Or(env.gmailFrom, env.gmailUser)
  }

  /** An empty NOTIFY_EMAIL or GMAIL_FROM is falsy and falls through to the
      second variable. */
  lemma EmptyFallsThrough(env: Env)
    requires env.notifyEmail == Some("") && env.gmailFrom == Some("")
    ensures Recipient(env) == env.recipientEmail && Sender(env) == env.gmailUser
  {
  }

  /** One SMTP connection profile, timeouts in milliseconds. */
  datatype SmtpProfile = SmtpProfile(
    host: string, port: nat, secure: bool,
    connectionTimeout: nat, greetingTimeout: nat, socketTimeout: nat)

  /** STARTTLS on port 587 first, then implicit TLS on port 465. */
  const Profiles: seq<SmtpProfile> := [
    SmtpProfile("smtp.gmail.com", 587, false, 60000, 30000, 60000),
    SmtpProfile("smtp.gmail.com", 465, true, 60000, 30000, 60000)
  ]

  /** Whether `verify()` succeeded on the transport built from profile `i`.
      A verification that the given results do not cover counts as failed. */
  predicate Accepts(results: seq<bool>, i: nat)
  {
    i < |results| && results[i]
  }

  /** The first profile from index `i` on whose verification succeeds. */
  function FirstAcceptedFrom(results: seq<bool>, i: nat): (r: Option<nat>)
    requires i <= |Profiles|
    ensures r.Some? ==> i <= r.value < |Profiles| && Accepts(results, r.value)
    ensures r.Some? ==> forall k :: i <= k < r.value ==> !Accepts(results, k)
    ensures r.None? ==> forall k :: i <= k < |Profiles| ==> !Accepts(results, k)
    decreases |Profiles| - i
  {
    if i == |Profiles| then None
    else if Accepts(results, i) then Some(i)
    else FirstAcceptedFrom(results, i + 1)
  }

  /** The profile `verifyConnection` ends on: the first one that verifies,
      or the last one when none does. */
  function SettledProfile(results: seq<bool>): (k: nat)
    ensures k < |Profiles|
  {
    match FirstAcceptedFrom(results, 0)
    case Some(i) => i
    case None => |Profiles| - 1
  }

  /** The indices 0, 1, ..., n - 1. */
  function UpTo(n: nat): (r: seq<nat>)
    ensures |r| == n && forall k :: 0 <= k < n ==> r[k] == k
  {
    seq(n, k requires 0 <= k < n => k)
  }

  /** The module-level mail state: `mailTransporter`, which is either null or
      a transport built from one profile, plus a record of the profiles whose
      verification was attempted and whether one reported ready. */
  class Mailer {
    var transporter: Option<SmtpProfile>
    ghost var tried: seq<nat>
    ghost var ready: bool

    /** Lines 33-34 and 72: a transport from the first profile exists only
        when both Gmail credentials are set. */
    constructor (env: Env)
      ensures transporter == if IsSet(env.gmailUser) && IsSet(env.gmailPass) then Some(Profiles[0]) else None
      ensures tried == [] && !ready
    {
      transporter := if IsSet(env.gmailUser) && IsSet(env.gmailPass) then Some(Profiles[0]) else None;
      tried := [];
      ready := false;
    }

    /** Lines 75-93: verify the current transport; on failure, while a later
        profile remains, rebuild the transport from it and verify again. */
    method VerifyConnection(results: seq<bool>)
      requires transporter == Some(Profiles[0]) && tried == [] && !ready
      modifies this
      ensures transporter == Some(Profiles[SettledProfile(results)])
      ensures tried == UpTo(SettledProfile(results) + 1)
      ensures ready <==> FirstAcceptedFrom(results, 0).Some?
    {
      var configIndex := 0;
      while true
        invariant configIndex < |Profiles|
        invariant transporter == Some(Profiles[configIndex])
        invariant tried == UpTo(configIndex) && !ready
        invariant forall k :: 0 <= k < configIndex ==> !Accepts(results, k)
        decreases |Profiles| - configIndex
      {
        tried := tried + [configIndex];
        if Accepts(results, configIndex) {
          ready := true;
          return;
        }
        if configIndex < |Profiles| - 1 {
          transporter := Some(Profiles[configIndex + 1]);
          configIndex := configIndex + 1;
        } else {
          return;
        }
      }
    }
  }

  /** Which profiles are tried, and where the transporter ends, follows from
      the verification results alone: every profile up to the settled one is
      tried once, in order, and the settled one is the first that verifies
      or else the last. */
  lemma SettledIsFirstAccepted(results: seq<bool>)
    ensures Accepts(results, SettledProfile(results)) ||
            (SettledProfile(results) == |Profiles| - 1 && forall k :: 0 <= k < |Profiles| ==> !Accepts(results, k))
    ensures forall k :: 0 <= k < SettledProfile(results) ==> !Accepts(results, k)
  {
    var r := FirstAcceptedFrom(results, 0);
    if r.Some? {
      assert SettledProfile(results) == r.value;
    }
  }

  /** The first profile fails verification and the second passes: the
      transporter ends on port 465 after two verifications. */
  lemma FallbackToSecondProfile()
    ensures SettledProfile([false, true]) == 1
    ensures Profiles[SettledProfile([false, true])].port == 465
    ensures UpTo(SettledProfile([false, true]) + 1) == [0, 1]
  {
    assert FirstAcceptedFrom([false, true], 1) == Some(1);
  }
}
