/**
 * The email credential test script: read `.env.local`, show the settings with the password
 * hidden, stop with exit code 1 when the user or password is missing, otherwise send one test
 * email; when sending fails show the error, a hint when it is a rejected login, and exit with 1.
 */
module EmailCheck {
  import opened Wrappers
  import opened JsText
  import opened EnvFile

  const UserKey := "EMAIL_USER"
  const PassKey := "EMAIL_PASS"
  const RecipientKey := "ALERT_RECIPIENT_EMAIL"

  const TestSubject := "🚨 TEST: LifeAlert Emergency System Working!"
  const InvalidLoginMarker := "Invalid login"
  const LoginHint := [
    "⚠️  Invalid email credentials - Check your EMAIL_USER and EMAIL_PASS",
    "Note: For Gmail, use an App Password, not your regular password"
  ]

  /** `EMAIL_PASS ? '***' : 'MISSING'`: the password itself is never shown. */
  function HiddenPassword(v: Option<string>): (shown: string)
    ensures shown in {"***", "MISSING"}
    ensures shown == "***" <==> Truthy(v)
  {
    if Truthy(v) then "***" else "MISSING"
  }

  /** The hint lines shown for a send error: only a message mentioning "Invalid login" has them. */
  function LoginFailureHint(message: string): (hint: seq<string>)
    ensures hint != [] <==> exists i :: OccursAt(message, InvalidLoginMarker, i)
    ensures hint == [] || hint == LoginHint
  {
    if Includes(message, InvalidLoginMarker) then LoginHint else []
  }

  /** The test mail handed to the transport. */
  datatype Mail = Mail(from: string, to: Option<string>, subject: string)

  /** How the mail transport answers `sendMail`. */
  datatype SendResult = Accepted | Refused(message: string)

  /** What a run of the script shows, sends, and exits with. */
  datatype Report = Report(
    userShown: string,
    passShown: string,
    recipientShown: string,
    mails: seq<Mail>,
    failure: Option<string>,
    hint: seq<string>,
    exitCode: nat)

  /** The credentials the script needs before it creates a transport. */
  predicate HasCredentials(env: map<string, string>)
  {
    Truthy(Setting(env, UserKey)) && Truthy(Setting(env, PassKey))
  }

  /** One run of the script on the file text `envContent`; `send` is the transport's answer. */
  method RunEmailCheck(envContent: string, send: SendResult) returns (report: Report)
    ensures var env := EnvOf(Lines(envContent));
      && report.userShown == OrMissing(Setting(env, UserKey))
      && report.passShown == HiddenPassword(Setting(env, PassKey))
      && report.recipientShown == OrMissing(Setting(env, RecipientKey))
    ensures var env := EnvOf(Lines(envContent));
      !HasCredentials(env) ==> report.mails == [] && report.failure == None && report.exitCode == 1
    ensures var env := EnvOf(Lines(envContent));
      HasCredentials(env) ==>
        && report.mails == [Mail(Setting(env, UserKey).value, Setting(env, RecipientKey), TestSubject)]
        && report.failure == (if send.Refused? then Some(send.message) else None)
    ensures report.hint == (if report.failure.Some? then LoginFailureHint(report.failure.value) else [])
    ensures report.exitCode == 0 <==> HasCredentials(EnvOf(Lines(envContent))) && send.Accepted?
    ensures report.exitCode <= 1
  {
    var envVars := ParseEnvFile(envContent);
    var emailUser := Setting(envVars, UserKey);
    var emailPass := Setting(envVars, PassKey);
    var alertEmail := Setting(envVars, RecipientKey);
    report := Report(OrMissing(emailUser), HiddenPassword(emailPass), OrMissing(alertEmail),
                     [], None, [], 0);
    if !Truthy(emailUser) || !Truthy(emailPass) {
      report := report.(exitCode := 1);
      return;
    }
    report := report.(mails := [Mail(emailUser.value, alertEmail, TestSubject)]);
    if send.Refused? {
      report := report.(failure := Some(send.message), hint := LoginFailureHint(send.message), exitCode := 1);
    }
  }
}
