/**
 * The Twilio credential test script: read `.env.local`, show the settings with the secrets
 * shortened, stop with exit code 1 when the account SID or auth token is missing, otherwise fetch
 * the account and send one test SMS; on any rejection show the error, a hint for three known
 * Twilio error codes, and exit with code 1.
 */
module TwilioCheck {
  import opened Wrappers
  import opened JsText
  import opened EnvFile

  const SidKey := "TWILIO_SID"
  const TokenKey := "TWILIO_TOKEN"
  const PhoneKey := "TWILIO_PHONE"
  const MyPhoneKey := "MY_PHONE"

  const TestSmsBody := "TEST: LifeAlert SMS is working! ✓"
  const InvalidCredentialsHint := "⚠️  Invalid credentials - Check your TWILIO_SID and TWILIO_TOKEN"
  const InvalidNumberHint := "⚠️  Invalid phone number - Check TWILIO_PHONE or MY_PHONE format"
  const NumberFormatHint := "⚠️  Invalid phone number format"

  /**
   * `v ? v.substring(0, 5) + '...' : 'MISSING'`: a present secret shows at most its first five
   * characters, followed by "...".
   */
  function MaskedPrefix(v: Option<string>): (shown: string)
    ensures !Truthy(v) ==> shown == "MISSING"
    ensures Truthy(v) ==>
      (&& 4 <= |shown| <= 8 && shown[|shown| - 3..] == "..."
       && StartsWith(v.value, shown[..|shown| - 3])
       && |shown| - 3 == (if |v.value| < 5 then |v.value| else 5))
  {
    if Truthy(v) then
      var p := Prefix(v.value, 5);
      assert (p + "...")[..|p|] == p;
      p + "..."
    else "MISSING"
  }

  /** The hint shown for a Twilio error code: only codes 20003, 21614 and 21211 have one. */
  function ErrorHint(code: Option<int>): (hint: Option<string>)
    ensures hint.Some? <==> code in {Some(20003), Some(21614), Some(21211)}
    ensures hint == Some(InvalidCredentialsHint) <==> code == Some(20003)
    ensures hint == Some(InvalidNumberHint) <==> code == Some(21614)
    ensures hint == Some(NumberFormatHint) <==> code == Some(21211)
  {
    if code == Some(20003) then Some(InvalidCredentialsHint)
    else if code == Some(21614) then Some(InvalidNumberHint)
    else if code == Some(21211) then Some(NumberFormatHint)
    else None
  }

  /** A request the script sends to the Twilio API. */
  datatype TwilioCall =
    | FetchAccount(sid: string)
    | CreateMessage(body: string, from: Option<string>, to: Option<string>)

  datatype TwilioError = TwilioError(code: Option<int>, message: string)

  /** How the Twilio API answers one request. */
  datatype CallResult = Resolved | Rejected(error: TwilioError)

  /** What a run of the script shows, asks of Twilio, and exits with. */
  datatype Report = Report(
    sidShown: string,
    tokenShown: string,
    phoneShown: string,
    myPhoneShown: string,
    calls: seq<TwilioCall>,
    failure: Option<TwilioError>,
    hint: Option<string>,
    exitCode: nat)

  /** The credentials the script needs before it talks to Twilio. */
  predicate HasCredentials(env: map<string, string>)
  {
    Truthy(Setting(env, SidKey)) && Truthy(Setting(env, TokenKey))
  }

  /**
   * One run of the script on the file text `envContent`; `fetch` and `create` are Twilio's answers
   * to the account fetch and to the test message.
   */
  method RunTwilioCheck(envContent: string, fetch: CallResult, create: CallResult) returns (report: Report)
    ensures var env := EnvOf(Lines(envContent));
      && report.sidShown == MaskedPrefix(Setting(env, SidKey))
      && report.tokenShown == MaskedPrefix(Setting(env, TokenKey))
      && report.phoneShown == OrMissing(Setting(env, PhoneKey))
      && report.myPhoneShown == OrMissing(Setting(env, MyPhoneKey))
    ensures var env := EnvOf(Lines(envContent));
      !HasCredentials(env) ==> report.calls == [] && report.failure == None && report.exitCode == 1
    ensures var env := EnvOf(Lines(envContent));
      HasCredentials(env) ==>
        && |report.calls| >= 1 && report.calls[..1] == [FetchAccount(Setting(env, SidKey).value)]
        && (fetch.Rejected? ==> |report.calls| == 1 && report.failure == Some(fetch.error))
        && (fetch.Resolved? ==>
              && report.calls[1..] == [CreateMessage(TestSmsBody, Setting(env, PhoneKey), Setting(env, MyPhoneKey))]
              && report.failure == (if create.Rejected? then Some(create.error) else None))
    ensures report.hint == (if report.failure.Some? then ErrorHint(report.failure.value.code) else None)
    ensures report.exitCode == 0 <==> HasCredentials(EnvOf(Lines(envContent))) && report.failure.None?
    ensures report.exitCode <= 1
  {
    var envVars := ParseEnvFile(envContent);
    var accountSid := Setting(envVars, SidKey);
    var authToken := Setting(envVars, TokenKey);
    var twilioPhone := Setting(envVars, PhoneKey);
    var myPhone := Setting(envVars, MyPhoneKey);
    report := Report(MaskedPrefix(accountSid), MaskedPrefix(authToken), OrMissing(twilioPhone), OrMissing(myPhone),
                     [], None, None, 0);
    if !Truthy(accountSid) || !Truthy(authToken) {
      report := report.(exitCode := 1);
      return;
    }
    report := report.(calls := [FetchAccount(accountSid.value)]);
    var outcome := fetch;
    if fetch.Resolved? {
      report := report.(calls := report.calls + [CreateMessage(TestSmsBody, twilioPhone, myPhone)]);
      outcome := create;
    }
    if outcome.Rejected? {
      // the promise chain's single catch handler
      report := report.(failure := Some(outcome.error), hint := ErrorHint(outcome.error.code), exitCode := 1);
    }
  }
}
