/**
 * Examples on concrete values: parsing the column `"+1555, +1556 ,  "`, and an alert from a user
 * with one phone and two addresses next to one from a user without a contact row.
 */
module Scenarios {
  import opened Wrappers
  import opened JsText
  import opened Contacts
  import opened SendAlert

  /** A trimmed, non-empty text padded with one space on each side trims back to itself. */
  lemma TrimPadded(x: string)
    requires x != "" && IsTrimmed(x)
    ensures Trim([' '] + x + [' ']) == x
  {
    var s := [' '] + x + [' '];
    assert s[1..] == x + [' '];
    assert TrimStart(s) == x + [' '];
    assert (x + [' '])[..|x|] == x;
    assert TrimEnd(x + [' ']) == TrimEnd(x) == x;
  }

  /** The pieces "+1555", " +1556 " and "  " trim to "+1555", "+1556" and "". */
  lemma ExampleTrims(a: string, b: string, c: string)
    requires a == "+1555" && b == " +1556 " && c == "  "
    ensures Trim(a) == "+1555" && Trim(b) == "+1556" && Trim(c) == ""
  {
    assert !IsWhitespace(a[0]) && !IsWhitespace(a[|a| - 1]);
    TrimOfTrimmed(a);
    var x := "+1556";
    assert !IsWhitespace(x[0]) && !IsWhitespace(x[|x| - 1]);
    TrimPadded(x);
    assert b == [' '] + x + [' '];
    assert TrimStart(c[1..]) == "";
  }

  /** The pieces "+1555", " +1556 " and "  " filter down to the two phone numbers. */
  lemma ExamplePieces(pieces: seq<string>)
    requires pieces == ["+1555", " +1556 ", "  "]
    ensures Recipients(pieces) == ["+1555", "+1556"]
  {
    var a, b, c := pieces[0], pieces[1], pieces[2];
    ExampleTrims(a, b, c);
    RecipientsCons(c, []);
    RecipientsCons(b, [c]);
    RecipientsCons(a, [b, c]);
    assert pieces == [a] + ([b] + [c]);
  }

  /** The column `"+1555, +1556 ,  "` is three comma-separated pieces. */
  lemma ExampleShape(field: string)
    requires field == "+1555, +1556 ,  "
    ensures field == "+1555" + "," + " +1556 " + "," + "  "
  {
  }

  /** The column `"+1555, +1556 ,  "` parses to `["+1555", "+1556"]`. */
  lemma ParseExample(field: string)
    requires field == "+1555, +1556 ,  "
    ensures ParseList(Some(field)) == ["+1555", "+1556"]
  {
    var a, b, c := "+1555", " +1556 ", "  ";
    Contacts.ParseThree(a, b, c);
    ExampleShape(field);
    assert ParseList(Some(field)) == Recipients([a, b, c]);
    ExamplePieces([a, b, c]);
  }

  /** The phone column "+15551111111" is a single number. */
  lemma ScenarioPhones(phones: string)
    requires phones == "+15551111111"
    ensures ParseList(Some(phones)) == [phones]
  {
    assert !IsWhitespace(phones[0]) && !IsWhitespace(phones[|phones| - 1]);
    ParseSingle(phones);
  }

  /** Each of the addresses "a@x.com" and "b@x.com" parses to itself alone. */
  lemma ScenarioAddress(x: string)
    requires x == "a@x.com" || x == "b@x.com"
    ensures ParseList(Some(x)) == [x]
  {
    assert !IsWhitespace(x[0]) && !IsWhitespace(x[|x| - 1]);
    ParseSingle(x);
  }

  /** The email column "a@x.com,b@x.com" is two addresses joined by a comma. */
  lemma ScenarioEmails(emails: string, first: string, second: string)
    requires emails == "a@x.com,b@x.com" && first == "a@x.com" && second == "b@x.com"
    ensures ParseList(Some(emails)) == [first, second]
  {
    assert emails == first + "," + second;
    ParseAround(first, second);
    ScenarioAddress(first);
    ScenarioAddress(second);
  }

  /** The position 28.7041, 77.1025 gives the link `https://maps.google.com/?q=28.7041,77.1025`. */
  lemma ScenarioLink(lat: JsonValue, lng: JsonValue)
    requires lat == Number(28.7041, "28.7041") && lng == Number(77.1025, "77.1025")
    ensures MapsLink(lat, lng) == "https://maps.google.com/?q=28.7041,77.1025"
  {
    assert Text(lat) == "28.7041" && Text(lng) == "77.1025";
  }

  /**
   * The stored row for "u1" has one phone and two addresses; an alert at 28.7041, 77.1025 sends
   * one SMS carrying the maps link of that position, two emails, inserts one alert row with
   * those coordinates and is answered with success.
   */
  lemma ScenarioAlertSent(phones: string, emails: string, lat: JsonValue, lng: JsonValue, svc: Services)
    requires phones == "+15551111111" && emails == "a@x.com,b@x.com"
    requires lat == Number(28.7041, "28.7041") && lng == Number(77.1025, "77.1025")
    requires !svc.lookupFails && "u1" in svc.contacts && svc.contacts["u1"] == ContactRow(Some(phones), Some(emails))
    ensures var trace := ExpectedTrace(Payload(lat, lng, Str("u1")), svc);
      Targets(trace, Sms) == [phones]
      && Targets(trace, Email) == ["a@x.com", "b@x.com"]
      && Inserted(trace) == [AlertRecord(Str("u1"), lat, lng)]
      && (forall e :: e in trace && e.SmsAttempt? ==> e.body == MessageBody("https://maps.google.com/?q=28.7041,77.1025"))
    ensures ExpectedResponse(Payload(lat, lng, Str("u1")), svc) == Response(200, Succeeded(AlertsSent))
  {
    ScenarioPhones(phones);
    ScenarioEmails(emails, "a@x.com", "b@x.com");
    ScenarioLink(lat, lng);
    var row := ContactRow(Some(phones), Some(emails));
    assert Text(Str("u1")) == "u1";
    assert HasRequiredFields(lat, lng, Str("u1"));
    assert FindContacts(svc, "u1") == Some(row);
    FanOut(lat, lng, Str("u1"), svc, row);
    SameMessageForAll(lat, lng, Str("u1"), svc);
  }

  /** With no stored row for "u2" the alert is refused with "No emergency contacts configured". */
  lemma ScenarioNoContacts(lat: JsonValue, lng: JsonValue, svc: Services)
    requires lat == Number(28.7041, "28.7041") && lng == Number(77.1025, "77.1025")
    requires "u2" !in svc.contacts
    ensures ExpectedResponse(Payload(lat, lng, Str("u2")), svc) == Response(400, Failed(NoContacts))
    ensures var trace := ExpectedTrace(Payload(lat, lng, Str("u2")), svc);
      Targets(trace, Sms) == [] && Targets(trace, Email) == [] && Inserted(trace) == []
  {
    assert Text(Str("u2")) == "u2";
    NoContactsRejected(lat, lng, Str("u2"), svc);
  }
}
