/**
 * The `POST /api/send-alert` route: check the request, look up the caller's contact row, send one
 * SMS per phone number and one email per address (each failure caught so that the remaining
 * recipients are still tried), log one alert row and reply. The contacts table, the SMS and email
 * transports and the alerts table are oracles; what the route asks of them is recorded as a trace.
 */
module SendAlert {
  import opened Wrappers
  import opened JsText
  import opened Contacts

  /** The request after `await request.json()` and `const { lat, lng, userId } = body`. */
  datatype Request =
      /** `request.json()` threw, or the body was `null` and destructuring it threw. */
    | Unreadable(message: string)
    | Payload(lat: JsonValue, lng: JsonValue, userId: JsonValue)

  /** The row inserted into `alerts` (its timestamp is left out). */
  datatype AlertRecord = AlertRecord(userId: JsonValue, latitude: JsonValue, longitude: JsonValue)

  /**
   * What the route's collaborators answer: the `user_contacts` table, whether the lookup query
   * fails, whether the n-th SMS and the n-th email are accepted, whether the alert insert is stored.
   */
  datatype Services = Services(
    contacts: map<string, ContactRow>,
    lookupFails: bool,
    smsDelivered: nat -> bool,
    emailDelivered: nat -> bool,
    insertStored: bool)

  /** One call the route makes to a collaborator, with the collaborator's answer. */
  datatype Event =
    | ContactLookup(userKey: string)
    | SmsAttempt(to: string, body: string, delivered: bool)
    | EmailAttempt(to: string, subject: string, link: string, delivered: bool)
    | AlertInsert(record: AlertRecord, stored: bool)

  datatype Body = Succeeded(message: string) | Failed(error: string)

  datatype Response = Response(status: nat, body: Body)

  const MissingData := "Missing data"
  const NoContacts := "No emergency contacts configured"
  const AlertsSent := "Alerts sent"
  const MapsUrlPrefix := "https://maps.google.com/?q="
  const SmsPrefix := "EMERGENCY! Help needed immediately → "
  const EmailSubject := "🚨 EMERGENCY ALERT - HELP NEEDED!"

  /** `https://maps.google.com/?q=${lat},${lng}`. */
  function MapsLink(lat: JsonValue, lng: JsonValue): string
  {
    MapsUrlPrefix + Text(lat) + "," + Text(lng)
  }

  /** The SMS text: a fixed alarm sentence followed by the maps link. */
  function MessageBody(link: string): string
  {
    SmsPrefix + link
  }

  /** `!(!lat || !lng || !userId)`. */
  predicate HasRequiredFields(lat: JsonValue, lng: JsonValue, userId: JsonValue)
  {
    !Falsy(lat) && !Falsy(lng) && !Falsy(userId)
  }

  /**
   * `.eq('user_id', userId).single()`: the query filters on the text of `userId`; `data` is null
   * when the query fails or finds no row.
   */
  function FindContacts(svc: Services, key: string): Option<ContactRow>
  {
    if svc.lookupFails || key !in svc.contacts then None else Some(svc.contacts[key])
  }

  /** One SMS attempt per phone, in order, all with the same body. */
  function SmsAttempts(phones: seq<string>, body: string, delivered: nat -> bool): seq<Event>
  {
    if phones == [] then []
    else
      var n := |phones| - 1;
      SmsAttempts(phones[..n], body, delivered) + [SmsAttempt(phones[n], body, delivered(n))]
  }

  /** One email attempt per address, in order, all carrying the same maps link. */
  function EmailAttempts(emails: seq<string>, link: string, delivered: nat -> bool): seq<Event>
  {
    if emails == [] then []
    else
      var n := |emails| - 1;
      EmailAttempts(emails[..n], link, delivered) + [EmailAttempt(emails[n], EmailSubject, link, delivered(n))]
  }

  /** The sends for one alert: every phone, then every address. */
  function Dispatched(phones: seq<string>, emails: seq<string>, link: string, svc: Services): seq<Event>
  {
    SmsAttempts(phones, MessageBody(link), svc.smsDelivered) + EmailAttempts(emails, link, svc.emailDelivered)
  }

  /** The calls the route makes for `req`, in order. */
  function ExpectedTrace(req: Request, svc: Services): seq<Event>
  {
    if req.Unreadable? || !HasRequiredFields(req.lat, req.lng, req.userId) then []
    else
      var key := Text(req.userId);
      match FindContacts(svc, key)
      case None => [ContactLookup(key)]
      case Some(row) =>
        [ContactLookup(key)]
        + Dispatched(ParseList(row.phones), ParseList(row.emails), MapsLink(req.lat, req.lng), svc)
        + [AlertInsert(AlertRecord(req.userId, req.lat, req.lng), svc.insertStored)]
  }

  /** The route's reply to `req`. */
  function ExpectedResponse(req: Request, svc: Services): Response
  {
    if req.Unreadable? then Response(500, Failed(req.message))
    else if !HasRequiredFields(req.lat, req.lng, req.userId) then Response(400, Failed(MissingData))
    else if FindContacts(svc, Text(req.userId)).None? then Response(400, Failed(NoContacts))
    else Response(200, Succeeded(AlertsSent))
  }

  /** The route handler. */
  method Post(req: Request, svc: Services) returns (resp: Response, trace: seq<Event>)
    ensures resp == ExpectedResponse(req, svc)
    ensures trace == ExpectedTrace(req, svc)
  {
    trace := [];
    if req.Unreadable? {
      return Response(500, Failed(req.message)), trace;
    }
    var lat, lng, userId := req.lat, req.lng, req.userId;
    if Falsy(lat) || Falsy(lng) || Falsy(userId) {
      return Response(400, Failed(MissingData)), trace;
    }
    assert HasRequiredFields(lat, lng, userId);
    var key := Text(userId);
    trace := [ContactLookup(key)];
    var contacts := FindContacts(svc, key);
    if contacts.None? {
      return Response(400, Failed(NoContacts)), trace;
    }
    var mapsLink := MapsLink(lat, lng);
    var phoneNumbers := ParseList(contacts.value.phones);
    var emailAddresses := ParseList(contacts.value.emails);
    var sent := Dispatch(phoneNumbers, emailAddresses, mapsLink, svc);
    trace := [ContactLookup(key)] + sent + [AlertInsert(AlertRecord(userId, lat, lng), svc.insertStored)];
    resp := Response(200, Succeeded(AlertsSent));
  }

  /**
   * The two send loops of the route: one SMS per phone, then one email per address; a failed send
   * is caught and the loop goes on with the next recipient.
   */
  method Dispatch(phoneNumbers: seq<string>, emailAddresses: seq<string>, mapsLink: string, svc: Services)
    returns (sent: seq<Event>)
    ensures sent == Dispatched(phoneNumbers, emailAddresses, mapsLink, svc)
  {
    var messageBody := MessageBody(mapsLink);
    sent := [];
    for i := 0 to |phoneNumbers|
      invariant sent == SmsAttempts(phoneNumbers[..i], messageBody, svc.smsDelivered)
    {
      var delivered := svc.smsDelivered(i);
      sent := sent + [SmsAttempt(phoneNumbers[i], messageBody, delivered)];
      assert phoneNumbers[..i + 1][..i] == phoneNumbers[..i];
    }
    assert phoneNumbers[..|phoneNumbers|] == phoneNumbers;

    ghost var smsSent := sent;
    for i := 0 to |emailAddresses|
      invariant sent == smsSent + EmailAttempts(emailAddresses[..i], mapsLink, svc.emailDelivered)
    {
      var delivered := svc.emailDelivered(i);
      sent := sent + [EmailAttempt(emailAddresses[i], EmailSubject, mapsLink, delivered)];
      assert emailAddresses[..i + 1][..i] == emailAddresses[..i];
    }
    assert emailAddresses[..|emailAddresses|] == emailAddresses;
  }

  // ----- Reading a trace -----

  datatype Channel = Sms | Email

  /** `e` is a send on channel `ch`. */
  predicate IsAttemptOn(e: Event, ch: Channel)
  {
    match ch
    case Sms => e.SmsAttempt?
    case Email => e.EmailAttempt?
  }

  /** The recipients tried on channel `ch`, in the order they were tried. */
  function Targets(t: seq<Event>, ch: Channel): seq<string>
  {
    if t == [] then []
    else (if IsAttemptOn(t[0], ch) then [t[0].to] else []) + Targets(t[1..], ch)
  }

  /** The records inserted into `alerts`, in order. */
  function Inserted(t: seq<Event>): seq<AlertRecord>
  {
    if t == [] then []
    else (if t[0].AlertInsert? then [t[0].record] else []) + Inserted(t[1..])
  }

  /** Whether the trace queried the contacts table. */
  predicate LookedUp(t: seq<Event>)
  {
    exists i :: 0 <= i < |t| && t[i].ContactLookup?
  }

  /** The position of each kind of call in the fixed order lookup, SMS, email, insert. */
  function Stage(e: Event): nat
  {
    match e
    case ContactLookup(_) => 0
    case SmsAttempt(_, _, _) => 1
    case EmailAttempt(_, _, _, _) => 2
    case AlertInsert(_, _) => 3
  }

  /** A call with the transport's or the table's answer erased. */
  function Erased(e: Event): Event
  {
    match e
    case SmsAttempt(to, body, _) => SmsAttempt(to, body, false)
    case EmailAttempt(to, subject, link, _) => EmailAttempt(to, subject, link, false)
    case AlertInsert(record, _) => AlertInsert(record, false)
    case ContactLookup(key) => ContactLookup(key)
  }

  /** A trace with the answers erased: which calls were made, not how they went. */
  function Attempted(t: seq<Event>): seq<Event>
  {
    if t == [] then [] else [Erased(t[0])] + Attempted(t[1..])
  }

  /** The calls of `t` come in the fixed order lookup, SMS, email, insert. */
  predicate InStageOrder(t: seq<Event>)
  {
    forall i, j :: 0 <= i < j < |t| ==> Stage(t[i]) <= Stage(t[j])
  }

  lemma {:induction false} TargetsAppend(a: seq<Event>, b: seq<Event>, ch: Channel)
    ensures Targets(a + b, ch) == Targets(a, ch) + Targets(b, ch)
  {
    if a == [] {
      assert a + b == b;
    } else {
      var ab := a + b;
      assert ab[0] == a[0] && ab[1..] == a[1..] + b;
      TargetsAppend(a[1..], b, ch);
      var h := if IsAttemptOn(a[0], ch) then [a[0].to] else [];
      assert Targets(ab, ch) == h + Targets(a[1..] + b, ch);
      assert Targets(a, ch) == h + Targets(a[1..], ch);
    }
  }

  lemma {:induction false} InsertedAppend(a: seq<Event>, b: seq<Event>)
    ensures Inserted(a + b) == Inserted(a) + Inserted(b)
  {
    if a == [] {
      assert a + b == b;
    } else {
      var ab := a + b;
      assert ab[0] == a[0] && ab[1..] == a[1..] + b;
      InsertedAppend(a[1..], b);
      var h := if a[0].AlertInsert? then [a[0].record] else [];
      assert Inserted(ab) == h + Inserted(a[1..] + b);
      assert Inserted(a) == h + Inserted(a[1..]);
    }
  }

  lemma {:induction false} AttemptedAppend(a: seq<Event>, b: seq<Event>)
    ensures Attempted(a + b) == Attempted(a) + Attempted(b)
  {
    if a == [] {
      assert a + b == b;
    } else {
      var ab := a + b;
      assert ab[0] == a[0] && ab[1..] == a[1..] + b;
      AttemptedAppend(a[1..], b);
      assert Attempted(ab) == [Erased(a[0])] + Attempted(a[1..] + b);
      assert Attempted(a) == [Erased(a[0])] + Attempted(a[1..]);
    }
  }

  /** What a single call contributes to each reading of a trace. */
  lemma ReadOne(e: Event)
    ensures Targets([e], Sms) == (if e.SmsAttempt? then [e.to] else [])
    ensures Targets([e], Email) == (if e.EmailAttempt? then [e.to] else [])
    ensures Inserted([e]) == (if e.AlertInsert? then [e.record] else [])
    ensures Attempted([e]) == [Erased(e)]
  {
    assert [e][0] == e && [e][1..] == [];
  }

  /** The i-th SMS attempt goes to the i-th phone, with the common body and the i-th answer. */
  lemma {:induction false} SmsAttemptsAt(phones: seq<string>, body: string, delivered: nat -> bool)
    ensures |SmsAttempts(phones, body, delivered)| == |phones|
    ensures forall i :: 0 <= i < |phones| ==> SmsAttempts(phones, body, delivered)[i] == SmsAttempt(phones[i], body, delivered(i))
  {
    if phones != [] {
      var n := |phones| - 1;
      var init := SmsAttempts(phones[..n], body, delivered);
      var all := init + [SmsAttempt(phones[n], body, delivered(n))];
      assert SmsAttempts(phones, body, delivered) == all;
      SmsAttemptsAt(phones[..n], body, delivered);
      forall i | 0 <= i < n
        ensures all[i] == SmsAttempt(phones[i], body, delivered(i))
      {
        assert all[i] == init[i] && phones[..n][i] == phones[i];
      }
    }
  }

  /** The i-th email attempt goes to the i-th address, with the common subject and link and the i-th answer. */
  lemma {:induction false} EmailAttemptsAt(emails: seq<string>, link: string, delivered: nat -> bool)
    ensures |EmailAttempts(emails, link, delivered)| == |emails|
    ensures forall i :: 0 <= i < |emails| ==> EmailAttempts(emails, link, delivered)[i] == EmailAttempt(emails[i], EmailSubject, link, delivered(i))
  {
    if emails != [] {
      var n := |emails| - 1;
      var init := EmailAttempts(emails[..n], link, delivered);
      var all := init + [EmailAttempt(emails[n], EmailSubject, link, delivered(n))];
      assert EmailAttempts(emails, link, delivered) == all;
      EmailAttemptsAt(emails[..n], link, delivered);
      forall i | 0 <= i < n
        ensures all[i] == EmailAttempt(emails[i], EmailSubject, link, delivered(i))
      {
        assert all[i] == init[i] && emails[..n][i] == emails[i];
      }
    }
  }

  /** On a run of calls that are all on `ch`, the targets are their recipients. */
  lemma {:induction false} TargetsAllOn(t: seq<Event>, ch: Channel)
    requires forall i :: 0 <= i < |t| ==> IsAttemptOn(t[i], ch)
    ensures |Targets(t, ch)| == |t|
    ensures forall i :: 0 <= i < |t| ==> IsAttemptOn(t[i], ch) && Targets(t, ch)[i] == t[i].to
  {
    if t != [] {
      var rest := Targets(t[1..], ch);
      assert IsAttemptOn(t[0], ch);
      assert Targets(t, ch) == [t[0].to] + rest;
      TargetsAllOn(t[1..], ch);
      forall i | 0 < i < |t|
        ensures Targets(t, ch)[i] == t[i].to
      {
        assert Targets(t, ch)[i] == rest[i - 1] && t[1..][i - 1] == t[i];
      }
    }
  }

  /** A run of calls none of which is on `ch` has no targets on `ch`. */
  lemma {:induction false} TargetsNoneOn(t: seq<Event>, ch: Channel)
    requires forall i :: 0 <= i < |t| ==> !IsAttemptOn(t[i], ch)
    ensures Targets(t, ch) == []
  {
    if t != [] {
      assert !IsAttemptOn(t[0], ch);
      assert Targets(t, ch) == [] + Targets(t[1..], ch);
      TargetsNoneOn(t[1..], ch);
    }
  }

  /** A run of transport attempts inserts nothing. */
  lemma {:induction false} InsertedNone(t: seq<Event>)
    requires forall i :: 0 <= i < |t| ==> !t[i].AlertInsert?
    ensures Inserted(t) == []
  {
    if t != [] {
      assert !t[0].AlertInsert?;
      assert Inserted(t) == [] + Inserted(t[1..]);
      InsertedNone(t[1..]);
    }
  }

  /** Which SMS attempts are made does not depend on the answers. */
  lemma {:induction false} SmsAttemptsErased(phones: seq<string>, body: string, delivered: nat -> bool, other: nat -> bool)
    ensures Attempted(SmsAttempts(phones, body, delivered)) == Attempted(SmsAttempts(phones, body, other))
  {
    if phones != [] {
      var n := |phones| - 1;
      var last, last' := SmsAttempt(phones[n], body, delivered(n)), SmsAttempt(phones[n], body, other(n));
      assert SmsAttempts(phones, body, delivered) == SmsAttempts(phones[..n], body, delivered) + [last];
      assert SmsAttempts(phones, body, other) == SmsAttempts(phones[..n], body, other) + [last'];
      SmsAttemptsErased(phones[..n], body, delivered, other);
      AttemptedAppend(SmsAttempts(phones[..n], body, delivered), [last]);
      AttemptedAppend(SmsAttempts(phones[..n], body, other), [last']);
      ReadOne(last);
      ReadOne(last');
    }
  }

  /** Which email attempts are made does not depend on the answers. */
  lemma {:induction false} EmailAttemptsErased(emails: seq<string>, link: string, delivered: nat -> bool, other: nat -> bool)
    ensures Attempted(EmailAttempts(emails, link, delivered)) == Attempted(EmailAttempts(emails, link, other))
  {
    if emails != [] {
      var n := |emails| - 1;
      var last, last' := EmailAttempt(emails[n], EmailSubject, link, delivered(n)), EmailAttempt(emails[n], EmailSubject, link, other(n));
      assert EmailAttempts(emails, link, delivered) == EmailAttempts(emails[..n], link, delivered) + [last];
      assert EmailAttempts(emails, link, other) == EmailAttempts(emails[..n], link, other) + [last'];
      EmailAttemptsErased(emails[..n], link, delivered, other);
      AttemptedAppend(EmailAttempts(emails[..n], link, delivered), [last]);
      AttemptedAppend(EmailAttempts(emails[..n], link, other), [last']);
      ReadOne(last);
      ReadOne(last');
    }
  }

  /** The sends of one alert reach exactly the phones by SMS and the addresses by email, in order. */
  lemma DispatchedTargets(phones: seq<string>, emails: seq<string>, link: string, svc: Services)
    ensures Targets(Dispatched(phones, emails, link, svc), Sms) == phones
    ensures Targets(Dispatched(phones, emails, link, svc), Email) == emails
    ensures Inserted(Dispatched(phones, emails, link, svc)) == []
  {
    var sms := SmsAttempts(phones, MessageBody(link), svc.smsDelivered);
    var mail := EmailAttempts(emails, link, svc.emailDelivered);
    SmsAttemptsAt(phones, MessageBody(link), svc.smsDelivered);
    EmailAttemptsAt(emails, link, svc.emailDelivered);
    TargetsAllOn(sms, Sms);
    TargetsNoneOn(sms, Email);
    InsertedNone(sms);
    TargetsAllOn(mail, Email);
    TargetsNoneOn(mail, Sms);
    InsertedNone(mail);
    assert Targets(sms, Sms) == phones;
    assert Targets(mail, Email) == emails;
    TargetsAppend(sms, mail, Sms);
    TargetsAppend(sms, mail, Email);
    InsertedAppend(sms, mail);
    assert phones + [] == phones && [] + emails == emails;
  }

  // ----- What the route promises -----

  /** An unreadable body gives 500 with the thrown message and no call to anything. */
  lemma UnreadableRequest(message: string, svc: Services)
    ensures ExpectedResponse(Unreadable(message), svc) == Response(500, Failed(message))
    ensures ExpectedTrace(Unreadable(message), svc) == []
  {
  }

  /**
   * A falsy `lat`, `lng` or `userId` (missing, null, 0, false or "") gives 400 "Missing data"
   * with no lookup, no send and no insert.
   */
  lemma MissingFieldsRejected(lat: JsonValue, lng: JsonValue, userId: JsonValue, svc: Services)
    requires Falsy(lat) || Falsy(lng) || Falsy(userId)
    ensures ExpectedResponse(Payload(lat, lng, userId), svc) == Response(400, Failed(MissingData))
    ensures ExpectedTrace(Payload(lat, lng, userId), svc) == []
    ensures !LookedUp(ExpectedTrace(Payload(lat, lng, userId), svc))
  {
  }

  /**
   * Without a contact row for `userId` the reply is 400 "No emergency contacts configured": one
   * lookup, then no SMS, no email and no alert insert.
   */
  lemma NoContactsRejected(lat: JsonValue, lng: JsonValue, userId: JsonValue, svc: Services)
    requires HasRequiredFields(lat, lng, userId)
    requires FindContacts(svc, Text(userId)).None?
    ensures ExpectedResponse(Payload(lat, lng, userId), svc) == Response(400, Failed(NoContacts))
    ensures ExpectedTrace(Payload(lat, lng, userId), svc) == [ContactLookup(Text(userId))]
    ensures Targets(ExpectedTrace(Payload(lat, lng, userId), svc), Sms) == []
    ensures Targets(ExpectedTrace(Payload(lat, lng, userId), svc), Email) == []
    ensures Inserted(ExpectedTrace(Payload(lat, lng, userId), svc)) == []
  {
  }

  /** Once a contact row is found, the trace is the lookup, the sends, and the insert. */
  lemma FoundTrace(lat: JsonValue, lng: JsonValue, userId: JsonValue, svc: Services, row: ContactRow)
    requires HasRequiredFields(lat, lng, userId)
    requires FindContacts(svc, Text(userId)) == Some(row)
    ensures ExpectedTrace(Payload(lat, lng, userId), svc) ==
      [ContactLookup(Text(userId))]
      + Dispatched(ParseList(row.phones), ParseList(row.emails), MapsLink(lat, lng), svc)
      + [AlertInsert(AlertRecord(userId, lat, lng), svc.insertStored)]
  {
  }

  /**
   * Once a contact row is found: exactly one SMS per parsed phone and one email per parsed
   * address, in list order, exactly one alert insert carrying `userId`, `lat` and `lng`, and a
   * 200 reply however many of the sends failed.
   */
  lemma FanOut(lat: JsonValue, lng: JsonValue, userId: JsonValue, svc: Services, row: ContactRow)
    requires HasRequiredFields(lat, lng, userId)
    requires FindContacts(svc, Text(userId)) == Some(row)
    ensures Targets(ExpectedTrace(Payload(lat, lng, userId), svc), Sms) == ParseList(row.phones)
    ensures Targets(ExpectedTrace(Payload(lat, lng, userId), svc), Email) == ParseList(row.emails)
    ensures Inserted(ExpectedTrace(Payload(lat, lng, userId), svc)) == [AlertRecord(userId, lat, lng)]
    ensures ExpectedResponse(Payload(lat, lng, userId), svc) == Response(200, Succeeded(AlertsSent))
  {
    var key, record := Text(userId), AlertRecord(userId, lat, lng);
    var sent := Dispatched(ParseList(row.phones), ParseList(row.emails), MapsLink(lat, lng), svc);
    FoundTrace(lat, lng, userId, svc, row);
    DispatchedTargets(ParseList(row.phones), ParseList(row.emails), MapsLink(lat, lng), svc);
    FoundReads(key, sent, record, svc.insertStored);
  }

  /** Around the sends, the lookup adds no target and the insert adds its one record. */
  lemma FoundReads(key: string, sent: seq<Event>, record: AlertRecord, stored: bool)
    ensures Targets([ContactLookup(key)] + sent + [AlertInsert(record, stored)], Sms) == Targets(sent, Sms)
    ensures Targets([ContactLookup(key)] + sent + [AlertInsert(record, stored)], Email) == Targets(sent, Email)
    ensures Inserted([ContactLookup(key)] + sent + [AlertInsert(record, stored)]) == Inserted(sent) + [record]
  {
    var head, tail := [ContactLookup(key)], [AlertInsert(record, stored)];
    ReadOne(head[0]);
    ReadOne(tail[0]);
    TargetsAppend(head + sent, tail, Sms);
    TargetsAppend(head, sent, Sms);
    TargetsAppend(head + sent, tail, Email);
    TargetsAppend(head, sent, Email);
    InsertedAppend(head + sent, tail);
    InsertedAppend(head, sent);
    assert [] + Targets(sent, Sms) + [] == Targets(sent, Sms);
    assert [] + Targets(sent, Email) + [] == Targets(sent, Email);
    assert [] + Inserted(sent) == Inserted(sent);
  }

  /** The sends of one alert, position by position: the SMS attempts, then the email attempts. */
  lemma DispatchedCalls(phones: seq<string>, emails: seq<string>, link: string, svc: Services)
    ensures |Dispatched(phones, emails, link, svc)| == |phones| + |emails|
    ensures forall i :: 0 <= i < |phones| + |emails| ==>
      if i < |phones| then
        Dispatched(phones, emails, link, svc)[i].SmsAttempt? && Dispatched(phones, emails, link, svc)[i].body == MessageBody(link)
      else
        Dispatched(phones, emails, link, svc)[i].EmailAttempt? && Dispatched(phones, emails, link, svc)[i].link == link
        && Dispatched(phones, emails, link, svc)[i].subject == EmailSubject
  {
    var sms := SmsAttempts(phones, MessageBody(link), svc.smsDelivered);
    var mail := EmailAttempts(emails, link, svc.emailDelivered);
    var d := sms + mail;
    SmsAttemptsAt(phones, MessageBody(link), svc.smsDelivered);
    EmailAttemptsAt(emails, link, svc.emailDelivered);
    forall i | 0 <= i < |phones| + |emails|
      ensures if i < |phones| then d[i].SmsAttempt? && d[i].body == MessageBody(link)
              else d[i].EmailAttempt? && d[i].link == link && d[i].subject == EmailSubject
    {
      if i < |phones| {
        assert d[i] == sms[i];
      } else {
        assert d[i] == mail[i - |phones|];
      }
    }
  }

  /**
   * Every SMS carries the same body, the alarm sentence and the maps link of the submitted `lat`
   * and `lng`, and every email the same subject and link.
   */
  lemma SameMessageForAll(lat: JsonValue, lng: JsonValue, userId: JsonValue, svc: Services)
    ensures forall e :: e in ExpectedTrace(Payload(lat, lng, userId), svc) && e.SmsAttempt? ==>
      e.body == MessageBody(MapsLink(lat, lng))
    ensures forall e :: e in ExpectedTrace(Payload(lat, lng, userId), svc) && e.EmailAttempt? ==>
      e.link == MapsLink(lat, lng) && e.subject == EmailSubject
  {
    var t := ExpectedTrace(Payload(lat, lng, userId), svc);
    var link := MapsLink(lat, lng);
    if !HasRequiredFields(lat, lng, userId) {
      assert t == [];
    } else if FindContacts(svc, Text(userId)).None? {
      assert t == [ContactLookup(Text(userId))];
    } else {
      var row := FindContacts(svc, Text(userId)).value;
      var phones, emails := ParseList(row.phones), ParseList(row.emails);
      var sent := Dispatched(phones, emails, link, svc);
      FoundTrace(lat, lng, userId, svc, row);
      DispatchedCalls(phones, emails, link, svc);
      var lookup, insert := ContactLookup(Text(userId)), AlertInsert(AlertRecord(userId, lat, lng), svc.insertStored);
      assert t == [lookup] + sent + [insert];
      forall e | e in t
        ensures e.SmsAttempt? ==> e.body == MessageBody(link)
        ensures e.EmailAttempt? ==> e.link == link && e.subject == EmailSubject
      {
        if e in sent {
          var i :| 0 <= i < |sent| && sent[i] == e;
        } else {
          assert e in [lookup] || e in [insert];
        }
      }
    }
  }

  /**
   * The calls come in a fixed order: the lookup first, then all SMS attempts, then all email
   * attempts, and the alert insert last.
   */
  lemma EventOrder(req: Request, svc: Services)
    ensures InStageOrder(ExpectedTrace(req, svc))
    ensures ExpectedTrace(req, svc) != [] ==> ExpectedTrace(req, svc)[0].ContactLookup?
    ensures forall i :: 0 < i < |ExpectedTrace(req, svc)| ==> !ExpectedTrace(req, svc)[i].ContactLookup?
    ensures forall i :: 0 <= i < |ExpectedTrace(req, svc)| - 1 ==> !ExpectedTrace(req, svc)[i].AlertInsert?
  {
    var t := ExpectedTrace(req, svc);
    if req.Unreadable? || !HasRequiredFields(req.lat, req.lng, req.userId) {
      assert t == [];
    } else if FindContacts(svc, Text(req.userId)).None? {
      assert t == [ContactLookup(Text(req.userId))];
    } else {
      var row := FindContacts(svc, Text(req.userId)).value;
      var phones, emails := ParseList(row.phones), ParseList(row.emails);
      var sent := Dispatched(phones, emails, MapsLink(req.lat, req.lng), svc);
      FoundTrace(req.lat, req.lng, req.userId, svc, row);
      DispatchedCalls(phones, emails, MapsLink(req.lat, req.lng), svc);
      assert forall i :: 0 <= i < |sent| ==> Stage(sent[i]) == if i < |phones| then 1 else 2;
      OrderedTrace(ContactLookup(Text(req.userId)), sent, AlertInsert(AlertRecord(req.userId, req.lat, req.lng), svc.insertStored), |phones|);
    }
  }

  /** A lookup, then calls of stage 1 and then of stage 2, then an insert, are in stage order. */
  lemma OrderedTrace(lookup: Event, sent: seq<Event>, insert: Event, k: nat)
    requires lookup.ContactLookup? && insert.AlertInsert?
    requires forall i :: 0 <= i < |sent| ==> Stage(sent[i]) == if i < k then 1 else 2
    ensures InStageOrder([lookup] + sent + [insert])
    ensures forall i :: 0 < i < |sent| + 2 ==> !([lookup] + sent + [insert])[i].ContactLookup?
    ensures forall i :: 0 <= i < |sent| + 1 ==> !([lookup] + sent + [insert])[i].AlertInsert?
  {
    var t := [lookup] + sent + [insert];
    forall i | 0 <= i < |t|
      ensures Stage(t[i]) == if i == 0 then 0 else if i == |t| - 1 then 3 else if i <= k then 1 else 2
    {
      if 0 < i < |t| - 1 {
        assert t[i] == sent[i - 1];
      }
    }
  }

  /**
   * A failing recipient stops nothing: which calls are made, and the reply, do not depend on the
   * transports' or the alerts table's answers.
   */
  lemma OutcomesDoNotChangeAttempts(req: Request, svc: Services, other: Services)
    requires other.contacts == svc.contacts && other.lookupFails == svc.lookupFails
    ensures Attempted(ExpectedTrace(req, other)) == Attempted(ExpectedTrace(req, svc))
    ensures ExpectedResponse(req, other) == ExpectedResponse(req, svc)
  {
    if req.Payload? && HasRequiredFields(req.lat, req.lng, req.userId) && FindContacts(svc, Text(req.userId)).Some? {
      var row := FindContacts(svc, Text(req.userId)).value;
      var phones, emails, link := ParseList(row.phones), ParseList(row.emails), MapsLink(req.lat, req.lng);
      var head := [ContactLookup(Text(req.userId))];
      var record := AlertRecord(req.userId, req.lat, req.lng);
      FoundTrace(req.lat, req.lng, req.userId, svc, row);
      FoundTrace(req.lat, req.lng, req.userId, other, row);
      var sms, mail := SmsAttempts(phones, MessageBody(link), svc.smsDelivered), EmailAttempts(emails, link, svc.emailDelivered);
      var sms', mail' := SmsAttempts(phones, MessageBody(link), other.smsDelivered), EmailAttempts(emails, link, other.emailDelivered);
      SmsAttemptsErased(phones, MessageBody(link), svc.smsDelivered, other.smsDelivered);
      EmailAttemptsErased(emails, link, svc.emailDelivered, other.emailDelivered);
      AttemptedAppend(sms, mail);
      AttemptedAppend(sms', mail');
      AttemptedAppend(head + (sms + mail), [AlertInsert(record, svc.insertStored)]);
      AttemptedAppend(head, sms + mail);
      AttemptedAppend(head + (sms' + mail'), [AlertInsert(record, other.insertStored)]);
      AttemptedAppend(head, sms' + mail');
      ReadOne(head[0]);
      ReadOne(AlertInsert(record, svc.insertStored));
      ReadOne(AlertInsert(record, other.insertStored));
    }
  }
}
