/**
 * The home page's emergency button (`sendEmergency`): with a signed-in user and geolocation
 * available it asks for the device position, posts it to `/api/send-alert` and reports the
 * outcome through its `status` and `details` text. The browser's geolocation and `fetch` are
 * oracles passed in; what the page shows and requests is recorded as a sequence of effects.
 */
module HomePage {
  import opened Wrappers
  import opened JsText
  import opened AppPaths
  import SendAlert

  /** A coordinate from `position.coords`: its value and how JavaScript renders it. */
  datatype Coordinate = Coordinate(value: real, text: string)

  /** The answer of `navigator.geolocation.getCurrentPosition`. */
  datatype Location = Denied | Located(latitude: Coordinate, longitude: Coordinate)

  /** The answer of `fetch` followed by `res.json()`: the reply, or the error either of them threw. */
  datatype Reply = Answered(ok: bool, error: JsonValue) | Threw(message: string)

  /** Something the page does that can be observed. */
  datatype Effect =
    | StatusSet(status: string)
    | DetailsSet(details: string)
    | Redirected(path: string)
    | LocationRequested
    | AlertPosted(url: string, request: SendAlert.Request)

  const AlertUrl := "/api/send-alert"
  const GeolocationUnsupported := "❌ Geolocation not supported"
  const GettingLocation := "📍 Getting location..."
  const RequestingAccess := "Requesting location access..."
  const SendingAlert := "📤 Sending alert to server..."
  const AlertSent := "✅ ALERT SENT SUCCESSFULLY!"
  const AlertSentDetails := "SMS & Email sent to your contacts"
  const FailedToSend := "❌ Failed to send"
  const NetworkError := "❌ Network error"
  const LocationDenied := "❌ Location access denied"
  const AllowLocation := "Please allow location access"

  /** A coordinate as it reaches the route after `JSON.stringify` and `request.json()`. */
  function AsJson(c: Coordinate): JsonValue
  {
    Number(c.value, c.text)
  }

  /** The body `{ lat, lng, userId: user.id }` as the route destructures it. */
  function AlertRequest(latitude: Coordinate, longitude: Coordinate, userId: string): SendAlert.Request
  {
    SendAlert.Payload(AsJson(latitude), AsJson(longitude), Str(userId))
  }

  /** The effects of one press of the button, given the browser's and the server's answers. */
  function PressEffects(user: Option<string>, geolocationSupported: bool, location: Location, reply: Reply): seq<Effect>
  {
    if user.None? then []
    else if !geolocationSupported then [StatusSet(GeolocationUnsupported)]
    else [StatusSet(GettingLocation), DetailsSet(RequestingAccess), LocationRequested] + PositionEffects(user.value, location, reply)
  }

  /** The effects of the success or error callback of `getCurrentPosition`. */
  function PositionEffects(userId: string, location: Location, reply: Reply): seq<Effect>
  {
    match location
    case Denied => [StatusSet(LocationDenied), DetailsSet(AllowLocation)]
    case Located(latitude, longitude) =>
      [ DetailsSet("Lat: " + latitude.text + ", Lng: " + longitude.text),
        StatusSet(SendingAlert),
        AlertPosted(AlertUrl, AlertRequest(latitude, longitude, userId)) ]
      + ReplyEffects(reply)
  }

  /** The effects of the server's answer to the posted alert. */
  function ReplyEffects(reply: Reply): seq<Effect>
  {
    match reply
    case Answered(ok, error) =>
      if ok then [StatusSet(AlertSent), DetailsSet(AlertSentDetails)]
      else [StatusSet(FailedToSend), DetailsSet("Error: " + Text(error))]
    case Threw(message) => [StatusSet(NetworkError), DetailsSet(message)]
  }

  /** The status text after the effects, starting from `initial`: the last one set. */
  function LastStatus(initial: string, effects: seq<Effect>): string
    decreases effects
  {
    if effects == [] then initial
    else LastStatus(if effects[0].StatusSet? then effects[0].status else initial, effects[1..])
  }

  /** The details text after the effects, starting from `initial`: the last one set. */
  function LastDetails(initial: string, effects: seq<Effect>): string
    decreases effects
  {
    if effects == [] then initial
    else LastDetails(if effects[0].DetailsSet? then effects[0].details else initial, effects[1..])
  }

  /** The requests posted to the server, in order. */
  function Posts(effects: seq<Effect>): seq<SendAlert.Request>
  {
    if effects == [] then []
    else (if effects[0].AlertPosted? then [effects[0].request] else []) + Posts(effects[1..])
  }

  /** The home page's state. */
  class Home {
    var status: string
    var details: string
    var user: Option<string>
    var loading: bool
    var effects: seq<Effect>

    /** The page as first rendered: no user yet, loading, empty status and details. */
    constructor ()
      ensures status == "" && details == "" && user == None && loading && effects == []
    {
      status, details := "", "";
      user := None;
      loading := true;
      effects := [];
    }

    /** `checkUser`: no session goes to the login page; otherwise the session user is kept. */
    method CheckUser(session: Option<string>)
      modifies this`user, this`loading, this`effects
      ensures session.None? ==> user == old(user) && loading == old(loading) && effects == old(effects) + [Redirected(LoginPath)]
      ensures session.Some? ==> user == session && !loading && effects == old(effects)
    {
      if session.None? {
        effects := effects + [Redirected(LoginPath)];
        return;
      }
      user := session;
      loading := false;
    }

    /** `setStatus`. */
    method SetStatus(s: string)
      modifies this`status, this`effects
      ensures status == s && effects == old(effects) + [StatusSet(s)]
    {
      status := s;
      effects := effects + [StatusSet(s)];
    }

    /** `setDetails`. */
    method SetDetails(d: string)
      modifies this`details, this`effects
      ensures details == d && effects == old(effects) + [DetailsSet(d)]
    {
      details := d;
      effects := effects + [DetailsSet(d)];
    }

    /** The button handler, with both callbacks of `getCurrentPosition` run to completion. */
    method SendEmergency(geolocationSupported: bool, location: Location, reply: Reply)
      modifies this`status, this`details, this`effects
      ensures effects == old(effects) + PressEffects(user, geolocationSupported, location, reply)
      ensures status == LastStatus(old(status), PressEffects(user, geolocationSupported, location, reply))
      ensures details == LastDetails(old(details), PressEffects(user, geolocationSupported, location, reply))
    {
      if user.None? {
        return;
      }
      if !geolocationSupported {
        SetStatus(GeolocationUnsupported);
        return;
      }
      var head := [StatusSet(GettingLocation), DetailsSet(RequestingAccess), LocationRequested];
      SetStatus(GettingLocation);
      SetDetails(RequestingAccess);
      effects := effects + [LocationRequested];
      assert effects == old(effects) + head;
      var midStatus, midDetails := status, details;
      OnPosition(location, reply);
      LastStatusAppend(old(status), head, PositionEffects(user.value, location, reply));
      LastDetailsAppend(old(details), head, PositionEffects(user.value, location, reply));
      PositionShown(midStatus, midDetails, user.value, location, reply);
      PositionShown(LastStatus(old(status), head), LastDetails(old(details), head), user.value, location, reply);
    }

    /** The callback `getCurrentPosition` runs: on a position it posts the alert. */
    method OnPosition(location: Location, reply: Reply)
      requires user.Some?
      modifies this`status, this`details, this`effects
      ensures effects == old(effects) + PositionEffects(user.value, location, reply)
      ensures status == LastStatus(old(status), PositionEffects(user.value, location, reply))
      ensures details == LastDetails(old(details), PositionEffects(user.value, location, reply))
    {
      match location {
        case Denied =>
          SetStatus(LocationDenied);
          SetDetails(AllowLocation);
          PairShown(old(status), old(details), LocationDenied, AllowLocation);
        case Located(latitude, longitude) =>
          var head := [ DetailsSet("Lat: " + latitude.text + ", Lng: " + longitude.text),
                        StatusSet(SendingAlert),
                        AlertPosted(AlertUrl, AlertRequest(latitude, longitude, user.value)) ];
          SetDetails("Lat: " + latitude.text + ", Lng: " + longitude.text);
          SetStatus(SendingAlert);
          effects := effects + [AlertPosted(AlertUrl, AlertRequest(latitude, longitude, user.value))];
          assert effects == old(effects) + head;
          var midStatus, midDetails := status, details;
          OnReply(reply);
          LastStatusAppend(old(status), head, ReplyEffects(reply));
          LastDetailsAppend(old(details), head, ReplyEffects(reply));
          ReplyShown(midStatus, midDetails, reply);
          ReplyShown(LastStatus(old(status), head), LastDetails(old(details), head), reply);
      }
    }

    /** What the page shows once the server has answered, or `fetch` has thrown. */
    method OnReply(reply: Reply)
      modifies this`status, this`details, this`effects
      ensures effects == old(effects) + ReplyEffects(reply)
      ensures status == LastStatus(old(status), ReplyEffects(reply))
      ensures details == LastDetails(old(details), ReplyEffects(reply))
    {
      match reply {
        case Answered(ok, error) =>
          if ok {
            SetStatus(AlertSent);
            SetDetails(AlertSentDetails);
          } else {
            SetStatus(FailedToSend);
            SetDetails("Error: " + Text(error));
          }
        case Threw(message) =>
          SetStatus(NetworkError);
          SetDetails(message);
      }
      assert ReplyEffects(reply) == [StatusSet(status), DetailsSet(details)];
      PairShown(old(status), old(details), status, details);
    }
  }

  /** Reading the status after two runs of effects continues from the status after the first. */
  lemma {:induction false} LastStatusAppend(initial: string, a: seq<Effect>, b: seq<Effect>)
    ensures LastStatus(initial, a + b) == LastStatus(LastStatus(initial, a), b)
    decreases a
  {
    if a == [] {
      assert a + b == b;
    } else {
      assert (a + b)[1..] == a[1..] + b;
      LastStatusAppend(if a[0].StatusSet? then a[0].status else initial, a[1..], b);
    }
  }

  /** Reading the details after two runs of effects continues from the details after the first. */
  lemma {:induction false} LastDetailsAppend(initial: string, a: seq<Effect>, b: seq<Effect>)
    ensures LastDetails(initial, a + b) == LastDetails(LastDetails(initial, a), b)
    decreases a
  {
    if a == [] {
      assert a + b == b;
    } else {
      assert (a + b)[1..] == a[1..] + b;
      LastDetailsAppend(if a[0].DetailsSet? then a[0].details else initial, a[1..], b);
    }
  }

  /** Setting the status and then the details shows exactly those two texts. */
  lemma PairShown(status: string, details: string, s: string, d: string)
    ensures LastStatus(status, [StatusSet(s), DetailsSet(d)]) == s
    ensures LastDetails(details, [StatusSet(s), DetailsSet(d)]) == d
  {
    var pair, last := [StatusSet(s), DetailsSet(d)], [DetailsSet(d)];
    assert pair[1..] == last && last[1..] == [];
    assert LastStatus(s, last) == LastStatus(s, []) == s;
    assert LastStatus(status, pair) == LastStatus(s, last);
    assert LastDetails(details, last) == LastDetails(d, []) == d;
    assert LastDetails(details, pair) == LastDetails(details, last);
  }

  // ----- What the page ends up showing -----

  /** The status the server's answer leaves on screen. */
  function ReplyStatus(reply: Reply): string
  {
    match reply
    case Answered(ok, _) => if ok then AlertSent else FailedToSend
    case Threw(_) => NetworkError
  }

  /** The details the server's answer leaves on screen. */
  function ReplyDetails(reply: Reply): string
  {
    match reply
    case Answered(ok, error) => if ok then AlertSentDetails else "Error: " + Text(error)
    case Threw(message) => message
  }

  /** The status a press with geolocation ends on. */
  function FinalStatus(location: Location, reply: Reply): string
  {
    if location.Denied? then LocationDenied else ReplyStatus(reply)
  }

  /** The details a press with geolocation ends on. */
  function FinalDetails(location: Location, reply: Reply): string
  {
    if location.Denied? then AllowLocation else ReplyDetails(reply)
  }

  /** The answer alone decides what is shown, whatever was on screen before. */
  lemma ReplyShown(status: string, details: string, reply: Reply)
    ensures LastStatus(status, ReplyEffects(reply)) == ReplyStatus(reply)
    ensures LastDetails(details, ReplyEffects(reply)) == ReplyDetails(reply)
  {
    PairShown(status, details, ReplyStatus(reply), ReplyDetails(reply));
  }

  /** The callback's outcome alone decides what is shown, whatever was on screen before. */
  lemma PositionShown(status: string, details: string, userId: string, location: Location, reply: Reply)
    ensures LastStatus(status, PositionEffects(userId, location, reply)) == FinalStatus(location, reply)
    ensures LastDetails(details, PositionEffects(userId, location, reply)) == FinalDetails(location, reply)
  {
    match location {
      case Denied =>
        PairShown(status, details, LocationDenied, AllowLocation);
      case Located(latitude, longitude) =>
        var head := [ DetailsSet("Lat: " + latitude.text + ", Lng: " + longitude.text),
                      StatusSet(SendingAlert),
                      AlertPosted(AlertUrl, AlertRequest(latitude, longitude, userId)) ];
        assert PositionEffects(userId, location, reply) == head + ReplyEffects(reply);
        LastStatusAppend(status, head, ReplyEffects(reply));
        LastDetailsAppend(details, head, ReplyEffects(reply));
        ReplyShown(LastStatus(status, head), LastDetails(details, head), reply);
    }
  }

  /**
   * With a user and geolocation, the page ends on "Location access denied", "ALERT SENT
   * SUCCESSFULLY!", "Failed to send" with the server's error, or "Network error" with the thrown
   * message, according to the browser's and the server's answers.
   */
  lemma PressOutcome(userId: string, location: Location, reply: Reply, status: string, details: string)
    ensures LastStatus(status, PressEffects(Some(userId), true, location, reply)) == FinalStatus(location, reply)
    ensures LastDetails(details, PressEffects(Some(userId), true, location, reply)) == FinalDetails(location, reply)
  {
    var head := [StatusSet(GettingLocation), DetailsSet(RequestingAccess), LocationRequested];
    LastStatusAppend(status, head, PositionEffects(userId, location, reply));
    LastDetailsAppend(details, head, PositionEffects(userId, location, reply));
    PositionShown(LastStatus(status, head), LastDetails(details, head), userId, location, reply);
  }

  // ----- What a press promises -----

  /** Without a signed-in user a press does nothing at all. */
  lemma NoUserNoEffect(geolocationSupported: bool, location: Location, reply: Reply, status: string, details: string)
    ensures PressEffects(None, geolocationSupported, location, reply) == []
    ensures LastStatus(status, PressEffects(None, geolocationSupported, location, reply)) == status
    ensures LastDetails(details, PressEffects(None, geolocationSupported, location, reply)) == details
  {
  }

  /**
   * Without geolocation support only the status changes, to "Geolocation not supported"; the
   * details stay, no position is requested and nothing is posted.
   */
  lemma NoGeolocation(userId: string, location: Location, reply: Reply, status: string, details: string)
    ensures LocationRequested !in PressEffects(Some(userId), false, location, reply)
    ensures Posts(PressEffects(Some(userId), false, location, reply)) == []
    ensures LastStatus(status, PressEffects(Some(userId), false, location, reply)) == GeolocationUnsupported
    ensures LastDetails(details, PressEffects(Some(userId), false, location, reply)) == details
  {
    var e := PressEffects(Some(userId), false, location, reply);
    assert e[..0] == [];
  }

  /** The position is requested only after the status and details say so. */
  lemma AnnounceBeforeRequest(userId: string, location: Location, reply: Reply)
    ensures var e := PressEffects(Some(userId), true, location, reply);
      |e| > 2 && e[..3] == [StatusSet(GettingLocation), DetailsSet(RequestingAccess), LocationRequested]
      && LocationRequested !in e[3..]
  {
  }

  /** A denied position ends in "Location access denied" and posts nothing. */
  lemma DeniedPostsNothing(userId: string, reply: Reply, status: string, details: string)
    ensures Posts(PressEffects(Some(userId), true, Denied, reply)) == []
    ensures LastStatus(status, PressEffects(Some(userId), true, Denied, reply)) == LocationDenied
    ensures LastDetails(details, PressEffects(Some(userId), true, Denied, reply)) == AllowLocation
  {
    var e := PressEffects(Some(userId), true, Denied, reply);
    assert e == [StatusSet(GettingLocation), DetailsSet(RequestingAccess), LocationRequested, StatusSet(LocationDenied), DetailsSet(AllowLocation)];
    PostsNone(e);
    PressOutcome(userId, Denied, reply, status, details);
  }

  /** Effects without a post post nothing. */
  lemma {:induction false} PostsNone(effects: seq<Effect>)
    requires forall i :: 0 <= i < |effects| ==> !effects[i].AlertPosted?
    ensures Posts(effects) == []
  {
    if effects != [] {
      assert !effects[0].AlertPosted?;
      PostsNone(effects[1..]);
      assert Posts(effects) == [] + Posts(effects[1..]);
    }
  }

  lemma {:induction false} PostsAppend(a: seq<Effect>, b: seq<Effect>)
    ensures Posts(a + b) == Posts(a) + Posts(b)
  {
    if a == [] {
      assert a + b == b;
    } else {
      var ab := a + b;
      assert ab[0] == a[0] && ab[1..] == a[1..] + b;
      PostsAppend(a[1..], b);
      var h := if a[0].AlertPosted? then [a[0].request] else [];
      assert Posts(ab) == h + Posts(a[1..] + b);
      assert Posts(a) == h + Posts(a[1..]);
    }
  }

  /**
   * A position posts exactly one alert, `{ lat, lng, userId: user.id }` to `/api/send-alert`, and
   * the final status and details follow from the reply.
   */
  lemma LocatedPostsOnce(userId: string, latitude: Coordinate, longitude: Coordinate, reply: Reply, status: string, details: string)
    ensures Posts(PressEffects(Some(userId), true, Located(latitude, longitude), reply)) == [AlertRequest(latitude, longitude, userId)]
    ensures AlertPosted(AlertUrl, AlertRequest(latitude, longitude, userId)) in PressEffects(Some(userId), true, Located(latitude, longitude), reply)
    ensures LastStatus(status, PressEffects(Some(userId), true, Located(latitude, longitude), reply)) == ReplyStatus(reply)
    ensures LastDetails(details, PressEffects(Some(userId), true, Located(latitude, longitude), reply)) == ReplyDetails(reply)
  {
    var head := [StatusSet(GettingLocation), DetailsSet(RequestingAccess), LocationRequested];
    var position := PositionEffects(userId, Located(latitude, longitude), reply);
    var e := PressEffects(Some(userId), true, Located(latitude, longitude), reply);
    assert e == head + position;
    PositionPostsOnce(userId, latitude, longitude, reply);
    PostsAppend(head, position);
    PostsNone(head);
    assert e[|head| + 2] == position[2];
    PressOutcome(userId, Located(latitude, longitude), reply, status, details);
  }

  /**
   * The success callback first shows the position and "📤 Sending alert to server...", then posts
   * exactly one alert, as its third effect.
   */
  lemma PositionPostsOnce(userId: string, latitude: Coordinate, longitude: Coordinate, reply: Reply)
    ensures var position := PositionEffects(userId, Located(latitude, longitude), reply);
      |position| > 2
      && position[..2] == [DetailsSet("Lat: " + latitude.text + ", Lng: " + longitude.text), StatusSet(SendingAlert)]
      && position[2] == AlertPosted(AlertUrl, AlertRequest(latitude, longitude, userId))
      && Posts(position) == [AlertRequest(latitude, longitude, userId)]
  {
    var post := AlertPosted(AlertUrl, AlertRequest(latitude, longitude, userId));
    var shown := [DetailsSet("Lat: " + latitude.text + ", Lng: " + longitude.text), StatusSet(SendingAlert)];
    var tail := ReplyEffects(reply);
    var position := PositionEffects(userId, Located(latitude, longitude), reply);
    assert position == shown + ([post] + tail);
    assert position[..2] == shown;
    PostsAppend(shown, [post] + tail);
    PostsAppend([post], tail);
    PostsNone(shown);
    PostsNone(tail);
    assert Posts([post]) == [post.request] + Posts([]);
  }

  /**
   * The posted body passes the route's check exactly when neither coordinate is zero and the user
   * id is not empty: a position on the equator or on the prime meridian is refused with
   * "Missing data".
   */
  lemma PostedAlertValidation(latitude: Coordinate, longitude: Coordinate, userId: string, svc: SendAlert.Services)
    ensures var req := AlertRequest(latitude, longitude, userId);
      SendAlert.HasRequiredFields(req.lat, req.lng, req.userId) <==> latitude.value != 0.0 && longitude.value != 0.0 && userId != ""
    ensures latitude.value == 0.0 || longitude.value == 0.0 ==>
      SendAlert.ExpectedResponse(AlertRequest(latitude, longitude, userId), svc) == SendAlert.Response(400, SendAlert.Failed(SendAlert.MissingData))
  {
  }
}
