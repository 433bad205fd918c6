/**
 * The settings page: it sends a visitor without a session to `/login`, loads the signed-in
 * user's contact row into two text areas, and saves them back to `user_contacts` with an upsert
 * keyed by the user id. The session, the stored rows and the outcome of the upsert are inputs;
 * the page's alerts and navigation are recorded as effects.
 */
module SettingsPage {
  import opened Wrappers
  import opened JsText
  import opened Contacts
  import opened AppPaths
  import SendAlert

  const SavedNotice := "✅ Settings saved!"

  /** What awaiting the upsert gives: a write, an error object returned, or an exception thrown. */
  datatype SaveOutcome = Written | Refused | Threw(message: string)

  /** Something the page does that can be observed besides its fields. */
  datatype Effect =
    | Redirected(path: string)
    | SavingSet(saving: bool)
    | UpsertRequested(userId: string, phones: string, emails: string)
    | Notice(text: string)

  /** The `user_contacts` rows after upserting `userId`'s row: that row written, every other kept. */
  function Upserted(rows: map<string, ContactRow>, userId: string, phones: string, emails: string): (next: map<string, ContactRow>)
    ensures next.Keys == rows.Keys + {userId}
    ensures next[userId] == ContactRow(Some(phones), Some(emails))
    ensures forall k :: k in rows && k != userId ==> next[k] == rows[k]
  {
    rows[userId := ContactRow(Some(phones), Some(emails))]
  }

  /** The `data` of `.eq('user_id', userId).single()`: the row, or null when none or on error. */
  function Stored(rows: map<string, ContactRow>, userId: string, lookupFails: bool): (found: Option<ContactRow>)
    ensures found.Some? <==> !lookupFails && userId in rows
    ensures found.Some? ==> found.value == rows[userId]
  {
    if lookupFails || userId !in rows then None else Some(rows[userId])
  }

  /** The text areas after `loadSettings`: a found row's columns, else what they held. */
  function Loaded(phones: string, emails: string, found: Option<ContactRow>): (texts: (string, string))
    ensures found.None? ==> texts == (phones, emails)
    ensures found.Some? ==> texts.0 == ColumnText(found.value.phones) && texts.1 == ColumnText(found.value.emails)
  {
    match found
    case None => (phones, emails)
    case Some(row) => (ColumnText(row.phones), ColumnText(row.emails))
  }

  /** The effects of one `handleSave` by a signed-in user. */
  function SaveEffects(userId: string, phones: string, emails: string, outcome: SaveOutcome): seq<Effect>
  {
    [SavingSet(true), UpsertRequested(userId, phones, emails)]
    + (if outcome.Threw? then [Notice("Error: " + outcome.message)] else [Notice(SavedNotice)])
    + [SavingSet(false)]
  }

  /** The `user_contacts` table. */
  class ContactTable {
    var rows: map<string, ContactRow>

    constructor (rows: map<string, ContactRow>)
      ensures this.rows == rows
    {
      this.rows := rows;
    }

    /** `upsert({ user_id, phones, emails, updated_at })`. */
    method Upsert(userId: string, phones: string, emails: string)
      modifies this
      ensures rows == Upserted(old(rows), userId, phones, emails)
    {
      rows := rows[userId := ContactRow(Some(phones), Some(emails))];
    }
  }

  /** The settings page's state. */
  class Settings {
    var user: Option<string>
    var loading: bool
    var phones: string
    var emails: string
    var saving: bool
    var effects: seq<Effect>
    const table: ContactTable

    constructor (table: ContactTable)
      ensures user == None && loading && phones == "" && emails == "" && !saving && effects == []
      ensures this.table == table
    {
      user := None;
      loading := true;
      phones, emails := "", "";
      saving := false;
      effects := [];
      this.table := table;
    }

    /** `loadSettings(userId)`, with the query answered. */
    method LoadSettings(userId: string, lookupFails: bool)
      modifies this`phones, this`emails
      ensures (phones, emails) == Loaded(old(phones), old(emails), Stored(table.rows, userId, lookupFails))
    {
      var found := Stored(table.rows, userId, lookupFails);
      if found.Some? {
        phones := ColumnText(found.value.phones);
        emails := ColumnText(found.value.emails);
      }
    }

    /** `checkUser`: no session goes to the login page; otherwise the user's contacts are loaded. */
    method CheckUser(session: Option<string>, lookupFails: bool)
      modifies this`user, this`loading, this`phones, this`emails, this`effects
      ensures session.None? ==>
        user == old(user) && loading == old(loading) && phones == old(phones) && emails == old(emails)
        && effects == old(effects) + [Redirected(LoginPath)]
      ensures session.Some? ==>
        user == session && !loading && effects == old(effects)
        && (phones, emails) == Loaded(old(phones), old(emails), Stored(table.rows, session.value, lookupFails))
    {
      if session.None? {
        effects := effects + [Redirected(LoginPath)];
        return;
      }
      user := session;
      LoadSettings(session.value, lookupFails);
      loading := false;
    }

    /** The phone numbers text area's `onChange`. */
    method EditPhones(text: string)
      modifies this`phones
      ensures phones == text
    {
      phones := text;
    }

    /** The emails text area's `onChange`. */
    method EditEmails(text: string)
      modifies this`emails
      ensures emails == text
    {
      emails := text;
    }

    /** `handleSave`, with the upsert answered by `outcome`. */
    method HandleSave(outcome: SaveOutcome)
      modifies this`saving, this`effects, table
      ensures user.None? ==> saving == old(saving) && effects == old(effects) && table.rows == old(table.rows)
      ensures user.Some? ==>
        !saving
        && effects == old(effects) + SaveEffects(user.value, phones, emails, outcome)
        && table.rows == (if outcome.Written? then Upserted(old(table.rows), user.value, phones, emails) else old(table.rows))
    {
      if user.None? {
        return;
      }
      saving := true;
      effects := effects + [SavingSet(true), UpsertRequested(user.value, phones, emails)];
      if outcome.Written? {
        table.Upsert(user.value, phones, emails);
      }
      if outcome.Threw? {
        effects := effects + [Notice("Error: " + outcome.message)];
      } else {
        effects := effects + [Notice(SavedNotice)];
      }
      saving := false;
      effects := effects + [SavingSet(false)];
    }
  }

  // ----- What a save promises -----

  /**
   * The upsert is requested while `saving` is set, and `saving` is cleared after the alert;
   * the alert says "Settings saved!" unless the upsert threw, even when it returned an error.
   */
  lemma SaveBracketed(userId: string, phones: string, emails: string, outcome: SaveOutcome)
    ensures var e := SaveEffects(userId, phones, emails, outcome);
      |e| == 4 && e[0] == SavingSet(true) && e[1] == UpsertRequested(userId, phones, emails) && e[3] == SavingSet(false)
      && (e[2] == Notice(SavedNotice) <==> !outcome.Threw?)
      && (outcome.Threw? ==> e[2] == Notice("Error: " + outcome.message))
  {
    if outcome.Threw? {
      assert SavedNotice[0] != ("Error: " + outcome.message)[0];
    }
  }

  /** Loading right after a written save gives back exactly the saved texts. */
  lemma LoadAfterSave(rows: map<string, ContactRow>, userId: string, phones: string, emails: string, shownPhones: string, shownEmails: string)
    ensures Loaded(shownPhones, shownEmails, Stored(Upserted(rows, userId, phones, emails), userId, false)) == (phones, emails)
  {
  }

  /** A save touches only the saving user's row. */
  lemma SaveKeepsOthers(rows: map<string, ContactRow>, userId: string, other: string, phones: string, emails: string, lookupFails: bool)
    requires other != userId
    ensures Stored(Upserted(rows, userId, phones, emails), other, lookupFails) == Stored(rows, other, lookupFails)
  {
  }

  /**
   * After a written save, an alert from that user reaches exactly the numbers and addresses the
   * route parses out of the saved texts.
   */
  lemma SavedContactsReachRoute(rows: map<string, ContactRow>, userId: string, phones: string, emails: string,
                                lat: JsonValue, lng: JsonValue, svc: SendAlert.Services)
    requires SendAlert.HasRequiredFields(lat, lng, Str(userId))
    requires !svc.lookupFails && svc.contacts == Upserted(rows, userId, phones, emails)
    ensures var trace := SendAlert.ExpectedTrace(SendAlert.Payload(lat, lng, Str(userId)), svc);
      SendAlert.Targets(trace, SendAlert.Sms) == ParseList(Some(phones))
      && SendAlert.Targets(trace, SendAlert.Email) == ParseList(Some(emails))
  {
    SendAlert.FanOut(lat, lng, Str(userId), svc, ContactRow(Some(phones), Some(emails)));
  }
}
