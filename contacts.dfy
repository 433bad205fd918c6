/**
 * A row of the `user_contacts` table and the parsing of its two comma-separated text columns
 * into recipient lists: split on ',', trim each piece, drop the empty pieces.
 */
module Contacts {
  import opened Wrappers
  import opened JsText

  /** One `user_contacts` row: the raw `phones` and `emails` columns, either of which may be NULL. */
  datatype ContactRow = ContactRow(phones: Option<string>, emails: Option<string>)

  /** `(field || '')`: a NULL column reads as the empty string. */
  function ColumnText(field: Option<string>): string
  {
    if field.Some? then field.value else ""
  }

  /** The trimmed pieces that are not empty, in their original order. */
  function Recipients(pieces: seq<string>): (r: seq<string>)
    ensures |r| <= |pieces|
    ensures forall k :: 0 <= k < |r| ==> r[k] != "" && IsTrimmed(r[k])
  {
    if pieces == [] then []
    else
      var t := Trim(pieces[0]);
      if t == "" then Recipients(pieces[1..]) else [t] + Recipients(pieces[1..])
  }

  /**
   * `(field || '').split(',').map(p => p.trim()).filter(p => p)`: no recipient is empty, none
   * has whitespace at either end and none contains a comma.
   */
  function ParseList(field: Option<string>): (r: seq<string>)
    ensures forall k :: 0 <= k < |r| ==> r[k] != "" && IsTrimmed(r[k]) && ',' !in r[k]
  {
    var pieces := Split(ColumnText(field), ',');
    var r := Recipients(pieces);
    RecipientsKeepOut(pieces, ',');
    r
  }

  /** A character found in no piece is found in no recipient. */
  lemma {:induction false} RecipientsKeepOut(pieces: seq<string>, c: char)
    requires forall k :: 0 <= k < |pieces| ==> c !in pieces[k]
    ensures forall k :: 0 <= k < |Recipients(pieces)| ==> c !in Recipients(pieces)[k]
  {
    if pieces != [] {
      TrimKeepsOut(pieces[0], c);
      RecipientsKeepOut(pieces[1..], c);
    }
  }

  /** Parsing is order-preserving: the recipients of two lists are those of the first, then the second. */
  lemma {:induction false} RecipientsAppend(p: seq<string>, q: seq<string>)
    ensures Recipients(p + q) == Recipients(p) + Recipients(q)
  {
    if p == [] {
      assert p + q == q;
    } else {
      assert (p + q)[1..] == p[1..] + q;
      RecipientsAppend(p[1..], q);
    }
  }

  /** A list that is already non-empty and trimmed piece by piece is its own recipient list. */
  lemma {:induction false} RecipientsOfRecipients(r: seq<string>)
    requires forall k :: 0 <= k < |r| ==> r[k] != "" && IsTrimmed(r[k])
    ensures Recipients(r) == r
  {
    if r != [] {
      RecipientsOfRecipients(r[1..]);
      TrimOfTrimmed(r[0]);
      RecipientsCons(r[0], r[1..]);
      assert r == [r[0]] + r[1..];
    }
  }

  /** The head piece contributes its trim, unless that is empty, ahead of the rest. */
  lemma RecipientsCons(x: string, rest: seq<string>)
    ensures Recipients([x] + rest) == (if Trim(x) == "" then [] else [Trim(x)]) + Recipients(rest)
  {
    assert ([x] + rest)[1..] == rest;
  }

  /** `x` is a recipient exactly when it is non-empty and is the trim of some piece. */
  lemma {:induction false} RecipientsMembership(pieces: seq<string>, x: string)
    ensures x in Recipients(pieces) <==> x != "" && exists k :: 0 <= k < |pieces| && Trim(pieces[k]) == x
  {
    if pieces != [] {
      RecipientsMembership(pieces[1..], x);
      if x != "" && exists k :: 0 <= k < |pieces| && Trim(pieces[k]) == x {
        var k :| 0 <= k < |pieces| && Trim(pieces[k]) == x;
        if k > 0 {
          assert Trim(pieces[1..][k - 1]) == x;
        }
      }
    }
  }

  /** A missing column has no recipients. */
  lemma ParseMissing()
    ensures ParseList(None) == []
    ensures ParseList(Some("")) == []
  {
  }

  /** The recipients of `a + "," + b` are those of `a` followed by those of `b`. */
  lemma ParseAround(a: string, b: string)
    ensures ParseList(Some(a + "," + b)) == ParseList(Some(a)) + ParseList(Some(b))
  {
    assert a + "," + b == a + [','] + b;
    SplitAround(a, b, ',');
    RecipientsAppend(Split(a, ','), Split(b, ','));
  }

  /** Joining separator-free recipients with ',' and splitting and filtering again gives them back. */
  lemma RecipientsOfJoin(r: seq<string>)
    requires forall k :: 0 <= k < |r| ==> r[k] != "" && IsTrimmed(r[k]) && ',' !in r[k]
    ensures Recipients(Split(Join(r, ','), ',')) == r
  {
    if r == [] {
      assert Split("", ',') == [""];
      assert Trim("") == "";
    } else {
      SplitJoin(r, ',');
      RecipientsOfRecipients(r);
    }
  }

  /** Parsing is idempotent: re-joining a parsed list with ',' and parsing again gives the same list. */
  lemma ParseIdempotent(field: Option<string>)
    ensures ParseList(Some(Join(ParseList(field), ','))) == ParseList(field)
  {
    var r := ParseList(field);
    var joined := Join(r, ',');
    assert ParseList(Some(joined)) == Recipients(Split(joined, ','));
    RecipientsOfJoin(r);
  }

  /** Three comma-separated pieces parse to the non-empty trims of the pieces, in order. */
  lemma ParseThree(a: string, b: string, c: string)
    requires ',' !in a && ',' !in b && ',' !in c
    ensures ParseList(Some(a + "," + b + "," + c)) == Recipients([a, b, c])
  {
    assert a + "," + b + "," + c == a + [','] + (b + [','] + c);
    SplitAround(a, b + [','] + c, ',');
    SplitAround(b, c, ',');
    SplitWithoutSeparator(a, ',');
    SplitWithoutSeparator(b, ',');
    SplitWithoutSeparator(c, ',');
    assert Split(a + "," + b + "," + c, ',') == [a, b, c];
  }

  /** A single trimmed, non-empty entry without a comma parses to itself alone. */
  lemma ParseSingle(x: string)
    requires x != "" && IsTrimmed(x) && ',' !in x
    ensures ParseList(Some(x)) == [x]
  {
    SplitWithoutSeparator(x, ',');
    TrimOfTrimmed(x);
    RecipientsCons(x, []);
  }
}
