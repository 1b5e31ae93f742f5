/** The credential record, the decoded token response, the validity test the
    index handler applies to the record, and `saveCredentials`, which turns a
    token response into the field update the script sends to the record API. */
module Credentials {
  import opened Wrappers

  /** The record type's fields as the script reads them (every value is a string). */
  datatype KintoneRecord = KintoneRecord(
    id: string,
    clientId: string,
    clientSecret: string,
    accessToken: string,
    refreshToken: string,
    expiresDateTime: string,
    state: string)

  /** A token endpoint response body, already decoded from JSON; `createdAt`
      and `expiresIn` are in seconds. */
  datatype RawCredentials = RawCredentials(
    createdAt: int,
    expiresIn: int,
    accessToken: string,
    refreshToken: string)

  /** The JavaScript Date operations the script relies on: rendering an
      instant (milliseconds since the epoch) with `toISOString`, and reading a
      stored string back with `new Date(...)`, where None is an invalid date. */
  datatype Calendar = Calendar(toIso: int -> string, parse: string -> Option<int>) {
    /** An invalid date compares false with everything; an empty string is
        not a date; and a rendered instant reads back as itself. */
    ghost predicate RoundTrips() {
      parse("") == None && forall ms :: parse(toIso(ms)) == Some(ms)
    }
  }

  /** The three fields a credential update writes. */
  datatype FieldDiff = FieldDiff(accessToken: string, refreshToken: string, expiresDateTime: string)

  /** The parameters of the `PUT /k/v1/record` call: app id, record id, fields. */
  datatype PutParams = PutParams(app: nat, id: string, record: FieldDiff)

  /** The instant, in milliseconds, at which the new access token expires:
      `createdAt + expiresIn` seconds after the epoch. */
  function ExpiryMillis(c: RawCredentials): (ms: int)
    ensures ms % 1000 == 0 && ms / 1000 == c.createdAt + c.expiresIn
  {
    c.createdAt * 1000 + c.expiresIn * 1000
  }

  /** The worked example: created at 1700000000 s, valid for 3600 s. */
  lemma ExpiryExample()
    ensures ExpiryMillis(RawCredentials(1700000000, 3600, "A", "R")) == 1700003600000
  {
  }

  /** `saveCredentials`: the update sent for `record` after a token response. */
  function SaveCredentials(app: nat, record: KintoneRecord, c: RawCredentials, cal: Calendar): (put: PutParams)
    ensures put.app == app && put.id == record.id
    ensures put.record.accessToken == c.accessToken
    ensures put.record.refreshToken == c.refreshToken
    ensures cal.RoundTrips() ==> cal.parse(put.record.expiresDateTime) == Some(ExpiryMillis(c))
  {
    PutParams(app, record.id, FieldDiff(c.accessToken, c.refreshToken, cal.toIso(ExpiryMillis(c))))
  }

  /** What the record store does with an update by id: the named fields take
      the new values and every other field keeps its old one. */
  function Apply(record: KintoneRecord, diff: FieldDiff): KintoneRecord {
    record.(accessToken := diff.accessToken,
            refreshToken := diff.refreshToken,
            expiresDateTime := diff.expiresDateTime)
  }

  /** The token validity test of the index handler: the record holds an
      expiry, the expiry reads as a date strictly after `now`, and it holds an
      access token. */
  predicate TokenValid(record: KintoneRecord, now: int, cal: Calendar) {
    record.expiresDateTime != "" &&
    match cal.parse(record.expiresDateTime)
    case None => false
    case Some(expires) => now < expires && record.accessToken != ""
  }

  /** The index handler's `valid` flag, set step by step as the script does. */
  method IsValid(record: KintoneRecord, now: int, cal: Calendar) returns (valid: bool)
    ensures valid <==> record.expiresDateTime != "" &&
                       cal.parse(record.expiresDateTime).Some? &&
                       now < cal.parse(record.expiresDateTime).value &&
                       record.accessToken != ""
    ensures valid == TokenValid(record, now, cal)
  {
    valid := false;
    if record.expiresDateTime != "" {
      var expires := cal.parse(record.expiresDateTime);
      if expires.Some? && now < expires.value && record.accessToken != "" {
        valid := true;
      }
    }
  }

  /** An empty expiry is never valid, whatever the other fields hold. */
  lemma EmptyExpiryNeverValid(record: KintoneRecord, now: int, cal: Calendar)
    requires record.expiresDateTime == ""
    ensures !TokenValid(record, now, cal)
  {
  }

  /** Applying a credential update targets the record's own id and changes
      the access token, the refresh token and the expiry and nothing else. */
  lemma SaveCredentialsTouchesThreeFields(app: nat, record: KintoneRecord, c: RawCredentials, cal: Calendar)
    ensures var put := SaveCredentials(app, record, c, cal);
      var after := Apply(record, put.record);
      put.id == record.id &&
      after.id == record.id && after.clientId == record.clientId &&
      after.clientSecret == record.clientSecret && after.state == record.state &&
      after.accessToken == c.accessToken && after.refreshToken == c.refreshToken &&
      after.expiresDateTime == cal.toIso(ExpiryMillis(c))
  {
  }

  /** After a credential update, the next validity test depends only on the
      response: the token is valid exactly while `now` is before the computed
      expiry and the response carried a non-empty access token. */
  lemma ValidAfterSave(app: nat, record: KintoneRecord, c: RawCredentials, cal: Calendar, now: int)
    requires cal.RoundTrips()
    ensures TokenValid(Apply(record, SaveCredentials(app, record, c, cal).record), now, cal)
            <==> now < ExpiryMillis(c) && c.accessToken != ""
  {
    var iso := cal.toIso(ExpiryMillis(c));
    assert cal.parse(iso) == Some(ExpiryMillis(c));
  }
}
