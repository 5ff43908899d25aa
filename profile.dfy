/** The serverless `/api/user/profile` handler: GET returns the caller's row of
    the `user_profiles` table or a default profile; PUT upserts the caller's
    preferences. The table is a class holding a map from user id to row, a row
    a map from column name to value; `db` is null when no database is bound. */
module Profile {
  import opened Json
  import opened Http

  type Row = map<string, Json>

  class ProfileTable {
    var rows: map<string, Row>

    constructor (initial: map<string, Row>)
      ensures rows == initial
    {
      rows := initial;
    }
  }

  /** The profile returned when no row is found: `{userId, preferences: {}}`. */
  function DefaultProfile(userId: string): Json
  {
    JObj(map["userId" := JStr(userId), "preferences" := JObj(map[])])
  }

  /** The table after `INSERT ... ON CONFLICT(user_id) DO UPDATE SET preferences = ?`:
      a new row for a new user, otherwise the old row with only `preferences` replaced. */
  function Upserted(rows: map<string, Row>, userId: string, preferences: Json): (r: map<string, Row>)
    ensures r.Keys == rows.Keys + {userId}
    ensures "preferences" in r[userId] && r[userId]["preferences"] == preferences
    ensures userId !in rows ==> r[userId] == map["user_id" := JStr(userId), "preferences" := preferences]
    ensures userId in rows ==> forall c :: c in rows[userId] && c != "preferences" ==> c in r[userId] && r[userId][c] == rows[userId][c]
    ensures userId in rows ==> r[userId].Keys == rows[userId].Keys + {"preferences"}
    ensures forall u :: u in rows && u != userId ==> r[u] == rows[u]
  {
    var row := if userId in rows then rows[userId]["preferences" := preferences]
               else map["user_id" := JStr(userId), "preferences" := preferences];
    rows[userId := row]
  }

  /** Writing the same preferences twice is the same as writing them once. */
  lemma UpsertIdempotent(rows: map<string, Row>, userId: string, p: Json)
    ensures Upserted(Upserted(rows, userId, p), userId, p) == Upserted(rows, userId, p)
  {
    var once := Upserted(rows, userId, p);
    assert once[userId]["preferences" := p] == once[userId];
    assert once[userId := once[userId]] == once;
  }

  /** The later of two writes for one user wins. */
  lemma UpsertLastWriteWins(rows: map<string, Row>, userId: string, p: Json, q: Json)
    ensures Upserted(Upserted(rows, userId, p), userId, q) == Upserted(rows, userId, q)
  {
    var once := Upserted(rows, userId, p);
    var inserted := map["user_id" := JStr(userId), "preferences" := p];
    var row := if userId in rows then rows[userId]["preferences" := p] else inserted;
    assert once == rows[userId := row];
    assert row["preferences" := q] == if userId in rows then rows[userId]["preferences" := q]
                                      else map["user_id" := JStr(userId), "preferences" := q];
    assert once[userId := row["preferences" := q]] == rows[userId := row["preferences" := q]];
  }

  /** Writes for different users commute. */
  lemma UpsertsCommute(rows: map<string, Row>, u: string, p: Json, v: string, q: Json)
    requires u != v
    ensures Upserted(Upserted(rows, u, p), v, q) == Upserted(Upserted(rows, v, q), u, p)
  {
  }

  /** The table contents, None when unbound. */
  function RowsOf(db: ProfileTable?): Option<map<string, Row>>
    reads db
  {
    if db == null then None else Some(db.rows)
  }

  /** `onRequestGet`: reads the table and never writes it. */
  method GetProfile(db: ProfileTable?, auth: Option<string>, userHeader: Option<string>) returns (resp: Response)
    ensures !HasBearer(auth) ==> resp == Unauthorized()
    ensures HasBearer(auth) && !Present(userHeader) ==> resp == BadRequest("User ID missing")
    ensures HasBearer(auth) && Present(userHeader) ==>
      resp == Ok200(if db != null && userHeader.value in db.rows then JObj(db.rows[userHeader.value])
                    else DefaultProfile(userHeader.value))
  {
    if !HasBearer(auth) {
      return Unauthorized();
    }
    if !Present(userHeader) {
      return BadRequest("User ID missing");
    }
    var userId := userHeader.value;
    if db != null {
      if userId in db.rows {
        return Ok200(JObj(db.rows[userId]));
      }
    }
    resp := Ok200(DefaultProfile(userId));
  }

  /** The parsed body of a PUT: the JSON value `null`, or a value whose
      `preferences` is read (absent for any body without that field). */
  datatype ProfileBody = NullBody | ProfileBody(preferences: Option<Json>)

  /** The message of the TypeError thrown by reading `preferences` of `null`. */
  const NullPreferencesMessage := "Cannot read properties of null (reading 'preferences')"

  /** `{success: true, userId, preferences}`; an absent `preferences` is left out of the JSON. */
  function PutAck(userId: string, preferences: Option<Json>): Json
  {
    var base := map["success" := JBool(true), "userId" := JStr(userId)];
    JObj(if preferences.Some? then base["preferences" := preferences.value] else base)
  }

  /** `onRequestPut`: the body is parsed before the user id is checked, so a
      malformed body gives 500 even without a user id, while a `null` body gets
      the 400 without a user id and a 500 (TypeError) with one; only a bound
      database and truthy preferences lead to a write. */
  method PutProfile(db: ProfileTable?, auth: Option<string>, userHeader: Option<string>, body: Result<ProfileBody>)
    returns (resp: Response)
    modifies db
    ensures !HasBearer(auth) ==> resp == Unauthorized()
    ensures HasBearer(auth) && body.Err? ==> resp == InternalError(body.message)
    ensures HasBearer(auth) && body.Ok? && !Present(userHeader) ==> resp == BadRequest("User ID missing")
    ensures HasBearer(auth) && body.Ok? && Present(userHeader) && body.value.NullBody? ==>
      resp == InternalError(NullPreferencesMessage)
    ensures HasBearer(auth) && body.Ok? && Present(userHeader) && body.value.ProfileBody? ==>
      resp == Ok200(PutAck(userHeader.value, body.value.preferences))
    ensures RowsOf(db) ==
      if HasBearer(auth) && body.Ok? && Present(userHeader) && db != null && body.value.ProfileBody?
         && body.value.preferences.Some? && Truthy(body.value.preferences.value)
      then Some(Upserted(old(db.rows), userHeader.value, body.value.preferences.value))
      else old(RowsOf(db))
  {
    if !HasBearer(auth) {
      return Unauthorized();
    }
    if body.Err? {
      return InternalError(body.message);
    }
    if !Present(userHeader) {
      return BadRequest("User ID missing");
    }
    if body.value.NullBody? {
      return InternalError(NullPreferencesMessage);
    }
    var userId := userHeader.value;
    var prefs := body.value.preferences;
    if db != null && prefs.Some? && Truthy(prefs.value) {
      db.rows := Upserted(db.rows, userId, prefs.value);
    }
    resp := Ok200(PutAck(userId, prefs));
  }
}
