/**
 * The data layer of the hairstylist booking app: the tables `users`,
 * `hairstylists` and `bookings`, each with an AUTOINCREMENT id, and the
 * operations that write and query them. The SQLite database becomes an
 * in-memory class whose tables are sequences of named-field rows in rowid
 * order; the queries are pure functions over those sequences.
 */
module Model {
  import opened Wrappers
  import opened Hashing
  import opened Text

  type byte = x: int | 0 <= x < 256

  /**
   * How the `password` column holds a hash. bcrypt's `hashpw` returns a Python
   * `bytes` object, which SQLite stores as a BLOB even in a TEXT column and hands
   * back as `bytes`; a TEXT value would come back as `str`.
   */
  datatype StoredHash = TextValue(digest: Digest) | BlobValue(digest: Digest)

  /** A row of `users`: id, username (UNIQUE), password hash, user_type ('hairstylist' or 'client'). */
  datatype User = User(id: int, username: string, password: StoredHash, userType: string)

  /** A row of `hairstylists`; prices and rating in whole units (cents), not REAL. */
  datatype Stylist = Stylist(
    id: int, userId: int, name: string, styles: string,
    salonPrice: int, homePrice: int, availability: string, location: string,
    styleImage: seq<byte>, rating: int)

  /** A row of `bookings`. */
  datatype Booking = Booking(
    id: int, clientId: int, stylistId: int, date: string, time: string,
    serviceType: string, price: int, status: string)

  /** The `rating REAL DEFAULT 0.0` column, which no operation writes. */
  const DefaultRating := 0
  /** The status every booking is inserted with. */
  const PendingStatus := "pending"

  // ---------------------------------------------------------------------------
  // Table invariants

  /** The id column of a table, in rowid order. */
  function Ids<T>(rows: seq<T>, id: T -> int): (ids: seq<int>)
    ensures |ids| == |rows| && forall i :: 0 <= i < |rows| ==> ids[i] == id(rows[i])
  {
    seq(|rows|, i requires 0 <= i < |rows| => id(rows[i]))
  }

  function UserId(u: User): int { u.id }
  function StylistId(s: Stylist): int { s.id }
  function BookingId(b: Booking): int { b.id }

  /**
   * What AUTOINCREMENT guarantees about a table: ids are positive, strictly
   * increasing in rowid order, and below the next id to hand out.
   */
  predicate IncreasingBelow(ids: seq<int>, next: int)
  {
    && 1 <= next
    && (forall i :: 0 <= i < |ids| ==> 1 <= ids[i] < next)
    && (forall i, j :: 0 <= i < j < |ids| ==> ids[i] < ids[j])
  }

  /** The UNIQUE constraint on `users.username`. */
  predicate UniqueUsernames(users: seq<User>)
  {
    forall i, j :: 0 <= i < j < |users| ==> users[i].username != users[j].username
  }

  /** Every stored hash came from `hashpw`, so it is a BLOB. */
  predicate HashesStoredAsBlobs(users: seq<User>)
  {
    forall i :: 0 <= i < |users| ==> users[i].password.BlobValue?
  }

  // ---------------------------------------------------------------------------
  // Queries

  /**
   * The first row satisfying `p`, in rowid order: `SELECT * ... WHERE ...`
   * followed by `fetchone()`.
   */
  function FirstMatch<T>(rows: seq<T>, p: T -> bool): (r: Option<nat>)
    ensures r.Some? ==> r.value < |rows| && p(rows[r.value])
    ensures r.Some? ==> forall j :: 0 <= j < r.value ==> !p(rows[j])
    ensures r.None? ==> forall j :: 0 <= j < |rows| ==> !p(rows[j])
  {
    if rows == [] then None
    else if p(rows[0]) then Some(0)
    else match FirstMatch(rows[1..], p)
      case None => None
      case Some(k) => Some(k + 1)
  }

  /** Appending a row never changes an earlier first match, and is found only if it is the first. */
  lemma {:induction false} FirstMatchAppend<T>(rows: seq<T>, row: T, p: T -> bool)
    ensures FirstMatch(rows + [row], p) ==
      if FirstMatch(rows, p).Some? then FirstMatch(rows, p)
      else if p(row) then Some(|rows|) else None
  {
    if rows != [] {
      assert (rows + [row])[1..] == rows[1..] + [row];
      FirstMatchAppend(rows[1..], row, p);
    }
  }

  /** With unique keys the first match is the only one. */
  lemma FirstMatchUnique<T>(rows: seq<T>, p: T -> bool, i: nat)
    requires i < |rows| && p(rows[i])
    requires forall j :: 0 <= j < |rows| && p(rows[j]) ==> j == i
    ensures FirstMatch(rows, p) == Some(i)
  {
  }

  /** `SELECT * FROM users WHERE username = ?` then `fetchone()`: the index of the row. */
  function FindUser(users: seq<User>, username: string): (r: Option<nat>)
    ensures r.Some? ==> r.value < |users| && users[r.value].username == username
    ensures r.None? ==> forall j :: 0 <= j < |users| ==> users[j].username != username
  {
    FirstMatch(users, (u: User) => u.username == username)
  }

  /**
   * login_user: the user's row when the username exists and the password checks
   * against its stored hash; None otherwise, the same for an unknown username and
   * for a wrong password. The hash is passed to `checkpw` as stored.
   */
  function LoginUser(users: seq<User>, username: string, password: string): (r: Option<User>)
    ensures r.Some? ==> r.value in users && r.value.username == username
    ensures r.Some? ==> Check(password, r.value.password.digest)
    ensures (forall j :: 0 <= j < |users| ==> users[j].username != username) ==> r.None?
  {
    match FindUser(users, username)
    case None => None
    case Some(i) => if Check(password, users[i].password.digest) then Some(users[i]) else None
  }

  /** Under the UNIQUE constraint, login succeeds with a row exactly when that row matches both credentials. */
  lemma LoginUserExact(users: seq<User>, username: string, password: string, row: User)
    requires UniqueUsernames(users)
    ensures LoginUser(users, username, password) == Some(row) <==>
      row in users && row.username == username && Check(password, row.password.digest)
  {
    if row in users && row.username == username {
      var i :| 0 <= i < |users| && users[i] == row;
      FirstMatchUnique(users, (u: User) => u.username == username, i);
    }
  }

  /** What registration adds to `users`. */
  function NewUser(id: int, username: string, password: string, userType: string, salt: nat): User
  {
    User(id, username, BlobValue(Hash(password, salt)), userType)
  }

  /** A freshly registered user logs in with their password, and with no other. */
  lemma LoginAfterRegister(users: seq<User>, id: int, username: string, password: string,
                           userType: string, salt: nat, attempt: string)
    requires FindUser(users, username).None?
    ensures LoginUser(users + [NewUser(id, username, password, userType, salt)], username, attempt) ==
      if attempt == password then Some(NewUser(id, username, password, userType, salt)) else None
  {
    FirstMatchAppend(users, NewUser(id, username, password, userType, salt), (u: User) => u.username == username);
  }

  /** What `login_user` as written yields: a row, None, or the AttributeError it raises. */
  datatype LoginAsWritten = Row(user: User) | NoRow | AttributeError

  /**
   * login_user as written: it calls `.encode('utf-8')` on the stored hash, which
   * exists on `str` but not on `bytes`, so a BLOB hash raises AttributeError.
   */
  function LoginUserAsWritten(users: seq<User>, username: string, password: string): (r: LoginAsWritten)
    ensures r.Row? ==> r.user in users && r.user.username == username && r.user.password.TextValue?
    ensures r.AttributeError? <==> FindUser(users, username).Some? && users[FindUser(users, username).value].password.BlobValue?
  {
    match FindUser(users, username)
    case None => NoRow
    case Some(i) =>
      match users[i].password
      case BlobValue(_) => AttributeError
      case TextValue(d) => if Check(password, d) then Row(users[i]) else NoRow
  }

  /**
   * The discrepancy: a user just registered with a fresh username, logging in
   * with the right password, gets an AttributeError instead of their row, and no
   * user of a table written by register_user can ever log in.
   */
  lemma RegisteredUserCannotLogInAsWritten(users: seq<User>, id: int, username: string, password: string,
                                           userType: string, salt: nat)
    requires FindUser(users, username).None?
    requires HashesStoredAsBlobs(users)
    ensures LoginUserAsWritten(users + [NewUser(id, username, password, userType, salt)], username, password) == AttributeError
    ensures LoginUser(users + [NewUser(id, username, password, userType, salt)], username, password).Some?
    ensures forall name, pw :: !LoginUserAsWritten(users, name, pw).Row?
  {
    FirstMatchAppend(users, NewUser(id, username, password, userType, salt), (u: User) => u.username == username);
  }

  /** The filter behind `WHERE location LIKE '%needle%'`, in rowid order. */
  function FilterByLocation(rows: seq<Stylist>, needle: string): (r: seq<Stylist>)
    ensures |r| <= |rows|
    ensures forall s :: s in r <==> s in rows && ContainsIgnoreCase(s.location, needle)
  {
    if rows == [] then []
    else if ContainsIgnoreCase(rows[0].location, needle) then [rows[0]] + FilterByLocation(rows[1..], needle)
    else FilterByLocation(rows[1..], needle)
  }

  /**
   * fetch_hairstylists: all rows when the location is None or empty; otherwise the
   * rows whose location contains it, ignoring ASCII case.
   */
  function FetchHairstylists(rows: seq<Stylist>, location: Option<string>): (r: seq<Stylist>)
    ensures location.None? || location.value == "" ==> r == rows
    ensures location.Some? && location.value != "" ==>
      forall s :: s in r <==> s in rows && ContainsIgnoreCase(s.location, location.value)
  {
    if location.Some? && location.value != "" then FilterByLocation(rows, location.value) else rows
  }

  /** A row whose id is below every id of an ordered table may head it. */
  lemma PrependKeepsOrder(row: Stylist, rows: seq<Stylist>, next: int)
    requires IncreasingBelow(Ids(rows, StylistId), next)
    requires 1 <= row.id < next
    requires forall s :: s in rows ==> row.id < s.id
    ensures IncreasingBelow(Ids([row] + rows, StylistId), next)
  {
    var r := [row] + rows;
    forall i | 1 <= i < |r| ensures Ids(r, StylistId)[i] == Ids(rows, StylistId)[i - 1] && r[i] in rows {
    }
  }

  /** The filter keeps table order: the ids it returns are still strictly increasing. */
  lemma {:induction false} FilterKeepsOrder(rows: seq<Stylist>, needle: string, next: int)
    requires IncreasingBelow(Ids(rows, StylistId), next)
    ensures IncreasingBelow(Ids(FilterByLocation(rows, needle), StylistId), next)
  {
    if rows != [] {
      var rest := rows[1..];
      assert IncreasingBelow(Ids(rest, StylistId), next) by {
        assert forall i :: 0 <= i < |rest| ==> Ids(rest, StylistId)[i] == Ids(rows, StylistId)[i + 1];
      }
      FilterKeepsOrder(rest, needle, next);
      if ContainsIgnoreCase(rows[0].location, needle) {
        var f := FilterByLocation(rest, needle);
        forall s | s in f ensures rows[0].id < s.id {
          assert s in rest;
          var k :| 0 <= k < |rest| && rest[k] == s;
          assert Ids(rows, StylistId)[0] < Ids(rows, StylistId)[k + 1];
        }
        assert Ids(rows, StylistId)[0] == rows[0].id;
        PrependKeepsOrder(rows[0], f, next);
      }
    }
  }

  /** A profile located at `location`, the other fields left empty. */
  function StylistAt(id: int, location: string): Stylist
  {
    Stylist(id, id, "", "", 0, 0, "", location, [], DefaultRating)
  }

  /** The filter "lagos" over "Lagos Island", "Abuja" and "Lagos Mainland" keeps the two Lagos rows, in order. */
  lemma LagosFilterExample()
    ensures FetchHairstylists([StylistAt(1, "Lagos Island"), StylistAt(2, "Abuja"), StylistAt(3, "Lagos Mainland")], Some("lagos"))
         == [StylistAt(1, "Lagos Island"), StylistAt(3, "Lagos Mainland")]
  {
    var rows := [StylistAt(1, "Lagos Island"), StylistAt(2, "Abuja"), StylistAt(3, "Lagos Mainland")];
    assert OccursAt("Lagos Island", "lagos", 0) by {
      assert "Lagos Island"[0..5] == "Lagos";
      assert Lower("Lagos") == "lagos";
      assert Lower("lagos") == "lagos";
    }
    assert OccursAt("Lagos Mainland", "lagos", 0) by {
      assert "Lagos Mainland"[0..5] == "Lagos";
      assert Lower("Lagos") == "lagos";
      assert Lower("lagos") == "lagos";
    }
    assert !ContainsIgnoreCase("Abuja", "lagos") by {
      forall i | 0 <= i <= 0 ensures !OccursAt("Abuja", "lagos", i) {
        assert Lower("Abuja"[0..5])[0] == 'a';
        assert Lower("lagos")[0] == 'l';
      }
    }
    assert rows[1..][1..] == [rows[2]];
  }

  /** fetch_stylist_by_id: the row with that id, if any. */
  function FetchStylistById(rows: seq<Stylist>, id: int): (r: Option<Stylist>)
    ensures r.Some? ==> r.value in rows && r.value.id == id
    ensures r.None? ==> forall s :: s in rows ==> s.id != id
  {
    match FirstMatch(rows, (s: Stylist) => s.id == id)
    case None => None
    case Some(i) => Some(rows[i])
  }

  /** Ids are unique, so the row found by id is the one row carrying it. */
  lemma FetchStylistByIdExact(rows: seq<Stylist>, next: int, i: nat)
    requires IncreasingBelow(Ids(rows, StylistId), next)
    requires i < |rows|
    ensures FetchStylistById(rows, rows[i].id) == Some(rows[i])
  {
    var p := (s: Stylist) => s.id == rows[i].id;
    forall j | 0 <= j < |rows| && j != i ensures !p(rows[j]) {
      if j < i { assert Ids(rows, StylistId)[j] < Ids(rows, StylistId)[i]; }
      if i < j { assert Ids(rows, StylistId)[i] < Ids(rows, StylistId)[j]; }
    }
    FirstMatchUnique(rows, p, i);
  }

  // ---------------------------------------------------------------------------
  // The tables and the operations that write them

  /** The outcome of register_user, the `success`/`message` dictionary it returns. */
  datatype RegisterResult = Registered | UsernameExists | DatabaseError
  {
    predicate Success() { Registered? }
  }

  class Database {
    var users: seq<User>
    var hairstylists: seq<Stylist>
    var bookings: seq<Booking>
    /** The AUTOINCREMENT counters (SQLite's `sqlite_sequence` plus one). */
    var nextUserId: int
    var nextStylistId: int
    var nextBookingId: int

    ghost predicate Valid()
      reads this
    {
      && IncreasingBelow(Ids(users, UserId), nextUserId)
      && IncreasingBelow(Ids(hairstylists, StylistId), nextStylistId)
      && IncreasingBelow(Ids(bookings, BookingId), nextBookingId)
      && UniqueUsernames(users)
      && HashesStoredAsBlobs(users)
    }

    /** The freshly created, empty tables. */
    constructor ()
      ensures Valid()
      ensures users == [] && hairstylists == [] && bookings == []
      ensures nextUserId == 1 && nextStylistId == 1 && nextBookingId == 1
    {
      users, hairstylists, bookings := [], [], [];
      nextUserId, nextStylistId, nextBookingId := 1, 1, 1;
    }

    /**
     * register_user: reject a username already present; otherwise hash the
     * password and insert one row. `storageFault` stands for an sqlite3.Error
     * raised by the INSERT for reasons outside the tables (disk, locking).
     */
    method RegisterUser(username: string, password: string, userType: string, salt: nat, storageFault: bool)
      returns (result: RegisterResult)
      requires Valid()
      modifies this
      ensures Valid()
      ensures result == if FindUser(old(users), username).Some? then UsernameExists
                        else if storageFault then DatabaseError else Registered
      ensures result.Success() ==>
        && users == old(users) + [NewUser(old(nextUserId), username, password, userType, salt)]
        && nextUserId == old(nextUserId) + 1
      ensures !result.Success() ==> users == old(users) && nextUserId == old(nextUserId)
      ensures hairstylists == old(hairstylists) && nextStylistId == old(nextStylistId)
      ensures bookings == old(bookings) && nextBookingId == old(nextBookingId)
    {
      if FindUser(users, username).Some? {
        return UsernameExists;
      }
      var hashed := Hash(password, salt);
      if storageFault {
        return DatabaseError;
      }
      InsertUser(username, hashed, userType);
      result := Registered;
    }

    /** `INSERT INTO users` of a username not yet present. */
    method InsertUser(username: string, hashed: Digest, userType: string)
      requires Valid()
      requires FindUser(users, username).None?
      modifies this
      ensures Valid()
      ensures users == old(users) + [User(old(nextUserId), username, BlobValue(hashed), userType)]
      ensures nextUserId == old(nextUserId) + 1
      ensures hairstylists == old(hairstylists) && nextStylistId == old(nextStylistId)
      ensures bookings == old(bookings) && nextBookingId == old(nextBookingId)
    {
      var row := User(nextUserId, username, BlobValue(hashed), userType);
      assert IncreasingBelow(Ids(users + [row], UserId), nextUserId + 1) by {
        assert forall i :: 0 <= i < |users| ==> Ids(users + [row], UserId)[i] == Ids(users, UserId)[i];
      }
      users := users + [row];
      nextUserId := nextUserId + 1;
    }

    /**
     * add_or_edit_hairstylist. `INSERT OR REPLACE` without an id, into a table
     * whose only key is the AUTOINCREMENT id, never meets a conflict: the call
     * always appends a new row with a fresh id and the default rating.
     */
    method AddOrEditHairstylist(userId: int, name: string, styles: string, salonPrice: int, homePrice: int,
                                availability: string, location: string, image: seq<byte>)
      requires Valid()
      modifies this
      ensures Valid()
      ensures hairstylists == old(hairstylists) +
        [Stylist(old(nextStylistId), userId, name, styles, salonPrice, homePrice, availability, location, image, DefaultRating)]
      ensures nextStylistId == old(nextStylistId) + 1
      ensures users == old(users) && nextUserId == old(nextUserId)
      ensures bookings == old(bookings) && nextBookingId == old(nextBookingId)
    {
      var row := Stylist(nextStylistId, userId, name, styles, salonPrice, homePrice, availability, location, image, DefaultRating);
      assert IncreasingBelow(Ids(hairstylists + [row], StylistId), nextStylistId + 1) by {
        assert forall i :: 0 <= i < |hairstylists| ==> Ids(hairstylists + [row], StylistId)[i] == Ids(hairstylists, StylistId)[i];
      }
      hairstylists := hairstylists + [row];
      nextStylistId := nextStylistId + 1;
    }

    /** add_booking: append one booking with the given fields and status 'pending'. */
    method AddBooking(clientId: int, stylistId: int, date: string, time: string, serviceType: string, price: int)
      requires Valid()
      modifies this
      ensures Valid()
      ensures bookings == old(bookings) +
        [Booking(old(nextBookingId), clientId, stylistId, date, time, serviceType, price, PendingStatus)]
      ensures nextBookingId == old(nextBookingId) + 1
      ensures users == old(users) && nextUserId == old(nextUserId)
      ensures hairstylists == old(hairstylists) && nextStylistId == old(nextStylistId)
    {
      var row := Booking(nextBookingId, clientId, stylistId, date, time, serviceType, price, PendingStatus);
      assert IncreasingBelow(Ids(bookings + [row], BookingId), nextBookingId + 1) by {
        assert forall i :: 0 <= i < |bookings| ==> Ids(bookings + [row], BookingId)[i] == Ids(bookings, BookingId)[i];
      }
      bookings := bookings + [row];
      nextBookingId := nextBookingId + 1;
    }
  }
}
