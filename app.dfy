/**
 * The Streamlit script's logic: the session state it keeps across reruns, the
 * rules deciding when a profile is saved and what a booking costs, the loop
 * that picks the stylist to book, and the script's own copy of register_user,
 * which has no pre-check and leans on the UNIQUE constraint alone.
 * Widgets (text inputs, buttons, uploads) become parameters.
 */
module App {
  import opened Wrappers
  import opened Hashing
  import opened Text
  import opened Model

  /** The largest accepted image: 2 MiB. */
  const MaxImageBytes := 2 * 1024 * 1024

  /** The suffixes an image file name may end with. */
  const ImageExtensions: seq<string> := ["jpg", "jpeg", "png"]

  /** An uploaded file: its name, its reported size and its bytes. */
  datatype Upload = Upload(name: string, size: int, content: seq<byte>)

  datatype UploadVerdict = Accepted | TooLarge | BadFormat

  predicate HasImageExtension(name: string)
  {
    exists k :: 0 <= k < |ImageExtensions| && EndsWith(name, ImageExtensions[k])
  }

  /**
   * The checks on an uploaded style image: the size ceiling first, then the
   * file name's suffix.
   */
  function CheckUpload(image: Upload): (v: UploadVerdict)
    ensures v == Accepted <==> image.size <= MaxImageBytes && HasImageExtension(image.name)
    ensures v == TooLarge <==> image.size > MaxImageBytes
    ensures v == BadFormat <==> image.size <= MaxImageBytes && !HasImageExtension(image.name)
  {
    assert ImageExtensions[0] == "jpg" && ImageExtensions[1] == "jpeg" && ImageExtensions[2] == "png";
    if image.size > MaxImageBytes then TooLarge
    else if !EndsWith(image.name, "jpg") && !EndsWith(image.name, "jpeg") && !EndsWith(image.name, "png") then BadFormat
    else Accepted
  }

  /** The price of a booking: the salon price for "Salon", the home price for anything else. */
  function BookingPrice(stylist: Stylist, serviceType: string): (price: int)
    ensures price == stylist.salonPrice || price == stylist.homePrice
    ensures serviceType == "Salon" ==> price == stylist.salonPrice
    ensures serviceType != "Salon" ==> price == stylist.homePrice
  {
    if serviceType == "Salon" then stylist.salonPrice else stylist.homePrice
  }

  /** A `datetime.time` as `st.time_input` returns it: hours and minutes, seconds zero. */
  datatype TimeOfDay = TimeOfDay(hour: nat, minute: nat)

  predicate ValidTime(t: TimeOfDay)
  {
    t.hour < 24 && t.minute < 60
  }

  predicate IsDigit(c: char)
  {
    '0' <= c <= '9'
  }

  function DigitValue(c: char): (d: nat)
    requires IsDigit(c)
    ensures d < 10
  {
    c as int - '0' as int
  }

  function TwoDigits(n: nat): (s: string)
    requires n < 100
    ensures |s| == 2 && IsDigit(s[0]) && IsDigit(s[1])
    ensures DigitValue(s[0]) * 10 + DigitValue(s[1]) == n
  {
    [('0' as int + n / 10) as char, ('0' as int + n % 10) as char]
  }

  /** `time.isoformat()`: the text "HH:MM:00". */
  function TimeText(t: TimeOfDay): (s: string)
    requires ValidTime(t)
    ensures |s| == 8 && s[2] == ':' && s[5] == ':' && s[6..] == "00"
  {
    TwoDigits(t.hour) + ":" + TwoDigits(t.minute) + ":00"
  }

  /** Reads "HH:MM:00" back. */
  function ParseTime(s: string): (t: Option<TimeOfDay>)
    ensures t.Some? ==> t.value.hour < 100 && t.value.minute < 100
  {
    if |s| == 8 && IsDigit(s[0]) && IsDigit(s[1]) && s[2] == ':' && IsDigit(s[3]) && IsDigit(s[4])
       && s[5] == ':' && s[6..] == "00"
    then Some(TimeOfDay(DigitValue(s[0]) * 10 + DigitValue(s[1]), DigitValue(s[3]) * 10 + DigitValue(s[4])))
    else None
  }

  /** The text written for a booking time determines the time: distinct times give distinct texts. */
  lemma TimeTextRoundTrip(t: TimeOfDay)
    requires ValidTime(t)
    ensures ParseTime(TimeText(t)) == Some(t)
  {
  }

  /**
   * sqlite3's binding of one query parameter. Text binds as itself; Python's
   * sqlite3 registers no adapter for `datetime.time`, so binding one raises
   * ProgrammingError.
   */
  datatype SqlParam = TextParam(text: string) | TimeParam(time: TimeOfDay)

  function Bind(p: SqlParam): (r: Option<string>)
    ensures r.None? <==> p.TimeParam?
    ensures p.TextParam? ==> r == Some(p.text)
  {
    match p
    case TextParam(text) => Some(text)
    case TimeParam(_) => None
  }

  /**
   * The loop over the listed stylists, one "Book" button each: it stops at the
   * first button that was pressed.
   */
  method FindClickedStylist(stylists: seq<Stylist>, clicked: seq<bool>) returns (choice: Option<nat>)
    requires |clicked| == |stylists|
    ensures choice.Some? ==> choice.value < |stylists| && clicked[choice.value]
    ensures choice.Some? ==> forall j :: 0 <= j < choice.value ==> !clicked[j]
    ensures choice.None? ==> forall j :: 0 <= j < |clicked| ==> !clicked[j]
  {
    choice := None;
    var i := 0;
    while i < |stylists|
      invariant 0 <= i <= |stylists|
      invariant forall j :: 0 <= j < i ==> !clicked[j]
    {
      if clicked[i] {
        choice := Some(i);
        break;
      }
      i := i + 1;
    }
  }

  datatype LoginOutcome = NotAttempted | LoggedIn | InvalidCredentials
  datatype ProfileOutcome = FormHidden | NotSubmitted | Rejected(verdict: UploadVerdict) | Saved
  datatype BookingOutcome = NoBooking | StylistMissing | Quoted(price: int) | Booked(price: int) | BindingError(price: int)

  /** `st.session_state`. */
  class Session {
    var loggedIn: bool
    var userId: Option<int>
    var userType: Option<string>
    var bookingInProgress: bool
    var stylistId: Option<int>

    /** Logging in sets the id and the type together; a booking starts only for a logged-in user with a chosen stylist. */
    ghost predicate Valid()
      reads this
    {
      && (loggedIn <==> userId.Some?)
      && (loggedIn <==> userType.Some?)
      && (bookingInProgress ==> loggedIn && stylistId.Some?)
    }

    /** The profile form is shown to a logged-in hairstylist. */
    predicate IsHairstylist()
      reads this
    {
      loggedIn && userType == Some("hairstylist")
    }

    /** The stylist list is shown to a logged-in client. */
    predicate IsClient()
      reads this
    {
      loggedIn && userType == Some("client")
    }

    /** The state of a new session. */
    constructor ()
      ensures Valid()
      ensures !loggedIn && userId.None? && userType.None?
      ensures !bookingInProgress && stylistId.None?
    {
      loggedIn, userId, userType := false, None, None;
      bookingInProgress, stylistId := false, None;
    }

    /**
     * The sidebar login: offered only while logged out. On success the session
     * takes the row's id and user_type; on failure it is left as it was.
     */
    method Login(db: Database, pressed: bool, username: string, password: string) returns (outcome: LoginOutcome)
      requires Valid()
      modifies this
      ensures Valid()
      ensures outcome == NotAttempted <==> old(loggedIn) || !pressed
      ensures outcome == LoggedIn <==> !old(loggedIn) && pressed && LoginUser(db.users, username, password).Some?
      ensures outcome == LoggedIn ==>
        var row := LoginUser(db.users, username, password).value;
        loggedIn && userId == Some(row.id) && userType == Some(row.userType)
      ensures outcome != LoggedIn ==>
        loggedIn == old(loggedIn) && userId == old(userId) && userType == old(userType)
      ensures bookingInProgress == old(bookingInProgress) && stylistId == old(stylistId)
    {
      if loggedIn || !pressed {
        return NotAttempted;
      }
      var user := LoginUser(db.users, username, password);
      if user.Some? {
        loggedIn := true;
        userId := Some(user.value.id);
        userType := Some(user.value.userType);
        outcome := LoggedIn;
      } else {
        outcome := InvalidCredentials;
      }
    }

    /**
     * The profile form: for a hairstylist who submitted it with an image, the
     * profile is saved when the image passes CheckUpload; in every other case
     * nothing is written.
     */
    method SubmitProfile(db: Database, submit: bool, image: Option<Upload>, name: string, styles: string,
                         salonPrice: int, homePrice: int, availability: string, location: string)
      returns (outcome: ProfileOutcome)
      requires Valid() && db.Valid()
      modifies db
      ensures db.Valid()
      ensures outcome == FormHidden <==> !IsHairstylist()
      ensures outcome == Saved <==> IsHairstylist() && submit && image.Some? && CheckUpload(image.value) == Accepted
      ensures outcome.Rejected? ==> image.Some? && outcome.verdict == CheckUpload(image.value)
      ensures outcome == Saved ==>
        && db.hairstylists == old(db.hairstylists) +
             [Stylist(old(db.nextStylistId), userId.value, name, styles, salonPrice, homePrice,
                      availability, location, image.value.content, DefaultRating)]
        && db.nextStylistId == old(db.nextStylistId) + 1
      ensures outcome != Saved ==> db.hairstylists == old(db.hairstylists) && db.nextStylistId == old(db.nextStylistId)
      ensures db.users == old(db.users) && db.nextUserId == old(db.nextUserId)
      ensures db.bookings == old(db.bookings) && db.nextBookingId == old(db.nextBookingId)
    {
      if !IsHairstylist() {
        return FormHidden;
      }
      if !(submit && image.Some?) {
        return NotSubmitted;
      }
      var verdict := CheckUpload(image.value);
      if verdict != Accepted {
        return Rejected(verdict);
      }
      db.AddOrEditHairstylist(userId.value, name, styles, salonPrice, homePrice, availability, location, image.value.content);
      outcome := Saved;
    }

    /**
     * Browsing: a client sees the stylists matching the location filter; the
     * first "Book" button pressed records that stylist and starts a booking.
     */
    method Browse(db: Database, locationFilter: string, clicked: seq<bool>)
      returns (shown: seq<Stylist>, choice: Option<nat>)
      requires Valid()
      requires IsClient() ==> |clicked| == |FetchHairstylists(db.hairstylists, Some(locationFilter))|
      modifies this
      ensures Valid()
      ensures shown == if old(IsClient()) then FetchHairstylists(db.hairstylists, Some(locationFilter)) else []
      ensures choice.Some? ==> choice.value < |shown| && clicked[choice.value]
      ensures choice.Some? ==> forall j :: 0 <= j < choice.value ==> !clicked[j]
      ensures choice.None? && old(IsClient()) ==> forall j :: 0 <= j < |clicked| ==> !clicked[j]
      ensures choice.Some? ==> bookingInProgress && stylistId == Some(shown[choice.value].id)
      ensures choice.None? ==> bookingInProgress == old(bookingInProgress) && stylistId == old(stylistId)
      ensures loggedIn == old(loggedIn) && userId == old(userId) && userType == old(userType)
    {
      if !IsClient() {
        return [], None;
      }
      shown := FetchHairstylists(db.hairstylists, Some(locationFilter));
      choice := FindClickedStylist(shown, clicked);
      if choice.Some? {
        stylistId := Some(shown[choice.value].id);
        bookingInProgress := true;
      }
    }

    /**
     * The booking form as written: while a booking is in progress, look the
     * stylist up and price the chosen service. On confirmation `add_booking`
     * receives the `datetime.time` of the time widget; binding it fails, so the
     * INSERT never runs and no booking is written.
     * A stylist id with no row makes the script fail on the missing row.
     */
    method ConfirmBookingAsWritten(db: Database, date: string, time: TimeOfDay, serviceType: string, confirm: bool)
      returns (outcome: BookingOutcome)
      requires Valid()
      ensures outcome == NoBooking <==> !bookingInProgress
      ensures outcome == StylistMissing <==>
        bookingInProgress && FetchStylistById(db.hairstylists, stylistId.value).None?
      ensures outcome.Quoted? || outcome.BindingError? ==>
        && bookingInProgress
        && FetchStylistById(db.hairstylists, stylistId.value).Some?
        && outcome.price == BookingPrice(FetchStylistById(db.hairstylists, stylistId.value).value, serviceType)
      ensures outcome.BindingError? <==> outcome != NoBooking && outcome != StylistMissing && confirm
      ensures !outcome.Booked?
    {
      if !bookingInProgress {
        return NoBooking;
      }
      var stylist := FetchStylistById(db.hairstylists, stylistId.value);
      if stylist.None? {
        return StylistMissing;
      }
      var price := BookingPrice(stylist.value, serviceType);
      if !confirm {
        return Quoted(price);
      }
      var boundTime := Bind(TimeParam(time));
      if boundTime.None? {
        return BindingError(price);
      }
      outcome := Booked(price);
    }

    /**
     * The booking form with the time passed as text (`time.isoformat()`): on
     * confirmation one pending booking is added for this user at the price of
     * the chosen service.
     */
    method ConfirmBooking(db: Database, date: string, time: TimeOfDay, serviceType: string, confirm: bool)
      returns (outcome: BookingOutcome)
      requires Valid() && db.Valid()
      requires ValidTime(time)
      modifies db
      ensures db.Valid()
      ensures !outcome.BindingError?
      ensures outcome == NoBooking <==> !bookingInProgress
      ensures outcome == StylistMissing <==>
        bookingInProgress && FetchStylistById(db.hairstylists, stylistId.value).None?
      ensures outcome.Quoted? || outcome.Booked? ==>
        && bookingInProgress
        && FetchStylistById(old(db.hairstylists), stylistId.value).Some?
        && outcome.price == BookingPrice(FetchStylistById(old(db.hairstylists), stylistId.value).value, serviceType)
      ensures outcome.Booked? <==> outcome != NoBooking && outcome != StylistMissing && confirm
      ensures outcome.Booked? ==>
        && db.bookings == old(db.bookings) +
             [Booking(old(db.nextBookingId), userId.value, stylistId.value, date, TimeText(time), serviceType, outcome.price, PendingStatus)]
        && db.nextBookingId == old(db.nextBookingId) + 1
      ensures !outcome.Booked? ==> db.bookings == old(db.bookings) && db.nextBookingId == old(db.nextBookingId)
      ensures db.users == old(db.users) && db.nextUserId == old(db.nextUserId)
      ensures db.hairstylists == old(db.hairstylists) && db.nextStylistId == old(db.nextStylistId)
    {
      if !bookingInProgress {
        return NoBooking;
      }
      var stylist := FetchStylistById(db.hairstylists, stylistId.value);
      if stylist.None? {
        return StylistMissing;
      }
      var price := BookingPrice(stylist.value, serviceType);
      if !confirm {
        return Quoted(price);
      }
      db.AddBooking(userId.value, stylistId.value, date, TimeText(time), serviceType, price);
      outcome := Booked(price);
    }
  }

  /** The result of the script's own register_user: done, or the IntegrityError it lets escape. */
  datatype InsertOutcome = Inserted | IntegrityError

  /**
   * The script's copy of register_user: no look-up first; the INSERT itself
   * fails on the UNIQUE constraint when the username is taken, and the error
   * propagates with the tables unchanged.
   */
  method RegisterUserNoPrecheck(db: Database, username: string, password: string, userType: string, salt: nat)
    returns (outcome: InsertOutcome)
    requires db.Valid()
    modifies db
    ensures db.Valid()
    ensures outcome == IntegrityError <==> FindUser(old(db.users), username).Some?
    ensures outcome == Inserted ==>
      && db.users == old(db.users) + [NewUser(old(db.nextUserId), username, password, userType, salt)]
      && db.nextUserId == old(db.nextUserId) + 1
    ensures outcome == IntegrityError ==> db.users == old(db.users) && db.nextUserId == old(db.nextUserId)
    ensures db.hairstylists == old(db.hairstylists) && db.nextStylistId == old(db.nextStylistId)
    ensures db.bookings == old(db.bookings) && db.nextBookingId == old(db.nextBookingId)
  {
    var hashed := Hash(password, salt);
    if FindUser(db.users, username).Some? {
      return IntegrityError;
    }
    db.InsertUser(username, hashed, userType);
    outcome := Inserted;
  }
}

/** Walks through the app using only the members' contracts. */
module Scenario {
  import opened Wrappers
  import opened Model
  import opened App

  /** Registering a username twice leaves exactly one account for it. */
  method RegisterTwice()
  {
    var db := new Database();
    var r1 := db.RegisterUser("alice", "pw1", "client", 7, false);
    var r2 := db.RegisterUser("alice", "other", "hairstylist", 9, false);
    assert r1 == Registered && r2 == UsernameExists;
    assert db.users == [NewUser(1, "alice", "pw1", "client", 7)];
  }

  /** A client who picked a stylist with salon price 2500 and home price 4000: as written the confirmation fails to bind the time; with the time as text it books a home visit at 4000, pending. */
  method HomeBooking(db: Database, client: Session)
    requires db.Valid() && client.Valid()
    requires db.hairstylists == [Stylist(1, 2, "Bob", "Braids", 2500, 4000, "Mon-Fri", "Lagos Island", [], DefaultRating)]
    requires db.bookings == [] && db.nextBookingId == 1
    requires client.IsClient() && client.userId == Some(1) && !client.bookingInProgress
    modifies db, client
  {
    var clicked := [true];
    var shown, choice := client.Browse(db, "", clicked);
    assert clicked[0];
    assert choice == Some(0) && client.stylistId == Some(1);
    var asWritten := client.ConfirmBookingAsWritten(db, "2024-06-01", TimeOfDay(10, 0), "Home", true);
    assert asWritten == BindingError(4000) && db.bookings == [];
    var b := client.ConfirmBooking(db, "2024-06-01", TimeOfDay(10, 0), "Home", true);
    assert b == Booked(4000);
    assert TimeText(TimeOfDay(10, 0)) == "10:00:00";
    assert db.bookings == [Booking(1, 1, 1, "2024-06-01", "10:00:00", "Home", 4000, PendingStatus)];
  }
}
