# Hairstylist booking app: data layer and session logic in Dafny

This project models the core of a Streamlit app that lets hairstylists publish a
profile and lets clients browse and book them. The model covers two files:

- `model.py` holds the data layer. It has three SQLite tables written by the
  code: `users`, `hairstylists` and `bookings`. Each has an AUTOINCREMENT id.
  `users.username` is UNIQUE. The operations on them are registration,
  credential lookup, profile "add/edit", the filtered and by-id stylist queries,
  and booking insertion.
- `app.py` holds the script. It keeps a session state (`logged_in`, `user_id`,
  `user_type`, `stylist_id`, `booking_in_progress`). It gates the profile form
  and the stylist list by user type, checks the uploaded image, picks the first
  pressed "Book" button, prices the booking, and writes it. Below the script it
  carries its own copy of the data layer, whose `register_user` has no pre-check.

Files:

- `wrappers.dfy`: `Option`.
- `hashing.dfy`: bcrypt's `hashpw`/`checkpw` as `Hash`/`Check`. A digest checks
  against exactly the password it was made from; the salt is a parameter.
- `text.dfy`: ASCII case folding, which is what SQLite's `LIKE` applies, and
  `LIKE '%x%'` as case-insensitive substring search. Also `str.endswith`.
- `model.dfy`: module `Model`. Rows are named-field datatypes. The database is
  the class `Database`: one `seq` per table in rowid order, plus one id counter
  per table. `Database.Valid()` is the table invariant. Ids are positive,
  strictly increasing and below the counter. Usernames are pairwise distinct.
  Every stored hash is a BLOB. Every writing method keeps this invariant. The
  read-only queries are pure functions over the table sequences.
- `app.dfy`: module `App`. The session is the class `Session`. Its methods
  update the session fields step by step, as the script does. A small
  `Scenario` module walks two client paths through the contracts alone.

Modelling choices:

- Prices and the rating are integers (whole cents), not REAL.
- A booking date is the ISO text that sqlite3's default `datetime.date` adapter
  writes. A booking time is the `datetime.time` value of the time widget,
  `App.TimeOfDay`; sqlite3 has no adapter for it (see "## Findings").
- Widget values and button presses are parameters.
- Every id counter starts at 1. It advances only when an insert succeeds,
  because SQLite rolls back a failed statement together with its sequence
  update.
- `INSERT OR REPLACE` in `add_or_edit_hairstylist` supplies no id. The table's
  only key is the AUTOINCREMENT id, and `user_id` is not UNIQUE. So the statement
  never meets a conflict: it always appends a new row, despite the "Add/Edit"
  comment.
- `SELECT` without `ORDER BY` is taken to return rows in rowid order. For
  `fetchone()` this means the first matching row.
- app.py:157-192 repeats model.py's `login_user`, `add_or_edit_hairstylist`,
  `fetch_hairstylists`, `fetch_stylist_by_id` and `add_booking` word for word.
  The `Model` members model both copies. Only `register_user` differs, and it
  is modelled separately as `App.RegisterUserNoPrecheck`.

What the code does not do, and the model therefore does not do either:

- There is no one-profile-per-owner rule. Every profile save appends a row.
- `add_booking` checks no reference. Only the script's look-up at
  app.py:75-77 stops on a missing stylist row.
- No price is validated by the data layer.
- No code writes a booking status change or a review.

## Model

| member | source | states |
|---|---|---|
| `Hashing.Hash` | model.py:74 | the digest `hashpw` produces checks against the hashed password and against no other password |
| `Text.LowerChar` | model.py:103 | LIKE's folding maps A-Z to a-z, leaves every other character alone, and never yields an upper-case letter |
| `Text.ContainsIgnoresPatternCase` | model.py:102-104 | the location match does not depend on the case of the filter text |
| `Model.FirstMatch` | model.py:84-85 | `fetchone()` after a WHERE query yields the first row satisfying the condition; no earlier row satisfies it; None only when no row does |
| `Model.FirstMatchAppend` | model.py:76-77 | appending a row keeps an earlier first match; the new row is found only when nothing before it matches |
| `Model.FirstMatchUnique` | model.py:17 | when a key matches at most one row, the look-up returns that row |
| `Model.FindUser` | model.py:70-72 | the username look-up finds a row carrying that username, or reports that no row carries it |
| `Model.LoginUser` | model.py:83-88 | login returns a row only if that row is in `users`, carries the username, and its hash checks against the password; an unknown username gives None |
| `Model.LoginUserExact` | model.py:83-88 | with unique usernames, login returns a row exactly when it is the row with that username and the password checks; unknown user and wrong password both give None |
| `Model.LoginAfterRegister` | model.py:69-88 | after registering a fresh username, login with that password returns the new row; any other password gives None |
| `Model.LoginUserAsWritten` | model.py:86 | as written, login raises AttributeError exactly when the username's row stores its hash as a BLOB, and returns only rows with a TEXT hash |
| `Model.RegisteredUserCannotLogInAsWritten` | model.py:74-86 | a user registered by `register_user` gets AttributeError from the as-written login even with the right password; the corrected login succeeds; no row of such a table can ever be returned |
| `Model.FilterByLocation` | model.py:102-104 | the filtered rows are exactly the table rows whose location contains the filter, ignoring ASCII case; never more rows than the table |
| `Model.FetchHairstylists` | model.py:99-106 | None or an empty filter returns the whole table; a non-empty filter returns exactly the matching rows |
| `Model.FilterKeepsOrder` | model.py:105-106 | the filtered rows keep table order: their ids are still strictly increasing |
| `Model.LagosFilterExample` | model.py:99-106 | the filter "lagos" over "Lagos Island", "Abuja" and "Lagos Mainland" returns the two Lagos rows, in table order |
| `Model.FetchStylistById` | model.py:108-110 | the by-id look-up returns a table row with that id, or None when no row has it |
| `Model.FetchStylistByIdExact` | model.py:108-110 | ids are unique, so the look-up of a row's id returns that very row |
| `Model.Database.constructor` | model.py:14-52 | the tables start empty, every id counter starts at 1, and the table invariant holds |
| `Model.Database.RegisterUser` | model.py:69-81 | a taken username gives failure and leaves every table unchanged; a fresh one appends exactly one user with the next id, the hash of the password and the user_type, and returns success; a storage error changes nothing; usernames stay distinct |
| `Model.Database.InsertUser` | model.py:76-77 | inserting an absent username appends one row with the next id and keeps the table invariant |
| `Model.Database.AddOrEditHairstylist` | model.py:91-96 | always appends one row with a fresh id, the given fields and rating 0; existing rows, users and bookings are unchanged |
| `Model.Database.AddBooking` | model.py:113-118 | appends one booking with a fresh, larger id, the given fields and status 'pending'; no other row changes |
| `App.CheckUpload` | app.py:45-52 | an image is accepted exactly when it is at most 2 MiB and its name ends in jpg, jpeg or png; an oversize file is reported as too large before its name is looked at |
| `App.BookingPrice` | app.py:81 | the price is the salon price for "Salon" and the home price for any other service type |
| `App.FindClickedStylist` | app.py:61-70 | the loop stops at the first pressed button: the index it returns was pressed and no earlier one was; it returns none only when no button was pressed |
| `App.Session.constructor` | app.py:6-11 | a new session is logged out, with no user, no stylist and no booking in progress |
| `App.Session.Login` | app.py:15-28 | over the corrected login (`Model.LoginUser`, see Findings): login is tried only while logged out and when the button is pressed; success sets logged_in, user_id to the row's id and user_type to the row's user_type; failure leaves the session unchanged |
| `App.Session.SubmitProfile` | app.py:33-53 | the form exists only for a hairstylist; a profile row is appended exactly when the form was submitted with an image that passes CheckUpload; otherwise nothing is written |
| `App.Session.Browse` | app.py:56-70 | only a client sees the filtered stylists; the first pressed button sets stylist_id to that row's id and starts the booking; with no press the session is unchanged |
| `App.TimeText` | app.py:79 | the time written for a booking has the form "HH:MM:00" |
| `App.TimeTextRoundTrip` | app.py:79 | reading the written time text back gives the widget's time, so distinct times are written as distinct texts |
| `App.Bind` | app.py:84 | sqlite3 binds a text parameter as itself and fails exactly on a `datetime.time` parameter |
| `App.Session.ConfirmBookingAsWritten` | app.py:73-85 | as written, during a booking the stylist is looked up and priced by BookingPrice; a confirmation fails to bind the time and writes no booking; no booking is ever written |
| `App.Session.ConfirmBooking` | app.py:73-85 | with the time passed as text: during a booking, the stylist is looked up and priced by BookingPrice; on confirmation one pending booking is appended for the session's user and stylist at that price and time text; otherwise no booking is written; the profile tables are untouched, so earlier booking prices never change |
| `App.RegisterUserNoPrecheck` | app.py:151-155 | with no pre-check, the UNIQUE constraint rejects a taken username and leaves `users` unchanged; otherwise exactly one user is appended |

## Findings

| source | as written | input that shows it | evidently intended | confidence | as-written member | corrected member |
|---|---|---|---|---|---|---|
| model.py:86 | `bcrypt.hashpw` returns `bytes`, which sqlite3 stores as a BLOB even in the TEXT column `password` (model.py:74-77). The BLOB reads back as `bytes`, and `user['password'].encode('utf-8')` then raises AttributeError. | register "alice" with "pw1", then log in as "alice" with "pw1" (any password gives the same error) | pass the stored hash to `checkpw` as it is; the login then succeeds exactly with the registered password | high; not executed | `Model.LoginUserAsWritten`, `Model.RegisteredUserCannotLogInAsWritten` | `Model.LoginUser`, `Model.LoginAfterRegister`, `App.Session.Login` |
| app.py:79, app.py:84 | `st.time_input` returns a `datetime.time`, and app.py:84 passes it to the INSERT of `add_booking` (app.py:187-191). Python's sqlite3 has default adapters for `datetime.date` and `datetime.datetime` only, so binding the time raises ProgrammingError (InterfaceError before Python 3.11). | log in as a client, press "Book" on a stylist, pick any time, press "Confirm Booking" | pass the time as text, e.g. `time.isoformat()`; one pending booking is then written | high; not executed | `App.Session.ConfirmBookingAsWritten` | `App.Session.ConfirmBooking`, `App.TimeText`, `App.TimeTextRoundTrip` |

## Left out

- The sqlite3 connection, the shared global cursor, `check_same_thread=False` and `commit()` are not modelled. They are I/O and concurrency plumbing. The tables are in-memory sequences, and each operation runs alone.
- `Hashing.Hash` does not model bcrypt's cost factor, its random salt or its 72-byte rule. bcrypt reads only the first 72 bytes of the UTF-8 password: older pyca/bcrypt releases silently truncate a longer password, and newer ones make `hashpw` raise ValueError, outside the `try` of model.py:75. In the model the salt is a parameter, passwords of any length are hashed whole, and distinct passwords never check against the same digest.
- `Model.LoginAfterRegister`: "any other password gives None" holds for bcrypt only when the passwords differ within their first 72 UTF-8 bytes; the model does not capture that rule (see `Hashing.Hash`).
- REAL prices and ratings are integers. Floating-point rounding is not modelled.
- `Model.FilterByLocation` does not model `%` and `_` inside the filter text. It also does not model case folding beyond ASCII, since SQLite's LIKE folds ASCII letters only.
- SQL NULL values (a NULL username, location or user_type) are not modelled. Every column value is a string or a number.
- Streamlit rendering is not modelled: titles, subheaders, `st.image`, form widgets, success and error messages, and the error Streamlit raises when two "Book" buttons share a label.
- The `reviews` table is not modelled. It is created but no code writes it.
- Booking status transitions, one-profile-per-owner upsert and referential checks are not modelled, because the code has none of them.
- `Model.Database.RegisterUser`: `storageFault` stands for an sqlite3.Error raised by the INSERT for reasons outside the tables. The only error the tables could cause, a UNIQUE conflict, cannot happen after the pre-check when operations run one at a time.
- `App.Session.ConfirmBooking`: `StylistMissing` stands for the TypeError the script raises at app.py:77 when the stylist row is missing.
- `App.Session.Browse` takes one button press per listed stylist, in list order. It requires as many presses as there are listed rows.
- The `user_type` strings are compared as the script compares them. Registration takes any user_type string, as the code does.
- `App.Session.Login` does not model logout, because the app has none.
- `App.Session.Login` runs over the corrected login `Model.LoginUser`. Over the login as written (`Model.LoginUserAsWritten`), app.py:21 raises for every user that `register_user` stored, so app.py:23-25 never run.
- `App.Session.ConfirmBooking` models the booking form with the time passed as text. As written, confirmation fails to bind the time and writes nothing; that is `App.Session.ConfirmBookingAsWritten`.
