/** The e-mail confirmation views (sitegate/views.py): `verify_email` and
    `generic_confirmation`, as their decisions on the confirmation table,
    the messages they record and the address they redirect to. */
module Views {
  import opened Common
  import opened Models

  /** A message recorded with the messages framework: the verify-email
      success or error text, or the messages of a `ValidationError` raised by
      a receiver of `sig_generic_confirmation_received`. */
  datatype Message = VerifySuccess | VerifyError | Invalid(messages: seq<string>)

  /** The view's answer: a redirect, a 404, or an exception that escapes
      (the `KeyError` of a decrypted payload without `email`). */
  datatype Reply = Redirect(url: string) | NotFound | KeyError

  /** The confirmation table after row `idx` is expired and stamped. */
  function ExpireRow(rows: seq<EmailConfirmation>, idx: nat, now: int): (r: seq<EmailConfirmation>)
    requires idx < |rows|
    ensures |r| == |rows| && r[idx].user == rows[idx].user && r[idx].state.code == rows[idx].state.code
    ensures r[idx].state.expired && r[idx].state.timeAccepted == Some(now)
    ensures forall i :: 0 <= i < |rows| && i != idx ==> r[i] == rows[i]
  {
    rows[idx := rows[idx].(state := rows[idx].state.(expired := true, timeAccepted := Some(now)))]
  }

  /** The users table after the confirmation's user is activated. */
  function ActivateUser(users: seq<User>, id: nat): (r: seq<User>)
    requires IsUser(users, id)
    ensures |r| == |users| && r[id - 1].isActive
    ensures r[id - 1] == users[id - 1].(isActive := true)
    ensures forall i :: 0 <= i < |users| && i != id - 1 ==> r[i] == users[i]
  {
    users[id - 1 := users[id - 1].(isActive := true)]
  }

  /** Once the only live row of a code is expired, the code is no longer
      valid, and every other code keeps its validity. */
  lemma ExpiredCodeInvalid(rows: seq<EmailConfirmation>, code: string, now: int)
    requires IsValid(ConfirmationStates(rows), code).Some?
    ensures var idx := IsValid(ConfirmationStates(rows), code).value;
      IsValid(ConfirmationStates(ExpireRow(rows, idx, now)), code).None? &&
      forall c :: c != code ==>
        IsValid(ConfirmationStates(ExpireRow(rows, idx, now)), c) == IsValid(ConfirmationStates(rows), c)
  {
    var before := ConfirmationStates(rows);
    var idx := IsValid(before, code).value;
    var after := ConfirmationStates(ExpireRow(rows, idx, now));
    assert forall i :: Live(after, code, i) ==> Live(before, code, i) && i != idx;
    forall c | c != code
      ensures IsValid(after, c) == IsValid(before, c)
    {
      assert forall i :: Live(after, c, i) <==> Live(before, c, i);
      LiveFromSame(after, before, c, 0);
    }
  }

  /** `verify_email`'s target: `redirect_to`, or `/` when it is not given. */
  function VerifyRedirect(redirectTo: Option<string>): (url: string)
    ensures redirectTo.None? ==> url == "/"
    ensures redirectTo.Some? ==> url == redirectTo.value
  {
    match redirectTo case Some(u) => u case None => "/"
  }

  /** `verify_email(request, code, redirect_to)`: a valid code (exactly one
      unexpired row) is activated and a success message recorded; any other
      code records the error message and changes nothing. */
  method VerifyEmail(db: Db, code: string, redirectTo: Option<string>, now: int)
    returns (reply: Reply, message: Message)
    requires db.Valid()
    modifies db`confirmations, db`users
    ensures db.Valid()
    ensures reply == Redirect(VerifyRedirect(redirectTo))
    ensures var v := IsValid(ConfirmationStates(old(db.confirmations)), code);
      (message == VerifySuccess <==> v.Some?) && (message == VerifyError <==> v.None?) &&
      (v.None? ==> db.confirmations == old(db.confirmations) && db.users == old(db.users)) &&
      (v.Some? ==> db.confirmations == ExpireRow(old(db.confirmations), v.value, now) &&
                   db.users == ActivateUser(old(db.users), old(db.confirmations)[v.value].user))
  {
    var valid := IsValid(ConfirmationStates(db.confirmations), code);
    if valid.Some? {
      db.Activate(valid.value, now);
      message := VerifySuccess;
    } else {
      message := VerifyError;
    }
    reply := Redirect(VerifyRedirect(redirectTo));
  }

  /** A code is good for one verification only: verifying it a second time
      records the error message and leaves the tables as the first left them. */
  method VerifyTwice(db: Db, code: string, redirectTo: Option<string>, now: int, later: int)
    returns (first: Message, second: Message)
    requires db.Valid()
    modifies db`confirmations, db`users
    ensures second == VerifyError
    ensures first == VerifySuccess <==> IsValid(ConfirmationStates(old(db.confirmations)), code).Some?
  {
    var valid := IsValid(ConfirmationStates(db.confirmations), code);
    var reply;
    reply, first := VerifyEmail(db, code, redirectTo, now);
    if valid.Some? {
      ExpiredCodeInvalid(old(db.confirmations), code, now);
    }
    reply, second := VerifyEmail(db, code, redirectTo, later);
  }

  /** `get_object_or_404(EmailConfirmation, code=code)`: the row with the
      code, expired or not. */
  function RowWithCode(rows: seq<CodeState>, code: string): (r: Option<nat>)
    ensures r.Some? <==> code in Codes(rows)
    ensures r.Some? ==> r.value < |rows| && rows[r.value].code == code
    ensures r.Some? ==> forall j :: 0 <= j < r.value ==> rows[j].code != code
  {
    if |rows| == 0 then None
    else if rows[|rows| - 1].code == code && code !in Codes(rows[..|rows| - 1]) then Some(|rows| - 1)
    else
      var r := RowWithCode(rows[..|rows| - 1], code);
      assert Codes(rows) == Codes(rows[..|rows| - 1]) + [rows[|rows| - 1].code];
      r
  }

  /** A string value Python treats as true: present and non-empty. */
  predicate TruthyText(s: Option<string>)
  {
    s.Some? && s.value != ""
  }

  /** The `or` chain of the redirect target: the decrypted `redirect_to`,
      then the view's argument, then `/`; an empty string is skipped. */
  function ConfirmationRedirect(data: ODict<string>, redirectTo: Option<string>): (url: string)
    ensures TruthyText(Get(data, "redirect_to")) ==> url == Get(data, "redirect_to").value
    ensures !TruthyText(Get(data, "redirect_to")) && TruthyText(redirectTo) ==> url == redirectTo.value
    ensures !TruthyText(Get(data, "redirect_to")) && !TruthyText(redirectTo) ==> url == "/"
    ensures url != ""
  {
    var fromData := Get(data, "redirect_to");
    if fromData.Some? && fromData.value != "" then fromData.value
    else if redirectTo.Some? && redirectTo.value != "" then redirectTo.value
    else "/"
  }

  /** Whether `generic_confirmation` activates the row: only for the
      verify-email domain, when the decrypted e-mail is the user's and the
      row is unexpired. */
  predicate ActivatesRow(domain: string, verifyDomain: string, data: ODict<string>,
                         row: EmailConfirmation, users: seq<User>)
    requires IsUser(users, row.user)
  {
    domain == verifyDomain && Get(data, "email").Some? &&
    Get(data, "email").value == users[row.user - 1].email && !row.state.expired
  }

  /** `generic_confirmation(request, confirmation_domain, code, encrypted_data, redirect_to)`.
      `decrypt` is the row's `decrypt_data` (`None` for a bad signature);
      `signal` is what the receivers of the signal raise (`Some` messages of
      a `ValidationError`); `verifyDomain` is the setting
      `SIGNUP_VERIFY_EMAIL_GENERIC_VIEW_DOMAIN_ARG`. */
  method GenericConfirmation(db: Db, domain: string, code: string, encrypted: string,
                             redirectTo: Option<string>, now: int, verifyDomain: string,
                             decrypt: (EmailConfirmation, string) -> Option<ODict<string>>,
                             signal: (string, EmailConfirmation, ODict<string>) -> Option<seq<string>>)
    returns (reply: Reply, messages: seq<Message>)
    requires db.Valid()
    modifies db`confirmations, db`users
    ensures db.Valid()
    ensures var found := RowWithCode(ConfirmationStates(old(db.confirmations)), code);
      found.None? ==> reply == NotFound && messages == [] && unchanged(db)
    ensures var found := RowWithCode(ConfirmationStates(old(db.confirmations)), code);
      found.Some? ==>
        var row := old(db.confirmations)[found.value];
        var data := decrypt(row, encrypted);
        (data.None? ==> reply == NotFound && messages == [] && unchanged(db)) &&
        (data.Some? ==>
          var signalled := match signal(domain, row, data.value)
            case Some(ms) => [Invalid(ms)] case None => [];
          (domain != verifyDomain ==>
            reply == Redirect(ConfirmationRedirect(data.value, redirectTo)) &&
            messages == signalled && unchanged(db)) &&
          (domain == verifyDomain && Get(data.value, "email").None? ==>
            reply == KeyError && messages == signalled && unchanged(db)) &&
          (domain == verifyDomain && Get(data.value, "email").Some? ==>
            reply == Redirect(ConfirmationRedirect(data.value, redirectTo)) &&
            (ActivatesRow(domain, verifyDomain, data.value, row, old(db.users)) ==>
              messages == signalled + [VerifySuccess] &&
              db.confirmations == ExpireRow(old(db.confirmations), found.value, now) &&
              db.users == ActivateUser(old(db.users), row.user)) &&
            (!ActivatesRow(domain, verifyDomain, data.value, row, old(db.users)) ==>
              messages == signalled + [VerifyError] && unchanged(db))))
  {
    var found := RowWithCode(ConfirmationStates(db.confirmations), code);
    if found.None? {
      return NotFound, [];
    }
    var idx := found.value;
    var row := db.confirmations[idx];
    assert IsUser(db.users, row.user);
    var data := decrypt(row, encrypted);
    if data.None? {
      return NotFound, [];
    }
    messages := [];
    var raised := signal(domain, row, data.value);
    if raised.Some? {
      messages := messages + [Invalid(raised.value)];
    }
    if domain == verifyDomain {
      var email := Get(data.value, "email");
      if email.None? {
        return KeyError, messages;
      }
      if email.value == db.users[row.user - 1].email && !row.state.expired {
        db.Activate(idx, now);
        messages := messages + [VerifySuccess];
      } else {
        messages := messages + [VerifyError];
      }
    }
    reply := Redirect(ConfirmationRedirect(data.value, redirectTo));
  }
}
