/** The sign up flows built on `FlowsBase` (sitegate/signup_flows/classic.py
    and sitegate/signup_flows/modern.py): the field validators, the flow
    arguments `verify_email` forces, the verification mail, and the user each
    flow creates.  The user table is `Db.users`; the framework's
    `authenticate` is `Authenticate` over that table. */
module Signup {
  import opened Common
  import opened Forms
  import opened Models
  import opened Flows

  /** The class attributes of the e-mail flows: `validate_email_domain = True`,
      `verify_email = False`. */
  const WithEmailAttrs: ODict<Arg> := [("validate_email_domain", Flag(true)), ("verify_email", Flag(false))]

  const ClassicSignup := FlowClass("ClassicSignup", Signup, Some(ClassicSignupForm), [], None, None)
  const SimpleClassicSignup := FlowClass("SimpleClassicSignup", Signup, Some(SimpleClassicSignupForm), [], None, None)
  const ClassicWithEmailSignup :=
    FlowClass("ClassicWithEmailSignup", Signup, Some(ClassicWithEmailSignupForm), WithEmailAttrs, None, None)
  const SimpleClassicWithEmailSignup :=
    FlowClass("SimpleClassicWithEmailSignup", Signup, Some(SimpleClassicWithEmailSignupForm), WithEmailAttrs, None, None)
  const ModernSignup := FlowClass("ModernSignup", Signup, Some(ModernSignupForm), WithEmailAttrs, None, None)
  const InvitationSignup := FlowClass("InvitationSignup", Signup, Some(InvitationSignupForm), WithEmailAttrs, None, None)

  // ---------------------------------------------------------------------
  // Validators

  const DuplicateUsername := "A user with that username already exists."
  const DomainNotAllowed := "Sign Up with this email domain is not allowed."
  const DuplicateEmail := "A user with that e-mail already exists."
  const InvalidCode := "This invitation code is invalid."

  /** `ClassicSignupForm.clean_username`: a username some user already has is
      refused, any other is kept as typed. */
  function CleanUsername(users: seq<User>, username: string): (r: Cleaned<string>)
    ensures r.Accepted? <==> !UsernameTaken(users, username)
    ensures r.Accepted? ==> r.value == username
    ensures r.Rejected? <==> UsernameTaken(users, username)
    ensures r.Rejected? ==> r.message == DuplicateUsername
  {
    if username in Usernames(users) then Rejected(DuplicateUsername) else Accepted(username)
  }

  /** `ClassicWithEmailSignupForm.clean_email`: when the flow's
      `validate_email_domain` is truthy the address is checked against the
      blacklist (an address without `@` makes that check raise). */
  function CleanEmail(blacklist: seq<BlacklistedDomain>, flowArgs: ODict<Arg>, cls: FlowClass, email: string)
    : (r: Cleaned<string>)
    ensures var validate := ArgTruthy(GetArgOrAttr(flowArgs, cls, "validate_email_domain", None));
      r.Rejected? <==> validate && '@' in email && Blacklisted(blacklist, email)
    ensures var validate := ArgTruthy(GetArgOrAttr(flowArgs, cls, "validate_email_domain", None));
      r.Raised? <==> validate && '@' !in email
    ensures r.Accepted? ==> r.value == email
    ensures r.Rejected? ==> r.message == DomainNotAllowed
  {
    if ArgTruthy(GetArgOrAttr(flowArgs, cls, "validate_email_domain", None)) then
      if '@' !in email then Raised
      else if Blacklisted(blacklist, email) then Rejected(DomainNotAllowed)
      else Accepted(email)
    else Accepted(email)
  }

  /** Some user's e-mail equals `email` ignoring case (`filter(email__iexact=email)`). */
  predicate EmailTaken(users: seq<User>, email: string)
  {
    exists i :: 0 <= i < |users| && IEquals(users[i].email, email)
  }

  /** `ModernSignupForm.clean_email`: the parent's check first, then an
      address some user already has, in any case, is refused. */
  function ModernCleanEmail(users: seq<User>, blacklist: seq<BlacklistedDomain>, flowArgs: ODict<Arg>,
                            cls: FlowClass, email: string): (r: Cleaned<string>)
  {
    match CleanEmail(blacklist, flowArgs, cls, email)
    case Accepted(e) => if EmailTaken(users, e) then Rejected(DuplicateEmail) else Accepted(e)
    case other => other
  }

  /** The modern check keeps every verdict of the parent's and adds exactly
      the case-insensitive duplicates. */
  lemma ModernCleanEmailSpec(users: seq<User>, blacklist: seq<BlacklistedDomain>, flowArgs: ODict<Arg>,
                             cls: FlowClass, email: string)
    ensures var parent := CleanEmail(blacklist, flowArgs, cls, email);
      var r := ModernCleanEmail(users, blacklist, flowArgs, cls, email);
      r.Accepted? <==> parent.Accepted? && !EmailTaken(users, email)
    ensures var parent := CleanEmail(blacklist, flowArgs, cls, email);
      !parent.Accepted? ==> ModernCleanEmail(users, blacklist, flowArgs, cls, email) == parent
    ensures ModernCleanEmail(users, blacklist, flowArgs, cls, email).Accepted? ==>
      ModernCleanEmail(users, blacklist, flowArgs, cls, email).value == email
  {
  }

  /** A user whose e-mail differs from the typed one only in case makes the
      modern check refuse it. */
  lemma ModernCleanEmailIgnoresCase(users: seq<User>, blacklist: seq<BlacklistedDomain>, flowArgs: ODict<Arg>,
                                    cls: FlowClass, email: string, i: nat)
    requires i < |users| && Lower(users[i].email) == Lower(email)
    requires CleanEmail(blacklist, flowArgs, cls, email).Accepted?
    ensures ModernCleanEmail(users, blacklist, flowArgs, cls, email) == Rejected(DuplicateEmail)
  {
    assert IEquals(users[i].email, email);
  }

  /** The modern check looks at e-mails only, while `ModernSignup.add_user`
      saves the address as the username: an address that no user has as an
      e-mail but some user has as a username passes the form and then makes
      the insert fail. */
  lemma ModernCleanEmailAdmitsTakenUsername(users: seq<User>, blacklist: seq<BlacklistedDomain>,
                                            flowArgs: ODict<Arg>, cls: FlowClass, data: SignupData, i: nat)
    requires i < |users| && users[i].username == data.email
    requires CleanEmail(blacklist, flowArgs, cls, data.email).Accepted? && !EmailTaken(users, data.email)
    ensures ModernCleanEmail(users, blacklist, flowArgs, cls, data.email) == Accepted(data.email)
    ensures UsernameTaken(users, ModernUser(data).username)
  {
    assert Usernames(users)[i] == users[i].username;
  }

  /** `InvitationSignupForm.clean_code`: a code `InvitationCode.is_valid`
      does not accept is refused. */
  function CleanCode(invitations: seq<InvitationCode>, code: string): (r: Cleaned<string>)
    ensures r.Accepted? <==> IsValid(InvitationStates(invitations), code).Some?
    ensures r.Accepted? ==> r.value == code
    ensures r.Rejected? ==> r.message == InvalidCode
    ensures !r.Raised?
  {
    if IsValid(InvitationStates(invitations), code).None? then Rejected(InvalidCode) else Accepted(code)
  }

  /** With unique codes, a code passes exactly when a row has it unexpired. */
  lemma CleanCodeUnique(invitations: seq<InvitationCode>, code: string)
    requires UniqueCodes(InvitationStates(invitations))
    ensures CleanCode(invitations, code).Accepted? <==>
      exists i :: 0 <= i < |invitations| && invitations[i].state.code == code && !invitations[i].state.expired
  {
    IsValidUnique(InvitationStates(invitations), code);
    if exists i :: 0 <= i < |invitations| && invitations[i].state.code == code && !invitations[i].state.expired {
      var i :| 0 <= i < |invitations| && invitations[i].state.code == code && !invitations[i].state.expired;
      assert Live(InvitationStates(invitations), code, i);
    }
  }

  // ---------------------------------------------------------------------
  // ClassicWithEmailSignup.__init__

  /** The flow's `verify_email`, argument first, class attribute next. */
  predicate VerifiesEmail(cls: FlowClass, kwargs: ODict<Arg>)
  {
    ArgTruthy(GetArgOrAttr(kwargs, cls, "verify_email", None))
  }

  /** The `flow_args` the constructor leaves: a verifying flow switches
      `activate_user` and `auto_signin` off. */
  function WithEmailFlowArgs(cls: FlowClass, kwargs: ODict<Arg>): (r: ODict<Arg>)
  {
    if VerifiesEmail(cls, kwargs) then Put(Put(kwargs, "activate_user", Flag(false)), "auto_signin", Flag(false))
    else kwargs
  }

  /** A verifying flow keeps every argument it was given except
      `activate_user` and `auto_signin`, which become false; any other flow
      keeps its arguments as given. */
  lemma WithEmailFlowArgsSpec(cls: FlowClass, kwargs: ODict<Arg>, k: string)
    ensures VerifiesEmail(cls, kwargs) ==>
      Get(WithEmailFlowArgs(cls, kwargs), "activate_user") == Some(Flag(false)) &&
      Get(WithEmailFlowArgs(cls, kwargs), "auto_signin") == Some(Flag(false))
    ensures VerifiesEmail(cls, kwargs) && k != "activate_user" && k != "auto_signin" ==>
      Get(WithEmailFlowArgs(cls, kwargs), k) == Get(kwargs, k)
    ensures !VerifiesEmail(cls, kwargs) ==> WithEmailFlowArgs(cls, kwargs) == kwargs
  {
    var a := Put(kwargs, "activate_user", Flag(false));
    PutGet(a, "auto_signin", Flag(false));
    PutOther(a, "auto_signin", Flag(false), "activate_user");
    PutGet(kwargs, "activate_user", Flag(false));
    if k != "activate_user" && k != "auto_signin" {
      PutOther(a, "auto_signin", Flag(false), k);
      PutOther(kwargs, "activate_user", Flag(false), k);
    }
  }

  /** The class defaults: without a `verify_email` argument the e-mail flows
      validate the domain and do not verify; `verify_email=True` verifies. */
  lemma WithEmailDefaults(kwargs: ODict<Arg>)
    requires "verify_email" !in Keys(kwargs) && "validate_email_domain" !in Keys(kwargs)
    ensures !VerifiesEmail(ClassicWithEmailSignup, kwargs)
    ensures ArgTruthy(GetArgOrAttr(kwargs, ClassicWithEmailSignup, "validate_email_domain", None))
    ensures WithEmailFlowArgs(ClassicWithEmailSignup, kwargs) == kwargs
    ensures VerifiesEmail(ClassicWithEmailSignup, Put(kwargs, "verify_email", Flag(true)))
  {
    assert Keys(WithEmailAttrs) == ["validate_email_domain", "verify_email"];
    ArgOverridesAttr(kwargs, ClassicWithEmailSignup, "verify_email", Flag(true), None);
  }

  /** The changed arguments keep `template` and `widget_attrs` as they were. */
  lemma WithEmailFlowArgsTyped(cls: FlowClass, kwargs: ODict<Arg>)
    requires ArgsTyped(kwargs)
    ensures ArgsTyped(WithEmailFlowArgs(cls, kwargs))
  {
    WithEmailFlowArgsSpec(cls, kwargs, "template");
    WithEmailFlowArgsSpec(cls, kwargs, "widget_attrs");
  }

  /** `ClassicWithEmailSignup(**kwargs)`: a verifying flow also installs its
      `schedule_email`. */
  method NewWithEmailFlow(cls: FlowClass, kwargs: ODict<Arg>) returns (flow: Flow)
    requires cls.form.Some?
    ensures fresh(flow) && flow.cls == cls
    ensures flow.flowArgs == WithEmailFlowArgs(cls, kwargs)
    ensures flow.scheduleEmail == VerifiesEmail(cls, kwargs)
  {
    flow := new Flow(cls, kwargs);
    if ArgTruthy(flow.ArgOrAttr("verify_email", None)) {
      flow.flowArgs := Put(flow.flowArgs, "activate_user", Flag(false));
      flow.flowArgs := Put(flow.flowArgs, "auto_signin", Flag(false));
      flow.scheduleEmail := true;
    }
  }

  // ---------------------------------------------------------------------
  // The verification mail

  /** `SIGNUP_VERIFY_EMAIL_TITLE`. */
  const VerifyEmailTitle := "Account activation"

  /** A scheduled message: its recipient (a user id), its subject, and the
      verification URL its body carries. */
  datatype Mail = Mail(to: nat, subject: string, url: string)

  /** A row `EmailConfirmation.add` creates for `user` at `now`. */
  predicate NewConfirmation(c: EmailConfirmation, user: nat, now: int)
  {
    c.user == user && c.state.timeCreated == now && c.state.timeAccepted.None? && !c.state.expired
  }

  /** `send_email(request, user)`: without `schedule_email` nothing happens;
      otherwise one confirmation with a fresh code is added for the user and
      one message with the configured title is scheduled, pointing at the
      absolute URL `verifyUrl` gives for the code. */
  method SendEmail(db: Db, flow: Flow, user: nat, now: int, uuids: seq<string>, verifyUrl: string -> string)
    returns (mail: Option<Mail>)
    requires db.Valid() && IsUser(db.users, user)
    requires flow.scheduleEmail ==>
      exists i :: 0 <= i < |uuids| && GenerateCode(uuids[i]) !in Codes(ConfirmationStates(db.confirmations))
    modifies db`confirmations
    ensures db.Valid()
    ensures !flow.scheduleEmail ==> mail.None? && db.confirmations == old(db.confirmations)
    ensures flow.scheduleEmail ==> |db.confirmations| == |old(db.confirmations)| + 1
    ensures flow.scheduleEmail ==>
      var c := db.confirmations[|old(db.confirmations)|];
      db.confirmations == old(db.confirmations) + [c] && NewConfirmation(c, user, now) &&
      c.state.code !in Codes(ConfirmationStates(old(db.confirmations))) &&
      mail == Some(Mail(user, VerifyEmailTitle, verifyUrl(c.state.code)))
  {
    if !flow.scheduleEmail {
      return None;
    }
    var code := db.AddConfirmation(user, now, uuids);
    mail := Some(Mail(user, VerifyEmailTitle, verifyUrl(code)));
  }

  /** The code a new confirmation carries is valid: the mailed link works. */
  lemma {:induction false} FreshCodeValid(rows: seq<CodeState>, s: CodeState)
    requires s.code !in Codes(rows) && !s.expired
    ensures IsValid(rows + [s], s.code) == Some(|rows|)
  {
    var after := rows + [s];
    assert forall j :: 0 <= j < |rows| ==> Codes(rows)[j] != s.code;
    assert Live(after, s.code, |rows|);
  }

  // ---------------------------------------------------------------------
  // Creating the user

  /** The cleaned data of a sign up form; a field the form lacks is `""`. */
  datatype SignupData = SignupData(username: string, email: string, password1: string, code: string)

  /** The unsaved user a flow's `add_user` builds (its id comes from the insert). */
  function NewUser(username: string, email: string, password: string): User
  {
    User(0, username, email, "", "", true, Raw(password))
  }

  /** `ClassicSignup.add_user`: `form.save()` of `UserCreationForm`. */
  function ClassicUser(data: SignupData): User
  {
    NewUser(data.username, "", data.password1)
  }

  /** `ClassicWithEmailSignup.add_user`: the typed e-mail is copied onto the user. */
  function WithEmailUser(data: SignupData): User
  {
    NewUser(data.username, data.email, data.password1)
  }

  /** `ModernSignup.add_user` for a user model whose `USERNAME_FIELD` is
      `username`: the e-mail is the username too. */
  function ModernUser(data: SignupData): User
  {
    NewUser(data.email, data.email, data.password1)
  }

  /** What each flow stores: the classic flow keeps no e-mail, the e-mail
      flows keep the typed one, the modern flow signs its users up under
      their e-mail, and every new user is active with the typed password. */
  lemma CreatedUsers(data: SignupData)
    ensures ClassicUser(data).username == data.username && ClassicUser(data).email == ""
    ensures WithEmailUser(data).username == data.username && WithEmailUser(data).email == data.email
    ensures ModernUser(data).username == ModernUser(data).email == data.email
    ensures forall u :: u in [ClassicUser(data), WithEmailUser(data), ModernUser(data)] ==>
      u.isActive && u.password == Raw(data.password1)
  {
  }

  /** `ClassicSignup.add_user`: the insert fails (`None`) only when the
      username is taken; that is the `IntegrityError` of `user.save()`,
      which nothing catches, so `None` stands for it escaping the request. */
  method ClassicAddUser(db: Db, data: SignupData) returns (user: Option<nat>)
    requires db.Valid()
    modifies db`users
    ensures db.Valid()
    ensures UsernameTaken(old(db.users), data.username) ==> user.None? && db.users == old(db.users)
    ensures !UsernameTaken(old(db.users), data.username) ==>
      user == Some(|old(db.users)| + 1) && db.users == old(db.users) + [ClassicUser(data).(id := |old(db.users)| + 1)]
  {
    user := db.InsertUser(ClassicUser(data));
    RefsValidGrow(|old(db.users)|, |db.users|, db.invitations, db.confirmations, db.remoteRecords);
  }

  /** The tables and the mail after `user.save()` of `u` followed, on
      success, by `send_email`: a taken username (the `IntegrityError` of the
      insert) leaves everything as it was; otherwise `u` is appended with the
      next id and, only when `schedule_email` is set, one confirmation with a
      fresh code is appended for it and its link mailed to it. */
  ghost predicate SavedAndMailed(users0: seq<User>, confs0: seq<EmailConfirmation>,
                                 users: seq<User>, confs: seq<EmailConfirmation>,
                                 u: User, scheduleEmail: bool, now: int, verifyUrl: string -> string,
                                 user: Option<nat>, mail: Option<Mail>)
  {
    (UsernameTaken(users0, u.username) ==>
      user.None? && mail.None? && users == users0 && confs == confs0) &&
    (!UsernameTaken(users0, u.username) ==>
      user == Some(|users0| + 1) && users == users0 + [u.(id := |users0| + 1)] &&
      (!scheduleEmail ==> mail.None? && confs == confs0) &&
      (scheduleEmail ==>
        |confs| == |confs0| + 1 &&
        var c := confs[|confs0|];
        confs == confs0 + [c] && NewConfirmation(c, |users0| + 1, now) &&
        c.state.code !in Codes(ConfirmationStates(confs0)) &&
        mail == Some(Mail(|users0| + 1, VerifyEmailTitle, verifyUrl(c.state.code)))))
  }

  /** Inserts `u` and, when that succeeds, calls `send_email` for the new user. */
  method SaveAndMail(db: Db, flow: Flow, u: User, now: int, uuids: seq<string>, verifyUrl: string -> string)
    returns (user: Option<nat>, mail: Option<Mail>)
    requires db.Valid()
    requires flow.scheduleEmail ==>
      exists i :: 0 <= i < |uuids| && GenerateCode(uuids[i]) !in Codes(ConfirmationStates(db.confirmations))
    modifies db`users, db`confirmations
    ensures db.Valid()
    ensures SavedAndMailed(old(db.users), old(db.confirmations), db.users, db.confirmations,
                           u, flow.scheduleEmail, now, verifyUrl, user, mail)
  {
    user := db.InsertUser(u);
    RefsValidGrow(|old(db.users)|, |db.users|, db.invitations, db.confirmations, db.remoteRecords);
    if user.None? {
      return None, None;
    }
    mail := SendEmail(db, flow, user.value, now, uuids, verifyUrl);
  }

  /** `ClassicWithEmailSignup.add_user`: the e-mail user is saved under the
      typed username, then `send_email` runs. A taken username is the
      `IntegrityError` of `user.save()`, which nothing catches: `None` here
      stands for that exception escaping the request. */
  method WithEmailAddUser(db: Db, flow: Flow, data: SignupData, now: int, uuids: seq<string>,
                          verifyUrl: string -> string) returns (user: Option<nat>, mail: Option<Mail>)
    requires db.Valid()
    requires flow.scheduleEmail ==>
      exists i :: 0 <= i < |uuids| && GenerateCode(uuids[i]) !in Codes(ConfirmationStates(db.confirmations))
    modifies db`users, db`confirmations
    ensures db.Valid()
    ensures user.None? <==> UsernameTaken(old(db.users), data.username)
    ensures SavedAndMailed(old(db.users), old(db.confirmations), db.users, db.confirmations,
                           WithEmailUser(data), flow.scheduleEmail, now, verifyUrl, user, mail)
  {
    user, mail := SaveAndMail(db, flow, WithEmailUser(data), now, uuids, verifyUrl);
  }

  /** `ModernSignup.add_user`: the modern user is saved under its e-mail,
      then `send_email` runs. As for the e-mail flow, `None` stands for the
      uncaught `IntegrityError` of a taken username. */
  method ModernAddUser(db: Db, flow: Flow, data: SignupData, now: int, uuids: seq<string>,
                       verifyUrl: string -> string) returns (user: Option<nat>, mail: Option<Mail>)
    requires db.Valid()
    requires flow.scheduleEmail ==>
      exists i :: 0 <= i < |uuids| && GenerateCode(uuids[i]) !in Codes(ConfirmationStates(db.confirmations))
    modifies db`users, db`confirmations
    ensures db.Valid()
    ensures user.None? <==> UsernameTaken(old(db.users), data.email)
    ensures SavedAndMailed(old(db.users), old(db.confirmations), db.users, db.confirmations,
                           ModernUser(data), flow.scheduleEmail, now, verifyUrl, user, mail)
  {
    user, mail := SaveAndMail(db, flow, ModernUser(data), now, uuids, verifyUrl);
  }

  /** `InvitationSignup.add_user`: the modern user is created, then the
      invitation code is accepted by that user, which spends it. */
  method InvitationAddUser(db: Db, flow: Flow, data: SignupData, now: int, uuids: seq<string>,
                           verifyUrl: string -> string) returns (user: Option<nat>, mail: Option<Mail>)
    requires db.Valid()
    requires flow.scheduleEmail ==>
      exists i :: 0 <= i < |uuids| && GenerateCode(uuids[i]) !in Codes(ConfirmationStates(db.confirmations))
    modifies db`users, db`confirmations, db`invitations
    ensures db.Valid()
    ensures user.None? <==> UsernameTaken(old(db.users), data.email)
    ensures SavedAndMailed(old(db.users), old(db.confirmations), db.users, db.confirmations,
                           ModernUser(data), flow.scheduleEmail, now, verifyUrl, user, mail)
    ensures user.None? ==> db.invitations == old(db.invitations)
    ensures user.Some? ==> db.invitations == AcceptRows(old(db.invitations), data.code, user.value, now)
    ensures user.Some? ==> IsValid(InvitationStates(db.invitations), data.code).None?
  {
    user, mail := ModernAddUser(db, flow, data, now, uuids, verifyUrl);
    if user.Some? {
      var n := db.AcceptInvitation(data.code, user.value, now);
      AcceptInvalidates(old(db.invitations), data.code, user.value, now);
    }
  }

  // ---------------------------------------------------------------------
  // Signing in after sign up

  /** The framework's `authenticate(username=..., password=...)` over the user
      table: the user with that username, when the password is theirs. */
  function Authenticate(users: seq<User>, username: string, password: string): (r: Option<User>)
  {
    if |users| == 0 then None
    else if users[0].username == username then
      if users[0].password == Raw(password) then Some(users[0]) else None
    else Authenticate(users[1..], username, password)
  }

  /** Authentication finds the user holding the username, and only with that
      user's password. */
  lemma {:induction false} AuthenticateSpec(users: seq<User>, username: string, password: string, i: nat)
    requires UsersValid(users) && i < |users| && users[i].username == username
    ensures Authenticate(users, username, password) ==
      if users[i].password == Raw(password) then Some(users[i]) else None
  {
    if i > 0 {
      AuthenticateShift(users, username, password, i);
    }
  }

  lemma {:induction false} AuthenticateShift(users: seq<User>, username: string, password: string, i: nat)
    requires 0 < i < |users| && users[i].username == username
    requires forall j :: 0 <= j < i ==> users[j].username != username
    ensures Authenticate(users, username, password) ==
      if users[i].password == Raw(password) then Some(users[i]) else None
  {
    if i > 1 {
      AuthenticateShift(users[1..], username, password, i - 1);
    }
  }

  /** `ClassicSignup.sign_in`: logs in with the username and `password1`. */
  function ClassicSignIn(authenticate: (string, string) -> Option<User>, data: SignupData): Option<nat>
  {
    LoginGeneric(authenticate, data.username, data.password1)
  }

  /** `ModernSignup.sign_in`: logs in with the e-mail and `password1`. */
  function ModernSignIn(authenticate: (string, string) -> Option<User>, data: SignupData): Option<nat>
  {
    LoginGeneric(authenticate, data.email, data.password1)
  }

  /** A user the modern flow just created signs in with the e-mail and
      password typed in the sign up form. */
  lemma ModernSignupThenSignIn(users: seq<User>, data: SignupData)
    requires UsersValid(users) && !UsernameTaken(users, data.email)
    ensures var after := users + [ModernUser(data).(id := |users| + 1)];
      ModernSignIn((u, p) => Authenticate(after, u, p), data) == Some(|users| + 1)
  {
    var after := users + [ModernUser(data).(id := |users| + 1)];
    assert UsersValid(after) by {
      forall i | 0 <= i < |users| ensures after[i].username != after[|users|].username {
        assert Usernames(users)[i] == users[i].username;
      }
    }
    AuthenticateSpec(after, data.email, data.password1, |users|);
  }

  /** A user the classic flows just created signs in with the username and
      password typed in the sign up form. */
  lemma ClassicSignupThenSignIn(users: seq<User>, data: SignupData)
    requires UsersValid(users) && !UsernameTaken(users, data.username)
    ensures var after := users + [ClassicUser(data).(id := |users| + 1)];
      ClassicSignIn((u, p) => Authenticate(after, u, p), data) == Some(|users| + 1)
    ensures var after := users + [WithEmailUser(data).(id := |users| + 1)];
      ClassicSignIn((u, p) => Authenticate(after, u, p), data) == Some(|users| + 1)
  {
    forall u | u in [ClassicUser(data), WithEmailUser(data)]
      ensures var after := users + [u.(id := |users| + 1)];
        LoginGeneric((n, p) => Authenticate(after, n, p), data.username, data.password1) == Some(|users| + 1)
    {
      var after := users + [u.(id := |users| + 1)];
      assert UsersValid(after) by {
        forall i | 0 <= i < |users| ensures after[i].username != after[|users|].username {
          assert Usernames(users)[i] == users[i].username;
        }
      }
      AuthenticateSpec(after, data.username, data.password1, |users|);
    }
    assert ClassicUser(data) in [ClassicUser(data), WithEmailUser(data)];
    assert WithEmailUser(data) in [ClassicUser(data), WithEmailUser(data)];
  }
}
