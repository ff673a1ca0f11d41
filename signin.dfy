/** Sign in flows: `SigninFlow` (sitegate/signin_flows/base.py) and the
    modern sign in form's e-mail login (sitegate/signin_flows/modern.py). */
module Signin {
  import opened Common
  import opened Forms
  import opened Models
  import opened Flows

  /** The two bundled sign in flow classes; `FlowsBase` leaves `enabled` and
      `disabled_text` unset. */
  const ClassicSignin := FlowClass("ClassicSignin", Signin, Some(ClassicSigninForm), [], None, None)
  const ModernSignin := FlowClass("ModernSignin", Signin, Some(ModernSigninForm), [], None, None)

  /** `SigninFlow.handle_form_valid`: returns nothing. */
  function HandleFormValid(form: Form): Option<Response>
  {
    None
  }

  /** A sign in flow never answers by itself: `respond_for` registers its form
      under `signin_forms` and calls the view (unless the template name is
      broken), and the sign up forms of the request stay as they were. */
  lemma SigninAlwaysProceeds(cls: FlowClass, flowArgs: ODict<Arg>, isPost: bool, post: ODict<string>,
                             sg: Option<Sitegate>, valid: Form -> bool)
    requires cls.flowType == Signin && cls.form.Some? && ArgsTyped(flowArgs)
    ensures var s := RespondStep(cls, flowArgs, isPost, post, sg, valid, HandleFormValid);
      s.Answer? <==> RequestedForm(cls, flowArgs, isPost, post).None?
    ensures var s := RespondStep(cls, flowArgs, isPost, post, sg, valid, HandleFormValid);
      s.Proceed? ==> Get(s.sitegate, FormsKey(Signin)).Some?
    ensures var s := RespondStep(cls, flowArgs, isPost, post, sg, valid, HandleFormValid);
      s.Proceed? ==> Get(s.sitegate, FormsKey(Signup)) == if sg.None? then None else Get(sg.value, FormsKey(Signup))
  {
    RespondStepSpec(cls, flowArgs, isPost, post, sg, valid, HandleFormValid);
    var f := RequestedForm(cls, flowArgs, isPost, post);
    if f.Some? {
      FormsKeysDiffer();
      RegisteredSpec(sg, Signin, cls.name, f.value, FormsKey(Signup));
    }
  }

  // ---------------------------------------------------------------------
  // E-mail login

  /** The users whose e-mail equals `login` ignoring case
      (`filter(email__iexact=login)`), in table order. */
  function EmailMatches(users: seq<User>, login: string): seq<User>
  {
    if |users| == 0 then []
    else if IEquals(users[0].email, login) then [users[0]] + EmailMatches(users[1..], login)
    else EmailMatches(users[1..], login)
  }

  /** No user has that e-mail: nothing matches. */
  lemma {:induction false} EmailMatchesNone(users: seq<User>, login: string)
    requires forall j :: 0 <= j < |users| ==> !IEquals(users[j].email, login)
    ensures EmailMatches(users, login) == []
  {
    if |users| > 0 {
      EmailMatchesNone(users[1..], login);
    }
  }

  /** Exactly the user at `i` has that e-mail: it is the only match. */
  lemma {:induction false} EmailMatchesOne(users: seq<User>, login: string, i: nat)
    requires i < |users| && IEquals(users[i].email, login)
    requires forall j :: 0 <= j < |users| && j != i ==> !IEquals(users[j].email, login)
    ensures EmailMatches(users, login) == [users[i]]
  {
    if i == 0 {
      EmailMatchesNone(users[1..], login);
    } else {
      EmailMatchesOne(users[1..], login, i - 1);
    }
  }

  /** Two users at `i < j` have that e-mail: there are at least two matches. */
  lemma {:induction false} EmailMatchesTwo(users: seq<User>, login: string, i: nat, j: nat)
    requires i < j < |users| && IEquals(users[i].email, login) && IEquals(users[j].email, login)
    ensures |EmailMatches(users, login)| >= 2
  {
    if i == 0 {
      EmailMatchesSome(users[1..], login, j - 1);
    } else {
      EmailMatchesTwo(users[1..], login, i - 1, j - 1);
    }
  }

  /** Some user has that e-mail: there is a match. */
  lemma {:induction false} EmailMatchesSome(users: seq<User>, login: string, i: nat)
    requires i < |users| && IEquals(users[i].email, login)
    ensures |EmailMatches(users, login)| >= 1
  {
    if i > 0 && !IEquals(users[0].email, login) {
      EmailMatchesSome(users[1..], login, i - 1);
    }
  }

  /** Whether `clean` looks the login up as an e-mail: a username and a
      password were entered and the username holds `@`. */
  predicate EmailShaped(cleaned: ODict<string>)
  {
    Get(cleaned, "username").Some? && Get(cleaned, "username").value != "" &&
    Get(cleaned, "password").Some? && Get(cleaned, "password").value != "" &&
    '@' in Get(cleaned, "username").value
  }

  const AmbiguousEmail := "There is more than one user with this e-mail. Please use your username to log in."

  /** `ModernSigninForm.clean`, before the parent's authentication: an
      e-mail-shaped login that matches exactly one user's e-mail is replaced by
      that user's username. */
  function ResolveLogin(users: seq<User>, cleaned: ODict<string>): (r: Cleaned<ODict<string>>)
  {
    if EmailShaped(cleaned) then
      var m := EmailMatches(users, Get(cleaned, "username").value);
      if |m| == 1 then Accepted(Put(cleaned, "username", m[0].username))
      else if |m| > 1 then Rejected(AmbiguousEmail)
      else Accepted(cleaned)
    else Accepted(cleaned)
  }

  /** Exactly one user with that e-mail: the login becomes that user's
      username, and every other entry of the cleaned data is kept. */
  lemma ResolveLoginUnique(users: seq<User>, cleaned: ODict<string>, i: nat)
    requires EmailShaped(cleaned)
    requires i < |users| && IEquals(users[i].email, Get(cleaned, "username").value)
    requires forall j :: 0 <= j < |users| && j != i ==> !IEquals(users[j].email, Get(cleaned, "username").value)
    ensures ResolveLogin(users, cleaned).Accepted?
    ensures Get(ResolveLogin(users, cleaned).value, "username") == Some(users[i].username)
    ensures forall k :: k != "username" ==> Get(ResolveLogin(users, cleaned).value, k) == Get(cleaned, k)
  {
    EmailMatchesOne(users, Get(cleaned, "username").value, i);
    PutGet(cleaned, "username", users[i].username);
    forall k | k != "username"
      ensures Get(ResolveLogin(users, cleaned).value, k) == Get(cleaned, k)
    {
      PutOther(cleaned, "username", users[i].username, k);
    }
  }

  /** Two users with that e-mail: the form is invalid. */
  lemma ResolveLoginAmbiguous(users: seq<User>, cleaned: ODict<string>, i: nat, j: nat)
    requires EmailShaped(cleaned)
    requires i < j < |users|
    requires IEquals(users[i].email, Get(cleaned, "username").value) && IEquals(users[j].email, Get(cleaned, "username").value)
    ensures ResolveLogin(users, cleaned) == Rejected(AmbiguousEmail)
  {
    EmailMatchesTwo(users, Get(cleaned, "username").value, i, j);
  }

  /** No match, a login without `@`, or a missing username or password: the
      cleaned data is kept as typed. */
  lemma ResolveLoginUnchanged(users: seq<User>, cleaned: ODict<string>)
    requires !EmailShaped(cleaned) ||
             forall j :: 0 <= j < |users| ==> !IEquals(users[j].email, Get(cleaned, "username").value)
    ensures ResolveLogin(users, cleaned) == Accepted(cleaned)
  {
    if EmailShaped(cleaned) {
      EmailMatchesNone(users, Get(cleaned, "username").value);
    }
  }
}
