/** The two bundled remote services (sitegate/signin_flows/remotes/google.py and
    yandex.py): normalising the profile a service returned into `UserData`, and
    the authorization URL of the OAuth 2.0 implicit grant (section 4.2.1 of
    RFC 6749) that starts a sign in, with the local ticket as `state`.  The
    HTTP fetch and JSON decoding are not modelled: a profile arrives as a
    record whose absent keys are `None`. */
module Providers {
  import opened Common
  import opened Models
  import opened Remotes

  /** `value.get(key, '')`. */
  function OrEmpty(value: Option<string>): string
  {
    if value.Some? then value.value else ""
  }

  // ---------------------------------------------------------------------
  // Query strings

  /** `key=value`. */
  function Param(key: string, value: string): string
  {
    key + "=" + value
  }

  /** The parameters of a URL's query string, in order: the text after the
      first `?`, split at `&`, each part split at its first `=`. */
  function QueryParams(url: string): (ps: ODict<string>)
  {
    var parts := Split(After(url, '?'), '&');
    seq(|parts|, i requires 0 <= i < |parts| => (Before(parts[i], '='), After(parts[i], '=')))
  }

  /** A URL built as `base?k1=v1&k2=v2&...` yields exactly those parameters
      when no key holds `=` or `&`, no value holds `&` and the base has no `?`. */
  lemma QueryParamsOf(base: string, ps: seq<(string, string)>)
    requires '?' !in base && |ps| > 0
    requires forall i :: 0 <= i < |ps| ==> '=' !in ps[i].0 && '&' !in ps[i].0 && '&' !in ps[i].1
    ensures QueryParams(BuildUrl(base, ps)) == ps
  {
    var parts := seq(|ps|, i requires 0 <= i < |ps| => Param(ps[i].0, ps[i].1));
    var url := base + "?" + Join(parts, '&');
    PartitionConcat(base, Join(parts, '&'), '?');
    assert forall i :: 0 <= i < |parts| ==> '&' !in parts[i] by {
      forall i | 0 <= i < |parts|
        ensures '&' !in parts[i]
      {
        assert parts[i] == ps[i].0 + "=" + ps[i].1;
      }
    }
    SplitJoin(parts, '&');
    forall i | 0 <= i < |ps|
      ensures (Before(parts[i], '='), After(parts[i], '=')) == ps[i]
    {
      PartitionConcat(ps[i].0, ps[i].1, '=');
    }
  }

  // ---------------------------------------------------------------------
  // Google

  /** The documented keys of the profile Google returns. */
  datatype GoogleProfile = GoogleProfile(id: Option<string>, email: Option<string>, verifiedEmail: Option<bool>,
                                         givenName: Option<string>, familyName: Option<string>)

  /** `Google._get_user_data`: the `KeyError` of a missing `email`,
      `verified_email` or `id`, and the `ValueError` of an unverified address,
      all give no data. */
  function GoogleUserData(p: GoogleProfile): (r: Option<UserData>)
    ensures r.Some? <==> p.email.Some? && p.verifiedEmail == Some(true) && p.id.Some?
    ensures r.Some? ==> r.value.emails == [p.email.value] && r.value.remoteId == p.id.value
  {
    if p.email.None? || p.verifiedEmail != Some(true) || p.id.None? then None
    else
      var email := p.email.value;
      Some(UserData(LocalPart(email), p.id.value, [email], OrEmpty(p.givenName), OrEmpty(p.familyName)))
  }

  /** The username is what precedes the first `@`: together with the rest of
      the address it gives the address back. */
  lemma GoogleUsernameIsLocalPart(p: GoogleProfile)
    requires GoogleUserData(p).Some? && '@' in p.email.value
    ensures GoogleUserData(p).value.username + "@" + After(p.email.value, '@') == p.email.value
    ensures '@' !in GoogleUserData(p).value.username
  {
  }

  /** For Google data the first fallback of `construct_user` (the local part of
      the only e-mail) repeats the first attempt, so it always collides when
      that one did. */
  lemma GoogleFirstFallbackRepeats(p: GoogleProfile)
    requires GoogleUserData(p).Some?
    ensures Attempt(GoogleUserData(p).value, 1) == Attempt(GoogleUserData(p).value, 0)
  {
  }

  /** The profile used by the package's own sign-in test gives this data. */
  lemma GoogleSample()
    ensures GoogleUserData(GoogleProfile(Some("xx1"), Some("xx3@xx3"), Some(true), Some("xx4"), None))
            == Some(UserData("xx3", "xx1", ["xx3@xx3"], "xx4", ""))
    ensures GoogleUserData(GoogleProfile(Some("xx1"), Some("xx3@xx3"), Some(false), Some("xx4"), None)).None?
  {
    PartitionConcat("xx3", "xx3", '@');
    assert "xx3@xx3" == "xx3" + ['@'] + "xx3";
  }

  const GoogleAuthBase := "https://accounts.google.com/o/oauth2/v2/auth"
  const GoogleScope := "https://www.googleapis.com/auth/userinfo.email https://www.googleapis.com/auth/userinfo.profile"

  /** The parameters `Google.auth_start` writes into the URL, in order; `quote`
      is the URL-quoting function, applied to the absolute continue URL and to
      the scope. */
  function GoogleAuthParams(clientId: string, ticket: string, continueUrl: string,
                            quote: string -> string): seq<(string, string)>
  {
    [("response_type", "token"), ("client_id", clientId), ("state", ticket),
     ("redirect_uri", quote(continueUrl)), ("scope", quote(GoogleScope))]
  }

  /** `base?k1=v1&k2=v2&...`. */
  function BuildUrl(base: string, ps: seq<(string, string)>): string
    requires |ps| > 0
  {
    base + "?" + Join(seq(|ps|, i requires 0 <= i < |ps| => Param(ps[i].0, ps[i].1)), '&')
  }

  /** `Google.auth_start`: the redirect to Google's authorization endpoint. */
  function GoogleAuthStart(clientId: string, ticket: string, continueUrl: string,
                           quote: string -> string): (url: string)
  {
    Redirect(BuildUrl(GoogleAuthBase, GoogleAuthParams(clientId, ticket, continueUrl, quote)))
  }

  /** Google's authorization URL asks for a token, names the client, carries
      the ticket as `state` and the quoted continue URL and scope, and nothing else. */
  lemma GoogleAuthStartParams(clientId: string, ticket: string, continueUrl: string, quote: string -> string)
    requires '&' !in clientId && '&' !in ticket
    requires '&' !in quote(continueUrl) && '&' !in quote(GoogleScope)
    ensures QueryParams(GoogleAuthStart(clientId, ticket, continueUrl, quote)) ==
      [("response_type", "token"), ("client_id", clientId), ("state", ticket),
       ("redirect_uri", quote(continueUrl)), ("scope", quote(GoogleScope))]
  {
    var ps := GoogleAuthParams(clientId, ticket, continueUrl, quote);
    assert GoogleAuthStart(clientId, ticket, continueUrl, quote) == BuildUrl(GoogleAuthBase, ps);
    QueryParamsOf(GoogleAuthBase, ps);
  }

  // ---------------------------------------------------------------------
  // Yandex

  /** The documented keys of the profile Yandex returns. */
  datatype YandexProfile = YandexProfile(id: Option<string>, login: Option<string>, emails: Option<seq<string>>,
                                         firstName: Option<string>, lastName: Option<string>)

  /** `Yandex._get_user_data`: a missing `id`, `login` or `emails` is a
      `KeyError`, which gives no data. */
  function YandexUserData(p: YandexProfile): (r: Option<UserData>)
    ensures r.Some? <==> p.id.Some? && p.login.Some? && p.emails.Some?
  {
    if p.id.None? || p.login.None? || p.emails.None? then None
    else Some(UserData(p.login.value, p.id.value, p.emails.value, OrEmpty(p.firstName), OrEmpty(p.lastName)))
  }

  /** Yandex may return an empty `emails` list, which `_get_user_data`
      passes on; `construct_user` then finds no candidate and fails on
      `user_data.emails[0]`, so no user is signed in. */
  lemma YandexNoEmailRaises(p: YandexProfile, users: seq<User>)
    requires YandexUserData(p).Some? && p.emails.value == []
    ensures ConstructUserSpec(users, YandexUserData(p).value) == (Raised, users)
    ensures ConstructedUser(ConstructUserSpec(users, YandexUserData(p).value).0).None?
  {
    NoEmailNoCandidates(users);
  }

  /** The profile used by the package's own sign-in test gives this data. */
  lemma YandexSample()
    ensures YandexUserData(YandexProfile(Some("xx1"), Some("xx3"), Some(["xx3@xx3"]), Some("xx4"), None))
            == Some(UserData("xx3", "xx1", ["xx3@xx3"], "xx4", ""))
  {
  }

  const YandexAuthBase := "https://oauth.yandex.ru/authorize"

  function YandexAuthParams(clientId: string, ticket: string): seq<(string, string)>
  {
    [("response_type", "token"), ("client_id", clientId), ("state", ticket), ("display", "popup")]
  }

  /** `Yandex.auth_start`: the redirect to Yandex's authorization endpoint. */
  function YandexAuthStart(clientId: string, ticket: string): (url: string)
  {
    Redirect(BuildUrl(YandexAuthBase, YandexAuthParams(clientId, ticket)))
  }

  /** Yandex's authorization URL asks for a token in a popup, names the client
      and carries the ticket as `state`. */
  lemma YandexAuthStartParams(clientId: string, ticket: string)
    requires '&' !in clientId && '&' !in ticket
    ensures QueryParams(YandexAuthStart(clientId, ticket)) ==
      [("response_type", "token"), ("client_id", clientId), ("state", ticket), ("display", "popup")]
  {
    var ps := YandexAuthParams(clientId, ticket);
    assert YandexAuthStart(clientId, ticket) == BuildUrl(YandexAuthBase, ps);
    QueryParamsOf(YandexAuthBase, ps);
  }
}
