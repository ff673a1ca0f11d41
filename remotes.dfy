/** Signing in through a remote service (sitegate/signin_flows/remotes/base.py):
    turning the data a provider returned into a local user, and linking the
    pending `RemoteRecord` to that user. */
module Remotes {
  import opened Common
  import opened Models

  /** What a provider returned about the visitor. */
  datatype UserData = UserData(username: string, remoteId: string, emails: seq<string>,
                               firstName: string, lastName: string)

  /** What `construct_user` ends with: an existing user reused, a new user
      saved, `None` after every attempt collided, or the `IndexError` of
      `user_data.emails[0]` on an empty e-mail list. */
  datatype Constructed = Existing(id: nat) | Created(id: nat) | NoUser | Raised

  /** The user `construct_user` picks or creates, if any. */
  function ConstructedUser(c: Constructed): Option<nat>
  {
    match c
    case Existing(id) => Some(id)
    case Created(id) => Some(id)
    case _ => None
  }

  /** Row `i` is an active user whose e-mail is one of `emails`
      (`filter(email__in=emails, is_active=True)`). */
  predicate IsCandidate(users: seq<User>, emails: seq<string>, i: int)
  {
    0 <= i < |users| && users[i].isActive && users[i].email in emails
  }

  /** The positions of the candidate rows, in table order. */
  function Candidates(users: seq<User>, emails: seq<string>): (r: seq<nat>)
    ensures forall i :: i in r <==> IsCandidate(users, emails, i)
    ensures forall a, b :: 0 <= a < b < |r| ==> r[a] < r[b]
    ensures forall a :: 0 <= a < |r| ==> r[a] < |users|
  {
    if |users| == 0 then []
    else
      var front := users[..|users| - 1];
      var rest := Candidates(front, emails);
      assert forall i :: 0 <= i < |front| ==> front[i] == users[i];
      rest + (if IsCandidate(users, emails, |users| - 1) then [|users| - 1] else [])
  }

  /** With no e-mail to match, no user is a candidate. */
  lemma {:induction false} NoEmailNoCandidates(users: seq<User>)
    ensures Candidates(users, []) == []
  {
    if |users| > 0 {
      NoEmailNoCandidates(users[..|users| - 1]);
    }
  }

  /** The text before the first `@`: `email.partition('@')[0]`. */
  function LocalPart(email: string): string
  {
    Before(email, '@')
  }

  /** The (username, e-mail) pairs `construct_user` tries, in order: the
      provider's username with the first e-mail, then each e-mail's local
      part with that e-mail, then each full e-mail as both. */
  function Attempt(data: UserData, j: nat): (string, string)
    requires 0 < |data.emails| && j < 1 + 2 * |data.emails|
  {
    var n := |data.emails|;
    if j == 0 then (data.username, data.emails[0])
    else if j <= n then (LocalPart(data.emails[j - 1]), data.emails[j - 1])
    else (data.emails[j - 1 - n], data.emails[j - 1 - n])
  }

  function Attempts(data: UserData): (r: seq<(string, string)>)
    requires |data.emails| > 0
    ensures |r| == 1 + 2 * |data.emails|
    ensures forall j :: 0 <= j < |r| ==> r[j] == Attempt(data, j)
  {
    seq(1 + 2 * |data.emails|, j requires 0 <= j < 1 + 2 * |data.emails| => Attempt(data, j))
  }

  /** Position of the first attempt whose username is free. */
  function FirstFree(users: seq<User>, attempts: seq<(string, string)>): (r: Option<nat>)
    ensures r.None? <==> forall j :: 0 <= j < |attempts| ==> UsernameTaken(users, attempts[j].0)
    ensures r.Some? ==> r.value < |attempts| && !UsernameTaken(users, attempts[r.value].0) &&
                        forall j :: 0 <= j < r.value ==> UsernameTaken(users, attempts[j].0)
  {
    if |attempts| == 0 then None
    else if !UsernameTaken(users, attempts[0].0) then Some(0)
    else
      match FirstFree(users, attempts[1..])
      case None => None
      case Some(k) => Some(k + 1)
  }

  /** The first `n` attempts all collide with existing usernames. */
  predicate AllTaken(users: seq<User>, data: UserData, n: nat)
    requires 0 < |data.emails| && n <= 1 + 2 * |data.emails|
  {
    forall j :: 0 <= j < n ==> UsernameTaken(users, Attempt(data, j).0)
  }

  lemma AllTakenStep(users: seq<User>, data: UserData, n: nat)
    requires 0 < |data.emails| && n < 1 + 2 * |data.emails|
    requires AllTaken(users, data, n) && UsernameTaken(users, Attempt(data, n).0)
    ensures AllTaken(users, data, n + 1)
  {
  }

  /** The first free attempt is the one before which every attempt is taken. */
  lemma {:induction false} FirstFreeAt(users: seq<User>, attempts: seq<(string, string)>, k: nat)
    requires k < |attempts| && !UsernameTaken(users, attempts[k].0)
    requires forall j :: 0 <= j < k ==> UsernameTaken(users, attempts[j].0)
    ensures FirstFree(users, attempts) == Some(k)
  {
    if k > 0 {
      FirstFreeAt(users, attempts[1..], k - 1);
    }
  }

  /** The row a successful attempt inserts: an active user with an unusable password. */
  function NewUser(data: UserData, attempt: (string, string), id: nat): User
  {
    User(id, attempt.0, attempt.1, data.firstName, data.lastName, true, Unusable)
  }

  /** `construct_user` on a user table: its outcome and the table afterwards. */
  function ConstructUserSpec(users: seq<User>, data: UserData): (Constructed, seq<User>)
  {
    var c := Candidates(users, data.emails);
    if |c| == 1 then (Existing(users[c[0]].id), users)
    else if |data.emails| == 0 then (Raised, users)
    else
      match FirstFree(users, Attempts(data))
      case None => (NoUser, users)
      case Some(k) =>
        var id := |users| + 1;
        (Created(id), users + [NewUser(data, Attempts(data)[k], id)])
  }

  /** What `construct_user` promises: a single active e-mail match is reused;
      otherwise the first attempt with a free username is saved as a new
      active user and nothing else is added; when every attempt collides, or
      there is no e-mail, the table is left as it was. */
  lemma ConstructUserOutcomes(users: seq<User>, data: UserData)
    requires UsersValid(users)
    ensures var (c, after) := ConstructUserSpec(users, data);
      (c.Existing? <==> |Candidates(users, data.emails)| == 1) &&
      (c.Existing? ==> after == users && exists i :: IsCandidate(users, data.emails, i) && users[i].id == c.id) &&
      (c.Raised? <==> |Candidates(users, data.emails)| != 1 && data.emails == []) &&
      (c.NoUser? ==>
         after == users && forall a :: a in Attempts(data) ==> UsernameTaken(users, a.0)) &&
      (c.Created? ==>
         c.id == |users| + 1 && |after| == |users| + 1 && after[..|users|] == users &&
         after[|users|].isActive && after[|users|].password == Unusable &&
         after[|users|].email in data.emails &&
         !UsernameTaken(users, after[|users|].username) && UsersValid(after)) &&
      (!c.Created? ==> after == users)
  {
    var c := Candidates(users, data.emails);
    if |c| == 1 {
      assert c[0] in c;
    } else if |data.emails| > 0 {
      var atts := Attempts(data);
      match FirstFree(users, atts)
      case None =>
        assert forall a :: a in atts ==> exists j :: 0 <= j < |atts| && atts[j] == a;
      case Some(k) =>
        var u := NewUser(data, atts[k], |users| + 1);
        var after := users + [u];
        assert after[..|users|] == users;
        assert u.email in data.emails;
        assert forall i :: 0 <= i < |users| ==> users[i].username != u.username;
    }
  }

  /** Calling `construct_user` again with the same data after it created a
      user from nothing returns that same user and creates nobody. */
  lemma ConstructUserRepeat(users: seq<User>, data: UserData)
    requires UsersValid(users)
    requires Candidates(users, data.emails) == []
    requires ConstructUserSpec(users, data).0.Created?
    ensures var (c, after) := ConstructUserSpec(users, data);
      ConstructUserSpec(after, data) == (Existing(c.id), after)
  {
    var (c, after) := ConstructUserSpec(users, data);
    ConstructUserOutcomes(users, data);
    assert after[..|after| - 1] == users;
  }

  /** When no single candidate exists, the attempts decide the outcome. */
  lemma SpecFromSaved(before: seq<User>, after: seq<User>, data: UserData, saved: Option<nat>)
    requires |Candidates(before, data.emails)| != 1 && 0 < |data.emails|
    requires SavedFirstFree(before, after, data, saved, 1 + 2 * |data.emails|)
    ensures ConstructUserSpec(before, data) == (if saved.None? then NoUser else Created(saved.value), after)
  {
    if saved.None? {
      assert FirstFree(before, Attempts(data)).None?;
    }
  }

  /** `construct_user(user_data)` against the user table. */
  method ConstructUser(db: Db, data: UserData) returns (r: Constructed)
    requires db.Valid()
    modifies db`users
    ensures db.Valid()
    ensures (r, db.users) == ConstructUserSpec(old(db.users), data)
  {
    var candidates := Candidates(db.users, data.emails);
    if |candidates| == 1 {
      r := Existing(db.users[candidates[0]].id);
    } else if |data.emails| == 0 {
      r := Raised;
    } else {
      var saved := SaveAttempts(db, data);
      RefsValidGrow(|old(db.users)|, |db.users|, db.invitations, db.confirmations, db.remoteRecords);
      r := if saved.None? then NoUser else Created(saved.value);
      SpecFromSaved(old(db.users), db.users, data, saved);
    }
  }

  /** The three rounds of attempts of `construct_user`, stopping at the first
      save that succeeds. */
  method SaveAttempts(db: Db, data: UserData) returns (saved: Option<nat>)
    requires UsersValid(db.users) && 0 < |data.emails|
    modifies db`users
    ensures UsersValid(db.users)
    ensures SavedFirstFree(old(db.users), db.users, data, saved, 1 + 2 * |data.emails|)
  {
    var user := User(0, data.username, data.emails[0], data.firstName, data.lastName, true, Unusable);
    saved := db.InsertUser(user);
    if saved.Some? {
      SavedAt(old(db.users), db.users, data, 0, 1 + 2 * |data.emails|);
      return;
    }
    AllTakenStep(db.users, data, 0);
    user, saved := SaveLocalParts(db, data, user);
    if saved.None? {
      saved := SaveFullEmails(db, data, user);
    }
  }

  /** What trying the attempts from position `from` on leaves behind: nothing
      saved and every attempt before `to` collided, or the first free attempt
      saved as a new user. */
  ghost predicate SavedFirstFree(before: seq<User>, after: seq<User>, data: UserData,
                                 saved: Option<nat>, to: nat)
    requires 0 < |data.emails| && to <= 1 + 2 * |data.emails|
  {
    (saved.None? ==> after == before && AllTaken(before, data, to)) &&
    (saved.Some? ==>
      var k := FirstFree(before, Attempts(data));
      k.Some? && saved.value == |before| + 1 &&
      after == before + [NewUser(data, Attempt(data, k.value), |before| + 1)])
  }

  /** Saving attempt `k` after every earlier attempt collided saves the
      first free attempt. */
  lemma SavedAt(before: seq<User>, after: seq<User>, data: UserData, k: nat, to: nat)
    requires 0 < |data.emails| && k < to <= 1 + 2 * |data.emails|
    requires AllTaken(before, data, k) && !UsernameTaken(before, Attempt(data, k).0)
    requires after == before + [NewUser(data, Attempt(data, k), |before| + 1)]
    ensures SavedFirstFree(before, after, data, Some(|before| + 1), to)
  {
    FirstFreeAt(before, Attempts(data), k);
  }

  /** The first loop of `construct_user`: each e-mail's local part as the
      username, with that e-mail, until a save succeeds.  The username and
      e-mail are reassigned on the same unsaved instance, as in the source. */
  method SaveLocalParts(db: Db, data: UserData, user0: User) returns (user: User, saved: Option<nat>)
    requires UsersValid(db.users) && 0 < |data.emails| && AllTaken(db.users, data, 1)
    requires user0 == NewUser(data, Attempt(data, 0), 0)
    modifies db`users
    ensures UsersValid(db.users)
    ensures SavedFirstFree(old(db.users), db.users, data, saved, 1 + |data.emails|)
    ensures saved.None? ==> user == NewUser(data, Attempt(data, |data.emails|), 0)
  {
    ghost var before := db.users;
    user := user0;
    saved := None;
    var i := 0;
    while i < |data.emails|
      invariant 0 <= i <= |data.emails|
      invariant db.users == before && saved.None?
      invariant AllTaken(before, data, 1 + i)
      invariant user == NewUser(data, Attempt(data, i), 0)
    {
      user := user.(username := LocalPart(data.emails[i]), email := data.emails[i]);
      assert user == NewUser(data, Attempt(data, 1 + i), 0);
      saved := db.InsertUser(user);
      if saved.Some? {
        SavedAt(before, db.users, data, 1 + i, 1 + |data.emails|);
        return;
      }
      assert UsernameTaken(before, user.username);
      AllTakenStep(before, data, 1 + i);
      i := i + 1;
    }
  }

  /** The second loop of `construct_user`: each full e-mail as the username. */
  method SaveFullEmails(db: Db, data: UserData, user0: User) returns (saved: Option<nat>)
    requires UsersValid(db.users) && 0 < |data.emails| && AllTaken(db.users, data, 1 + |data.emails|)
    requires user0 == NewUser(data, Attempt(data, |data.emails|), 0)
    modifies db`users
    ensures UsersValid(db.users)
    ensures SavedFirstFree(old(db.users), db.users, data, saved, 1 + 2 * |data.emails|)
  {
    ghost var before := db.users;
    var user := user0;
    saved := None;
    var i := 0;
    while i < |data.emails|
      invariant 0 <= i <= |data.emails|
      invariant db.users == before && saved.None?
      invariant AllTaken(before, data, 1 + |data.emails| + i)
      invariant user == NewUser(data, Attempt(data, |data.emails| + i), 0)
    {
      user := user.(username := data.emails[i], email := data.emails[i]);
      assert user == NewUser(data, Attempt(data, 1 + |data.emails| + i), 0);
      saved := db.InsertUser(user);
      if saved.Some? {
        SavedAt(before, db.users, data, 1 + |data.emails| + i, 1 + 2 * |data.emails|);
        return;
      }
      AllTakenStep(before, data, 1 + |data.emails| + i);
      i := i + 1;
    }
  }

  /** `redirect(url or '/')`. */
  function Redirect(url: string): (target: string)
    ensures target != ""
    ensures url != "" ==> target == url
  {
    if url == "" then "/" else url
  }

  /** `auth_finish`: without a signed-in user one is constructed; when there
      is none, the record is left alone; otherwise the record is linked to the
      user and stamped, and the user is signed in (`loggedIn`).  Either way
      the answer is a redirect to `/`. */
  method AuthFinish(db: Db, data: UserData, record: nat, current: Option<nat>, now: int)
    returns (loggedIn: Option<nat>, target: string)
    requires db.Valid() && record < |db.remoteRecords|
    requires current.Some? ==> IsUser(db.users, current.value)
    modifies db`users, db`remoteRecords
    ensures db.Valid()
    ensures target == "/"
    ensures current.Some? ==> db.users == old(db.users) && loggedIn == current
    ensures current.None? ==>
      var (c, after) := ConstructUserSpec(old(db.users), data);
      db.users == after && loggedIn == ConstructedUser(c)
    ensures loggedIn.None? ==> db.remoteRecords == old(db.remoteRecords)
    ensures loggedIn.Some? ==>
      db.remoteRecords == old(db.remoteRecords)[record := old(db.remoteRecords)[record].(
        remoteId := Some(data.remoteId), user := loggedIn, timeAccepted := Some(now))]
  {
    var user := current;
    if user.None? {
      var c := ConstructUser(db, data);
      ConstructUserOutcomes(old(db.users), data);
      user := ConstructedUser(c);
    }
    if user.None? {
      return None, Redirect("");
    }
    var row := db.remoteRecords[record];
    db.remoteRecords := db.remoteRecords[record := row.(
      remoteId := Some(data.remoteId), user := user, timeAccepted := Some(now))];
    return user, Redirect("");
  }
}
