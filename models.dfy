/** The package's database tables (sitegate/models.py) over in-memory sequences.
    A unique column is a sequence whose entries differ in that column; an insert
    that would break it is the `IntegrityError` the source catches.  The clock
    (`timezone.now`) is an integer parameter counting seconds, and the uuid4
    generator is a supply of candidate strings. */
module Models {
  import opened Common

  const SecondsPerDay := 86400

  /** How a password is stored: `set_unusable_password()` or `set_password(raw)`
      (the hashing itself belongs to the framework). */
  datatype Password = Unusable | Raw(text: string)

  /** A row of the framework's user table. */
  datatype User = User(id: nat, username: string, email: string,
                       firstName: string, lastName: string,
                       isActive: bool, password: Password)

  /** The columns every code-carrying model shares (`ModelWithCode`). */
  datatype CodeState = CodeState(code: string, timeCreated: int,
                                 timeAccepted: Option<int>, expired: bool)

  datatype BlacklistedDomain = BlacklistedDomain(domain: string, enabled: bool)

  datatype InvitationCode = InvitationCode(state: CodeState, creator: nat, acceptor: Option<nat>)

  datatype EmailConfirmation = EmailConfirmation(state: CodeState, user: nat)

  /** `RemoteRecord` drops the `expired` column of `ModelWithCode`. */
  datatype RemoteRecord = RemoteRecord(code: string, timeCreated: int, timeAccepted: Option<int>,
                                       remote: string, remoteId: Option<string>, user: Option<nat>)

  // ---------------------------------------------------------------------
  // BlacklistedDomain.is_blacklisted

  /** `s.split('.', 1)[-1]`: the text after the first dot, or `s` itself. */
  function SplitTail(s: string): (r: string)
    ensures '.' in s ==> s == Before(s, '.') + "." + r
    ensures '.' !in s ==> r == s
  {
    if '.' in s then After(s, '.') else s
  }

  /** `[d, tail(d), tail(tail(d)), ...]`, `n + 1` entries. */
  function Suffixes(d: string, n: nat): (r: seq<string>)
    ensures |r| == n + 1 && r[0] == d
  {
    if n == 0 then [d] else [d] + Suffixes(SplitTail(d), n - 1)
  }

  /** The `sub_domains` list: the domain and its parents, stopping at two labels. */
  function SubDomains(domain: string): seq<string>
  {
    Suffixes(domain, if Count(domain, '.') >= 1 then Count(domain, '.') - 1 else 0)
  }

  /** The domain part `is_blacklisted` works on: after the first `@`, lower-cased. */
  function EmailDomain(email: string): string
  {
    Lower(After(email, '@'))
  }

  /** An enabled table entry equals the domain or one of the parents looked up. */
  predicate Blacklisted(table: seq<BlacklistedDomain>, email: string)
  {
    exists e :: e in table && e.enabled && e.domain in SubDomains(EmailDomain(email))
  }

  /** The list grows at its end by one tail, as the loop in `is_blacklisted` builds it. */
  lemma {:induction false} SuffixesSnoc(d: string, n: nat)
    ensures Suffixes(d, n + 1) == Suffixes(d, n) + [SplitTail(Suffixes(d, n)[n])]
  {
    if n > 0 {
      SuffixesSnoc(SplitTail(d), n - 1);
    }
  }

  /** A tail after a dot of `d`, and a tail after a dot of that tail, is a tail after a dot of `d`. */
  predicate TailAfterDot(d: string, s: string)
  {
    exists i :: 0 <= i < |d| && d[i] == '.' && s == d[i + 1..]
  }

  lemma TailAfterDotOfTail(d: string, s: string)
    requires '.' in d
    ensures TailAfterDot(d, s) <==> s == After(d, '.') || TailAfterDot(After(d, '.'), s)
  {
    var b, t := Before(d, '.'), After(d, '.');
    assert d == b + "." + t;
    if TailAfterDot(d, s) {
      var i :| 0 <= i < |d| && d[i] == '.' && s == d[i + 1..];
      TailOfTailDown(b, t, i);
    }
    if TailAfterDot(t, s) {
      var i :| 0 <= i < |t| && t[i] == '.' && s == t[i + 1..];
      TailOfTailUp(b, t, i);
    }
    if s == t {
      assert (b + "." + t)[|b|] == '.' && t == (b + "." + t)[|b| + 1..];
    }
  }

  lemma TailOfTailDown(b: string, t: string, i: nat)
    requires '.' !in b && i < |b + "." + t| && (b + "." + t)[i] == '.'
    ensures (b + "." + t)[i + 1..] == t || (i > |b| && t[i - |b| - 1] == '.' && (b + "." + t)[i + 1..] == t[i - |b|..])
  {
  }

  lemma TailOfTailUp(b: string, t: string, i: nat)
    requires i < |t| && t[i] == '.'
    ensures (b + "." + t)[|b| + 1 + i] == '.' && (b + "." + t)[|b| + 1 + i + 1..] == t[i + 1..]
  {
  }

  /** A tail after a dot has fewer dots than the whole. */
  lemma TailFewerDots(d: string, s: string)
    requires TailAfterDot(d, s)
    ensures Count(s, '.') < Count(d, '.')
  {
    var i :| 0 <= i < |d| && d[i] == '.' && s == d[i + 1..];
    assert d == d[..i] + (['.'] + s);
    CountAppend(d[..i], ['.'] + s, '.');
    assert (['.'] + s)[1..] == s;
  }

  /** Membership in `Suffixes(d, n)` while `d` has more than `n` dots: `d` itself,
      or a tail after one of its dots that still has at least `Count(d) - n` dots. */
  lemma {:induction false} SuffixesMembership(d: string, n: nat, s: string)
    requires n < Count(d, '.')
    ensures s in Suffixes(d, n) <==>
            s == d || (TailAfterDot(d, s) && Count(s, '.') + n >= Count(d, '.'))
  {
    if TailAfterDot(d, s) {
      TailFewerDots(d, s);
    }
    if n > 0 {
      var t := After(d, '.');
      CountAfter(d, '.');
      TailAfterDotOfTail(d, s);
      SuffixesMembership(t, n - 1, s);
      assert Suffixes(d, n) == [d] + Suffixes(t, n - 1);
    }
  }

  /** Which names `is_blacklisted` looks up: the domain, and every tail after
      one of its dots that still contains a dot.  So a bare top-level label is
      never looked up, except when the domain itself is one. */
  lemma SubDomainsMembership(d: string, s: string)
    ensures s in SubDomains(d) <==> s == d || (TailAfterDot(d, s) && '.' in s)
  {
    var k := Count(d, '.');
    if k >= 1 {
      assert SubDomains(d) == Suffixes(d, k - 1);
      SuffixesMembership(d, k - 1, s);
    } else {
      assert SubDomains(d) == [d];
      if TailAfterDot(d, s) {
        TailFewerDots(d, s);
      }
    }
  }

  /** `is_blacklisted` in full: an enabled entry names the domain or one of its
      parents that still has two labels. */
  lemma BlacklistedIff(table: seq<BlacklistedDomain>, email: string)
    ensures Blacklisted(table, email) <==>
            exists e :: e in table && e.enabled &&
                        (e.domain == EmailDomain(email) ||
                         (TailAfterDot(EmailDomain(email), e.domain) && '.' in e.domain))
  {
    forall e | e in table {
      SubDomainsMembership(EmailDomain(email), e.domain);
    }
  }

  /** A disabled entry never blocks anything. */
  lemma DisabledEntryIgnored(table: seq<BlacklistedDomain>, domain: string, email: string)
    ensures Blacklisted(table + [BlacklistedDomain(domain, false)], email) == Blacklisted(table, email)
  {
    if Blacklisted(table + [BlacklistedDomain(domain, false)], email) {
      var e :| e in table + [BlacklistedDomain(domain, false)] && e.enabled &&
               e.domain in SubDomains(EmailDomain(email));
      assert e in table;
    }
  }

  /** The domain is compared after lower-casing, so its letter case never matters. */
  lemma BlacklistedIgnoresCase(table: seq<BlacklistedDomain>, local: string, domain: string)
    requires '@' !in local
    ensures Blacklisted(table, local + "@" + domain) == Blacklisted(table, local + "@" + Lower(domain))
  {
    assert After(local + "@" + domain, '@') == domain by {
      assert (local + "@" + domain)[|local|] == '@';
      assert Before(local + "@" + domain, '@') == local;
    }
    assert After(local + "@" + Lower(domain), '@') == Lower(domain) by {
      assert (local + "@" + Lower(domain))[|local|] == '@';
      assert Before(local + "@" + Lower(domain), '@') == local;
    }
    LowerIdempotent(domain);
  }

  /** The loop of `is_blacklisted` that builds `sub_domains`. */
  method ListSubDomains(domain: string) returns (subDomains: seq<string>)
    ensures subDomains == SubDomains(domain)
  {
    subDomains := [domain];
    var dots := Count(domain, '.');
    // `range(dots - 1)` is empty when there is no dot
    var n := if dots >= 1 then dots - 1 else 0;
    assert SubDomains(domain) == Suffixes(domain, n);
    var i := 0;
    while i < n
      invariant 0 <= i <= n
      invariant subDomains == Suffixes(domain, i)
    {
      SuffixesSnoc(domain, i);
      subDomains := subDomains + [SplitTail(subDomains[i])];
      i := i + 1;
    }
  }

  // ---------------------------------------------------------------------
  // ModelWithCode: generate_code, save, is_valid

  /** `str(uuid4()).replace('-', '')` for a given uuid text. */
  function GenerateCode(uuid: string): (code: string)
    ensures '-' !in code
    ensures |code| + Count(uuid, '-') == |uuid|
  {
    if |uuid| == 0 then []
    else (if uuid[0] == '-' then [] else [uuid[0]]) + GenerateCode(uuid[1..])
  }

  /** A generated code is left as it is by generating again. */
  lemma {:induction false} GenerateCodeIdempotent(uuid: string)
    ensures GenerateCode(GenerateCode(uuid)) == GenerateCode(uuid)
  {
    var c := GenerateCode(uuid);
    assert Count(c, '-') == 0;
    NoDashUnchanged(c);
  }

  lemma {:induction false} NoDashUnchanged(s: string)
    requires '-' !in s
    ensures GenerateCode(s) == s
  {
    if |s| > 0 {
      assert s[0] != '-';
      NoDashUnchanged(s[1..]);
    }
  }

  /** `ModelWithCode.save` for a new row, given the codes already stored.  An
      empty code is replaced by generated ones until one is not stored yet
      (the uuid supply must eventually yield such a code, or the source loops
      for ever); a non-empty code is inserted as it is, and a duplicate is the
      `IntegrityError` that then escapes (`None`). */
  method SaveCode(stored: seq<string>, code: string, uuids: seq<string>) returns (r: Option<string>)
    requires code == "" ==> exists i :: 0 <= i < |uuids| && GenerateCode(uuids[i]) !in stored
    ensures code != "" ==> r == if code in stored then None else Some(code)
    ensures code == "" ==> (r.Some? && r.value !in stored &&
      exists k :: 0 <= k < |uuids| && r.value == GenerateCode(uuids[k]) &&
                  forall j :: 0 <= j < k ==> GenerateCode(uuids[j]) in stored)
  {
    if code != "" {
      if code in stored {
        return None;
      }
      return Some(code);
    }
    var tries := 0;
    while true
      invariant 0 <= tries < |uuids|
      invariant forall j :: 0 <= j < tries ==> GenerateCode(uuids[j]) in stored
      invariant exists i :: tries <= i < |uuids| && GenerateCode(uuids[i]) !in stored
      decreases |uuids| - tries
    {
      var candidate := GenerateCode(uuids[tries]);
      if candidate !in stored {
        return Some(candidate);
      }
      tries := tries + 1;
    }
  }

  /** Row `i` has the code and is not expired. */
  predicate Live(rows: seq<CodeState>, code: string, i: int)
  {
    0 <= i < |rows| && rows[i].code == code && !rows[i].expired
  }

  /** The ascending positions of live rows with the code, from `start` on. */
  function LiveFrom(rows: seq<CodeState>, code: string, start: nat): (r: seq<nat>)
    requires start <= |rows|
    ensures forall i :: i in r <==> start <= i && Live(rows, code, i)
    ensures forall a, b :: 0 <= a < b < |r| ==> r[a] < r[b]
    ensures forall a :: 0 <= a < |r| ==> start <= r[a]
    decreases |rows| - start
  {
    if start == |rows| then []
    else if Live(rows, code, start) then [start] + LiveFrom(rows, code, start + 1)
    else LiveFrom(rows, code, start + 1)
  }

  /** `is_valid`: `objects.get(code=code, expired=False)`, the row when exactly
      one matches, nothing when none or several do. */
  function IsValid(rows: seq<CodeState>, code: string): (r: Option<nat>)
    ensures r.Some? <==> exists i :: Live(rows, code, i) && forall j :: Live(rows, code, j) ==> j == i
    ensures r.Some? ==> Live(rows, code, r.value)
  {
    var m := LiveFrom(rows, code, 0);
    if |m| == 1 then
      assert m[0] in m;
      Some(m[0])
    else
      assert |m| > 1 ==> m[0] in m && m[1] in m && m[0] != m[1];
      None
  }

  /** With unique codes, a code is valid exactly when its row exists and is unexpired. */
  lemma IsValidUnique(rows: seq<CodeState>, code: string)
    requires UniqueCodes(rows)
    ensures IsValid(rows, code).Some? <==> exists i :: Live(rows, code, i)
  {
  }

  predicate UniqueCodes(rows: seq<CodeState>)
  {
    forall i, j :: 0 <= i < j < |rows| ==> rows[i].code != rows[j].code
  }

  function Codes(rows: seq<CodeState>): (cs: seq<string>)
    ensures |cs| == |rows| && forall i :: 0 <= i < |rows| ==> cs[i] == rows[i].code
  {
    seq(|rows|, i requires 0 <= i < |rows| => rows[i].code)
  }

  function InvitationStates(rows: seq<InvitationCode>): (s: seq<CodeState>)
    ensures |s| == |rows| && forall i :: 0 <= i < |rows| ==> s[i] == rows[i].state
  {
    seq(|rows|, i requires 0 <= i < |rows| => rows[i].state)
  }

  function ConfirmationStates(rows: seq<EmailConfirmation>): (s: seq<CodeState>)
    ensures |s| == |rows| && forall i :: 0 <= i < |rows| ==> s[i] == rows[i].state
  {
    seq(|rows|, i requires 0 <= i < |rows| => rows[i].state)
  }

  function RemoteCodes(rows: seq<RemoteRecord>): (cs: seq<string>)
    ensures |cs| == |rows| && forall i :: 0 <= i < |rows| ==> cs[i] == rows[i].code
  {
    seq(|rows|, i requires 0 <= i < |rows| => rows[i].code)
  }

  // ---------------------------------------------------------------------
  // InvitationCode.accept

  /** The bulk update `filter(code=code).update(acceptor=..., expired=True, time_accepted=now)`. */
  function AcceptRows(rows: seq<InvitationCode>, code: string, acceptor: nat, now: int): (r: seq<InvitationCode>)
    ensures |r| == |rows|
  {
    seq(|rows|, i requires 0 <= i < |rows| =>
      if rows[i].state.code == code
      then rows[i].(acceptor := Some(acceptor),
                    state := rows[i].state.(expired := true, timeAccepted := Some(now)))
      else rows[i])
  }

  /** The number of rows carrying the code: what `update()` returns. */
  function CountCode(rows: seq<CodeState>, code: string): (n: nat)
    ensures n <= |rows|
  {
    if |rows| == 0 then 0
    else (if rows[0].code == code then 1 else 0) + CountCode(rows[1..], code)
  }

  /** With unique codes the update touches one row for a stored code and none otherwise. */
  lemma {:induction false} CountCodeUnique(rows: seq<CodeState>, code: string)
    requires UniqueCodes(rows)
    ensures CountCode(rows, code) == if code in Codes(rows) then 1 else 0
  {
    if |rows| > 0 {
      assert UniqueCodes(rows[1..]);
      CountCodeUnique(rows[1..], code);
      assert Codes(rows) == [rows[0].code] + Codes(rows[1..]);
      if rows[0].code == code {
        assert code !in Codes(rows[1..]);
      }
    }
  }

  /** After `accept` the code no longer validates, and every other code keeps its verdict. */
  lemma AcceptInvalidates(rows: seq<InvitationCode>, code: string, acceptor: nat, now: int)
    ensures IsValid(InvitationStates(AcceptRows(rows, code, acceptor, now)), code).None?
    ensures forall c :: c != code ==>
      IsValid(InvitationStates(AcceptRows(rows, code, acceptor, now)), c) == IsValid(InvitationStates(rows), c)
  {
    var after := InvitationStates(AcceptRows(rows, code, acceptor, now));
    assert forall i :: !Live(after, code, i);
    forall c | c != code
      ensures IsValid(after, c) == IsValid(InvitationStates(rows), c)
    {
      assert forall i :: Live(after, c, i) <==> Live(InvitationStates(rows), c, i);
      LiveFromSame(after, InvitationStates(rows), c, 0);
    }
  }

  lemma {:induction false} LiveFromSame(a: seq<CodeState>, b: seq<CodeState>, code: string, start: nat)
    requires |a| == |b| && start <= |a|
    requires forall i :: Live(a, code, i) <==> Live(b, code, i)
    ensures LiveFrom(a, code, start) == LiveFrom(b, code, start)
    decreases |a| - start
  {
    if start < |a| {
      LiveFromSame(a, b, code, start + 1);
    }
  }

  // ---------------------------------------------------------------------
  // RemoteRecord.cleanup

  /** `if ago:` with `ago` possibly None. */
  predicate Truthy(ago: Option<int>)
  {
    ago.Some? && ago.value != 0
  }

  /** The filter of `cleanup`: unlinked, and old enough when an age is given. */
  predicate Stale(r: RemoteRecord, ago: Option<int>, now: int)
  {
    r.remoteId.None? && r.user.None? &&
    (Truthy(ago) ==> r.timeCreated <= now - ago.value * SecondsPerDay)
  }

  /** The rows `cleanup` leaves, in their order. */
  function KeepFresh(rows: seq<RemoteRecord>, ago: Option<int>, now: int): (r: seq<RemoteRecord>)
  {
    if |rows| == 0 then []
    else (if Stale(rows[0], ago, now) then [] else [rows[0]]) + KeepFresh(rows[1..], ago, now)
  }

  /** `cleanup` deletes exactly the stale records: what is left is what was
      there and not stale; linked records always survive. */
  lemma {:induction false} CleanupSpec(rows: seq<RemoteRecord>, ago: Option<int>, now: int)
    ensures forall r :: r in KeepFresh(rows, ago, now) <==> r in rows && !Stale(r, ago, now)
    ensures forall r :: r in rows && (r.remoteId.Some? || r.user.Some?) ==> r in KeepFresh(rows, ago, now)
    ensures |KeepFresh(rows, ago, now)| <= |rows|
  {
    if |rows| > 0 {
      CleanupSpec(rows[1..], ago, now);
      assert forall r :: r in rows <==> r == rows[0] || r in rows[1..];
    }
  }

  // ---------------------------------------------------------------------
  // The tables

  predicate UsersValid(users: seq<User>)
  {
    (forall i :: 0 <= i < |users| ==> users[i].id == i + 1) &&
    (forall i, j :: 0 <= i < j < |users| ==> users[i].username != users[j].username)
  }

  /** The unique `username` column already holds `name`. */
  predicate UsernameTaken(users: seq<User>, name: string)
  {
    name in Usernames(users)
  }

  function Usernames(users: seq<User>): (names: seq<string>)
    ensures |names| == |users| && forall i :: 0 <= i < |users| ==> names[i] == users[i].username
  {
    seq(|users|, i requires 0 <= i < |users| => users[i].username)
  }

  predicate IsUser(users: seq<User>, id: nat)
  {
    0 < id <= |users|
  }

  /** Each table's `code` column is unique. */
  predicate CodesUnique(invitations: seq<InvitationCode>, confirmations: seq<EmailConfirmation>,
                        remoteRecords: seq<RemoteRecord>)
  {
    UniqueCodes(InvitationStates(invitations)) &&
    UniqueCodes(ConfirmationStates(confirmations)) &&
    (forall i, j :: 0 <= i < j < |remoteRecords| ==> remoteRecords[i].code != remoteRecords[j].code)
  }

  /** Every foreign key names one of the `userCount` users. */
  predicate RefsValid(userCount: nat, invitations: seq<InvitationCode>, confirmations: seq<EmailConfirmation>,
                      remoteRecords: seq<RemoteRecord>)
  {
    (forall i :: 0 <= i < |invitations| ==>
      0 < invitations[i].creator <= userCount &&
      (invitations[i].acceptor.Some? ==> 0 < invitations[i].acceptor.value <= userCount)) &&
    (forall i :: 0 <= i < |confirmations| ==> 0 < confirmations[i].user <= userCount) &&
    (forall i :: 0 <= i < |remoteRecords| ==>
      remoteRecords[i].user.Some? ==> 0 < remoteRecords[i].user.value <= userCount)
  }

  /** Adding users never breaks a foreign key. */
  lemma RefsValidGrow(m: nat, n: nat, invitations: seq<InvitationCode>, confirmations: seq<EmailConfirmation>,
                      remoteRecords: seq<RemoteRecord>)
    requires m <= n && RefsValid(m, invitations, confirmations, remoteRecords)
    ensures RefsValid(n, invitations, confirmations, remoteRecords)
  {
  }

  class Db {
    var users: seq<User>
    var blacklist: seq<BlacklistedDomain>
    var invitations: seq<InvitationCode>
    var confirmations: seq<EmailConfirmation>
    var remoteRecords: seq<RemoteRecord>

    /** The database constraints: primary keys, unique columns and foreign keys. */
    ghost predicate Valid()
      reads this
    {
      UsersValid(users) && CodesUnique(invitations, confirmations, remoteRecords) &&
      RefsValid(|users|, invitations, confirmations, remoteRecords)
    }

    constructor (users: seq<User>, blacklist: seq<BlacklistedDomain>)
      requires UsersValid(users)
      ensures Valid()
      ensures this.users == users && this.blacklist == blacklist
      ensures invitations == [] && confirmations == [] && remoteRecords == []
    {
      this.users := users;
      this.blacklist := blacklist;
      invitations := [];
      confirmations := [];
      remoteRecords := [];
    }

    /** The framework's `user.save()` for a user without an id: the row is
        inserted with the next id unless its username is taken, which is the
        `IntegrityError` of the unique column (`None`). `construct_user`
        catches it and tries the next username; the sign up flows' `add_user`
        do not, so there `None` is the exception escaping the request. */
    method InsertUser(u: User) returns (id: Option<nat>)
      requires UsersValid(users)
      modifies this`users
      ensures UsersValid(users)
      ensures UsernameTaken(old(users), u.username) ==> id.None? && users == old(users)
      ensures !UsernameTaken(old(users), u.username) ==>
        id == Some(|old(users)| + 1) && users == old(users) + [u.(id := |old(users)| + 1)]
    {
      if u.username in Usernames(users) {
        return None;
      }
      users := users + [u.(id := |users| + 1)];
      id := Some(|users|);
    }

    /** `BlacklistedDomain.is_blacklisted(email)`; `None` is the `IndexError`
        raised for an address without `@`. */
    method IsBlacklisted(email: string) returns (r: Option<bool>)
      ensures r.None? <==> '@' !in email
      ensures r.Some? ==> r.value == Blacklisted(blacklist, email)
    {
      if '@' !in email {
        return None;
      }
      var subDomains := ListSubDomains(Lower(After(email, '@')));
      var found := false;
      var j := 0;
      while j < |blacklist|
        invariant 0 <= j <= |blacklist|
        invariant found <==> exists k :: 0 <= k < j && blacklist[k].enabled && blacklist[k].domain in subDomains
      {
        if blacklist[j].enabled && blacklist[j].domain in subDomains {
          found := true;
        }
        j := j + 1;
      }
      return Some(found);
    }

    /** `InvitationCode.add(creator)`: a new unexpired, unaccepted row with a fresh code. */
    method AddInvitation(creator: nat, now: int, uuids: seq<string>) returns (code: string)
      requires Valid() && IsUser(users, creator)
      requires exists i :: 0 <= i < |uuids| && GenerateCode(uuids[i]) !in Codes(InvitationStates(invitations))
      modifies this`invitations
      ensures Valid()
      ensures code !in Codes(InvitationStates(old(invitations)))
      ensures invitations == old(invitations) + [InvitationCode(CodeState(code, now, None, false), creator, None)]
    {
      var saved := SaveCode(Codes(InvitationStates(invitations)), "", uuids);
      code := saved.value;
      invitations := invitations + [InvitationCode(CodeState(code, now, None, false), creator, None)];
      assert InvitationStates(invitations) == InvitationStates(old(invitations)) + [CodeState(code, now, None, false)];
    }

    /** `InvitationCode.accept(code, acceptor)`: every row with the code is
        accepted by `acceptor` and expired, whatever its state was; returns the
        number of rows updated. */
    method AcceptInvitation(code: string, acceptor: nat, now: int) returns (n: nat)
      requires Valid() && IsUser(users, acceptor)
      modifies this`invitations
      ensures Valid()
      ensures invitations == AcceptRows(old(invitations), code, acceptor, now)
      ensures n == if code in Codes(InvitationStates(old(invitations))) then 1 else 0
    {
      CountCodeUnique(InvitationStates(invitations), code);
      n := CountCode(InvitationStates(invitations), code);
      invitations := AcceptRows(invitations, code, acceptor, now);
      assert Codes(InvitationStates(invitations)) == Codes(InvitationStates(old(invitations)));
    }

    /** `EmailConfirmation.add(user)`. */
    method AddConfirmation(user: nat, now: int, uuids: seq<string>) returns (code: string)
      requires Valid() && IsUser(users, user)
      requires exists i :: 0 <= i < |uuids| && GenerateCode(uuids[i]) !in Codes(ConfirmationStates(confirmations))
      modifies this`confirmations
      ensures Valid()
      ensures code !in Codes(ConfirmationStates(old(confirmations)))
      ensures confirmations == old(confirmations) + [EmailConfirmation(CodeState(code, now, None, false), user)]
    {
      var saved := SaveCode(Codes(ConfirmationStates(confirmations)), "", uuids);
      code := saved.value;
      confirmations := confirmations + [EmailConfirmation(CodeState(code, now, None, false), user)];
      assert ConfirmationStates(confirmations) == ConfirmationStates(old(confirmations)) + [CodeState(code, now, None, false)];
    }

    /** `EmailConfirmation.activate()`: the row is expired and stamped, its user
        becomes active; nothing else changes. */
    method Activate(idx: nat, now: int)
      requires Valid() && idx < |confirmations|
      modifies this`confirmations, this`users
      ensures Valid()
      ensures confirmations == old(confirmations)[idx :=
        old(confirmations)[idx].(state := old(confirmations)[idx].state.(expired := true, timeAccepted := Some(now)))]
      ensures var u := old(confirmations)[idx].user;
        users == old(users)[u - 1 := old(users)[u - 1].(isActive := true)]
    {
      var row := confirmations[idx];
      confirmations := confirmations[idx := row.(state := row.state.(expired := true, timeAccepted := Some(now)))];
      assert ConfirmationStates(confirmations) == ConfirmationStates(old(confirmations))[idx := confirmations[idx].state];
      var u := row.user;
      users := users[u - 1 := users[u - 1].(isActive := true)];
    }

    /** `RemoteRecord.add(remote=..., user=...)`: an unlinked record with a fresh code. */
    method AddRemoteRecord(remote: string, user: Option<nat>, now: int, uuids: seq<string>) returns (code: string)
      requires Valid() && (user.Some? ==> IsUser(users, user.value))
      requires exists i :: 0 <= i < |uuids| && GenerateCode(uuids[i]) !in RemoteCodes(remoteRecords)
      modifies this`remoteRecords
      ensures Valid()
      ensures code !in RemoteCodes(old(remoteRecords))
      ensures remoteRecords == old(remoteRecords) + [RemoteRecord(code, now, None, remote, None, user)]
    {
      var saved := SaveCode(RemoteCodes(remoteRecords), "", uuids);
      code := saved.value;
      remoteRecords := remoteRecords + [RemoteRecord(code, now, None, remote, None, user)];
    }

    /** `RemoteRecord.cleanup(ago=...)`: the bulk delete of stale records. */
    method Cleanup(ago: Option<int>, now: int)
      requires Valid()
      modifies this`remoteRecords
      ensures Valid()
      ensures remoteRecords == KeepFresh(old(remoteRecords), ago, now)
    {
      CleanupSpec(remoteRecords, ago, now);
      remoteRecords := KeepFresh(remoteRecords, ago, now);
      KeepFreshUnique(old(remoteRecords), ago, now);
    }
  }

  lemma {:induction false} KeepFreshUnique(rows: seq<RemoteRecord>, ago: Option<int>, now: int)
    requires forall i, j :: 0 <= i < j < |rows| ==> rows[i].code != rows[j].code
    ensures var k := KeepFresh(rows, ago, now);
      (forall i, j :: 0 <= i < j < |k| ==> k[i].code != k[j].code) &&
      (forall r :: r in k ==> r in rows)
  {
    if |rows| > 0 {
      KeepFreshUnique(rows[1..], ago, now);
      CleanupSpec(rows[1..], ago, now);
      var t := KeepFresh(rows[1..], ago, now);
      assert forall r :: r in t ==> r.code != rows[0].code;
    }
  }
}
