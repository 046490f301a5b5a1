/** Accounts, passwords, GitHub identities and installations: the tables the sign-in paths share,
    each request as one transaction over them, and what every history of requests keeps. */
module Accounts {
  import opened Common
  import opened PythonText

  type UserId = nat
  type GithubId = int
  type InstallationId = int

  /** A stored credential: a salted hash of one password, or the placeholder no password matches. */
  datatype Credential = Hashed(password: string, salt: nat) | Unusable

  /** `verify_password`: never true of the placeholder. */
  predicate Verifies(password: string, stored: Credential) {
    stored.Hashed? && stored.password == password
  }

  datatype User = User(id: UserId, email: string, credential: Credential, githubId: Option<GithubId>, githubLogin: Option<string>)

  /** One `github_installations` row. */
  datatype Installation = Installation(id: InstallationId, owner: UserId)

  datatype Tables = Tables(users: seq<User>, installations: seq<Installation>)

  function ToLower(c: char): char {
    if 'A' <= c <= 'Z' then (c as int + 32) as char else c
  }

  function Lower(s: string): string {
    if s == [] then [] else [ToLower(s[0])] + Lower(s[1..])
  }

  /** The stored form of an address: trimmed, lower-cased. */
  function NormalizeEmail(email: string): string {
    Lower(Strip(email))
  }

  function ByEmail(users: seq<User>, email: string): Option<User> {
    if users == [] then None else if users[0].email == email then Some(users[0]) else ByEmail(users[1..], email)
  }

  function ByGithub(users: seq<User>, github: GithubId): Option<User> {
    if users == [] then None else if users[0].githubId == Some(github) then Some(users[0]) else ByGithub(users[1..], github)
  }

  function Replace(users: seq<User>, u: User): seq<User> {
    if users == [] then []
    else [if users[0].id == u.id then u else users[0]] + Replace(users[1..], u)
  }

  datatype Reply = Ok(user: UserId) | BadRequest | Taken | Unauthorized | Failed

  /** `register`, after the light validation. A primary key `newId` is drawn for the new row. */
  function Register(t: Tables, email: string, password: string, newId: UserId, salt: nat): (Tables, Reply) {
    var e := NormalizeEmail(email);
    if e == [] || '@' !in e || |password| < 8 then (t, BadRequest)
    else if ByEmail(t.users, e).Some? then (t, Taken)
    else (t.(users := t.users + [User(newId, e, Hashed(password, salt), None, None)]), Ok(newId))
  }

  function Login(t: Tables, email: string, password: string): Reply {
    var u := ByEmail(t.users, NormalizeEmail(email));
    if u.None? || !Verifies(password, u.value.credential) then Unauthorized else Ok(u.value.id)
  }

  /** What GitHub says of the person behind a code. */
  datatype Identity = Identity(id: GithubId, login: Option<string>, email: Option<string>)

  function GithubEmail(who: Identity): string {
    if who.email.Some? && who.email.value != [] then NormalizeEmail(who.email.value)
    else NormalizeEmail((if who.login.Some? then who.login.value else "None") + "@users.noreply.github.com")
  }

  /** The account found for an identity: by GitHub id, else by a non-empty email. */
  function Matching(users: seq<User>, github: GithubId, email: string): Option<User> {
    var linked := ByGithub(users, github);
    if linked.Some? then linked else if email != [] then ByEmail(users, email) else None
  }

  /** `_find_or_link_github_user`; `None` when the insert breaks a unique key. */
  function FindOrLink(users: seq<User>, github: GithubId, login: Option<string>, email: string, newId: UserId): Option<(seq<User>, UserId)> {
    var found := Matching(users, github, email);
    if found.None? then
      if ByEmail(users, email).Some? then None
      else Some((users + [User(newId, email, Unusable, Some(github), login)], newId))
    else
      var u := found.value;
      var credential := if u.githubId.None? && u.credential != Unusable then Unusable else u.credential;
      Some((Replace(users, u.(credential := credential, githubId := Some(github), githubLogin := login)), u.id))
  }

  function OwnerOf(rows: seq<Installation>, id: InstallationId): Option<UserId> {
    if rows == [] then None else if rows[0].id == id then Some(rows[0].owner) else OwnerOf(rows[1..], id)
  }

  /** `_store_installation`: the first row with the id changes owner, or a row is added. */
  function StoreInstallation(rows: seq<Installation>, owner: UserId, id: InstallationId): seq<Installation> {
    if rows == [] then [Installation(id, owner)]
    else if rows[0].id == id then [Installation(id, owner)] + rows[1..]
    else [rows[0]] + StoreInstallation(rows[1..], owner, id)
  }

  function StoreAll(rows: seq<Installation>, owner: UserId, ids: seq<InstallationId>): seq<Installation>
    decreases |ids|
  {
    if ids == [] then rows else StoreAll(StoreInstallation(rows, owner, ids[0]), owner, ids[1..])
  }

  /** The transaction of a completed GitHub sign-in. `asked` is the id in the query string, already
      parsed; it is recorded only when GitHub lists it. */
  function SignIn(t: Tables, who: Identity, asked: Option<InstallationId>, discovered: seq<InstallationId>, newId: UserId): (Tables, Reply) {
    var linked := FindOrLink(t.users, who.id, who.login, GithubEmail(who), newId);
    if linked.None? then (t, Failed)
    else
      var (users, id) := linked.value;
      var first := if asked.Some? && asked.value in discovered then StoreInstallation(t.installations, id, asked.value) else t.installations;
      (Tables(users, StoreAll(first, id, discovered)), Ok(id))
  }

  // ----- the service: rows changed in place -----

  class AccountStore {
    var users: seq<User>
    var installations: seq<Installation>

    function Contents(): Tables
      reads this
    {
      Tables(users, installations)
    }

    constructor ()
      ensures Contents() == Tables([], [])
    {
      users, installations := [], [];
    }

    method RegisterAccount(email: string, password: string, newId: UserId, salt: nat) returns (reply: Reply)
      modifies this
      ensures (Contents(), reply) == Register(old(Contents()), email, password, newId, salt)
    {
      var e := NormalizeEmail(email);
      if e == [] || '@' !in e {
        return BadRequest;
      }
      if |password| < 8 {
        return BadRequest;
      }
      if ByEmail(users, e).Some? {
        return Taken;
      }
      users := users + [User(newId, e, Hashed(password, salt), None, None)];
      reply := Ok(newId);
    }

    method StoreOneInstallation(owner: UserId, id: InstallationId)
      modifies this`installations
      ensures installations == StoreInstallation(old(installations), owner, id)
    {
      var i := 0;
      while i < |installations| && installations[i].id != id
        invariant i <= |installations|
        invariant StoreInstallation(installations, owner, id) == installations[..i] + StoreInstallation(installations[i..], owner, id)
      {
        assert installations[i..][1..] == installations[i + 1..];
        i := i + 1;
      }
      if i == |installations| {
        installations := installations + [Installation(id, owner)];
      } else {
        assert installations[i..][1..] == installations[i + 1..];
        installations := installations[i := installations[i].(owner := owner)];
      }
    }

    method CompleteGithubSignIn(who: Identity, asked: Option<InstallationId>, discovered: seq<InstallationId>, newId: UserId)
      returns (reply: Reply)
      modifies this
      ensures (Contents(), reply) == SignIn(old(Contents()), who, asked, discovered, newId)
    {
      var email := GithubEmail(who);
      var found := ByGithub(users, who.id);
      if found.None? && email != [] {
        found := ByEmail(users, email);
      }
      var id: UserId;
      if found.None? {
        if ByEmail(users, email).Some? {
          return Failed;
        }
        users := users + [User(newId, email, Unusable, Some(who.id), who.login)];
        id := newId;
      } else {
        var u := found.value;
        if u.githubId.None? && u.credential != Unusable {
          u := u.(credential := Unusable);
        }
        users := Replace(users, u.(githubId := Some(who.id), githubLogin := who.login));
        id := u.id;
      }
      if asked.Some? && asked.value in discovered {
        StoreOneInstallation(id, asked.value);
      }
      ghost var linked := users;
      ghost var before := installations;
      var i := 0;
      while i < |discovered|
        invariant i <= |discovered| && users == linked
        invariant StoreAll(before, id, discovered) == StoreAll(installations, id, discovered[i..])
      {
        StoreOneInstallation(id, discovered[i]);
        assert discovered[i..][1..] == discovered[i + 1..];
        i := i + 1;
      }
      reply := Ok(id);
    }
  }

  // ----- what every request keeps -----

  ghost predicate UniqueRows(users: seq<User>) {
    && (forall i, j | 0 <= i < j < |users| :: users[i].id != users[j].id)
    && (forall i, j | 0 <= i < j < |users| :: users[i].email != users[j].email)
    && (forall i, j | 0 <= i < j < |users| :: users[i].githubId.None? || users[i].githubId != users[j].githubId)
  }

  /** An account with a GitHub identity has no password. */
  ghost predicate LinkedHavePlaceholder(users: seq<User>) {
    forall u | u in users :: u.githubId.Some? ==> u.credential == Unusable
  }

  ghost predicate Valid(users: seq<User>) {
    UniqueRows(users) && LinkedHavePlaceholder(users)
  }

  predicate Unused(users: seq<User>, id: UserId) {
    forall u | u in users :: u.id != id
  }

  lemma {:induction false} ByEmailSpec(users: seq<User>, email: string)
    ensures ByEmail(users, email).Some? ==> ByEmail(users, email).value in users && ByEmail(users, email).value.email == email
    ensures ByEmail(users, email).None? ==> forall u | u in users :: u.email != email
  {
    if users != [] {
      ByEmailSpec(users[1..], email);
      assert forall u | u in users :: u == users[0] || u in users[1..];
    }
  }

  lemma {:induction false} ByGithubSpec(users: seq<User>, github: GithubId)
    ensures ByGithub(users, github).Some? ==> ByGithub(users, github).value in users && ByGithub(users, github).value.githubId == Some(github)
    ensures ByGithub(users, github).None? ==> forall u | u in users :: u.githubId != Some(github)
  {
    if users != [] {
      ByGithubSpec(users[1..], github);
      assert forall u | u in users :: u == users[0] || u in users[1..];
    }
  }

  lemma {:induction false} ReplaceSpec(users: seq<User>, u: User)
    ensures |Replace(users, u)| == |users|
    ensures forall i | 0 <= i < |users| :: Replace(users, u)[i] == if users[i].id == u.id then u else users[i]
  {
    if users != [] {
      ReplaceSpec(users[1..], u);
    }
  }

  /** Changing one row's identity keeps the table valid as long as no other row has that identity. */
  lemma {:induction false} ReplaceValid(users: seq<User>, before: User, u: User)
    requires Valid(users) && before in users && u.id == before.id && u.email == before.email && u.credential == Unusable
    requires forall x | x in users :: x.id != u.id ==> x.githubId != u.githubId
    ensures Valid(Replace(users, u))
  {
    ReplaceSpec(users, u);
    var after := Replace(users, u);
    var k :| 0 <= k < |users| && users[k] == before;
    forall i, j | 0 <= i < j < |after|
      ensures after[i].id != after[j].id && after[i].email != after[j].email
      ensures after[i].githubId.None? || after[i].githubId != after[j].githubId
    {
      assert users[i] in users && users[j] in users;
      assert users[i].id == u.id ==> i == k;
      assert users[j].id == u.id ==> j == k;
    }
    assert LinkedHavePlaceholder(after);
  }

  lemma {:induction false} AppendValid(users: seq<User>, u: User)
    requires Valid(users) && Unused(users, u.id)
    requires forall x | x in users :: x.email != u.email && (u.githubId.Some? ==> x.githubId != u.githubId)
    requires u.githubId.Some? ==> u.credential == Unusable
    ensures Valid(users + [u])
  {
    var after := users + [u];
    forall i, j | 0 <= i < j < |after|
      ensures after[i].id != after[j].id && after[i].email != after[j].email
      ensures after[i].githubId.None? || after[i].githubId != after[j].githubId
    {
      assert after[i] in users;
    }
  }

  // ----- histories -----

  datatype Request =
    | Registering(email: string, password: string, newId: UserId, salt: nat)
    | LoggingIn(email: string, password: string)
    | SigningIn(who: Identity, asked: Option<InstallationId>, discovered: seq<InstallationId>, newId: UserId)

  function Serve(t: Tables, q: Request): (Tables, Reply) {
    match q
    case Registering(email, password, newId, salt) => Register(t, email, password, newId, salt)
    case LoggingIn(email, password) => (t, Login(t, email, password))
    case SigningIn(who, asked, discovered, newId) => SignIn(t, who, asked, discovered, newId)
  }

  /** The tables after every request of a history has been served, from empty tables. */
  function After(history: seq<Request>): Tables {
    if history == [] then Tables([], [])
    else Serve(After(history[..|history| - 1]), history[|history| - 1]).0
  }

  predicate DrawsUnusedKey(t: Tables, q: Request) {
    q.LoggingIn? || Unused(t.users, q.newId)
  }

  /** The database draws a primary key that no row has. */
  ghost predicate FreshKeys(history: seq<Request>) {
    history != [] ==>
      FreshKeys(history[..|history| - 1]) && DrawsUnusedKey(After(history[..|history| - 1]), history[|history| - 1])
  }

  /** A row survives a request: same key, same address, never unlinked, and it gains the placeholder
      or keeps its password. */
  ghost predicate Survives(u: User, users: seq<User>) {
    exists x | x in users :: Continues(u, x)
  }

  predicate Continues(u: User, x: User) {
    x.id == u.id && x.email == u.email && (u.githubId.Some? ==> x.githubId.Some?) && (x.credential == u.credential || x.credential == Unusable)
  }

  ghost predicate AllSurvive(users: seq<User>, after: seq<User>) {
    forall u | u in users :: Survives(u, after)
  }

  ghost predicate Keeps(users: seq<User>, after: seq<User>) {
    Valid(after) && |users| <= |after| <= |users| + 1 && AllSurvive(users, after)
  }

  lemma {:induction false} Unchanged(users: seq<User>)
    requires Valid(users)
    ensures Keeps(users, users)
  {
    forall u | u in users ensures Survives(u, users) {
      assert Continues(u, u);
    }
  }

  lemma {:induction false} Appended(users: seq<User>, u: User)
    requires Valid(users) && Unused(users, u.id)
    requires forall x | x in users :: x.email != u.email && (u.githubId.Some? ==> x.githubId != u.githubId)
    requires u.githubId.Some? ==> u.credential == Unusable
    ensures Keeps(users, users + [u])
  {
    AppendValid(users, u);
    forall x | x in users ensures Survives(x, users + [u]) {
      assert x in users + [u] && Continues(x, x);
    }
  }

  lemma {:induction false} Relinked(users: seq<User>, u: User, linked: User, github: GithubId)
    requires Valid(users) && u in users
    requires linked.id == u.id && linked.email == u.email && linked.credential == Unusable && linked.githubId == Some(github)
    requires forall x | x in users :: x.id != u.id ==> x.githubId != Some(github)
    ensures Keeps(users, Replace(users, linked)) && linked in Replace(users, linked)
  {
    var after := Replace(users, linked);
    ReplaceValid(users, u, linked);
    ReplaceSpec(users, linked);
    var m :| 0 <= m < |users| && users[m] == u;
    assert after[m] == linked;
    forall x | x in users ensures Survives(x, after) {
      var k :| 0 <= k < |users| && users[k] == x;
      assert x.id == u.id ==> k == m;
      assert Continues(x, after[k]);
    }
  }

  lemma {:induction false} RegisterKeeps(t: Tables, email: string, password: string, newId: UserId, salt: nat)
    requires Valid(t.users) && Unused(t.users, newId)
    ensures Keeps(t.users, Register(t, email, password, newId, salt).0.users)
  {
    var e := NormalizeEmail(email);
    ByEmailSpec(t.users, e);
    Unchanged(t.users);
    if ByEmail(t.users, e).None? {
      Appended(t.users, User(newId, e, Hashed(password, salt), None, None));
    }
  }

  /** Find-or-link keeps the account invariant, and afterwards the identity leads to the account it
      returned. */
  lemma {:induction false} LinkKeeps(users: seq<User>, github: GithubId, login: Option<string>, email: string, newId: UserId)
    requires Valid(users) && Unused(users, newId) && FindOrLink(users, github, login, email, newId).Some?
    ensures Keeps(users, FindOrLink(users, github, login, email, newId).value.0)
    ensures HeldBy(FindOrLink(users, github, login, email, newId).value.0, github, FindOrLink(users, github, login, email, newId).value.1)
  {
    ByGithubSpec(users, github);
    ByEmailSpec(users, email);
    var (after, id) := FindOrLink(users, github, login, email, newId).value;
    var found := Matching(users, github, email);
    if found.None? {
      var u := User(newId, email, Unusable, Some(github), login);
      Appended(users, u);
      Holder(after, github, u);
    } else {
      var u := found.value;
      var linked := u.(credential := Unusable, githubId := Some(github), githubLogin := login);
      assert u.githubId.Some? ==> u.credential == Unusable;
      assert after == Replace(users, linked);
      forall x | x in users && x.id != u.id ensures x.githubId != Some(github) {
        if x.githubId == Some(github) && u.githubId == Some(github) {
          OnlyHolder(users, github, x, u);
        }
      }
      Relinked(users, u, linked, github);
      Holder(after, github, linked);
    }
  }

  /** Looking the identity up finds the account with that key. */
  predicate HeldBy(users: seq<User>, github: GithubId, id: UserId) {
    ByGithub(users, github).Some? && ByGithub(users, github).value.id == id
  }

  lemma {:induction false} OnlyHolder(users: seq<User>, github: GithubId, u: User, x: User)
    requires UniqueRows(users) && u in users && x in users && u.githubId == Some(github) && x.githubId == Some(github)
    ensures u == x
  {
    var i :| 0 <= i < |users| && users[i] == u;
    var j :| 0 <= j < |users| && users[j] == x;
  }

  lemma {:induction false} Holder(users: seq<User>, github: GithubId, u: User)
    requires UniqueRows(users) && u in users && u.githubId == Some(github)
    ensures ByGithub(users, github) == Some(u)
  {
    ByGithubSpec(users, github);
    OnlyHolder(users, github, u, ByGithub(users, github).value);
  }

  lemma {:induction false} ServeKeeps(t: Tables, q: Request)
    requires Valid(t.users) && DrawsUnusedKey(t, q)
    ensures Keeps(t.users, Serve(t, q).0.users)
  {
    match q
    case LoggingIn(_, _) => Unchanged(t.users);
    case Registering(email, password, newId, salt) => RegisterKeeps(t, email, password, newId, salt);
    case SigningIn(who, asked, discovered, newId) =>
      if FindOrLink(t.users, who.id, who.login, GithubEmail(who), newId).Some? {
        LinkKeeps(t.users, who.id, who.login, GithubEmail(who), newId);
      } else {
        Unchanged(t.users);
      }
  }

  lemma {:induction false} SurvivalChains(a: seq<User>, b: seq<User>, c: seq<User>)
    requires AllSurvive(a, b) && AllSurvive(b, c)
    ensures AllSurvive(a, c)
  {
    forall u | u in a ensures Survives(u, c) {
      assert Survives(u, b);
      var x :| x in b && Continues(u, x);
      assert Survives(x, c);
      var y :| y in c && Continues(x, y);
      assert Continues(u, y);
    }
  }

  /** Over every history: keys, addresses and identities stay unique, a linked account has the
      placeholder, and no account that ever existed disappears or changes its address. */
  lemma {:induction false} AccountInvariant(history: seq<Request>, n: nat)
    requires n <= |history| && FreshKeys(history)
    ensures Valid(After(history).users)
    ensures AllSurvive(After(history[..n]).users, After(history).users)
    ensures |After(history[..n]).users| <= |After(history).users| <= |After(history[..n]).users| + |history| - n
  {
    var before := history[..|history| - if history == [] then 0 else 1];
    if n == |history| {
      assert history[..n] == history;
      if n > 0 {
        AccountInvariant(before, n - 1);
        ServeKeeps(After(before), history[n - 1]);
      }
      Unchanged(After(history).users);
    } else {
      AccountInvariant(before, n);
      assert before[..n] == history[..n];
      ServeKeeps(After(before), history[|history| - 1]);
      SurvivalChains(After(history[..n]).users, After(before).users, After(history).users);
    }
  }

  /** Once an account has a GitHub identity, no password ever signs in to it again. */
  lemma {:induction false} NoPasswordLoginAfterLink(history: seq<Request>, n: nat, u: User, email: string, password: string)
    requires n <= |history| && FreshKeys(history)
    requires u in After(history[..n]).users && u.githubId.Some?
    ensures Login(After(history), email, password) != Ok(u.id)
  {
    var users := After(history).users;
    AccountInvariant(history, n);
    assert Survives(u, users);
    var x :| x in users && Continues(u, x);
    var e := NormalizeEmail(email);
    ByEmailSpec(users, e);
    if ByEmail(users, e).Some? && ByEmail(users, e).value.id == u.id {
      var i :| 0 <= i < |users| && users[i] == x;
      var j :| 0 <= j < |users| && users[j] == ByEmail(users, e).value;
      assert i == j;
    }
  }

  /** The same letter, upper or lower case. */
  predicate SameLetter(a: char, b: char) {
    a == b || ('A' <= a <= 'Z' && b as int == a as int + 32) || ('A' <= b <= 'Z' && a as int == b as int + 32)
  }

  /** Two spellings of one address: between their outer spaces, the same letters in any case. */
  predicate SameAddress(a: string, b: string) {
    |Strip(a)| == |Strip(b)| && forall i | 0 <= i < |Strip(a)| :: SameLetter(Strip(a)[i], Strip(b)[i])
  }

  lemma {:induction false} LowerAt(s: string)
    ensures |Lower(s)| == |s| && forall i | 0 <= i < |s| :: Lower(s)[i] == ToLower(s[i])
  {
    if s != [] {
      LowerAt(s[1..]);
    }
  }

  /** Addresses are stored alike exactly when they are spellings of one address. */
  lemma {:induction false} StoredAlikeIff(a: string, b: string)
    ensures NormalizeEmail(a) == NormalizeEmail(b) <==> SameAddress(a, b)
  {
    LowerAt(Strip(a));
    LowerAt(Strip(b));
    if NormalizeEmail(a) == NormalizeEmail(b) {
      forall i | 0 <= i < |Strip(a)| ensures SameLetter(Strip(a)[i], Strip(b)[i]) {
        assert Lower(Strip(a))[i] == Lower(Strip(b))[i];
      }
    }
  }

  /** What is stored is itself trimmed, without a capital, and a spelling of what was given. */
  lemma {:induction false} StoredForm(email: string)
    ensures SameAddress(NormalizeEmail(email), email)
    ensures forall c | c in NormalizeEmail(email) :: !('A' <= c <= 'Z')
    ensures '@' in NormalizeEmail(email) <==> '@' in email
  {
    var inner, stored := Strip(email), NormalizeEmail(email);
    LowerAt(inner);
    StripTrims(email);
    StripFixed(stored);
    StripKeeps(email, '@');
    if '@' in inner {
      var i :| 0 <= i < |inner| && inner[i] == '@';
      assert stored[i] == '@';
    }
  }

  lemma {:induction false} StripFixed(s: string)
    requires s != [] ==> !IsSpace(s[0]) && !IsSpace(s[|s| - 1])
    ensures Strip(s) == s
  {
  }

  /** A fresh registration answers to its own password and to any spelling of its address, and to
      nothing else. */
  lemma {:induction false} RegisterThenLogin(t: Tables, email: string, password: string, newId: UserId, salt: nat,
                                             spelling: string, attempt: string)
    requires Valid(t.users) && Unused(t.users, newId) && Register(t, email, password, newId, salt).1.Ok?
    ensures
      Login(Register(t, email, password, newId, salt).0, spelling, attempt) == Ok(newId) <==>
      SameAddress(spelling, email) && attempt == password
  {
    StoredAlikeIff(spelling, email);
    var after := Register(t, email, password, newId, salt).0.users;
    RegisterKeeps(t, email, password, newId, salt);
    var u := after[|after| - 1];
    OnlyRow(after, u);
    ByEmailSpec(after, NormalizeEmail(spelling));
    assert u in after;
  }

  // ----- who a GitHub identity leads to -----

  /** A sign-in by another identity, one no account has, that presents this account's address. */
  predicate TakesOver(users: seq<User>, q: Request, github: GithubId) {
    && q.SigningIn? && q.who.id != github && ByGithub(users, q.who.id).None?
    && GithubEmail(q.who) != [] && ByGithub(users, github).Some?
    && ByGithub(users, github).value.email == GithubEmail(q.who)
  }

  lemma {:induction false} StillHeld(users: seq<User>, after: seq<User>, github: GithubId, u: User, x: User)
    requires Valid(users) && Valid(after) && ByGithub(users, github) == Some(u)
    requires x in after && x.id == u.id && x.githubId == Some(github)
    ensures HeldBy(after, github, u.id)
  {
    Holder(after, github, x);
  }

  lemma {:induction false} OnlyRow(users: seq<User>, u: User)
    requires UniqueRows(users) && u in users
    ensures forall x | x in users && (x.id == u.id || x.email == u.email) :: x == u
  {
    var i :| 0 <= i < |users| && users[i] == u;
    forall x | x in users && (x.id == u.id || x.email == u.email) ensures x == u {
      var j :| 0 <= j < |users| && users[j] == x;
    }
  }

  lemma {:induction false} SignInMovesOnlyTheMatch(t: Tables, q: Request, github: GithubId, id: UserId)
    requires Valid(t.users) && DrawsUnusedKey(t, q) && q.SigningIn? && HeldBy(t.users, github, id)
    requires FindOrLink(t.users, q.who.id, q.who.login, GithubEmail(q.who), q.newId).Some?
    ensures HeldBy(Serve(t, q).0.users, github, id) <==> !TakesOver(t.users, q, github)
  {
    var email := GithubEmail(q.who);
    var (after, owner) := FindOrLink(t.users, q.who.id, q.who.login, email, q.newId).value;
    LinkKeeps(t.users, q.who.id, q.who.login, email, q.newId);
    ByGithubSpec(t.users, github);
    ByGithubSpec(t.users, q.who.id);
    ByEmailSpec(t.users, email);
    var u := ByGithub(t.users, github).value;
    var found := Matching(t.users, q.who.id, email);
    if q.who.id == github {
    } else if found.None? {
      assert u in after;
      StillHeld(t.users, after, github, u, u);
      assert email != [] ==> u.email != email;
    } else {
      var w := found.value;
      var m :| 0 <= m < |t.users| && t.users[m] == w;
      var k :| 0 <= k < |t.users| && t.users[k] == u;
      var linked := w.(credential := Unusable, githubId := Some(q.who.id), githubLogin := q.who.login);
      assert w.githubId.Some? ==> w.credential == Unusable;
      assert after == Replace(t.users, linked);
      ReplaceSpec(t.users, linked);
      if w.id == u.id {
        assert m == k;
        assert after[m] in after;
        Holder(after, q.who.id, after[m]);
        ByGithubSpec(after, github);
        OnlyRow(after, after[m]);
        assert ByGithub(t.users, q.who.id).None?;
      } else {
        assert after[k] == u;
        StillHeld(t.users, after, github, u, u);
        OnlyRow(t.users, w);
      }
    }
  }

  /** One request: the account a GitHub identity leads to stays the same exactly when the request is
      not a take-over. */
  lemma {:induction false} IdentityKeptIff(t: Tables, q: Request, github: GithubId, id: UserId)
    requires Valid(t.users) && DrawsUnusedKey(t, q) && HeldBy(t.users, github, id)
    ensures HeldBy(Serve(t, q).0.users, github, id) <==> !TakesOver(t.users, q, github)
  {
    match q
    case LoggingIn(_, _) =>
    case Registering(email, password, newId, salt) =>
      RegisterKeeps(t, email, password, newId, salt);
      ByGithubSpec(t.users, github);
      StillHeld(t.users, Serve(t, q).0.users, github, ByGithub(t.users, github).value, ByGithub(t.users, github).value);
    case SigningIn(who, _, _, newId) =>
      if FindOrLink(t.users, who.id, who.login, GithubEmail(who), newId).Some? {
        SignInMovesOnlyTheMatch(t, q, github, id);
      } else {
        ByGithubSpec(t.users, github);
        ByEmailSpec(t.users, GithubEmail(who));
      }
  }

  /** Nobody takes the account of an identity over from request `n` on. */
  ghost predicate Undisturbed(history: seq<Request>, n: nat, github: GithubId) {
    forall k | n <= k < |history| :: !TakesOver(After(history[..k]).users, history[k], github)
  }

  lemma {:induction false} UndisturbedBefore(history: seq<Request>, n: nat, github: GithubId)
    requires n < |history| && Undisturbed(history, n, github)
    ensures Undisturbed(history[..|history| - 1], n, github)
    ensures !TakesOver(After(history[..|history| - 1]).users, history[|history| - 1], github)
  {
    var before := history[..|history| - 1];
    forall k | n <= k < |before| ensures !TakesOver(After(before[..k]).users, before[k], github) {
      assert before[..k] == history[..k] && before[k] == history[k];
    }
  }

  lemma {:induction false} StaysHeld(history: seq<Request>, n: nat, github: GithubId, id: UserId)
    requires n <= |history| && FreshKeys(history) && HeldBy(After(history[..n]).users, github, id)
    requires Undisturbed(history, n, github)
    ensures HeldBy(After(history).users, github, id)
  {
    if n == |history| {
      assert history[..n] == history;
    } else {
      var before := history[..|history| - 1];
      assert before[..n] == history[..n];
      UndisturbedBefore(history, n, github);
      StaysHeld(before, n, github, id);
      AccountInvariant(before, 0);
      IdentityKeptIff(After(before), history[|history| - 1], github, id);
    }
  }

  /** Once an identity leads to an account, every later sign-in with it returns that account,
      whatever address it presents, as long as nobody took the account over in between. */
  lemma {:induction false} IdentityIsStable(history: seq<Request>, n: nat, github: GithubId, id: UserId, q: Request)
    requires n <= |history| && FreshKeys(history) && HeldBy(After(history[..n]).users, github, id)
    requires Undisturbed(history, n, github)
    requires q.SigningIn? && q.who.id == github
    ensures HeldBy(After(history).users, github, id)
    ensures Serve(After(history), q).1 == Ok(id)
  {
    StaysHeld(history, n, github, id);
  }

  /** A sign-in answers with the account the identity leads to from then on. */
  lemma {:induction false} SignInEstablishesIdentity(t: Tables, q: Request)
    requires Valid(t.users) && DrawsUnusedKey(t, q) && q.SigningIn? && Serve(t, q).1.Ok?
    ensures HeldBy(Serve(t, q).0.users, q.who.id, Serve(t, q).1.user)
  {
    LinkKeeps(t.users, q.who.id, q.who.login, GithubEmail(q.who), q.newId);
  }

  /** Two people of whom GitHub reports one address, and the first one's next sign-in under another. */
  const FIRST := SigningIn(Identity(1, None, Some("a@x")), None, [], 0)
  const SECOND := SigningIn(Identity(2, None, Some("a@x")), None, [], 1)
  const AGAIN := SigningIn(Identity(1, None, Some("b@x")), None, [], 2)

  lemma {:induction false} PlainAddress(s: string)
    requires s == "a@x" || s == "b@x"
    ensures NormalizeEmail(s) == s
  {
    assert StripLeft(s) == s && StripRight(s) == s;
    assert Lower(s) == [ToLower(s[0])] + Lower(s[1..]);
    assert Lower(s[1..]) == [ToLower(s[1])] + Lower(s[2..]);
    assert Lower(s[2..]) == [ToLower(s[2])] + Lower(s[3..]);
  }

  const OWNED := User(0, "a@x", Unusable, Some(1), None)
  const TAKEN := User(0, "a@x", Unusable, Some(2), None)

  lemma {:induction false} FirstSignsIn()
    ensures After([FIRST]) == Tables([OWNED], [])
  {
    PlainAddress("a@x");
    assert [FIRST][..0] == [] && [] + [OWNED] == [OWNED];
  }

  lemma {:induction false} SecondTakesOver()
    ensures TakesOver([OWNED], SECOND, 1)
    ensures After([FIRST, SECOND]) == Tables([TAKEN], [])
  {
    FirstSignsIn();
    PlainAddress("a@x");
    assert [FIRST, SECOND][..1] == [FIRST];
    assert [OWNED][1..] == [];
    assert ByGithub([OWNED], 1) == Some(OWNED) && ByGithub([OWNED], 2) == None && ByEmail([OWNED], "a@x") == Some(OWNED);
    assert [TAKEN] + Replace([], TAKEN) == [TAKEN];
    assert Replace([OWNED], TAKEN) == [TAKEN];
  }

  lemma {:induction false} AgainLeadsTo()
    ensures SignIn(Tables([OWNED], []), AGAIN.who, None, [], 2).1 == Ok(0)
    ensures SignIn(Tables([TAKEN], []), AGAIN.who, None, [], 2).1 == Ok(2)
  {
    PlainAddress("b@x");
    assert [OWNED][1..] == [] && [TAKEN][1..] == [];
    assert ByGithub([OWNED], 1) == Some(OWNED);
    assert ByGithub([TAKEN], 1) == None && ByEmail([TAKEN], "b@x") == None;
  }

  /** From empty tables: the second person's sign-in takes over the account the first one's identity
      leads to, and the first one's next sign-in leads to a new account. */
  lemma {:induction false} TakeOverHappens()
    ensures FreshKeys([FIRST, SECOND])
    ensures HeldBy(After([FIRST]).users, 1, 0) && TakesOver(After([FIRST]).users, SECOND, 1)
    ensures HeldBy(After([FIRST, SECOND]).users, 2, 0) && ByGithub(After([FIRST, SECOND]).users, 1).None?
    ensures Serve(After([FIRST]), AGAIN).1 == Ok(0) && Serve(After([FIRST, SECOND]), AGAIN).1 == Ok(2)
  {
    FirstSignsIn();
    SecondTakesOver();
    AgainLeadsTo();
    assert [FIRST][..0] == [] && [FIRST, SECOND][..1] == [FIRST];
    assert [OWNED][1..] == [] && [TAKEN][1..] == [];
    assert FreshKeys([]) && DrawsUnusedKey(Tables([], []), FIRST) && DrawsUnusedKey(Tables([OWNED], []), SECOND);
    assert FreshKeys([FIRST]);
  }

  // ----- installations -----

  ghost predicate UniqueInstallations(rows: seq<Installation>) {
    forall i, j | 0 <= i < j < |rows| :: rows[i].id != rows[j].id
  }

  lemma {:induction false} StoreSpec(rows: seq<Installation>, owner: UserId, id: InstallationId, other: InstallationId)
    ensures OwnerOf(StoreInstallation(rows, owner, id), other) == if other == id then Some(owner) else OwnerOf(rows, other)
  {
    if rows != [] && rows[0].id != id {
      StoreSpec(rows[1..], owner, id, other);
    }
  }

  lemma {:induction false} StoreUnique(rows: seq<Installation>, owner: UserId, id: InstallationId)
    requires UniqueInstallations(rows)
    ensures UniqueInstallations(StoreInstallation(rows, owner, id))
    ensures forall x | x in StoreInstallation(rows, owner, id) :: x.id == id || x in rows
  {
    if rows != [] && rows[0].id != id {
      StoreUnique(rows[1..], owner, id);
      var rest := StoreInstallation(rows[1..], owner, id);
      forall j | 0 <= j < |rest| ensures rest[j].id != rows[0].id {
        assert rest[j] in rest;
      }
    }
  }

  lemma {:induction false} StoreAllSpec(rows: seq<Installation>, owner: UserId, ids: seq<InstallationId>, other: InstallationId)
    requires UniqueInstallations(rows)
    ensures UniqueInstallations(StoreAll(rows, owner, ids))
    ensures OwnerOf(StoreAll(rows, owner, ids), other) == if other in ids then Some(owner) else OwnerOf(rows, other)
    decreases |ids|
  {
    if ids != [] {
      var next := StoreInstallation(rows, owner, ids[0]);
      StoreUnique(rows, owner, ids[0]);
      StoreSpec(rows, owner, ids[0], other);
      StoreAllSpec(next, owner, ids[1..], other);
    }
  }

  /** A completed sign-in overlays the table with every installation GitHub listed, duplicates
      included; the id in the query string changes nothing about who owns what. */
  lemma {:induction false} SignInOverlays(t: Tables, who: Identity, asked: Option<InstallationId>, discovered: seq<InstallationId>,
                                          newId: UserId, other: InstallationId)
    requires UniqueInstallations(t.installations)
    ensures UniqueInstallations(SignIn(t, who, asked, discovered, newId).0.installations)
    ensures
      OwnerOf(SignIn(t, who, asked, discovered, newId).0.installations, other) ==
      (match SignIn(t, who, None, discovered, newId).1
       case Ok(id) => if other in discovered then Some(id) else OwnerOf(t.installations, other)
       case _ => OwnerOf(t.installations, other))
  {
    var linked := FindOrLink(t.users, who.id, who.login, GithubEmail(who), newId);
    if linked.Some? {
      var id := linked.value.1;
      if asked.Some? && asked.value in discovered {
        StoreUnique(t.installations, id, asked.value);
        StoreSpec(t.installations, id, asked.value, other);
        StoreAllSpec(StoreInstallation(t.installations, id, asked.value), id, discovered, other);
      } else {
        StoreAllSpec(t.installations, id, discovered, other);
      }
    }
  }

  /** Over every history an installation has at most one row. */
  lemma {:induction false} InstallationsStayUnique(history: seq<Request>)
    ensures UniqueInstallations(After(history).installations)
  {
    if history != [] {
      var before := history[..|history| - 1];
      InstallationsStayUnique(before);
      var q := history[|history| - 1];
      if q.SigningIn? {
        SignInOverlays(After(before), q.who, q.asked, q.discovered, q.newId, 0);
      }
    }
  }
}
