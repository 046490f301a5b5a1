/** What registering, logging in and signing in with GitHub answer and write, read off the rows. */
module AccountRules {
  import opened Common
  import opened PythonText
  import opened Accounts

  predicate HasAddress(users: seq<User>, address: string) {
    exists u | u in users :: u.email == address
  }

  predicate HasIdentity(users: seq<User>, github: GithubId) {
    exists u | u in users :: u.githubId == Some(github)
  }

  /** Registering answers by the input and the addresses on record, and adds one row or nothing. */
  lemma {:induction false} RegisterRule(t: Tables, email: string, password: string, newId: UserId, salt: nat)
    ensures
      var (t', reply) := Register(t, email, password, newId, salt);
      var address := NormalizeEmail(email);
      && (reply == BadRequest <==> '@' !in email || |password| < 8)
      && (reply == Taken <==> '@' in email && |password| >= 8 && HasAddress(t.users, address))
      && (reply == Ok(newId) <==> '@' in email && |password| >= 8 && !HasAddress(t.users, address))
      && (reply != Ok(newId) ==> t' == t)
      && (reply == Ok(newId) ==>
            && t'.installations == t.installations && |t'.users| == |t.users| + 1 && t'.users[..|t.users|] == t.users
            && var u := t'.users[|t.users|];
               && u.id == newId && u.email == address && u.credential == Hashed(password, salt)
               && u.githubId == None && u.githubLogin == None)
  {
    StoredForm(email);
    ByEmailSpec(t.users, NormalizeEmail(email));
  }

  /** A password signs in to exactly the account of that address whose hash is of that password. */
  lemma {:induction false} LoginRule(t: Tables, email: string, password: string, id: UserId)
    requires UniqueRows(t.users)
    ensures
      Login(t, email, password) == Ok(id) <==>
      exists u | u in t.users :: u.id == id && u.email == NormalizeEmail(email) && u.credential.Hashed? && u.credential.password == password
    ensures Login(t, email, password).Ok? || Login(t, email, password) == Unauthorized
  {
    ByEmailSpec(t.users, NormalizeEmail(email));
    if u :| u in t.users && u.email == NormalizeEmail(email) {
      OnlyRow(t.users, u);
    }
  }

  /** The address an identity presents: the one GitHub reports, else the login's no-reply address. */
  lemma {:induction false} PresentedAddress(who: Identity)
    ensures who.email.Some? && who.email.value != "" ==> GithubEmail(who) == NormalizeEmail(who.email.value)
    ensures (who.email.None? || who.email.value == "") && who.login.Some? ==>
      GithubEmail(who) == NormalizeEmail(who.login.value + "@users.noreply.github.com")
    ensures (who.email.None? || who.email.value == "") ==> '@' in GithubEmail(who)
    ensures GithubEmail(who) == "" ==> who.email.Some? && '@' !in who.email.value
  {
    var noreply := (if who.login.Some? then who.login.value else "None") + "@users.noreply.github.com";
    assert noreply[|noreply| - |"@users.noreply.github.com"|] == '@';
    StoredForm(noreply);
    if who.email.Some? {
      StoredForm(who.email.value);
    }
  }

  /** Whom a sign-in signs in. */
  ghost predicate AnswersFor(users: seq<User>, github: GithubId, address: string, newId: UserId, reply: Reply) {
    && (forall u | u in users && u.githubId == Some(github) :: reply == Ok(u.id))
    && (!HasIdentity(users, github) && address != "" ==> forall u | u in users && u.email == address :: reply == Ok(u.id))
    && (!HasIdentity(users, github) && !HasAddress(users, address) ==> reply == Ok(newId))
    && (reply == Failed <==> !HasIdentity(users, github) && address == "" && HasAddress(users, ""))
    && (reply == Failed || reply.Ok?)
  }

  /** What becomes of the rows: the one signed in to gains the identity, its login and the
      placeholder, a new one is added only for a new account, every other is as it was. */
  ghost predicate RowsFor(users: seq<User>, who: Identity, address: string, newId: UserId, reply: Reply, after: seq<User>) {
    && |after| == |users| + (if reply == Ok(newId) then 1 else 0)
    && (forall i | 0 <= i < |users| && reply != Ok(users[i].id) :: after[i] == users[i])
    && (forall i | 0 <= i < |users| && reply == Ok(users[i].id) ::
          && after[i].id == users[i].id && after[i].email == users[i].email && after[i].credential == Unusable
          && after[i].githubId == Some(who.id) && after[i].githubLogin == who.login)
    && (reply == Ok(newId) ==>
          && after[|users|].id == newId && after[|users|].email == address && after[|users|].credential == Unusable
          && after[|users|].githubId == Some(who.id) && after[|users|].githubLogin == who.login)
  }

  lemma {:induction false} RowOfMatch(users: seq<User>, u: User, i: nat)
    requires UniqueRows(users) && u in users && i < |users|
    ensures users[i].id == u.id <==> users[i] == u
  {
    OnlyRow(users, u);
  }

  lemma {:induction false} LinkedRows(users: seq<User>, who: Identity, address: string, newId: UserId, u: User)
    requires Valid(users) && Unused(users, newId) && Matching(users, who.id, address) == Some(u) && u in users
    ensures FindOrLink(users, who.id, who.login, address, newId).Some?
    ensures
      var (after, id) := FindOrLink(users, who.id, who.login, address, newId).value;
      id == u.id && RowsFor(users, who, address, newId, Ok(id), after)
  {
    var linked := u.(credential := Unusable, githubId := Some(who.id), githubLogin := who.login);
    assert FindOrLink(users, who.id, who.login, address, newId) == Some((Replace(users, linked), u.id));
    ReplaceSpec(users, linked);
    forall i | 0 <= i < |users| && users[i].id == u.id ensures users[i] == u {
      RowOfMatch(users, u, i);
    }
  }

  lemma {:induction false} MatchAnswers(users: seq<User>, github: GithubId, address: string, newId: UserId, u: User)
    requires Valid(users) && Matching(users, github, address) == Some(u)
    ensures u in users && AnswersFor(users, github, address, newId, Ok(u.id))
  {
    ByGithubSpec(users, github);
    ByEmailSpec(users, address);
    forall x | x in users && x.githubId == Some(github) ensures x == u {
      OnlyHolder(users, github, x, u);
    }
    OnlyRow(users, u);
  }

  lemma {:induction false} NoMatchAnswers(users: seq<User>, github: GithubId, address: string, newId: UserId)
    requires Matching(users, github, address) == None
    ensures !HasIdentity(users, github) && (address != "" ==> !HasAddress(users, address))
    ensures ByEmail(users, address).Some? <==> HasAddress(users, address)
  {
    ByGithubSpec(users, github);
    ByEmailSpec(users, address);
  }

  /** A GitHub sign-in over any valid table: the account found by the identity, else by the presented
      address, else a new one; it fails exactly when a second account without an address would be made. */
  lemma {:induction false} SignInRule(t: Tables, who: Identity, asked: Option<InstallationId>, discovered: seq<InstallationId>, newId: UserId)
    requires Valid(t.users) && Unused(t.users, newId)
    ensures AnswersFor(t.users, who.id, GithubEmail(who), newId, SignIn(t, who, asked, discovered, newId).1)
    ensures
      var (t', reply) := SignIn(t, who, asked, discovered, newId);
      if reply == Failed then t' == t else RowsFor(t.users, who, GithubEmail(who), newId, reply, t'.users)
  {
    var address := GithubEmail(who);
    var found := Matching(t.users, who.id, address);
    if found.Some? {
      MatchAnswers(t.users, who.id, address, newId, found.value);
      LinkedRows(t.users, who, address, newId, found.value);
    } else {
      NoMatchAnswers(t.users, who.id, address, newId);
    }
  }

  /** A password account whose address GitHub reports is the one signed in to, and its password is gone. */
  lemma {:induction false} PasswordAccountIsLinked(t: Tables, who: Identity, newId: UserId, i: nat, attempt: string)
    requires Valid(t.users) && Unused(t.users, newId) && i < |t.users|
    requires t.users[i].email == GithubEmail(who) != "" && !HasIdentity(t.users, who.id)
    ensures
      var (t', reply) := SignIn(t, who, None, [], newId);
      && reply == Ok(t.users[i].id) && |t'.users| == |t.users| && t'.users[i].githubId == Some(who.id)
      && Login(t', GithubEmail(who), attempt) == Unauthorized
  {
    SignInRule(t, who, None, [], newId);
    assert t.users[i] in t.users;
    var t' := SignIn(t, who, None, [], newId).0;
    StoredTwice(who);
    assert forall j | 0 <= j < |t.users| && j != i :: t'.users[j] == t.users[j];
    ByEmailSpec(t'.users, GithubEmail(who));
  }

  /** Storing a stored address changes nothing. */
  lemma {:induction false} StoredTwice(who: Identity)
    ensures NormalizeEmail(GithubEmail(who)) == GithubEmail(who)
  {
    var raw := if who.email.Some? && who.email.value != [] then who.email.value
               else (if who.login.Some? then who.login.value else "None") + "@users.noreply.github.com";
    StoredForm(raw);
    StoredAlikeIff(NormalizeEmail(raw), raw);
  }
}
