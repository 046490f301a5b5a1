/** What a callback writes, answers and clears, read off the request: the rows of an exchanged code,
    the page, the two attempt cookies; and over whole runs, that a session names an account on record. */
module CallbackPages {
  import opened Common
  import A = Accounts
  import opened Callbacks

  predicate HasCode(q: Query) {
    q.code.Some? && q.code.value != ""
  }

  predicate HasError(q: Query) {
    q.error.Some? && q.error.value != ""
  }

  /** A desktop state in the browser that started the flow, whatever GitHub answered. */
  predicate OwnFlow(c: Cookies, q: Query) {
    && q.desktop.Some? && !q.desktop.value.stale
    && q.desktop.value.nonce != "" && c.flow == Some(q.desktop.value.nonce)
  }

  predicate WebsiteBranch(c: Cookies, q: Query) {
    q.desktop.None? && c.website.Some?
  }

  /** No door was opened for this callback. */
  predicate Plain(c: Cookies, q: Query) {
    q.desktop.None? && c.website.None?
  }

  /** The code is exchanged: there is one, and the callback came through a door or is the plain one
      of a signed-in browser. */
  predicate Exchanged(hosted: bool, c: Cookies, q: Query) {
    hosted && HasCode(q) && (SomeDoor(c, q) || (Plain(c, q) && c.session.Some?))
  }

  /** What the exchange answers. */
  function ReplyOf(t: A.Tables, q: Query, g: Github): A.Reply {
    match g
    case Refuses => A.BadRequest
    case Person(who, discovered, newId) => A.SignIn(t, who, q.installation, discovered, newId).1
  }

  lemma {:induction false} Branches(hosted: bool, c: Cookies, t: A.Tables, q: Query, g: Github)
    ensures
      GithubCallback(hosted, c, t, q, g) ==
      if !hosted then Answer(c, t, NotFound)
      else if q.desktop.Some? then DesktopCallback(c, t, q, g)
      else if c.website.Some? then WebsiteCallback(c, t, q, g)
      else PlainCallback(c, t, q, g)
    ensures Complete(t, q, g).1 == ReplyOf(t, q, g)
    ensures Complete(t, q, g).1 == A.BadRequest || Complete(t, q, g).1 == A.Failed || Complete(t, q, g).1.Ok?
    ensures !Complete(t, q, g).1.Ok? ==> Complete(t, q, g).0 == t
  {
  }

  /** Exactly an exchanged code writes the rows of the sign-in. */
  lemma {:induction false} RowsWritten(hosted: bool, c: Cookies, t: A.Tables, q: Query, g: Github)
    ensures
      GithubCallback(hosted, c, t, q, g).tables ==
      if Exchanged(hosted, c, q) && g.Person? then A.SignIn(t, g.who, q.installation, g.discovered, g.newId).0 else t
  {
    Branches(hosted, c, t, q, g);
  }

  /** The pages that show a sign-in, and those of a refusal at the door. */
  lemma {:induction false} DonePages(hosted: bool, c: Cookies, t: A.Tables, q: Query, g: Github)
    ensures
      var page := GithubCallback(hosted, c, t, q, g).page;
      && (page == NotFound <==> !hosted)
      && (page == DesktopDone <==> hosted && DesktopDoor(c, q) && HasCode(q) && ReplyOf(t, q, g).Ok?)
      && (page == SignInDone <==> hosted && WebsiteDoor(c, q) && HasCode(q) && ReplyOf(t, q, g).Ok?)
      && (page == Frontend <==> hosted && Plain(c, q) && (!HasCode(q) || (Exchanged(hosted, c, q) && ReplyOf(t, q, g).Ok?)))
      && (page == BadRequest <==> Exchanged(hosted, c, q) && Plain(c, q) && ReplyOf(t, q, g) == A.BadRequest)
      && (page == ServerError <==> Exchanged(hosted, c, q) && ReplyOf(t, q, g) == A.Failed)
  {
    Branches(hosted, c, t, q, g);
  }

  lemma {:induction false} DesktopErrors(hosted: bool, c: Cookies, t: A.Tables, q: Query, g: Github)
    ensures
      var page := GithubCallback(hosted, c, t, q, g).page;
      && (page == DesktopError("expired") <==> hosted && q.desktop.Some? && !OwnFlow(c, q))
      && (page == DesktopError("cancelled") <==> hosted && OwnFlow(c, q) && q.error == Some("access_denied"))
      && (page == DesktopError("failed") <==>
            && hosted && OwnFlow(c, q) && q.error != Some("access_denied")
            && (HasError(q) || !HasCode(q) || ReplyOf(t, q, g) == A.BadRequest))
      && (page.DesktopError? ==> page.reason in {"expired", "cancelled", "failed"})
  {
    Branches(hosted, c, t, q, g);
  }

  lemma {:induction false} SignInErrors(hosted: bool, c: Cookies, t: A.Tables, q: Query, g: Github)
    ensures
      var page := GithubCallback(hosted, c, t, q, g).page;
      && (page == SignInError("cancelled") <==> hosted && WebsiteBranch(c, q) && q.error == Some("access_denied"))
      && (page == SignInError("failed") <==>
            && hosted && WebsiteBranch(c, q) && q.error != Some("access_denied")
            && (HasError(q) || (WebsiteDoor(c, q) && (!HasCode(q) || ReplyOf(t, q, g) == A.BadRequest))))
      && (page == SignInError("expired") <==>
            && hosted
            && ((WebsiteBranch(c, q) && !HasError(q) && !WebsiteDoor(c, q)) ||
                (Plain(c, q) && HasCode(q) && !LoopbackDoor(c, q) && c.session.None?)))
      && (page.SignInError? ==> page.reason in {"expired", "cancelled", "failed"})
  {
    Branches(hosted, c, t, q, g);
  }

  /** The website attempt is used up by every answer but a server error; the desktop flow by a sign-in
      and by what GitHub refused without a code, not by a code GitHub refuses. */
  lemma {:induction false} CookiesCleared(hosted: bool, c: Cookies, t: A.Tables, q: Query, g: Github)
    ensures
      var after := GithubCallback(hosted, c, t, q, g).cookies;
      && after.website == (if hosted && WebsiteBranch(c, q) && !(Exchanged(hosted, c, q) && ReplyOf(t, q, g) == A.Failed) then None else c.website)
      && after.flow == (if hosted && OwnFlow(c, q) && (HasError(q) || !HasCode(q) || ReplyOf(t, q, g).Ok?) then None else c.flow)
  {
    Branches(hosted, c, t, q, g);
  }

  // ----- whole runs -----

  predicate HasRow(t: A.Tables, id: A.UserId) {
    exists u | u in t.users :: u.id == id
  }

  /** What the rest of the system does to the tables between two events of this browser: other browsers
      keep accounts, a password signs in to an account, a new row gets an unused key. */
  ghost predicate Admissible(s: State, e: Event) {
    match e
    case OtherBrowser(tables) => A.Valid(tables.users) && A.AllSurvive(s.tables.users, tables.users)
    case PasswordSignIn(id) => HasRow(s.tables, id)
    case Returns(q, g) => g.Person? ==> A.Unused(s.tables.users, g.newId)
    case _ => true
  }

  ghost predicate AllAdmissible(hosted: bool, t: A.Tables, run: seq<Event>) {
    forall k | 0 <= k < |run| :: Admissible(Run(hosted, t, run[..k]), run[k])
  }

  ghost predicate Sound(s: State) {
    A.Valid(s.tables.users) && (s.cookies.session.Some? ==> HasRow(s.tables, s.cookies.session.value))
  }

  lemma {:induction false} RowSurvives(t: A.Tables, t': A.Tables, id: A.UserId)
    requires A.AllSurvive(t.users, t'.users) && HasRow(t, id)
    ensures HasRow(t', id)
  {
    var u :| u in t.users && u.id == id;
    assert A.Survives(u, t'.users);
  }

  /** An exchanged sign-in keeps the tables valid and every account, and answers with one on record. */
  lemma {:induction false} ExchangeKeeps(t: A.Tables, who: A.Identity, asked: Option<A.InstallationId>,
                                         discovered: seq<A.InstallationId>, newId: A.UserId)
    requires A.Valid(t.users) && A.Unused(t.users, newId)
    ensures
      var (t', reply) := A.SignIn(t, who, asked, discovered, newId);
      && A.Valid(t'.users) && A.AllSurvive(t.users, t'.users)
      && (reply.Ok? ==> exists u | u in t'.users :: u.id == reply.user && u.githubId == Some(who.id))
  {
    var q := A.SigningIn(who, asked, discovered, newId);
    A.ServeKeeps(t, q);
    var (t', reply) := A.SignIn(t, who, asked, discovered, newId);
    if reply.Ok? {
      A.SignInEstablishesIdentity(t, q);
      A.ByGithubSpec(t'.users, who.id);
    }
  }

  /** An account a callback newly puts in the session is the identity's row in the tables it left. */
  lemma {:induction false} NewSessionIsARow(hosted: bool, c: Cookies, t: A.Tables, q: Query, g: Github, id: A.UserId)
    requires A.Valid(t.users) && (g.Person? ==> A.Unused(t.users, g.newId))
    requires c.session != Some(id) && GithubCallback(hosted, c, t, q, g).cookies.session == Some(id)
    ensures g.Person?
    ensures exists u | u in GithubCallback(hosted, c, t, q, g).tables.users :: u.id == id && u.githubId == Some(g.who.id)
  {
    SessionChangesIff(hosted, c, t, q, g, id);
    Branches(hosted, c, t, q, g);
    RowsWritten(hosted, c, t, q, g);
    ExchangeKeeps(t, g.who, q.installation, g.discovered, g.newId);
  }

  lemma {:induction false} CallbackSound(hosted: bool, s: State, q: Query, g: Github)
    requires Sound(s) && (g.Person? ==> A.Unused(s.tables.users, g.newId))
    ensures Sound(Step(hosted, s, Returns(q, g)))
  {
    var c, t := s.cookies, s.tables;
    var s' := Step(hosted, s, Returns(q, g));
    RowsWritten(hosted, c, t, q, g);
    if g.Person? {
      ExchangeKeeps(t, g.who, q.installation, g.discovered, g.newId);
    }
    var id := s'.cookies.session;
    if id.Some? && id != c.session {
      NewSessionIsARow(hosted, c, t, q, g, id.value);
    } else if id.Some? && s'.tables != t {
      RowSurvives(t, s'.tables, id.value);
    }
  }

  /** Over every run from valid tables: they stay valid and the session names an account on record. */
  lemma {:induction false} SessionIsARow(hosted: bool, t: A.Tables, run: seq<Event>)
    requires A.Valid(t.users) && AllAdmissible(hosted, t, run)
    ensures Sound(Run(hosted, t, run))
  {
    if run != [] {
      var before, e := run[..|run| - 1], run[|run| - 1];
      forall k | 0 <= k < |before| ensures Admissible(Run(hosted, t, before[..k]), before[k]) {
        assert before[..k] == run[..k] && before[k] == run[k];
      }
      SessionIsARow(hosted, t, before);
      var s := Run(hosted, t, before);
      assert Admissible(s, e);
      if e.Returns? {
        CallbackSound(hosted, s, e.q, e.g);
      } else if e.OtherBrowser? && s.cookies.session.Some? {
        RowSurvives(s.tables, e.tables, s.cookies.session.value);
      }
    }
  }

  /** A website attempt that was started and is finished signs the browser in as the account GitHub's
      person has in the tables there are by then. */
  lemma {:induction false} StartedWebsiteAttemptSignsIn(t: A.Tables, run: seq<Event>, nonce: string, now: A.Tables, q: Query, g: Github)
    requires q.desktop.None? && q.state == Some(nonce) && HasCode(q) && !HasError(q) && ReplyOf(now, q, g).Ok?
    ensures
      var s := Run(true, t, run + [StartWebsite(nonce)] + [OtherBrowser(now)]);
      var a := GithubCallback(true, s.cookies, s.tables, q, g);
      a.cookies.session == Some(ReplyOf(now, q, g).user) && a.page == SignInDone && a.cookies.website == None
      && a.tables == A.SignIn(now, g.who, q.installation, g.discovered, g.newId).0
  {
    var started := run + [StartWebsite(nonce)];
    var all := started + [OtherBrowser(now)];
    assert started[..|started| - 1] == run && all[..|all| - 1] == started;
    assert Run(true, t, started) == Step(true, Run(true, t, run), StartWebsite(nonce));
    var s := Run(true, t, all);
    assert s == Step(true, Run(true, t, started), OtherBrowser(now));
    assert s.cookies.website == Some(Some(nonce)) && s.tables == now;
    Branches(true, s.cookies, s.tables, q, g);
  }

  /** And so does a desktop flow. */
  lemma {:induction false} StartedFlowSignsIn(t: A.Tables, run: seq<Event>, nonce: string, now: A.Tables, q: Query, g: Github)
    requires nonce != "" && q.desktop == Some(DesktopState(nonce, false)) && HasCode(q) && !HasError(q) && ReplyOf(now, q, g).Ok?
    ensures
      var s := Run(true, t, run + [StartDesktop(nonce)] + [OtherBrowser(now)]);
      var a := GithubCallback(true, s.cookies, s.tables, q, g);
      a.cookies.session == Some(ReplyOf(now, q, g).user) && a.page == DesktopDone && a.cookies.flow == None
      && a.tables == A.SignIn(now, g.who, q.installation, g.discovered, g.newId).0
  {
    var started := run + [StartDesktop(nonce)];
    var all := started + [OtherBrowser(now)];
    assert started[..|started| - 1] == run && all[..|all| - 1] == started;
    assert Run(true, t, started) == Step(true, Run(true, t, run), StartDesktop(nonce));
    var s := Run(true, t, all);
    assert s == Step(true, Run(true, t, started), OtherBrowser(now));
    assert s.cookies.flow == Some(nonce) && s.tables == now;
    Branches(true, s.cookies, s.tables, q, g);
  }

  /** An attempt whose cookie has expired, or been cut short, signs nobody in any more, until one is
      started with its nonce again. */
  lemma {:induction false} ExpiredAttemptIsDead(hosted: bool, t: A.Tables, run: seq<Event>, expiry: Event, later: seq<Event>, q: Query, g: Github)
    requires if q.desktop.Some? then expiry == FlowExpires else q.state.Some? && expiry.WebsiteExpires? && !LoopbackDoor(Cookies(None, None, None), q)
    requires forall e | e in later :: !Redraws(e, q)
    ensures
      var s := Run(hosted, t, run + [expiry] + later);
      Step(hosted, s, Returns(q, g)).cookies.session == s.cookies.session
  {
    var all := run + [expiry];
    assert all[..|all| - 1] == run;
    StaysClosed(hosted, t, all, later, q);
    var s := Run(hosted, t, all + later);
    var after := Step(hosted, s, Returns(q, g)).cookies.session;
    if after != s.cookies.session {
      if s.cookies.session.Some? {
        NeverSignedOut(hosted, s.cookies, s.tables, q, g);
      }
      SessionChangesIff(hosted, s.cookies, s.tables, q, g, after.value);
    }
  }

  /** A browser that signed out, or whose session ran out, has no account until a password or a callback
      through a door signs it in. */
  lemma {:induction false} SignedOutStays(hosted: bool, t: A.Tables, run: seq<Event>, out: Event, later: seq<Event>)
    requires out == Logout || out == SessionExpires
    requires forall e | e in later :: !e.PasswordSignIn? && !e.Returns?
    ensures Run(hosted, t, run + [out] + later).cookies.session == None
  {
    var all := run + [out];
    assert all[..|all| - 1] == run;
    if later == [] {
      assert all + later == all;
    } else {
      var before := later[..|later| - 1];
      assert forall e | e in before :: e in later;
      SignedOutStays(hosted, t, run, out, before);
      assert (all + later)[..|all + later| - 1] == all + before;
      assert later[|later| - 1] in later;
    }
  }

  /** A password sign-in names the account until the browser signs out, its session ends, or it signs in
      again. */
  lemma {:induction false} PasswordSessionStays(hosted: bool, t: A.Tables, run: seq<Event>, id: A.UserId, later: seq<Event>)
    requires forall e | e in later :: e.StartWebsite? || e.StartDesktop? || e.WebsiteExpires? || e.FlowExpires? || e.OtherBrowser?
    ensures Run(hosted, t, run + [PasswordSignIn(id)] + later).cookies.session == Some(id)
  {
    var all := run + [PasswordSignIn(id)];
    assert all[..|all| - 1] == run;
    if later == [] {
      assert all + later == all;
    } else {
      var before := later[..|later| - 1];
      assert forall e | e in before :: e in later;
      PasswordSessionStays(hosted, t, run, id, before);
      assert (all + later)[..|all + later| - 1] == all + before;
      assert later[|later| - 1] in later;
    }
  }
}
