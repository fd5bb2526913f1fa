/** The link between sessions and users (session.go, user_cache.go).  Binding and
    unbinding are mutually recursive: each side updates itself first and then tells
    the other, which tells it back. */
module Binding {

  /** What every session and every user of a world names as its partner. */
  datatype Links = Links(user: map<Session, User?>, session: map<User, Session?>)

  ghost predicate Closed(l: Links) {
    && (forall s :: s in l.user && l.user[s] != null ==> l.user[s] in l.session)
    && (forall u :: u in l.session && l.session[u] != null ==> l.session[u] in l.user)
  }

  // ------------------------------------------------------------------ effects, from any heap

  /** `s` and `u` name each other; the partners they had let go if they pointed back. */
  ghost function Join(l: Links, s: Session, u: User): Links
    requires Closed(l) && s in l.user && u in l.session
  {
    var oldUser, oldSession := l.user[s], l.session[u];
    var user := l.user[s := u];
    var session := l.session[u := s];
    Links(
      if oldSession != null && oldSession != s && l.user[oldSession] == u then user[oldSession := null] else user,
      if oldUser != null && oldUser != u && l.session[oldUser] == s then session[oldUser := null] else session)
  }

  ghost function LeaveSession(l: Links, u: User, s: Session?): Links
    requires Closed(l) && u in l.session
  {
    var o := l.session[u];
    if o == null || (s != null && o != s) then l
    else Links(if l.user[o] == u then l.user[o := null] else l.user, l.session[u := null])
  }

  ghost function LeaveUser(l: Links, s: Session, u: User?): Links
    requires Closed(l) && s in l.user
  {
    var o := l.user[s];
    if u != null && o != u then l
    else Links(l.user[s := null], if o != null && l.session[o] == s then l.session[o := null] else l.session)
  }

  ghost function TakeUser(l: Links, s: Session, u: User?): Links
    requires Closed(l) && s in l.user && (u != null ==> u in l.session)
  {
    if l.user[s] == u then l else if u == null then LeaveUser(l, s, null) else Join(l, s, u)
  }

  ghost function TakeSession(l: Links, u: User, s: Session?): Links
    requires Closed(l) && u in l.session && (s != null ==> s in l.user)
  {
    if l.session[u] == s then l else if s == null then LeaveSession(l, u, null) else Join(l, s, u)
  }

  /** Binding an end that already names its partner. */
  lemma HalfJoined(l: Links, s: Session, u: User)
    requires Closed(l) && s in l.user && u in l.session
    ensures l.user[s] == u && l.session[u] != s ==>
            Closed(Join(l, s, u)) && Join(l, s, u).session == l.session[u := s]
    ensures l.session[u] == s && l.user[s] != u ==>
            Closed(Join(l, s, u)) && Join(l, s, u).user == l.user[s := u]
  {
  }

  /** BindUser: once its new user was told, only the old user is left to tell. */
  lemma UserTold(l: Links, s: Session, u: User)
    requires Closed(l) && s in l.user && u in l.session && l.user[s] != u
    ensures Closed(l.(user := l.user[s := u]))
    ensures var told := TakeSession(l.(user := l.user[s := u]), u, s);
      Closed(told) && told.user == Join(l, s, u).user && told.session == l.session[u := s]
  {
  }

  lemma OldUserTold(l: Links, s: Session, u: User, told: Links)
    requires Closed(l) && s in l.user && u in l.session && l.user[s] != u
    requires Closed(told) && told.user == Join(l, s, u).user && told.session == l.session[u := s]
    ensures l.user[s] == null ==> told == Join(l, s, u)
    ensures l.user[s] != null ==> l.user[s] in told.session && LeaveSession(told, l.user[s], s) == Join(l, s, u)
  {
  }

  lemma SessionTold(l: Links, u: User, s: Session)
    requires Closed(l) && s in l.user && u in l.session && l.session[u] != s
    ensures Closed(l.(session := l.session[u := s]))
    ensures var told := TakeUser(l.(session := l.session[u := s]), s, u);
      Closed(told) && told.session == Join(l, s, u).session && told.user == l.user[s := u]
  {
    var l1 := l.(session := l.session[u := s]);
    assert Closed(l1);
    HalfJoined(l1, s, u);
  }

  lemma OldSessionTold(l: Links, u: User, s: Session, told: Links)
    requires Closed(l) && s in l.user && u in l.session && l.session[u] != s
    requires Closed(told) && told.session == Join(l, s, u).session && told.user == l.user[s := u]
    ensures l.session[u] == null ==> told == Join(l, s, u)
    ensures l.session[u] != null ==> l.session[u] in told.user && LeaveUser(told, l.session[u], u) == Join(l, s, u)
  {
  }

  // ------------------------------------------------------------------ the code

  ghost function View(S: set<Session>, U: set<User>): Links
    reads S, U
  {
    Links(map s | s in S :: s.user, map u | u in U :: u.session)
  }

  /** Nobody names a partner outside the world. */
  ghost predicate World(S: set<Session>, U: set<User>)
    reads S, U
    ensures World(S, U) ==> Closed(View(S, U))
  {
    && (forall s :: s in S && s.user != null ==> s.user in U)
    && (forall u :: u in U && u.session != null ==> u.session in S)
  }

  class Session {
    var user: User?

    constructor ()
      ensures user == null
    {
      user := null;
    }

    method BindUser(u: User?, ghost S: set<Session>, ghost U: set<User>)
      requires World(S, U) && this in S && (u != null ==> u in U)
      modifies S`user, U`session
      ensures World(S, U)
      ensures View(S, U) == TakeUser(old(View(S, U)), this, u)
      decreases 1, (if user == u then 0 else 1) + (if u != null && u.session == this then 0 else 1)
    {
      if user == u { return; }
      if u == null {
        if user != null { user.UnbindSession(this, S, U); }
        user := null;
        return;
      }
      var oldUser := user;
      ghost var l := View(S, U);
      UserTold(l, this, u);
      hide TakeSession, LeaveSession, Join;
      // the field comes first, because the call below comes back here
      user := u;
      assert View(S, U) == l.(user := l.user[this := u]);
      u.BindSession(this, S, U);
      OldUserTold(l, this, u, View(S, U));
      if oldUser != null { oldUser.UnbindSession(this, S, U); }
    }

    /** A null user stands for "whoever it is". */
    method UnbindUser(u: User?, ghost S: set<Session>, ghost U: set<User>)
      requires World(S, U) && this in S
      modifies S`user, U`session
      ensures World(S, U)
      ensures View(S, U) == LeaveUser(old(View(S, U)), this, u)
      decreases 0, if user == null || (u != null && user != u) then 0 else if user.session == this then 2 else 1
    {
      if u != null && user != u { return; }
      var oldUser := user;
      user := null;
      if oldUser != null { oldUser.UnbindSession(this, S, U); }
    }

    /** The part of Close that unbinds. */
    method Close(ghost S: set<Session>, ghost U: set<User>)
      requires World(S, U) && this in S
      modifies S`user, U`session
      ensures World(S, U)
      ensures old(user) == null ==> View(S, U) == old(View(S, U))
      ensures old(user) != null ==> View(S, U) == LeaveSession(old(View(S, U)), old(user), this)
    {
      if user != null { user.UnbindSession(this, S, U); }
    }
  }

  class User {
    var session: Session?

    constructor ()
      ensures session == null
    {
      session := null;
    }

    method BindSession(s: Session?, ghost S: set<Session>, ghost U: set<User>)
      requires World(S, U) && this in U && (s != null ==> s in S)
      modifies S`user, U`session
      ensures World(S, U)
      ensures View(S, U) == TakeSession(old(View(S, U)), this, s)
      decreases 1, (if session == s then 0 else 1) + (if s != null && s.user == this then 0 else 1)
    {
      if session == s { return; }
      if s == null {
        UnbindSession(session, S, U);
        return;
      }
      var oldSession := session;
      ghost var l := View(S, U);
      SessionTold(l, this, s);
      hide TakeUser, LeaveUser, Join;
      session := s;
      assert View(S, U) == l.(session := l.session[this := s]);
      s.BindUser(this, S, U);
      OldSessionTold(l, this, s, View(S, U));
      if oldSession != null { oldSession.UnbindUser(this, S, U); }
    }

    /** A null session stands for "whichever it is". */
    method UnbindSession(s: Session?, ghost S: set<Session>, ghost U: set<User>)
      requires World(S, U) && this in U
      modifies S`user, U`session
      ensures World(S, U)
      ensures View(S, U) == LeaveSession(old(View(S, U)), this, s)
      decreases 0, if session == null || (s != null && session != s) then 0 else if session.user == this then 2 else 1
    {
      if session == null { return; }
      if s != null && session != s { return; }
      var oldSession := session;
      session := null;
      oldSession.UnbindUser(this, S, U);
    }
  }

  // ------------------------------------------------------------------ one to one

  /** Session s names user u exactly when u names s. */
  ghost predicate OneToOne(l: Links) {
    Closed(l) && forall s, u :: s in l.user && u in l.session ==> (l.user[s] == u <==> l.session[u] == s)
  }

  /** The linked pairs. */
  ghost function Pairs(l: Links): set<(Session, User)> {
    set s, u | s in l.user && u in l.session && l.user[s] == u :: (s, u)
  }

  ghost function Except(pairs: set<(Session, User)>, s: Session?, u: User?): set<(Session, User)> {
    set p | p in pairs && p.0 != s && p.1 != u
  }

  /** Linking two ends, whatever they were linked to: exactly their old links go. */
  lemma JoinLinks(l: Links, s: Session, u: User)
    requires OneToOne(l) && s in l.user && u in l.session
    ensures OneToOne(Join(l, s, u))
    ensures Pairs(Join(l, s, u)) == {(s, u)} + Except(Pairs(l), s, u)
  {
    var j := Join(l, s, u);
    assert OneToOne(j) by {
      forall x, y | x in j.user && y in j.session ensures j.user[x] == y <==> j.session[y] == x {
        assert l.user[x] == y <==> l.session[y] == x;
        assert l.user[s] == y <==> l.session[y] == s;
        assert l.user[x] == u <==> l.session[u] == x;
      }
    }
    JoinPairs(l, s, u);
  }

  lemma JoinPairs(l: Links, s: Session, u: User)
    requires OneToOne(l) && s in l.user && u in l.session
    ensures Pairs(Join(l, s, u)) == {(s, u)} + Except(Pairs(l), s, u)
  {
  }

  lemma LeaveSessionLinks(l: Links, u: User, s: Session?)
    requires OneToOne(l) && u in l.session
    ensures OneToOne(LeaveSession(l, u, s))
    ensures Pairs(LeaveSession(l, u, s)) == if s == null then Except(Pairs(l), null, u) else Pairs(l) - {(s, u)}
  {
  }

  lemma LeaveUserLinks(l: Links, s: Session, u: User?)
    requires OneToOne(l) && s in l.user
    ensures OneToOne(LeaveUser(l, s, u))
    ensures Pairs(LeaveUser(l, s, u)) == if u == null then Except(Pairs(l), s, null) else Pairs(l) - {(s, u)}
  {
  }

  // ------------------------------------------------------------------ runs

  datatype Command =
    | SessionBinds(s: Session, newUser: User?)
    | UserBinds(u: User, newSession: Session?)
    | SessionUnbinds(s: Session, ifUser: User?)
    | UserUnbinds(u: User, ifSession: Session?)
    | SessionCloses(s: Session)

  /** What a command does to the linked pairs. */
  ghost function After(pairs: set<(Session, User)>, c: Command): set<(Session, User)> {
    match c
    case SessionBinds(s, u) => if u == null then Except(pairs, s, null) else {(s, u)} + Except(pairs, s, u)
    case UserBinds(u, s) => if s == null then Except(pairs, null, u) else {(s, u)} + Except(pairs, s, u)
    case SessionUnbinds(s, u) => if u == null then Except(pairs, s, null) else pairs - {(s, u)}
    case UserUnbinds(u, s) => if s == null then Except(pairs, null, u) else pairs - {(s, u)}
    case SessionCloses(s) => Except(pairs, s, null)
  }

  ghost function AfterAll(pairs: set<(Session, User)>, cs: seq<Command>): set<(Session, User)> {
    if cs == [] then pairs else After(AfterAll(pairs, cs[..|cs| - 1]), cs[|cs| - 1])
  }

  ghost predicate Known(c: Command, S: set<Session>, U: set<User>) {
    match c
    case SessionBinds(s, u) => s in S && (u == null || u in U)
    case UserBinds(u, s) => u in U && (s == null || s in S)
    case SessionUnbinds(s, _) => s in S
    case UserUnbinds(u, _) => u in U
    case SessionCloses(s) => s in S
  }

  lemma AlreadyLinked(l: Links, s: Session, u: User)
    requires OneToOne(l) && s in l.user && u in l.session && l.user[s] == u
    ensures Pairs(l) == {(s, u)} + Except(Pairs(l), s, u)
  {
  }

  lemma Unlinked(l: Links, s: Session)
    requires OneToOne(l) && s in l.user && l.user[s] == null
    ensures Pairs(l) == Except(Pairs(l), s, null)
  {
  }

  lemma UserUnlinked(l: Links, u: User)
    requires OneToOne(l) && u in l.session && l.session[u] == null
    ensures Pairs(l) == Except(Pairs(l), null, u)
  {
  }

  lemma TakeUserLinks(l: Links, s: Session, u: User?)
    requires OneToOne(l) && s in l.user && (u != null ==> u in l.session)
    ensures OneToOne(TakeUser(l, s, u))
    ensures Pairs(TakeUser(l, s, u)) == After(Pairs(l), SessionBinds(s, u))
  {
    if l.user[s] == u {
      if u == null { Unlinked(l, s); } else { AlreadyLinked(l, s, u); }
    } else if u == null {
      LeaveUserLinks(l, s, null);
    } else {
      JoinLinks(l, s, u);
    }
  }

  lemma TakeSessionLinks(l: Links, u: User, s: Session?)
    requires OneToOne(l) && u in l.session && (s != null ==> s in l.user)
    ensures OneToOne(TakeSession(l, u, s))
    ensures Pairs(TakeSession(l, u, s)) == After(Pairs(l), UserBinds(u, s))
  {
    if l.session[u] == s {
      if s == null { UserUnlinked(l, u); } else { AlreadyLinked(l, s, u); }
    } else if s == null {
      LeaveSessionLinks(l, u, null);
    } else {
      JoinLinks(l, s, u);
    }
  }

  method RunCommand(c: Command, ghost S: set<Session>, ghost U: set<User>)
    requires World(S, U) && OneToOne(View(S, U)) && Known(c, S, U)
    modifies S`user, U`session
    ensures World(S, U) && OneToOne(View(S, U))
    ensures Pairs(View(S, U)) == After(old(Pairs(View(S, U))), c)
  {
    ghost var l := View(S, U);
    match c {
      case SessionBinds(s, u) =>
        TakeUserLinks(l, s, u);
        s.BindUser(u, S, U);
      case UserBinds(u, s) =>
        TakeSessionLinks(l, u, s);
        u.BindSession(s, S, U);
      case SessionUnbinds(s, u) =>
        LeaveUserLinks(l, s, u);
        s.UnbindUser(u, S, U);
      case UserUnbinds(u, s) =>
        LeaveSessionLinks(l, u, s);
        u.UnbindSession(s, S, U);
      case SessionCloses(s) =>
        CloseLinks(l, s);
        s.Close(S, U);
    }
  }

  lemma CloseLinks(l: Links, s: Session)
    requires OneToOne(l) && s in l.user
    ensures l.user[s] == null ==> Pairs(l) == Except(Pairs(l), s, null)
    ensures l.user[s] != null ==>
            && OneToOne(LeaveSession(l, l.user[s], s))
            && Pairs(LeaveSession(l, l.user[s], s)) == Except(Pairs(l), s, null)
  {
  }

  /** Any sequence of commands, from either side and rebinding both ends at once,
      keeps the links one to one and changes exactly the pairs it names. */
  method RunCommands(cs: seq<Command>, ghost S: set<Session>, ghost U: set<User>)
    requires World(S, U) && OneToOne(View(S, U))
    requires forall i :: 0 <= i < |cs| ==> Known(cs[i], S, U)
    modifies S`user, U`session
    ensures World(S, U) && OneToOne(View(S, U))
    ensures Pairs(View(S, U)) == AfterAll(old(Pairs(View(S, U))), cs)
  {
    for i := 0 to |cs|
      invariant World(S, U) && OneToOne(View(S, U))
      invariant Pairs(View(S, U)) == AfterAll(old(Pairs(View(S, U))), cs[..i])
    {
      RunCommand(cs[i], S, U);
      assert cs[..i + 1][..i] == cs[..i];
    }
    assert cs[..|cs|] == cs;
  }
}
