/**
  Who is asking: the server resolves a session token, taken from the cookie or
  else from a bearer header, to a live session and its user.
 */
module Sessions {
  import opened Wrappers
  import opened Seqs

  datatype User = User(id: string, email: string, name: string, picture: Option<string>, createdAt: int)

  datatype Session = Session(id: string, userId: string, token: string, expiresAt: int, createdAt: int)

  /** The token the request presents: a non-empty cookie wins over the bearer credentials. */
  function PresentedToken(cookie: Option<string>, bearer: Option<string>): (t: Option<string>)
    ensures t.Some? ==> t.value != "" && (t == cookie || t == bearer)
    ensures cookie.Some? && cookie.value != "" ==> t == cookie
    ensures t.None? <==> (cookie.None? || cookie.value == "") && (bearer.None? || bearer.value == "")
  {
    if cookie.Some? && cookie.value != "" then cookie
    else if bearer.Some? && bearer.value != "" then bearer
    else None
  }

  /** The position of the first session with the token, as a lookup by token finds it. */
  function FindSession(sessions: seq<Session>, token: string): (r: Option<nat>)
    ensures r.Some? ==> r.value < |sessions| && sessions[r.value].token == token
    ensures r.None? <==> forall s :: s in sessions ==> s.token != token
  {
    if sessions == [] then None
    else if sessions[0].token == token then Some(0)
    else
      match FindSession(sessions[1..], token)
      case None => None
      case Some(k) => Some(k + 1)
  }

  /** The first user with the id, as a lookup by id finds it. */
  function FindUser(users: seq<User>, id: string): (r: Option<User>)
    ensures r.Some? ==> r.value in users && r.value.id == id
    ensures r.None? <==> forall u :: u in users ==> u.id != id
  {
    if users == [] then None
    else if users[0].id == id then Some(users[0])
    else FindUser(users[1..], id)
  }

  /** How a request's credentials resolve; an expired session carries its position, for deletion. */
  datatype Resolution =
    | NoToken
    | UnknownToken
    | Expired(index: nat)
    | UnknownUser
    | Resolved(user: User)

  /** A session is expired once its expiry lies strictly before `now`. */
  predicate IsExpired(s: Session, now: int)
  {
    s.expiresAt < now
  }

  function Resolve(cookie: Option<string>, bearer: Option<string>, sessions: seq<Session>,
                   users: seq<User>, now: int): (r: Resolution)
    ensures r.NoToken? <==> PresentedToken(cookie, bearer).None?
    ensures r.Expired? ==> r.index < |sessions| && IsExpired(sessions[r.index], now)
                           && Some(sessions[r.index].token) == PresentedToken(cookie, bearer)
    ensures r.Resolved? ==>
              r.user in users
              && PresentedToken(cookie, bearer).Some?
              && FindSession(sessions, PresentedToken(cookie, bearer).value).Some?
              && var k := FindSession(sessions, PresentedToken(cookie, bearer).value).value;
                 !IsExpired(sessions[k], now) && sessions[k].userId == r.user.id
  {
    match PresentedToken(cookie, bearer)
    case None => NoToken
    case Some(token) =>
      match FindSession(sessions, token)
      case None => UnknownToken
      case Some(k) =>
        if IsExpired(sessions[k], now) then Expired(k)
        else
          match FindUser(users, sessions[k].userId)
          case None => UnknownUser
          case Some(u) => Resolved(u)
  }

  function UserOf(r: Resolution): Option<User>
  {
    if r.Resolved? then Some(r.user) else None
  }

  /** The sessions left once every session of the user is deleted. */
  function EndSessions(sessions: seq<Session>, userId: string): (r: seq<Session>)
    ensures |r| <= |sessions|
  {
    Filter(sessions, (s: Session) => s.userId != userId)
  }

  /** The sessions left once the session at `k` is deleted. */
  function DeleteAt(sessions: seq<Session>, k: nat): (r: seq<Session>)
    requires k < |sessions|
    ensures |r| == |sessions| - 1
    ensures forall j :: 0 <= j < k ==> r[j] == sessions[j]
    ensures forall j :: k <= j < |r| ==> r[j] == sessions[j + 1]
  {
    sessions[..k] + sessions[k + 1..]
  }

  /** A presented token whose session is live and whose user exists resolves to that user. */
  lemma LiveSessionResolves(cookie: Option<string>, bearer: Option<string>,
                            sessions: seq<Session>, users: seq<User>, now: int, k: nat, u: User)
    requires PresentedToken(cookie, bearer).Some?
    requires FindSession(sessions, PresentedToken(cookie, bearer).value) == Some(k)
    requires !IsExpired(sessions[k], now)
    requires FindUser(users, sessions[k].userId) == Some(u)
    ensures Resolve(cookie, bearer, sessions, users, now) == Resolved(u)
    ensures UserOf(Resolve(cookie, bearer, sessions, users, now)) == Some(u)
  {
  }

  /** A live session whose user no longer exists authenticates nobody. */
  lemma MissingUserYieldsNone(cookie: Option<string>, bearer: Option<string>,
                              sessions: seq<Session>, users: seq<User>, now: int, k: nat)
    requires PresentedToken(cookie, bearer).Some?
    requires FindSession(sessions, PresentedToken(cookie, bearer).value) == Some(k)
    requires !IsExpired(sessions[k], now)
    requires FindUser(users, sessions[k].userId).None?
    ensures Resolve(cookie, bearer, sessions, users, now) == UnknownUser
    ensures UserOf(Resolve(cookie, bearer, sessions, users, now)).None?
  {
  }

  /** When a non-empty cookie is sent, the Authorization header plays no part. */
  lemma CookieTakesPriority(cookie: string, bearer1: Option<string>, bearer2: Option<string>,
                            sessions: seq<Session>, users: seq<User>, now: int)
    requires cookie != ""
    ensures Resolve(Some(cookie), bearer1, sessions, users, now) == Resolve(Some(cookie), bearer2, sessions, users, now)
  {
  }

  /** A request without a non-empty token is anonymous and touches no session. */
  lemma NoCredentialsNoUser(cookie: Option<string>, bearer: Option<string>,
                            sessions: seq<Session>, users: seq<User>, now: int)
    requires cookie.None? || cookie.value == ""
    requires bearer.None? || bearer.value == ""
    ensures Resolve(cookie, bearer, sessions, users, now) == NoToken
  {
  }

  /** A token whose session has expired never authenticates, and names that session for deletion. */
  lemma ExpiredTokenRejected(cookie: Option<string>, bearer: Option<string>,
                             sessions: seq<Session>, users: seq<User>, now: int, k: nat)
    requires PresentedToken(cookie, bearer).Some?
    requires FindSession(sessions, PresentedToken(cookie, bearer).value) == Some(k)
    requires IsExpired(sessions[k], now)
    ensures UserOf(Resolve(cookie, bearer, sessions, users, now)).None?
    ensures Resolve(cookie, bearer, sessions, users, now) == Expired(k)
  {
  }

  /** Once a user's sessions are all deleted, no credentials resolve to that user. */
  lemma LoggedOutUserNeverResolves(cookie: Option<string>, bearer: Option<string>,
                                   sessions: seq<Session>, users: seq<User>, now: int, userId: string)
    ensures var r := Resolve(cookie, bearer, EndSessions(sessions, userId), users, now);
            r.Resolved? ==> r.user.id != userId
  {
    var left := EndSessions(sessions, userId);
    var r := Resolve(cookie, bearer, left, users, now);
    if r.Resolved? {
      var i :| 0 <= i < |left| && !IsExpired(left[i], now) && left[i].userId == r.user.id
               && Some(left[i].token) == PresentedToken(cookie, bearer);
      FilterSound(sessions, (s: Session) => s.userId != userId, left[i]);
    }
  }

  /** Deleting one user's sessions leaves every other user's sessions, in order. */
  lemma EndSessionsKeepsOthers(sessions: seq<Session>, userId: string)
    ensures forall s :: s in sessions && s.userId != userId ==> s in EndSessions(sessions, userId)
    ensures forall s :: s in EndSessions(sessions, userId) ==> s in sessions && s.userId != userId
    ensures IsSubseq(EndSessions(sessions, userId), sessions)
  {
    var p := (s: Session) => s.userId != userId;
    forall s | s in sessions && s.userId != userId ensures s in EndSessions(sessions, userId) {
      FilterComplete(sessions, p, s);
    }
    forall s | s in EndSessions(sessions, userId) ensures s in sessions && s.userId != userId {
      FilterSound(sessions, p, s);
    }
    FilterIsSubseq(sessions, p);
  }
}
