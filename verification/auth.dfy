/**
 * The `authenticate` wrapper of app/utils.py: read the Authorization header,
 * strip "Bearer ", find an active session with that token, expire it lazily
 * if its time is up, and otherwise bind the request to the session's user.
 */
module Auth {
  import opened Common
  import opened Tables

  const BearerPrefix: string := "Bearer "

  predicate StartsWith(s: string, prefix: string) {
    |prefix| <= |s| && s[..|prefix|] == prefix
  }

  /**
   * Python's `s.replace(pat, '')`: every non-overlapping occurrence of pat,
   * found scanning left to right, is dropped, not only a leading one.
   */
  function RemoveAll(s: string, pat: string): string
    requires pat != []
    decreases |s|
  {
    if |s| < |pat| then s
    else if s[..|pat|] == pat then RemoveAll(s[|pat|..], pat)
    else [s[0]] + RemoveAll(s[1..], pat)
  }

  /** An occurrence in the tail of s is an occurrence in s. */
  lemma OccursInTail(pat: string, s: string)
    requires s != []
    ensures Occurs(pat, s[1..]) ==> Occurs(pat, s)
  {
    if Occurs(pat, s[1..]) {
      var i :| 0 <= i <= |s[1..]| - |pat| && OccursAt(pat, s[1..], i);
      assert s[i + 1..i + 1 + |pat|] == s[1..][i..i + |pat|];
      assert OccursAt(pat, s, i + 1);
    }
  }

  /** An occurrence in s that is not at its start is an occurrence in the tail. */
  lemma OccursPastHead(pat: string, s: string)
    requires s != [] && !OccursAt(pat, s, 0)
    ensures Occurs(pat, s) ==> Occurs(pat, s[1..])
  {
    if Occurs(pat, s) {
      var i :| 0 <= i <= |s| - |pat| && OccursAt(pat, s, i);
      assert i >= 1;
      assert s[1..][i - 1..i - 1 + |pat|] == s[i..i + |pat|];
      assert OccursAt(pat, s[1..], i - 1);
    }
  }

  lemma {:induction false} RemoveAllWithoutOccurrence(s: string, pat: string)
    requires pat != [] && !Occurs(pat, s)
    ensures RemoveAll(s, pat) == s
  {
    if |s| >= |pat| {
      assert !OccursAt(pat, s, 0);
      OccursInTail(pat, s);
      RemoveAllWithoutOccurrence(s[1..], pat);
    }
  }

  lemma {:induction false} RemoveAllShortens(s: string, pat: string)
    requires pat != []
    ensures |RemoveAll(s, pat)| <= |s|
    ensures Occurs(pat, s) ==> |RemoveAll(s, pat)| < |s|
  {
    if |s| < |pat| {
    } else if s[..|pat|] == pat {
      RemoveAllShortens(s[|pat|..], pat);
    } else {
      OccursPastHead(pat, s);
      RemoveAllShortens(s[1..], pat);
    }
  }

  /**
   * The token the wrapper looks up, or None when the header is missing,
   * empty, or does not start with "Bearer ".
   */
  function TokenOf(header: Option<string>): Option<string> {
    if header.None? || header.value == [] || !StartsWith(header.value, BearerPrefix) then None
    else Some(RemoveAll(header.value, BearerPrefix))
  }

  /**
   * "Bearer " followed by t yields exactly t if and only if t itself holds no
   * "Bearer ": later occurrences are removed as well.
   */
  lemma TokenIsRestOfHeaderIffClean(t: string)
    ensures TokenOf(Some(BearerPrefix + t)) == Some(t) <==> !Occurs(BearerPrefix, t)
  {
    var h := BearerPrefix + t;
    assert h[..|BearerPrefix|] == BearerPrefix;
    assert h[|BearerPrefix|..] == t;
    assert RemoveAll(h, BearerPrefix) == RemoveAll(t, BearerPrefix);
    RemoveAllShortens(t, BearerPrefix);
    if !Occurs(BearerPrefix, t) {
      RemoveAllWithoutOccurrence(t, BearerPrefix);
    }
  }

  /** A request bound by the wrapper: `request.session`, `request.session_id`, `request.user_id`. */
  datatype AuthContext = AuthContext(sessionId: int, token: string, userId: int)

  /**
   * One run of the wrapper on the session table at time `now`: its verdict and
   * the session table afterwards.
   */
  function AuthStep(ss: seq<Session>, header: Option<string>, now: int): (Result<AuthContext>, seq<Session>) {
    match TokenOf(header)
    case None => (Err(BadAuthHeader), ss)
    case Some(token) =>
      match ActiveSession(ss, token)
      case None => (Err(UnknownSession), ss)
      case Some(i) =>
        if ss[i].validTill < now then (Err(SessionExpired), ss[i := ss[i].(status := LoggedOut)])
        else (Ok(AuthContext(ss[i].id, token, ss[i].userId)), ss)
  }

  /** The wrapper, run against the database before the handler it guards. */
  method Authenticate(db: Db, header: Option<string>, now: int) returns (r: Result<AuthContext>)
    requires db.Valid()
    modifies db
    ensures db.Valid()
    ensures (r, db.sessions) == AuthStep(old(db.sessions), header, now)
    ensures db.Snapshot() == old(db.Snapshot()).(sessions := db.sessions)
  {
    if header.None? || header.value == [] || !StartsWith(header.value, BearerPrefix) {
      return Err(BadAuthHeader);
    }
    var token := RemoveAll(header.value, BearerPrefix);
    var found := ActiveSession(db.sessions, token);
    if found.None? {
      return Err(UnknownSession);
    }
    var i := found.value;
    if db.sessions[i].validTill < now {
      db.sessions := db.sessions[i := db.sessions[i].(status := LoggedOut)];
      return Err(SessionExpired);
    }
    r := Ok(AuthContext(db.sessions[i].id, token, db.sessions[i].userId));
  }

  /** A missing or malformed header is refused and changes no session. */
  lemma BadHeaderChangesNothing(ss: seq<Session>, header: Option<string>, now: int)
    requires TokenOf(header).None?
    ensures AuthStep(ss, header, now) == (Err(BadAuthHeader), ss)
  {
  }

  /**
   * A successful run binds an active, unexpired session carrying the header's
   * token, binds that session's user, and leaves the table as it was.
   */
  lemma SuccessBindsLiveSession(ss: seq<Session>, header: Option<string>, now: int)
    requires forall i :: 0 <= i < |ss| ==> ss[i].id == i + 1
    requires AuthStep(ss, header, now).0.Ok?
    ensures var (r, ss') := AuthStep(ss, header, now);
      && ss' == ss
      && TokenOf(header) == Some(r.value.token)
      && IsKey(r.value.sessionId, |ss|)
      && ss[r.value.sessionId - 1].token == r.value.token
      && ss[r.value.sessionId - 1].status == Active
      && ss[r.value.sessionId - 1].validTill >= now
      && ss[r.value.sessionId - 1].userId == r.value.userId
  {
  }

  /** A run succeeds exactly when the first active session with the token is still valid at `now`. */
  lemma SuccessIffValid(ss: seq<Session>, header: Option<string>, now: int)
    ensures AuthStep(ss, header, now).0.Ok? <==>
      && TokenOf(header).Some?
      && ActiveSession(ss, TokenOf(header).value).Some?
      && ss[ActiveSession(ss, TokenOf(header).value).value].validTill >= now
  {
  }

  /**
   * Lazy expiry: a refusal for expiry flips exactly one active, expired
   * session carrying the token to logged out; every other refusal changes nothing.
   */
  lemma ExpiryFlipsExactlyOne(ss: seq<Session>, header: Option<string>, now: int)
    ensures var (r, ss') := AuthStep(ss, header, now);
      && (r == Err(SessionExpired) ==>
            exists i :: 0 <= i < |ss| && ss[i].status == Active && ss[i].validTill < now
                        && Some(ss[i].token) == TokenOf(header)
                        && ss' == ss[i := ss[i].(status := LoggedOut)])
      && (r != Err(SessionExpired) ==> ss' == ss)
  {
    var (r, ss') := AuthStep(ss, header, now);
    if r == Err(SessionExpired) {
      var i := ActiveSession(ss, TokenOf(header).value).value;
      assert ss' == ss[i := ss[i].(status := LoggedOut)];
    }
  }

  /** No run turns a logged-out session back into an active one. */
  lemma LoggedOutStaysLoggedOut(ss: seq<Session>, header: Option<string>, now: int, k: nat)
    requires k < |ss| && ss[k].status == LoggedOut
    ensures var ss' := AuthStep(ss, header, now).1; |ss'| == |ss| && ss'[k].status == LoggedOut
  {
  }

  /**
   * Once a session has been expired, no later run, at any time, binds it again;
   * and when no other session carries its token, every later run with the
   * same header is refused.
   */
  lemma ExpiredTokenStaysRefused(ss: seq<Session>, header: Option<string>, now: int, later: int)
    requires forall i :: 0 <= i < |ss| ==> ss[i].id == i + 1
    requires AuthStep(ss, header, now).0 == Err(SessionExpired)
    ensures var ss' := AuthStep(ss, header, now).1;
      var i := ActiveSession(ss, TokenOf(header).value).value;
      && (AuthStep(ss', header, later).0.Ok? ==> AuthStep(ss', header, later).0.value.sessionId != i + 1)
      && ((forall j :: 0 <= j < |ss| && j != i ==> ss[j].token != ss[i].token) ==>
            AuthStep(ss', header, later).0 == Err(UnknownSession))
  {
    var ss' := AuthStep(ss, header, now).1;
    var token := TokenOf(header).value;
    var i := ActiveSession(ss, token).value;
    assert ss'[i].status == LoggedOut;
    assert forall j :: 0 <= j < |ss'| ==> ss'[j].id == j + 1;
    if AuthStep(ss', header, later).0.Ok? {
      SuccessBindsLiveSession(ss', header, later);
    }
    if forall j :: 0 <= j < |ss| && j != i ==> ss[j].token != ss[i].token {
      assert ss[i].token == token;
      assert forall j :: 0 <= j < |ss'| ==> !(ss'[j].token == token && ss'[j].status == Active);
    }
  }

  /**
   * app/routes.py wraps handlers that are already decorated with the wrapper,
   * so it runs twice, the second time at a clock reading `later`. When the
   * first run succeeds, the second sees the same table and binds the same
   * session exactly when that session is still valid at `later`; otherwise
   * it expires it.
   */
  lemma WrapperRunTwice(ss: seq<Session>, header: Option<string>, now: int, later: int)
    requires AuthStep(ss, header, now).0.Ok?
    ensures var (r1, ss1) := AuthStep(ss, header, now);
      var i := ActiveSession(ss, TokenOf(header).value).value;
      var (r2, ss2) := AuthStep(ss1, header, later);
      && ss1 == ss
      && (ss[i].validTill >= later ==> r2 == r1 && ss2 == ss)
      && (ss[i].validTill < later ==> r2 == Err(SessionExpired) && ss2 == ss[i := ss[i].(status := LoggedOut)])
  {
  }

  /** "Bearer " is removed wherever it appears in the header, not only in front. */
  lemma EveryOccurrenceRemoved()
    ensures TokenOf(Some("Bearer abBearer c")) == Some("abc")
    ensures TokenOf(Some("bearer abc")) == None
  {
    var h := "Bearer abBearer c";
    assert h[..7] == BearerPrefix && h[7..] == "abBearer c";
    assert "abBearer c"[..7][0] != BearerPrefix[0];
    assert "bBearer c"[..7][0] != BearerPrefix[0];
    assert "Bearer c"[..7] == BearerPrefix && "Bearer c"[7..] == "c";
    calc {
      RemoveAll(h, BearerPrefix);
      RemoveAll("abBearer c", BearerPrefix);
      { assert "abBearer c"[1..] == "bBearer c"; }
      "a" + RemoveAll("bBearer c", BearerPrefix);
      { assert "bBearer c"[1..] == "Bearer c"; }
      "a" + ("b" + RemoveAll("Bearer c", BearerPrefix));
      "a" + ("b" + RemoveAll("c", BearerPrefix));
      "a" + ("b" + "c");
      "abc";
    }
    assert StartsWith(h, BearerPrefix);
    assert "bearer abc"[..7][0] != BearerPrefix[0];
  }
}
