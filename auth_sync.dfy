/** The effect of hooks/useAuthSync.ts: which slice actions the session's
    status and user produce. */
module AuthSync {
  import opened Common
  import opened AuthSlice

  datatype Status = Loading | Authenticated | Unauthenticated

  /** The session's user; `None` fields are null or undefined. */
  datatype SessionProfile = SessionProfile(id: Option<string>, name: Option<string>, email: Option<string>, image: Option<string>)

  /** `a ?? b`: only null and undefined fall through, "" does not. */
  function OrElse(a: Option<string>, b: string): string {
    if a.Some? then a.value else b
  }

  /** The user `setUser` receives: the id is the session's id, else its
      e-mail, else "unknown". */
  function ToClientUser(p: SessionProfile): (u: ClientUser)
    ensures p.id.Some? ==> u.id == p.id.value
    ensures p.id.None? && p.email.Some? ==> u.id == p.email.value
    ensures p.id.None? && p.email.None? ==> u.id == "unknown"
    ensures u.name == OrElse(p.name, "") && u.email == OrElse(p.email, "") && u.profileImage == p.image
  {
    ClientUser(if p.id.Some? then p.id.value else OrElse(p.email, "unknown"), OrElse(p.name, ""), OrElse(p.email, ""), p.image)
  }

  /** The actions one run of the effect dispatches, in order. */
  function SyncActions(status: Status, user: Option<SessionProfile>): (r: seq<Action>)
    ensures status == Loading ==> r == [SetLoading(true)]
    ensures status != Loading ==> |r| == 2 && r[0] == SetLoading(false)
    ensures status != Loading ==> (r[1].SetUser? <==> status == Authenticated && user.Some?)
    ensures status != Loading && !(status == Authenticated && user.Some?) ==> r[1] == ClearUser
  {
    if status == Loading then [SetLoading(true)]
    else if status == Authenticated && user.Some? then [SetLoading(false), SetUser(ToClientUser(user.value))]
    else [SetLoading(false), ClearUser]
  }

  /** After the effect the slice mirrors the session: it is loading exactly
      while the session is, and once resolved it holds a user exactly when
      the session is authenticated with one. */
  lemma {:induction false} SyncMirrorsSession(s: AuthState, status: Status, user: Option<SessionProfile>)
    requires Consistent(s)
    ensures var r := Run(s, SyncActions(status, user));
            && Consistent(r)
            && r.loading == (status == Loading)
            && (status == Loading ==> r.user == s.user)
            && (status != Loading ==> (r.isAuthenticated <==> status == Authenticated && user.Some?))
            && (status == Authenticated && user.Some? ==> r.user == Some(ToClientUser(user.value)))
  {
    var actions := SyncActions(status, user);
    RunKeepsConsistent(s, actions);
    var s1 := Reduce(s, actions[0]);
    if status == Loading {
      assert Run(s1, actions[1..]) == s1;
    } else {
      var s2 := Reduce(s1, actions[1]);
      assert actions[1..][0] == actions[1] && actions[1..][1..] == [];
      assert Run(s1, actions[1..]) == Run(s2, []) == s2;
    }
  }
}
