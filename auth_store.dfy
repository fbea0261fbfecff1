/**
 * The frontend's authentication store (frontend/src/store/authStore.js): a
 * zustand store with three fields, changed only through `setUser`, `logout`
 * and `setLoading`. zustand's `set` merges the given fields into the state
 * shallowly, so a transition leaves every field it does not name as it was.
 */
module AuthStore {
  import opened Common

  /** The store's state; `user` is `None` for `null`. */
  datatype AuthState<U> = AuthState(user: Option<U>, isAuthenticated: bool, isLoading: bool)

  /** The argument of one `set` call: `None` for a field the call does not name. */
  datatype Patch<U> = Patch(user: Option<Option<U>>, isAuthenticated: Option<bool>, isLoading: Option<bool>)

  /** A transition, with its argument; `SetUser(None)` is `setUser(null)`. */
  datatype Action<U> = SetUser(u: Option<U>) | Logout | SetLoading(b: bool)

  function Initial<U>(): AuthState<U>
  {
    AuthState(None, false, true)
  }

  /** zustand's shallow merge: fields named by the patch are replaced, the others kept. */
  function Merge<U>(s: AuthState<U>, p: Patch<U>): AuthState<U>
  {
    AuthState(
      if p.user.Some? then p.user.value else s.user,
      if p.isAuthenticated.Some? then p.isAuthenticated.value else s.isAuthenticated,
      if p.isLoading.Some? then p.isLoading.value else s.isLoading)
  }

  /** The object each transition hands to `set`. */
  function PatchOf<U>(a: Action<U>): Patch<U>
  {
    match a
    case SetUser(u) => Patch(Some(u), Some(true), Some(false))
    case Logout => Patch(Some(None), Some(false), Some(false))
    case SetLoading(b) => Patch(None, None, Some(b))
  }

  function Step<U>(s: AuthState<U>, a: Action<U>): AuthState<U>
  {
    Merge(s, PatchOf(a))
  }

  /** The state after the given transitions, starting from the initial state. */
  function Replay<U>(actions: seq<Action<U>>): AuthState<U>
  {
    if actions == [] then Initial()
    else Step(Replay(actions[..|actions| - 1]), actions[|actions| - 1])
  }

  /** The three transitions, each stated field by field. */
  lemma Transitions<U>(s: AuthState<U>, u: Option<U>, b: bool)
    ensures Step(s, SetUser(u)) == AuthState(u, true, false)
    ensures Step(s, Logout) == AuthState(None, false, false)
    ensures Step(s, SetLoading(b)) == s.(isLoading := b)
  {
  }

  /** `logout` leaves the same state whatever came before, so calling it again changes nothing. */
  lemma LogoutIdempotent<U>(s: AuthState<U>, t: AuthState<U>)
    ensures Step(Step(s, Logout), Logout) == Step(s, Logout) == Step(t, Logout)
  {
  }

  /** The transitions that touch the session fields `user` and `isAuthenticated`. */
  predicate IsSessionAction<U>(a: Action<U>)
  {
    a.SetUser? || a.Logout?
  }

  /**
   * After any sequence of transitions, `isAuthenticated` holds exactly when
   * the most recent `setUser`/`logout` was a `setUser`, and `user` is the
   * argument of that `setUser`; `setLoading` calls in between change neither.
   * With no session transition yet, the initial `user = null`,
   * `isAuthenticated = false` remain.
   */
  lemma {:induction false} SessionFollowsLastSessionAction<U>(actions: seq<Action<U>>)
    ensures var s := Replay(actions);
      (forall k :: 0 <= k < |actions| ==> !IsSessionAction(actions[k])) ==> s.user == None && !s.isAuthenticated
    ensures var s := Replay(actions);
      forall k :: (0 <= k < |actions| && IsSessionAction(actions[k]) &&
                   (forall m :: k < m < |actions| ==> !IsSessionAction(actions[m]))) ==>
        (s.isAuthenticated <==> actions[k].SetUser?) &&
        s.user == (if actions[k].SetUser? then actions[k].u else None)
  {
    if actions != [] {
      var n := |actions| - 1;
      var prior := actions[..n];
      var last := actions[n];
      assert Replay(actions) == Step(Replay(prior), last);
      SessionFollowsLastSessionAction(prior);
      if IsSessionAction(last) {
        forall k | 0 <= k < |actions| && IsSessionAction(actions[k]) &&
                   (forall m :: k < m < |actions| ==> !IsSessionAction(actions[m]))
          ensures k == n
        {
        }
      } else {
        assert Replay(actions).user == Replay(prior).user;
        assert Replay(actions).isAuthenticated == Replay(prior).isAuthenticated;
        forall k | 0 <= k < |actions| && IsSessionAction(actions[k]) &&
                   (forall m :: k < m < |actions| ==> !IsSessionAction(actions[m]))
          ensures k < n && prior[k] == actions[k]
          ensures forall m :: k < m < |prior| ==> !IsSessionAction(prior[m])
        {
          assert forall m :: k < m < |prior| ==> prior[m] == actions[m];
        }
        assert (forall k :: 0 <= k < |actions| ==> !IsSessionAction(actions[k])) ==>
               (forall k :: 0 <= k < |prior| ==> !IsSessionAction(prior[k])) by {
          assert forall k :: 0 <= k < |prior| ==> prior[k] == actions[k];
        }
      }
    }
  }

  /**
   * After any sequence of transitions, `isLoading` is the value the most
   * recent transition gave it (`setUser` and `logout` clear it), or the
   * initial `true` before any transition.
   */
  lemma {:induction false} LoadingFollowsLastAction<U>(actions: seq<Action<U>>)
    ensures actions == [] ==> Replay(actions).isLoading
    ensures actions != [] ==>
      Replay(actions).isLoading == (match actions[|actions| - 1] case SetLoading(b) => b case _ => false)
  {
  }

  /** The store: the three fields, and the transitions applied so far as a ghost record. */
  class Store<U> {
    var user: Option<U>
    var isAuthenticated: bool
    var isLoading: bool
    ghost var history: seq<Action<U>>

    function State(): AuthState<U>
      reads this
    {
      AuthState(user, isAuthenticated, isLoading)
    }

    /** The fields are what the recorded transitions produce from the initial state. */
    ghost predicate Valid()
      reads this
    {
      State() == Replay(history)
    }

    constructor ()
      ensures Valid() && history == []
      ensures user == None && !isAuthenticated && isLoading
    {
      user := None;
      isAuthenticated := false;
      isLoading := true;
      history := [];
    }

    method SetUser(u: Option<U>)
      requires Valid()
      modifies this
      ensures Valid() && history == old(history) + [Action.SetUser(u)]
      ensures State() == Step(old(State()), Action.SetUser(u))
      ensures user == u && isAuthenticated && !isLoading
    {
      user, isAuthenticated, isLoading := u, true, false;
      history := history + [Action.SetUser(u)];
    }

    method Logout()
      requires Valid()
      modifies this
      ensures Valid() && history == old(history) + [Action.Logout]
      ensures State() == Step(old(State()), Action.Logout)
      ensures user == None && !isAuthenticated && !isLoading
    {
      user, isAuthenticated, isLoading := None, false, false;
      history := history + [Action.Logout];
    }

    method SetLoading(b: bool)
      requires Valid()
      modifies this`isLoading, this`history
      ensures Valid() && history == old(history) + [Action.SetLoading(b)]
      ensures State() == Step(old(State()), Action.SetLoading(b))
      ensures isLoading == b && user == old(user) && isAuthenticated == old(isAuthenticated)
    {
      isLoading := b;
      history := history + [Action.SetLoading(b)];
    }
  }
}
