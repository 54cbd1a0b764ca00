/**
 * What the auth slice's reducer guarantees, and what it does not: properties
 * of single transitions that relate several actions, an invariant every
 * transition keeps, and the fact that with the thunk bodies as written no run
 * of the store ever signs anyone in.
 */
module AuthProperties {
  import opened Wrappers
  import opened SharedTypes
  import opened AuthSlice

  // ---------------------------------------------------------------------------
  // Action types

  /** Two actions are handled by the same case of the reducer. */
  predicate SameCase(a: Action, b: Action)
  {
    match a
    case Logout => b.Logout?
    case ClearError => b.ClearError?
    case SetUser(_) => b.SetUser?
    case Pending(t) => b.Pending? && b.thunk == t
    case Fulfilled(t, _) => b.Fulfilled? && b.thunk == t
    case Rejected(t, _) => b.Rejected? && b.thunk == t
    case RefreshPending => b.RefreshPending?
    case RefreshFulfilled(_) => b.RefreshFulfilled?
    case RefreshRejected(_) => b.RefreshRejected?
  }

  /**
   * The type string of an action identifies its case: no two cases of the
   * reducer, and no two thunks, share a type.
   */
  lemma ActionTypeIdentifiesCase(a: Action, b: Action)
    ensures ActionType(a) == ActionType(b) <==> SameCase(a, b)
  {
    var x, y := ActionType(a), ActionType(b);
    if x == y {
      // the length and the eleventh character from the end tell all fifteen types apart
      assert |x| == |y| && x[|x| - 11] == y[|y| - 11];
    }
  }

  /** Dispatching two actions applies the reducer twice. */
  lemma ReduceAllTwo(s: AuthState, a: Action, b: Action)
    ensures ReduceAll(s, [a, b]) == Reduce(Reduce(s, a), b)
  {
    assert [a, b][1..] == [b];
    assert ReduceAll(s, [a, b]) == ReduceAll(Reduce(s, a), [b]);
    assert [b][1..] == [];
    assert ReduceAll(Reduce(s, a), [b]) == ReduceAll(Reduce(Reduce(s, a), b), []);
  }

  // ---------------------------------------------------------------------------
  // Synchronous reducers

  /** Logging out twice is the same as logging out once. */
  lemma LogoutIdempotent(s: AuthState)
    ensures Reduce(Reduce(s, Logout), Logout) == Reduce(s, Logout)
  {
  }

  /** After `setUser`, only the last user set is kept. */
  lemma SetUserLastWins(s: AuthState, u1: User, u2: User)
    ensures Reduce(Reduce(s, SetUser(u1)), SetUser(u2)) == Reduce(s, SetUser(u2))
  {
  }

  // ---------------------------------------------------------------------------
  // Thunk lifecycle cases

  /**
   * The three login-style thunks are handled alike in each of their three
   * cases. This holds by construction: `Reduce` shares one transition per
   * lifecycle case and ignores the thunk, which is the modelling choice that
   * the identical case groups of the source justify.
   */
  lemma LoginThunksAlike(s: AuthState, t1: LoginThunk, t2: LoginThunk, p: SessionPayload, m: string)
    ensures Reduce(s, Pending(t1)) == Reduce(s, Pending(t2))
    ensures Reduce(s, Fulfilled(t1, p)) == Reduce(s, Fulfilled(t2, p))
    ensures Reduce(s, Rejected(t1, m)) == Reduce(s, Rejected(t2, m))
  {
  }

  /**
   * There is no single-in-flight guard: a second pending action while one is
   * in flight is not refused, and leaves the state as the first left it.
   */
  lemma SecondPendingAccepted(s: AuthState, t1: LoginThunk, t2: LoginThunk)
    ensures Reduce(Reduce(s, Pending(t1)), Pending(t2)) == Reduce(s, Pending(t1))
    ensures Reduce(Reduce(s, Pending(t1)), Pending(t2)).isLoading
  {
  }

  /** A fulfilled login assigns all six fields: its result does not depend on the state before. */
  lemma FulfilledForgetsPrior(s1: AuthState, s2: AuthState, t: LoginThunk, p: SessionPayload)
    ensures Reduce(s1, Fulfilled(t, p)) == Reduce(s2, Fulfilled(t, p))
  {
  }

  /**
   * There is no stale-response guard: a login that completes after a logout
   * signs the user back in, exactly as if the logout had not happened.
   */
  lemma LateFulfilledUndoesLogout(s: AuthState, t: LoginThunk, p: SessionPayload)
    ensures ReduceAll(s, [Logout, Fulfilled(t, p)]) == ReduceAll(s, [Fulfilled(t, p)])
    ensures ReduceAll(s, [Logout, Fulfilled(t, p)]).isAuthenticated
  {
    ReduceAllTwo(s, Logout, Fulfilled(t, p));
    assert [Fulfilled(t, p)][1..] == [];
    FulfilledForgetsPrior(Reduce(s, Logout), s, t, p);
  }

  /**
   * A rejected login keeps the user and tokens of an earlier session while
   * clearing the flag, so a stored token with `isAuthenticated` false is a
   * reachable state.
   */
  lemma StaleTokenReachable(p: SessionPayload, t: LoginThunk, m: string)
    ensures var s := ReduceAll(InitialState(), [Pending(t), Fulfilled(t, p), Pending(t), Rejected(t, m)]);
            s.token == Some(p.token) && s.refreshToken == Some(p.refreshToken) && s.user == Some(p.user) &&
            !s.isAuthenticated && !s.isLoading && s.error == Some(m)
  {
    var run := [Pending(t), Fulfilled(t, p), Pending(t), Rejected(t, m)];
    var signedIn := Reduce(Reduce(InitialState(), Pending(t)), Fulfilled(t, p));
    ReduceAllAppend(InitialState(), run[..2], run[2..]);
    assert run[..2] + run[2..] == run;
    ReduceAllTwo(InitialState(), Pending(t), Fulfilled(t, p));
    assert run[..2] == [Pending(t), Fulfilled(t, p)];
    ReduceAllTwo(signedIn, Pending(t), Rejected(t, m));
    assert run[2..] == [Pending(t), Rejected(t, m)];
  }

  /**
   * The refresh thunk has only a fulfilled case: its pending and rejected
   * actions leave the state unchanged, so a failed refresh does not sign out.
   */
  lemma FailedRefreshChangesNothing(s: AuthState, m: string)
    ensures ReduceAll(s, [RefreshPending, RefreshRejected(m)]) == s
  {
    ReduceAllTwo(s, RefreshPending, RefreshRejected(m));
  }

  // ---------------------------------------------------------------------------
  // Runs of the store

  /** Dispatching `a` and then `b` is dispatching `a + b`. */
  lemma {:induction false} ReduceAllAppend(s: AuthState, a: seq<Action>, b: seq<Action>)
    ensures ReduceAll(s, a + b) == ReduceAll(ReduceAll(s, a), b)
    decreases |a|
  {
    if a == [] {
      assert a + b == b;
    } else {
      assert (a + b)[0] == a[0];
      assert (a + b)[1..] == a[1..] + b;
      ReduceAllAppend(Reduce(s, a[0]), a[1..], b);
    }
  }

  /**
   * The relations between the fields that every transition keeps: a signed-in
   * state has a user, both tokens and no error; a loading state has no error;
   * the two tokens are stored and forgotten together. The first and third
   * relations rest on fulfilled payloads carrying a user and both tokens.
   */
  predicate Consistent(s: AuthState)
  {
    (s.isAuthenticated ==> s.user.Some? && s.token.Some? && s.refreshToken.Some? && s.error.None?) &&
    (s.isLoading ==> s.error.None?) &&
    (s.token.Some? <==> s.refreshToken.Some?)
  }

  /** Every action keeps the state consistent. */
  lemma ReducePreservesConsistent(s: AuthState, a: Action)
    requires Consistent(s)
    ensures Consistent(Reduce(s, a))
  {
  }

  /** Every run of the store from a consistent state ends in a consistent state. */
  lemma {:induction false} ReduceAllPreservesConsistent(s: AuthState, actions: seq<Action>)
    requires Consistent(s)
    ensures Consistent(ReduceAll(s, actions))
    decreases |actions|
  {
    if actions != [] {
      ReducePreservesConsistent(s, actions[0]);
      ReduceAllPreservesConsistent(Reduce(s, actions[0]), actions[1..]);
    }
  }

  /** Every state the store can reach from the initial state is consistent. */
  lemma ReachableConsistent(actions: seq<Action>)
    ensures Consistent(ReduceAll(InitialState(), actions))
  {
    ReduceAllPreservesConsistent(InitialState(), actions);
  }

  // ---------------------------------------------------------------------------
  // What the code as written can dispatch

  /**
   * The actions that can occur while every thunk body is a stub: the
   * synchronous ones, any pending action, and rejections carrying the
   * stub's message; never a fulfilled action.
   */
  predicate StubProducible(a: Action)
  {
    match a
    case Fulfilled(_, _) => false
    case RefreshFulfilled(_) => false
    case Rejected(_, m) => m == NotImplemented
    case RefreshRejected(m) => m == NotImplemented
    case _ => true
  }

  /** Every thunk invocation dispatches its pending action and then a rejection with 'Not implemented'. */
  lemma EveryThunkRejects(call: ThunkCall)
    ensures forall i :: 0 <= i < |ThunkActions(call)| ==> StubProducible(ThunkActions(call)[i])
    ensures ThunkActions(call)[0] ==
            match call
            case LoginWithEmailCall(_) => Pending(LoginWithEmail)
            case RegisterWithEmailCall(_) => Pending(RegisterWithEmail)
            case LoginWithOAuthCall(_) => Pending(LoginWithOAuth)
            case RefreshAuthTokenCall => RefreshPending
    ensures ThunkActions(call)[1] ==
            match call
            case LoginWithEmailCall(_) => Rejected(LoginWithEmail, NotImplemented)
            case RegisterWithEmailCall(_) => Rejected(RegisterWithEmail, NotImplemented)
            case LoginWithOAuthCall(_) => Rejected(LoginWithOAuth, NotImplemented)
            case RefreshAuthTokenCall => RefreshRejected(NotImplemented)
  {
  }

  /** Signed out with no stored token, and no error other than the stub's. */
  predicate NeverSignedIn(s: AuthState)
  {
    !s.isAuthenticated && s.token.None? && s.refreshToken.None? &&
    (s.error.None? || s.error == Some(NotImplemented))
  }

  /**
   * From a never-signed-in state, any run of stub-producible actions, in any
   * interleaving, stays never signed in.
   */
  lemma {:induction false} StubRunStaysSignedOut(s: AuthState, actions: seq<Action>)
    requires NeverSignedIn(s)
    requires forall i :: 0 <= i < |actions| ==> StubProducible(actions[i])
    ensures NeverSignedIn(ReduceAll(s, actions))
    decreases |actions|
  {
    if actions != [] {
      assert StubProducible(actions[0]);
      var next := Reduce(s, actions[0]);
      assert NeverSignedIn(next);
      assert forall i :: 0 <= i < |actions[1..]| ==> actions[1..][i] == actions[i + 1];
      StubRunStaysSignedOut(next, actions[1..]);
    }
  }

  /**
   * With the thunk bodies as written, no sequence of actions the code can
   * dispatch ever sets `isAuthenticated` or stores a token.
   */
  lemma StubRunNeverAuthenticates(actions: seq<Action>)
    requires forall i :: 0 <= i < |actions| ==> StubProducible(actions[i])
    ensures !ReduceAll(InitialState(), actions).isAuthenticated
    ensures ReduceAll(InitialState(), actions).token == None
    ensures ReduceAll(InitialState(), actions).refreshToken == None
  {
    StubRunStaysSignedOut(InitialState(), actions);
  }
}
