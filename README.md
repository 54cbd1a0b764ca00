# Auth slice of the LiveDots mobile client, in Dafny

This project models the client-side authentication state machine of the
LiveDots mobile app. That machine is the Redux slice `auth`. Its state has six
fields: `user`, `token`, `refreshToken`, `isAuthenticated`, `isLoading` and
`error`. The slice reacts to these actions:

- the synchronous reducers `logout`, `clearError` and `setUser`;
- the pending, fulfilled and rejected actions of the three login-style thunks
  `loginWithEmail`, `registerWithEmail` and `loginWithOAuth`;
- the fulfilled action of `refreshAuthToken`.

Every thunk body is a stub. It throws `Error('Not implemented')` and rejects
with that message.

Files:

- `wrappers.dfy`: `Option`, which stands for the source's `T | null`.
- `shared_types.dfy`: the `User` record. The slice stores it but never looks
  inside it.
- `auth_slice.dfy`: module `AuthSlice`. It holds the state and action
  datatypes and the Redux action type strings. It holds the thunk bodies and
  the actions each thunk dispatches. It defines the reducer twice:
  - `Reduce` is the value-level specification, (state, action) to state.
  - `AuthStore` is a class with the six fields and one method per case
    reducer. Each method assigns its fields in place and is proved to agree
    with `Reduce`.
- `auth_properties.dfy`: module `AuthProperties`. It holds the lemmas about
  `Reduce` and `ReduceAll`, where `ReduceAll` applies a sequence of actions in
  dispatch order.

The slice has no single-in-flight guard, no stale-response guard, and no
sign-out on a failed refresh:

- A second pending action while loading is accepted
  (`SecondPendingAccepted`).
- A login that completes after `logout` signs the user back in
  (`LateFulfilledUndoesLogout`).
- The slice has no case for the refresh thunk's pending or rejected actions,
  so a failed refresh changes nothing (`FailedRefreshChangesNothing`).

The lemmas named above prove what the code does in each case.

## Model

| member | source | states |
|---|---|---|
| AuthSlice.InitialState | mobile/src/store/slices/authSlice.ts:14-21 | the slice starts neither authenticated nor loading |
| AuthSlice.ActionType | mobile/src/store/slices/authSlice.ts:24-92 | no contract of its own: the type strings `auth/<reducer>` and `<prefix>/<lifecycle>`, built from the slice name and the prefixes at lines 25, 37, 52, 64 and 76; `AuthProperties.ActionTypeIdentifiesCase` states that they identify the reducer case |
| AuthSlice.Reduce | mobile/src/store/slices/authSlice.ts:75-161 | only the lifecycle cases move `isLoading`; only a fulfilled login sets `isAuthenticated`; only logout, a fulfilled login and a fulfilled refresh change the tokens; only logout, `setUser` and a fulfilled login change the user; unhandled refresh actions change nothing; the `AuthStore` methods are proved to agree with it |
| AuthSlice.LoginWithEmailBody | mobile/src/store/slices/authSlice.ts:26-33 | no contract of its own: the stub body settles as `rejectWithValue('Not implemented')`; `AuthProperties.EveryThunkRejects` states it |
| AuthSlice.RegisterWithEmailBody | mobile/src/store/slices/authSlice.ts:38-48 | no contract of its own: the stub body settles as `rejectWithValue('Not implemented')`; `AuthProperties.EveryThunkRejects` states it |
| AuthSlice.LoginWithOAuthBody | mobile/src/store/slices/authSlice.ts:53-60 | no contract of its own: the stub body settles as `rejectWithValue('Not implemented')` for every provider; `AuthProperties.EveryThunkRejects` states it |
| AuthSlice.RefreshAuthTokenBody | mobile/src/store/slices/authSlice.ts:65-72 | no contract of its own: the stub body settles as `rejectWithValue('Not implemented')`; `AuthProperties.EveryThunkRejects` states it |
| AuthSlice.ThunkActions | mobile/src/store/slices/authSlice.ts:24-73 | every thunk invocation dispatches exactly two actions, and the first is that thunk's own pending action (`RefreshPending` for the refresh thunk); `AuthProperties.EveryThunkRejects` states the second |
| AuthSlice.AuthStore.constructor | mobile/src/store/slices/authSlice.ts:14-21 | a new store holds null user, tokens and error, with both flags false |
| AuthSlice.AuthStore.Logout | mobile/src/store/slices/authSlice.ts:79-85 | user, token and refresh token become null; the flag drops; the error is cleared; `isLoading` is kept; agrees with `Reduce` |
| AuthSlice.AuthStore.ClearError | mobile/src/store/slices/authSlice.ts:86-88 | only the error changes, to null; the other five fields are kept |
| AuthSlice.AuthStore.SetUser | mobile/src/store/slices/authSlice.ts:89-91 | only the user changes; tokens, flags and error are kept |
| AuthSlice.AuthStore.OnPending | mobile/src/store/slices/authSlice.ts:96-99 | loading starts and the error is cleared; user, tokens and flag are kept (the same at lines 116-119 and 136-139) |
| AuthSlice.AuthStore.OnFulfilled | mobile/src/store/slices/authSlice.ts:100-107 | loading stops; authenticated; no error; user and both tokens come from the payload (the same at lines 120-127 and 140-147) |
| AuthSlice.AuthStore.OnRejected | mobile/src/store/slices/authSlice.ts:108-112 | loading stops; not authenticated; the error is the rejection payload; user and tokens are kept (the same at lines 128-132 and 148-152) |
| AuthSlice.AuthStore.OnRefreshFulfilled | mobile/src/store/slices/authSlice.ts:155-159 | only the two tokens change, to the payload's |
| AuthSlice.AuthStore.Dispatch | mobile/src/store/slices/authSlice.ts:75-161 | the store's reducer agrees with `Reduce` on every action, and unhandled refresh actions change nothing |
| AuthSlice.AuthStore.DispatchThunk | mobile/src/store/slices/authSlice.ts:24-73 | one thunk run with nothing interleaved: a login-style thunk ends not loading and not authenticated, with error 'Not implemented' and the user and tokens kept; the refresh thunk changes nothing |
| AuthProperties.ActionTypeIdentifiesCase | mobile/src/store/slices/authSlice.ts:24-92 | two actions have the same Redux type string exactly when the same reducer case handles them (both directions) |
| AuthProperties.LogoutIdempotent | mobile/src/store/slices/authSlice.ts:79-85 | logging out twice equals logging out once |
| AuthProperties.SetUserLastWins | mobile/src/store/slices/authSlice.ts:89-91 | of two `setUser` actions, only the later one's user remains |
| AuthProperties.LoginThunksAlike | mobile/src/store/slices/authSlice.ts:95-152 | the three login-style thunks have identical pending, fulfilled and rejected effects; this holds by construction, since `Reduce` shares one transition per case, and so checks the sharing rather than re-deriving the three source groups |
| AuthProperties.SecondPendingAccepted | mobile/src/store/slices/authSlice.ts:96-99 | no single-in-flight guard: a second pending is accepted, leaves the first's state and stays loading |
| AuthProperties.FulfilledForgetsPrior | mobile/src/store/slices/authSlice.ts:100-107 | a fulfilled login sets all six fields, so its result does not depend on the previous state |
| AuthProperties.LateFulfilledUndoesLogout | mobile/src/store/slices/authSlice.ts:79-107 | no stale-response guard: logout followed by a late fulfilled login equals the login alone, and is authenticated |
| AuthProperties.StaleTokenReachable | mobile/src/store/slices/authSlice.ts:108-112 | a run from the initial state reaches a stored token and user with `isAuthenticated` false |
| AuthProperties.FailedRefreshChangesNothing | mobile/src/store/slices/authSlice.ts:154-159 | refresh pending followed by refresh rejected leaves any state exactly as it was |
| AuthProperties.ReduceAllAppend | mobile/src/store/slices/authSlice.ts:163-164 | dispatching `a` and then `b` equals dispatching `a + b` |
| AuthProperties.ReducePreservesConsistent | mobile/src/store/slices/authSlice.ts:78-159 | every action keeps the field relations: authenticated implies a user, both tokens and no error; loading implies no error; the two tokens are null together (given fulfilled payloads that carry a user and both tokens) |
| AuthProperties.ReduceAllPreservesConsistent | mobile/src/store/slices/authSlice.ts:78-159 | every run from a consistent state ends consistent (same payload assumption) |
| AuthProperties.ReachableConsistent | mobile/src/store/slices/authSlice.ts:14-21 | every state reachable from the initial state is consistent (same payload assumption) |
| AuthProperties.EveryThunkRejects | mobile/src/store/slices/authSlice.ts:24-73 | each of the four thunks dispatches pending and then a rejection carrying 'Not implemented', never a fulfilled action |
| AuthProperties.StubRunStaysSignedOut | mobile/src/store/slices/authSlice.ts:24-159 | from a signed-out, token-free state whose error is null or 'Not implemented', any interleaving of the actions the stubbed code can dispatch stays signed out and token-free, with no error other than 'Not implemented' |
| AuthProperties.StubRunNeverAuthenticates | mobile/src/store/slices/authSlice.ts:14-159 | from the initial state, no sequence of the actions the stubbed code can dispatch (no fulfilled action; rejections carry 'Not implemented') sets `isAuthenticated` or stores a token |

## Left out

- SessionPayload, TokenPayload: the source never declares the type of a
  fulfilled payload, because no thunk body resolves. The model takes the
  payload's user and both tokens to be present (non-null). The first and
  third relations of `Consistent` (authenticated implies a user and both
  tokens; the two tokens are null together) rest on this. A payload missing
  `refreshToken` would leave `token` set, `refreshToken` unset and
  `isAuthenticated` true.
- ReducePreservesConsistent, ReduceAllPreservesConsistent, ReachableConsistent:
  these hold for the modelled payloads only, as the line above explains.
- Promises, `getState`, abort signals and the `rejectWithValue` plumbing of
  `createAsyncThunk`. A thunk is modelled only by the actions it dispatches.
  Interleaving is modelled by letting the actions of runs in flight arrive in
  any order.
- Rejections that carry no value. Every thunk body catches its error and calls
  `rejectWithValue(error.message)`, so the rejected payload is always a
  string, unless a caller aborts the thunk, which none of the app code
  modelled here does.
- The `location` field of `User`, because it holds floating-point coordinates.
  Dates are modelled as integer instants.
- The actual API calls, token issuing and validation, refresh rotation,
  credential checks, OAuth linking and rate limiting. The thunks are TODO
  stubs, and the server routes are not part of this model.
- The Express server wiring in backend/services/auth/src/index.ts.
- The navigation choice between the loading, auth and main screens, and the
  theme tables. These are rendering, not state logic.
