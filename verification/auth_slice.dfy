/**
 * The `auth` slice of the client store: the session (user and token),
 * loading flags and messages, changed field by field by one case reducer
 * per action. The asynchronous thunks that produce the actions are not
 * part of this model; each action's payload is a parameter.
 */
module AuthSlice {
  import opened Wrappers
  import opened Strings
  import opened ClientTypes

  const FetchSucceeded: string := "User data fetched successfully!"
  const UpdateSucceeded: string := "User updated successfully!"

  /** A whole snapshot of the slice's fields. */
  datatype AuthState = AuthState(
    user: Option<ClientUser>,
    token: Option<string>,
    isAuthenticated: bool,
    loading: bool,
    error: Option<string>,
    fetchSuccess: Option<string>,
    updateLoading: bool,
    updateError: Option<string>,
    updateSuccess: Option<string>)

  /** The `data` of a login response, whose parts may be missing. */
  datatype SessionData = SessionData(user: Option<ClientUser>, token: Option<string>)

  /** The login response the fulfilled action carries. */
  datatype LoginResponse = LoginResponse(success: bool, message: string, data: Option<SessionData>)

  /** The state the store starts in, given what local storage holds under "authToken" (none outside a browser). */
  function InitialState(storedToken: Option<string>): (s: AuthState)
    ensures s.user.None? && !s.loading && !s.updateLoading
    ensures s.error.None? && s.fetchSuccess.None? && s.updateError.None? && s.updateSuccess.None?
    ensures s.token == storedToken
    ensures s.isAuthenticated <==> !Falsy(storedToken)
  {
    AuthState(None, storedToken, !Falsy(storedToken), false, None, None, false, None, None)
  }

  class AuthStore {
    var user: Option<ClientUser>
    var token: Option<string>
    var isAuthenticated: bool
    var loading: bool
    var error: Option<string>
    var fetchSuccess: Option<string>
    var updateLoading: bool
    var updateError: Option<string>
    var updateSuccess: Option<string>

    /** The current values of all fields. */
    function State(): AuthState
      reads this
    {
      AuthState(user, token, isAuthenticated, loading, error, fetchSuccess, updateLoading, updateError, updateSuccess)
    }

    constructor (storedToken: Option<string>)
      ensures State() == InitialState(storedToken)
    {
      user := None;
      token := storedToken;
      isAuthenticated := !Falsy(storedToken);
      loading := false;
      error := None;
      fetchSuccess := None;
      updateLoading := false;
      updateError := None;
      updateSuccess := None;
    }

    /** `clearError`. */
    method ClearError()
      modifies this
      ensures State() == old(State()).(error := None)
    {
      error := None;
    }

    /** `clearFetchSuccess`. */
    method ClearFetchSuccess()
      modifies this
      ensures State() == old(State()).(fetchSuccess := None)
    {
      fetchSuccess := None;
    }

    /** `clearUpdateSuccess`. */
    method ClearUpdateSuccess()
      modifies this
      ensures State() == old(State()).(updateSuccess := None)
    {
      updateSuccess := None;
    }

    /** `clearUpdateError`. */
    method ClearUpdateError()
      modifies this
      ensures State() == old(State()).(updateError := None)
    {
      updateError := None;
    }

    /** `login.pending`: loading, and the last error cleared. */
    method LoginPending()
      modifies this
      ensures State() == old(State()).(loading := true, error := None)
    {
      loading := true;
      error := None;
    }

    /**
     * `login.fulfilled`: authenticated, with the user and the token from
     * the response; a missing user, or a missing or empty token, is stored
     * as none.
     */
    method LoginFulfilled(payload: LoginResponse)
      modifies this
      ensures State() == old(State()).(
        loading := false,
        isAuthenticated := true,
        user := if payload.data.Some? then payload.data.value.user else None,
        token := if payload.data.Some? && !Falsy(payload.data.value.token) then payload.data.value.token else None)
    {
      loading := false;
      isAuthenticated := true;
      user := if payload.data.Some? then payload.data.value.user else None;
      token := if payload.data.Some? && !Falsy(payload.data.value.token) then payload.data.value.token else None;
    }

    /** `login.rejected`: not authenticated, the rejection as the error; user and token stay. */
    method LoginRejected(payload: Option<string>)
      modifies this
      ensures State() == old(State()).(loading := false, isAuthenticated := false, error := payload)
    {
      loading := false;
      isAuthenticated := false;
      error := payload;
    }

    /** `logout.pending`. */
    method LogoutPending()
      modifies this
      ensures State() == old(State()).(loading := true)
    {
      loading := true;
    }

    /** `logout.fulfilled`: the session is gone. */
    method LogoutFulfilled()
      modifies this
      ensures State() == old(State()).(loading := false, isAuthenticated := false, user := None, token := None)
    {
      loading := false;
      isAuthenticated := false;
      user := None;
      token := None;
    }

    /** `logout.rejected`: the error is recorded and the session stays as it was. */
    method LogoutRejected(payload: Option<string>)
      modifies this
      ensures State() == old(State()).(loading := false, error := payload)
    {
      loading := false;
      error := payload;
    }

    /** `fetchUserProfile.pending`. */
    method FetchProfilePending()
      modifies this
      ensures State() == old(State()).(loading := true, error := None, fetchSuccess := None)
    {
      loading := true;
      error := None;
      fetchSuccess := None;
    }

    /** `fetchUserProfile.fulfilled`: the profile becomes the user, with the fixed success message. */
    method FetchProfileFulfilled(profile: ClientUser)
      modifies this
      ensures State() == old(State()).(loading := false, user := Some(profile), fetchSuccess := Some(FetchSucceeded))
    {
      loading := false;
      user := Some(profile);
      fetchSuccess := Some(FetchSucceeded);
    }

    /** `fetchUserProfile.rejected`. */
    method FetchProfileRejected(payload: Option<string>)
      modifies this
      ensures State() == old(State()).(loading := false, error := payload)
    {
      loading := false;
      error := payload;
    }

    /** `updateUserProfile.pending`. */
    method UpdateProfilePending()
      modifies this
      ensures State() == old(State()).(updateLoading := true, updateError := None, updateSuccess := None)
    {
      updateLoading := true;
      updateError := None;
      updateSuccess := None;
    }

    /** `updateUserProfile.fulfilled`: the updated user replaces the session's user. */
    method UpdateProfileFulfilled(updated: ClientUser)
      modifies this
      ensures State() == old(State()).(updateLoading := false, user := Some(updated), updateSuccess := Some(UpdateSucceeded))
    {
      updateLoading := false;
      user := Some(updated);
      updateSuccess := Some(UpdateSucceeded);
    }

    /** `updateUserProfile.rejected`. */
    method UpdateProfileRejected(payload: Option<string>)
      modifies this
      ensures State() == old(State()).(updateLoading := false, updateError := payload)
    {
      updateLoading := false;
      updateError := payload;
    }
  }
}
