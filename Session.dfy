/**
 * The session state machine: validation of a stored token at start-up, the
 * idle timer that opens the inactivity warning, the one-second countdown
 * while the warning is open, and extending the session. Timers are
 * modelled by the events they produce and by flags saying which timer is
 * armed; the server call behind validation and extension is its outcome.
 */
module Session {
  import opened Outcomes

  datatype User = User(id: string, name: string, roleId: string, officeId: string)

  /** The answer of the profile endpoint: a profile, or a failure. */
  datatype ProfileResult = Profile(user: User) | Failure

  const WARNING_DURATION_SECONDS := 20
  const IDLE_TIMEOUT_MS := 5 * 60 * 1000

  /** One countdown tick: down by one, never below zero. */
  function Tick(countdown: int): (next: int)
    ensures countdown > 0 ==> next == countdown - 1
    ensures countdown <= 0 ==> next == 0
  {
    if countdown > 0 then countdown - 1 else 0
  }

  /** The countdown after `n` ticks. */
  function Ticks(countdown: int, n: nat): int
  {
    if n == 0 then countdown else Tick(Ticks(countdown, n - 1))
  }

  /** From a non-negative start, `n` ticks leave `max(start - n, 0)`. */
  lemma {:induction false} TicksSaturate(start: nat, n: nat)
    ensures Ticks(start, n) == if n <= start then start - n else 0
  {
    if n > 0 {
      TicksSaturate(start, n - 1);
    }
  }

  /** The warning reaches zero after exactly its duration in ticks, and stays there. */
  lemma WarningExpires(n: nat)
    ensures Ticks(WARNING_DURATION_SECONDS, n) == 0 <==> n >= WARNING_DURATION_SECONDS
  {
    TicksSaturate(WARNING_DURATION_SECONDS, n);
  }

  class Auth {
    var isAuthenticated: bool
    var currentUser: Option<User>
    var isAuthLoading: bool
    var isWarningOpen: bool
    var countdown: int
    /** The idle timeout is pending. */
    var idleTimerArmed: bool
    /** The one-second countdown interval is running. */
    var countdownRunning: bool
    /** The two tokens in local storage. */
    var hasAccessToken: bool
    var hasRefreshToken: bool

    ghost predicate Valid()
      reads this
    {
      && 0 <= countdown <= WARNING_DURATION_SECONDS
      && (countdownRunning ==> isWarningOpen)
    }

    /** Mounting: signed out, loading, no warning, and whatever tokens storage holds. */
    constructor(accessToken: bool, refreshToken: bool)
      ensures Valid()
      ensures !isAuthenticated && currentUser.None? && isAuthLoading
      ensures !isWarningOpen && countdown == WARNING_DURATION_SECONDS
      ensures !idleTimerArmed && !countdownRunning
      ensures hasAccessToken == accessToken && hasRefreshToken == refreshToken
    {
      isAuthenticated := false;
      currentUser := None;
      isAuthLoading := true;
      isWarningOpen := false;
      countdown := WARNING_DURATION_SECONDS;
      idleTimerArmed := false;
      countdownRunning := false;
      hasAccessToken := accessToken;
      hasRefreshToken := refreshToken;
    }

    /** `resetIdleTimer`: both timers are cleared and the idle timeout armed again. */
    method ResetIdleTimer()
      modifies this
      ensures idleTimerArmed && !countdownRunning
      ensures isAuthenticated == old(isAuthenticated) && currentUser == old(currentUser)
      ensures isAuthLoading == old(isAuthLoading) && isWarningOpen == old(isWarningOpen)
      ensures countdown == old(countdown)
      ensures hasAccessToken == old(hasAccessToken) && hasRefreshToken == old(hasRefreshToken)
    {
      idleTimerArmed := true;
      countdownRunning := false;
    }

    /**
     * Setting the authentication flag, followed by the effect that depends
     * on it. React runs that effect only when the flag actually changes:
     * signing in arms the idle timer; signing out cancels both timers and
     * closes the warning; setting the value it already has does nothing more.
     */
    method SetAuthenticated(b: bool)
      requires Valid()
      modifies this
      ensures Valid()
      ensures isAuthenticated == b
      ensures b && !old(isAuthenticated) ==> idleTimerArmed && !countdownRunning && isWarningOpen == old(isWarningOpen)
      ensures !b && old(isAuthenticated) ==> !idleTimerArmed && !countdownRunning && !isWarningOpen
      ensures b == old(isAuthenticated) ==>
        idleTimerArmed == old(idleTimerArmed) && countdownRunning == old(countdownRunning) && isWarningOpen == old(isWarningOpen)
      ensures currentUser == old(currentUser) && isAuthLoading == old(isAuthLoading)
      ensures countdown == old(countdown)
      ensures hasAccessToken == old(hasAccessToken) && hasRefreshToken == old(hasRefreshToken)
    {
      if b != isAuthenticated {
        isAuthenticated := b;
        if b {
          ResetIdleTimer();
        } else {
          idleTimerArmed := false;
          countdownRunning := false;
          isWarningOpen := false;
        }
      }
    }

    /** `validateSession`: a stored token and a profile with an id sign in; any failure clears the tokens. */
    method ValidateSession(profile: ProfileResult)
      requires Valid()
      modifies this
      ensures Valid()
      ensures !isAuthLoading && countdown == old(countdown)
      ensures !old(hasAccessToken) ==>
        && isAuthenticated == old(isAuthenticated) && currentUser == old(currentUser)
        && !hasAccessToken && hasRefreshToken == old(hasRefreshToken)
        && idleTimerArmed == old(idleTimerArmed) && countdownRunning == old(countdownRunning)
        && isWarningOpen == old(isWarningOpen)
      ensures old(hasAccessToken) && profile.Profile? && profile.user.id != "" ==>
        && isAuthenticated && currentUser == Some(profile.user) && hasAccessToken && hasRefreshToken == old(hasRefreshToken)
        && isWarningOpen == old(isWarningOpen)
        && (old(isAuthenticated) ==> idleTimerArmed == old(idleTimerArmed) && countdownRunning == old(countdownRunning))
        && (!old(isAuthenticated) ==> idleTimerArmed && !countdownRunning)
      ensures old(hasAccessToken) && !(profile.Profile? && profile.user.id != "") ==>
        && !isAuthenticated && currentUser.None? && !hasAccessToken && !hasRefreshToken
        && (old(isAuthenticated) ==> !idleTimerArmed && !countdownRunning && !isWarningOpen)
        && (!old(isAuthenticated) ==>
              idleTimerArmed == old(idleTimerArmed) && countdownRunning == old(countdownRunning)
              && isWarningOpen == old(isWarningOpen))
    {
      if hasAccessToken {
        if profile.Profile? && profile.user.id != "" {
          currentUser := Some(profile.user);
          SetAuthenticated(true);
        } else {
          hasAccessToken := false;
          hasRefreshToken := false;
          SetAuthenticated(false);
          currentUser := None;
        }
      }
      isAuthLoading := false;
    }

    /**
     * User activity while signed in resets the idle timer. Clearing the
     * timers also stops the countdown of an open warning, which stays open.
     */
    method UserActivity()
      requires Valid()
      modifies this
      ensures Valid()
      ensures old(isAuthenticated) ==> idleTimerArmed && !countdownRunning
      ensures !old(isAuthenticated) ==> idleTimerArmed == old(idleTimerArmed) && countdownRunning == old(countdownRunning)
      ensures isAuthenticated == old(isAuthenticated) && isWarningOpen == old(isWarningOpen)
      ensures countdown == old(countdown) && currentUser == old(currentUser)
      ensures isAuthLoading == old(isAuthLoading) && hasAccessToken == old(hasAccessToken) && hasRefreshToken == old(hasRefreshToken)
    {
      if isAuthenticated {
        ResetIdleTimer();
      }
    }

    /**
     * The idle timeout fires: the warning opens with a full countdown. The
     * countdown interval starts only when the warning was closed, because
     * the effect that starts it runs when the open flag changes.
     */
    method IdleTimeout()
      requires Valid()
      modifies this
      ensures Valid()
      ensures old(idleTimerArmed) ==>
        && isWarningOpen && countdown == WARNING_DURATION_SECONDS && !idleTimerArmed
        && countdownRunning == (old(countdownRunning) || !old(isWarningOpen))
      ensures !old(idleTimerArmed) ==>
        isWarningOpen == old(isWarningOpen) && countdown == old(countdown) && countdownRunning == old(countdownRunning)
      ensures isAuthenticated == old(isAuthenticated) && currentUser == old(currentUser)
      ensures isAuthLoading == old(isAuthLoading) && hasAccessToken == old(hasAccessToken) && hasRefreshToken == old(hasRefreshToken)
    {
      if idleTimerArmed {
        idleTimerArmed := false;
        countdown := WARNING_DURATION_SECONDS;
        if !isWarningOpen {
          isWarningOpen := true;
          countdownRunning := true;
        }
      }
    }

    /** One second of the countdown interval. */
    method CountdownTick()
      requires Valid()
      modifies this
      ensures Valid()
      ensures countdownRunning ==> countdown == Tick(old(countdown))
      ensures !countdownRunning ==> countdown == old(countdown)
      ensures isWarningOpen == old(isWarningOpen) && isAuthenticated == old(isAuthenticated)
      ensures countdownRunning == old(countdownRunning) && idleTimerArmed == old(idleTimerArmed)
      ensures currentUser == old(currentUser)
      ensures isAuthLoading == old(isAuthLoading) && hasAccessToken == old(hasAccessToken) && hasRefreshToken == old(hasRefreshToken)
    {
      if countdownRunning {
        countdown := Tick(countdown);
      }
    }

    /**
     * `handleExtendSession`: a successful call closes the warning, restores
     * the full countdown and restarts the idle timer; a failed one changes
     * nothing.
     */
    method ExtendSession(success: bool)
      requires Valid()
      modifies this
      ensures Valid()
      ensures success ==>
        !isWarningOpen && countdown == WARNING_DURATION_SECONDS && idleTimerArmed && !countdownRunning
      ensures !success ==>
        && isWarningOpen == old(isWarningOpen) && countdown == old(countdown)
        && idleTimerArmed == old(idleTimerArmed) && countdownRunning == old(countdownRunning)
      ensures isAuthenticated == old(isAuthenticated) && currentUser == old(currentUser)
      ensures isAuthLoading == old(isAuthLoading) && hasAccessToken == old(hasAccessToken) && hasRefreshToken == old(hasRefreshToken)
    {
      if success {
        countdownRunning := false;
        isWarningOpen := false;
        countdown := WARNING_DURATION_SECONDS;
        ResetIdleTimer();
      }
    }
  }
}
