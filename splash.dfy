/** The splash screen of `src/views/Splash/index.js`: one second after mounting it
    resets navigation to a single route chosen by whether the user has a token.
    The effect runs once, so the timer's callback sees the user of the first
    render; unmounting clears the timer. */
module Splash {
  import opened Common
  import opened Auth

  /** `navigation.reset({index, routes: [{name}]})`. */
  datatype Reset = Reset(index: nat, routes: seq<string>)

  /** The route chosen by `handleNavigation`. */
  function SplashTarget(user: Option<AuthState>): (r: string)
    ensures r == "Home" <==> Common.Truthy(TokenOf(user))
    ensures r == "Login" <==> !Common.Truthy(TokenOf(user))
  {
    if Common.Truthy(TokenOf(user)) then "Home" else "Login"
  }

  class SplashScreen {
    /** `isAuthenticated` as the first render saw it. */
    const captured: Option<AuthState>
    /** The 1000 ms timer is armed and not cleared. */
    var timerArmed: bool
    var resets: seq<Reset>

    constructor (user: Option<AuthState>)
      ensures captured == user && timerArmed && resets == []
    {
      captured := user;
      timerArmed := true;
      resets := [];
    }

    /** The timer fires: the stack is reset to the one chosen route, at index 0. A cleared timer
        never fires. */
    method TimerFires()
      modifies this
      ensures !timerArmed
      ensures old(timerArmed) ==> resets == old(resets) + [Reset(0, [SplashTarget(captured)])]
      ensures !old(timerArmed) ==> resets == old(resets)
    {
      if timerArmed {
        resets := resets + [Reset(0, [SplashTarget(captured)])];
        timerArmed := false;
      }
    }

    /** Unmount clears the timer. */
    method Unmount()
      modifies this
      ensures !timerArmed && resets == old(resets)
    {
      timerArmed := false;
    }
  }

  /** Mounted long enough, the splash resets exactly once, to 'Home' for a user with a token. */
  method MountAndWait(user: Option<AuthState>) returns (resets: seq<Reset>)
    ensures resets == [Reset(0, [SplashTarget(user)])]
    ensures Common.Truthy(TokenOf(user)) ==> resets == [Reset(0, ["Home"])]
  {
    var s := new SplashScreen(user);
    s.TimerFires();
    s.TimerFires();
    resets := s.resets;
  }

  /** Unmounted before the second passes, the splash never navigates. */
  method MountAndLeave(user: Option<AuthState>) returns (resets: seq<Reset>)
    ensures resets == []
  {
    var s := new SplashScreen(user);
    s.Unmount();
    s.TimerFires();
    resets := s.resets;
  }
}
