/**
 The authentication screen (app/auth/index.tsx): a login/register form whose
 submit button either enters the app, raises an alert, or starts a short
 sequence of introduction videos that leads to the career-details screen.
 */
module AuthScreen {

  /** How many introduction videos there are; only the count matters. */
  const IntroVideoCount: nat := 2

  const TabsRoute: string := "/(tabs)"
  const CareerDetailsRoute: string := "/career-details"
  const ErrorTitle: string := "Error"
  const FillAllFields: string := "Please fill all fields"
  const PasswordsDoNotMatch: string := "Passwords do not match"

  /** The delay, in milliseconds, before a new account is sent on to career details. */
  const RedirectDelayMs: nat := 90000

  /** The delay, in milliseconds, before the introduction moves on from a video that has a successor. */
  const VideoStepMs: nat := 30000

  /** What the screen asks of the outside world: a navigation or an alert. */
  datatype Effect =
    | Navigate(route: string)
    | NavigateAfter(delayMs: nat, route: string)
    | ShowAlert(title: string, message: string)

  /** The text fields the user typed. */
  datatype Form = Form(name: string, email: string, password: string, confirmPassword: string)

  datatype FormField = NameField | EmailField | PasswordField | ConfirmPasswordField

  /** The four ways a submit can end. */
  datatype AuthOutcome = EnterApp | MissingFields | PasswordMismatch | StartIntro

  /** The decision the submit button makes for the current mode and form. */
  function Decide(isLogin: bool, f: Form): AuthOutcome
  {
    if isLogin then
      if f.email != "" && f.password != "" then EnterApp else MissingFields
    else if f.email != "" && f.password != "" && f.confirmPassword != "" && f.name != "" then
      if f.password != f.confirmPassword then PasswordMismatch else StartIntro
    else MissingFields
  }

  /** The effect each outcome asks for. */
  function EffectOf(o: AuthOutcome): (e: Effect)
    ensures e.ShowAlert? <==> o == MissingFields || o == PasswordMismatch
    ensures e.Navigate? <==> o == EnterApp
    ensures o == EnterApp ==> e == Navigate(TabsRoute)
    ensures o == MissingFields ==> e == ShowAlert(ErrorTitle, FillAllFields)
    ensures o == PasswordMismatch ==> e == ShowAlert(ErrorTitle, PasswordsDoNotMatch)
    ensures o == StartIntro ==> e == NavigateAfter(RedirectDelayMs, CareerDetailsRoute)
  {
    match o
    case EnterApp => Navigate(TabsRoute)
    case MissingFields => ShowAlert(ErrorTitle, FillAllFields)
    case PasswordMismatch => ShowAlert(ErrorTitle, PasswordsDoNotMatch)
    case StartIntro => NavigateAfter(RedirectDelayMs, CareerDetailsRoute)
  }

  /** Where the introduction sequence stands: the video index and whether it is shown. */
  datatype IntroProgress = IntroProgress(index: nat, showing: bool)

  /** One step of the introduction: the next video, or the end of the sequence. */
  function NextVideo(p: IntroProgress): IntroProgress
  {
    if p.index < IntroVideoCount - 1 then IntroProgress(p.index + 1, p.showing)
    else IntroProgress(p.index, false)
  }

  /**
   How long the step from `p` waits: a video with a successor is left after
   the 30-second timer; at the last video the step hides the videos at once,
   with no timer.
   */
  function StepDelayMs(p: IntroProgress): nat
  {
    if p.index < IntroVideoCount - 1 then VideoStepMs else 0
  }

  /** The time, in milliseconds, that the first `n` steps from `p` wait in all. */
  function ElapsedMs(p: IntroProgress, n: nat): nat
    decreases n
  {
    if n == 0 then 0 else StepDelayMs(p) + ElapsedMs(NextVideo(p), n - 1)
  }

  /** The introduction after `n` steps. */
  function AfterSteps(p: IntroProgress, n: nat): IntroProgress
    decreases n
  {
    if n == 0 then p else AfterSteps(NextVideo(p), n - 1)
  }

  function Min(a: nat, b: nat): nat
  {
    if a <= b then a else b
  }

  // ---------------------------------------------------------------------------
  // The screen's state and its handlers.

  class AuthScreenState {
    var isLogin: bool
    var name: string
    var email: string
    var password: string
    var confirmPassword: string
    var currentVideoIndex: nat
    var showVideos: bool

    /** The video index always names one of the introduction videos. */
    ghost predicate Valid()
      reads this
    {
      currentVideoIndex < IntroVideoCount
    }

    function CurrentForm(): Form
      reads this
    {
      Form(name, email, password, confirmPassword)
    }

    /** Login mode, empty fields, first video, videos hidden. */
    constructor ()
      ensures Valid()
      ensures isLogin && CurrentForm() == Form("", "", "", "")
      ensures currentVideoIndex == 0 && !showVideos
    {
      isLogin := true;
      name, email, password, confirmPassword := "", "", "", "";
      currentVideoIndex := 0;
      showVideos := false;
    }

    /** Typing into one of the text inputs. */
    method EditField(field: FormField, text: string)
      modifies this
      ensures CurrentForm() == match field
        case NameField => old(CurrentForm()).(name := text)
        case EmailField => old(CurrentForm()).(email := text)
        case PasswordField => old(CurrentForm()).(password := text)
        case ConfirmPasswordField => old(CurrentForm()).(confirmPassword := text)
      ensures isLogin == old(isLogin) && showVideos == old(showVideos)
      ensures currentVideoIndex == old(currentVideoIndex)
    {
      match field {
        case NameField => name := text;
        case EmailField => email := text;
        case PasswordField => password := text;
        case ConfirmPasswordField => confirmPassword := text;
      }
    }

    /**
     The submit button. Login needs email and password; registration needs all
     four fields, then matching passwords, and then shows the introduction.
     */
    method HandleAuth() returns (effect: Effect)
      modifies this
      ensures effect == EffectOf(Decide(old(isLogin), old(CurrentForm())))
      ensures showVideos == (old(showVideos) || Decide(old(isLogin), old(CurrentForm())) == StartIntro)
      ensures isLogin == old(isLogin) && CurrentForm() == old(CurrentForm())
      ensures currentVideoIndex == old(currentVideoIndex)
    {
      if isLogin {
        if email != "" && password != "" {
          effect := Navigate(TabsRoute);
        } else {
          effect := ShowAlert(ErrorTitle, FillAllFields);
        }
      } else {
        if email != "" && password != "" && confirmPassword != "" && name != "" {
          if password != confirmPassword {
            effect := ShowAlert(ErrorTitle, PasswordsDoNotMatch);
            return;
          }
          showVideos := true;
          effect := NavigateAfter(RedirectDelayMs, CareerDetailsRoute);
        } else {
          effect := ShowAlert(ErrorTitle, FillAllFields);
        }
      }
    }

    /**
     One step of the introduction: move to the next video while there is one,
     otherwise hide the videos. The index never passes the last video.
     `delayMs` is how long the step waits before it takes effect: the
     30-second timer, or nothing at the last video.
     */
    method PlayNextVideo() returns (delayMs: nat)
      requires Valid()
      modifies this
      ensures Valid()
      ensures delayMs == StepDelayMs(IntroProgress(old(currentVideoIndex), old(showVideos)))
      ensures IntroProgress(currentVideoIndex, showVideos)
           == NextVideo(IntroProgress(old(currentVideoIndex), old(showVideos)))
      ensures isLogin == old(isLogin) && CurrentForm() == old(CurrentForm())
    {
      if currentVideoIndex < IntroVideoCount - 1 {
        delayMs := VideoStepMs;
        currentVideoIndex := currentVideoIndex + 1;
      } else {
        delayMs := 0;
        showVideos := false;
      }
    }

    /** The link under the form that switches between login and registration. */
    method ToggleMode()
      modifies this
      ensures isLogin == !old(isLogin)
      ensures CurrentForm() == old(CurrentForm())
      ensures showVideos == old(showVideos) && currentVideoIndex == old(currentVideoIndex)
    {
      isLogin := !isLogin;
    }

    /** The skip button on the introduction: hide the videos and go to career details. */
    method Skip() returns (effect: Effect)
      modifies this
      ensures effect == Navigate(CareerDetailsRoute)
      ensures !showVideos
      ensures isLogin == old(isLogin) && CurrentForm() == old(CurrentForm())
      ensures currentVideoIndex == old(currentVideoIndex)
    {
      showVideos := false;
      effect := Navigate(CareerDetailsRoute);
    }
  }

  // ---------------------------------------------------------------------------
  // Properties of the submit decision.

  /** Login enters the app iff email and password are filled; otherwise it asks to fill all fields. */
  lemma LoginDecision(f: Form)
    ensures Decide(true, f) == EnterApp <==> f.email != "" && f.password != ""
    ensures Decide(true, f) != EnterApp ==> EffectOf(Decide(true, f)) == ShowAlert(ErrorTitle, FillAllFields)
    ensures Decide(true, f) == EnterApp ==> EffectOf(Decide(true, f)) == Navigate(TabsRoute)
  {
  }

  /** Login looks at nothing but the email and the password. */
  lemma LoginIgnoresNameAndConfirm(f: Form, g: Form)
    requires f.email == g.email && f.password == g.password
    ensures Decide(true, f) == Decide(true, g)
  {
  }

  /** Registration with any empty field asks to fill all fields, even when the passwords differ. */
  lemma RegisterMissingFieldFirst(f: Form)
    requires f.name == "" || f.email == "" || f.password == "" || f.confirmPassword == ""
    ensures Decide(false, f) == MissingFields
    ensures EffectOf(Decide(false, f)) == ShowAlert(ErrorTitle, FillAllFields)
  {
  }

  /** Registration with every field filled: mismatch alerts, a match starts the introduction. */
  lemma RegisterFilledForm(f: Form)
    requires f.name != "" && f.email != "" && f.password != "" && f.confirmPassword != ""
    ensures Decide(false, f) == PasswordMismatch <==> f.password != f.confirmPassword
    ensures Decide(false, f) == StartIntro <==> f.password == f.confirmPassword
    ensures Decide(false, f) == PasswordMismatch
            ==> EffectOf(Decide(false, f)) == ShowAlert(ErrorTitle, PasswordsDoNotMatch)
  {
  }

  /** Only a complete registration with matching passwords starts the introduction. */
  lemma StartIntroExactly(isLogin: bool, f: Form)
    ensures Decide(isLogin, f) == StartIntro
        <==> !isLogin && f.name != "" && f.email != "" && f.password != ""
             && f.password == f.confirmPassword
  {
  }

  // ---------------------------------------------------------------------------
  // Properties of the introduction sequence.

  /**
   From any valid position, `n` steps reach video min(index + n, last), and
   the videos are still shown only if no step ran past the last one.
   */
  lemma {:induction false} IntroAfterSteps(p: IntroProgress, n: nat)
    requires p.index < IntroVideoCount
    ensures AfterSteps(p, n).index == Min(p.index + n, IntroVideoCount - 1)
    ensures AfterSteps(p, n).showing <==> p.showing && p.index + n < IntroVideoCount
    decreases n
  {
    if n > 0 {
      IntroAfterSteps(NextVideo(p), n - 1);
    }
  }

  /**
   From any valid position, the first `n` steps wait 30 seconds for each video
   they leave that has a successor, and nothing for steps at the last video.
   */
  lemma {:induction false} IntroElapsed(p: IntroProgress, n: nat)
    requires p.index < IntroVideoCount
    ensures ElapsedMs(p, n) == VideoStepMs * Min(n, IntroVideoCount - 1 - p.index)
    decreases n
  {
    if n > 0 {
      IntroElapsed(NextVideo(p), n - 1);
    }
  }

  /**
   At the last video the step hides the introduction with no delay, so the last
   video is not held on screen for 30 seconds. A registration that finds the
   index already at the last video (it is never reset) ends the introduction
   the same way.
   */
  lemma LastVideoEndsAtOnce(shown: bool)
    ensures StepDelayMs(IntroProgress(IntroVideoCount - 1, shown)) == 0
    ensures NextVideo(IntroProgress(IntroVideoCount - 1, shown))
         == IntroProgress(IntroVideoCount - 1, false)
  {
  }

  /**
   After a fresh registration the introduction goes through the videos in turn
   and ends at the last index; it waits 30 seconds per video except the last,
   so it ends before the 90-second redirect.
   */
  lemma IntroFromStart()
    ensures forall k: nat :: k < IntroVideoCount ==>
      AfterSteps(IntroProgress(0, true), k) == IntroProgress(k, true)
    ensures AfterSteps(IntroProgress(0, true), IntroVideoCount)
         == IntroProgress(IntroVideoCount - 1, false)
    ensures ElapsedMs(IntroProgress(0, true), IntroVideoCount)
         == VideoStepMs * (IntroVideoCount - 1)
    ensures ElapsedMs(IntroProgress(0, true), IntroVideoCount) < RedirectDelayMs
  {
    IntroElapsed(IntroProgress(0, true), IntroVideoCount);
    forall k: nat | k < IntroVideoCount
      ensures AfterSteps(IntroProgress(0, true), k) == IntroProgress(k, true)
    {
      IntroAfterSteps(IntroProgress(0, true), k);
    }
    IntroAfterSteps(IntroProgress(0, true), IntroVideoCount);
  }
}
