/**
 * The animated splash screen: a five-state machine advanced by the image
 * load, the end of each fade, and the application becoming ready.
 */
module Splash {
  datatype SplashState = LoadingImage | FadeInImage | WaitForAppToBeReady | FadeOut | Hidden

  /**
   * `WithSplashScreen`: whether the native boot splash is hidden, and
   * whether the animated splash is mounted over the children.
   */
  function BootSplash(isAppReady: bool, showJsSplash: bool): (r: (bool, bool))
    ensures r.0 <==> isAppReady || showJsSplash
    ensures r.1 <==> showJsSplash
    ensures !r.0 ==> !r.1
  {
    (isAppReady || showJsSplash, showJsSplash)
  }

  class SplashScreen {
    var state: SplashState
    var isAppReady: bool
    /** Whether the application has ever been reported ready. */
    ghost var wasReady: bool

    /**
     * Every effect has run: the waiting state only persists while the app
     * is not ready, and the splash only fades out once the app was ready.
     */
    ghost predicate Valid()
      reads this
    {
      (state == WaitForAppToBeReady ==> !isAppReady)
      && (isAppReady ==> wasReady)
      && (state == FadeOut || state == Hidden ==> wasReady)
    }

    constructor (isAppReady: bool)
      ensures Valid() && state == LoadingImage && this.isAppReady == isAppReady
    {
      state := LoadingImage;
      this.isAppReady := isAppReady;
      wasReady := isAppReady;
    }

    /** The view renders nothing once hidden. */
    predicate Renders()
      reads this
    {
      state != Hidden
    }

    /** The effect on `isAppReady` and `state`: leave the wait once the app is ready. */
    method SettleWait()
      modifies this
      requires (state == FadeOut || state == Hidden ==> wasReady) && (isAppReady ==> wasReady)
      ensures Valid()
      ensures state == (if old(state) == WaitForAppToBeReady && isAppReady then FadeOut else old(state))
      ensures isAppReady == old(isAppReady) && wasReady == old(wasReady)
    {
      if state == WaitForAppToBeReady && isAppReady {
        state := FadeOut;
      }
    }

    /** The image's `onLoad`: the image starts fading in (the image is only there while rendered). */
    method ImageLoaded()
      modifies this
      requires Valid() && Renders()
      ensures Valid() && state == FadeInImage && isAppReady == old(isAppReady)
    {
      state := FadeInImage;
    }

    /** The fade-in's completion callback, then the readiness effect. */
    method FadeInFinished()
      modifies this
      requires Valid() && state == FadeInImage
      ensures Valid() && isAppReady == old(isAppReady)
      ensures state == if isAppReady then FadeOut else WaitForAppToBeReady
    {
      state := WaitForAppToBeReady;
      SettleWait();
    }

    /** A new `isAppReady` prop, then the readiness effect. */
    method SetAppReady(ready: bool)
      modifies this
      requires Valid()
      ensures Valid() && isAppReady == ready
      ensures old(state) == WaitForAppToBeReady && ready ==> state == FadeOut
      ensures !(old(state) == WaitForAppToBeReady && ready) ==> state == old(state)
    {
      isAppReady := ready;
      wasReady := wasReady || ready;
      SettleWait();
    }

    /** The fade-out's completion callback. */
    method FadeOutFinished()
      modifies this
      requires Valid() && state == FadeOut
      ensures Valid() && state == Hidden && !Renders() && isAppReady == old(isAppReady)
    {
      state := Hidden;
    }
  }
}
