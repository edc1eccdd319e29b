/** Call sequences of client code against the entry points, showing what
    the state machine does across several calls: the error register read
    once, a texture bound twice, and the binding after the current context
    is destroyed. */
module Scenarios {
  import opened EglTypes
  import opened ContextAttributes
  import opened SurfaceQueries
  import opened EntryPoints

  /** eglGetError reports an error once: asking again gives SUCCESS. */
  method ErrorIsReportedOnce(egl: Egl) returns (first: ErrorCode, second: ErrorCode)
    requires egl.Valid()
    modifies egl`error
    ensures first == old(egl.error) && second == Success && egl.error == Success
  {
    first := egl.GetError();
    second := egl.GetError();
  }

  /** Binding the same pbuffer twice, with a context current: the first
      call binds the context's texture, the second is BAD_ACCESS and keeps
      the first binding. */
  method BindTwiceIsBadAccess(egl: Egl, dpy: Handle, surface: Handle, texture: Texture)
    returns (first: bool, second: bool)
    requires egl.Valid() && egl.KnownDisplay(dpy)
    requires egl.currentContext != NoHandle
    requires egl.BindTexImageCheck(dpy, surface, EGL_BACK_BUFFER, texture).None?
    modifies egl`error, egl`surfaces
    ensures first && !second && egl.error == BadAccess
    ensures surface in egl.surfaces && egl.surfaces[surface].boundTexture == Some(texture.id)
  {
    first := egl.BindTexImage(dpy, surface, EGL_BACK_BUFFER, texture);
    second := egl.BindTexImage(dpy, surface, EGL_BACK_BUFFER, texture);
  }

  /** Releasing after binding, with a context current, leaves the surface
      with nothing bound, and a second release still succeeds. */
  method BindThenReleaseTwice(egl: Egl, dpy: Handle, surface: Handle, texture: Texture)
    returns (bound: bool, released: bool, releasedAgain: bool)
    requires egl.Valid() && egl.KnownDisplay(dpy)
    requires egl.currentContext != NoHandle
    requires egl.BindTexImageCheck(dpy, surface, EGL_BACK_BUFFER, texture).None?
    modifies egl`error, egl`surfaces
    ensures bound && released && releasedAgain && egl.error == Success
    ensures egl.surfaces == old(egl.surfaces)
  {
    bound := egl.BindTexImage(dpy, surface, EGL_BACK_BUFFER, texture);
    released := egl.ReleaseTexImage(dpy, surface, EGL_BACK_BUFFER);
    releasedAgain := egl.ReleaseTexImage(dpy, surface, EGL_BACK_BUFFER);
  }

  /** The attribute list `{EGL_CONTEXT_CLIENT_VERSION, 2, EGL_NONE}` asks
      for an OpenGL ES 2.0 context with the other defaults. */
  lemma ClientVersion2Decodes()
    ensures Terminated([EGL_CONTEXT_CLIENT_VERSION, 2, EGL_NONE])
    ensures DecodeRequest(Some([EGL_CONTEXT_CLIENT_VERSION, 2, EGL_NONE])) == Ok(Defaults.(major := 2))
  {
    var a := [EGL_CONTEXT_CLIENT_VERSION, 2, EGL_NONE];
    assert a[2] == EGL_NONE;
    assert a[2..] == [EGL_NONE];
    assert Walk([EGL_NONE], Defaults.(major := 2)) == Ok(Defaults.(major := 2));
    CheckRequestAccepts(Defaults.(major := 2));
  }

  /** A fresh process with one display, initialised with one config. */
  method InitializedDisplay() returns (egl: Egl, dpy: Handle, config: Handle)
    ensures fresh(egl) && egl.Valid()
    ensures egl.IsInitialized(dpy) && config in egl.displays[dpy].configs && !egl.displays[dpy].deviceLost
    ensures egl.error == Success && egl.surfaces == map[] && egl.contexts == map[]
  {
    egl := new Egl();
    dpy := egl.GetDisplay(0);
    config := 1;
    var ok, version := egl.Initialize(dpy, InitSucceeded({config}));
  }

  /** Two pbuffers and an OpenGL ES 2.0 context on that display. The
      create calls leave the error register as it was. */
  method Session() returns (egl: Egl, dpy: Handle, draw: Handle, read: Handle, ctx: Handle)
    ensures fresh(egl) && egl.Valid() && egl.IsInitialized(dpy) && !egl.displays[dpy].deviceLost
    ensures egl.OwnsContext(dpy, ctx)
    ensures egl.OwnsSurface(dpy, draw) && egl.OwnsSurface(dpy, read)
    ensures draw != NoHandle && read != NoHandle && draw != read && ctx != NoHandle
    ensures egl.error == Success
  {
    var config;
    egl, dpy, config := InitializedDisplay();
    var props := SurfaceProps(1, 64, 64, 1, EGL_BACK_BUFFER, 0x3095, EGL_NO_TEXTURE, EGL_NO_TEXTURE, false, false);
    draw := egl.CreatePbufferSurface(dpy, config, SurfaceCreated(props, 1));
    read := egl.CreatePbufferSurface(dpy, config, SurfaceCreated(props, 1));
    ClientVersion2Decodes();
    ctx := egl.CreateContext(dpy, config, NoHandle, Some([EGL_CONTEXT_CLIENT_VERSION, 2, EGL_NONE]), None);
  }

  /** A session in which the context is made current with different draw
      and read surfaces, which is accepted. Destroying the current context
      then clears the current display and context but leaves both surfaces
      bound, so "a context is current exactly when both surfaces are" does
      not survive eglDestroyContext. */
  method DestroyingTheCurrentContextKeepsItsSurfaces()
    returns (egl: Egl, draw: Handle, read: Handle)
    ensures egl.Valid()
    ensures draw != NoHandle && read != NoHandle && draw != read
    ensures egl.currentContext == NoHandle && egl.currentDisplay == NoHandle
    ensures egl.currentDraw == draw && egl.currentRead == read
    ensures egl.error == Success
  {
    var dpy, ctx;
    egl, dpy, draw, read, ctx := Session();
    var ok := egl.MakeCurrent(dpy, draw, read, ctx, false);
    assert ok;
    ok := egl.DestroyContext(dpy, ctx);
  }
}
