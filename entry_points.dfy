/** The EGL 1.4 entry points of the ANGLE front end as one state machine:
    the error register, the current binding (display, draw and read
    surfaces, context) and the client API, over handle-keyed tables of the
    display, context and surface objects that the backend creates. Every
    backend call the entry points make is a parameter of the entry point
    that makes it. */
module EntryPoints {
  import opened EglTypes
  import opened ContextAttributes
  import opened SurfaceQueries

  /** A renderer: made by an initialisation of a display, numbered by a
      process-wide counter. */
  datatype Renderer = Renderer(display: Handle, serial: nat)

  /** A display object: whether it is initialised, the renderer it made when
      it was (none before), the configs it enumerated, and whether its
      renderer has recorded a lost device. */
  datatype DisplayRecord = DisplayRecord(
    initialized: bool,
    renderer: Option<Renderer>,
    configs: set<Handle>,
    deviceLost: bool)

  /** A context object: the display that owns it, its client major version,
      whether reset notification is enabled, and the renderer it runs on. */
  datatype ContextRecord = ContextRecord(
    owner: Handle,
    clientVersion: EglInt,
    resetNotification: bool,
    renderer: Renderer)

  /** A surface object: the display that owns it, whether it is backed by a
      native window, the values eglQuerySurface reports, its swap interval
      and the texture bound to it by eglBindTexImage, if any. */
  datatype SurfaceRecord = SurfaceRecord(
    owner: Handle,
    windowBacked: bool,
    props: SurfaceProps,
    swapInterval: EglInt,
    boundTexture: Option<nat>)

  /** The 2D texture bound in the current context (`getTexture2D()`). */
  datatype Texture = Texture(id: nat, immutable: bool)

  /** What `Display::initialize` reports. */
  datatype InitOutcome = InitFailed(code: FailureCode) | InitSucceeded(configs: set<Handle>)

  /** What `Display::createWindowSurface` and `createOffscreenSurface` report. */
  datatype SurfaceOutcome =
    | SurfaceFailed(code: FailureCode)
    | SurfaceCreated(props: SurfaceProps, swapInterval: EglInt)

  /** Where the checks of eglMakeCurrent end. */
  datatype MakeCurrentStep = Rejected(error: ErrorCode) | DeviceLossDetected | Commit

  /** The contexts left once those of display `dpy` are destroyed. */
  function ContextsNotOwnedBy(m: map<Handle, ContextRecord>, dpy: Handle): (r: map<Handle, ContextRecord>)
  {
    map c | c in m && m[c].owner != dpy :: m[c]
  }

  /** The surfaces left once those of display `dpy` are destroyed. */
  function SurfacesNotOwnedBy(m: map<Handle, SurfaceRecord>, dpy: Handle): (r: map<Handle, SurfaceRecord>)
  {
    map s | s in m && m[s].owner != dpy :: m[s]
  }

  type Displays = map<Handle, DisplayRecord>
  type Contexts = map<Handle, ContextRecord>
  type Surfaces = map<Handle, SurfaceRecord>

  /** The consistency of the object tables:
      - handles are never null and are all below `nextHandle`;
      - a display has a renderer exactly when it is initialised, and the
        renderer is its own, so no two displays share one;
      - every context and surface belongs to an initialised display, and a
        context runs on its display's renderer. */
  ghost predicate TablesConsistent(displays: Displays, nativeDisplays: map<int, Handle>, contexts: Contexts,
                                   surfaces: Surfaces, nextHandle: nat, nextRenderer: nat)
  {
    && 0 < nextHandle
    && (forall d :: d in displays ==> 0 < d < nextHandle)
    && (forall c :: c in contexts ==> 0 < c < nextHandle)
    && (forall s :: s in surfaces ==> 0 < s < nextHandle)
    && (forall n :: n in nativeDisplays ==> nativeDisplays[n] in displays)
    && (forall d :: d in displays ==>
          (displays[d].renderer.Some? <==> displays[d].initialized)
          && (displays[d].renderer.Some? ==>
                displays[d].renderer.value.display == d && displays[d].renderer.value.serial < nextRenderer))
    && (forall c :: c in contexts ==>
          && contexts[c].owner in displays
          && displays[contexts[c].owner].renderer == Some(contexts[c].renderer))
    && (forall s :: s in surfaces ==>
          surfaces[s].owner in displays && displays[surfaces[s].owner].initialized)
  }

  /** The current display is null or live, and the current context is null
      or a live context of the current display. */
  ghost predicate BindingConsistent(currentDisplay: Handle, currentContext: Handle, displays: Displays,
                                    contexts: Contexts)
  {
    && (currentDisplay == NoHandle || currentDisplay in displays)
    && (currentContext != NoHandle ==>
          currentContext in contexts && contexts[currentContext].owner == currentDisplay)
  }

  /** eglTerminate keeps the binding consistent: it clears the current
      display and context when the context belongs to the terminated
      display, and every other context survives. */
  lemma TerminateKeepsBinding(currentDisplay: Handle, currentContext: Handle, displays: Displays,
                              contexts: Contexts, dpy: Handle)
    requires BindingConsistent(currentDisplay, currentContext, displays, contexts)
    ensures var clear := currentContext in contexts && contexts[currentContext].owner == dpy;
            BindingConsistent(if clear then NoHandle else currentDisplay, if clear then NoHandle else currentContext,
                              displays[dpy := DisplayRecord(false, None, {}, false)],
                              ContextsNotOwnedBy(contexts, dpy))
  {
  }

  // Each change the entry points make to the tables keeps them consistent.

  lemma NewDisplayKeepsTables(displays: Displays, nativeDisplays: map<int, Handle>, contexts: Contexts,
                              surfaces: Surfaces, nextHandle: nat, nextRenderer: nat, nativeId: int)
    requires TablesConsistent(displays, nativeDisplays, contexts, surfaces, nextHandle, nextRenderer)
    ensures nextHandle !in displays
    ensures TablesConsistent(displays[nextHandle := DisplayRecord(false, None, {}, false)],
                             nativeDisplays[nativeId := nextHandle], contexts, surfaces, nextHandle + 1, nextRenderer)
  {
  }

  lemma InitializeKeepsTables(displays: Displays, nativeDisplays: map<int, Handle>, contexts: Contexts,
                              surfaces: Surfaces, nextHandle: nat, nextRenderer: nat, dpy: Handle, configs: set<Handle>)
    requires TablesConsistent(displays, nativeDisplays, contexts, surfaces, nextHandle, nextRenderer)
    requires dpy in displays && !displays[dpy].initialized
    ensures TablesConsistent(displays[dpy := DisplayRecord(true, Some(Renderer(dpy, nextRenderer)), configs, false)],
                             nativeDisplays, contexts, surfaces, nextHandle, nextRenderer + 1)
  {
  }

  lemma MarkLostKeepsTables(displays: Displays, nativeDisplays: map<int, Handle>, contexts: Contexts,
                            surfaces: Surfaces, nextHandle: nat, nextRenderer: nat, dpy: Handle)
    requires TablesConsistent(displays, nativeDisplays, contexts, surfaces, nextHandle, nextRenderer)
    requires dpy in displays
    ensures TablesConsistent(displays[dpy := displays[dpy].(deviceLost := true)],
                             nativeDisplays, contexts, surfaces, nextHandle, nextRenderer)
  {
  }

  lemma TerminateKeepsTables(displays: Displays, nativeDisplays: map<int, Handle>, contexts: Contexts,
                             surfaces: Surfaces, nextHandle: nat, nextRenderer: nat, dpy: Handle)
    requires TablesConsistent(displays, nativeDisplays, contexts, surfaces, nextHandle, nextRenderer)
    requires dpy in displays
    ensures TablesConsistent(displays[dpy := DisplayRecord(false, None, {}, false)], nativeDisplays,
                             ContextsNotOwnedBy(contexts, dpy), SurfacesNotOwnedBy(surfaces, dpy),
                             nextHandle, nextRenderer)
  {
  }

  lemma NewContextKeepsTables(displays: Displays, nativeDisplays: map<int, Handle>, contexts: Contexts,
                              surfaces: Surfaces, nextHandle: nat, nextRenderer: nat, record: ContextRecord)
    requires TablesConsistent(displays, nativeDisplays, contexts, surfaces, nextHandle, nextRenderer)
    requires record.owner in displays && displays[record.owner].renderer == Some(record.renderer)
    ensures nextHandle !in contexts
    ensures TablesConsistent(displays, nativeDisplays, contexts[nextHandle := record], surfaces,
                             nextHandle + 1, nextRenderer)
  {
  }

  lemma RemoveContextKeepsTables(displays: Displays, nativeDisplays: map<int, Handle>, contexts: Contexts,
                                 surfaces: Surfaces, nextHandle: nat, nextRenderer: nat, ctx: Handle)
    requires TablesConsistent(displays, nativeDisplays, contexts, surfaces, nextHandle, nextRenderer)
    ensures TablesConsistent(displays, nativeDisplays, contexts - {ctx}, surfaces, nextHandle, nextRenderer)
  {
  }

  lemma NewSurfaceKeepsTables(displays: Displays, nativeDisplays: map<int, Handle>, contexts: Contexts,
                              surfaces: Surfaces, nextHandle: nat, nextRenderer: nat, record: SurfaceRecord)
    requires TablesConsistent(displays, nativeDisplays, contexts, surfaces, nextHandle, nextRenderer)
    requires record.owner in displays && displays[record.owner].initialized
    ensures nextHandle != NoHandle && nextHandle !in surfaces
    ensures TablesConsistent(displays, nativeDisplays, contexts, surfaces[nextHandle := record],
                             nextHandle + 1, nextRenderer)
  {
  }

  lemma UpdateSurfaceKeepsTables(displays: Displays, nativeDisplays: map<int, Handle>, contexts: Contexts,
                                 surfaces: Surfaces, nextHandle: nat, nextRenderer: nat, surface: Handle,
                                 record: SurfaceRecord)
    requires TablesConsistent(displays, nativeDisplays, contexts, surfaces, nextHandle, nextRenderer)
    requires surface in surfaces && record.owner == surfaces[surface].owner
    ensures TablesConsistent(displays, nativeDisplays, contexts, surfaces[surface := record],
                             nextHandle, nextRenderer)
  {
  }

  lemma RemoveSurfaceKeepsTables(displays: Displays, nativeDisplays: map<int, Handle>, contexts: Contexts,
                                 surfaces: Surfaces, nextHandle: nat, nextRenderer: nat, surface: Handle)
    requires TablesConsistent(displays, nativeDisplays, contexts, surfaces, nextHandle, nextRenderer)
    ensures TablesConsistent(displays, nativeDisplays, contexts, surfaces - {surface}, nextHandle, nextRenderer)
  {
  }

  class Egl {
    // The globals of the source (`SetGlobal*` / `GetGlobal*`).
    var error: ErrorCode
    var currentDisplay: Handle
    var currentDraw: Handle
    var currentRead: Handle
    var currentContext: Handle
    var api: EglInt

    // The objects behind the handles.
    var displays: map<Handle, DisplayRecord>
    var nativeDisplays: map<int, Handle>
    var contexts: map<Handle, ContextRecord>
    var surfaces: map<Handle, SurfaceRecord>

    // Where the next object and the next renderer get their identity.
    var nextHandle: nat
    var nextRenderer: nat

    /** The consistency of the state: the tables are consistent, the current
        context, if any, is live and belongs to the current display, and the
        client API is always OpenGL ES, the only one BindAPI accepts. */
    ghost predicate Valid()
      reads this`displays, this`nativeDisplays, this`contexts, this`surfaces, this`nextHandle, this`nextRenderer,
            this`currentDisplay, this`currentContext, this`api
    {
      Tables() && BindingLive() && api == EGL_OPENGL_ES_API
    }

    /** The object tables on their own. */
    ghost predicate Tables()
      reads this`displays, this`nativeDisplays, this`contexts, this`surfaces, this`nextHandle, this`nextRenderer
    {
      TablesConsistent(displays, nativeDisplays, contexts, surfaces, nextHandle, nextRenderer)
    }

    /** The current display and context are live objects. */
    ghost predicate BindingLive()
      reads this`currentDisplay, this`currentContext, this`displays, this`contexts
    {
      BindingConsistent(currentDisplay, currentContext, displays, contexts)
    }

    /** The current binding as one tuple (display, draw, read, context). */
    function Binding(): (Handle, Handle, Handle, Handle)
      reads this`currentDisplay, this`currentDraw, this`currentRead, this`currentContext
    {
      (currentDisplay, currentDraw, currentRead, currentContext)
    }

    /** The handle is the null display or a display object: what the source
        needs to be able to dereference it. */
    predicate KnownDisplay(dpy: Handle)
      reads this`displays
    {
      dpy == NoHandle || dpy in displays
    }

    predicate IsInitialized(dpy: Handle)
      reads this`displays
    {
      dpy != NoHandle && dpy in displays && displays[dpy].initialized
    }

    /** `display->isValidContext(ctx)`. */
    predicate OwnsContext(dpy: Handle, ctx: Handle)
      reads this`contexts
    {
      ctx in contexts && contexts[ctx].owner == dpy
    }

    /** `display->isValidSurface(surface)`. */
    predicate OwnsSurface(dpy: Handle, surface: Handle)
      reads this`surfaces
    {
      surface in surfaces && surfaces[surface].owner == dpy
    }

    /** The process starting up: no error, nothing bound, OpenGL ES as the
        client API, no objects. */
    constructor ()
      ensures Valid()
      ensures error == Success && Binding() == (NoHandle, NoHandle, NoHandle, NoHandle)
      ensures api == EGL_OPENGL_ES_API
      ensures displays == map[] && nativeDisplays == map[] && contexts == map[] && surfaces == map[]
    {
      error := Success;
      currentDisplay, currentDraw, currentRead, currentContext := NoHandle, NoHandle, NoHandle, NoHandle;
      api := EGL_OPENGL_ES_API;
      displays, nativeDisplays, contexts, surfaces := map[], map[], map[], map[];
      nextHandle, nextRenderer := 1, 1;
    }

    // ---------------------------------------------------------------
    // Handle validation

    /** ValidateDisplay: the null display is BAD_DISPLAY, an uninitialised
        one NOT_INITIALIZED. */
    function ValidateDisplay(dpy: Handle): (r: Option<ErrorCode>)
      reads this`displays
      requires KnownDisplay(dpy)
      ensures r.None? <==> IsInitialized(dpy)
      ensures dpy == NoHandle ==> r == Some(BadDisplay)
      ensures dpy != NoHandle && !IsInitialized(dpy) ==> r == Some(NotInitialized)
    {
      if dpy == NoHandle then Some(BadDisplay)
      else if !displays[dpy].initialized then Some(NotInitialized)
      else None
    }

    /** ValidateConfig: the display first, then BAD_CONFIG for a config the
        display did not enumerate. */
    function ValidateConfig(dpy: Handle, config: Handle): (r: Option<ErrorCode>)
      reads this`displays
      requires KnownDisplay(dpy)
      ensures r.None? <==> IsInitialized(dpy) && config in displays[dpy].configs
      ensures ValidateDisplay(dpy).Some? ==> r == ValidateDisplay(dpy)
      ensures IsInitialized(dpy) && config !in displays[dpy].configs ==> r == Some(BadConfig)
    {
      if ValidateDisplay(dpy).Some? then ValidateDisplay(dpy)
      else if config !in displays[dpy].configs then Some(BadConfig)
      else None
    }

    /** ValidateContext: the display first, then BAD_CONTEXT for a handle
        that is not a live context of that display. */
    function ValidateContext(dpy: Handle, ctx: Handle): (r: Option<ErrorCode>)
      reads this`displays, this`contexts
      requires KnownDisplay(dpy)
      ensures r.None? <==> IsInitialized(dpy) && OwnsContext(dpy, ctx)
      ensures ValidateDisplay(dpy).Some? ==> r == ValidateDisplay(dpy)
      ensures IsInitialized(dpy) && !OwnsContext(dpy, ctx) ==> r == Some(BadContext)
    {
      if ValidateDisplay(dpy).Some? then ValidateDisplay(dpy)
      else if !OwnsContext(dpy, ctx) then Some(BadContext)
      else None
    }

    /** ValidateSurface: the display first, then BAD_SURFACE for a handle
        that is not a live surface of that display. */
    function ValidateSurface(dpy: Handle, surface: Handle): (r: Option<ErrorCode>)
      reads this`displays, this`surfaces
      requires KnownDisplay(dpy)
      ensures r.None? <==> IsInitialized(dpy) && OwnsSurface(dpy, surface)
      ensures ValidateDisplay(dpy).Some? ==> r == ValidateDisplay(dpy)
      ensures IsInitialized(dpy) && !OwnsSurface(dpy, surface) ==> r == Some(BadSurface)
    {
      if ValidateDisplay(dpy).Some? then ValidateDisplay(dpy)
      else if !OwnsSurface(dpy, surface) then Some(BadSurface)
      else None
    }

    // ---------------------------------------------------------------
    // Error register

    /** eglGetError: hand back the stored code and leave SUCCESS behind. */
    method GetError() returns (code: ErrorCode)
      requires Valid()
      modifies this`error
      ensures Valid()
      ensures code == old(error) && error == Success
    {
      code := error;
      error := Success;
    }

    // ---------------------------------------------------------------
    // Displays

    /** eglGetDisplay: the display object of a native display, made on first
        use and uninitialised until eglInitialize. */
    method GetDisplay(nativeId: int) returns (dpy: Handle)
      requires Valid()
      modifies this`displays, this`nativeDisplays, this`nextHandle
      ensures Valid()
      ensures dpy != NoHandle && dpy in displays
      ensures nativeId in old(nativeDisplays) ==>
                dpy == old(nativeDisplays[nativeId])
                && displays == old(displays) && nativeDisplays == old(nativeDisplays)
      ensures nativeId !in old(nativeDisplays) ==>
                dpy !in old(displays)
                && displays == old(displays)[dpy := DisplayRecord(false, None, {}, false)]
                && nativeDisplays == old(nativeDisplays)[nativeId := dpy]
    {
      if nativeId in nativeDisplays {
        dpy := nativeDisplays[nativeId];
      } else {
        NewDisplayKeepsTables(displays, nativeDisplays, contexts, surfaces, nextHandle, nextRenderer, nativeId);
        dpy := nextHandle;
        nextHandle := nextHandle + 1;
        displays := displays[dpy := DisplayRecord(false, None, {}, false)];
        nativeDisplays := nativeDisplays[nativeId := dpy];
      }
    }

    /** eglInitialize: BAD_DISPLAY for the null display, a backend failure
        as reported, otherwise SUCCESS with version 1.4. A display that
        succeeds for the first time gets a new renderer and the configs the
        backend enumerates. */
    method Initialize(dpy: Handle, backend: InitOutcome) returns (ok: bool, version: Option<(EglInt, EglInt)>)
      requires Valid() && KnownDisplay(dpy)
      modifies this`error, this`displays, this`nextRenderer
      ensures Valid()
      ensures ok <==> version == Some((1, 4))
      ensures !ok ==> version == None && displays == old(displays)
      ensures dpy == NoHandle ==> !ok && error == BadDisplay
      ensures dpy != NoHandle && backend.InitFailed? ==> !ok && error == backend.code
      ensures dpy != NoHandle && backend.InitSucceeded? ==>
                ok && error == Success && IsInitialized(dpy)
                && displays == old(displays)[dpy :=
                     if old(displays[dpy].initialized) then old(displays[dpy])
                     else DisplayRecord(true, Some(Renderer(dpy, old(nextRenderer))), backend.configs, false)]
    {
      if dpy == NoHandle {
        error := BadDisplay;
        return false, None;
      }
      if backend.InitFailed? {
        error := backend.code;
        return false, None;
      }
      if !displays[dpy].initialized {
        InitializeKeepsTables(displays, nativeDisplays, contexts, surfaces, nextHandle, nextRenderer, dpy, backend.configs);
        displays := displays[dpy := DisplayRecord(true, Some(Renderer(dpy, nextRenderer)), backend.configs, false)];
        nextRenderer := nextRenderer + 1;
      }
      error := Success;
      return true, Some((1, 4));
    }

    /** `Display::terminate`: the display destroys its contexts and surfaces
        and returns to the uninitialised state. The caller has already
        released a current context of this display. */
    method TerminateDisplay(dpy: Handle)
      requires Valid() && dpy in displays && !OwnsContext(dpy, currentContext)
      modifies this`displays, this`contexts, this`surfaces
      ensures Valid()
      ensures displays == old(displays)[dpy := DisplayRecord(false, None, {}, false)]
      ensures contexts == ContextsNotOwnedBy(old(contexts), dpy)
      ensures surfaces == SurfacesNotOwnedBy(old(surfaces), dpy)
    {
      TerminateKeepsTables(displays, nativeDisplays, contexts, surfaces, nextHandle, nextRenderer, dpy);
      TerminateKeepsBinding(currentDisplay, currentContext, displays, contexts, dpy);
      contexts := ContextsNotOwnedBy(contexts, dpy);
      surfaces := SurfacesNotOwnedBy(surfaces, dpy);
      displays := displays[dpy := DisplayRecord(false, None, {}, false)];
    }

    /** eglTerminate: BAD_DISPLAY for the null display; otherwise, if the
        current context belongs to this display, the current display and
        context become null (the draw and read surfaces stay as they are),
        and the display is terminated. */
    method Terminate(dpy: Handle) returns (ok: bool)
      requires Valid() && KnownDisplay(dpy)
      modifies this`error, this`currentDisplay, this`currentContext, this`displays, this`contexts, this`surfaces
      ensures Valid()
      ensures dpy == NoHandle ==>
                !ok && error == BadDisplay && Binding() == old(Binding())
                && displays == old(displays) && contexts == old(contexts) && surfaces == old(surfaces)
      ensures dpy != NoHandle ==>
                && ok && error == Success
                && (old(OwnsContext(dpy, currentContext)) ==>
                      currentDisplay == NoHandle && currentContext == NoHandle)
                && (!old(OwnsContext(dpy, currentContext)) ==>
                      currentDisplay == old(currentDisplay) && currentContext == old(currentContext))
                && displays == old(displays)[dpy := DisplayRecord(false, None, {}, false)]
                && contexts == ContextsNotOwnedBy(old(contexts), dpy)
                && surfaces == SurfacesNotOwnedBy(old(surfaces), dpy)
    {
      if dpy == NoHandle {
        error := BadDisplay;
        return false;
      }
      if OwnsContext(dpy, currentContext) {
        currentContext := NoHandle;
        currentDisplay := NoHandle;
      }
      TerminateDisplay(dpy);
      error := Success;
      return true;
    }

    /** eglQueryString: apart from the extension string of the null display,
        the display must validate; then the name selects the string, and an
        unknown name is BAD_PARAMETER. */
    method QueryString(dpy: Handle, name: EglInt) returns (r: Option<StringKind>)
      requires Valid() && KnownDisplay(dpy)
      modifies this`error
      ensures Valid()
      ensures !QueryStringSkipsValidation(dpy, name) && ValidateDisplay(dpy).Some? ==>
                r == None && error == ValidateDisplay(dpy).value
      ensures QueryStringSkipsValidation(dpy, name) || ValidateDisplay(dpy).None? ==>
                var s := SelectString(dpy, name);
                (s.Ok? ==> r == Some(s.value) && error == Success)
                && (s.Err? ==> r == None && error == s.error)
      ensures dpy == NoHandle && name == EGL_EXTENSIONS ==> r == Some(Extensions(NoHandle)) && error == Success
      ensures dpy == NoHandle && name != EGL_EXTENSIONS ==> r == None && error == BadDisplay
    {
      if !QueryStringSkipsValidation(dpy, name) && ValidateDisplay(dpy).Some? {
        error := ValidateDisplay(dpy).value;
        return None;
      }
      if name == EGL_CLIENT_APIS {
        r := Some(ClientApis);
      } else if name == EGL_EXTENSIONS {
        r := Some(Extensions(dpy));
      } else if name == EGL_VENDOR {
        r := Some(Vendor(dpy));
      } else if name == EGL_VERSION {
        r := Some(Version);
      } else {
        error := BadParameter;
        return None;
      }
      error := Success;
    }

    // ---------------------------------------------------------------
    // Configs: only the checks local to the entry points

    /** eglGetConfigs: the display, then BAD_PARAMETER without a `num_config`
        pointer, then BAD_ATTRIBUTE when the display's config query fails. */
    method GetConfigs(dpy: Handle, hasNumConfig: bool, backendAccepts: bool) returns (ok: bool)
      requires Valid() && KnownDisplay(dpy)
      modifies this`error
      ensures Valid()
      ensures ValidateDisplay(dpy).Some? ==> !ok && error == ValidateDisplay(dpy).value
      ensures ValidateDisplay(dpy).None? && !hasNumConfig ==> !ok && error == BadParameter
      ensures ValidateDisplay(dpy).None? && hasNumConfig ==>
                ok == backendAccepts && error == (if backendAccepts then Success else BadAttribute)
    {
      if ValidateDisplay(dpy).Some? {
        error := ValidateDisplay(dpy).value;
        return false;
      }
      if !hasNumConfig {
        error := BadParameter;
        return false;
      }
      if !backendAccepts {
        error := BadAttribute;
        return false;
      }
      error := Success;
      return true;
    }

    /** eglChooseConfig: the same guards as eglGetConfigs, but the result of
        the display's config query is ignored. */
    method ChooseConfig(dpy: Handle, hasNumConfig: bool) returns (ok: bool)
      requires Valid() && KnownDisplay(dpy)
      modifies this`error
      ensures Valid()
      ensures ValidateDisplay(dpy).Some? ==> !ok && error == ValidateDisplay(dpy).value
      ensures ValidateDisplay(dpy).None? ==>
                ok == hasNumConfig && error == (if hasNumConfig then Success else BadParameter)
    {
      if ValidateDisplay(dpy).Some? {
        error := ValidateDisplay(dpy).value;
        return false;
      }
      if !hasNumConfig {
        error := BadParameter;
        return false;
      }
      error := Success;
      return true;
    }

    /** eglGetConfigAttrib: the config, then BAD_ATTRIBUTE when the display
        has no value for the attribute (`backendValue` is None). */
    method GetConfigAttrib(dpy: Handle, config: Handle, backendValue: Option<EglInt>)
      returns (ok: bool, value: Option<EglInt>)
      requires Valid() && KnownDisplay(dpy)
      modifies this`error
      ensures Valid()
      ensures ValidateConfig(dpy, config).Some? ==>
                !ok && value == None && error == ValidateConfig(dpy, config).value
      ensures ValidateConfig(dpy, config).None? ==>
                ok == backendValue.Some? && value == backendValue
                && error == (if ok then Success else BadAttribute)
    {
      if ValidateConfig(dpy, config).Some? {
        error := ValidateConfig(dpy, config).value;
        return false, None;
      }
      if backendValue.None? {
        error := BadAttribute;
        return false, None;
      }
      error := Success;
      return true, backendValue;
    }

    // ---------------------------------------------------------------
    // Surfaces

    /** Record a surface the backend has just created. */
    method AddSurface(dpy: Handle, windowBacked: bool, props: SurfaceProps, swapInterval: EglInt)
      returns (surface: Handle)
      requires Valid() && IsInitialized(dpy)
      modifies this`surfaces, this`nextHandle
      ensures Valid()
      ensures surface != NoHandle && surface !in old(surfaces)
      ensures surfaces == old(surfaces)[surface := SurfaceRecord(dpy, windowBacked, props, swapInterval, None)]
    {
      NewSurfaceKeepsTables(displays, nativeDisplays, contexts, surfaces, nextHandle, nextRenderer, SurfaceRecord(dpy, windowBacked, props, swapInterval, None));
      surface := nextHandle;
      nextHandle := nextHandle + 1;
      surfaces := surfaces[surface := SurfaceRecord(dpy, windowBacked, props, swapInterval, None)];
    }

    /** eglCreateWindowSurface: the config, then BAD_NATIVE_WINDOW, then the
        backend. The success path does not write the error register. */
    method CreateWindowSurface(dpy: Handle, config: Handle, windowValid: bool, backend: SurfaceOutcome)
      returns (surface: Handle)
      requires Valid() && KnownDisplay(dpy)
      modifies this`error, this`surfaces, this`nextHandle
      ensures Valid()
      ensures surface == NoHandle ==> surfaces == old(surfaces)
      ensures ValidateConfig(dpy, config).Some? ==>
                surface == NoHandle && error == ValidateConfig(dpy, config).value
      ensures ValidateConfig(dpy, config).None? && !windowValid ==>
                surface == NoHandle && error == BadNativeWindow
      ensures ValidateConfig(dpy, config).None? && windowValid && backend.SurfaceFailed? ==>
                surface == NoHandle && error == backend.code
      ensures ValidateConfig(dpy, config).None? && windowValid && backend.SurfaceCreated? ==>
                && surface != NoHandle && surface !in old(surfaces) && error == old(error)
                && surfaces == old(surfaces)[surface :=
                     SurfaceRecord(dpy, true, backend.props, backend.swapInterval, None)]
    {
      if ValidateConfig(dpy, config).Some? {
        error := ValidateConfig(dpy, config).value;
        return NoHandle;
      }
      if !windowValid {
        error := BadNativeWindow;
        return NoHandle;
      }
      if backend.SurfaceFailed? {
        error := backend.code;
        return NoHandle;
      }
      surface := AddSurface(dpy, true, backend.props, backend.swapInterval);
    }

    /** eglCreatePbufferSurface: the config, then the backend. The success
        path does not write the error register. */
    method CreatePbufferSurface(dpy: Handle, config: Handle, backend: SurfaceOutcome)
      returns (surface: Handle)
      requires Valid() && KnownDisplay(dpy)
      modifies this`error, this`surfaces, this`nextHandle
      ensures Valid()
      ensures surface == NoHandle ==> surfaces == old(surfaces)
      ensures ValidateConfig(dpy, config).Some? ==>
                surface == NoHandle && error == ValidateConfig(dpy, config).value
      ensures ValidateConfig(dpy, config).None? && backend.SurfaceFailed? ==>
                surface == NoHandle && error == backend.code
      ensures ValidateConfig(dpy, config).None? && backend.SurfaceCreated? ==>
                && surface != NoHandle && surface !in old(surfaces) && error == old(error)
                && surfaces == old(surfaces)[surface :=
                     SurfaceRecord(dpy, false, backend.props, backend.swapInterval, None)]
    {
      if ValidateConfig(dpy, config).Some? {
        error := ValidateConfig(dpy, config).value;
        return NoHandle;
      }
      if backend.SurfaceFailed? {
        error := backend.code;
        return NoHandle;
      }
      surface := AddSurface(dpy, false, backend.props, backend.swapInterval);
    }

    /** eglCreatePbufferFromClientBuffer: the config, then BAD_PARAMETER
        unless the buffer is a non-null D3D share handle, then the backend.
        The success path does not write the error register. */
    method CreatePbufferFromClientBuffer(dpy: Handle, buftype: EglInt, hasBuffer: bool, config: Handle,
                                         backend: SurfaceOutcome)
      returns (surface: Handle)
      requires Valid() && KnownDisplay(dpy)
      modifies this`error, this`surfaces, this`nextHandle
      ensures Valid()
      ensures surface == NoHandle ==> surfaces == old(surfaces)
      ensures ValidateConfig(dpy, config).Some? ==>
                surface == NoHandle && error == ValidateConfig(dpy, config).value
      ensures ValidateConfig(dpy, config).None? && (buftype != EGL_D3D_TEXTURE_2D_SHARE_HANDLE_ANGLE || !hasBuffer) ==>
                surface == NoHandle && error == BadParameter
      ensures ValidateConfig(dpy, config).None? && buftype == EGL_D3D_TEXTURE_2D_SHARE_HANDLE_ANGLE && hasBuffer ==>
                && (backend.SurfaceFailed? ==> surface == NoHandle && error == backend.code)
                && (backend.SurfaceCreated? ==>
                      && surface != NoHandle && surface !in old(surfaces) && error == old(error)
                      && surfaces == old(surfaces)[surface :=
                           SurfaceRecord(dpy, false, backend.props, backend.swapInterval, None)])
    {
      if ValidateConfig(dpy, config).Some? {
        error := ValidateConfig(dpy, config).value;
        return NoHandle;
      }
      if buftype != EGL_D3D_TEXTURE_2D_SHARE_HANDLE_ANGLE || !hasBuffer {
        error := BadParameter;
        return NoHandle;
      }
      if backend.SurfaceFailed? {
        error := backend.code;
        return NoHandle;
      }
      surface := AddSurface(dpy, false, backend.props, backend.swapInterval);
    }

    /** eglDestroySurface: the surface must validate; it is then destroyed.
        The current binding is not touched, even when it names the surface. */
    method DestroySurface(dpy: Handle, surface: Handle) returns (ok: bool)
      requires Valid() && KnownDisplay(dpy)
      modifies this`error, this`surfaces
      ensures Valid()
      ensures Binding() == old(Binding())
      ensures old(ValidateSurface(dpy, surface)).Some? ==>
                !ok && error == old(ValidateSurface(dpy, surface)).value && surfaces == old(surfaces)
      ensures old(ValidateSurface(dpy, surface)).None? ==>
                ok && error == Success && surfaces == old(surfaces) - {surface}
    {
      if ValidateSurface(dpy, surface).Some? {
        error := ValidateSurface(dpy, surface).value;
        return false;
      }
      // The source's re-check for EGL_NO_SURFACE cannot fire here: the null
      // handle is never a live surface (NullHandleNeverValidates).
      RemoveSurfaceKeepsTables(displays, nativeDisplays, contexts, surfaces, nextHandle, nextRenderer, surface);
      surfaces := surfaces - {surface};
      error := Success;
      return true;
    }

    /** eglQuerySurface: the surface must validate; the attribute then
        selects a field. The attributes the source leaves unimplemented
        succeed without writing `*value`; an unknown one is BAD_ATTRIBUTE
        and leaves `*value` unwritten. `value == None` is "not written". */
    method QuerySurface(dpy: Handle, surface: Handle, attribute: EglInt)
      returns (ok: bool, value: Option<EglInt>)
      requires Valid() && KnownDisplay(dpy)
      modifies this`error
      ensures Valid()
      ensures ValidateSurface(dpy, surface).Some? ==>
                !ok && value == None && error == ValidateSurface(dpy, surface).value
      ensures ValidateSurface(dpy, surface).None? ==>
                var a := AnswerQuery(surfaces[surface].props, attribute);
                && (a.Value? ==> ok && value == Some(a.v) && error == Success)
                && (a == NotWritten ==> ok && value == None && error == Success)
                && (a == Unknown ==> !ok && value == None && error == BadAttribute)
    {
      if ValidateSurface(dpy, surface).Some? {
        error := ValidateSurface(dpy, surface).value;
        return false, None;
      }
      var answer := AnswerQuery(surfaces[surface].props, attribute);
      match answer {
        case Value(v) =>
          value := Some(v);
        case NotWritten =>
          value := None;
        case Unknown =>
          error := BadAttribute;
          return false, None;
      }
      error := Success;
      ok := true;
    }

    /** eglSwapBuffers: the surface must validate; a lost device is
        CONTEXT_LOST; otherwise the error is whatever the swap reports. */
    method SwapBuffers(dpy: Handle, surface: Handle, swapResult: ErrorCode) returns (ok: bool)
      requires Valid() && KnownDisplay(dpy)
      modifies this`error
      ensures Valid()
      ensures ValidateSurface(dpy, surface).Some? ==> !ok && error == ValidateSurface(dpy, surface).value
      ensures ValidateSurface(dpy, surface).None? && displays[dpy].deviceLost ==> !ok && error == ContextLost
      ensures ValidateSurface(dpy, surface).None? && !displays[dpy].deviceLost ==>
                ok == (swapResult == Success) && error == swapResult
    {
      if ValidateSurface(dpy, surface).Some? {
        error := ValidateSurface(dpy, surface).value;
        return false;
      }
      if displays[dpy].deviceLost {
        error := ContextLost;
        return false;
      }
      if swapResult != Success {
        error := swapResult;
        return false;
      }
      error := Success;
      return true;
    }

    /** eglSwapInterval: the display must validate; BAD_SURFACE with no
        current draw surface; otherwise the current draw surface, whichever
        display owns it, takes the interval. */
    method SwapInterval(dpy: Handle, interval: EglInt) returns (ok: bool)
      requires Valid() && KnownDisplay(dpy)
      requires ValidateDisplay(dpy).None? && currentDraw != NoHandle ==> currentDraw in surfaces
      modifies this`error, this`surfaces
      ensures Valid()
      ensures ValidateDisplay(dpy).Some? ==>
                !ok && error == ValidateDisplay(dpy).value && surfaces == old(surfaces)
      ensures ValidateDisplay(dpy).None? && currentDraw == NoHandle ==>
                !ok && error == BadSurface && surfaces == old(surfaces)
      ensures ValidateDisplay(dpy).None? && currentDraw != NoHandle ==>
                ok && error == Success
                && surfaces == old(surfaces)[currentDraw := old(surfaces[currentDraw]).(swapInterval := interval)]
    {
      if ValidateDisplay(dpy).Some? {
        error := ValidateDisplay(dpy).value;
        return false;
      }
      if currentDraw == NoHandle {
        error := BadSurface;
        return false;
      }
      UpdateSurfaceKeepsTables(displays, nativeDisplays, contexts, surfaces, nextHandle, nextRenderer, currentDraw, surfaces[currentDraw].(swapInterval := interval));
      surfaces := surfaces[currentDraw := surfaces[currentDraw].(swapInterval := interval)];
      error := Success;
      return true;
    }

    // ---------------------------------------------------------------
    // Texture binding

    /** The checks of eglBindTexImage in the order the source makes them.
        `texture` is the current context's 2D texture; it matters only when
        there is a current context. */
    function BindTexImageCheck(dpy: Handle, surface: Handle, buffer: EglInt, texture: Texture): (r: Option<ErrorCode>)
      reads this`displays, this`surfaces, this`currentContext
      requires KnownDisplay(dpy)
      ensures r.None? <==>
                && ValidateSurface(dpy, surface).None? && buffer == EGL_BACK_BUFFER
                && !surfaces[surface].windowBacked && surfaces[surface].boundTexture.None?
                && surfaces[surface].props.textureFormat != EGL_NO_TEXTURE
                && (currentContext != NoHandle ==> !texture.immutable)
      ensures ValidateSurface(dpy, surface).Some? ==> r == ValidateSurface(dpy, surface)
      ensures ValidateSurface(dpy, surface).None? ==>
                var s := surfaces[surface];
                && (buffer != EGL_BACK_BUFFER ==> r == Some(BadParameter))
                && (buffer == EGL_BACK_BUFFER && s.windowBacked ==> r == Some(BadSurface))
                && (buffer == EGL_BACK_BUFFER && !s.windowBacked && s.boundTexture.Some? ==> r == Some(BadAccess))
                && (buffer == EGL_BACK_BUFFER && !s.windowBacked && s.boundTexture.None?
                    && s.props.textureFormat == EGL_NO_TEXTURE
                    ==> r == Some(BadMatch))
                && (buffer == EGL_BACK_BUFFER && !s.windowBacked && s.boundTexture.None?
                    && s.props.textureFormat != EGL_NO_TEXTURE && currentContext != NoHandle
                    && texture.immutable
                    ==> r == Some(BadMatch))
    {
      if ValidateSurface(dpy, surface).Some? then ValidateSurface(dpy, surface)
      else if buffer != EGL_BACK_BUFFER then Some(BadParameter)
      else if surfaces[surface].windowBacked then Some(BadSurface)
      else if surfaces[surface].boundTexture.Some? then Some(BadAccess)
      else if surfaces[surface].props.textureFormat == EGL_NO_TEXTURE then Some(BadMatch)
      else if currentContext != NoHandle && texture.immutable then Some(BadMatch)
      else None
    }

    /** eglBindTexImage: after the checks, the current context's 2D texture
        is bound to the surface; with no current context nothing is bound,
        and the call still succeeds. */
    method BindTexImage(dpy: Handle, surface: Handle, buffer: EglInt, texture: Texture) returns (ok: bool)
      requires Valid() && KnownDisplay(dpy)
      modifies this`error, this`surfaces
      ensures Valid()
      ensures old(BindTexImageCheck(dpy, surface, buffer, texture)).Some? ==>
                !ok && error == old(BindTexImageCheck(dpy, surface, buffer, texture)).value
                && surfaces == old(surfaces)
      ensures old(BindTexImageCheck(dpy, surface, buffer, texture)).None? ==>
                && ok && error == Success
                && (currentContext != NoHandle ==>
                      surfaces == old(surfaces)[surface := old(surfaces[surface]).(boundTexture := Some(texture.id))])
                && (currentContext == NoHandle ==> surfaces == old(surfaces))
    {
      if ValidateSurface(dpy, surface).Some? {
        error := ValidateSurface(dpy, surface).value;
        return false;
      }
      if buffer != EGL_BACK_BUFFER {
        error := BadParameter;
        return false;
      }
      if surface == NoHandle || surfaces[surface].windowBacked {
        error := BadSurface;
        return false;
      }
      if surfaces[surface].boundTexture.Some? {
        error := BadAccess;
        return false;
      }
      if surfaces[surface].props.textureFormat == EGL_NO_TEXTURE {
        error := BadMatch;
        return false;
      }
      if currentContext != NoHandle {
        if texture.immutable {
          error := BadMatch;
          return false;
        }
        UpdateSurfaceKeepsTables(displays, nativeDisplays, contexts, surfaces, nextHandle, nextRenderer, surface, surfaces[surface].(boundTexture := Some(texture.id)));
        surfaces := surfaces[surface := surfaces[surface].(boundTexture := Some(texture.id))];
      }
      error := Success;
      return true;
    }

    /** The checks of eglReleaseTexImage in the order the source makes them. */
    function ReleaseTexImageCheck(dpy: Handle, surface: Handle, buffer: EglInt): (r: Option<ErrorCode>)
      reads this`displays, this`surfaces
      requires KnownDisplay(dpy)
      ensures r.None? <==>
                && ValidateSurface(dpy, surface).None? && buffer == EGL_BACK_BUFFER
                && !surfaces[surface].windowBacked && surfaces[surface].props.textureFormat != EGL_NO_TEXTURE
      ensures ValidateSurface(dpy, surface).Some? ==> r == ValidateSurface(dpy, surface)
      ensures ValidateSurface(dpy, surface).None? ==>
                var s := surfaces[surface];
                && (buffer != EGL_BACK_BUFFER ==> r == Some(BadParameter))
                && (buffer == EGL_BACK_BUFFER && s.windowBacked ==> r == Some(BadSurface))
                && (buffer == EGL_BACK_BUFFER && !s.windowBacked && s.props.textureFormat == EGL_NO_TEXTURE
                    ==> r == Some(BadMatch))
    {
      if ValidateSurface(dpy, surface).Some? then ValidateSurface(dpy, surface)
      else if buffer != EGL_BACK_BUFFER then Some(BadParameter)
      else if surfaces[surface].windowBacked then Some(BadSurface)
      else if surfaces[surface].props.textureFormat == EGL_NO_TEXTURE then Some(BadMatch)
      else None
    }

    /** eglReleaseTexImage: after the checks, a bound texture is released; with
        none bound the call succeeds and changes nothing. */
    method ReleaseTexImage(dpy: Handle, surface: Handle, buffer: EglInt) returns (ok: bool)
      requires Valid() && KnownDisplay(dpy)
      modifies this`error, this`surfaces
      ensures Valid()
      ensures old(ReleaseTexImageCheck(dpy, surface, buffer)).Some? ==>
                !ok && error == old(ReleaseTexImageCheck(dpy, surface, buffer)).value
                && surfaces == old(surfaces)
      ensures old(ReleaseTexImageCheck(dpy, surface, buffer)).None? ==>
                && ok && error == Success
                && surfaces == old(surfaces)[surface := old(surfaces[surface]).(boundTexture := None)]
                && (old(surfaces[surface].boundTexture).None? ==> surfaces == old(surfaces))
    {
      if ValidateSurface(dpy, surface).Some? {
        error := ValidateSurface(dpy, surface).value;
        return false;
      }
      if buffer != EGL_BACK_BUFFER {
        error := BadParameter;
        return false;
      }
      if surface == NoHandle || surfaces[surface].windowBacked {
        error := BadSurface;
        return false;
      }
      if surfaces[surface].props.textureFormat == EGL_NO_TEXTURE {
        error := BadMatch;
        return false;
      }
      if surfaces[surface].boundTexture.Some? {
        UpdateSurfaceKeepsTables(displays, nativeDisplays, contexts, surfaces, nextHandle, nextRenderer, surface, surfaces[surface].(boundTexture := None));
        surfaces := surfaces[surface := surfaces[surface].(boundTexture := None)];
      }
      error := Success;
      return true;
    }

    // ---------------------------------------------------------------
    // Contexts

    /** What the share-context checks of eglCreateContext dereference for
        a decoded request: a non-null share handle is read from its first
        check on, and the display only by the renderer comparison, once the
        reset-notification and version checks have passed. */
    predicate ShareReadable(dpy: Handle, share: Handle, request: Request)
      reads this`contexts
    {
      share != NoHandle ==>
        && share in contexts
        && (contexts[share].resetNotification == request.resetNotification
            && contexts[share].clientVersion == request.major
            ==> dpy != NoHandle)
    }

    /** The share-context checks of eglCreateContext, in the source's order:
        reset notification, then client version, then renderer. */
    function ShareCheck(dpy: Handle, share: Handle, request: Request): (r: Option<ErrorCode>)
      reads this`displays, this`contexts
      requires KnownDisplay(dpy) && ShareReadable(dpy, share, request)
      ensures share == NoHandle ==> r.None?
      ensures share != NoHandle && contexts[share].resetNotification != request.resetNotification
              ==> r == Some(BadMatch)
      ensures share != NoHandle && contexts[share].resetNotification == request.resetNotification
              && contexts[share].clientVersion != request.major
              ==> r == Some(BadContext)
      ensures share != NoHandle && contexts[share].resetNotification == request.resetNotification
              && contexts[share].clientVersion == request.major
              ==> (r.None? <==> displays[dpy].renderer == Some(contexts[share].renderer))
      ensures share != NoHandle && contexts[share].resetNotification == request.resetNotification
              && contexts[share].clientVersion == request.major
              && displays[dpy].renderer != Some(contexts[share].renderer)
              ==> r == Some(BadMatch)
      ensures r.Some? ==> r.value in {BadMatch, BadContext}
    {
      if share == NoHandle then None
      else if contexts[share].resetNotification != request.resetNotification then Some(BadMatch)
      else if contexts[share].clientVersion != request.major then Some(BadContext)
      else if Some(contexts[share].renderer) != displays[dpy].renderer then Some(BadMatch)
      else None
    }

    /** All the checks of eglCreateContext before the backend is asked:
        the attribute list, the share context, then the config. */
    function CreateContextCheck(dpy: Handle, config: Handle, share: Handle, attribs: Option<seq<EglInt>>)
      : (r: Result<Request>)
      reads this`displays, this`contexts
      requires KnownDisplay(dpy)
      requires attribs.Some? ==> Terminated(attribs.value)
      requires DecodeRequest(attribs).Ok? ==> ShareReadable(dpy, share, DecodeRequest(attribs).value)
      ensures DecodeRequest(attribs).Err? ==> r == DecodeRequest(attribs)
      ensures DecodeRequest(attribs).Ok? && ShareCheck(dpy, share, DecodeRequest(attribs).value).Some?
              ==> r == Err(ShareCheck(dpy, share, DecodeRequest(attribs).value).value)
      ensures DecodeRequest(attribs).Ok? && ShareCheck(dpy, share, DecodeRequest(attribs).value).None?
              && ValidateConfig(dpy, config).Some?
              ==> r == Err(ValidateConfig(dpy, config).value)
      ensures r.Ok? <==>
                && DecodeRequest(attribs).Ok?
                && ShareCheck(dpy, share, DecodeRequest(attribs).value).None?
                && ValidateConfig(dpy, config).None?
      ensures r.Ok? ==> r == DecodeRequest(attribs)
    {
      var decoded := DecodeRequest(attribs);
      if decoded.Err? then decoded
      else if ShareCheck(dpy, share, decoded.value).Some? then Err(ShareCheck(dpy, share, decoded.value).value)
      else if ValidateConfig(dpy, config).Some? then Err(ValidateConfig(dpy, config).value)
      else decoded
    }

    /** eglCreateContext: decode the attribute list, check the request, check
        the share context, validate the config, then ask the backend
        (`backend` is the error it reports, if any). The success path does
        not write the error register. */
    method CreateContext(dpy: Handle, config: Handle, share: Handle, attribs: Option<seq<EglInt>>,
                         backend: Option<FailureCode>)
      returns (ctx: Handle)
      requires Valid() && KnownDisplay(dpy)
      requires attribs.Some? ==> Terminated(attribs.value)
      requires DecodeRequest(attribs).Ok? ==> ShareReadable(dpy, share, DecodeRequest(attribs).value)
      modifies this`error, this`contexts, this`nextHandle
      ensures Valid()
      ensures old(CreateContextCheck(dpy, config, share, attribs)).Err? ==>
                ctx == NoHandle && error == old(CreateContextCheck(dpy, config, share, attribs)).error
                && contexts == old(contexts)
      ensures old(CreateContextCheck(dpy, config, share, attribs)).Ok? && backend.Some? ==>
                ctx == NoHandle && error == backend.value && contexts == old(contexts)
      ensures old(CreateContextCheck(dpy, config, share, attribs)).Ok? && backend.None? ==>
                var request := old(CreateContextCheck(dpy, config, share, attribs)).value;
                && ctx != NoHandle && ctx !in old(contexts) && error == old(error)
                && contexts == old(contexts)[ctx :=
                     ContextRecord(dpy, request.major, request.resetNotification, displays[dpy].renderer.value)]
    {
      var request := Defaults;
      if attribs.Some? {
        var walked := DecodeAttributes(attribs.value);
        if walked.Err? {
          error := walked.error;
          return NoHandle;
        }
        request := walked.value;
      }
      // the version, flag and robust-access checks after the loop
      var checked := CheckRequest(request);
      if checked.Err? {
        error := checked.error;
        return NoHandle;
      }
      assert DecodeRequest(attribs) == Ok(request);
      if share != NoHandle {
        var shared := contexts[share];
        if shared.resetNotification != request.resetNotification {
          error := BadMatch;
          return NoHandle;
        }
        if shared.clientVersion != request.major {
          error := BadContext;
          return NoHandle;
        }
        // the share context must run on this display's renderer
        if Some(shared.renderer) != displays[dpy].renderer {
          error := BadMatch;
          return NoHandle;
        }
      }
      if ValidateConfig(dpy, config).Some? {
        error := ValidateConfig(dpy, config).value;
        return NoHandle;
      }
      if backend.Some? {
        error := backend.value;
        return NoHandle;
      }
      ctx := AddContext(dpy, request);
    }

    /** Record a context the backend has just created on the renderer of
        display `dpy`. */
    method AddContext(dpy: Handle, request: Request) returns (ctx: Handle)
      requires Valid() && IsInitialized(dpy)
      modifies this`contexts, this`nextHandle
      ensures Valid()
      ensures ctx != NoHandle && ctx !in old(contexts)
      ensures contexts == old(contexts)[ctx :=
                ContextRecord(dpy, request.major, request.resetNotification, displays[dpy].renderer.value)]
    {
      var record := ContextRecord(dpy, request.major, request.resetNotification, displays[dpy].renderer.value);
      NewContextKeepsTables(displays, nativeDisplays, contexts, surfaces, nextHandle, nextRenderer, record);
      ctx := nextHandle;
      nextHandle := nextHandle + 1;
      contexts := contexts[ctx := record];
    }

    /** eglDestroyContext: the context must validate; if it is current, the
        current display and context become null (the draw and read surfaces
        stay as they are); then it is destroyed. */
    method DestroyContext(dpy: Handle, ctx: Handle) returns (ok: bool)
      requires Valid() && KnownDisplay(dpy)
      modifies this`error, this`currentDisplay, this`currentContext, this`contexts
      ensures Valid()
      ensures currentDraw == old(currentDraw) && currentRead == old(currentRead)
      ensures old(ValidateContext(dpy, ctx)).Some? ==>
                !ok && error == old(ValidateContext(dpy, ctx)).value
                && Binding() == old(Binding()) && contexts == old(contexts)
      ensures old(ValidateContext(dpy, ctx)).None? ==>
                && ok && error == Success && contexts == old(contexts) - {ctx}
                && (ctx == old(currentContext) ==> currentDisplay == NoHandle && currentContext == NoHandle)
                && (ctx != old(currentContext) ==>
                      currentDisplay == old(currentDisplay) && currentContext == old(currentContext))
    {
      if ValidateContext(dpy, ctx).Some? {
        error := ValidateContext(dpy, ctx).value;
        return false;
      }
      // The source's re-check for EGL_NO_CONTEXT cannot fire here: the null
      // handle is never a live context (NullHandleNeverValidates).
      if ctx == currentContext {
        currentDisplay := NoHandle;
        currentContext := NoHandle;
      }
      RemoveContextKeepsTables(displays, nativeDisplays, contexts, surfaces, nextHandle, nextRenderer, ctx);
      contexts := contexts - {ctx};
      error := Success;
      return true;
    }

    // ---------------------------------------------------------------
    // The current binding

    /** The checks of eglMakeCurrent that come before the surfaces are
        validated all pass: the null handles match, the context (if any)
        validates, and the display, if initialised, has no lost device. */
    predicate PassesUpToSurfaces(dpy: Handle, draw: Handle, read: Handle, ctx: Handle, deviceLostNow: bool)
      reads this`displays, this`contexts
      requires KnownDisplay(dpy)
    {
      && (ctx == NoHandle) == (draw == NoHandle || read == NoHandle)
      && (ctx != NoHandle ==> ValidateContext(dpy, ctx).None?)
      && !(IsInitialized(dpy) && (deviceLostNow || displays[dpy].deviceLost))
    }

    /** The checks of eglMakeCurrent in the source's order. `deviceLostNow`
        is what `testDeviceLost()` reports on an initialised display. */
    function MakeCurrentCheck(dpy: Handle, draw: Handle, read: Handle, ctx: Handle, deviceLostNow: bool)
      : (r: MakeCurrentStep)
      reads this`displays, this`contexts, this`surfaces
      requires KnownDisplay(dpy)
      ensures (ctx == NoHandle) != (draw == NoHandle || read == NoHandle) ==> r == Rejected(BadMatch)
      ensures (ctx == NoHandle) == (draw == NoHandle || read == NoHandle) && ctx != NoHandle
              && ValidateContext(dpy, ctx).Some?
              ==> r == Rejected(ValidateContext(dpy, ctx).value)
      ensures r == DeviceLossDetected <==>
                && (ctx == NoHandle) == (draw == NoHandle || read == NoHandle)
                && (ctx != NoHandle ==> ValidateContext(dpy, ctx).None?)
                && IsInitialized(dpy) && deviceLostNow
      ensures (ctx == NoHandle) == (draw == NoHandle || read == NoHandle)
              && (ctx != NoHandle ==> ValidateContext(dpy, ctx).None?)
              && IsInitialized(dpy) && !deviceLostNow && displays[dpy].deviceLost
              ==> r == Rejected(ContextLost)
      ensures PassesUpToSurfaces(dpy, draw, read, ctx, deviceLostNow)
              && draw != NoHandle && ValidateSurface(dpy, draw).Some?
              ==> r == Rejected(ValidateSurface(dpy, draw).value)
      ensures PassesUpToSurfaces(dpy, draw, read, ctx, deviceLostNow)
              && (draw != NoHandle ==> ValidateSurface(dpy, draw).None?)
              && read != NoHandle && ValidateSurface(dpy, read).Some?
              ==> r == Rejected(ValidateSurface(dpy, read).value)
      ensures r == Commit <==>
                && PassesUpToSurfaces(dpy, draw, read, ctx, deviceLostNow)
                && (draw != NoHandle ==> ValidateSurface(dpy, draw).None?)
                && (read != NoHandle ==> ValidateSurface(dpy, read).None?)
      ensures r == Commit ==>
                && (ctx != NoHandle <==> draw != NoHandle && read != NoHandle)
                && (ctx != NoHandle ==> IsInitialized(dpy) && OwnsContext(dpy, ctx))
                && (draw != NoHandle ==> IsInitialized(dpy) && OwnsSurface(dpy, draw))
                && (read != NoHandle ==> IsInitialized(dpy) && OwnsSurface(dpy, read))
                && (IsInitialized(dpy) ==> !deviceLostNow && !displays[dpy].deviceLost)
    {
      if (ctx == NoHandle) != (draw == NoHandle || read == NoHandle) then Rejected(BadMatch)
      else if ctx != NoHandle && ValidateContext(dpy, ctx).Some? then Rejected(ValidateContext(dpy, ctx).value)
      else if dpy != NoHandle && displays[dpy].initialized && deviceLostNow then DeviceLossDetected
      else if dpy != NoHandle && displays[dpy].initialized && displays[dpy].deviceLost then Rejected(ContextLost)
      else if draw != NoHandle && ValidateSurface(dpy, draw).Some? then Rejected(ValidateSurface(dpy, draw).value)
      else if read != NoHandle && ValidateSurface(dpy, read).Some? then Rejected(ValidateSurface(dpy, read).value)
      else Commit
    }

    /** eglMakeCurrent. A rejected call leaves the binding as it was and
        reports its error; a device loss detected by this call marks the
        renderer lost and fails without writing the error register; a
        committed call replaces all four fields of the binding and reports
        SUCCESS. Different draw and read surfaces are accepted. */
    method MakeCurrent(dpy: Handle, draw: Handle, read: Handle, ctx: Handle, deviceLostNow: bool)
      returns (ok: bool)
      requires Valid() && KnownDisplay(dpy)
      modifies this`error, this`currentDisplay, this`currentDraw, this`currentRead, this`currentContext,
               this`displays
      ensures Valid()
      ensures ok <==> old(MakeCurrentCheck(dpy, draw, read, ctx, deviceLostNow)) == Commit
      ensures !ok ==> Binding() == old(Binding())
      ensures old(MakeCurrentCheck(dpy, draw, read, ctx, deviceLostNow)).Rejected? ==>
                error == old(MakeCurrentCheck(dpy, draw, read, ctx, deviceLostNow)).error
                && displays == old(displays)
      ensures old(MakeCurrentCheck(dpy, draw, read, ctx, deviceLostNow)) == DeviceLossDetected ==>
                error == old(error) && displays == old(displays)[dpy := old(displays[dpy]).(deviceLost := true)]
      ensures ok ==>
                && Binding() == (dpy, draw, read, ctx) && error == Success && displays == old(displays)
                && (currentContext != NoHandle <==> currentDraw != NoHandle && currentRead != NoHandle)
    {
      // The checks read the state only; the one that detects a lost
      // device changes it and ends the call, as in the source.
      var step := MakeCurrentCheck(dpy, draw, read, ctx, deviceLostNow);
      match step {
        case Rejected(code) =>
          error := code;
          return false;
        case DeviceLossDetected =>
          NotifyDeviceLost(dpy);
          return false;
        case Commit =>
          currentDisplay, currentDraw, currentRead, currentContext := dpy, draw, read, ctx;
          error := Success;
          return true;
      }
    }

    /** `Display::notifyDeviceLost`: the renderer records the loss, which
        later calls observe. */
    method NotifyDeviceLost(dpy: Handle)
      requires Valid() && dpy in displays
      modifies this`displays
      ensures Valid()
      ensures displays == old(displays)[dpy := old(displays[dpy]).(deviceLost := true)]
    {
      MarkLostKeepsTables(displays, nativeDisplays, contexts, surfaces, nextHandle, nextRenderer, dpy);
      displays := displays[dpy := displays[dpy].(deviceLost := true)];
    }

    /** eglGetCurrentSurface. */
    method GetCurrentSurface(readdraw: EglInt) returns (surface: Handle)
      requires Valid()
      modifies this`error
      ensures Valid()
      ensures var r := SelectCurrentSurface(readdraw, currentDraw, currentRead);
              && (r.Ok? ==> surface == r.value && error == Success)
              && (r.Err? ==> surface == NoHandle && error == r.error)
    {
      if readdraw == EGL_READ {
        error := Success;
        return currentRead;
      } else if readdraw == EGL_DRAW {
        error := Success;
        return currentDraw;
      } else {
        error := BadParameter;
        return NoHandle;
      }
    }

    /** eglGetCurrentDisplay. */
    method GetCurrentDisplay() returns (dpy: Handle)
      requires Valid()
      modifies this`error
      ensures Valid()
      ensures dpy == currentDisplay && error == Success
      ensures dpy == NoHandle || dpy in displays
    {
      dpy := currentDisplay;
      error := Success;
    }

    /** eglGetCurrentContext. */
    method GetCurrentContext() returns (ctx: Handle)
      requires Valid()
      modifies this`error
      ensures Valid()
      ensures ctx == currentContext && error == Success
      ensures ctx != NoHandle ==> OwnsContext(currentDisplay, ctx)
    {
      ctx := currentContext;
      error := Success;
    }

    /** eglBindAPI: only OpenGL ES is supported; OpenGL, OpenVG and any other
        value are BAD_PARAMETER. */
    method BindAPI(newApi: EglInt) returns (ok: bool)
      requires Valid()
      modifies this`error, this`api
      ensures Valid()
      ensures ok <==> newApi == EGL_OPENGL_ES_API
      ensures error == (if ok then Success else BadParameter)
      ensures api == old(api)
    {
      if newApi == EGL_OPENGL_API || newApi == EGL_OPENVG_API {
        // OpenGL and OpenVG are refused like an unknown value
        error := BadParameter;
        return false;
      } else if newApi != EGL_OPENGL_ES_API {
        error := BadParameter;
        return false;
      }
      api := newApi;
      error := Success;
      return true;
    }

    /** eglQueryAPI: always OpenGL ES, the only API BindAPI can select. */
    method QueryAPI() returns (a: EglInt)
      requires Valid()
      modifies this`error
      ensures Valid()
      ensures a == api && a == EGL_OPENGL_ES_API && error == Success
    {
      a := api;
      error := Success;
    }

    /** eglReleaseThread: unbind everything through eglMakeCurrent with null
        handles, then report SUCCESS. */
    method ReleaseThread() returns (ok: bool)
      requires Valid()
      modifies this`error, this`currentDisplay, this`currentDraw, this`currentRead, this`currentContext,
               this`displays
      ensures Valid()
      ensures ok && error == Success
      ensures Binding() == (NoHandle, NoHandle, NoHandle, NoHandle)
      ensures displays == old(displays)
    {
      var _ := MakeCurrent(NoHandle, NoHandle, NoHandle, NoHandle, false);
      error := Success;
      return true;
    }
  }

  // -----------------------------------------------------------------
  // Properties of the validation chain and the checks

  /** Validation order: whatever the object handle, a null display gives
      BAD_DISPLAY and an uninitialised display NOT_INITIALIZED, so
      BAD_CONFIG, BAD_CONTEXT and BAD_SURFACE are only ever reported for an
      initialised display. */
  lemma ValidationOrder(e: Egl, dpy: Handle, obj: Handle)
    requires e.KnownDisplay(dpy)
    ensures dpy == NoHandle ==>
              e.ValidateConfig(dpy, obj) == Some(BadDisplay) && e.ValidateContext(dpy, obj) == Some(BadDisplay)
              && e.ValidateSurface(dpy, obj) == Some(BadDisplay)
    ensures dpy != NoHandle && !e.IsInitialized(dpy) ==>
              e.ValidateConfig(dpy, obj) == Some(NotInitialized) && e.ValidateContext(dpy, obj) == Some(NotInitialized)
              && e.ValidateSurface(dpy, obj) == Some(NotInitialized)
    ensures e.ValidateConfig(dpy, obj) == Some(BadConfig) || e.ValidateContext(dpy, obj) == Some(BadContext)
            || e.ValidateSurface(dpy, obj) == Some(BadSurface)
            ==> e.IsInitialized(dpy)
  {
  }

  /** The null handle never passes context or surface validation, so the
      source's later checks for EGL_NO_CONTEXT and EGL_NO_SURFACE after a
      successful validation are dead. */
  lemma NullHandleNeverValidates(e: Egl, dpy: Handle)
    requires e.Valid() && e.KnownDisplay(dpy)
    ensures e.ValidateContext(dpy, NoHandle) != None
    ensures e.ValidateSurface(dpy, NoHandle) != None
  {
  }

  /** Renderers identify displays: a live context runs on the renderer of a
      display exactly when that display owns it, so the renderer check of
      eglCreateContext refuses every share context of another display. */
  lemma {:induction false} SameRendererIffSameDisplay(e: Egl, dpy: Handle, share: Handle)
    requires e.Valid() && dpy in e.displays && share in e.contexts
    ensures e.displays[dpy].renderer == Some(e.contexts[share].renderer) <==> e.contexts[share].owner == dpy
  {
    var owner := e.contexts[share].owner;
    assert e.displays[owner].renderer == Some(e.contexts[share].renderer);
  }

  /** With a share context, the three share checks come before the config
      is looked at: a bad config is only reported for a compatible share
      context of the same display. */
  lemma ShareChecksBeforeConfig(e: Egl, dpy: Handle, config: Handle, share: Handle, attribs: Option<seq<EglInt>>)
    requires e.Valid() && e.KnownDisplay(dpy)
    requires attribs.Some? ==> Terminated(attribs.value)
    requires DecodeRequest(attribs).Ok? ==> e.ShareReadable(dpy, share, DecodeRequest(attribs).value)
    ensures e.CreateContextCheck(dpy, config, share, attribs).Err? &&
            e.CreateContextCheck(dpy, config, share, attribs).error in {BadConfig, NotInitialized, BadDisplay}
            && DecodeRequest(attribs).Ok? && share != NoHandle
            ==> e.contexts[share].owner == dpy
                && e.contexts[share].resetNotification == DecodeRequest(attribs).value.resetNotification
                && e.contexts[share].clientVersion == DecodeRequest(attribs).value.major
  {
    if share != NoHandle && dpy != NoHandle && DecodeRequest(attribs).Ok? {
      SameRendererIffSameDisplay(e, dpy, share);
    }
  }

  /** A successful context creation is for client version 2 or 3, and a
      share context, if any, has the same version, the same reset
      notification and the same display. */
  lemma CreateContextAccepts(e: Egl, dpy: Handle, config: Handle, share: Handle, attribs: Option<seq<EglInt>>)
    requires e.Valid() && e.KnownDisplay(dpy)
    requires attribs.Some? ==> Terminated(attribs.value)
    requires DecodeRequest(attribs).Ok? ==> e.ShareReadable(dpy, share, DecodeRequest(attribs).value)
    ensures e.CreateContextCheck(dpy, config, share, attribs).Ok? ==>
              var r := e.CreateContextCheck(dpy, config, share, attribs).value;
              && (r.major == 2 || r.major == 3) && e.IsInitialized(dpy) && config in e.displays[dpy].configs
              && (share != NoHandle ==>
                    e.contexts[share].owner == dpy && e.contexts[share].clientVersion == r.major
                    && e.contexts[share].resetNotification == r.resetNotification)
  {
    DecodeRequestOutcome(attribs);
    if share != NoHandle && dpy != NoHandle && DecodeRequest(attribs).Ok? {
      SameRendererIffSameDisplay(e, dpy, share);
    }
  }

  /** Unbinding (all handles null) always commits, whatever the state:
      the basis of eglReleaseThread. */
  lemma UnbindAlwaysCommits(e: Egl, deviceLostNow: bool)
    ensures e.MakeCurrentCheck(NoHandle, NoHandle, NoHandle, NoHandle, deviceLostNow) == Commit
  {
  }
}
