# ANGLE's EGL 1.4 entry points in Dafny

This project models the EGL front end of ANGLE, `src/libGLESv2/entry_points_egl.cpp`. That file holds the `egl*` functions an application calls. Each one validates its handles, works on the displays, contexts and surfaces, and leaves a code in the thread's error register.

The model is one object, `EntryPoints.Egl`. It owns:

- the error register;
- the current binding: display, draw surface, read surface and context;
- the bound API;
- the tables of live displays, contexts and surfaces.

Each entry point is a method on that object. Its `modifies` clause names the fields it changes. Its `ensures` clauses state the error it reports on every path and the new state on success. `Valid()` is preserved by every method. It says three things:

- handles are never null;
- every context and surface belongs to an initialised display;
- a context runs on the renderer of its own display, and the current context, when there is one, is a live context of the current display.

The work is split by concern:

- `EglTypes` (egl_types.dfy) holds the 32-bit `EGLint`, the error codes, the enumerant values of `egl.h`/`eglext.h`, and a bitwise AND over the unsigned two's-complement value, used for the context-flag tests.
- `ContextAttributes` (context_attributes.dfy) holds the `eglCreateContext` attribute decoder. `DecodeAttributes` is the loop as the source writes it. `Walk` is the pure reading it is proved equal to. `CheckRequest` holds the version, flag and robust-access checks that follow the loop.
- `SurfaceQueries` (surface_queries.dfy) holds the read-only selections: the attribute table of `eglQuerySurface`, the name switch of `eglQueryString`, and the selector of `eglGetCurrentSurface`.
- `EntryPoints` (entry_points.dfy) holds the state and the entry points. The checks of `eglBindTexImage`, `eglReleaseTexImage`, `eglCreateContext` and `eglMakeCurrent` are also written as pure functions of the state (`BindTexImageCheck`, `ReleaseTexImageCheck`, `CreateContextCheck`, `MakeCurrentCheck`). Each method is specified by its check, and lemmas state what the checks mean.
- `Scenarios` (scenarios.dfy) holds call sequences whose outcome follows from the contracts alone:
  - the error register is read once;
  - a second bind is `EGL_BAD_ACCESS`;
  - `{EGL_CONTEXT_CLIENT_VERSION, 2, EGL_NONE}` decodes to an ES 2 request;
  - destroying the current context leaves the current surfaces bound.

Backend calls become parameters of the methods that make them. `Display::initialize`, surface and context creation, `testDeviceLost`, `Surface::swap`, the config lookups and `isValidNativeWindow` are each given as their outcome. A display's renderer is the value `Renderer(display, serial)`. Two displays therefore never share a renderer, which is what the renderer comparison of `eglCreateContext` relies on.

Where the code differs from what the EGL 1.4 specification would suggest, the model follows the code:

- **Create calls on success:** `eglCreateWindowSurface`, `eglCreatePbufferSurface`, `eglCreatePbufferFromClientBuffer` and `eglCreateContext` return the new handle without writing `EGL_SUCCESS`, so the error register keeps its old value.
- **Unimplemented `eglQuerySurface` attributes:** `EGL_VG_ALPHA_FORMAT`, `EGL_LARGEST_PBUFFER`, `EGL_MIPMAP_LEVEL` and the other unimplemented attributes return `EGL_TRUE` and SUCCESS without writing `*value`.
- **Different draw and read surfaces:** `eglMakeCurrent` only logs this case as unimplemented, then accepts it.
- **Destroying or terminating the current context:** `eglDestroyContext` and `eglTerminate` clear only the current display and context, not the current draw and read surfaces.
- **The reset-notification strategy is sticky:** a later `EGL_NO_RESET_NOTIFICATION` does not undo an earlier `EGL_LOSE_CONTEXT_ON_RESET`.
- **Profile mask:** `EGL_CONTEXT_OPENGL_PROFILE_MASK_KHR` is always `EGL_BAD_ATTRIBUTE`.
- **Robust access:** once the version and the flag bits have passed, a robust-access request, by attribute or by the ROBUST_ACCESS flag bit, is `EGL_BAD_CONFIG`. A flag value with any bit besides DEBUG and ROBUST_ACCESS is refused earlier, with `EGL_BAD_ATTRIBUTE`.
- **`eglChooseConfig`:** it reports SUCCESS whatever the display's config query returns.

## Model

| member | source | states |
|---|---|---|
| EglTypes.Code | src/libGLESv2/entry_points_egl.cpp:95-102 | the EGLint that eglGetError reports lies in 0x3000..0x300E, and only SUCCESS is 0x3000 |
| EglTypes.CodeInjective | src/libGLESv2/entry_points_egl.cpp:95-102 | distinct error codes are reported as distinct EGLint values |
| EglTypes.FlagsWithinDebugRobust | src/libGLESv2/entry_points_egl.cpp:532-539 | `(flags & ~(DEBUG\|ROBUST_ACCESS)) == 0` holds exactly for the flag values 0, 1, 4 and 5 |
| ContextAttributes.BadPair | src/libGLESv2/entry_points_egl.cpp:476-522 | the pairs the switch refuses: the profile-mask key, an unknown key, a robust-access value other than TRUE/FALSE, a reset-strategy value other than LOSE_CONTEXT_ON_RESET/NO_RESET_NOTIFICATION; its meaning is stated through Step |
| ContextAttributes.Step | src/libGLESv2/entry_points_egl.cpp:476-522 | one case of the attribute switch fails exactly on a bad pair, and always with BAD_ATTRIBUTE; a bad pair is a profile-mask key, an unknown key, a robust-access value other than TRUE/FALSE, or a reset-strategy value other than LOSE_CONTEXT_ON_RESET/NO_RESET_NOTIFICATION |
| ContextAttributes.DecodeAttributes | src/libGLESv2/entry_points_egl.cpp:466-524 | the imperative decoding loop, from the defaults (version 1.0, no flags, no reset notification, no robust access), returns what the pure walk over the list to EGL_NONE returns |
| ContextAttributes.Walk | src/libGLESv2/entry_points_egl.cpp:472-524 | the loop read as recursion, stopping at EGL_NONE or at the first failing pair; a failure is always BAD_ATTRIBUTE |
| ContextAttributes.WalkFailsIffBadPair | src/libGLESv2/entry_points_egl.cpp:472-524 | the walk fails exactly when some pair before EGL_NONE is bad, whatever was collected before, and then with BAD_ATTRIBUTE |
| ContextAttributes.WalkCollects | src/libGLESv2/entry_points_egl.cpp:472-524 | on success, the major version, minor version, flags and robust access are the last value given for each key; reset notification is set exactly when some pair asks for LOSE_CONTEXT_ON_RESET |
| ContextAttributes.ResetStrategyIsSticky | src/libGLESv2/entry_points_egl.cpp:503-515 | LOSE_CONTEXT_ON_RESET followed by NO_RESET_NOTIFICATION still asks for reset notification |
| ContextAttributes.HasInvalidFlagBits | src/libGLESv2/entry_points_egl.cpp:532-539 | the flags, masked with the complement of DEBUG and ROBUST_ACCESS, are non-zero exactly when they are not one of 0, 1, 4, 5 |
| ContextAttributes.HasRobustFlag | src/libGLESv2/entry_points_egl.cpp:541-544 | the flags, masked with ROBUST_ACCESS, are positive exactly when bit 2 of their 32-bit representation is set |
| ContextAttributes.CheckRequest | src/libGLESv2/entry_points_egl.cpp:526-551 | the checks after the loop keep an accepted request unchanged and refuse with BAD_CONFIG or BAD_ATTRIBUTE only |
| ContextAttributes.CheckRequestAccepts | src/libGLESv2/entry_points_egl.cpp:526-551 | the post-loop checks accept exactly version 2.0 or 3.0, with flags 0 or DEBUG and no robust access, and then keep the request unchanged |
| ContextAttributes.CheckRequestErrors | src/libGLESv2/entry_points_egl.cpp:526-551 | a version other than 2.0/3.0 is BAD_CONFIG before the flags are looked at; then a flag bit other than DEBUG/ROBUST_ACCESS is BAD_ATTRIBUTE; then robust access, by attribute or by flag bit, is BAD_CONFIG |
| ContextAttributes.DecodeRequest | src/libGLESv2/entry_points_egl.cpp:465-551 | the decoding half of eglCreateContext fails only with BAD_ATTRIBUTE or BAD_CONFIG, a failing walk always giving BAD_ATTRIBUTE, and a decoded request passes the post-loop checks |
| ContextAttributes.DefaultVersionRefused | src/libGLESv2/entry_points_egl.cpp:465-530 | a null attribute list and `{EGL_NONE}` both ask for version 1 and are refused with BAD_CONFIG |
| ContextAttributes.DecodeRequestOutcome | src/libGLESv2/entry_points_egl.cpp:465-551 | a decoded request is for version 2.0 or 3.0 without robust access; a bad pair anywhere in the list gives BAD_ATTRIBUTE before any version check |
| SurfaceQueries.AnswerQuery | src/libGLESv2/entry_points_egl.cpp:395-453 | the attribute switch writes a value exactly for the ten implemented attributes, accepts the eight unimplemented ones without writing, and rejects everything else; each implemented attribute reports its own field (CONFIG_ID the config id, WIDTH the width, HEIGHT the height, and so on, with the two boolean properties as EGL_TRUE/EGL_FALSE) |
| SurfaceQueries.AnswerQueryDeterminesProps | src/libGLESv2/entry_points_egl.cpp:403-450 | no property is hidden from the table: two surfaces that answer every implemented attribute alike have equal properties |
| SurfaceQueries.SelectString | src/libGLESv2/entry_points_egl.cpp:173-194 | CLIENT_APIS selects the client-API string, EXTENSIONS the extension string of the display asked, VENDOR that display's vendor string, VERSION the version string; any other name is BAD_PARAMETER |
| SurfaceQueries.SelectCurrentSurface | src/libGLESv2/entry_points_egl.cpp:695-709 | EGL_READ selects the read surface, EGL_DRAW the draw surface, anything else is BAD_PARAMETER |
| EntryPoints.Egl.constructor | src/libGLESv2/entry_points_egl.cpp:986-994 | a thread starts with SUCCESS in the error register, nothing bound, OpenGL ES as the API and no displays, contexts or surfaces; the global-state file that holds these initial values is not part of this model |
| EntryPoints.Egl.ValidateDisplay | src/libGLESv2/entry_points_egl.cpp:29-44 | passes exactly for an initialised, non-null display; null is BAD_DISPLAY, uninitialised NOT_INITIALIZED |
| EntryPoints.Egl.ValidateConfig | src/libGLESv2/entry_points_egl.cpp:46-60 | passes exactly when the display is initialised and enumerated the config; a display error comes first, then BAD_CONFIG |
| EntryPoints.Egl.ValidateContext | src/libGLESv2/entry_points_egl.cpp:62-76 | passes exactly for a live context of an initialised display; a display error comes first, then BAD_CONTEXT |
| EntryPoints.Egl.ValidateSurface | src/libGLESv2/entry_points_egl.cpp:78-92 | passes exactly for a live surface of an initialised display; a display error comes first, then BAD_SURFACE |
| EntryPoints.Egl.GetError | src/libGLESv2/entry_points_egl.cpp:95-102 | returns the stored code and leaves SUCCESS in the register |
| EntryPoints.Egl.GetDisplay | src/libGLESv2/entry_points_egl.cpp:104-109 | the same native display always gives the same display; a new one gets a fresh, uninitialised display |
| EntryPoints.Egl.Initialize | src/libGLESv2/entry_points_egl.cpp:111-136 | the null display is BAD_DISPLAY; a backend failure is reported as is; success gives version 1.4 and SUCCESS, and a first initialisation gives the display a new renderer and its configs |
| EntryPoints.Egl.TerminateDisplay | src/libGLESv2/entry_points_egl.cpp:157 | the display returns to the uninitialised state and its contexts and surfaces are destroyed, and nothing else is |
| EntryPoints.Egl.Terminate | src/libGLESv2/entry_points_egl.cpp:138-161 | the null display is BAD_DISPLAY and changes nothing; otherwise the current display and context are cleared exactly when the current context belongs to this display, the display is terminated, and SUCCESS is reported |
| EntryPoints.Egl.QueryString | src/libGLESv2/entry_points_egl.cpp:163-195 | only EXTENSIONS of the null display skips display validation; otherwise a display error is reported first, then the name switch decides |
| EntryPoints.Egl.GetConfigs | src/libGLESv2/entry_points_egl.cpp:197-226 | display error, then BAD_PARAMETER without `num_config`, then BAD_ATTRIBUTE when the display's config query fails, otherwise SUCCESS |
| EntryPoints.Egl.ChooseConfig | src/libGLESv2/entry_points_egl.cpp:228-258 | display error, then BAD_PARAMETER without `num_config`, otherwise SUCCESS whatever the config query returns |
| EntryPoints.Egl.GetConfigAttrib | src/libGLESv2/entry_points_egl.cpp:260-280 | config error, then BAD_ATTRIBUTE when the display has no value, otherwise that value and SUCCESS |
| EntryPoints.Egl.AddSurface | src/libGLESv2/entry_points_egl.cpp:301 | a created surface gets a fresh non-null handle, belongs to its display and has no bound texture |
| EntryPoints.Egl.CreateWindowSurface | src/libGLESv2/entry_points_egl.cpp:282-309 | config error, then BAD_NATIVE_WINDOW, then the backend's error; success adds one window surface and leaves the error register as it was |
| EntryPoints.Egl.CreatePbufferSurface | src/libGLESv2/entry_points_egl.cpp:311-332 | config error, then the backend's error; success adds one pbuffer and leaves the error register as it was |
| EntryPoints.Egl.CreatePbufferFromClientBuffer | src/libGLESv2/entry_points_egl.cpp:996-1024 | config error, then BAD_PARAMETER for a buffer type other than the D3D share handle or a null buffer, then the backend's error; success adds one pbuffer and leaves the error register as it was |
| EntryPoints.Egl.DestroySurface | src/libGLESv2/entry_points_egl.cpp:352-374 | a surface that fails validation changes nothing but the error; a valid one is removed with SUCCESS; the current binding is never touched |
| EntryPoints.Egl.QuerySurface | src/libGLESv2/entry_points_egl.cpp:376-458 | a validation error comes first; an implemented attribute writes its field, an unimplemented one succeeds without writing, an unknown one is BAD_ATTRIBUTE without writing |
| EntryPoints.Egl.SwapBuffers | src/libGLESv2/entry_points_egl.cpp:761-794 | a validation error, then CONTEXT_LOST on a lost device, then what the swap reports |
| EntryPoints.Egl.SwapInterval | src/libGLESv2/entry_points_egl.cpp:936-959 | a display error, then BAD_SURFACE with no current draw surface; otherwise only the current draw surface's interval changes, with SUCCESS |
| EntryPoints.Egl.BindTexImageCheck | src/libGLESv2/entry_points_egl.cpp:828-867 | the checks pass exactly for a valid, non-window, unbound surface with a texture format and the back buffer, whose current context (if any) has a mutable texture; each failing check gives its own error, in the source's order |
| EntryPoints.Egl.BindTexImage | src/libGLESv2/entry_points_egl.cpp:821-874 | a failed check changes nothing but the error; success binds the current context's texture, or binds nothing when no context is current, and reports SUCCESS |
| EntryPoints.Egl.ReleaseTexImageCheck | src/libGLESv2/entry_points_egl.cpp:902-923 | the checks pass exactly for a valid, non-window surface with a texture format and the back buffer; each failing check gives its own error, in the source's order |
| EntryPoints.Egl.ReleaseTexImage | src/libGLESv2/entry_points_egl.cpp:895-934 | a failed check changes nothing but the error; success leaves the surface with no bound texture, and changes nothing when none was bound |
| EntryPoints.Egl.ShareCheck | src/libGLESv2/entry_points_egl.cpp:555-577 | with a share context: a reset-notification mismatch is BAD_MATCH, then a version mismatch BAD_CONTEXT, then a renderer mismatch BAD_MATCH; the display is needed only for the renderer comparison |
| EntryPoints.Egl.CreateContextCheck | src/libGLESv2/entry_points_egl.cpp:465-582 | decoding errors come first, whatever the share context and display; then share-context errors; then the config error; it passes exactly when all three pass, with the decoded request |
| EntryPoints.Egl.CreateContext | src/libGLESv2/entry_points_egl.cpp:460-594 | a failed check or a backend failure creates nothing and reports that error; success adds one context of the decoded version on the display's renderer and leaves the error register as it was |
| EntryPoints.Egl.AddContext | src/libGLESv2/entry_points_egl.cpp:585-586 | a created context gets a fresh non-null handle and runs on its display's renderer |
| EntryPoints.Egl.DestroyContext | src/libGLESv2/entry_points_egl.cpp:596-624 | a context that fails validation changes nothing but the error; a valid one is removed with SUCCESS, and the current display and context are cleared exactly when it was current; draw and read surfaces stay |
| EntryPoints.Egl.MakeCurrentCheck | src/libGLESv2/entry_points_egl.cpp:634-670 | a null-handle mismatch is BAD_MATCH, then a context error, then a device loss detected now, then CONTEXT_LOST for an earlier loss, then the draw surface's error, then the read surface's; the call commits exactly when every check passes, and a commit has a context exactly when it has both surfaces, all of them live objects of the display |
| EntryPoints.Egl.MakeCurrent | src/libGLESv2/entry_points_egl.cpp:626-689 | a rejected call keeps the binding and reports its error; a detected device loss is recorded without writing the error register; a commit sets all four binding fields and SUCCESS; different draw and read surfaces are accepted |
| EntryPoints.Egl.NotifyDeviceLost | src/libGLESv2/entry_points_egl.cpp:650-654 | the display's renderer records the loss, and nothing else changes |
| EntryPoints.Egl.GetCurrentSurface | src/libGLESv2/entry_points_egl.cpp:691-710 | returns the read or draw surface with SUCCESS, or null with BAD_PARAMETER |
| EntryPoints.Egl.GetCurrentDisplay | src/libGLESv2/entry_points_egl.cpp:712-720 | returns the current display, null or live, with SUCCESS |
| EntryPoints.Egl.GetCurrentContext | src/libGLESv2/entry_points_egl.cpp:1047-1055 | returns the current context, null or a live context of the current display, with SUCCESS |
| EntryPoints.Egl.BindAPI | src/libGLESv2/entry_points_egl.cpp:963-984 | succeeds exactly for OpenGL ES; OpenGL, OpenVG and anything else are BAD_PARAMETER |
| EntryPoints.Egl.QueryAPI | src/libGLESv2/entry_points_egl.cpp:986-994 | always reports OpenGL ES, with SUCCESS |
| EntryPoints.Egl.ReleaseThread | src/libGLESv2/entry_points_egl.cpp:1026-1034 | afterwards nothing is bound and the error is SUCCESS |
| EntryPoints.ValidationOrder | src/libGLESv2/entry_points_egl.cpp:46-92 | whatever the object handle, a null display gives BAD_DISPLAY and an uninitialised one NOT_INITIALIZED; BAD_CONFIG, BAD_CONTEXT and BAD_SURFACE are only reported for an initialised display |
| EntryPoints.NullHandleNeverValidates | src/libGLESv2/entry_points_egl.cpp:364-368 | the null handle never passes context or surface validation, so the later null re-checks after validation cannot fire |
| EntryPoints.SameRendererIffSameDisplay | src/libGLESv2/entry_points_egl.cpp:571-576 | a live context runs on a display's renderer exactly when that display owns it |
| EntryPoints.ShareChecksBeforeConfig | src/libGLESv2/entry_points_egl.cpp:555-582 | a display or config error with a share context is only reported when the share context matches in display, version and reset notification |
| EntryPoints.CreateContextAccepts | src/libGLESv2/entry_points_egl.cpp:526-582 | an accepted creation is for version 2 or 3, on an initialised display with that config, and a share context has the same display, version and reset notification |
| EntryPoints.UnbindAlwaysCommits | src/libGLESv2/entry_points_egl.cpp:1030 | unbinding with all handles null always commits, whatever the state |
| Scenarios.ErrorIsReportedOnce | src/libGLESv2/entry_points_egl.cpp:95-102 | reading the error twice gives the stored code, then SUCCESS |
| Scenarios.BindTwiceIsBadAccess | src/libGLESv2/entry_points_egl.cpp:845-849 | with a context current, a second bind of the same pbuffer is BAD_ACCESS and keeps the first binding |
| Scenarios.BindThenReleaseTwice | src/libGLESv2/entry_points_egl.cpp:925-933 | bind, release and a second release all succeed and leave the surfaces as they were |
| Scenarios.ClientVersion2Decodes | src/libGLESv2/entry_points_egl.cpp:465-551 | `{EGL_CONTEXT_CLIENT_VERSION, 2, EGL_NONE}` decodes to an OpenGL ES 2.0 request with the other defaults |
| Scenarios.InitializedDisplay | src/libGLESv2/entry_points_egl.cpp:104-136 | a new display, once initialised with a config, is initialised and has that config |
| Scenarios.Session | src/libGLESv2/entry_points_egl.cpp:311-332 | two pbuffers and an ES 2 context on one display are created, and the error register stays SUCCESS |
| Scenarios.DestroyingTheCurrentContextKeepsItsSurfaces | src/libGLESv2/entry_points_egl.cpp:614-620 | after MakeCurrent with different draw and read surfaces and DestroyContext, the current display and context are null but both surfaces stay bound |

## Left out

- **Backend internals:** display initialisation, config enumeration and matching, surface and context creation, swapping, and device-loss detection are left out. The methods take their outcome as a parameter (`backend`, `backendAccepts`, `backendValue`, `windowValid`, `swapResult`, `deviceLostNow`, `texture`).
- **Config lists:** `eglGetConfigs` and `eglChooseConfig` do not model the config list they fill in. Only their local guards are modelled.
- **`eglGetProcAddress`:** a lookup table of function names is not part of this model.
- **Stubs:** the unimplemented entry points are not modelled. `eglCreatePixmapSurface` validates the config, `eglQueryContext` the context, and `eglCopyBuffers` and `eglSurfaceAttrib` the surface; `eglCopyBuffers` then reports CONTEXT_LOST and returns false when the display's device is lost; past those checks each logs as unimplemented and writes SUCCESS. `eglWaitGL`, `eglWaitNative` and `eglWaitClient` validate nothing: they log, write SUCCESS and return 0. The EGL 1.5 sync and platform functions validate nothing and write nothing: they log and return a null or false value.
- **Strings:** the text of the vendor, version and extension strings is left out. `QueryString` returns which string it would return.
- **Tracing and threads:** `EVENT` tracing and `UNIMPLEMENTED` logging are left out. The thread-local storage behind the error register and the binding is left out too: the model is one thread.
- **`context->makeCurrent(drawSurface)`:** its effect on the GL context is not part of this model.
- **The swap interval:** the display's backend clamps it. The model stores the value as given.
- **Object lifetimes:** the source uses raw pointers. A destroyed surface can remain current, and the model keeps its handle in the binding.
- EntryPoints.Egl.SwapInterval: it requires that a current draw surface still be live. The source dereferences a possibly destroyed surface there.
- EntryPoints.Egl.CreateContext: once the attribute list has decoded, it requires a non-null share context to be live, and requires a non-null display once that share context has passed the reset-notification and version checks (`ShareReadable`). The source reads the share context from line 559 on and the display at line 572 without checking either. A decoding error, and a share mismatch on the null display, are modelled.
- EntryPoints.Egl.CreateContextCheck: it has the same requirement, for the same reason.
- EntryPoints.Egl.ShareCheck: it has the same requirement, for the same reason.
- ContextAttributes.DecodeAttributes: it requires the list to be terminated, with `EGL_NONE` at a key position. The source reads past the end of a list without one.
- **Other handle checks:** a handle that is not null and not a live display is outside the model (`KnownDisplay`). The source would cast an arbitrary pointer.
- **The unreachable null re-checks** in `eglDestroySurface`, `eglQuerySurface`, `eglDestroyContext`, `eglSwapBuffers`, `eglBindTexImage` and `eglReleaseTexImage` are not separate branches. `NullHandleNeverValidates` shows that validation already rejects the null handle.
- EntryPoints.Egl.BindAPI: the API variable can only ever hold OpenGL ES, so `Valid()` fixes it and the assignment has no visible effect.
