/** The read-only selections of the surface and string queries: the
    eglQuerySurface attribute-to-field table (section 3.5.6 of the EGL 1.4
    specification), the eglQueryString name switch (section 3.3) and the
    eglGetCurrentSurface selector (section 3.7.4). */
module SurfaceQueries {
  import opened EglTypes

  /** The values a surface reports through eglQuerySurface. The backend
      decides them when it creates the surface. */
  datatype SurfaceProps = SurfaceProps(
    configId: EglInt,
    width: EglInt,
    height: EglInt,
    pixelAspectRatio: EglInt,
    renderBuffer: EglInt,
    swapBehavior: EglInt,
    textureFormat: EglInt,
    textureTarget: EglInt,
    postSubBufferSupported: bool,
    fixedSize: bool)

  /** What the attribute switch does: write a value, accept the attribute
      without writing anything, or reject it. */
  datatype QueryAnswer = Value(v: EglInt) | NotWritten | Unknown

  /** The attributes the switch accepts without writing `*value`. */
  predicate IsUnwrittenAttribute(attribute: EglInt)
  {
    attribute in {EGL_VG_ALPHA_FORMAT, EGL_VG_COLORSPACE, EGL_HORIZONTAL_RESOLUTION,
                  EGL_LARGEST_PBUFFER, EGL_MIPMAP_TEXTURE, EGL_MIPMAP_LEVEL,
                  EGL_MULTISAMPLE_RESOLVE, EGL_VERTICAL_RESOLUTION}
  }

  /** The attributes the switch answers with a field of the surface. */
  predicate IsWrittenAttribute(attribute: EglInt)
  {
    attribute in {EGL_CONFIG_ID, EGL_HEIGHT, EGL_PIXEL_ASPECT_RATIO, EGL_RENDER_BUFFER,
                  EGL_SWAP_BEHAVIOR, EGL_TEXTURE_FORMAT, EGL_TEXTURE_TARGET, EGL_WIDTH,
                  EGL_POST_SUB_BUFFER_SUPPORTED_NV, EGL_FIXED_SIZE_ANGLE}
  }

  function BoolValue(b: bool): EglInt
  {
    if b then EGL_TRUE else EGL_FALSE
  }

  /** The switch over `attribute` in eglQuerySurface. */
  function AnswerQuery(s: SurfaceProps, attribute: EglInt): (r: QueryAnswer)
    ensures r.Value? <==> IsWrittenAttribute(attribute)
    ensures r == NotWritten <==> IsUnwrittenAttribute(attribute)
    ensures r == Unknown <==> !IsWrittenAttribute(attribute) && !IsUnwrittenAttribute(attribute)
    ensures attribute == EGL_CONFIG_ID ==> r == Value(s.configId)
    ensures attribute == EGL_HEIGHT ==> r == Value(s.height)
    ensures attribute == EGL_WIDTH ==> r == Value(s.width)
    ensures attribute == EGL_PIXEL_ASPECT_RATIO ==> r == Value(s.pixelAspectRatio)
    ensures attribute == EGL_RENDER_BUFFER ==> r == Value(s.renderBuffer)
    ensures attribute == EGL_SWAP_BEHAVIOR ==> r == Value(s.swapBehavior)
    ensures attribute == EGL_TEXTURE_FORMAT ==> r == Value(s.textureFormat)
    ensures attribute == EGL_TEXTURE_TARGET ==> r == Value(s.textureTarget)
    ensures attribute == EGL_POST_SUB_BUFFER_SUPPORTED_NV ==>
              r == Value(if s.postSubBufferSupported then EGL_TRUE else EGL_FALSE)
    ensures attribute == EGL_FIXED_SIZE_ANGLE ==> r == Value(if s.fixedSize then EGL_TRUE else EGL_FALSE)
  {
    if IsUnwrittenAttribute(attribute) then NotWritten
    else if attribute == EGL_CONFIG_ID then Value(s.configId)
    else if attribute == EGL_HEIGHT then Value(s.height)
    else if attribute == EGL_PIXEL_ASPECT_RATIO then Value(s.pixelAspectRatio)
    else if attribute == EGL_RENDER_BUFFER then Value(s.renderBuffer)
    else if attribute == EGL_SWAP_BEHAVIOR then Value(s.swapBehavior)
    else if attribute == EGL_TEXTURE_FORMAT then Value(s.textureFormat)
    else if attribute == EGL_TEXTURE_TARGET then Value(s.textureTarget)
    else if attribute == EGL_WIDTH then Value(s.width)
    else if attribute == EGL_POST_SUB_BUFFER_SUPPORTED_NV then Value(BoolValue(s.postSubBufferSupported))
    else if attribute == EGL_FIXED_SIZE_ANGLE then Value(BoolValue(s.fixedSize))
    else Unknown
  }

  /** No two fields share an attribute: two surfaces that answer every
      written attribute alike have the same properties, so the table reports
      the whole of a surface's state. */
  lemma {:induction false} AnswerQueryDeterminesProps(s: SurfaceProps, t: SurfaceProps)
    requires forall attribute :: IsWrittenAttribute(attribute) ==> AnswerQuery(s, attribute) == AnswerQuery(t, attribute)
    ensures s == t
  {
    assert AnswerQuery(s, EGL_CONFIG_ID) == AnswerQuery(t, EGL_CONFIG_ID);
    assert AnswerQuery(s, EGL_HEIGHT) == AnswerQuery(t, EGL_HEIGHT);
    assert AnswerQuery(s, EGL_WIDTH) == AnswerQuery(t, EGL_WIDTH);
    assert AnswerQuery(s, EGL_PIXEL_ASPECT_RATIO) == AnswerQuery(t, EGL_PIXEL_ASPECT_RATIO);
    assert AnswerQuery(s, EGL_RENDER_BUFFER) == AnswerQuery(t, EGL_RENDER_BUFFER);
    assert AnswerQuery(s, EGL_SWAP_BEHAVIOR) == AnswerQuery(t, EGL_SWAP_BEHAVIOR);
    assert AnswerQuery(s, EGL_TEXTURE_FORMAT) == AnswerQuery(t, EGL_TEXTURE_FORMAT);
    assert AnswerQuery(s, EGL_TEXTURE_TARGET) == AnswerQuery(t, EGL_TEXTURE_TARGET);
    assert AnswerQuery(s, EGL_POST_SUB_BUFFER_SUPPORTED_NV) == AnswerQuery(t, EGL_POST_SUB_BUFFER_SUPPORTED_NV);
    assert AnswerQuery(s, EGL_FIXED_SIZE_ANGLE) == AnswerQuery(t, EGL_FIXED_SIZE_ANGLE);
  }

  /** Which string eglQueryString hands back; the text itself (vendor,
      version and extension strings) is not part of this model. */
  datatype StringKind =
    | ClientApis            // "OpenGL_ES"
    | Extensions(dpy: Handle) // the client extensions when dpy is the null display
    | Vendor(dpy: Handle)
    | Version               // "1.4 (ANGLE ...)"

  /** Only the extension string may be asked of the null display; every other
      query goes through display validation first. */
  predicate QueryStringSkipsValidation(dpy: Handle, name: EglInt)
  {
    dpy == NoHandle && name == EGL_EXTENSIONS
  }

  /** The switch over `name` in eglQueryString, once validation has passed. */
  function SelectString(dpy: Handle, name: EglInt): (r: Result<StringKind>)
    ensures r.Err? <==> name !in {EGL_CLIENT_APIS, EGL_EXTENSIONS, EGL_VENDOR, EGL_VERSION}
    ensures r.Err? ==> r.error == BadParameter
    ensures name == EGL_CLIENT_APIS ==> r == Ok(ClientApis)
    ensures name == EGL_EXTENSIONS ==> r == Ok(Extensions(dpy))
    ensures name == EGL_VENDOR ==> r == Ok(Vendor(dpy))
    ensures name == EGL_VERSION ==> r == Ok(Version)
    ensures r.Ok? && (r.value.Extensions? || r.value.Vendor?) ==> r.value.dpy == dpy
  {
    if name == EGL_CLIENT_APIS then Ok(ClientApis)
    else if name == EGL_EXTENSIONS then Ok(Extensions(dpy))
    else if name == EGL_VENDOR then Ok(Vendor(dpy))
    else if name == EGL_VERSION then Ok(Version)
    else Err(BadParameter)
  }

  /** The selector of eglGetCurrentSurface: EGL_READ gives the read surface,
      EGL_DRAW the draw surface, anything else BAD_PARAMETER. */
  function SelectCurrentSurface(readdraw: EglInt, draw: Handle, read: Handle): (r: Result<Handle>)
    ensures readdraw == EGL_READ ==> r == Ok(read)
    ensures readdraw == EGL_DRAW ==> r == Ok(draw)
    ensures r.Err? <==> readdraw != EGL_READ && readdraw != EGL_DRAW
    ensures r.Err? ==> r.error == BadParameter
  {
    if readdraw == EGL_READ then Ok(read)
    else if readdraw == EGL_DRAW then Ok(draw)
    else Err(BadParameter)
  }
}
