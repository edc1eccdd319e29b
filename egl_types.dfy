/** Values shared by every part of the EGL front end: the 32-bit EGLint, opaque
    handles, the error codes of section 3.1 of the EGL 1.4 specification, and
    the enumerant values of the Khronos headers egl.h and eglext.h that the
    entry points compare against. */
module EglTypes {

  /** EGLint: a signed 32-bit integer. */
  newtype EglInt = x: int | -0x8000_0000 <= x < 0x8000_0000

  /** An opaque display, config, context or surface handle. The source passes
      raw pointers; here every object gets a distinct natural number and 0 is
      the null handle (EGL_NO_DISPLAY, EGL_NO_CONTEXT, EGL_NO_SURFACE). */
  type Handle = nat

  const NoHandle: Handle := 0

  datatype Option<T> = None | Some(value: T)

  /** The error codes an entry point can leave in the error register. */
  datatype ErrorCode =
    | Success
    | NotInitialized
    | BadAccess
    | BadAlloc
    | BadAttribute
    | BadConfig
    | BadContext
    | BadCurrentSurface
    | BadDisplay
    | BadMatch
    | BadNativePixmap
    | BadNativeWindow
    | BadParameter
    | BadSurface
    | ContextLost

  /** An error a backend call can report: anything but success
      (an `egl::Error` whose `isError()` holds). */
  type FailureCode = e: ErrorCode | e != Success witness BadAlloc

  datatype Result<T> = Ok(value: T) | Err(error: ErrorCode)

  /** The EGLint that eglGetError hands back for each code. */
  function Code(e: ErrorCode): (c: EglInt)
    ensures 0x3000 <= c <= 0x300E
    ensures c == 0x3000 <==> e == Success
  {
    match e
    case Success => 0x3000
    case NotInitialized => 0x3001
    case BadAccess => 0x3002
    case BadAlloc => 0x3003
    case BadAttribute => 0x3004
    case BadConfig => 0x3005
    case BadContext => 0x3006
    case BadCurrentSurface => 0x3007
    case BadDisplay => 0x3008
    case BadMatch => 0x3009
    case BadNativePixmap => 0x300A
    case BadNativeWindow => 0x300B
    case BadParameter => 0x300C
    case BadSurface => 0x300D
    case ContextLost => 0x300E
  }

  /** Distinct error codes are reported as distinct EGLint values. */
  lemma {:induction false} CodeInjective(e1: ErrorCode, e2: ErrorCode)
    ensures Code(e1) == Code(e2) <==> e1 == e2
  {
    match e1
    case Success =>
    case NotInitialized =>
    case BadAccess =>
    case BadAlloc =>
    case BadAttribute =>
    case BadConfig =>
    case BadContext =>
    case BadCurrentSurface =>
    case BadDisplay =>
    case BadMatch =>
    case BadNativePixmap =>
    case BadNativeWindow =>
    case BadParameter =>
    case BadSurface =>
    case ContextLost =>
  }

  // Booleans and the list terminator.
  const EGL_FALSE: EglInt := 0
  const EGL_TRUE: EglInt := 1
  const EGL_NONE: EglInt := 0x3038

  // Context-creation attribute keys (EGL 1.4, EGL_KHR_create_context,
  // EGL_EXT_create_context_robustness).
  const EGL_CONTEXT_CLIENT_VERSION: EglInt := 0x3098
  const EGL_CONTEXT_MINOR_VERSION: EglInt := 0x30FB
  const EGL_CONTEXT_FLAGS_KHR: EglInt := 0x30FC
  const EGL_CONTEXT_OPENGL_PROFILE_MASK_KHR: EglInt := 0x30FD
  const EGL_CONTEXT_OPENGL_ROBUST_ACCESS_EXT: EglInt := 0x30BF
  const EGL_CONTEXT_OPENGL_RESET_NOTIFICATION_STRATEGY_KHR: EglInt := 0x31BD
  const EGL_CONTEXT_OPENGL_RESET_NOTIFICATION_STRATEGY_EXT: EglInt := 0x3138

  // Values of the reset-notification-strategy attribute (the KHR and EXT
  // spellings share these values).
  const EGL_NO_RESET_NOTIFICATION_EXT: EglInt := 0x31BE
  const EGL_LOSE_CONTEXT_ON_RESET_EXT: EglInt := 0x31BF

  // Bits of EGL_CONTEXT_FLAGS_KHR.
  const EGL_CONTEXT_OPENGL_DEBUG_BIT_KHR: nat := 0x1
  const EGL_CONTEXT_OPENGL_FORWARD_COMPATIBLE_BIT_KHR: nat := 0x2
  const EGL_CONTEXT_OPENGL_ROBUST_ACCESS_BIT_KHR: nat := 0x4

  // Surface-texture binding.
  const EGL_BACK_BUFFER: EglInt := 0x3084
  const EGL_NO_TEXTURE: EglInt := 0x305C

  // eglGetCurrentSurface selectors.
  const EGL_DRAW: EglInt := 0x3059
  const EGL_READ: EglInt := 0x305A

  // Client APIs.
  const EGL_OPENGL_ES_API: EglInt := 0x30A0
  const EGL_OPENVG_API: EglInt := 0x30A1
  const EGL_OPENGL_API: EglInt := 0x30A2

  // eglQueryString names.
  const EGL_VENDOR: EglInt := 0x3053
  const EGL_VERSION: EglInt := 0x3054
  const EGL_EXTENSIONS: EglInt := 0x3055
  const EGL_CLIENT_APIS: EglInt := 0x308D

  // eglQuerySurface attributes.
  const EGL_CONFIG_ID: EglInt := 0x3028
  const EGL_HEIGHT: EglInt := 0x3056
  const EGL_WIDTH: EglInt := 0x3057
  const EGL_LARGEST_PBUFFER: EglInt := 0x3058
  const EGL_TEXTURE_FORMAT: EglInt := 0x3080
  const EGL_TEXTURE_TARGET: EglInt := 0x3081
  const EGL_MIPMAP_TEXTURE: EglInt := 0x3082
  const EGL_MIPMAP_LEVEL: EglInt := 0x3083
  const EGL_RENDER_BUFFER: EglInt := 0x3086
  const EGL_VG_COLORSPACE: EglInt := 0x3087
  const EGL_VG_ALPHA_FORMAT: EglInt := 0x3088
  const EGL_HORIZONTAL_RESOLUTION: EglInt := 0x3090
  const EGL_VERTICAL_RESOLUTION: EglInt := 0x3091
  const EGL_PIXEL_ASPECT_RATIO: EglInt := 0x3092
  const EGL_SWAP_BEHAVIOR: EglInt := 0x3093
  const EGL_MULTISAMPLE_RESOLVE: EglInt := 0x3099
  const EGL_POST_SUB_BUFFER_SUPPORTED_NV: EglInt := 0x30BE
  const EGL_FIXED_SIZE_ANGLE: EglInt := 0x3201

  // eglCreatePbufferFromClientBuffer buffer type (EGL_ANGLE_d3d_share_handle_client_buffer).
  const EGL_D3D_TEXTURE_2D_SHARE_HANDLE_ANGLE: EglInt := 0x3200

  /** The EGLint read as the unsigned value of its 32-bit two's-complement
      representation, which is what the C bitwise operators act on. */
  function Unsigned(v: EglInt): (u: nat)
    ensures u < 0x1_0000_0000
    ensures u % 0x1_0000_0000 == (v as int) % 0x1_0000_0000
  {
    if v < 0 then v as int + 0x1_0000_0000 else v as int
  }

  function Pow2(k: nat): (p: nat)
    ensures p >= 1
  {
    if k == 0 then 1 else 2 * Pow2(k - 1)
  }

  lemma {:induction false} Pow2Add(a: nat, b: nat)
    ensures Pow2(a + b) == Pow2(a) * Pow2(b)
  {
    if a > 0 {
      Pow2Add(a - 1, b);
    }
  }

  /** Bitwise AND of two unsigned values, bit by bit from the lowest. */
  function And(a: nat, b: nat): nat
    decreases a
  {
    if a == 0 || b == 0 then 0 else a % 2 * (b % 2) + 2 * And(a / 2, b / 2)
  }

  /** Bitwise NOT of a 32-bit unsigned value. */
  function Not32(b: nat): (r: nat)
    requires b < 0x1_0000_0000
    ensures r < 0x1_0000_0000
    ensures b + r == 0xFFFF_FFFF
  {
    0xFFFF_FFFF - b
  }

  /** AND with k one-bits keeps every value below 2^k as it is. */
  lemma {:induction false} AndLowOnes(x: nat, k: nat)
    requires x < Pow2(k)
    ensures And(x, Pow2(k) - 1) == x
  {
    if k > 0 && x > 0 {
      assert (Pow2(k) - 1) % 2 == 1;
      assert (Pow2(k) - 1) / 2 == Pow2(k - 1) - 1;
      AndLowOnes(x / 2, k - 1);
    }
  }

  lemma Pow2Of29()
    ensures Pow2(29) == 0x2000_0000
  {
    assert Pow2(4) == 0x10;
    Pow2Add(4, 4);
    Pow2Add(8, 8);
    Pow2Add(16, 8);
    Pow2Add(24, 4);
    Pow2Add(28, 1);
  }

  /** Clearing the debug and robust-access bits (`v & ~0x5`) leaves bit 1 and
      the bits from 3 on. */
  lemma {:induction false} AndNotDebugRobust(u: nat)
    requires u < 0x1_0000_0000
    ensures And(u, Not32(0x5)) == 2 * (u / 2 % 2) + 8 * (u / 2 / 2 / 2)
  {
    var a := u / 2;
    var b := a / 2;
    var c := b / 2;
    assert c < Pow2(29) by { Pow2Of29(); }
    AndLowOnes(c, 29);
    Pow2Of29();
    assert And(b, 0x3FFF_FFFE) == 2 * c by {
      if b > 0 {
        assert And(b, 0x3FFF_FFFE) == 2 * And(c, 0x1FFF_FFFF);
      }
    }
    assert And(a, 0x7FFF_FFFD) == a % 2 + 4 * c by {
      if a > 0 {
        assert And(a, 0x7FFF_FFFD) == a % 2 + 2 * And(b, 0x3FFF_FFFE);
      }
    }
    if u > 0 {
      assert And(u, 0xFFFF_FFFA) == 2 * And(a, 0x7FFF_FFFD);
    }
  }

  /** An EGLint has no bit outside DEBUG|ROBUST_ACCESS set exactly when it is
      one of the four combinations of those two bits. */
  lemma FlagsWithinDebugRobust(v: EglInt)
    ensures And(Unsigned(v), Not32(0x5)) == 0 <==> v == 0 || v == 1 || v == 4 || v == 5
  {
    AndNotDebugRobust(Unsigned(v));
  }

  /** Testing the robust-access bit (`v & 0x4`) reads bit 2. */
  lemma {:induction false} AndRobustBit(u: nat)
    ensures And(u, 0x4) == 4 * (u / 4 % 2)
  {
    if u > 0 {
      assert And(u, 4) == 2 * And(u / 2, 2);
      if u / 2 > 0 {
        assert And(u / 2, 2) == 2 * And(u / 4, 1);
        if u / 4 > 0 {
          assert And(u / 4, 1) == u / 4 % 2 + 2 * And(u / 8, 0);
        }
      }
    }
  }
}
