/** The attribute decoder of eglCreateContext: the walk over the flat
    key/value list terminated by EGL_NONE (section 3.7.1 of the EGL 1.4
    specification, EGL_KHR_create_context and
    EGL_EXT_create_context_robustness), and the checks that follow the walk. */
module ContextAttributes {
  import opened EglTypes

  /** What the walk has collected: the locals of the decoding loop. */
  datatype Request = Request(
    major: EglInt,
    minor: EglInt,
    flags: EglInt,
    resetNotification: bool,
    robustAccess: bool)

  /** The values the locals start from: client version 1.0, no flags, no
      reset notification, no robust access. */
  const Defaults: Request := Request(1, 0, 0, false, false)

  /** An attribute list the walk can read: some key position (an even index)
      holds EGL_NONE. The source reads past the end of a list without one. */
  ghost predicate Terminated(a: seq<EglInt>)
  {
    exists k :: 0 <= k < |a| && k % 2 == 0 && a[k] == EGL_NONE
  }

  lemma TerminatedTail(a: seq<EglInt>)
    requires Terminated(a) && a[0] != EGL_NONE
    ensures |a| >= 2 && Terminated(a[2..])
  {
    var k :| 0 <= k < |a| && k % 2 == 0 && a[k] == EGL_NONE;
    assert a[2..][k - 2] == EGL_NONE;
  }

  predicate IsResetStrategyKey(key: EglInt)
  {
    key == EGL_CONTEXT_OPENGL_RESET_NOTIFICATION_STRATEGY_KHR
    || key == EGL_CONTEXT_OPENGL_RESET_NOTIFICATION_STRATEGY_EXT
  }

  /** A key/value pair the switch rejects with EGL_BAD_ATTRIBUTE, whatever
      came before it. */
  predicate BadPair(key: EglInt, value: EglInt)
  {
    if key == EGL_CONTEXT_CLIENT_VERSION || key == EGL_CONTEXT_MINOR_VERSION
       || key == EGL_CONTEXT_FLAGS_KHR then false
    else if key == EGL_CONTEXT_OPENGL_ROBUST_ACCESS_EXT then value != EGL_TRUE && value != EGL_FALSE
    else if IsResetStrategyKey(key) then
      value != EGL_LOSE_CONTEXT_ON_RESET_EXT && value != EGL_NO_RESET_NOTIFICATION_EXT
    else true  // the profile mask and every unknown key
  }

  /** One case of the switch over `attribute[0]`. */
  function Step(acc: Request, key: EglInt, value: EglInt): (r: Result<Request>)
    ensures r.Err? <==> BadPair(key, value)
    ensures r.Err? ==> r.error == BadAttribute
  {
    if key == EGL_CONTEXT_CLIENT_VERSION then Ok(acc.(major := value))
    else if key == EGL_CONTEXT_MINOR_VERSION then Ok(acc.(minor := value))
    else if key == EGL_CONTEXT_FLAGS_KHR then Ok(acc.(flags := value))
    else if key == EGL_CONTEXT_OPENGL_PROFILE_MASK_KHR then Err(BadAttribute)
    else if key == EGL_CONTEXT_OPENGL_ROBUST_ACCESS_EXT then
      if value != EGL_TRUE && value != EGL_FALSE then Err(BadAttribute)
      else Ok(acc.(robustAccess := value == EGL_TRUE))
    else if IsResetStrategyKey(key) then
      if value == EGL_LOSE_CONTEXT_ON_RESET_EXT then Ok(acc.(resetNotification := true))
      else if value != EGL_NO_RESET_NOTIFICATION_EXT then Err(BadAttribute)
      else Ok(acc)
    else Err(BadAttribute)
  }

  /** The whole loop: apply Step to each pair up to the terminator, stopping
      at the first failing pair. */
  function Walk(a: seq<EglInt>, acc: Request): (r: Result<Request>)
    requires Terminated(a)
    ensures r.Err? ==> r.error == BadAttribute
    decreases |a|
  {
    if a[0] == EGL_NONE then Ok(acc)
    else
      TerminatedTail(a);
      match Step(acc, a[0], a[1])
      case Err(e) => Err(e)
      case Ok(next) => Walk(a[2..], next)
  }

  /** The decoding loop of eglCreateContext as the source runs it: locals
      updated pair by pair, an early return on the first bad pair. */
  method DecodeAttributes(a: seq<EglInt>) returns (r: Result<Request>)
    requires Terminated(a)
    ensures r == Walk(a, Defaults)
  {
    var major: EglInt, minor: EglInt, flags: EglInt := 1, 0, 0;
    var resetNotification, robustAccess := false, false;
    var i := 0;
    while a[i] != EGL_NONE
      invariant 0 <= i < |a| && Terminated(a[i..])
      invariant Walk(a, Defaults)
                == Walk(a[i..], Request(major, minor, flags, resetNotification, robustAccess))
      decreases |a| - i
    {
      TerminatedTail(a[i..]);
      assert a[i..][2..] == a[i + 2..];
      var key, value := a[i], a[i + 1];
      if key == EGL_CONTEXT_CLIENT_VERSION {
        major := value;
      } else if key == EGL_CONTEXT_MINOR_VERSION {
        minor := value;
      } else if key == EGL_CONTEXT_FLAGS_KHR {
        flags := value;
      } else if key == EGL_CONTEXT_OPENGL_PROFILE_MASK_KHR {
        // only meaningful for desktop OpenGL contexts
        return Err(BadAttribute);
      } else if key == EGL_CONTEXT_OPENGL_ROBUST_ACCESS_EXT {
        if value != EGL_TRUE && value != EGL_FALSE {
          return Err(BadAttribute);
        }
        robustAccess := value == EGL_TRUE;
      } else if IsResetStrategyKey(key) {
        if value == EGL_LOSE_CONTEXT_ON_RESET_EXT {
          resetNotification := true;
        } else if value != EGL_NO_RESET_NOTIFICATION_EXT {
          return Err(BadAttribute);
        }
      } else {
        return Err(BadAttribute);
      }
      i := i + 2;
    }
    r := Ok(Request(major, minor, flags, resetNotification, robustAccess));
  }

  /** Some pair before the terminator is a bad one. */
  ghost predicate HasBadPair(a: seq<EglInt>)
    requires Terminated(a)
    decreases |a|
  {
    a[0] != EGL_NONE && (TerminatedTail(a); BadPair(a[0], a[1]) || HasBadPair(a[2..]))
  }

  /** The walk fails exactly when some pair is bad, independently of the
      values collected so far, and then always with EGL_BAD_ATTRIBUTE. */
  lemma {:induction false} WalkFailsIffBadPair(a: seq<EglInt>, acc: Request)
    requires Terminated(a)
    ensures Walk(a, acc).Err? <==> HasBadPair(a)
    ensures Walk(a, acc).Err? ==> Walk(a, acc).error == BadAttribute
    decreases |a|
  {
    if a[0] != EGL_NONE {
      TerminatedTail(a);
      var s := Step(acc, a[0], a[1]);
      if s.Ok? {
        WalkFailsIffBadPair(a[2..], s.value);
      }
    }
  }

  /** The value of the last pair with key `key`, or `dflt` if there is none. */
  ghost function LastValue(a: seq<EglInt>, key: EglInt, dflt: EglInt): EglInt
    requires Terminated(a)
    decreases |a|
  {
    if a[0] == EGL_NONE then dflt
    else TerminatedTail(a); LastValue(a[2..], key, if a[0] == key then a[1] else dflt)
  }

  /** Some pair is a reset-strategy key with value LOSE_CONTEXT_ON_RESET. */
  ghost predicate AsksLoseOnReset(a: seq<EglInt>)
    requires Terminated(a)
    decreases |a|
  {
    a[0] != EGL_NONE
    && (TerminatedTail(a);
        (IsResetStrategyKey(a[0]) && a[1] == EGL_LOSE_CONTEXT_ON_RESET_EXT) || AsksLoseOnReset(a[2..]))
  }

  function BoolAttr(b: bool): EglInt
  {
    if b then EGL_TRUE else EGL_FALSE
  }

  /** Repeated keys: for the client version, the minor version, the flags and
      robust access the last pair wins; the reset-notification request is
      sticky, because EGL_NO_RESET_NOTIFICATION leaves an earlier
      EGL_LOSE_CONTEXT_ON_RESET in force. */
  lemma {:induction false} WalkCollects(a: seq<EglInt>, acc: Request)
    requires Terminated(a) && Walk(a, acc).Ok?
    ensures Walk(a, acc).value.major == LastValue(a, EGL_CONTEXT_CLIENT_VERSION, acc.major)
    ensures Walk(a, acc).value.minor == LastValue(a, EGL_CONTEXT_MINOR_VERSION, acc.minor)
    ensures Walk(a, acc).value.flags == LastValue(a, EGL_CONTEXT_FLAGS_KHR, acc.flags)
    ensures Walk(a, acc).value.robustAccess
            == (LastValue(a, EGL_CONTEXT_OPENGL_ROBUST_ACCESS_EXT, BoolAttr(acc.robustAccess)) == EGL_TRUE)
    ensures Walk(a, acc).value.resetNotification == (acc.resetNotification || AsksLoseOnReset(a))
    decreases |a|
  {
    if a[0] != EGL_NONE {
      TerminatedTail(a);
      var next := Step(acc, a[0], a[1]).value;
      WalkCollects(a[2..], next);
      if a[0] == EGL_CONTEXT_OPENGL_ROBUST_ACCESS_EXT {
        assert BoolAttr(next.robustAccess) == a[1];
      }
    }
  }

  /** The reset-notification request cannot be withdrawn by a later pair. */
  lemma ResetStrategyIsSticky()
    ensures
      var a := [EGL_CONTEXT_OPENGL_RESET_NOTIFICATION_STRATEGY_KHR, EGL_LOSE_CONTEXT_ON_RESET_EXT,
                EGL_CONTEXT_OPENGL_RESET_NOTIFICATION_STRATEGY_EXT, EGL_NO_RESET_NOTIFICATION_EXT,
                EGL_NONE];
      Terminated(a) && Walk(a, Defaults) == Ok(Defaults.(resetNotification := true))
  {
    var a := [EGL_CONTEXT_OPENGL_RESET_NOTIFICATION_STRATEGY_KHR, EGL_LOSE_CONTEXT_ON_RESET_EXT,
              EGL_CONTEXT_OPENGL_RESET_NOTIFICATION_STRATEGY_EXT, EGL_NO_RESET_NOTIFICATION_EXT,
              EGL_NONE];
    var lose := Defaults.(resetNotification := true);
    assert a[4] == EGL_NONE;
    assert a[2..][2..] == [EGL_NONE];
    assert Walk([EGL_NONE], lose) == Ok(lose);
    assert Walk(a[2..], lose) == Ok(lose);
  }

  /** Whether the flags value, masked with the complement of DEBUG and
      ROBUST_ACCESS, is non-zero: exactly the values other than the four
      combinations of those two bits. */
  predicate HasInvalidFlagBits(flags: EglInt): (b: bool)
    ensures b <==> !(flags in {0, 1, 4, 5})
  {
    FlagsWithinDebugRobust(flags);
    And(Unsigned(flags), Not32(EGL_CONTEXT_OPENGL_DEBUG_BIT_KHR + EGL_CONTEXT_OPENGL_ROBUST_ACCESS_BIT_KHR)) != 0
  }

  /** Whether the flags value, masked with ROBUST_ACCESS, is positive:
      exactly when bit 2 of its 32-bit representation is set. */
  predicate HasRobustFlag(flags: EglInt): (b: bool)
    ensures b <==> Unsigned(flags) / 4 % 2 == 1
  {
    AndRobustBit(Unsigned(flags));
    And(Unsigned(flags), EGL_CONTEXT_OPENGL_ROBUST_ACCESS_BIT_KHR) > 0
  }

  /** The checks after the loop, in the order the source makes them: the
      version, then the flag bits, then robust access, which this
      implementation does not support. */
  function CheckRequest(r: Request): (c: Result<Request>)
    ensures c.Ok? ==> c.value == r
    ensures c.Err? ==> c.error == BadConfig || c.error == BadAttribute
  {
    if (r.major != 2 && r.major != 3) || r.minor != 0 then Err(BadConfig)
    else if HasInvalidFlagBits(r.flags) then Err(BadAttribute)
    else if r.robustAccess || HasRobustFlag(r.flags) then Err(BadConfig)
    else Ok(r)
  }

  /** What the post-loop checks accept, stated without the bit arithmetic:
      client version 2.0 or 3.0, flags 0 or DEBUG, no robust access. */
  lemma CheckRequestAccepts(r: Request)
    ensures CheckRequest(r).Ok? <==>
            (r.major == 2 || r.major == 3) && r.minor == 0
            && (r.flags == 0 || r.flags == 1) && !r.robustAccess
    ensures CheckRequest(r).Ok? ==> CheckRequest(r).value == r
  {
    FlagsWithinDebugRobust(r.flags);
    AndRobustBit(Unsigned(r.flags));
  }

  /** Which error each failed check reports: BAD_CONFIG for a version other
      than 2.0 or 3.0 (the default 1 included) before anything about the
      flags; then BAD_ATTRIBUTE for a flag bit other than DEBUG and
      ROBUST_ACCESS; then BAD_CONFIG for a robust-access request made by the
      attribute or by the flag bit. */
  lemma CheckRequestErrors(r: Request)
    ensures (r.major != 2 && r.major != 3) || r.minor != 0 ==> CheckRequest(r) == Err(BadConfig)
    ensures (r.major == 2 || r.major == 3) && r.minor == 0 && !(r.flags in {0, 1, 4, 5})
            ==> CheckRequest(r) == Err(BadAttribute)
    ensures (r.major == 2 || r.major == 3) && r.minor == 0 && r.flags in {0, 1, 4, 5}
            && (r.robustAccess || r.flags in {4, 5})
            ==> CheckRequest(r) == Err(BadConfig)
  {
    FlagsWithinDebugRobust(r.flags);
    AndRobustBit(Unsigned(r.flags));
  }

  /** The decoding half of eglCreateContext: the walk over the list (a null
      list keeps the defaults), then the post-loop checks. */
  function DecodeRequest(attribs: Option<seq<EglInt>>): (r: Result<Request>)
    requires attribs.Some? ==> Terminated(attribs.value)
    ensures r.Err? ==> r.error == BadAttribute || r.error == BadConfig
    ensures r.Ok? ==> CheckRequest(r.value) == r
    ensures attribs.Some? && Walk(attribs.value, Defaults).Err? ==> r == Err(BadAttribute)
  {
    var walked := if attribs.None? then Ok(Defaults) else Walk(attribs.value, Defaults);
    if walked.Err? then walked else CheckRequest(walked.value)
  }

  /** A null list, and an empty one, ask for client version 1, which is
      refused with BAD_CONFIG. */
  lemma DefaultVersionRefused()
    ensures DecodeRequest(None) == Err(BadConfig)
    ensures Terminated([EGL_NONE]) && DecodeRequest(Some([EGL_NONE])) == Err(BadConfig)
  {
    assert [EGL_NONE][0] == EGL_NONE;
  }

  /** A decoded request is always for client version 2.0 or 3.0 without
      robust access, and a bad pair anywhere in the list is reported as
      BAD_ATTRIBUTE before any version check. */
  lemma DecodeRequestOutcome(attribs: Option<seq<EglInt>>)
    requires attribs.Some? ==> Terminated(attribs.value)
    ensures DecodeRequest(attribs).Ok? ==>
              var r := DecodeRequest(attribs).value;
              (r.major == 2 || r.major == 3) && r.minor == 0 && !r.robustAccess
    ensures attribs.Some? && HasBadPair(attribs.value) ==> DecodeRequest(attribs) == Err(BadAttribute)
  {
    if attribs.Some? {
      WalkFailsIffBadPair(attribs.value, Defaults);
      var w := Walk(attribs.value, Defaults);
      if w.Ok? {
        CheckRequestAccepts(w.value);
      }
    } else {
      CheckRequestAccepts(Defaults);
    }
  }
}
