/**
 * A call-stack frame: the variables of one activation, the slot its
 * `return` writes, the object a method runs on, and an 8-bit set of
 * flags (return pending, sub-frame, loop break/continue, inside a try,
 * inside an object).
 */
module StackFrame {
  import Values

  type FrameFlags = bv8

  const None: FrameFlags := 0
  const ReturnFlag: FrameFlags := 1
  const SubFrame: FrameFlags := 2
  const LoopBreak: FrameFlags := 4
  const LoopContinue: FrameFlags := 8
  const InTry: FrameFlags := 16
  const InObject: FrameFlags := 32

  /** The six named flags, each one bit. */
  predicate IsNamedFlag(f: FrameFlags) {
    f == ReturnFlag || f == SubFrame || f == LoopBreak ||
    f == LoopContinue || f == InTry || f == InObject
  }

  /** `flags | flag`. */
  function WithFlag(flags: FrameFlags, flag: FrameFlags): (r: FrameFlags)
    ensures r & flag == flag
    ensures r & flags == flags
  {
    flags | flag
  }

  /** `flags & ~flag`. */
  function WithoutFlag(flags: FrameFlags, flag: FrameFlags): (r: FrameFlags)
    ensures r & flag == 0
    ensures r | (flags & flag) == flags
  {
    flags & !flag
  }

  /** A flag counts as set when all of its bits are set: `(flags & flag) == flag`. */
  predicate HasFlag(flags: FrameFlags, flag: FrameFlags) {
    flags & flag == flag
  }

  /** After setting a flag it reports as set, and every named flag it is not keeps its answer. */
  lemma SetFlagEffect(flags: FrameFlags, flag: FrameFlags, other: FrameFlags)
    requires IsNamedFlag(flag) && IsNamedFlag(other) && other != flag
    ensures HasFlag(WithFlag(flags, flag), flag)
    ensures HasFlag(WithFlag(flags, flag), other) == HasFlag(flags, other)
  {
  }

  /** After clearing a one-bit flag it reports as unset, and every other named flag keeps its answer. */
  lemma ClearFlagEffect(flags: FrameFlags, flag: FrameFlags, other: FrameFlags)
    requires IsNamedFlag(flag) && IsNamedFlag(other) && other != flag
    ensures !HasFlag(WithoutFlag(flags, flag), flag)
    ensures HasFlag(WithoutFlag(flags, flag), other) == HasFlag(flags, other)
  {
  }

  /** Setting a flag twice is setting it once. */
  lemma SetFlagIdempotent(flags: FrameFlags, flag: FrameFlags)
    ensures WithFlag(WithFlag(flags, flag), flag) == WithFlag(flags, flag)
  {
  }

  /** The empty flag `None` is set in every flag word. */
  lemma NoneAlwaysSet(flags: FrameFlags)
    ensures HasFlag(flags, None)
  {
  }

  /** The named flags are distinct single bits: raising one from an empty word raises no other. */
  lemma NamedFlagsDistinct(flag: FrameFlags, other: FrameFlags)
    requires IsNamedFlag(flag) && IsNamedFlag(other)
    ensures HasFlag(WithFlag(None, flag), other) <==> other == flag
  {
  }

  class CallStackFrame {
    var variables: map<string, Values.Value>
    var returnValue: Values.Value
    var objectContext: Values.Option<Values.KObject>
    var flags: FrameFlags

    /** A fresh frame: no variables, no flags, no object context. */
    constructor ()
      ensures variables == map[] && returnValue == Values.DefaultValue
      ensures objectContext == Values.None && flags == None
    {
      variables := map[];
      returnValue := Values.DefaultValue;
      objectContext := Values.None;
      flags := None;
    }

    predicate IsFlagSet(flag: FrameFlags)
      reads this
    {
      HasFlag(flags, flag)
    }

    predicate InObjectContext()
      reads this
    {
      IsFlagSet(InObject)
    }

    predicate HasVariable(name: string)
      reads this
    {
      name in variables
    }

    method SetFlag(flag: FrameFlags)
      modifies this
      ensures flags == WithFlag(old(flags), flag)
      ensures IsFlagSet(flag)
      ensures variables == old(variables) && returnValue == old(returnValue)
      ensures objectContext == old(objectContext)
    {
      flags := flags | flag;
    }

    method ClearFlag(flag: FrameFlags)
      modifies this
      ensures flags == WithoutFlag(old(flags), flag)
      ensures IsNamedFlag(flag) ==> !IsFlagSet(flag)
      ensures variables == old(variables) && returnValue == old(returnValue)
      ensures objectContext == old(objectContext)
    {
      flags := flags & !flag;
    }

    /** Storing an object context also raises `InObject`. */
    method SetObjectContext(obj: Values.KObject)
      modifies this
      ensures objectContext == Values.Some(obj)
      ensures flags == WithFlag(old(flags), InObject)
      ensures InObjectContext()
      ensures variables == old(variables) && returnValue == old(returnValue)
    {
      objectContext := Values.Some(obj);
      SetFlag(InObject);
    }
  }
}
