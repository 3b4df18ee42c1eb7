/**
 * The evaluator's rules that do not depend on the heap: registered
 * functions and classes, the library operations it calls but does not
 * define, callable resolution, parameter binding, range construction,
 * list and hash index checks, method dispatch, frame-flag inheritance and
 * the unwinding of a call stack when a call fails.
 */
module EvalRules {
  import opened KiwiErrors
  import opened Values
  import opened Ast
  import StackFrame
  import InterpHelper

  /** A declared function, method or lambda: defaults are evaluated when it is declared. */
  datatype KFunction = KFunction(name: string, parameters: seq<(string, Value)>, defaultParameters: set<string>,
                                 body: seq<Node>, isPrivate: bool, isStatic: bool)

  /** A declared class. A method entry can be empty: looking a method up by subscript inserts one. */
  datatype KClass = KClass(name: string, baseClass: string, methods: map<string, Option<KFunction>>)

  /**
   * The arithmetic, truthiness, conversion and builtin library the
   * evaluator calls. Its code is not part of this model, so it is a
   * parameter; its results are container-free values.
   */
  datatype Externals = Externals(
    isTruthy: Value -> bool,
    binaryOp: (Op, Value, Value) -> Result<Scalar>,
    unaryOp: (string, Value) -> Result<Scalar>,
    bitwiseNot: Value -> Result<Scalar>,
    equals: (Value, Value) -> bool,
    integerOf: Value -> Option<int>,
    stringOf: Value -> Option<string>,
    isBuiltin: string -> bool,
    callBuiltin: (string, seq<Value>) -> Result<Scalar>,
    isMethodBuiltin: string -> bool,
    callMethodBuiltin: (string, Value, seq<Value>) -> Result<Scalar>,
    stringSlice: (string, InterpHelper.SliceIndex) -> Result<Scalar>)

  /** Reserved names. */
  const Ctor: string := "initialize"
  const New: string := "new"
  const Global: string := "global"

  /** An integer operand: an integer as is, anything else through the library's conversion. */
  function GetInteger(ext: Externals, v: Value): (r: Result<int>)
    ensures v.Int? ==> r == Ok(v.i)
  {
    if v.Int? then Ok(v.i)
    else match ext.integerOf(v)
      case Some(i) => Ok(i)
      case None => Err(Raise(ConversionError, "Expected an integer value."))
  }

  /** A string operand: a string as is, anything else through the library's conversion. */
  function GetString(ext: Externals, v: Value): (r: Result<string>)
    ensures v.Str? ==> r == Ok(v.s)
  {
    if v.Str? then Ok(v.s)
    else match ext.stringOf(v)
      case Some(s) => Ok(s)
      case None => Err(Raise(ConversionError, "Expected a string value."))
  }

  // ---------------------------------------------------------------------
  // Callable resolution
  // ---------------------------------------------------------------------

  datatype CallableType = FunctionCallable | LambdaCallable | BuiltinCallable | MethodCallable

  /**
   * What a call by name refers to. `context` is None outside an object;
   * inside one it is the method names of the object's class, or None when
   * that class is not registered (the lookup then dereferences nothing).
   */
  function ResolveCallable(name: string, functions: set<string>, lambdas: set<string>, isBuiltin: bool,
                           lambdaTable: set<string>, context: Option<Option<set<string>>>): (r: Result<CallableType>)
    ensures r == Ok(FunctionCallable) <==> name in functions
    ensures r == Ok(LambdaCallable) <==>
              name !in functions && (name in lambdas || (!isBuiltin && name in lambdaTable))
    ensures r == Ok(BuiltinCallable) <==> name !in functions && name !in lambdas && isBuiltin
    ensures r == Ok(MethodCallable) <==>
              name !in functions && name !in lambdas && !isBuiltin && name !in lambdaTable &&
              context.Some? && context.value.Some? && name in context.value.value
    ensures r.Err? && r.failure.Thrown? <==>
              name !in functions && name !in lambdas && !isBuiltin && name !in lambdaTable &&
              (context.None? || (context.value.Some? && name !in context.value.value))
    ensures r.Err? && r.failure.Thrown? ==> r.failure.error.kind == FunctionUndefinedError
  {
    if name in functions then Ok(FunctionCallable)
    else if name in lambdas then Ok(LambdaCallable)
    else if isBuiltin then Ok(BuiltinCallable)
    else if name in lambdaTable then Ok(LambdaCallable)
    else match context
      case None => Err(Raise(FunctionUndefinedError, name))
      case Some(None) => Err(Fatal(NullDereference))
      case Some(Some(methods)) =>
        if name in methods then Ok(MethodCallable) else Err(Raise(FunctionUndefinedError, name))
  }

  /** A declared function shadows every other kind of callable of the same name. */
  lemma FunctionsShadowEverything(name: string, functions: set<string>, lambdas: set<string>, isBuiltin: bool,
                                  lambdaTable: set<string>, context: Option<Option<set<string>>>)
    requires name in functions
    ensures forall ls, b, lt, c :: ResolveCallable(name, functions, ls, b, lt, c) == Ok(FunctionCallable)
  {
  }

  /** A builtin name wins over a lambdaTable alias, but a registered lambda wins over the builtin. */
  lemma BuiltinBeforeAlias(name: string, functions: set<string>, lambdas: set<string>,
                           lambdaTable: set<string>, context: Option<Option<set<string>>>)
    requires name !in functions
    ensures name !in lambdas && name in lambdaTable ==>
              ResolveCallable(name, functions, lambdas, true, lambdaTable, context) == Ok(BuiltinCallable)
    ensures name in lambdas ==>
              ResolveCallable(name, functions, lambdas, true, lambdaTable, context) == Ok(LambdaCallable)
  {
  }

  // ---------------------------------------------------------------------
  // Parameter binding
  // ---------------------------------------------------------------------

  /**
   * The values the parameters take, given the arguments evaluated so far
   * (one per parameter that has an argument): parameter i takes argument i
   * if there is one, else its declared default, else the call fails.
   */
  function BoundValues(params: seq<(string, Value)>, defaults: set<string>, argValues: seq<Value>, name: string)
    : (r: Result<seq<Value>>)
    requires |argValues| <= |params|
    ensures r.Ok? <==> forall i :: |argValues| <= i < |params| ==> params[i].0 in defaults
    ensures r.Ok? ==> |r.value| == |params|
    ensures r.Ok? ==>
      forall i :: 0 <= i < |params| ==> r.value[i] == if i < |argValues| then argValues[i] else params[i].1
    ensures r.Err? ==> r == Err(Raise(ParameterCountMismatchError, name))
    decreases |params|
  {
    if |params| == 0 then Ok([])
    else
      var last := |params| - 1;
      var v :=
        if last < |argValues| then Ok(argValues[last])
        else if params[last].0 in defaults then Ok(params[last].1)
        else Err(Raise(ParameterCountMismatchError, name));
      var front := BoundValues(params[..last], defaults, if last < |argValues| then argValues[..last] else argValues, name);
      if front.Err? then front
      else if v.Err? then Err(v.failure)
      else Ok(front.value + [v.value])
  }

  /** When every parameter has an argument, the defaults play no part: the arguments are bound as given. */
  lemma AllArgumentsSupplied(params: seq<(string, Value)>, defaults: set<string>, argValues: seq<Value>, name: string)
    requires |argValues| == |params|
    ensures BoundValues(params, defaults, argValues, name) == Ok(argValues)
  {
    var r := BoundValues(params, defaults, argValues, name);
    assert r.Ok?;
    assert |r.value| == |argValues|;
    assert forall i :: 0 <= i < |argValues| ==> r.value[i] == argValues[i];
    assert r.value == argValues;
  }

  /**
   * The frame variables after binding: each bound value is stored under
   * its parameter name, except a lambda, which is recorded as an alias
   * instead (see `LambdaAliases`).
   */
  function BindInto(vars: map<string, Value>, params: seq<(string, Value)>, vals: seq<Value>): (r: map<string, Value>)
    requires |vals| == |params|
    ensures forall k :: k in vars ==> k in r
    ensures forall k :: k in r && k !in vars ==> exists i :: 0 <= i < |params| && params[i].0 == k
    decreases |params|
  {
    if |params| == 0 then vars
    else
      var last := |params| - 1;
      var front := BindInto(vars, params[..last], vals[..last]);
      if vals[last].LambdaV? then front else front[params[last].0 := vals[last]]
  }

  /** A parameter whose name no later parameter repeats holds its bound value, unless that value is a lambda. */
  lemma {:induction false} BindIntoLookup(vars: map<string, Value>, params: seq<(string, Value)>, vals: seq<Value>, i: int)
    requires |vals| == |params| && 0 <= i < |params| && !vals[i].LambdaV?
    requires forall j :: i < j < |params| ==> params[j].0 != params[i].0
    ensures params[i].0 in BindInto(vars, params, vals)
    ensures BindInto(vars, params, vals)[params[i].0] == vals[i]
    decreases |params|
  {
    var last := |params| - 1;
    var front := BindInto(vars, params[..last], vals[..last]);
    assert BindInto(vars, params, vals) == if vals[last].LambdaV? then front else front[params[last].0 := vals[last]];
    if i < last {
      BindIntoLookup(vars, params[..last], vals[..last], i);
      assert params[last].0 != params[i].0;
    }
  }

  /** The lambdaTable entries a call adds: each lambda-valued parameter aliases the lambda's id. */
  function LambdaAliases(table: map<string, string>, params: seq<(string, Value)>, vals: seq<Value>): (r: map<string, string>)
    requires |vals| == |params|
    ensures forall k :: k in table ==> k in r
    decreases |params|
  {
    if |params| == 0 then table
    else
      var last := |params| - 1;
      var front := LambdaAliases(table, params[..last], vals[..last]);
      if vals[last].LambdaV? then front[params[last].0 := vals[last].lambdaId] else front
  }

  // ---------------------------------------------------------------------
  // Range literal
  // ---------------------------------------------------------------------

  function Abs(x: int): nat {
    if x < 0 then -x else x
  }

  /** `a..b`: the integers from a to b inclusive, counting up or down by one. */
  function RangeValues(start: int, stop: int): (r: seq<Value>)
    ensures |r| == Abs(stop - start) + 1
    ensures forall k :: 0 <= k < |r| ==> r[k] == Int(if stop < start then start - k else start + k)
    decreases Abs(stop - start)
  {
    if start == stop then [Int(stop)]
    else [Int(start)] + RangeValues(if stop < start then start - 1 else start + 1, stop)
  }

  /** The range loop: append and step until the stop value is reached, then append the stop value. */
  method BuildRange(start: int, stop: int) returns (elements: seq<Value>)
    ensures elements == RangeValues(start, stop)
  {
    var step := if stop < start then -1 else 1;
    elements := [];
    var i := start;
    while i != stop
      invariant if step == 1 then start <= i <= stop else stop <= i <= start
      invariant elements + RangeValues(i, stop) == RangeValues(start, stop)
      decreases Abs(stop - i)
    {
      elements := elements + [Int(i)];
      i := i + step;
    }
    elements := elements + [Int(stop)];
  }

  /** A range whose bounds are not both integers is a RangeError. */
  function RangeLiteral(startValue: Value, stopValue: Value): (r: Result<seq<Value>>)
    ensures r.Ok? <==> startValue.Int? && stopValue.Int?
    ensures r.Ok? ==> r.value == RangeValues(startValue.i, stopValue.i)
    ensures r.Err? ==> r == Err(Raise(RangeError, "Range value must be an integer."))
  {
    if !startValue.Int? || !stopValue.Int? then Err(Raise(RangeError, "Range value must be an integer."))
    else Ok(RangeValues(startValue.i, stopValue.i))
  }

  // ---------------------------------------------------------------------
  // Index reads and writes of the evaluator
  // ---------------------------------------------------------------------

  /** `x[i]` on a list: a negative index is rejected, not counted from the end. */
  function ListIndexRead(elements: seq<Value>, index: int): (r: Result<Value>)
    ensures r.Ok? <==> 0 <= index < |elements|
    ensures r.Ok? ==> r.value == elements[index]
    ensures r.Err? ==> r == Err(Raise(RangeError, "The index was outside the bounds of the list."))
  {
    if index < 0 || index >= |elements| then Err(Raise(RangeError, "The index was outside the bounds of the list."))
    else Ok(elements[index])
  }

  /**
   * `x[i] op= v` on a list: an index outside the list is an IndexError;
   * otherwise only slot i changes, to v for a plain assignment or to the
   * operator applied to the old element and v.
   */
  function ListIndexWrite(ext: Externals, elements: seq<Value>, index: int, op: Op, newValue: Value)
    : (r: Result<seq<Value>>)
    ensures r.Ok? ==> 0 <= index < |elements| && |r.value| == |elements|
    ensures r.Ok? ==> forall j :: 0 <= j < |elements| && j != index ==> r.value[j] == elements[j]
    ensures (index < 0 || index >= |elements|) ==>
              r == Err(Raise(IndexError, "The index was outside the bounds of the list."))
    ensures 0 <= index < |elements| && op == Assign ==> r == Ok(elements[index := newValue])
  {
    if index < 0 || index >= |elements| then Err(Raise(IndexError, "The index was outside the bounds of the list."))
    else if op == Assign then Ok(elements[index := newValue])
    else match ext.binaryOp(op, elements[index], newValue)
      case Ok(s) => Ok(elements[index := FromScalar(s)])
      case Err(f) => Err(f)
  }

  /** The evaluator's `x[i]` and the slice helper's single index disagree on negative indices. */
  lemma NegativeIndexOnlyHelperWraps(elements: seq<Value>, index: int)
    requires |elements| < InterpHelper.TwoTo31 && -|elements| <= index < 0
    ensures ListIndexRead(elements, index).Err?
    ensures InterpHelper.IndexRead(elements, Int(index)) == Ok(elements[index + |elements|])
  {
  }

  /** `h[k]` on a hash: a missing key is a HashKeyError naming the key. */
  function HashIndexRead(kvp: map<string, Value>, key: string): (r: Result<Value>)
    ensures r.Ok? <==> key in kvp
    ensures r.Ok? ==> r.value == kvp[key]
    ensures r.Err? ==> r == Err(Raise(HashKeyError, key))
  {
    if key in kvp then Ok(kvp[key]) else Err(Raise(HashKeyError, key))
  }

  // ---------------------------------------------------------------------
  // Method dispatch on objects
  // ---------------------------------------------------------------------

  datatype Dispatch = OwnMethod(fn: Option<KFunction>) | BaseMethod(baseClass: string)

  /**
   * Where a method call on an object of class `className` goes: its own
   * class if the method is registered there, else (one level only) the
   * base class. No base is an UnimplementedMethodError, an unregistered
   * base a ClassUndefinedError; an unregistered own class is a null
   * dereference.
   */
  function ResolveObjectMethod(classes: map<string, KClass>, className: string, methodName: string): (r: Result<Dispatch>)
    ensures r.Ok? && r.value.OwnMethod? <==> className in classes && methodName in classes[className].methods
    ensures r.Ok? && r.value.OwnMethod? ==> r.value.fn == classes[className].methods[methodName]
    ensures r.Ok? && r.value.BaseMethod? <==>
              className in classes && methodName !in classes[className].methods &&
              classes[className].baseClass != "" && classes[className].baseClass in classes
    ensures r.Ok? && r.value.BaseMethod? ==> r.value.baseClass == classes[className].baseClass
    ensures r.Err? && r.failure.Thrown? && r.failure.error.kind == UnimplementedMethodError <==>
              className in classes && methodName !in classes[className].methods && classes[className].baseClass == ""
    ensures r.Err? && r.failure.Thrown? && r.failure.error.kind == ClassUndefinedError <==>
              className in classes && methodName !in classes[className].methods &&
              classes[className].baseClass != "" && classes[className].baseClass !in classes
    ensures r == Err(Fatal(NullDereference)) <==> className !in classes
  {
    if className !in classes then Err(Fatal(NullDereference))
    else
      var clazz := classes[className];
      if methodName in clazz.methods then Ok(OwnMethod(clazz.methods[methodName]))
      else if clazz.baseClass == "" then Err(Raise(UnimplementedMethodError, methodName))
      else if clazz.baseClass !in classes then Err(Raise(ClassUndefinedError, clazz.baseClass))
      else Ok(BaseMethod(clazz.baseClass))
  }

  /** The fallback is one level deep: a method only the grandparent class has is not found through the parent. */
  lemma NoGrandparentFallback(classes: map<string, KClass>, className: string, methodName: string)
    requires className in classes && methodName !in classes[className].methods
    requires classes[className].baseClass in classes
    ensures ResolveObjectMethod(classes, className, methodName).Ok? ==>
              ResolveObjectMethod(classes, className, methodName) == Ok(BaseMethod(classes[className].baseClass))
  {
  }

  // ---------------------------------------------------------------------
  // Frames: inherited flags and unwinding
  // ---------------------------------------------------------------------

  /** The flags a new frame starts with: InObject, InTry and SubFrame carry over from the caller, nothing else does. */
  function InheritedFlags(callerFlags: StackFrame.FrameFlags): (r: StackFrame.FrameFlags)
    ensures StackFrame.HasFlag(r, StackFrame.InObject) <==> StackFrame.HasFlag(callerFlags, StackFrame.InObject)
    ensures StackFrame.HasFlag(r, StackFrame.InTry) <==> StackFrame.HasFlag(callerFlags, StackFrame.InTry)
    ensures StackFrame.HasFlag(r, StackFrame.SubFrame) <==> StackFrame.HasFlag(callerFlags, StackFrame.SubFrame)
    ensures !StackFrame.HasFlag(r, StackFrame.ReturnFlag)
    ensures !StackFrame.HasFlag(r, StackFrame.LoopBreak) && !StackFrame.HasFlag(r, StackFrame.LoopContinue)
  {
    var a := if StackFrame.HasFlag(callerFlags, StackFrame.InObject) then StackFrame.InObject else StackFrame.None;
    var b := if StackFrame.HasFlag(callerFlags, StackFrame.InTry) then StackFrame.InTry else StackFrame.None;
    var c := if StackFrame.HasFlag(callerFlags, StackFrame.SubFrame) then StackFrame.SubFrame else StackFrame.None;
    a | b | c
  }

  /** The caller's flags after a callee frame is dropped: a sub-frame caller is told to return too. */
  function FlagsAfterDrop(callerFlags: StackFrame.FrameFlags): (r: StackFrame.FrameFlags)
    ensures StackFrame.HasFlag(callerFlags, StackFrame.SubFrame) ==> StackFrame.HasFlag(r, StackFrame.ReturnFlag)
    ensures StackFrame.HasFlag(callerFlags, StackFrame.SubFrame) ==> r & callerFlags == callerFlags
    ensures !StackFrame.HasFlag(callerFlags, StackFrame.SubFrame) ==> r == callerFlags
  {
    if StackFrame.HasFlag(callerFlags, StackFrame.SubFrame) then StackFrame.WithFlag(callerFlags, StackFrame.ReturnFlag)
    else callerFlags
  }

  /** A frame as far as unwinding is concerned. */
  datatype FrameState = FrameState(variables: map<string, Value>, returnValue: Value, flags: StackFrame.FrameFlags)

  /**
   * Dropping the top frame: the caller takes the callee's return value and
   * the copy-back of its variables. With no caller below, reading the new
   * top of the stack is undefined behaviour.
   */
  function DropTop(stack: seq<FrameState>): (r: Result<seq<FrameState>>)
    requires |stack| >= 1
    ensures r.Ok? <==> |stack| >= 2
    ensures r.Ok? ==> |r.value| == |stack| - 1 && r.value[..|stack| - 2] == stack[..|stack| - 2]
    ensures r.Ok? ==> r.value[|stack| - 2].variables.Keys == stack[|stack| - 2].variables.Keys &&
                      r.value[|stack| - 2].returnValue == stack[|stack| - 1].returnValue
  {
    if |stack| < 2 then Err(Fatal(EmptyCallStack))
    else
      var caller := stack[|stack| - 2];
      var callee := stack[|stack| - 1];
      Ok(stack[..|stack| - 2] +
         [FrameState(InterpHelper.CopyBack(caller.variables, callee.variables), callee.returnValue,
                     FlagsAfterDrop(caller.flags))])
  }

  /**
   * A function call by name failing with a catchable error, as written:
   * the handler always drops the top frame, whether or not the callee's
   * frame was pushed (`pushed` is false for a failure while the callee is
   * looked up or its arguments are bound).
   */
  function FunctionCallUnwindAsWritten(stack: seq<FrameState>, pushed: bool): (r: Result<seq<FrameState>>)
    requires |stack| >= 1
    ensures r.Ok? <==> |stack| >= 2
    ensures r.Ok? ==> |r.value| == |stack| - 1
  {
    DropTop(stack)
  }

  /** A failure before the callee's frame is pushed pops the caller's frame, or crashes at the top level. */
  lemma AsWrittenUnwindLosesCaller(stack: seq<FrameState>)
    requires |stack| >= 1
    ensures |stack| == 1 ==> FunctionCallUnwindAsWritten(stack, false) == Err(Fatal(EmptyCallStack))
    ensures |stack| >= 2 ==> FunctionCallUnwindAsWritten(stack, false).Ok? &&
                             |FunctionCallUnwindAsWritten(stack, false).value| == |stack| - 1
  {
  }

  /** The counterexample: `f()` at the top level, with f declaring a parameter without default, inside a try. */
  lemma AsWrittenTopLevelCrash()
    ensures FunctionCallUnwindAsWritten([FrameState(map[], Int(0), StackFrame.InTry)], false) ==
            Err(Fatal(EmptyCallStack))
  {
  }

  /** The corrected handler: only a frame that was pushed is dropped (see `CorrectedUnwindKeepsCaller`). */
  function FunctionCallUnwind(stack: seq<FrameState>, pushed: bool): Result<seq<FrameState>>
    requires |stack| >= 1
    requires pushed ==> |stack| >= 2
  {
    if pushed then DropTop(stack) else Ok(stack)
  }

  /** With the correction, a failed call leaves the caller's stack depth and every frame below the caller as they were. */
  lemma CorrectedUnwindKeepsCaller(callerStack: seq<FrameState>, callee: FrameState, pushed: bool)
    requires |callerStack| >= 1
    ensures var before := if pushed then callerStack + [callee] else callerStack;
      FunctionCallUnwind(before, pushed).Ok? &&
      |FunctionCallUnwind(before, pushed).value| == |callerStack| &&
      FunctionCallUnwind(before, pushed).value[..|callerStack| - 1] == callerStack[..|callerStack| - 1]
  {
    if pushed {
      var before := callerStack + [callee];
      assert before[..|before| - 2] == callerStack[..|callerStack| - 1];
    }
  }
}
