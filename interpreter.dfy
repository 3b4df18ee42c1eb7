/**
 * The tree-walking evaluator: a stack of call frames, the registries of
 * functions, methods, lambdas and classes, and one `visit` per node kind.
 *
 * Lists, hashes and objects are shared, mutable containers: evaluating
 * any node may update any of them (`Shared`), and the frames on the call
 * stack. A frame that is not on the stack, such as the one a call is
 * binding its arguments into, is left alone.
 *
 * Evaluation carries a fuel bound: every nested evaluation spends one
 * unit, and a loop whose length can change while it runs gets at most
 * `fuel` rounds. Running out is reported as `OutOfFuel`, never as a value.
 */
module Evaluator {
  import opened KiwiErrors
  import opened Values
  import opened Ast
  import opened EvalRules
  import SF = StackFrame
  import IH = InterpHelper

  /** The text of a natural number in decimal. */
  function NatToString(n: nat): (s: string)
    ensures |s| >= 1
    ensures forall i :: 0 <= i < |s| ==> '0' <= s[i] <= '9'
  {
    var digit := ['0' + (n % 10) as char];
    if n < 10 then digit else NatToString(n / 10) + digit
  }

  /** Distinct counter values give distinct lambda ids. */
  lemma {:induction false} NatToStringInjective(m: nat, n: nat)
    requires m != n
    ensures NatToString(m) != NatToString(n)
    decreases m + n
  {
    var sm := NatToString(m);
    var sn := NatToString(n);
    if sm == sn {
      assert sm[|sm| - 1] == sn[|sn| - 1];
      assert m % 10 == n % 10;
      if m >= 10 && n >= 10 {
        assert NatToString(m / 10) == sm[..|sm| - 1];
        assert NatToString(n / 10) == sn[..|sn| - 1];
        NatToStringInjective(m / 10, n / 10);
      }
    }
  }

  /** An optional expression that is absent or a literal. */
  predicate LiteralOrAbsent(e: Option<Node>) {
    e.None? || e.value.Literal?
  }

  /** The value of a literal slice bound, or `absent` when the bound is left out. */
  function LiteralBound(e: Option<Node>, absent: Value): Value
    requires LiteralOrAbsent(e)
  {
    if e.Some? then FromScalar(e.value.value) else absent
  }

  predicate AllLiteral(nodes: seq<Node>) {
    forall k :: 0 <= k < |nodes| ==> nodes[k].Literal?
  }

  /** The values of a run of literals. */
  function Scalars(nodes: seq<Node>): (vs: seq<Value>)
    requires AllLiteral(nodes)
    ensures |vs| == |nodes| && forall k :: 0 <= k < |nodes| ==> vs[k] == FromScalar(nodes[k].value)
  {
    seq(|nodes|, k requires 0 <= k < |nodes| => FromScalar(nodes[k].value))
  }

  /** Each element paired with its position, as the list loop binds them. */
  function Enumerated(elements: seq<Value>): (e: seq<(Value, Value)>)
    ensures |e| == |elements| && forall k :: 0 <= k < |elements| ==> e[k] == (Int(k), elements[k])
  {
    seq(|elements|, k requires 0 <= k < |elements| => (Int(k), elements[k]))
  }

  /** A loop-body statement that changes nothing: a literal, `pass`, or `next`/`break` with no guard or a literal one. */
  predicate QuietStatement(s: Node) {
    s.Literal? || s.NoOp? || (s.IsLoopControl() && LiteralOrAbsent(s.guard))
  }

  predicate Quiet(body: seq<Node>) {
    forall k :: 0 <= k < |body| ==> QuietStatement(body[k])
  }

  predicate NoBreak(body: seq<Node>) {
    forall k :: 0 <= k < |body| ==> !body[k].Break?
  }

  /** A body that opens with an unconditional `break`. */
  predicate LeadingBreak(body: seq<Node>) {
    |body| > 0 && body[0].Break? && body[0].guard.None?
  }

  /** A body that opens with an unconditional `throw` of a literal or of nothing. */
  predicate LeadingThrow(body: seq<Node>) {
    |body| > 0 && body[0].Throw? && body[0].guard.None? && LiteralOrAbsent(body[0].errorValue)
  }

  /**
   * The error `throw` raises for the value it was given (none when it has
   * no operand), paired with that value's entries if it is a hash: the
   * type is the string under "error" (else "KiwiError") and the message
   * the string under "message"; a string value is itself the message.
   */
  function ThrownError(thrown: Option<(Value, map<string, Value>)>): (f: Failure)
    ensures f.Thrown? && f.error.kind.UserError?
    ensures thrown.None? || !thrown.value.0.HashV? ==> f.error.kind == UserError("KiwiError")
    ensures thrown.Some? && !thrown.value.0.HashV? && !thrown.value.0.Str? ==> f.error.detail == ""
  {
    match thrown
    case None => Raise(UserError("KiwiError"), "")
    case Some((v, kvp)) =>
      if v.HashV? then
        Raise(UserError(if "error" in kvp && kvp["error"].Str? then kvp["error"].s else "KiwiError"),
              if "message" in kvp && kvp["message"].Str? then kvp["message"].s else "")
      else
        Raise(UserError("KiwiError"), if v.Str? then v.s else "")
  }

  /** The error `throw` raises for a literal or absent value: a KiwiError whose message is the value if it is a string. */
  function LiteralThrow(errorValue: Option<Node>): (f: Failure)
    requires LiteralOrAbsent(errorValue)
    ensures f.Thrown? && f.error.kind == UserError("KiwiError")
    ensures errorValue.Some? && errorValue.value.value.SStr? ==> f.error.detail == errorValue.value.value.s
  {
    ThrownError(if errorValue.Some? then Some((FromScalar(errorValue.value.value), map[])) else None)
  }

  /** The names a catch clause binds. */
  function CatchNames(errorType: Option<string>, errorMessage: Option<string>): set<string> {
    (if errorType.Some? then {errorType.value} else {}) + (if errorMessage.Some? then {errorMessage.value} else {})
  }

  /**
   * A catch body's scope holds the error's type name and message under the
   * names the clause gives; when both names are the same the message,
   * bound second, is what the name holds.
   */
  predicate CatchBinds(scope: map<string, Value>, e: KiwiError, errorType: Option<string>, errorMessage: Option<string>) {
    (errorType.Some? && (errorMessage.None? || errorMessage.value != errorType.value) ==>
       errorType.value in scope && scope[errorType.value] == Str(ErrorTypeName(e.kind))) &&
    (errorMessage.Some? ==> errorMessage.value in scope && scope[errorMessage.value] == Str(e.detail))
  }

  /** A library result as a runtime value: a scalar becomes its value, a failure stays the failure. */
  function Lifted(s: Result<Scalar>): Result<Value> {
    match s
    case Ok(v) => Ok(FromScalar(v))
    case Err(f) => Err(f)
  }

  /**
   * What `name op= value` stores when the name holds `held`: `~=` is the
   * bitwise negation of the old value, any other operator combines the
   * old value with the operand.
   */
  function CompoundResult(ext: Externals, op: Op, held: Value, value: Value): Result<Value> {
    Lifted(if op == BitwiseNotAssign then ext.bitwiseNot(held) else ext.binaryOp(op, held, value))
  }

  /** Evaluated key/value pairs whose keys are all strings. */
  predicate StringKeys(evaluated: seq<(Value, Value)>) {
    forall k :: 0 <= k < |evaluated| ==> evaluated[k].0.Str?
  }

  /** The map a hash literal's evaluated pairs build, a later key overwriting an earlier one. */
  function PairsMap(evaluated: seq<(Value, Value)>): map<string, Value>
    requires StringKeys(evaluated)
  {
    if |evaluated| == 0 then map[]
    else
      var last := evaluated[|evaluated| - 1];
      PairsMap(evaluated[..|evaluated| - 1])[last.0.s := last.1]
  }

  /**
   * A key is in the built map exactly when some pair has it, and it holds
   * the value of the last pair that has it.
   */
  lemma {:induction false} PairsMapLastWins(evaluated: seq<(Value, Value)>, key: string, k: int)
    requires StringKeys(evaluated)
    requires 0 <= k < |evaluated| && evaluated[k].0 == Str(key)
    requires forall j :: k < j < |evaluated| ==> evaluated[j].0 != Str(key)
    ensures key in PairsMap(evaluated) && PairsMap(evaluated)[key] == evaluated[k].1
    decreases |evaluated|
  {
    var n := |evaluated|;
    if k < n - 1 {
      var init := evaluated[..n - 1];
      assert StringKeys(init) by {
        forall j | 0 <= j < |init| ensures init[j].0.Str? {
          assert init[j] == evaluated[j];
        }
      }
      forall j | k < j < |init| ensures init[j].0 != Str(key) {
        assert init[j] == evaluated[j];
      }
      assert init[k] == evaluated[k];
      PairsMapLastWins(init, key, k);
      assert evaluated[n - 1].0 != Str(key);
    }
  }

  /** A key no pair has is not in the built map. */
  lemma {:induction false} PairsMapOnlyKeys(evaluated: seq<(Value, Value)>, key: string)
    requires StringKeys(evaluated)
    requires forall j :: 0 <= j < |evaluated| ==> evaluated[j].0 != Str(key)
    ensures key !in PairsMap(evaluated)
    decreases |evaluated|
  {
    var n := |evaluated|;
    if n > 0 {
      var init := evaluated[..n - 1];
      assert StringKeys(init) by {
        forall j | 0 <= j < |init| ensures init[j].0.Str? {
          assert init[j] == evaluated[j];
        }
      }
      forall j | 0 <= j < |init| ensures init[j].0 != Str(key) {
        assert init[j] == evaluated[j];
      }
      PairsMapOnlyKeys(init, key);
      assert evaluated[n - 1].0 != Str(key);
    }
  }

  /** The key a class registers a method under: its constructor is called as `new`. */
  function MethodKey(methodName: string): (key: string)
    ensures key == New <==> methodName == Ctor || methodName == New
  {
    if methodName == Ctor then New else methodName
  }

  class KInterpreter {
    var callStack: seq<SF.CallStackFrame>
    var functions: map<string, KFunction>
    var methods: map<string, KFunction>
    var lambdas: map<string, Option<KFunction>>
    var classes: map<string, KClass>
    var lambdaTable: map<string, string>
    var classStack: seq<string>
    var nextLambdaId: nat
    const ext: Externals

    // -------------------------------------------------------------------
    // The frame invariant
    // -------------------------------------------------------------------

    /** A frame that says it runs inside an object has that object. */
    static ghost predicate Coherent(f: SF.CallStackFrame)
      reads f
    {
      f.InObjectContext() ==> f.objectContext.Some?
    }

    ghost predicate Valid()
      reads this, callStack
    {
      forall i :: 0 <= i < |callStack| ==> Coherent(callStack[i])
    }

    /** Valid, with a current frame to evaluate in. */
    ghost predicate Ready()
      reads this, callStack
    {
      Valid() && |callStack| >= 1
    }

    function Top(): SF.CallStackFrame
      reads this
      requires |callStack| >= 1
    {
      callStack[|callStack| - 1]
    }

    /** An interpreter before any program has run: no frames, nothing registered. */
    constructor (ext: Externals)
      ensures Valid() && callStack == [] && this.ext == ext
      ensures functions == map[] && methods == map[] && lambdas == map[] && classes == map[]
      ensures lambdaTable == map[] && classStack == [] && nextLambdaId == 0
    {
      callStack := [];
      functions := map[];
      methods := map[];
      lambdas := map[];
      classes := map[];
      lambdaTable := map[];
      classStack := [];
      nextLambdaId := 0;
      this.ext := ext;
    }

    // -------------------------------------------------------------------
    // Single frame updates that keep the invariant
    // -------------------------------------------------------------------

    method SetVariable(frame: SF.CallStackFrame, name: string, v: Value)
      requires Valid() && frame in callStack
      modifies frame
      ensures Valid()
      ensures frame.variables == old(frame.variables)[name := v]
      ensures frame.flags == old(frame.flags) && frame.returnValue == old(frame.returnValue)
      ensures frame.objectContext == old(frame.objectContext)
    {
      frame.variables := frame.variables[name := v];
    }

    method EraseVariable(frame: SF.CallStackFrame, name: string)
      requires Valid() && frame in callStack
      modifies frame
      ensures Valid()
      ensures frame.variables == old(frame.variables) - {name}
      ensures frame.flags == old(frame.flags) && frame.returnValue == old(frame.returnValue)
      ensures frame.objectContext == old(frame.objectContext)
    {
      frame.variables := frame.variables - {name};
    }

    /** `frame->variables[name]`: a missing name is inserted with the default value first. */
    method LookupOrInsert(frame: SF.CallStackFrame, name: string) returns (v: Value)
      requires Valid() && frame in callStack
      modifies frame
      ensures Valid()
      ensures name in old(frame.variables) ==> frame.variables == old(frame.variables) && v == frame.variables[name]
      ensures name !in old(frame.variables) ==> frame.variables == old(frame.variables)[name := DefaultValue] && v == DefaultValue
      ensures frame.flags == old(frame.flags) && frame.returnValue == old(frame.returnValue)
      ensures frame.objectContext == old(frame.objectContext)
    {
      if name !in frame.variables {
        frame.variables := frame.variables[name := DefaultValue];
      }
      v := frame.variables[name];
    }

    method SetReturn(frame: SF.CallStackFrame, v: Value)
      requires Valid() && frame in callStack
      modifies frame
      ensures Valid()
      ensures frame.flags == SF.WithFlag(old(frame.flags), SF.ReturnFlag) && frame.returnValue == v
      ensures frame.variables == old(frame.variables) && frame.objectContext == old(frame.objectContext)
    {
      frame.SetFlag(SF.ReturnFlag);
      frame.returnValue := v;
    }

    method SetContext(frame: SF.CallStackFrame, obj: KObject)
      requires Valid() && frame in callStack
      modifies frame
      ensures Valid()
      ensures frame.objectContext == Some(obj) && frame.flags == SF.WithFlag(old(frame.flags), SF.InObject)
      ensures frame.InObjectContext()
      ensures frame.variables == old(frame.variables) && frame.returnValue == old(frame.returnValue)
    {
      frame.SetObjectContext(obj);
    }

    method LeaveContext(frame: SF.CallStackFrame)
      requires Valid() && frame in callStack
      modifies frame
      ensures Valid()
      ensures frame.flags == SF.WithoutFlag(old(frame.flags), SF.InObject) && !frame.InObjectContext()
      ensures frame.objectContext == old(frame.objectContext)
      ensures frame.variables == old(frame.variables) && frame.returnValue == old(frame.returnValue)
    {
      frame.ClearFlag(SF.InObject);
    }

    // -------------------------------------------------------------------
    // Frames
    // -------------------------------------------------------------------

    /**
     * A frame for a call made from the current one: it starts with a copy
     * of the caller's variables (none for a method invocation), the
     * caller's object context if it has one, and the caller's InTry and
     * SubFrame flags.
     */
    method CreateFrame(isMethodInvocation: bool) returns (frame: SF.CallStackFrame)
      requires Ready()
      ensures fresh(frame) && Coherent(frame)
      ensures frame.variables == if isMethodInvocation then map[] else Top().variables
      ensures frame.returnValue == DefaultValue
      ensures frame.objectContext == if Top().InObjectContext() then Top().objectContext else None
      ensures frame.flags == InheritedFlags(Top().flags)
    {
      var caller := Top();
      frame := new SF.CallStackFrame();
      if !isMethodInvocation {
        frame.variables := caller.variables;
      }
      if caller.InObjectContext() {
        assert Coherent(caller);
        frame.SetObjectContext(caller.objectContext.value);
      }
      if caller.IsFlagSet(SF.InTry) {
        frame.SetFlag(SF.InTry);
      }
      if caller.IsFlagSet(SF.SubFrame) {
        frame.SetFlag(SF.SubFrame);
      }
    }

    /** A loop round's bindings: the value to `valueIterator`, then the index to the index iterator if there is one. */
    method BindIterators(frame: SF.CallStackFrame, valueIterator: string, v: Value, indexIterator: Option<string>,
                         index: Value)
      requires Valid() && frame in callStack
      modifies frame
      ensures Valid()
      ensures frame.variables == if indexIterator.Some? then old(frame.variables)[valueIterator := v][indexIterator.value := index]
                                 else old(frame.variables)[valueIterator := v]
      ensures frame.flags == old(frame.flags) && frame.returnValue == old(frame.returnValue)
      ensures frame.objectContext == old(frame.objectContext)
    {
      SetVariable(frame, valueIterator, v);
      if indexIterator.Some? {
        SetVariable(frame, indexIterator.value, index);
      }
    }

    /** The end of a `for` loop: both iterator names are erased. */
    method EraseIterators(frame: SF.CallStackFrame, valueIterator: string, indexIterator: Option<string>)
      requires Valid() && frame in callStack
      modifies frame
      ensures Valid()
      ensures frame.variables == if indexIterator.Some? then old(frame.variables) - {valueIterator, indexIterator.value}
                                 else old(frame.variables) - {valueIterator}
      ensures frame.flags == old(frame.flags) && frame.returnValue == old(frame.returnValue)
      ensures frame.objectContext == old(frame.objectContext)
    {
      EraseVariable(frame, valueIterator);
      if indexIterator.Some? {
        EraseVariable(frame, indexIterator.value);
      }
    }

    method PushFrame(frame: SF.CallStackFrame)
      requires Valid() && Coherent(frame)
      modifies this
      ensures Valid()
      ensures callStack == old(callStack) + [frame] && classStack == old(classStack)
      ensures functions == old(functions) && methods == old(methods) && lambdas == old(lambdas)
      ensures classes == old(classes) && lambdaTable == old(lambdaTable) && nextLambdaId == old(nextLambdaId)
    {
      callStack := callStack + [frame];
    }

    /**
     * Pops the current frame. The caller takes its return value, is told
     * to return as well if it is a sub-frame, and takes back the values of
     * the variables it already had. Popping the last frame leaves nothing
     * to read the caller from.
     */
    method DropFrame() returns (r: Result<Value>)
      requires Valid() && |callStack| >= 1
      modifies this, callStack[|callStack| - 1 - (if |callStack| >= 2 then 1 else 0)]
      ensures Valid()
      ensures callStack == old(callStack)[..|old(callStack)| - 1]
      ensures r.Ok? <==> |old(callStack)| >= 2
      ensures r.Err? ==> r == Err(Fatal(EmptyCallStack))
      ensures r.Ok? ==> r.value == Int(0)
      ensures r.Ok? ==>
        var caller := old(callStack)[|old(callStack)| - 2];
        var callee := old(callStack)[|old(callStack)| - 1];
        caller.variables == IH.CopyBack(old(caller.variables), old(callee.variables)) &&
        caller.returnValue == old(callee.returnValue) &&
        caller.flags == FlagsAfterDrop(old(caller.flags)) &&
        caller.objectContext == old(caller.objectContext)
      ensures classStack == old(classStack)
      ensures functions == old(functions) && methods == old(methods) && lambdas == old(lambdas)
      ensures classes == old(classes) && lambdaTable == old(lambdaTable) && nextLambdaId == old(nextLambdaId)
    {
      var frame := Top();
      var returnValue := frame.returnValue;
      var topVariables := frame.variables;
      callStack := callStack[..|callStack| - 1];
      if |callStack| == 0 {
        return Err(Fatal(EmptyCallStack));
      }
      var callerFrame := Top();
      assert Coherent(callerFrame);
      callerFrame.returnValue := returnValue;
      if callerFrame.IsFlagSet(SF.SubFrame) {
        callerFrame.SetFlag(SF.ReturnFlag);
      }
      IH.UpdateVariablesInCallerFrame(topVariables, callerFrame);
      assert Coherent(callerFrame);
      return Ok(Int(0));
    }

    // -------------------------------------------------------------------
    // Dispatch
    // -------------------------------------------------------------------

    /**
     * Evaluates one node in the current frame. Whatever the outcome, the
     * invariant holds afterwards; a value or a catchable error leaves the
     * call stack as it was, and a value leaves the class stack as it was.
     */
    method Interpret(node: Node, fuel: nat) returns (r: Result<Value>)
      requires Ready()
      modifies this, callStack, iset o: object | Shared(o)
      ensures Valid()
      ensures r.Ok? || r.failure.Thrown? ==> callStack == old(callStack)
      ensures old(classStack) <= classStack
      ensures fuel == 0 ==> r == Err(OutOfFuel)
      ensures fuel > 0 && node.Literal? ==> r == Ok(FromScalar(node.value))
      ensures fuel > 0 && (node.IsLoopControl() || node.NoOp?) ==> r == Ok(Int(0))
      ensures fuel > 0 && (node.Literal? || node.IsLoopControl() || node.NoOp?) ==>
        unchanged(iset o: object | Shared(o) && old(allocated(o)))
      ensures fuel >= 2 && node.ListLiteral? && AllLiteral(node.elements) ==>
        r.Ok? && r.value.ListV? && fresh(r.value.list) && r.value.list.elements == Scalars(node.elements)
      ensures fuel >= 2 && node.Throw? && node.guard.None? && LiteralOrAbsent(node.errorValue) ==>
        r == Err(LiteralThrow(node.errorValue))
      decreases fuel, 20
    {
      if fuel == 0 {
        return Err(OutOfFuel);
      }
      if node.IsStatement() {
        r := Execute(node, fuel);
      } else {
        r := Evaluate(node, fuel);
      }
    }

    /** The expression half of `Interpret`'s dispatch. */
    method Evaluate(node: Node, fuel: nat) returns (r: Result<Value>)
      requires Ready() && fuel >= 1 && !node.IsStatement()
      modifies this, callStack, iset o: object | Shared(o)
      ensures Valid()
      ensures r.Ok? || r.failure.Thrown? ==> callStack == old(callStack)
      ensures old(classStack) <= classStack
      ensures node.Literal? ==> r == Ok(FromScalar(node.value)) && unchanged(iset o: object | Shared(o) && old(allocated(o)))
      ensures fuel >= 2 && node.ListLiteral? && AllLiteral(node.elements) ==>
        r.Ok? && r.value.ListV? && fresh(r.value.list) && r.value.list.elements == Scalars(node.elements)
      decreases fuel, 19
    {
      match node {
        case Literal(v) => r := Ok(FromScalar(v));
        case Identifier(name) => r := VisitIdentifier(name);
        case SelfNode(memberName) => r := VisitSelf(memberName);
        case ListLiteral(elements) => r := VisitListLiteral(elements, fuel);
        case RangeLiteral(rangeStart, rangeEnd) =>
          ghost var bounds;
          r, bounds := VisitRangeLiteral(rangeStart, rangeEnd, fuel);
        case HashLiteral(pairs, keys) =>
          ghost var evaluated;
          r, evaluated := VisitHashLiteral(pairs, keys, fuel);
        case UnaryOperation(unaryOp, operand) =>
          ghost var operandValue;
          r, operandValue := VisitUnaryOperation(unaryOp, operand, fuel);
        case BinaryOperation(binaryOp, left, right) =>
          ghost var leftValue, rightValue;
          r, leftValue, rightValue := VisitBinaryOperation(binaryOp, left, right, fuel);
        case TernaryOperation(e, t, f) =>
          ghost var condition;
          r, condition := VisitTernaryOperation(e, t, f, fuel);
        case Indexing(indexedObject, indexExpression) =>
          ghost var operands;
          r, operands := VisitIndexing(indexedObject, indexExpression, fuel);
        case Slice(slicedObject, a, b, c) => r := VisitSlice(slicedObject, a, b, c, fuel);
        case MemberAccess(receiver, memberName) =>
          ghost var operand;
          r, operand := VisitMemberAccess(receiver, memberName, fuel);
        case Lambda(parameters, body) => r := VisitLambda(parameters, body, fuel);
        case FunctionCall(functionName, arguments) => r := VisitFunctionCall(functionName, arguments, fuel);
        case MethodCall(receiver, methodName, arguments) =>
          ghost var operand, argValues;
          r, operand, argValues := VisitMethodCall(receiver, methodName, arguments, fuel);
      }
    }

    /** The statement half of `Interpret`'s dispatch. */
    method Execute(node: Node, fuel: nat) returns (r: Result<Value>)
      requires Ready() && fuel >= 1 && node.IsStatement()
      modifies this, callStack, iset o: object | Shared(o)
      ensures Valid()
      ensures r.Ok? || r.failure.Thrown? ==> callStack == old(callStack)
      ensures old(classStack) <= classStack
      ensures node.IsLoopControl() || node.NoOp? ==>
        r == Ok(Int(0)) && unchanged(iset o: object | Shared(o) && old(allocated(o)))
      ensures fuel >= 2 && node.Throw? && node.guard.None? && LiteralOrAbsent(node.errorValue) ==>
        r == Err(LiteralThrow(node.errorValue))
      decreases fuel, 19
    {
      match node {
        case Assignment(left, name, op, initializer) =>
          ghost var store;
          r, store := VisitAssignment(left, name, op, initializer, fuel);
        case IndexAssignment(target, op, initializer) => r := VisitIndexAssignment(target, op, initializer, fuel);
        case MemberAssignment(receiver, memberName, op, initializer) =>
          ghost var operands;
          r, operands := VisitMemberAssignment(receiver, memberName, op, initializer, fuel);
        case If(_, _, _, _) | Case(_, _, _) | ForLoop(_, _, _, _) | WhileLoop(_, _) | RepeatLoop(_, _, _)
           | Try(_, _, _, _, _) =>
          r := ExecuteBlock(node, fuel);
        case Next(_) => r := Ok(Int(0));
        case Break(_) => r := Ok(Int(0));
        case Class(name, baseClass, classMethods) => r := VisitClass(name, baseClass, classMethods, fuel);
        case FunctionDeclaration(decl) => r := VisitFunctionDeclaration(decl, fuel);
        case Return(returnValue, guard) => r := VisitReturn(returnValue, guard, fuel);
        case Throw(errorValue, guard) =>
          ghost var thrown;
          r, thrown := VisitThrow(errorValue, guard, fuel);
        case Print(expression) => r := VisitPrint(expression, fuel);
        case NoOp => r := Ok(Int(0));
      }
    }

    /** The statements that hold statement blocks: conditionals, loops and `try`. */
    method ExecuteBlock(node: Node, fuel: nat) returns (r: Result<Value>)
      requires Ready() && fuel >= 1
      requires node.If? || node.Case? || node.ForLoop? || node.WhileLoop? || node.RepeatLoop? || node.Try?
      modifies this, callStack, iset o: object | Shared(o)
      ensures Valid()
      ensures r.Ok? || r.failure.Thrown? ==> callStack == old(callStack)
      ensures old(classStack) <= classStack
      decreases fuel, 18
    {
      match node {
        case If(condition, body, elseifs, elseBody) => r := VisitIf(condition, body, elseifs, elseBody, fuel);
        case Case(testValue, whens, elseBody) => r := VisitCase(testValue, whens, elseBody, fuel);
        case ForLoop(dataSet, valueIterator, indexIterator, body) =>
          ghost var bound;
          r, bound := VisitForLoop(dataSet, valueIterator, indexIterator, body, fuel);
        case WhileLoop(condition, body) => r := VisitWhileLoop(condition, body, fuel);
        case RepeatLoop(count, alias, body) =>
          ghost var n, counts;
          r, n, counts := VisitRepeatLoop(count, alias, body, fuel);
        case Try(tryBody, errorType, errorMessage, catchBody, finallyBody) =>
          ghost var caught;
          r, caught := VisitTry(tryBody, errorType, errorMessage, catchBody, finallyBody, fuel);
      }
    }

    // -------------------------------------------------------------------
    // Names
    // -------------------------------------------------------------------

    /**
     * A name: inside an object an `@` name is an instance variable (read
     * with insertion of the default); otherwise a frame variable, then a
     * class, then a lambda, then a lambdaTable alias of a live lambda, and
     * the default value for anything else. Inside an object an empty name
     * has no first character to test, which is an out-of-range access.
     */
    method VisitIdentifier(name: string) returns (r: Result<Value>)
      requires Ready()
      modifies iset o: object | Shared(o)
      ensures Valid()
      ensures r.Err? <==> Top().InObjectContext() && |name| == 0
      ensures r.Err? ==> r == Err(Fatal(OutOfRangeAccess))
      ensures var frame := Top();
        !frame.InObjectContext() || (|name| > 0 && name[0] != '@') ==>
          (name in frame.variables ==> r.value == frame.variables[name]) &&
          (name !in frame.variables && name in classes ==> r.value == ClassV(name)) &&
          (name !in frame.variables && name !in classes && name in lambdas ==> r.value == LambdaV(name)) &&
          ((name !in frame.variables && name !in classes && name !in lambdas &&
            !(name in lambdaTable && lambdaTable[name] in lambdas)) ==> r.value == DefaultValue)
      ensures var frame := Top();
        var unbound := name !in frame.variables && name !in classes && name !in lambdas;
        (!frame.InObjectContext() || (|name| > 0 && name[0] != '@')) && unbound &&
        name in lambdaTable && lambdaTable[name] in lambdas ==>
          r.value == LambdaV(lambdaTable[name])
      ensures var frame := Top();
        frame.InObjectContext() && |name| > 0 && name[0] == '@' ==>
          var obj := frame.objectContext.value;
          name in obj.instanceVariables && r.value == obj.instanceVariables[name] &&
          (name in old(obj.instanceVariables) ==> r.value == old(obj.instanceVariables[name])) &&
          (name !in old(obj.instanceVariables) ==> r.value == DefaultValue)
    {
      var frame := Top();
      assert Coherent(frame);
      if frame.InObjectContext() && |name| == 0 {
        return Err(Fatal(OutOfRangeAccess));
      }
      if frame.InObjectContext() && name[0] == '@' {
        var obj := frame.objectContext.value;
        if name !in obj.instanceVariables {
          obj.instanceVariables := obj.instanceVariables[name := DefaultValue];
        }
        return Ok(obj.instanceVariables[name]);
      }
      if name in frame.variables {
        return Ok(frame.variables[name]);
      } else if name in classes {
        return Ok(ClassV(name));
      } else if name in lambdas {
        return Ok(LambdaV(name));
      } else if name in lambdaTable {
        var mappedId := lambdaTable[name];
        if mappedId in lambdas {
          return Ok(LambdaV(mappedId));
        }
      }
      return Ok(DefaultValue);
    }

    /** `@` alone is the current object; `@name` its instance variable, created with the default value if missing. */
    method VisitSelf(memberName: string) returns (r: Result<Value>)
      requires Ready()
      modifies iset o: object | Shared(o)
      ensures Valid()
      ensures r.Err? <==> !Top().InObjectContext()
      ensures r.Err? ==> r == Err(Raise(InvalidContextError, ""))
      ensures r.Ok? && memberName == "" ==> r.value == ObjectV(Top().objectContext.value)
      ensures r.Ok? && memberName != "" ==>
        var obj := Top().objectContext.value;
        memberName in obj.instanceVariables && r.value == obj.instanceVariables[memberName] &&
        (memberName !in old(obj.instanceVariables) ==> r.value == DefaultValue)
    {
      var frame := Top();
      assert Coherent(frame);
      if !frame.InObjectContext() {
        return Err(Raise(InvalidContextError, ""));
      }
      var obj := frame.objectContext.value;
      if memberName != "" {
        if memberName !in obj.instanceVariables {
          obj.instanceVariables := obj.instanceVariables[memberName := DefaultValue];
        }
        return Ok(obj.instanceVariables[memberName]);
      }
      return Ok(ObjectV(obj));
    }

    // -------------------------------------------------------------------
    // Literals and operators
    // -------------------------------------------------------------------

    /** The elements are evaluated left to right into a new list. */
    method VisitListLiteral(elements: seq<Node>, fuel: nat) returns (r: Result<Value>)
      requires Ready() && fuel >= 1
      modifies this, callStack, iset o: object | Shared(o)
      ensures Valid()
      ensures r.Ok? || r.failure.Thrown? ==> callStack == old(callStack)
      ensures old(classStack) <= classStack
      ensures r.Ok? ==> r.value.ListV? && fresh(r.value.list) && |r.value.list.elements| == |elements|
      ensures fuel >= 2 && (forall i :: 0 <= i < |elements| ==> elements[i].Literal?) ==>
        r.Ok? && forall i :: 0 <= i < |elements| ==> r.value.list.elements[i] == FromScalar(elements[i].value)
      decreases fuel, 15
    {
      var values: seq<Value> := [];
      var i := 0;
      while i < |elements|
        invariant 0 <= i <= |elements| && |values| == i
        invariant Valid() && callStack == old(callStack) && old(classStack) <= classStack
        invariant fuel >= 2 && (forall j :: 0 <= j < |elements| ==> elements[j].Literal?) ==>
          forall j :: 0 <= j < i ==> values[j] == FromScalar(elements[j].value)
      {
        var v :- Interpret(elements[i], fuel - 1);
        values := values + [v];
        i := i + 1;
      }
      var list := new KList(values);
      return Ok(ListV(list));
    }

    /**
     * `a..b` with integer bounds is the list of `RangeValues(a, b)`;
     * anything else is a RangeError. The ghost `bounds` are the two
     * evaluated bounds.
     */
    method VisitRangeLiteral(rangeStart: Node, rangeEnd: Node, fuel: nat)
      returns (r: Result<Value>, ghost bounds: Option<(Value, Value)>)
      requires Ready() && fuel >= 1
      modifies this, callStack, iset o: object | Shared(o)
      ensures Valid()
      ensures r.Ok? || r.failure.Thrown? ==> callStack == old(callStack)
      ensures old(classStack) <= classStack
      ensures r.Ok? ==> r.value.ListV? && fresh(r.value.list)
      ensures bounds.None? ==> r.Err?
      ensures bounds.Some? ==>
        var (a, b) := bounds.value;
        (r.Ok? <==> a.Int? && b.Int?) &&
        (r.Ok? ==> r.value.list.elements == RangeValues(a.i, b.i)) &&
        (r.Err? ==> r == Err(Raise(RangeError, "Range value must be an integer.")))
      ensures fuel >= 2 && rangeStart.Literal? && rangeEnd.Literal? ==>
        bounds == Some((FromScalar(rangeStart.value), FromScalar(rangeEnd.value))) &&
        (r.Ok? <==> rangeStart.value.SInt? && rangeEnd.value.SInt?) &&
        (r.Ok? ==> r.value.list.elements == RangeValues(rangeStart.value.i, rangeEnd.value.i)) &&
        (r.Err? ==> r == Err(Raise(RangeError, "Range value must be an integer.")))
      decreases fuel, 15
    {
      bounds := None;
      var startValue :- Interpret(rangeStart, fuel - 1);
      var stopValue :- Interpret(rangeEnd, fuel - 1);
      bounds := Some((startValue, stopValue));
      var checked :- EvalRules.RangeLiteral(startValue, stopValue);
      var elements := BuildRange(startValue.i, stopValue.i);
      var list := new KList(elements);
      r := Ok(ListV(list));
    }

    /**
     * Key and value expressions are evaluated pair by pair; a key that is
     * not a string is a SyntaxError. The new hash then takes, in the order
     * the parser recorded, every key with its last value. The ghost
     * `evaluated` are the pairs evaluated, as in `EvalPairs`.
     */
    method VisitHashLiteral(pairs: seq<(Node, Node)>, keys: seq<string>, fuel: nat)
      returns (r: Result<Value>, ghost evaluated: seq<(Value, Value)>)
      requires Ready() && fuel >= 1
      modifies this, callStack, iset o: object | Shared(o)
      ensures Valid()
      ensures r.Ok? || r.failure.Thrown? ==> callStack == old(callStack)
      ensures old(classStack) <= classStack
      ensures |evaluated| > 0 && !evaluated[|evaluated| - 1].0.Str? ==>
        r == Err(Raise(SyntaxError, "Hash key must be a string value."))
      ensures r.Ok? ==>
        |evaluated| == |pairs| && StringKeys(evaluated) &&
        r.value.HashV? && fresh(r.value.hash) && (forall k :: k in r.value.hash.kvp <==> k in keys) &&
        (forall k :: k in r.value.hash.kvp ==>
          r.value.hash.kvp[k] == if k in PairsMap(evaluated) then PairsMap(evaluated)[k] else DefaultValue) &&
        ((forall i, j :: 0 <= i < j < |keys| ==> keys[i] != keys[j]) ==> r.value.hash.keys == keys)
      ensures fuel >= 2 && |pairs| > 0 && pairs[0].0.Literal? && pairs[0].1.Literal? && !pairs[0].0.value.SStr? ==>
        r == Err(Raise(SyntaxError, "Hash key must be a string value."))
      decreases fuel, 15
    {
      var kvps;
      kvps, evaluated := EvalPairs(pairs, fuel);
      if kvps.Err? {
        r := Err(kvps.failure);
        return;
      }
      var hash := NewHashFrom(keys, kvps.value);
      r := Ok(HashV(hash));
    }

    /**
     * The pairs of a hash literal, evaluated in order into a map where a
     * later key overwrites an earlier one (`PairsMap`). The ghost
     * `evaluated` are the key/value pairs evaluated so far: every key but
     * the last is a string, and a last key that is not one is the
     * SyntaxError that stopped the loop.
     */
    method EvalPairs(pairs: seq<(Node, Node)>, fuel: nat)
      returns (r: Result<map<string, Value>>, ghost evaluated: seq<(Value, Value)>)
      requires Ready() && fuel >= 1
      modifies this, callStack, iset o: object | Shared(o)
      ensures Valid()
      ensures r.Ok? || r.failure.Thrown? ==> callStack == old(callStack)
      ensures old(classStack) <= classStack
      ensures |evaluated| <= |pairs|
      ensures forall k :: 0 <= k < |evaluated| - 1 ==> evaluated[k].0.Str?
      ensures |evaluated| > 0 && !evaluated[|evaluated| - 1].0.Str? ==>
        r == Err(Raise(SyntaxError, "Hash key must be a string value."))
      ensures r.Ok? ==> |evaluated| == |pairs| && StringKeys(evaluated) && r.value == PairsMap(evaluated)
      ensures r.Err? && StringKeys(evaluated) ==> |evaluated| < |pairs|
      ensures fuel >= 2 && |pairs| > 0 && pairs[0].0.Literal? && pairs[0].1.Literal? ==>
        |evaluated| > 0 && evaluated[0] == (FromScalar(pairs[0].0.value), FromScalar(pairs[0].1.value))
      ensures fuel >= 2 && |pairs| > 0 && pairs[0].0.Literal? && pairs[0].1.Literal? && !pairs[0].0.value.SStr? ==>
        r == Err(Raise(SyntaxError, "Hash key must be a string value."))
      decreases fuel, 10
    {
      var kvps: map<string, Value> := map[];
      evaluated := [];
      var i := 0;
      while i < |pairs|
        invariant 0 <= i <= |pairs| && |evaluated| == i
        invariant Valid() && callStack == old(callStack) && old(classStack) <= classStack
        invariant StringKeys(evaluated) && kvps == PairsMap(evaluated)
        invariant fuel >= 2 && |pairs| > 0 && pairs[0].0.Literal? && pairs[0].1.Literal? && i > 0 ==>
          evaluated[0] == (FromScalar(pairs[0].0.value), FromScalar(pairs[0].1.value))
      {
        var pair;
        ghost var operands;
        pair, operands := EvalPair(pairs[i], fuel);
        if operands.Some? {
          evaluated := evaluated + [operands.value];
        }
        if pair.Err? {
          r := Err(pair.failure);
          return;
        }
        assert evaluated[..|evaluated| - 1] == evaluated[..i];
        kvps := kvps[pair.value.0 := pair.value.1];
        i := i + 1;
      }
      r := Ok(kvps);
    }

    /**
     * One pair of a hash literal: the key, then the value; a key that is
     * not a string is a SyntaxError. The ghost `operands` are the key and
     * value once both are evaluated.
     */
    method EvalPair(pair: (Node, Node), fuel: nat)
      returns (r: Result<(string, Value)>, ghost operands: Option<(Value, Value)>)
      requires Ready() && fuel >= 1
      modifies this, callStack, iset o: object | Shared(o)
      ensures Valid()
      ensures r.Ok? || r.failure.Thrown? ==> callStack == old(callStack)
      ensures old(classStack) <= classStack
      ensures operands.None? ==> r.Err?
      ensures operands.Some? ==>
        var (key, value) := operands.value;
        r == if key.Str? then Ok((key.s, value)) else Err(Raise(SyntaxError, "Hash key must be a string value."))
      ensures fuel >= 2 && pair.0.Literal? && pair.1.Literal? ==>
        operands == Some((FromScalar(pair.0.value), FromScalar(pair.1.value)))
      decreases fuel, 9
    {
      operands := None;
      var key :- Interpret(pair.0, fuel - 1);
      var value :- Interpret(pair.1, fuel - 1);
      operands := Some((key, value));
      if !key.Str? {
        r := Err(Raise(SyntaxError, "Hash key must be a string value."));
        return;
      }
      r := Ok((key.s, value));
    }

    /** A new hash holding `keys` in that order, each with its value in `kvps` or the default value. */
    method NewHashFrom(keys: seq<string>, kvps: map<string, Value>) returns (hash: KHash)
      requires Valid()
      modifies this
      ensures Valid() && fresh(hash)
      ensures forall k :: k in hash.kvp <==> k in keys
      ensures forall k :: k in hash.kvp ==> hash.kvp[k] == if k in kvps then kvps[k] else DefaultValue
      ensures (forall i, j :: 0 <= i < j < |keys| ==> keys[i] != keys[j]) ==> hash.keys == keys
      ensures callStack == old(callStack) && classStack == old(classStack)
    {
      hash := new KHash();
      var j := 0;
      while j < |keys|
        invariant 0 <= j <= |keys|
        invariant Valid() && callStack == old(callStack) && classStack == old(classStack)
        invariant fresh(hash)
        invariant forall k :: k in hash.kvp <==> k in keys[..j]
        invariant forall k :: k in hash.kvp ==> hash.kvp[k] == if k in kvps then kvps[k] else DefaultValue
        invariant (forall i, j :: 0 <= i < j < |keys| ==> keys[i] != keys[j]) ==> hash.keys == keys[..j]
      {
        var key := keys[j];
        hash.Add(key, if key in kvps then kvps[key] else DefaultValue);
        assert keys[..j + 1] == keys[..j] + [key];
        j := j + 1;
      }
      assert keys[..j] == keys;
    }

    /** The library's unary operator applied to the operand's value, the ghost `operandValue`. */
    method VisitUnaryOperation(unaryOp: string, operand: Node, fuel: nat)
      returns (r: Result<Value>, ghost operandValue: Option<Value>)
      requires Ready() && fuel >= 1
      modifies this, callStack, iset o: object | Shared(o)
      ensures Valid()
      ensures r.Ok? || r.failure.Thrown? ==> callStack == old(callStack)
      ensures old(classStack) <= classStack
      ensures operandValue.None? ==> r.Err?
      ensures operandValue.Some? ==> r == Lifted(ext.unaryOp(unaryOp, operandValue.value))
      ensures fuel >= 2 && operand.Literal? ==>
        operandValue == Some(FromScalar(operand.value)) &&
        r == Lifted(ext.unaryOp(unaryOp, FromScalar(operand.value)))
      decreases fuel, 15
    {
      operandValue := None;
      var right :- Interpret(operand, fuel - 1);
      operandValue := Some(right);
      r := Lifted(ext.unaryOp(unaryOp, right));
    }

    /**
     * `and` with a falsy left operand is false and `or` with a truthy one
     * is true, without evaluating the right operand; everything else goes
     * to the library. The ghost `leftValue` and `rightValue` are the
     * operands evaluated; a short circuit evaluates no right operand.
     */
    method VisitBinaryOperation(binaryOp: Op, left: Node, right: Node, fuel: nat)
      returns (r: Result<Value>, ghost leftValue: Option<Value>, ghost rightValue: Option<Value>)
      requires Ready() && fuel >= 1
      modifies this, callStack, iset o: object | Shared(o)
      ensures Valid()
      ensures r.Ok? || r.failure.Thrown? ==> callStack == old(callStack)
      ensures old(classStack) <= classStack
      ensures leftValue.None? ==> r.Err? && rightValue.None?
      ensures leftValue.Some? && binaryOp == AndOp && !ext.isTruthy(leftValue.value) ==>
        r == Ok(Bool(false)) && rightValue.None?
      ensures leftValue.Some? && binaryOp == OrOp && ext.isTruthy(leftValue.value) ==>
        r == Ok(Bool(true)) && rightValue.None?
      ensures leftValue.Some? && !(binaryOp == AndOp && !ext.isTruthy(leftValue.value)) &&
              !(binaryOp == OrOp && ext.isTruthy(leftValue.value)) ==>
        (rightValue.None? ==> r.Err?) &&
        (rightValue.Some? ==> r == Lifted(ext.binaryOp(binaryOp, leftValue.value, rightValue.value)))
      ensures fuel >= 2 && left.Literal? ==> leftValue == Some(FromScalar(left.value))
      ensures fuel >= 2 && left.Literal? && right.Literal? && rightValue.Some? ==>
        rightValue == Some(FromScalar(right.value))
      ensures fuel >= 2 && left.Literal? && right.Literal? &&
              !(binaryOp == AndOp && !ext.isTruthy(FromScalar(left.value))) &&
              !(binaryOp == OrOp && ext.isTruthy(FromScalar(left.value))) ==>
        r == Lifted(ext.binaryOp(binaryOp, FromScalar(left.value), FromScalar(right.value)))
      decreases fuel, 15
    {
      leftValue, rightValue := None, None;
      var lhs :- Interpret(left, fuel - 1);
      leftValue := Some(lhs);
      if binaryOp == AndOp && !ext.isTruthy(lhs) {
        r := Ok(Bool(false));
        return;
      } else if binaryOp == OrOp && ext.isTruthy(lhs) {
        r := Ok(Bool(true));
        return;
      }
      var rhs :- Interpret(right, fuel - 1);
      rightValue := Some(rhs);
      r := Lifted(ext.binaryOp(binaryOp, lhs, rhs));
    }

    /**
     * `c ? x : y` evaluates the condition, the ghost `condition`, then only
     * the branch it selects.
     */
    method VisitTernaryOperation(evalExpression: Node, trueExpression: Node, falseExpression: Node, fuel: nat)
      returns (r: Result<Value>, ghost condition: Option<Value>)
      requires Ready() && fuel >= 1
      modifies this, callStack, iset o: object | Shared(o)
      ensures Valid()
      ensures r.Ok? || r.failure.Thrown? ==> callStack == old(callStack)
      ensures old(classStack) <= classStack
      ensures condition.None? ==> r.Err?
      ensures fuel >= 2 && condition.Some? && ext.isTruthy(condition.value) && trueExpression.Literal? ==>
        r == Ok(FromScalar(trueExpression.value))
      ensures fuel >= 2 && condition.Some? && !ext.isTruthy(condition.value) && falseExpression.Literal? ==>
        r == Ok(FromScalar(falseExpression.value))
      ensures fuel >= 2 && evalExpression.Literal? ==> condition == Some(FromScalar(evalExpression.value))
      ensures fuel >= 2 && evalExpression.Literal? && trueExpression.Literal? && falseExpression.Literal? ==>
        r == Ok(FromScalar(if ext.isTruthy(FromScalar(evalExpression.value)) then trueExpression.value
                           else falseExpression.value))
      decreases fuel, 15
    {
      condition := None;
      var e :- Interpret(evalExpression, fuel - 1);
      condition := Some(e);
      if ext.isTruthy(e) {
        r := Interpret(trueExpression, fuel - 1);
      } else {
        r := Interpret(falseExpression, fuel - 1);
      }
    }

    /** The value is printed (output is not modelled); the statement's value is 0. */
    method VisitPrint(expression: Node, fuel: nat) returns (r: Result<Value>)
      requires Ready() && fuel >= 1
      modifies this, callStack, iset o: object | Shared(o)
      ensures Valid()
      ensures r.Ok? ==> r.value == Int(0)
      ensures r.Ok? || r.failure.Thrown? ==> callStack == old(callStack)
      ensures old(classStack) <= classStack
      decreases fuel, 15
    {
      var value :- Interpret(expression, fuel - 1);
      return Ok(Int(0));
    }

    // -------------------------------------------------------------------
    // Indexing, slicing and member access
    // -------------------------------------------------------------------

    /**
     * `x[i]`. A list index must be inside the list (a negative index is a
     * RangeError), a hash key must be present, a string index gives a
     * one-character string. An index expression that is itself an
     * indexing goes through the nested-indexing write with a plain
     * assignment of the default value.
     */
    method VisitIndexing(indexedObject: Option<Node>, indexExpression: Node, fuel: nat)
      returns (r: Result<Value>, ghost operands: Option<(Value, Value)>)
      requires Ready() && fuel >= 1
      modifies this, callStack, iset o: object | Shared(o)
      ensures Valid()
      ensures r.Ok? || r.failure.Thrown? ==> callStack == old(callStack)
      ensures old(classStack) <= classStack
      ensures indexedObject.None? ==> r == Err(Raise(InvalidOperationError, "Nothing to index."))
      ensures operands.None? && !indexExpression.Indexing? ==> r.Err?
      ensures operands.Some? ==>
        var (container, index) := operands.value;
        !indexExpression.Indexing? &&
        (container.ListV? ==>
          r == match GetInteger(ext, index) case Ok(i) => ListIndexRead(container.list.elements, i) case Err(f) => Err(f)) &&
        (container.HashV? ==>
          r == match GetString(ext, index) case Ok(key) => HashIndexRead(container.hash.kvp, key) case Err(f) => Err(f))
      ensures fuel >= 2 && indexedObject.Some? && indexedObject.value.Literal? && indexExpression.Literal? ==>
        var container := FromScalar(indexedObject.value.value);
        var index := FromScalar(indexExpression.value);
        (container.Str? && index.Int? ==>
          r == if 0 <= index.i < |container.s| then Ok(Str([container.s[index.i]]))
               else Err(Raise(RangeError, "The index was outside the bounds of the string."))) &&
        (!container.Str? ==> r == Err(Raise(IndexError, "Invalid indexing operation.")))
      decreases fuel, 15
    {
      operands := None;
      if indexedObject.None? {
        r := Err(Raise(InvalidOperationError, "Nothing to index."));
        return;
      }
      var container :- Interpret(indexedObject.value, fuel - 1);
      var indexValue :- Interpret(indexExpression, fuel - 1);
      if indexExpression.Indexing? {
        r := HandleNestedIndexing(indexExpression, container, Assign, DefaultValue, fuel);
        return;
      }
      operands := Some((container, indexValue));
      if container.ListV? {
        var index :- GetInteger(ext, indexValue);
        r := ListIndexRead(container.list.elements, index);
      } else if container.HashV? {
        var key :- GetString(ext, indexValue);
        r := HashIndexRead(container.hash.kvp, key);
      } else if container.Str? {
        var index :- GetInteger(ext, indexValue);
        r := if index < 0 || index >= |container.s| then Err(Raise(RangeError, "The index was outside the bounds of the string."))
             else Ok(Str([container.s[index]]));
      } else {
        r := Err(Raise(IndexError, "Invalid indexing operation."));
      }
    }

    /**
     * The slice bounds: start 0, stop the length of the sliced list or
     * string (0 for anything else) and step 1, each replaced by its
     * expression's value when the expression is present.
     */
    method GetSlice(startExpression: Option<Node>, stopExpression: Option<Node>, stepExpression: Option<Node>,
                    container: Value, fuel: nat) returns (r: Result<IH.SliceIndex>)
      requires Ready() && fuel >= 1
      modifies this, callStack, iset o: object | Shared(o)
      ensures Valid()
      ensures r.Ok? || r.failure.Thrown? ==> callStack == old(callStack)
      ensures old(classStack) <= classStack
      ensures r.Ok? ==> r.value.isSlice
      ensures (fuel >= 2 && LiteralOrAbsent(startExpression) && LiteralOrAbsent(stopExpression) &&
               LiteralOrAbsent(stepExpression)) ==> r.Ok?
      ensures r.Ok? && startExpression.None? ==> r.value.indexOrStart == Int(0)
      ensures r.Ok? && stepExpression.None? ==> r.value.stepValue == Int(1)
      ensures r.Ok? && stopExpression.None? ==>
        r.value.stopIndex == if container.ListV? then Int(|old(container.list.elements)|)
                             else if container.Str? then Int(|container.s|) else DefaultValue
      ensures fuel >= 2 && LiteralOrAbsent(startExpression) && LiteralOrAbsent(stopExpression) &&
              LiteralOrAbsent(stepExpression) ==>
        unchanged(iset o: object | Shared(o) && old(allocated(o))) &&
        r.value.indexOrStart == LiteralBound(startExpression, Int(0)) &&
        r.value.stopIndex == LiteralBound(stopExpression, r.value.stopIndex) &&
        r.value.stepValue == LiteralBound(stepExpression, Int(1))
      decreases fuel, 9
    {
      var start := Int(0);
      var stop := if container.ListV? then Int(|container.list.elements|) else if container.Str? then Int(|container.s|) else DefaultValue;
      var step := Int(1);
      if startExpression.Some? {
        start :- Interpret(startExpression.value, fuel - 1);
      }
      if stopExpression.Some? {
        stop :- Interpret(stopExpression.value, fuel - 1);
      }
      if stepExpression.Some? {
        step :- Interpret(stepExpression.value, fuel - 1);
      }
      return Ok(IH.SliceIndex(true, start, stop, step));
    }

    /**
     * `x[a:b:c]`: a string is sliced by the library, a list by the slice
     * read into a new list; nothing else can be sliced.
     */
    method VisitSlice(slicedObject: Option<Node>, startExpression: Option<Node>, stopExpression: Option<Node>,
                      stepExpression: Option<Node>, fuel: nat) returns (r: Result<Value>)
      requires Ready() && fuel >= 1
      modifies this, callStack, iset o: object | Shared(o)
      ensures Valid()
      ensures r.Ok? || r.failure.Thrown? ==> callStack == old(callStack)
      ensures old(classStack) <= classStack
      ensures slicedObject.None? ==> r == Err(Raise(InvalidOperationError, "Nothing to slice."))
      ensures fuel >= 2 && slicedObject.Some? && slicedObject.value.Literal? && !slicedObject.value.value.SStr? &&
              LiteralOrAbsent(startExpression) && LiteralOrAbsent(stopExpression) && LiteralOrAbsent(stepExpression) ==>
        r == Err(Raise(InvalidOperationError, "You can only slice lists and strings."))
      ensures r.Ok? && r.value.ListV? ==> fresh(r.value.list)
      decreases fuel, 15
    {
      if slicedObject.None? {
        return Err(Raise(InvalidOperationError, "Nothing to slice."));
      }
      var container :- Interpret(slicedObject.value, fuel - 1);
      var slice :- GetSlice(startExpression, stopExpression, stepExpression, container, fuel);
      if container.Str? {
        var s :- ext.stringSlice(container.s, slice);
        return Ok(FromScalar(s));
      } else if container.ListV? {
        var elements := container.list.elements;
        var sliced :- IH.ReadSlice(elements, slice);
        IH.SliceReadFrom(elements, slice);
        var list := new KList(sliced);
        return Ok(ListV(list));
      }
      return Err(Raise(InvalidOperationError, "You can only slice lists and strings."));
    }

    /**
     * `h.name` on a hash is the member's value, a HashKeyError if missing;
     * on anything else it is 0. The ghost `operand` is the receiver's value.
     */
    method VisitMemberAccess(receiver: Node, memberName: string, fuel: nat)
      returns (r: Result<Value>, ghost operand: Option<Value>)
      requires Ready() && fuel >= 1
      modifies this, callStack, iset o: object | Shared(o)
      ensures Valid()
      ensures r.Ok? || r.failure.Thrown? ==> callStack == old(callStack)
      ensures old(classStack) <= classStack
      ensures operand.None? ==> r.Err?
      ensures operand.Some? && operand.value.HashV? ==> r == HashIndexRead(operand.value.hash.kvp, memberName)
      ensures operand.Some? && !operand.value.HashV? ==> r == Ok(Int(0))
      ensures fuel >= 2 && receiver.Literal? ==> operand == Some(FromScalar(receiver.value)) && r == Ok(Int(0))
      decreases fuel, 15
    {
      operand := None;
      var value :- Interpret(receiver, fuel - 1);
      operand := Some(value);
      if value.HashV? {
        r := HashIndexRead(value.hash.kvp, memberName);
        return;
      }
      r := Ok(Int(0));
    }

    /**
     * The write of a nested index expression into `baseObj`. The index
     * expression's own index selects what is written: a deeper indexing
     * recurses into the selected list element, a bare name is a hash key
     * (or, on a list, a variable holding the index), a literal is an index
     * or a key. On success the container written into is returned.
     */
    method HandleNestedIndexing(indexExpr: Node, baseObj: Value, op: Op, newValue: Value, fuel: nat)
      returns (r: Result<Value>)
      requires Ready() && fuel >= 1 && indexExpr.Indexing?
      modifies this, callStack, iset o: object | Shared(o)
      ensures Valid()
      ensures r.Ok? || r.failure.Thrown? ==> callStack == old(callStack)
      ensures old(classStack) <= classStack
      ensures r.Ok? ==> r.value == baseObj && (baseObj.ListV? || baseObj.HashV?)
      ensures var ie := indexExpr.indexExpression;
        fuel >= 2 && ie.Literal? && ie.value.SInt? && baseObj.ListV? ==>
          var spec := ListIndexWrite(ext, old(baseObj.list.elements), ie.value.i, op, newValue);
          (r.Ok? <==> spec.Ok?) && (r.Ok? ==> baseObj.list.elements == spec.value) &&
          (r.Err? ==> r == Err(spec.failure))
      ensures var ie := indexExpr.indexExpression;
        fuel >= 2 && ie.Literal? && ie.value.SStr? && baseObj.HashV? ==>
          (op == Assign ==> r == Ok(baseObj) && baseObj.hash.kvp == old(baseObj.hash.kvp)[ie.value.s := newValue]) &&
          (op != Assign && ie.value.s !in old(baseObj.hash.kvp) ==> r == Err(Fatal(UnmodelledCase)))
      ensures var ie := indexExpr.indexExpression;
        ie.Identifier? && baseObj.HashV? ==>
          (ie.name !in old(baseObj.hash.kvp) ==> r == Err(Raise(HashKeyError, ie.name))) &&
          (ie.name in old(baseObj.hash.kvp) && op == Assign ==>
            r == Ok(baseObj) && baseObj.hash.kvp == old(baseObj.hash.kvp)[ie.name := newValue])
      decreases fuel, 7, indexExpr, 0
    {
      var ie := indexExpr.indexExpression;
      if ie.Indexing? {
        r := WriteNestedElement(ie, baseObj, op, newValue, fuel);
        return;
      } else if ie.Identifier? && baseObj.HashV? {
        var key := ie.name;
        var hashObj := baseObj.hash;
        if key !in hashObj.kvp {
          return Err(Raise(HashKeyError, key));
        }
        r := WriteHashEntry(hashObj, key, op, newValue);
        if r.Err? {
          return;
        }
        return Ok(baseObj);
      } else if ie.Identifier? && baseObj.ListV? {
        var identifier :- Interpret(ie, fuel - 1);
        var listIndex :- GetInteger(ext, identifier);
        r := WriteListElement(baseObj.list, listIndex, op, newValue);
        if r.Err? {
          return;
        }
        return Ok(baseObj);
      } else if ie.Literal? {
        var literal :- Interpret(ie, fuel - 1);
        if baseObj.ListV? && literal.Int? {
          r := WriteListElement(baseObj.list, literal.i, op, newValue);
          if r.Err? {
            return;
          }
          return Ok(baseObj);
        } else if baseObj.HashV? && literal.Str? {
          var hashObj := baseObj.hash;
          if op != Assign && literal.s !in hashObj.kvp {
            return Err(Fatal(UnmodelledCase));
          }
          r := WriteHashEntry(hashObj, literal.s, op, newValue);
          if r.Err? {
            return;
          }
          return Ok(baseObj);
        }
      }
      return Err(Raise(IndexError, "Invalid index expression."));
    }

    /**
     * A nested index expression whose own index is an indexing: `baseObj`
     * must be a list; the selected element is written into, recursively,
     * or overwritten when the chain ends.
     */
    method WriteNestedElement(ie: Node, baseObj: Value, op: Op, newValue: Value, fuel: nat) returns (r: Result<Value>)
      requires Ready() && fuel >= 1 && ie.Indexing?
      modifies this, callStack, iset o: object | Shared(o)
      ensures Valid()
      ensures r.Ok? || r.failure.Thrown? ==> callStack == old(callStack)
      ensures old(classStack) <= classStack
      ensures r.Ok? ==> r.value == baseObj && baseObj.ListV?
      decreases fuel, 7, ie, 1
    {
      var nestedIndex :- Interpret(ie.indexExpression, fuel - 1);
      if baseObj.ListV? && nestedIndex.Int? {
        var listObj := baseObj.list;
        var indexValue := IH.ToInt32(nestedIndex.i);
        if indexValue < 0 || indexValue >= |listObj.elements| {
          return Err(Raise(IndexError, "The index was outside the bounds of the list."));
        }
        if ie.indexExpression.Indexing? {
          var nestedValue :- HandleNestedIndexing(ie, listObj.elements[indexValue], op, newValue, fuel);
          if indexValue >= |listObj.elements| {
            return Err(Fatal(OutOfBoundsWrite));
          }
          listObj.elements := listObj.elements[indexValue := nestedValue];
        } else {
          r := WriteListElement(listObj, indexValue, op, newValue);
          if r.Err? {
            return;
          }
        }
        return Ok(baseObj);
      }
      return Err(Raise(IndexError, "Nested index does not target a list."));
    }

    /** `list[i] op= v` in place, through `ListIndexWrite`. */
    method WriteListElement(list: KList, index: int, op: Op, newValue: Value) returns (r: Result<Value>)
      requires Valid()
      modifies list
      ensures Valid()
      ensures var spec := ListIndexWrite(ext, old(list.elements), index, op, newValue);
        (r.Ok? <==> spec.Ok?) && (r.Ok? ==> list.elements == spec.value && r.value == Int(0)) &&
        (r.Err? ==> r.failure == spec.failure && list.elements == old(list.elements))
    {
      var written := ListIndexWrite(ext, list.elements, index, op, newValue);
      if written.Err? {
        return Err(written.failure);
      }
      list.elements := written.value;
      return Ok(Int(0));
    }

    /**
     * `hash[key] op= v` in place: a plain assignment adds or overwrites;
     * any other operator combines the present value with v.
     */
    method WriteHashEntry(hash: KHash, key: string, op: Op, newValue: Value) returns (r: Result<Value>)
      requires Valid()
      requires op != Assign ==> key in hash.kvp
      modifies hash
      ensures Valid()
      ensures op == Assign ==> r == Ok(Int(0)) && hash.kvp == old(hash.kvp)[key := newValue]
      ensures op != Assign ==>
        match ext.binaryOp(op, old(hash.kvp[key]), newValue)
        case Ok(s) => r == Ok(Int(0)) && hash.kvp == old(hash.kvp)[key := FromScalar(s)]
        case Err(f) => r == Err(f) && hash.kvp == old(hash.kvp)
    {
      if op == Assign {
        hash.Add(key, newValue);
      } else {
        var s :- ext.binaryOp(op, hash.kvp[key], newValue);
        hash.Add(key, FromScalar(s));
      }
      return Ok(Int(0));
    }

    /** `hash[key] op= v` from an assignment: a compound operator on a missing key is a HashKeyError. */
    method AssignHashEntry(hash: KHash, key: string, op: Op, newValue: Value) returns (r: Result<Value>)
      requires Valid()
      modifies hash
      ensures Valid()
      ensures r.Ok? ==> r.value == Int(0)
      ensures op == Assign ==> r == Ok(Int(0)) && hash.kvp == old(hash.kvp)[key := newValue]
      ensures op != Assign && key !in old(hash.kvp) ==> r == Err(Raise(HashKeyError, key)) && hash.kvp == old(hash.kvp)
      ensures op != Assign && key in old(hash.kvp) ==>
        match ext.binaryOp(op, old(hash.kvp[key]), newValue)
        case Ok(s) => r == Ok(Int(0)) && hash.kvp == old(hash.kvp)[key := FromScalar(s)]
        case Err(f) => r == Err(f) && hash.kvp == old(hash.kvp)
    {
      if op != Assign && key !in hash.kvp {
        return Err(Raise(HashKeyError, key));
      }
      r := WriteHashEntry(hash, key, op, newValue);
    }

    // -------------------------------------------------------------------
    // Assignments
    // -------------------------------------------------------------------

    /**
     * `name = v` and `name op= v`. A plain assignment to `global` is an
     * IllegalNameError; a lambda value renames the lambda (its old id no
     * longer holds it); inside an object an `@` name or `@`-prefixed
     * target is an instance variable; otherwise the current frame's
     * variable is set, and an object value learns its variable's name. A
     * compound assignment needs the name to exist already, as a frame
     * variable or, inside an object, as an instance variable, and stores
     * `CompoundResult` of its old value. The ghost `store` is the state
     * the write sees: the initializer's value, the frame's variables and
     * the current object's instance variables (none outside an object).
     */
    method VisitAssignment(left: Node, name: string, op: Op, initializer: Node, fuel: nat)
      returns (r: Result<Value>, ghost store: Option<(Value, map<string, Value>, map<string, Value>)>)
      requires Ready() && fuel >= 1
      modifies this, callStack, iset o: object | Shared(o)
      ensures Valid()
      ensures r.Ok? || r.failure.Thrown? ==> callStack == old(callStack)
      ensures old(classStack) <= classStack
      ensures r.Ok? && op == Assign ==> name != Global
      ensures r.Ok? && op == Assign && r.value.LambdaV? ==>
        name in lambdas && (r.value.lambdaId != name ==> r.value.lambdaId in lambdas && lambdas[r.value.lambdaId] == None)
      ensures r.Ok? && op == Assign && !r.value.LambdaV? &&
              (!Top().InObjectContext() || (!left.SelfNode? && |name| > 0 && name[0] != '@')) ==>
        name in Top().variables && Top().variables[name] == r.value &&
        (r.value.ObjectV? ==> r.value.obj.identifier == name)
      ensures r.Ok? && op == Assign && !r.value.LambdaV? && Top().InObjectContext() &&
              (left.SelfNode? || (|name| > 0 && name[0] == '@')) ==>
        Top().objectContext.Some? &&
        name in Top().objectContext.value.instanceVariables &&
        Top().objectContext.value.instanceVariables[name] == r.value
      ensures r.Ok? && op != Assign && !Top().InObjectContext() ==>
        name in Top().variables && Top().variables[name] == r.value
      ensures r.Ok? && op != Assign && Top().InObjectContext() && name !in Top().variables ==>
        name in Top().objectContext.value.instanceVariables &&
        Top().objectContext.value.instanceVariables[name] == r.value
      ensures store.None? ==> r.Err?
      ensures store.Some? && op == Assign && r.Ok? ==> r.value == store.value.0
      ensures store.Some? && op != Assign ==>
        var (value, vars, ivs) := store.value;
        (name in vars ==> r == CompoundResult(ext, op, vars[name], value)) &&
        (name !in vars && name in ivs ==> r == CompoundResult(ext, op, ivs[name], value)) &&
        (name !in vars && name !in ivs ==> r == Err(Raise(VariableUndefinedError, name)))
      ensures fuel >= 2 && initializer.Literal? && store.Some? ==> store.value.0 == FromScalar(initializer.value)
      decreases fuel, 15
    {
      store := None;
      var frame := Top();
      var leftValue :- Interpret(left, fuel - 1);
      var value :- Interpret(initializer, fuel - 1);
      ghost var ivs := if frame.InObjectContext() && frame.objectContext.Some? then frame.objectContext.value.instanceVariables else map[];
      store := Some((value, frame.variables, ivs));
      if op == Assign {
        r := AssignPlain(frame, name, left.SelfNode?, value);
      } else {
        r := AssignCompound(frame, name, op, value, frame.variables, ivs);
      }
    }

    /** The plain-assignment half of `VisitAssignment`, once both sides are evaluated. */
    method AssignPlain(frame: SF.CallStackFrame, name: string, viaSelf: bool, value: Value) returns (r: Result<Value>)
      requires Ready() && frame == Top()
      modifies this, frame, iset o: object | Shared(o)
      ensures Valid() && callStack == old(callStack) && classStack == old(classStack)
      ensures name == Global ==> r == Err(Raise(IllegalNameError, name))
      ensures r.Ok? ==> name != Global && r.value == value
      ensures r.Ok? && value.LambdaV? ==>
        name in lambdas && (value.lambdaId != name ==> value.lambdaId in lambdas && lambdas[value.lambdaId] == None)
      ensures r.Ok? && !value.LambdaV? && (!frame.InObjectContext() || (!viaSelf && |name| > 0 && name[0] != '@')) ==>
        name in frame.variables && frame.variables[name] == value &&
        (value.ObjectV? ==> value.obj.identifier == name)
      ensures r.Ok? && !value.LambdaV? && frame.InObjectContext() && (viaSelf || (|name| > 0 && name[0] == '@')) ==>
        frame.objectContext.Some? && frame.variables == old(frame.variables) &&
        name in frame.objectContext.value.instanceVariables &&
        frame.objectContext.value.instanceVariables[name] == value
      ensures name != Global && !value.LambdaV? && frame.InObjectContext() && !viaSelf && |name| == 0 ==>
        r == Err(Fatal(OutOfRangeAccess))
    {
      assert Coherent(frame);
      if name == Global {
        return Err(Raise(IllegalNameError, name));
      }
      if value.LambdaV? {
        var lambdaId := value.lambdaId;
        var moved := if lambdaId in lambdas then lambdas[lambdaId] else None;
        lambdas := lambdas[lambdaId := None][name := moved];
        return Ok(value);
      }
      if frame.InObjectContext() {
        if !viaSelf && |name| == 0 {
          return Err(Fatal(OutOfRangeAccess));
        }
        if viaSelf || name[0] == '@' {
          var obj := frame.objectContext.value;
          obj.instanceVariables := obj.instanceVariables[name := value];
          return Ok(value);
        }
      }
      if value.ObjectV? {
        value.obj.identifier := name;
      }
      SetVariable(frame, name, value);
      return Ok(value);
    }

    /**
     * The compound-assignment half of `VisitAssignment`: a frame variable
     * first, else, inside an object, an instance variable takes
     * `CompoundResult` of its old value; a name that is neither is a
     * VariableUndefinedError, and a failure stores nothing. The ghost
     * `vars` and `ivs` are the frame's variables and the object's
     * instance variables (none outside an object) before the write.
     */
    method AssignCompound(frame: SF.CallStackFrame, name: string, op: Op, value: Value,
                          ghost vars: map<string, Value>, ghost ivs: map<string, Value>) returns (r: Result<Value>)
      requires Ready() && frame == Top()
      requires vars == frame.variables
      requires ivs == if frame.InObjectContext() && frame.objectContext.Some? then frame.objectContext.value.instanceVariables else map[]
      modifies frame, iset o: object | Shared(o)
      ensures Valid()
      ensures name in vars ==> r == CompoundResult(ext, op, vars[name], value)
      ensures name !in vars && name in ivs ==> r == CompoundResult(ext, op, ivs[name], value)
      ensures name !in vars && name !in ivs ==> r == Err(Raise(VariableUndefinedError, name))
      ensures r.Err? ==> frame.variables == vars
      ensures r.Ok? && !frame.InObjectContext() ==>
        name in frame.variables && frame.variables[name] == r.value
      ensures r.Ok? && frame.InObjectContext() && name !in frame.variables ==>
        name in frame.objectContext.value.instanceVariables &&
        frame.objectContext.value.instanceVariables[name] == r.value
    {
      assert Coherent(frame);
      if name in frame.variables {
        r := CompoundResult(ext, op, frame.variables[name], value);
        if r.Ok? {
          SetVariable(frame, name, r.value);
        }
        return;
      } else if frame.InObjectContext() {
        r := CompoundInstance(frame.objectContext.value, name, op, value);
        return;
      }
      return Err(Raise(VariableUndefinedError, name));
    }

    /** `@name op= value` on an object: the instance variable must exist and takes `CompoundResult` of its old value. */
    method CompoundInstance(obj: KObject, name: string, op: Op, value: Value) returns (r: Result<Value>)
      modifies obj
      ensures r == if name in old(obj.instanceVariables) then CompoundResult(ext, op, old(obj.instanceVariables[name]), value)
                   else Err(Raise(VariableUndefinedError, name))
      ensures obj.instanceVariables == if r.Ok? then old(obj.instanceVariables)[name := r.value] else old(obj.instanceVariables)
      ensures obj.identifier == old(obj.identifier) && obj.className == old(obj.className)
    {
      if name !in obj.instanceVariables {
        return Err(Raise(VariableUndefinedError, name));
      }
      r := CompoundResult(ext, op, obj.instanceVariables[name], value);
      if r.Ok? {
        obj.instanceVariables := obj.instanceVariables[name := r.value];
      }
    }

    /**
     * `x[i] op= v`, `x[i][j]... op= v` and `x[a:b:c] = list`. The
     * initializer is evaluated first. A slice target writes the list held
     * by a variable through the slice write (only a list into a list); an
     * indexed variable holding a list writes the element (the index
     * narrowed to 32 bits, and required to be inside the list), one
     * holding a hash writes the entry; a target indexed twice or more goes
     * through the nested-indexing write.
     */
    method VisitIndexAssignment(target: Node, op: Op, initializer: Node, fuel: nat) returns (r: Result<Value>)
      requires Ready() && fuel >= 1
      modifies this, callStack, iset o: object | Shared(o)
      ensures Valid()
      ensures r.Ok? ==> r.value == Int(0)
      ensures r.Ok? || r.failure.Thrown? ==> callStack == old(callStack)
      ensures old(classStack) <= classStack
      ensures fuel >= 2 && initializer.Literal? &&
              ((target.Slice? && target.slicedObject.None?) || (target.Indexing? && target.indexedObject.None?)) ==>
        r == Err(Fatal(NullDereference))
      ensures fuel >= 2 && initializer.Literal? && target.Indexing? && target.indexedObject.Some? &&
              target.indexedObject.value.Indexing? && target.indexedObject.value.indexedObject.Some? &&
              !target.indexedObject.value.indexedObject.value.Identifier? ==>
        r == Err(Raise(IndexError, "Invalid nested indexing expression."))
      decreases fuel, 15
    {
      var frame := Top();
      var newValue :- Interpret(initializer, fuel - 1);
      if target.Slice? {
        if target.slicedObject.None? {
          return Err(Fatal(NullDereference));
        }
        var sliced := target.slicedObject.value;
        if sliced.Identifier? {
          r := AssignSliceOf(sliced.name, target.startExpression, target.stopExpression, target.stepExpression,
                             newValue, fuel);
          return;
        }
      } else if target.Indexing? {
        if target.indexedObject.None? {
          return Err(Fatal(NullDereference));
        }
        var indexed := target.indexedObject.value;
        if indexed.Identifier? {
          r := AssignElementOf(indexed.name, target, op, newValue, fuel);
          return;
        } else if indexed.Indexing? {
          if indexed.indexedObject.None? {
            return Err(Fatal(NullDereference));
          }
          if !indexed.indexedObject.value.Identifier? {
            return Err(Raise(IndexError, "Invalid nested indexing expression."));
          }
          var baseObj :- Interpret(indexed, fuel - 1);
          var written :- HandleNestedIndexing(target, baseObj, op, newValue, fuel);
        }
      }
      return Ok(Int(0));
    }

    /**
     * `name[a:b:c] = v`: the variable (inserted if missing) keeps its value;
     * a list value receives the slice write from a list `v`, which may be
     * the same list.
     */
    method AssignSliceOf(name: string, start: Option<Node>, stop: Option<Node>, step: Option<Node>, newValue: Value,
                         fuel: nat) returns (r: Result<Value>)
      requires Ready() && fuel >= 1
      modifies this, callStack, iset o: object | Shared(o)
      ensures Valid()
      ensures r.Ok? ==> r.value == Int(0)
      ensures r.Ok? || r.failure.Thrown? ==> callStack == old(callStack)
      ensures old(classStack) <= classStack
      ensures r.Ok? ==> name in Top().variables
      ensures var held := if name in old(Top().variables) then old(Top().variables[name]) else DefaultValue;
        fuel >= 2 && LiteralOrAbsent(start) && LiteralOrAbsent(stop) && LiteralOrAbsent(step) &&
        held.ListV? && newValue.ListV? ==>
          var slice := IH.SliceIndex(true, LiteralBound(start, Int(0)), LiteralBound(stop, Int(|old(held.list.elements)|)),
                                     LiteralBound(step, Int(1)));
          var spec := IH.SliceWrite(old(held.list.elements), false, slice, old(newValue.list.elements),
                                    newValue.list == held.list);
          (r.Ok? <==> spec.Ok?) && (r.Ok? ==> held.list.elements == spec.value) &&
          (r.Err? ==> r == Err(spec.failure))
      ensures var held := if name in old(Top().variables) then old(Top().variables[name]) else DefaultValue;
        fuel >= 2 && LiteralOrAbsent(start) && LiteralOrAbsent(stop) && LiteralOrAbsent(step) &&
        !(held.ListV? && newValue.ListV?) ==>
          r == Ok(Int(0))
      decreases fuel, 10
    {
      var frame := Top();
      var slicedObj := LookupOrInsert(frame, name);
      var slice :- GetSlice(start, stop, step, slicedObj, fuel);
      if slicedObj.ListV? && newValue.ListV? {
        var u := WriteListSlice(slicedObj.list, slice, newValue.list);
        if u.Err? {
          return Err(u.failure);
        }
      }
      SetVariable(frame, name, slicedObj);
      return Ok(Int(0));
    }

    /**
     * `name[i] op= v`: a list variable has its element written (a nested
     * index expression goes through the nested-indexing write), a hash
     * variable its entry; a compound write to a missing key is a HashKeyError.
     */
    method AssignElementOf(name: string, target: Node, op: Op, newValue: Value, fuel: nat) returns (r: Result<Value>)
      requires Ready() && fuel >= 1 && target.Indexing?
      modifies this, callStack, iset o: object | Shared(o)
      ensures Valid()
      ensures r.Ok? ==> r.value == Int(0)
      ensures r.Ok? || r.failure.Thrown? ==> callStack == old(callStack)
      ensures old(classStack) <= classStack
      ensures var held := if name in old(Top().variables) then old(Top().variables[name]) else DefaultValue;
        var index := target.indexExpression;
        fuel >= 2 && index.Literal? && index.value.SInt? && held.ListV? ==>
          var spec := ListIndexWrite(ext, old(held.list.elements), IH.ToInt32(index.value.i), op, newValue);
          (r.Ok? <==> spec.Ok?) && (r.Ok? ==> held.list.elements == spec.value) &&
          (r.Err? ==> r == Err(spec.failure))
      ensures var held := if name in old(Top().variables) then old(Top().variables[name]) else DefaultValue;
        var index := target.indexExpression;
        fuel >= 2 && index.Literal? && index.value.SStr? && held.HashV? ==>
          (op == Assign ==> r == Ok(Int(0)) && held.hash.kvp == old(held.hash.kvp)[index.value.s := newValue]) &&
          (op != Assign && index.value.s !in old(held.hash.kvp) ==> r == Err(Raise(HashKeyError, index.value.s)))
      ensures var held := if name in old(Top().variables) then old(Top().variables[name]) else DefaultValue;
        var index := target.indexExpression;
        fuel >= 2 && index.Literal? && !(held.ListV? && index.value.SInt?) && !(held.HashV? && index.value.SStr?) ==>
          r == Ok(Int(0))
      decreases fuel, 11
    {
      var frame := Top();
      var indexedObj := LookupOrInsert(frame, name);
      assert indexedObj == if name in old(Top().variables) then old(Top().variables[name]) else DefaultValue;
      ghost var kvp0 := if indexedObj.HashV? then indexedObj.hash.kvp else map[];
      var index :- Interpret(target.indexExpression, fuel - 1);
      assert fuel >= 2 && target.indexExpression.Literal? && indexedObj.HashV? ==> indexedObj.hash.kvp == kvp0;
      r := WriteElement(frame, name, indexedObj, index, target, op, newValue, fuel);
    }

    /** The write of `name[i] op= v` once the variable and the index are known. */
    method WriteElement(frame: SF.CallStackFrame, name: string, held: Value, index: Value, target: Node, op: Op,
                        newValue: Value, fuel: nat) returns (r: Result<Value>)
      requires Ready() && fuel >= 1 && target.Indexing? && frame == Top()
      modifies this, callStack, iset o: object | Shared(o)
      ensures Valid()
      ensures r.Ok? ==> r.value == Int(0)
      ensures r.Ok? || r.failure.Thrown? ==> callStack == old(callStack)
      ensures old(classStack) <= classStack
      ensures held.ListV? && index.Int? && !target.indexExpression.Indexing? ==>
        var spec := ListIndexWrite(ext, old(held.list.elements), IH.ToInt32(index.i), op, newValue);
        (r.Ok? <==> spec.Ok?) && (r.Ok? ==> held.list.elements == spec.value) && (r.Err? ==> r == Err(spec.failure))
      ensures held.HashV? && index.Str? ==>
        (op == Assign ==> r == Ok(Int(0)) && held.hash.kvp == old(held.hash.kvp)[index.s := newValue]) &&
        (op != Assign && index.s !in old(held.hash.kvp) ==> r == Err(Raise(HashKeyError, index.s)))
      ensures !(held.ListV? && index.Int?) && !(held.HashV? && index.Str?) ==> r == Ok(Int(0))
      decreases fuel, 10
    {
      if held.ListV? && index.Int? {
        var w :- AssignListElement(held.list, target, index.i, op, newValue, fuel);
        SetVariable(frame, name, held);
      } else if held.HashV? && index.Str? {
        var w :- AssignHashEntry(held.hash, index.s, op, newValue);
      }
      return Ok(Int(0));
    }

    /**
     * The element write of `name[i] op= v` on a list: the index, narrowed
     * to 32 bits, must be inside the list; a nested index expression
     * writes into the selected element through the nested-indexing write.
     */
    method AssignListElement(list: KList, target: Node, index: int, op: Op, newValue: Value, fuel: nat)
      returns (r: Result<Value>)
      requires Ready() && fuel >= 1 && target.Indexing?
      modifies this, callStack, iset o: object | Shared(o)
      ensures Valid()
      ensures r.Ok? ==> r.value == Int(0)
      ensures r.Ok? || r.failure.Thrown? ==> callStack == old(callStack)
      ensures old(classStack) <= classStack
      ensures !target.indexExpression.Indexing? ==>
        var spec := ListIndexWrite(ext, old(list.elements), IH.ToInt32(index), op, newValue);
        (r.Ok? <==> spec.Ok?) && (r.Ok? ==> list.elements == spec.value) && (r.Err? ==> r == Err(spec.failure))
      decreases fuel, 9
    {
      var indexValue := IH.ToInt32(index);
      if indexValue < 0 || indexValue >= |list.elements| {
        return Err(Raise(IndexError, "The index was outside the bounds of the list."));
      }
      if target.indexExpression.Indexing? {
        var nestedValue :- HandleNestedIndexing(target, list.elements[indexValue], op, newValue, fuel);
        if indexValue >= |list.elements| {
          return Err(Fatal(OutOfBoundsWrite));
        }
        list.elements := list.elements[indexValue := nestedValue];
        return Ok(Int(0));
      }
      r := WriteListElement(list, indexValue, op, newValue);
    }

    /**
     * The slice write on a list held by the interpreter, from a right-hand
     * list that may be the same list.
     */
    method WriteListSlice(list: KList, slice: IH.SliceIndex, rhsList: KList) returns (r: Result<()>)
      requires Valid()
      modifies list
      ensures Valid()
      ensures var spec := IH.SliceWrite(old(list.elements), false, slice, old(rhsList.elements), rhsList == list);
        (r.Ok? <==> spec.Ok?) && (r.Ok? ==> list.elements == spec.value) && (r.Err? ==> r.failure == spec.failure)
    {
      ghost var elements0 := list.elements;
      IH.SliceWriteFrom(elements0, false, slice, rhsList.elements, rhsList == list);
      r := IH.UpdateListSlice(false, list, slice, rhsList);
    }

    /**
     * `h.name op= v` on a hash: a plain assignment adds or overwrites the
     * member; a compound one needs it present (else HashKeyError). On
     * anything that is not a hash nothing is written.
     */
    method VisitMemberAssignment(receiver: Node, memberName: string, op: Op, initializer: Node, fuel: nat)
      returns (r: Result<Value>, ghost operands: Option<(Value, Value, map<string, Value>)>)
      requires Ready() && fuel >= 1
      modifies this, callStack, iset o: object | Shared(o)
      ensures Valid()
      ensures r.Ok? ==> r.value == Int(0)
      ensures r.Ok? || r.failure.Thrown? ==> callStack == old(callStack)
      ensures old(classStack) <= classStack
      ensures operands.None? ==> r.Err?
      ensures operands.Some? && !operands.value.0.HashV? ==> r == Ok(Int(0))
      ensures operands.Some? && operands.value.0.HashV? ==>
        var (target, rhs, entries) := operands.value;
        (op == Assign ==> r == Ok(Int(0)) && target.hash.kvp == entries[memberName := rhs]) &&
        (op != Assign && memberName !in entries ==>
          r == Err(Raise(HashKeyError, memberName)) && target.hash.kvp == entries) &&
        (op != Assign && memberName in entries ==>
          match ext.binaryOp(op, entries[memberName], rhs)
          case Ok(s) => r == Ok(Int(0)) && target.hash.kvp == entries[memberName := FromScalar(s)]
          case Err(f) => r == Err(f) && target.hash.kvp == entries)
      ensures fuel >= 2 && receiver.Literal? && initializer.Literal? ==>
        operands == Some((FromScalar(receiver.value), FromScalar(initializer.value), map[])) && r == Ok(Int(0))
      decreases fuel, 15
    {
      operands := None;
      var value :- Interpret(receiver, fuel - 1);
      var initValue :- Interpret(initializer, fuel - 1);
      operands := Some((value, initValue, if value.HashV? then value.hash.kvp else map[]));
      if value.HashV? {
        r := AssignHashEntry(value.hash, memberName, op, initValue);
        if r.Err? {
          return;
        }
      }
      r := Ok(Int(0));
    }

    // -------------------------------------------------------------------
    // Statement sequences and control flow
    // -------------------------------------------------------------------

    /**
     * Evaluates statements in order in the current frame; the value is the
     * last statement's (the default value for none). With `checkReturn`,
     * the sequence stops after the first statement that leaves the frame's
     * ReturnFlag set.
     */
    method RunStatements(stmts: seq<Node>, checkReturn: bool, fuel: nat) returns (r: Result<Value>)
      requires Ready() && fuel >= 1
      modifies this, callStack, iset o: object | Shared(o)
      ensures Valid()
      ensures r.Ok? || r.failure.Thrown? ==> callStack == old(callStack)
      ensures old(classStack) <= classStack
      ensures |stmts| == 0 ==> r == Ok(DefaultValue) && unchanged(Top())
      ensures fuel >= 2 && !checkReturn && |stmts| > 0 && (forall k :: 0 <= k < |stmts| ==> stmts[k].Literal?) ==>
        r == Ok(FromScalar(stmts[|stmts| - 1].value))
      ensures fuel >= 3 && LeadingThrow(stmts) ==> r == Err(LiteralThrow(stmts[0].errorValue))
      decreases fuel, 9
    {
      var frame := Top();
      var result := DefaultValue;
      var i := 0;
      while i < |stmts|
        invariant 0 <= i <= |stmts|
        invariant fuel >= 3 && LeadingThrow(stmts) ==> i == 0
        invariant Valid() && callStack == old(callStack) && old(classStack) <= classStack
        invariant frame == Top()
        invariant i == 0 ==> result == DefaultValue && unchanged(frame)
        invariant fuel >= 2 && !checkReturn && i > 0 && (forall k :: 0 <= k < |stmts| ==> stmts[k].Literal?) ==>
          result == FromScalar(stmts[i - 1].value)
      {
        result :- Interpret(stmts[i], fuel - 1);
        i := i + 1;
        if checkReturn && frame.IsFlagSet(SF.ReturnFlag) {
          break;
        }
      }
      return Ok(result);
    }

    /**
     * One pass over a loop body. A statement other than `next`/`break`
     * is evaluated and its value becomes the loop's value; with
     * `checkReturn` a set ReturnFlag ends the pass; a `next` or `break`
     * whose guard is absent or truthy ends the pass, a `break` also ends
     * the loop (the returned flag).
     */
    method RunLoopBody(body: seq<Node>, checkReturn: bool, result0: Value, fuel: nat) returns (r: Result<(Value, bool)>)
      requires Ready() && fuel >= 1
      modifies this, callStack, iset o: object | Shared(o)
      ensures Valid()
      ensures r.Ok? || r.failure.Thrown? ==> callStack == old(callStack)
      ensures old(classStack) <= classStack
      ensures r.Ok? && r.value.1 ==> !NoBreak(body)
      ensures r.Ok? && (forall k :: 0 <= k < |body| ==> body[k].IsLoopControl()) ==> r.value.0 == result0
      ensures (!checkReturn || !old(Top().IsFlagSet(SF.ReturnFlag))) && LeadingBreak(body) ==> r == Ok((result0, true))
      ensures fuel >= 2 && Quiet(body) ==> r.Ok? && unchanged(iset o: object | Shared(o) && old(allocated(o)))
      decreases fuel, 9
    {
      var frame := Top();
      var result := result0;
      var i := 0;
      while i < |body|
        invariant 0 <= i <= |body|
        invariant Valid() && callStack == old(callStack) && old(classStack) <= classStack
        invariant frame == Top()
        invariant (forall k :: 0 <= k < |body| ==> body[k].IsLoopControl()) ==> result == result0
        invariant i == 0 ==> result == result0 && frame.flags == old(frame.flags)
        invariant (!checkReturn || !old(Top().IsFlagSet(SF.ReturnFlag))) && LeadingBreak(body) ==> i == 0
        invariant fuel >= 2 && Quiet(body) ==> unchanged(iset o: object | Shared(o) && old(allocated(o)))
      {
        var stmt := body[i];
        if !stmt.IsLoopControl() {
          result :- Interpret(stmt, fuel - 1);
        }
        if checkReturn && frame.IsFlagSet(SF.ReturnFlag) {
          break;
        }
        if stmt.IsLoopControl() {
          var taken := true;
          if stmt.guard.Some? {
            var g :- Interpret(stmt.guard.value, fuel - 1);
            taken := ext.isTruthy(g);
          }
          if taken {
            return Ok((result, stmt.Break?));
          }
        }
        i := i + 1;
      }
      return Ok((result, false));
    }

    /**
     * `if`: the first branch whose condition is truthy runs (the `else`
     * body when none is), stopping at a `return`. Its value is 0.
     */
    method VisitIf(condition: Node, body: seq<Node>, elseifs: seq<(Node, seq<Node>)>, elseBody: seq<Node>, fuel: nat)
      returns (r: Result<Value>)
      requires Ready() && fuel >= 1
      modifies this, callStack, iset o: object | Shared(o)
      ensures Valid()
      ensures r.Ok? ==> r.value == Int(0)
      ensures r.Ok? || r.failure.Thrown? ==> callStack == old(callStack)
      ensures old(classStack) <= classStack
      ensures fuel >= 2 && condition.Literal? && ext.isTruthy(FromScalar(condition.value)) && |body| == 0 ==>
        r == Ok(Int(0))
      ensures fuel >= 2 && condition.Literal? && !ext.isTruthy(FromScalar(condition.value)) &&
              |elseifs| == 0 && |elseBody| == 0 ==>
        r == Ok(Int(0))
      decreases fuel, 15
    {
      var conditionValue :- Interpret(condition, fuel - 1);
      if ext.isTruthy(conditionValue) {
        var done :- RunStatements(body, true, fuel);
        return Ok(Int(0));
      }
      var i := 0;
      while i < |elseifs|
        invariant 0 <= i <= |elseifs|
        invariant Valid() && callStack == old(callStack) && old(classStack) <= classStack
      {
        var elseifValue :- Interpret(elseifs[i].0, fuel - 1);
        if ext.isTruthy(elseifValue) {
          var done :- RunStatements(elseifs[i].1, true, fuel);
          return Ok(Int(0));
        }
        i := i + 1;
      }
      if |elseBody| > 0 {
        var done :- RunStatements(elseBody, true, fuel);
      }
      return Ok(Int(0));
    }

    /**
     * `case`: the body of the first `when` whose value equals the test
     * value runs, else the `else` body; a `return` does not stop either.
     */
    method VisitCase(testValue: Node, whens: seq<(Node, seq<Node>)>, elseBody: seq<Node>, fuel: nat)
      returns (r: Result<Value>)
      requires Ready() && fuel >= 1
      modifies this, callStack, iset o: object | Shared(o)
      ensures Valid()
      ensures r.Ok? ==> r.value == Int(0)
      ensures r.Ok? || r.failure.Thrown? ==> callStack == old(callStack)
      ensures old(classStack) <= classStack
      ensures fuel >= 2 && testValue.Literal? && |whens| == 0 && |elseBody| == 0 ==> r == Ok(Int(0))
      decreases fuel, 15
    {
      var test :- Interpret(testValue, fuel - 1);
      var i := 0;
      while i < |whens|
        invariant 0 <= i <= |whens|
        invariant Valid() && callStack == old(callStack) && old(classStack) <= classStack
      {
        var whenValue :- Interpret(whens[i].0, fuel - 1);
        if ext.equals(test, whenValue) {
          var done :- RunStatements(whens[i].1, false, fuel);
          return Ok(Int(0));
        }
        i := i + 1;
      }
      if |elseBody| > 0 {
        var done :- RunStatements(elseBody, false, fuel);
      }
      return Ok(Int(0));
    }

    /**
     * `for v[, i] in data`: a list or a hash; anything else is an
     * InvalidOperationError. `bound` is the list loop's sequence of
     * (index, element) bindings; it is empty for a hash, whose key order
     * `HashLoop` states.
     */
    method VisitForLoop(dataSet: Node, valueIterator: string, indexIterator: Option<string>, body: seq<Node>, fuel: nat)
      returns (r: Result<Value>, ghost bound: seq<(Value, Value)>)
      requires Ready() && fuel >= 1
      modifies this, callStack, iset o: object | Shared(o)
      ensures Valid()
      ensures r.Ok? || r.failure.Thrown? ==> callStack == old(callStack)
      ensures old(classStack) <= classStack
      ensures r.Ok? ==> valueIterator !in Top().variables &&
                        (indexIterator.Some? ==> indexIterator.value !in Top().variables)
      ensures fuel >= 2 && dataSet.Literal? ==>
        r == Err(Raise(InvalidOperationError, "Expected a list value in for-loop."))
      ensures fuel >= 3 && dataSet.ListLiteral? && AllLiteral(dataSet.elements) && Quiet(body) && NoBreak(body) ==>
        (r.Ok? <==> |dataSet.elements| <= fuel) && (r.Ok? ==> bound == Enumerated(Scalars(dataSet.elements)))
      decreases fuel, 15
    {
      bound := [];
      var data :- Interpret(dataSet, fuel - 1);
      if data.ListV? {
        ghost var seen;
        r, bound, seen := ListLoop(data.list, valueIterator, indexIterator, body, fuel);
      } else if data.HashV? {
        ghost var visited;
        r, visited := HashLoop(data.hash, valueIterator, indexIterator, body, fuel);
      } else {
        r := Err(Raise(InvalidOperationError, "Expected a list value in for-loop."));
      }
    }

    /**
     * The list loop: element i is bound to the value iterator (and i to the
     * index iterator) while i is below the list's current length, which
     * the body may change; a `break` ends the loop. Both names are erased
     * afterwards. The model stops with OutOfFuel after `fuel` rounds.
     * Round k is recorded in `bound` as (k, element k) and the list's
     * contents at that moment in `seen`.
     */
    method ListLoop(list: KList, valueIterator: string, indexIterator: Option<string>, body: seq<Node>, fuel: nat)
      returns (r: Result<Value>, ghost bound: seq<(Value, Value)>, ghost seen: seq<seq<Value>>)
      requires Ready() && fuel >= 1
      modifies this, callStack, iset o: object | Shared(o)
      ensures Valid()
      ensures r.Ok? || r.failure.Thrown? ==> callStack == old(callStack)
      ensures old(classStack) <= classStack
      ensures r.Ok? ==> valueIterator !in Top().variables &&
                        (indexIterator.Some? ==> indexIterator.value !in Top().variables)
      ensures old(list.elements) == [] ==> r.Ok? && r.value == DefaultValue && bound == []
      ensures |seen| == |bound| && |bound| <= fuel
      ensures forall k :: 0 <= k < |bound| ==> k < |seen[k]| && bound[k] == (Int(k), seen[k][k])
      ensures |bound| > 0 ==> seen[0] == old(list.elements)
      ensures r.Ok? && NoBreak(body) ==> |bound| >= |list.elements|
      ensures fuel >= 2 && Quiet(body) ==> list.elements == old(list.elements)
      ensures fuel >= 2 && Quiet(body) && NoBreak(body) ==>
        (r.Ok? <==> |old(list.elements)| <= fuel) && (r.Ok? ==> bound == Enumerated(old(list.elements)))
      ensures LeadingBreak(body) && !old(Top().IsFlagSet(SF.ReturnFlag)) && old(list.elements) != [] ==>
        r == Ok(DefaultValue) && bound == [(Int(0), old(list.elements)[0])]
      decreases fuel, 10
    {
      bound, seen := [], [];
      var frame := Top();
      var result := DefaultValue;
      var i := 0;
      var fallOut := false;
      while i < |list.elements| && !fallOut
        invariant 0 <= i <= fuel
        invariant Valid() && callStack == old(callStack) && old(classStack) <= classStack
        invariant frame == Top()
        invariant i == 0 ==> list.elements == old(list.elements) && result == DefaultValue && !fallOut
        invariant i == 0 ==> frame.flags == old(frame.flags)
        invariant old(list.elements) == [] ==> i == 0
        invariant |bound| == i && |seen| == i
        invariant forall k :: 0 <= k < i ==> k < |seen[k]| && bound[k] == (Int(k), seen[k][k])
        invariant i > 0 ==> seen[0] == old(list.elements)
        invariant NoBreak(body) ==> !fallOut
        invariant fuel >= 2 && Quiet(body) ==>
          list.elements == old(list.elements) && forall k :: 0 <= k < i ==> seen[k] == old(list.elements)
        invariant fuel >= 2 && Quiet(body) && NoBreak(body) ==> i <= |list.elements|
        invariant LeadingBreak(body) && !old(Top().IsFlagSet(SF.ReturnFlag)) && old(list.elements) != [] ==>
          i == 0 || (i == 1 && fallOut && result == DefaultValue)
        decreases fuel - i
      {
        if i >= fuel {
          r := Err(OutOfFuel);
          return;
        }
        bound := bound + [(Int(i), list.elements[i])];
        seen := seen + [list.elements];
        BindIterators(frame, valueIterator, list.elements[i], indexIterator, Int(i));
        var step :- RunLoopBody(body, true, result, fuel);
        result := step.0;
        fallOut := step.1;
        i := i + 1;
      }
      EraseIterators(frame, valueIterator, indexIterator);
      assert i == 1 ==> bound == [bound[0]];
      r := Ok(result);
    }

    /**
     * The hash loop: each key, in insertion order, is bound as a string to
     * the value iterator and the key's current value to the index
     * iterator; a `break` ends the loop. Both names are erased afterwards.
     * The keys bound so far are `visited`.
     */
    method HashLoop(hash: KHash, valueIterator: string, indexIterator: Option<string>, body: seq<Node>, fuel: nat)
      returns (r: Result<Value>, ghost visited: seq<string>)
      requires Ready() && fuel >= 1
      modifies this, callStack, iset o: object | Shared(o)
      ensures Valid()
      ensures r.Ok? || r.failure.Thrown? ==> callStack == old(callStack)
      ensures old(classStack) <= classStack
      ensures r.Ok? ==> valueIterator !in Top().variables &&
                        (indexIterator.Some? ==> indexIterator.value !in Top().variables)
      ensures old(hash.keys) == [] ==> r.Ok? && r.value == DefaultValue
      ensures visited <= old(hash.keys)
      ensures r.Ok? && NoBreak(body) ==> visited == old(hash.keys)
      ensures fuel >= 2 && Quiet(body) && NoBreak(body) && (indexIterator.None? || old(hash.Valid())) ==>
        r.Ok? && visited == old(hash.keys)
      ensures LeadingBreak(body) && !old(Top().IsFlagSet(SF.ReturnFlag)) && old(hash.keys) != [] &&
              (indexIterator.None? || old(hash.keys[0]) in old(hash.kvp)) ==>
        r == Ok(DefaultValue) && visited == old(hash.keys)[..1]
      decreases fuel, 10
    {
      visited := [];
      var frame := Top();
      var keys := hash.keys;
      var result := DefaultValue;
      var i := 0;
      var fallOut := false;
      while i < |keys| && !fallOut
        invariant 0 <= i <= |keys|
        invariant Valid() && callStack == old(callStack) && old(classStack) <= classStack
        invariant frame == Top()
        invariant i == 0 ==> result == DefaultValue && !fallOut
        invariant i == 0 ==> frame.flags == old(frame.flags) && hash.kvp == old(hash.kvp)
        invariant visited == keys[..i]
        invariant NoBreak(body) ==> !fallOut
        invariant fuel >= 2 && Quiet(body) ==> hash.keys == old(hash.keys) && hash.kvp == old(hash.kvp)
        invariant LeadingBreak(body) && !old(Top().IsFlagSet(SF.ReturnFlag)) && old(hash.keys) != [] &&
                  (indexIterator.None? || old(hash.keys[0]) in old(hash.kvp)) ==>
          i == 0 || (i == 1 && fallOut && result == DefaultValue)
      {
        var key := keys[i];
        SetVariable(frame, valueIterator, Str(key));
        if indexIterator.Some? {
          if key !in hash.kvp {
            r := Err(Fatal(OutOfRangeAccess));
            return;
          }
          SetVariable(frame, indexIterator.value, hash.kvp[key]);
        }
        var step :- RunLoopBody(body, true, result, fuel);
        result := step.0;
        fallOut := step.1;
        assert keys[..i + 1] == keys[..i] + [key];
        visited := visited + [key];
        i := i + 1;
      }
      EraseIterators(frame, valueIterator, indexIterator);
      assert !fallOut ==> keys[..i] == keys;
      assert i == 1 ==> visited == keys[..1];
      r := Ok(result);
    }

    /**
     * `while`: the body runs while the condition is truthy; a `break`
     * ends the loop, a `return` does not. The value is the last evaluated
     * body statement's. The model stops with OutOfFuel after `fuel` rounds.
     */
    method VisitWhileLoop(condition: Node, body: seq<Node>, fuel: nat) returns (r: Result<Value>)
      requires Ready() && fuel >= 1
      modifies this, callStack, iset o: object | Shared(o)
      ensures Valid()
      ensures r.Ok? || r.failure.Thrown? ==> callStack == old(callStack)
      ensures old(classStack) <= classStack
      ensures fuel >= 2 && condition.Literal? && !ext.isTruthy(FromScalar(condition.value)) ==> r == Ok(DefaultValue)
      ensures (fuel >= 2 && condition.Literal? && ext.isTruthy(FromScalar(condition.value)) &&
               |body| > 0 && body[0].Break? && body[0].guard.None?) ==> r == Ok(DefaultValue)
      decreases fuel, 15
    {
      var result := DefaultValue;
      var rounds := 0;
      while true
        invariant 0 <= rounds <= fuel
        invariant Valid() && callStack == old(callStack) && old(classStack) <= classStack
        invariant rounds == 0 ==> result == DefaultValue
        invariant fuel >= 2 && condition.Literal? &&
                  (!ext.isTruthy(FromScalar(condition.value)) || (|body| > 0 && body[0].Break? && body[0].guard.None?)) ==>
          rounds == 0
        decreases fuel - rounds
      {
        if rounds >= fuel {
          return Err(OutOfFuel);
        }
        var conditionValue :- Interpret(condition, fuel - 1);
        if !ext.isTruthy(conditionValue) {
          return Ok(result);
        }
        var step :- RunLoopBody(body, false, result, fuel);
        result := step.0;
        if step.1 {
          return Ok(result);
        }
        rounds := rounds + 1;
      }
    }

    /**
     * `repeat n [as i]`: n must be an integer; the body runs for i = 1 to
     * n (not at all when n < 1), with i bound to the alias, until a
     * `break`; the alias is erased afterwards. `n` is the evaluated count
     * and `counts` the values i took, in order.
     */
    method VisitRepeatLoop(count: Node, alias: Option<string>, body: seq<Node>, fuel: nat)
      returns (r: Result<Value>, ghost n: int, ghost counts: seq<int>)
      requires Ready() && fuel >= 1
      modifies this, callStack, iset o: object | Shared(o)
      ensures Valid()
      ensures r.Ok? || r.failure.Thrown? ==> callStack == old(callStack)
      ensures old(classStack) <= classStack
      ensures r.Ok? && alias.Some? ==> alias.value !in Top().variables
      ensures fuel >= 2 && count.Literal? && !count.value.SInt? ==>
        r == Err(Raise(InvalidOperationError, "Repeat loop count must be an integer."))
      ensures fuel >= 2 && count.Literal? && count.value.SInt? && count.value.i < 1 ==> r == Ok(DefaultValue)
      ensures fuel >= 2 && count.Literal? && count.value.SInt? ==> n == count.value.i
      ensures forall k :: 0 <= k < |counts| ==> counts[k] == k + 1
      ensures |counts| <= (if n < 1 then 0 else n)
      ensures r.Ok? && NoBreak(body) ==> |counts| == (if n < 1 then 0 else n)
      ensures fuel >= 2 && count.Literal? && count.value.SInt? && Quiet(body) ==> r.Ok?
      ensures fuel >= 2 && count.Literal? && count.value.SInt? && count.value.i >= 1 && LeadingBreak(body) ==>
        r == Ok(DefaultValue) && counts == [1]
      decreases fuel, 15
    {
      n, counts := 0, [];
      var countValue :- Interpret(count, fuel - 1);
      if !countValue.Int? {
        r := Err(Raise(InvalidOperationError, "Repeat loop count must be an integer."));
        return;
      }
      n := countValue.i;
      var frame := Top();
      var result := DefaultValue;
      var i := 1;
      var fallOut := false;
      while i <= countValue.i && !fallOut
        invariant Valid() && callStack == old(callStack) && old(classStack) <= classStack
        invariant frame == Top()
        invariant 1 <= i && (n < 1 ==> i == 1) && (n >= 1 ==> i <= n + 1)
        invariant i == 1 ==> result == DefaultValue && !fallOut
        invariant |counts| == i - 1 && forall k :: 0 <= k < |counts| ==> counts[k] == k + 1
        invariant NoBreak(body) ==> !fallOut
        invariant fuel >= 2 && count.Literal? && count.value.SInt? && count.value.i >= 1 && LeadingBreak(body) ==>
          i == 1 || (i == 2 && fallOut && result == DefaultValue)
        decreases n - i + 1
      {
        if alias.Some? {
          SetVariable(frame, alias.value, Int(i));
        }
        counts := counts + [i];
        var step :- RunLoopBody(body, false, result, fuel);
        result := step.0;
        fallOut := step.1;
        i := i + 1;
      }
      if alias.Some? && alias.value in frame.variables {
        EraseVariable(frame, alias.value);
      }
      r := Ok(result);
    }

    /**
     * `try`: a catchable error in the try body runs the catch body (if
     * there is one) with the error's type and message bound; the finally
     * body then runs. Crashes are not caught. An error can only leave
     * through the catch or finally body; an error the catch body raises
     * skips the finally body.
     */
    method VisitTry(tryBody: seq<Node>, errorType: Option<string>, errorMessage: Option<string>,
                    catchBody: seq<Node>, finallyBody: seq<Node>, fuel: nat)
      returns (r: Result<Value>, ghost caught: Option<(KiwiError, map<string, Value>)>)
      requires Ready() && fuel >= 1
      modifies this, callStack, iset o: object | Shared(o)
      ensures Valid()
      ensures r.Ok? ==> r.value == Int(0)
      ensures caught.Some? ==> |catchBody| > 0 && CatchBinds(caught.value.1, caught.value.0, errorType, errorMessage)
      ensures |catchBody| == 0 ==> caught.None?
      ensures fuel >= 2 && AllLiteral(tryBody) ==> caught.None?
      ensures fuel >= 3 && LeadingThrow(tryBody) && |catchBody| > 0 ==>
        caught.Some? && Thrown(caught.value.0) == LiteralThrow(tryBody[0].errorValue)
      ensures r.Ok? || r.failure.Thrown? ==> callStack == old(callStack)
      ensures old(classStack) <= classStack
      ensures r.Err? && r.failure.Thrown? ==> |catchBody| > 0 || |finallyBody| > 0
      ensures fuel >= 3 && (AllLiteral(tryBody) || LeadingThrow(tryBody)) && AllLiteral(catchBody) &&
              AllLiteral(finallyBody) ==>
        r == Ok(Int(0))
      ensures fuel >= 3 && (AllLiteral(tryBody) || LeadingThrow(tryBody)) && AllLiteral(catchBody) &&
              LeadingThrow(finallyBody) ==>
        r == Err(LiteralThrow(finallyBody[0].errorValue))
      ensures fuel >= 3 && LeadingThrow(tryBody) && LeadingThrow(catchBody) ==>
        r == Err(LiteralThrow(catchBody[0].errorValue))
      decreases fuel, 15
    {
      caught := None;
      var t := RunStatements(tryBody, false, fuel);
      if t.Err? {
        if !t.failure.Thrown? {
          r := Err(t.failure);
          return;
        }
        if |catchBody| > 0 {
          var c, scope := CatchClause(t.failure.error, errorType, errorMessage, catchBody, fuel);
          caught := Some((t.failure.error, scope));
          if c.Err? {
            r := Err(c.failure);
            return;
          }
        }
      }
      if |finallyBody| > 0 {
        var done :- RunStatements(finallyBody, false, fuel);
      }
      r := Ok(Int(0));
    }

    /** Binds the caught error's type name, then its message, in the frame. */
    method BindCatchNames(frame: SF.CallStackFrame, e: KiwiError, errorType: Option<string>, errorMessage: Option<string>)
      requires Valid() && frame in callStack
      modifies frame
      ensures Valid()
      ensures CatchBinds(frame.variables, e, errorType, errorMessage)
      ensures frame.variables.Keys == old(frame.variables).Keys + CatchNames(errorType, errorMessage)
      ensures forall k :: k in old(frame.variables) && k !in CatchNames(errorType, errorMessage) ==>
        frame.variables[k] == old(frame.variables)[k]
      ensures frame.flags == old(frame.flags) && frame.returnValue == old(frame.returnValue)
      ensures frame.objectContext == old(frame.objectContext)
    {
      if errorType.Some? {
        SetVariable(frame, errorType.value, Str(ErrorTypeName(e.kind)));
      }
      if errorMessage.Some? {
        SetVariable(frame, errorMessage.value, Str(e.detail));
      }
    }

    /**
     * The catch body, with the error's type name and message bound for its
     * duration. The ghost `scope` is the frame's variables as the body
     * starts: the two names bound, every other name as it was.
     */
    method CatchClause(e: KiwiError, errorType: Option<string>, errorMessage: Option<string>, catchBody: seq<Node>,
                       fuel: nat) returns (r: Result<Value>, ghost scope: map<string, Value>)
      requires Ready() && fuel >= 1
      modifies this, callStack, iset o: object | Shared(o)
      ensures Valid()
      ensures CatchBinds(scope, e, errorType, errorMessage)
      ensures scope.Keys == old(Top().variables).Keys + CatchNames(errorType, errorMessage)
      ensures forall k :: k in old(Top().variables) && k !in CatchNames(errorType, errorMessage) ==>
        scope[k] == old(Top().variables)[k]
      ensures r.Ok? ==> r.value == Int(0)
      ensures r.Ok? || r.failure.Thrown? ==> callStack == old(callStack)
      ensures old(classStack) <= classStack
      ensures r.Ok? && errorMessage.Some? ==> errorMessage.value !in Top().variables
      ensures r.Ok? && errorType.Some? && (errorMessage.Some? ==> errorType.value != errorMessage.value) ==>
        errorType.value !in Top().variables
      ensures fuel >= 2 && AllLiteral(catchBody) ==> r == Ok(Int(0))
      ensures fuel >= 3 && LeadingThrow(catchBody) ==> r == Err(LiteralThrow(catchBody[0].errorValue))
      decreases fuel, 10
    {
      var frame := Top();
      BindCatchNames(frame, e, errorType, errorMessage);
      scope := frame.variables;
      var done :- RunStatements(catchBody, false, fuel);
      if errorType.Some? {
        EraseVariable(frame, errorType.value);
      }
      if errorMessage.Some? {
        EraseVariable(frame, errorMessage.value);
      }
      r := Ok(Int(0));
    }

    /**
     * `return [v] [when c]`: the value (0 if absent) is recorded in the
     * current frame, with its ReturnFlag, when there is no guard or the
     * guard is truthy; it is the statement's value either way.
     */
    method VisitReturn(returnValue: Option<Node>, guard: Option<Node>, fuel: nat) returns (r: Result<Value>)
      requires Ready() && fuel >= 1
      modifies this, callStack, iset o: object | Shared(o)
      ensures Valid()
      ensures r.Ok? || r.failure.Thrown? ==> callStack == old(callStack)
      ensures old(classStack) <= classStack
      ensures r.Ok? && guard.None? ==> Top().IsFlagSet(SF.ReturnFlag) && Top().returnValue == r.value
      ensures fuel >= 2 && returnValue.None? && guard.None? ==> r == Ok(Int(0))
      ensures fuel >= 2 && returnValue.Some? && returnValue.value.Literal? && guard.None? ==>
        r == Ok(FromScalar(returnValue.value.value))
      ensures fuel >= 2 && returnValue.Some? && returnValue.value.Literal? && guard.Some? && guard.value.Literal? ==>
        r == Ok(FromScalar(returnValue.value.value))
      decreases fuel, 15
    {
      var frame := Top();
      var value := Int(0);
      if returnValue.Some? {
        value :- Interpret(returnValue.value, fuel - 1);
      }
      var taken := true;
      if guard.Some? {
        var g :- Interpret(guard.value, fuel - 1);
        taken := ext.isTruthy(g);
      }
      if taken {
        SetReturn(frame, value);
      }
      return Ok(value);
    }

    /**
     * `throw [v] [when c]`: raises a catchable error whose type is the
     * string under "error" of a hash value (else "KiwiError") and whose
     * message is the string under "message", or the value itself if it
     * is a string (else empty). With a falsy guard nothing is raised.
     */
    method VisitThrow(errorValue: Option<Node>, guard: Option<Node>, fuel: nat)
      returns (r: Result<Value>, ghost thrown: Option<(Value, map<string, Value>)>)
      requires Ready() && fuel >= 1
      modifies this, callStack, iset o: object | Shared(o)
      ensures Valid()
      ensures r.Ok? ==> r.value == Int(0) && guard.Some?
      ensures thrown.Some? ==> errorValue.Some?
      ensures errorValue.Some? && thrown.None? ==> r.Err?
      ensures guard.None? && (errorValue.None? || thrown.Some?) ==> r == Err(ThrownError(thrown))
      ensures guard.None? && thrown.Some? && thrown.value.0.HashV? ==> thrown.value.1 == thrown.value.0.hash.kvp
      ensures fuel >= 2 && guard.Some? && guard.value.Literal? && (errorValue.None? || thrown.Some?) ==>
        r == if ext.isTruthy(FromScalar(guard.value.value)) then Err(ThrownError(thrown)) else Ok(Int(0))
      ensures fuel >= 2 && errorValue.Some? && errorValue.value.Literal? ==>
        thrown == Some((FromScalar(errorValue.value.value), map[]))
      ensures r.Ok? || r.failure.Thrown? ==> callStack == old(callStack)
      ensures old(classStack) <= classStack
      ensures fuel >= 2 && errorValue.None? && guard.None? ==> r == Err(Raise(UserError("KiwiError"), ""))
      ensures fuel >= 2 && errorValue.Some? && errorValue.value.Literal? && guard.None? ==>
        r == Err(Raise(UserError("KiwiError"),
                       if errorValue.value.value.SStr? then errorValue.value.value.s else ""))
      decreases fuel, 15
    {
      thrown := None;
      var errorType := "KiwiError";
      var errorMessage := "";
      if errorValue.Some? {
        var value :- Interpret(errorValue.value, fuel - 1);
        thrown := Some((value, if value.HashV? then value.hash.kvp else map[]));
        if value.HashV? {
          var kvp := value.hash.kvp;
          if "error" in kvp && kvp["error"].Str? {
            errorType := kvp["error"].s;
          }
          if "message" in kvp && kvp["message"].Str? {
            errorMessage := kvp["message"].s;
          }
        } else if value.Str? {
          errorMessage := value.s;
        }
      }
      var taken := true;
      if guard.Some? {
        var g :- Interpret(guard.value, fuel - 1);
        taken := ext.isTruthy(g);
      }
      if taken {
        r := Err(Raise(UserError(errorType), errorMessage));
        return;
      }
      r := Ok(Int(0));
    }

    // -------------------------------------------------------------------
    // Declarations
    // -------------------------------------------------------------------

    /**
     * A function value from its declaration: each parameter's default
     * expression is evaluated now, in order, and the parameter is marked as
     * having a default; a parameter without one holds 0.
     */
    method CreateFunction(name: string, parameters: seq<Param>, body: seq<Node>, isPrivate: bool, isStatic: bool,
                          fuel: nat) returns (r: Result<KFunction>)
      requires Ready() && fuel >= 1
      modifies this, callStack, iset o: object | Shared(o)
      ensures Valid()
      ensures r.Ok? || r.failure.Thrown? ==> callStack == old(callStack)
      ensures old(classStack) <= classStack
      ensures r.Ok? ==> r.value.name == name && r.value.body == body &&
                        r.value.isPrivate == isPrivate && r.value.isStatic == isStatic
      ensures r.Ok? ==> |r.value.parameters| == |parameters|
      ensures r.Ok? ==> forall i :: 0 <= i < |parameters| ==>
        r.value.parameters[i].0 == parameters[i].name &&
        (parameters[i].defaultValue.Some? ==> parameters[i].name in r.value.defaultParameters) &&
        (parameters[i].defaultValue.None? ==> r.value.parameters[i].1 == Int(0))
      ensures r.Ok? ==> forall n :: n in r.value.defaultParameters ==>
        exists i :: 0 <= i < |parameters| && parameters[i].name == n && parameters[i].defaultValue.Some?
      ensures (forall i :: 0 <= i < |parameters| ==> parameters[i].defaultValue.None?) ==>
        r.Ok? && r.value.defaultParameters == {} &&
        functions == old(functions) && methods == old(methods) && classStack == old(classStack)
      decreases fuel, 9
    {
      var params: seq<(string, Value)> := [];
      var defaults: set<string> := {};
      var i := 0;
      while i < |parameters|
        invariant 0 <= i <= |parameters| && |params| == i
        invariant Valid() && callStack == old(callStack) && old(classStack) <= classStack
        invariant forall k :: 0 <= k < i ==>
          params[k].0 == parameters[k].name &&
          (parameters[k].defaultValue.Some? ==> parameters[k].name in defaults) &&
          (parameters[k].defaultValue.None? ==> params[k].1 == Int(0))
        invariant forall n :: n in defaults ==>
          exists k :: 0 <= k < i && parameters[k].name == n && parameters[k].defaultValue.Some?
        invariant (forall i :: 0 <= i < |parameters| ==> parameters[i].defaultValue.None?) ==>
          defaults == {} && functions == old(functions) && methods == old(methods) && classStack == old(classStack)
      {
        var param := parameters[i];
        var value := Int(0);
        if param.defaultValue.Some? {
          value :- Interpret(param.defaultValue.value, fuel - 1);
          defaults := defaults + {param.name};
        }
        params := params + [(param.name, value)];
        i := i + 1;
      }
      return Ok(KFunction(name, params, defaults, body, isPrivate, isStatic));
    }

    /**
     * `lambda`: a fresh id "temporary_<n>" (n the interpreter's lambda
     * counter), registered both as a lambda and as its own alias.
     */
    method VisitLambda(parameters: seq<Param>, body: seq<Node>, fuel: nat) returns (r: Result<Value>)
      requires Ready() && fuel >= 1
      modifies this, callStack, iset o: object | Shared(o)
      ensures Valid()
      ensures r.Ok? || r.failure.Thrown? ==> callStack == old(callStack)
      ensures old(classStack) <= classStack
      ensures r.Ok? ==> r.value == LambdaV("temporary_" + NatToString(old(nextLambdaId)))
      ensures r.Ok? ==>
        var id := r.value.lambdaId;
        id in lambdas && lambdas[id].Some? && lambdas[id].value.body == body &&
        |lambdas[id].value.parameters| == |parameters| && id in lambdaTable && lambdaTable[id] == id
      decreases fuel, 15
    {
      var tmpId := "temporary_" + NatToString(nextLambdaId);
      nextLambdaId := nextLambdaId + 1;
      var lambda :- CreateFunction(tmpId, parameters, body, false, false, fuel);
      lambdas := lambdas[tmpId := Some(lambda)];
      lambdaTable := lambdaTable[tmpId := tmpId];
      return Ok(LambdaV(tmpId));
    }

    /** A declaration is stored as a method while a class is being declared, else as a function. */
    method VisitFunctionDeclaration(decl: FunctionDecl, fuel: nat) returns (r: Result<Value>)
      requires Ready() && fuel >= 1
      modifies this, callStack, iset o: object | Shared(o)
      ensures Valid()
      ensures r.Ok? ==> r.value == Int(0)
      ensures r.Ok? || r.failure.Thrown? ==> callStack == old(callStack)
      ensures old(classStack) <= classStack
      ensures r.Ok? && |classStack| > 0 ==>
        decl.name in methods && methods[decl.name].name == decl.name && methods[decl.name].body == decl.body
      ensures r.Ok? && |classStack| == 0 ==>
        decl.name in functions && functions[decl.name].name == decl.name && functions[decl.name].body == decl.body
      ensures r.Ok? && (forall i :: 0 <= i < |decl.parameters| ==> decl.parameters[i].defaultValue.None?) ==>
        (|classStack| > 0 ==> functions == old(functions) && methods == old(methods)[decl.name := methods[decl.name]]) &&
        (|classStack| == 0 ==> methods == old(methods) && functions == old(functions)[decl.name := functions[decl.name]])
      decreases fuel, 14
    {
      var declared :- CreateFunction(decl.name, decl.parameters, decl.body, decl.isPrivate, decl.isStatic, fuel);
      if |classStack| > 0 {
        methods := methods[decl.name := declared];
      } else {
        functions := functions[decl.name := declared];
      }
      return Ok(Int(0));
    }

    /**
     * `class`: an unregistered base class is a ClassUndefinedError. Each
     * method is declared with the class on the class stack and moved into
     * the class, the constructor under `new`; the class is then registered
     * and the pending methods cleared.
     */
    method VisitClass(name: string, baseClass: string, classMethods: seq<FunctionDecl>, fuel: nat)
      returns (r: Result<Value>)
      requires Ready() && fuel >= 1
      modifies this, callStack, iset o: object | Shared(o)
      ensures Valid()
      ensures r.Ok? ==> r.value == Int(0)
      ensures r.Ok? || r.failure.Thrown? ==> callStack == old(callStack)
      ensures old(classStack) <= classStack
      ensures baseClass != "" && baseClass !in old(classes) ==> r == Err(Raise(ClassUndefinedError, baseClass))
      ensures r.Ok? ==> name in classes && classes[name].name == name && classes[name].baseClass == baseClass
      ensures r.Ok? ==> forall m :: m in classes[name].methods <==>
        exists j :: 0 <= j < |classMethods| && m == MethodKey(classMethods[j].name)
      ensures r.Ok? ==> forall m :: m in classes[name].methods ==> classes[name].methods[m].Some?
      ensures r.Ok? ==> methods == map[]
      decreases fuel, 15
    {
      if baseClass != "" && baseClass !in classes {
        return Err(Raise(ClassUndefinedError, baseClass));
      }
      classStack := classStack + [name];
      var clazzMethods: map<string, Option<KFunction>> := map[];
      var i := 0;
      while i < |classMethods|
        invariant 0 <= i <= |classMethods|
        invariant Valid() && callStack == old(callStack) && old(classStack) + [name] <= classStack
        invariant forall m :: m in clazzMethods ==> clazzMethods[m].Some?
        invariant forall m :: m in clazzMethods <==> exists j :: 0 <= j < i && m == MethodKey(classMethods[j].name)
      {
        var methodName := classMethods[i].name;
        var done :- VisitFunctionDeclaration(classMethods[i], fuel);
        assert methodName in methods;
        var moved := methods[methodName];
        clazzMethods := clazzMethods[MethodKey(methodName) := Some(moved)];
        i := i + 1;
      }
      classes := classes[name := KClass(name, baseClass, clazzMethods)];
      classStack := classStack[..|classStack| - 1];
      methods := map[];
      return Ok(Int(0));
    }

    // -------------------------------------------------------------------
    // Calls
    // -------------------------------------------------------------------

    /** Arguments evaluated left to right. */
    method EvalArguments(arguments: seq<Node>, fuel: nat) returns (r: Result<seq<Value>>)
      requires Ready() && fuel >= 1
      modifies this, callStack, iset o: object | Shared(o)
      ensures Valid()
      ensures r.Ok? ==> |r.value| == |arguments|
      ensures r.Ok? || r.failure.Thrown? ==> callStack == old(callStack)
      ensures old(classStack) <= classStack
      ensures fuel >= 2 && (forall i :: 0 <= i < |arguments| ==> arguments[i].Literal?) ==>
        r.Ok? && forall i :: 0 <= i < |arguments| ==> r.value[i] == FromScalar(arguments[i].value)
      decreases fuel, 9
    {
      var values: seq<Value> := [];
      var i := 0;
      while i < |arguments|
        invariant 0 <= i <= |arguments| && |values| == i
        invariant Valid() && callStack == old(callStack) && old(classStack) <= classStack
        invariant fuel >= 2 && (forall j :: 0 <= j < |arguments| ==> arguments[j].Literal?) ==>
          forall j :: 0 <= j < i ==> values[j] == FromScalar(arguments[j].value)
      {
        var v :- Interpret(arguments[i], fuel - 1);
        values := values + [v];
        i := i + 1;
      }
      return Ok(values);
    }

    /**
     * A call by name. A builtin gets its evaluated arguments. Otherwise
     * the callee is the declared function, the named (or aliased) lambda,
     * or the method of the current object's class, and runs in a new
     * frame. A catchable error raised before that frame is pushed leaves
     * the call stack as it was.
     */
    method VisitFunctionCall(functionName: string, arguments: seq<Node>, fuel: nat) returns (r: Result<Value>)
      requires Ready() && fuel >= 1
      modifies this, callStack, iset o: object | Shared(o)
      ensures Valid()
      ensures r.Ok? || r.failure.Thrown? ==> callStack == old(callStack)
      ensures old(classStack) <= classStack
      ensures functionName !in old(functions) && functionName !in old(lambdas) && !ext.isBuiltin(functionName) &&
              functionName !in old(lambdaTable) && !old(Top().InObjectContext()) ==>
        r == Err(Raise(FunctionUndefinedError, functionName))
      ensures functionName in old(functions) && |old(functions)[functionName].parameters| > |arguments| &&
              old(functions)[functionName].parameters[|arguments|].0 !in old(functions)[functionName].defaultParameters &&
              fuel >= 2 && (forall i :: 0 <= i < |arguments| ==> arguments[i].Literal?) ==>
        r == Err(Raise(ParameterCountMismatchError, functionName)) && callStack == old(callStack)
      decreases fuel, 15
    {
      var frame := Top();
      assert Coherent(frame);
      var context: Option<Option<set<string>>> := None;
      if frame.InObjectContext() {
        var className := frame.objectContext.value.className;
        context := Some(if className in classes then Some(classes[className].methods.Keys) else None);
      }
      var callable :- ResolveCallable(functionName, functions.Keys, lambdas.Keys, ext.isBuiltin(functionName),
                                      lambdaTable.Keys, context);
      if callable == BuiltinCallable {
        var args :- EvalArguments(arguments, fuel);
        var s :- ext.callBuiltin(functionName, args);
        return Ok(FromScalar(s));
      }
      var fn: KFunction;
      var errName := functionName;
      if callable == MethodCallable {
        // Only resolved inside an object whose class is registered and has the method.
        var className := frame.objectContext.value.className;
        var entry := classes[className].methods[functionName];
        if entry.None? {
          return Err(Fatal(NullDereference));
        }
        fn := entry.value;
      } else if callable == FunctionCallable {
        fn := functions[functionName];
      } else {
        var target := functionName;
        if target !in lambdas && target in lambdaTable {
          target := lambdaTable[target];
        }
        if target !in lambdas || lambdas[target].None? {
          return Err(Fatal(NullDereference));
        }
        fn := lambdas[target].value;
        errName := target;
      }
      r := CallFunction(fn, arguments, errName, fuel);
    }

    /**
     * A call of a function value: the arguments are bound in a new frame
     * made from the current one, then the frame is pushed, the body runs
     * until it ends or sets the frame's ReturnFlag, and the frame is
     * dropped. The value is the recorded return value if there was a
     * `return`, else the last statement's value.
     */
    method CallFunction(fn: KFunction, arguments: seq<Node>, errName: string, fuel: nat) returns (r: Result<Value>)
      requires Ready() && fuel >= 1
      modifies this, callStack, iset o: object | Shared(o)
      ensures Valid()
      ensures r.Ok? || r.failure.Thrown? ==> callStack == old(callStack)
      ensures old(classStack) <= classStack
      ensures |fn.parameters| > |arguments| && fn.parameters[|arguments|].0 !in fn.defaultParameters &&
              fuel >= 2 && (forall i :: 0 <= i < |arguments| ==> arguments[i].Literal?) ==>
        r == Err(Raise(ParameterCountMismatchError, errName))
      ensures fuel >= 2 && |fn.body| == 0 && |arguments| >= |fn.parameters| &&
              (forall i :: 0 <= i < |arguments| ==> arguments[i].Literal?) ==>
        r == Ok(DefaultValue)
      decreases fuel, 9
    {
      var functionFrame := CreateFrame(false);
      r := BindAndRun(fn, arguments, functionFrame, errName, fuel);
    }

    /** Binds the arguments into the new frame, then runs the body in it (see `CallFunction`). */
    method BindAndRun(fn: KFunction, arguments: seq<Node>, functionFrame: SF.CallStackFrame, errName: string,
                      fuel: nat) returns (r: Result<Value>)
      requires Ready() && fuel >= 1
      requires functionFrame !in callStack && Coherent(functionFrame)
      requires !functionFrame.IsFlagSet(SF.ReturnFlag)
      modifies this, callStack, functionFrame, iset o: object | Shared(o)
      ensures Valid()
      ensures r.Ok? || r.failure.Thrown? ==> callStack == old(callStack)
      ensures old(classStack) <= classStack
      ensures |fn.parameters| > |arguments| && fn.parameters[|arguments|].0 !in fn.defaultParameters &&
              fuel >= 2 && (forall i :: 0 <= i < |arguments| ==> arguments[i].Literal?) ==>
        r == Err(Raise(ParameterCountMismatchError, errName))
      ensures fuel >= 2 && |fn.body| == 0 && |arguments| >= |fn.parameters| &&
              (forall i :: 0 <= i < |arguments| ==> arguments[i].Literal?) ==>
        r == Ok(DefaultValue)
      decreases fuel, 8
    {
      ghost var argValues;
      var vals;
      vals, argValues :- EvalBoundArguments(fn, arguments, errName, fuel);
      functionFrame.variables := BindInto(functionFrame.variables, fn.parameters, vals);
      PushFrame(functionFrame);
      var result := ExecuteFunctionBody(fn.body, fuel);
      if result.Err? {
        if result.failure.Thrown? {
          var dropped := DropFrame();
        }
        return Err(result.failure);
      }
      var dropped := DropFrame();
      assert dropped.Ok?;  // the caller's frame is still below the function's
      return Ok(result.value);
    }

    /**
     * The body of a called function, in the frame just pushed for it: the
     * statements run in order until one leaves the frame's ReturnFlag set,
     * whose recorded return value is then the result; otherwise the last
     * statement's value is.
     */
    method ExecuteFunctionBody(body: seq<Node>, fuel: nat) returns (r: Result<Value>)
      requires Ready() && fuel >= 1 && !Top().IsFlagSet(SF.ReturnFlag)
      modifies this, callStack, iset o: object | Shared(o)
      ensures Valid()
      ensures r.Ok? || r.failure.Thrown? ==> callStack == old(callStack)
      ensures old(classStack) <= classStack
      ensures |body| == 0 ==> r == Ok(DefaultValue)
      ensures r.Ok? && Top().IsFlagSet(SF.ReturnFlag) ==> r.value == Top().returnValue
      decreases fuel, 7
    {
      var frame := Top();
      var result := DefaultValue;
      var i := 0;
      while i < |body|
        invariant 0 <= i <= |body|
        invariant Valid() && callStack == old(callStack) && old(classStack) <= classStack && frame == Top()
        invariant i == 0 ==> result == DefaultValue
        invariant !frame.IsFlagSet(SF.ReturnFlag)
      {
        result :- Interpret(body[i], fuel - 1);
        if frame.IsFlagSet(SF.ReturnFlag) {
          return Ok(frame.returnValue);
        }
        i := i + 1;
      }
      return Ok(result);
    }

    /**
     * The values of the parameters: parameter i takes argument i (evaluated
     * now) if there is one, else its default, else the call fails with
     * ParameterCountMismatchError. A lambda argument is recorded at once
     * as an alias of the parameter name. `argValues` are the arguments
     * evaluated so far.
     */
    method EvalBoundArguments(fn: KFunction, arguments: seq<Node>, errName: string, fuel: nat)
      returns (r: Result<seq<Value>>, ghost argValues: seq<Value>)
      requires Ready() && fuel >= 1
      modifies this, callStack, iset o: object | Shared(o)
      ensures Valid()
      ensures r.Ok? || r.failure.Thrown? ==> callStack == old(callStack)
      ensures old(classStack) <= classStack
      ensures |argValues| <= |arguments| && |argValues| <= |fn.parameters|
      ensures r.Ok? ==> |argValues| == Min(|arguments|, |fn.parameters|) &&
                        BoundValues(fn.parameters, fn.defaultParameters, argValues, errName) == Ok(r.value)
      ensures |argValues| == Min(|arguments|, |fn.parameters|) &&
              BoundValues(fn.parameters, fn.defaultParameters, argValues, errName).Err? ==>
        r == Err(Raise(ParameterCountMismatchError, errName))
      ensures fuel >= 2 ==> forall i :: 0 <= i < |argValues| && arguments[i].Literal? ==>
        argValues[i] == FromScalar(arguments[i].value)
      ensures fuel >= 2 && (forall i :: 0 <= i < |arguments| ==> arguments[i].Literal?) ==>
        |argValues| == Min(|arguments|, |fn.parameters|) && (|arguments| >= |fn.parameters| ==> r.Ok?)
      decreases fuel, 7
    {
      var vals: seq<Value> := [];
      argValues := [];
      var i := 0;
      while i < |fn.parameters|
        invariant 0 <= i <= |fn.parameters| && |vals| == i
        invariant |argValues| == Min(i, |arguments|)
        invariant Valid() && callStack == old(callStack) && old(classStack) <= classStack
        invariant forall k :: 0 <= k < i ==> vals[k] == if k < |arguments| then argValues[k] else fn.parameters[k].1
        invariant forall k :: |arguments| <= k < i ==> fn.parameters[k].0 in fn.defaultParameters
        invariant fuel >= 2 ==> forall k :: 0 <= k < |argValues| && arguments[k].Literal? ==>
          argValues[k] == FromScalar(arguments[k].value)
      {
        var param := fn.parameters[i];
        var argValue;
        if i < |arguments| {
          argValue :- Interpret(arguments[i], fuel - 1);
          argValues := argValues + [argValue];
        } else if param.0 in fn.defaultParameters {
          argValue := param.1;
        } else {
          ParameterMismatchAt(fn.parameters, fn.defaultParameters, argValues, errName, i);
          return Err(Raise(ParameterCountMismatchError, errName)), argValues;
        }
        if argValue.LambdaV? {
          lambdaTable := lambdaTable[param.0 := argValue.lambdaId];
        }
        vals := vals + [argValue];
        i := i + 1;
      }
      BoundValuesFromSteps(fn.parameters, fn.defaultParameters, argValues, errName, vals);
      return Ok(vals), argValues;
    }

    /**
     * `obj.m(...)` on an object, `C.m(...)` on a class, and the library's
     * methods on any other value; an unknown method name is an
     * UnknownBuiltinError.
     */
    method VisitMethodCall(receiver: Node, methodName: string, arguments: seq<Node>, fuel: nat)
      returns (r: Result<Value>, ghost operand: Option<Value>, ghost argValues: Option<seq<Value>>)
      requires Ready() && fuel >= 1
      modifies this, callStack, iset o: object | Shared(o)
      ensures Valid()
      ensures r.Ok? || r.failure.Thrown? ==> callStack == old(callStack)
      ensures old(classStack) <= classStack
      ensures operand.None? ==> r.Err? && argValues.None?
      ensures operand.Some? && !operand.value.ObjectV? && !operand.value.ClassV? && !ext.isMethodBuiltin(methodName) ==>
        r == Err(Raise(UnknownBuiltinError, methodName)) && argValues.None?
      ensures operand.Some? && !operand.value.ObjectV? && !operand.value.ClassV? && ext.isMethodBuiltin(methodName) ==>
        (argValues.None? ==> r.Err?) &&
        (argValues.Some? ==>
          |argValues.value| == |arguments| &&
          r == Lifted(ext.callMethodBuiltin(methodName, operand.value, argValues.value)))
      ensures fuel >= 2 && receiver.Literal? ==> operand == Some(FromScalar(receiver.value))
      ensures fuel >= 2 && receiver.Literal? && !ext.isMethodBuiltin(methodName) ==>
        r == Err(Raise(UnknownBuiltinError, methodName))
      decreases fuel, 15
    {
      operand, argValues := None, None;
      var value :- Interpret(receiver, fuel - 1);
      operand := Some(value);
      if value.ObjectV? {
        r := CallObjectMethod(value.obj, methodName, arguments, fuel);
      } else if value.ClassV? {
        r := CallClassMethod(value.className, methodName, arguments, fuel);
      } else if ext.isMethodBuiltin(methodName) {
        var args :- EvalArguments(arguments, fuel);
        argValues := Some(args);
        r := Lifted(ext.callMethodBuiltin(methodName, value, args));
      } else {
        r := Err(Raise(UnknownBuiltinError, methodName));
      }
    }

    /** A method call on an object, dispatched by `ResolveObjectMethod`: its own class, else its base class. */
    method CallObjectMethod(obj: KObject, methodName: string, arguments: seq<Node>, fuel: nat) returns (r: Result<Value>)
      requires Ready() && fuel >= 1
      modifies this, callStack, iset o: object | Shared(o)
      ensures Valid()
      ensures r.Ok? || r.failure.Thrown? ==> callStack == old(callStack)
      ensures old(classStack) <= classStack
      ensures var d := ResolveObjectMethod(old(classes), old(obj.className), methodName);
        d.Err? ==> r == Err(d.failure)
      ensures r.Ok? && methodName == New ==> r.value == ObjectV(obj)
      decreases fuel, 12
    {
      var d :- ResolveObjectMethod(classes, obj.className, methodName);
      match d {
        case OwnMethod(fn) =>
          r := InvokeOnObject(obj, fn, methodName, arguments, fuel);
        case BaseMethod(baseClass) =>
          r := CallObjectBaseMethod(obj, baseClass, methodName, arguments, fuel);
      }
    }

    /**
     * The base class's method: looking it up inserts an empty entry when
     * the base class does not have it, and an empty entry is an
     * UnimplementedMethodError.
     */
    method CallObjectBaseMethod(obj: KObject, baseClass: string, methodName: string, arguments: seq<Node>, fuel: nat)
      returns (r: Result<Value>)
      requires Ready() && fuel >= 1 && baseClass in classes
      modifies this, callStack, iset o: object | Shared(o)
      ensures Valid()
      ensures r.Ok? || r.failure.Thrown? ==> callStack == old(callStack)
      ensures old(classStack) <= classStack
      ensures methodName !in old(classes[baseClass].methods) ==> r == Err(Raise(UnimplementedMethodError, methodName))
      ensures r.Ok? && methodName == New ==> r.value == ObjectV(obj)
      decreases fuel, 11
    {
      var clazz := classes[baseClass];
      var entry := if methodName in clazz.methods then clazz.methods[methodName] else None;
      if methodName !in clazz.methods {
        classes := classes[baseClass := clazz.(methods := clazz.methods[methodName := None])];
      }
      r := InvokeOnObject(obj, entry, methodName, arguments, fuel);
    }

    /**
     * Runs a method on an object: the current frame takes the object as
     * its context (before the checks), an empty entry is an
     * UnimplementedMethodError and a private method an
     * InvalidContextError. After the call a context the frame had before
     * is restored; a constructor's value is the object.
     */
    method InvokeOnObject(obj: KObject, fn: Option<KFunction>, methodName: string, arguments: seq<Node>, fuel: nat)
      returns (r: Result<Value>)
      requires Ready() && fuel >= 1
      modifies this, callStack, iset o: object | Shared(o)
      ensures Valid()
      ensures r.Ok? || r.failure.Thrown? ==> callStack == old(callStack)
      ensures old(classStack) <= classStack
      ensures fn.None? ==> r == Err(Raise(UnimplementedMethodError, methodName))
      ensures fn.Some? && fn.value.isPrivate ==>
        r == Err(Raise(InvalidContextError, "Cannot invoke private method outside of class."))
      ensures r.Err? && r.failure.Thrown? && (fn.None? || fn.value.isPrivate) ==> Top().objectContext == Some(obj)
      ensures r.Ok? && old(Top().InObjectContext()) ==>
        Top().InObjectContext() && Top().objectContext == old(Top().objectContext)
      ensures r.Ok? && methodName == New ==> r.value == ObjectV(obj)
      decreases fuel, 10
    {
      var frame := Top();
      assert Coherent(frame);
      var savedContext: Option<KObject> := None;
      if frame.InObjectContext() {
        savedContext := frame.objectContext;
      }
      SetContext(frame, obj);
      if fn.None? {
        return Err(Raise(UnimplementedMethodError, methodName));
      }
      if fn.value.isPrivate {
        return Err(Raise(InvalidContextError, "Cannot invoke private method outside of class."));
      }
      var result :- CallFunction(fn.value, arguments, methodName, fuel);
      if savedContext.Some? {
        SetContext(frame, savedContext.value);
      }
      if methodName == New {
        return Ok(ObjectV(obj));
      }
      return Ok(result);
    }

    /**
     * `C.m(...)`: the entry for m is looked up (inserting an empty one).
     * `new` without a constructor gives a new object with no class name;
     * a non-static method other than `new` is an InvalidContextError. A
     * constructor runs with the new object (named after its class) as the
     * frame's context, which is left afterwards; its value is the object.
     */
    method CallClassMethod(className: string, methodName: string, arguments: seq<Node>, fuel: nat)
      returns (r: Result<Value>)
      requires Ready() && fuel >= 1
      modifies this, callStack, iset o: object | Shared(o)
      ensures Valid()
      ensures r.Ok? || r.failure.Thrown? ==> callStack == old(callStack)
      ensures old(classStack) <= classStack
      ensures className !in old(classes) ==> r == Err(Fatal(NullDereference))
      ensures className in old(classes) && methodName == New &&
              (methodName !in old(classes)[className].methods || old(classes)[className].methods[methodName].None?) ==>
        r.Ok? && r.value.ObjectV? && fresh(r.value.obj) && r.value.obj.className == "" &&
        r.value.obj.instanceVariables == map[]
      ensures className in old(classes) && methodName != New && methodName in old(classes)[className].methods &&
              old(classes)[className].methods[methodName].Some? &&
              !old(classes)[className].methods[methodName].value.isStatic ==>
        r == Err(Raise(InvalidContextError, "Cannot invoke non-static method on class."))
      ensures r.Ok? && methodName == New ==> r.value.ObjectV? && fresh(r.value.obj)
      ensures r.Ok? && methodName == New && className in old(classes) && methodName in old(classes)[className].methods &&
              old(classes)[className].methods[methodName].Some? ==>
        !Top().InObjectContext()
      decreases fuel, 12
    {
      var frame := Top();
      if className !in classes {
        return Err(Fatal(NullDereference));
      }
      var clazz := classes[className];
      var entry := if methodName in clazz.methods then clazz.methods[methodName] else None;
      if methodName !in clazz.methods {
        classes := classes[className := clazz.(methods := clazz.methods[methodName := None])];
      }
      var obj := new KObject();
      var isCtor := methodName == New;
      if entry.None? {
        if isCtor {
          return Ok(ObjectV(obj));
        }
        return Err(Fatal(NullDereference));
      }
      var fn := entry.value;
      if !fn.isStatic && !isCtor {
        return Err(Raise(InvalidContextError, "Cannot invoke non-static method on class."));
      }
      if isCtor {
        obj.className := className;
        SetContext(frame, obj);
      }
      var result :- CallFunction(fn, arguments, methodName, fuel);
      if isCtor {
        LeaveContext(frame);
        return Ok(ObjectV(obj));
      }
      return Ok(result);
    }

    // -------------------------------------------------------------------
    // Program
    // -------------------------------------------------------------------

    /**
     * A program (not a script) first pushes a frame holding `global`, a
     * new empty hash. The statements then run in order; the value is the
     * last one's. A script run with no frame at all gets through literal
     * statements, which never look at a frame, and crashes at the first
     * statement of any other kind.
     */
    method RunProgram(statements: seq<Node>, isScript: bool, fuel: nat) returns (r: Result<Value>)
      requires Valid() && fuel >= 1
      modifies this, callStack, iset o: object | Shared(o)
      ensures Valid()
      ensures isScript && |old(callStack)| == 0 && AllLiteral(statements) ==>
        r == Ok(if |statements| == 0 then DefaultValue else FromScalar(statements[|statements| - 1].value))
      ensures isScript && |old(callStack)| == 0 && !AllLiteral(statements) ==> r == Err(Fatal(EmptyCallStack))
      ensures !isScript && (r.Ok? || r.failure.Thrown?) ==> |callStack| == |old(callStack)| + 1
      ensures !isScript && |statements| == 0 ==>
        r == Ok(DefaultValue) && |callStack| == |old(callStack)| + 1 &&
        Top().variables.Keys == {Global} && Top().variables[Global].HashV? &&
        fresh(Top().variables[Global].hash)
      ensures isScript && (r.Ok? || r.failure.Thrown?) ==> callStack == old(callStack)
    {
      if !isScript {
        var programFrame := new SF.CallStackFrame();
        var global := new KHash();
        programFrame.variables := map[Global := HashV(global)];
        PushFrame(programFrame);
      }
      if |callStack| == 0 {
        var result := DefaultValue;
        var i := 0;
        while i < |statements|
          invariant 0 <= i <= |statements| && AllLiteral(statements[..i])
          invariant result == if i == 0 then DefaultValue else FromScalar(statements[i - 1].value)
        {
          if !statements[i].Literal? {
            return Err(Fatal(EmptyCallStack));
          }
          result := FromScalar(statements[i].value);
          i := i + 1;
        }
        assert statements[..i] == statements;
        return Ok(result);
      }
      r := RunStatements(statements, false, fuel);
    }
  }

  function Min(a: int, b: int): int {
    if a < b then a else b
  }

  /** A parameter without an argument and without a default makes the binding fail. */
  lemma ParameterMismatchAt(params: seq<(string, Value)>, defaults: set<string>, argValues: seq<Value>, name: string,
                            i: int)
    requires |argValues| <= i < |params| && params[i].0 !in defaults
    ensures BoundValues(params, defaults, argValues, name) == Err(Raise(ParameterCountMismatchError, name))
  {
  }

  /** The values bound one parameter at a time are the values `BoundValues` describes. */
  lemma BoundValuesFromSteps(params: seq<(string, Value)>, defaults: set<string>, argValues: seq<Value>, name: string,
                             vals: seq<Value>)
    requires |argValues| <= |params| && |vals| == |params|
    requires forall k :: |argValues| <= k < |params| ==> params[k].0 in defaults
    requires forall k :: 0 <= k < |params| ==> vals[k] == if k < |argValues| then argValues[k] else params[k].1
    ensures BoundValues(params, defaults, argValues, name) == Ok(vals)
  {
    var b := BoundValues(params, defaults, argValues, name);
    assert b.Ok?;
    assert |b.value| == |vals|;
    assert forall k :: 0 <= k < |vals| ==> b.value[k] == vals[k];
    assert b.value == vals;
  }
}
