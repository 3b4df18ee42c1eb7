# Kiwi interpreter core in Dafny

This project models the runtime core of Kiwi, a tree-walking interpreter
written in C++:

- `KInterpreter`, the evaluator (`kiwi/include/interpreter.h`). It works over
  an abstract syntax tree, a stack of call frames and the registries of
  functions, pending class methods, lambdas, lambda aliases and classes.
- `CallStackFrame` and its 8-bit flag word (`include/stackframe.h`).
- The list-slice, index and token-scanning helpers of `InterpHelper`
  (`include/interp_helper.h`).
- The error-message table of the standard library (`src/include/usl/error.h`).

Lists, hashes and objects are shared, mutable containers in Kiwi, so they are
Dafny classes (`Values.KList`, `Values.KHash`, `Values.KObject`). A value refers
to them, so two variables can alias one container. `StackFrame.CallStackFrame`
and `TokenScan.TokenStream` are classes for the same reason. The interpreter
is the class `Evaluator.KInterpreter`, with one method per `visit` overload.

The behaviour is that of the code, including the quirks below. The one
exception is the unwinding of a failed call by name, where the model uses a
corrected handler (see "## Findings" and "## Left out"):

- A structured `KiwiError` is catchable by `try`.
- A C++ crash is kept apart as `Failure.Fatal`, because it ends the process.
  Examples are a null dereference, an uncaught `std::out_of_range`, and a
  write or erase outside a vector.
- Reading `x[i][j]` goes through the nested-assignment helper. That helper
  assigns the default value to the element it reaches.
- `callObjectMethod` puts the calling frame in the object's context. When the
  frame had no context before, the call leaves it there.
- A `return` inside `while`, `repeat`, `try` or `case` does not stop that
  statement. The rest of its body runs and a loop keeps iterating. The
  enclosing function stops only once the whole statement has completed.
  Inside a list or hash `for` loop, a `return` ends only the current pass, and
  the loop goes on with the next element. Only `if` stops its branch at once.
- `new` on a class without a constructor yields an object with an empty class
  name.
- An error caught inside a class body leaves the class on the class stack.
- Default parameter values are evaluated when a function is declared, not
  when it is called.
- A step-1 slice write over a non-empty range overwrites in place; it does not
  splice. A negative-step slice write that starts at or past the end of the
  list writes out of bounds (`InterpHelper.SliceWriteNegativeStepPastEnd`).
- The slice helpers narrow 64-bit integers to 32-bit `int` by wrap-around
  (`InterpHelper.ToInt32`).
- The slice loops step a 32-bit `int` counter. A step that carries it past the
  largest `int` wraps it negative (modelled as two's-complement wrap-around).
  The loop guards still let the negative index through, so the read or write
  there is outside the vector (`InterpHelper.SliceReadCounterWrap`,
  `InterpHelper.SliceWriteCounterWrap`).
- A list can be the right-hand side of a slice write into itself. The stepped
  write then reads each value from the list as the earlier writes left it, so
  `a[0:6:2] = a` on `[1, 2, 3, 4, 5, 6]` gives `[1, 2, 2, 4, 2, 6]`
  (`InterpHelper.SliceWriteSelfSource`). A step-1 write of a list into itself
  copies a vector onto its own elements, which C++ leaves undefined; the model
  makes it a crash, `Fatal(AliasedCopy)`.

The model makes two choices of its own:

- Evaluation carries a `fuel` bound. It runs out as `Failure.OutOfFuel`.
- Every evaluating method may update any container (`Values.Shared`). Each one
  promises:
  - that the frames on the stack stay coherent;
  - that the call stack is back to its old value whenever it returns a value
    or a catchable error;
  - that the class stack only grows by pushes.

## Model

| member | source | states |
|---|---|---|
| StackFrame.WithFlag | include/stackframe.h:24-28 | `a \| b` raises every bit of the flag and keeps every bit already set |
| StackFrame.WithoutFlag | include/stackframe.h:29-37 | `a & ~b` clears every bit of the flag and keeps every other bit |
| StackFrame.SetFlagEffect | include/stackframe.h:67-69 | after setting a named flag it reports as set; every other named flag reports as before |
| StackFrame.ClearFlagEffect | include/stackframe.h:68-69 | after clearing a single-bit flag it reports as unset; every other named flag reports as before |
| StackFrame.SetFlagIdempotent | include/stackframe.h:67 | setting a flag twice gives the same flag word as setting it once |
| StackFrame.NoneAlwaysSet | include/stackframe.h:15 | `isFlagSet(None)` holds for every flag word |
| StackFrame.NamedFlagsDistinct | include/stackframe.h:14-22 | the six flags are distinct single bits: raising one in an empty word raises no other |
| StackFrame.CallStackFrame.constructor | include/stackframe.h:40-46 | a new frame has no variables, no flags and no object context |
| StackFrame.CallStackFrame.SetFlag | include/stackframe.h:67 | the flag is set afterwards; variables, return slot and context are untouched |
| StackFrame.CallStackFrame.ClearFlag | include/stackframe.h:68 | a named flag is unset afterwards; variables, return slot and context are untouched |
| StackFrame.CallStackFrame.SetObjectContext | include/stackframe.h:60-64 | stores the object and raises InObject, so `InObjectContext()` holds |
| ErrorTable.GetErrorString | src/include/usl/error.h:92-98 | total: a code with an entry gets that entry, any other code gets UNKNOWN's text |
| ErrorTable.MissingEntries | src/include/usl/error.h:52-88 | exactly CLS_METHOD_DEFINED and LIST_DEFINED lack a table entry |
| ErrorTable.UnknownErrorOnlyFrom | src/include/usl/error.h:52-98 | "unknown error" comes from UNKNOWN, CLS_METHOD_DEFINED and LIST_DEFINED, and from no other code |
| ErrorTable.EntryExamples | src/include/usl/error.h:81-97 | DIVIDED_BY_ZERO reads "cannot divide by zero"; the two codes without an entry read like UNKNOWN |
| TokenScan.CurrentAt | include/interp_helper.h:17-22 | past the end of the tokens the current token is the stream end |
| TokenScan.PeekAt | include/interp_helper.h:30-37 | when no token follows, peek gives the stream end |
| TokenScan.NextPos | include/interp_helper.h:24-28 | advancing moves one token on, and never past the end |
| TokenScan.PeekIsCurrentAfterNext | include/interp_helper.h:17-37 | `peek` shows exactly the token `current` shows after one `next` |
| TokenScan.SkipBraces | include/interp_helper.h:66-78 | skipping a brace block stays within the token vector and never moves back |
| TokenScan.ListScanNeedsClose | include/interp_helper.h:54-87 | an accepted list scan reaches, along the scan, a closing bracket with exactly one bracket open: the opening `[` is balanced |
| TokenScan.ListScanRejectsSeparator | include/interp_helper.h:79-81 | a colon or range token that the scan reaches with a bracket open (outside any brace block) makes it reject |
| TokenScan.ListScanAlongReach | include/interp_helper.h:54-87 | the scan's verdict is the same from every point it reaches |
| TokenScan.ListScanSkipsBraceBlock | include/interp_helper.h:66-78 | a brace block the scan reaches is skipped whole, colons and range tokens inside it included: the verdict is the one after its closing brace |
| TokenScan.ListScanExamples | include/interp_helper.h:54-87 | `[{a: b}]` is a list expression, `[a: b]` is not |
| TokenScan.RangeScan | include/interp_helper.h:89-114 | the range scan accepts only when a range separator occurs |
| TokenScan.RangeScanUnterminated | include/interp_helper.h:94-111 | a scan that meets neither a range token nor a closing bracket reads out of range |
| TokenScan.BodyScan | include/interp_helper.h:151-170 | a body ends at the `end` that balances it (consumed) or at the stream end, inside the vector |
| TokenScan.BaseClassClause | include/interp_helper.h:423-441 | a base class is read exactly when `<` is followed by an identifier (both consumed, the name returned); no operator means no base class |
| TokenScan.TokenStream.constructor | include/interp_helper.h:17-22 | a stream starts at position 0 over its tokens |
| TokenScan.TokenStream.Next | include/interp_helper.h:24-28 | the position advances by one step of `NextPos`, so the new current token is the old peek |
| TokenScan.TokenStream.IsListExpression | include/interp_helper.h:54-87 | the counting loop returns the verdict of the list scan from the token after `[` |
| TokenScan.TokenStream.IsRangeExpression | include/interp_helper.h:89-114 | the loop returns the range scan's verdict; a stream ending right after `[` is an out-of-range access |
| TokenScan.TokenStream.CollectBodyTokens | include/interp_helper.h:151-170 | appends exactly the tokens up to the balancing `end` and leaves the position after it |
| TokenScan.TokenStream.InterpretBaseClass | include/interp_helper.h:423-441 | returns the base-class clause's result and position as `BaseClassAt` describes them |
| InterpHelper.ToInt32 | include/interp_helper.h:197-199 | a narrowing to 32 bits lands in the `int` range and keeps values already in it |
| InterpHelper.SliceRead | include/interp_helper.h:285-299 | a start, stop or step that is not an integer is an IndexError with the source's message |
| InterpHelper.IndexRead | include/interp_helper.h:333-349 | a negative index counts from the end; an index still outside the list is a RangeError; a non-integer is an IndexError |
| InterpHelper.Reverse | include/interp_helper.h:313-321 | element k of the result is element size-1-k of the input |
| InterpHelper.ForwardSliceUnitStep | include/interp_helper.h:323-329 | with step 1 the ascending loop yields the contiguous range start..stop |
| InterpHelper.BackwardSliceUnitStep | include/interp_helper.h:313-321 | with step -1 down to 0 the descending loop yields the prefix reversed |
| InterpHelper.SliceReadContiguous | include/interp_helper.h:301-331 | for 0 <= start <= stop <= size and step 1 the slice is exactly `list[start..stop)` |
| InterpHelper.SliceReadReverse | include/interp_helper.h:307-321 | `[0:size:-1]` is the whole list reversed |
| InterpHelper.SliceReadCounterWrap | include/interp_helper.h:323-329 | a forward step that carries the counter past the largest `int` makes the next index negative, and the read there is outside the vector |
| InterpHelper.BackwardLoop | include/interp_helper.h:313-321 | the descending append loop computes the backward slice |
| InterpHelper.ForwardLoop | include/interp_helper.h:323-329 | the ascending append loop computes the forward slice |
| InterpHelper.ReadSlice | include/interp_helper.h:285-351 | the imperative slice read returns exactly `SliceRead` of its inputs |
| InterpHelper.SliceReadFrom | include/interp_helper.h:301-331 | a successful slice read yields only elements of the list; a read outside it is a failure, never a value |
| InterpHelper.StepWrites | include/interp_helper.h:237-245 | the stepped writes keep the length and consume at most |rhs| values, each read from rhs or, when the list is its own source, from the list as it is at that write; the only failure is an out-of-bounds write, such as one at a wrapped-negative counter |
| InterpHelper.StepWritesShape | include/interp_helper.h:237-245 | write k puts rhs[k] at the k-th value of the 32-bit counter, inside the list; those positions move monotonically in the step's direction; every other position keeps its element |
| InterpHelper.ContiguousWrite | include/interp_helper.h:225-235 | start == stop grows the list by |rhs|; it fails exactly when start > stop, or when an overwrite runs past the end |
| InterpHelper.SliceWrite | include/interp_helper.h:185-204 | a start, stop or step that is not an integer is an IndexError; success needs all three to be integers |
| InterpHelper.SliceWriteSelfSource | include/interp_helper.h:237-245 | `a[0:6:2] = a` on [1..6] gives [1, 2, 2, 4, 2, 6], where a separate list with the same elements gives [1, 2, 2, 4, 3, 6] |
| InterpHelper.SliceWriteSelfContiguous | include/interp_helper.h:226-235 | a step-1 write of a list into itself is `Fatal(AliasedCopy)` |
| InterpHelper.SliceWriteInsert | include/interp_helper.h:201-231 | step 1 with start == stop (or the single-element insert form) inserts rhs at start: prefix, rhs, then the old suffix |
| InterpHelper.SliceWriteOverwrite | include/interp_helper.h:232-235 | step 1 with start < stop overwrites start..start+|rhs|-1 in place; it succeeds exactly when start+|rhs| <= size |
| InterpHelper.SliceWriteStepped | include/interp_helper.h:237-245 | a successful write with any other step keeps the length and writes at most |rhs| values in order, at the counter's positions inside the list; nothing else changes |
| InterpHelper.SliceWriteCounterWrap | include/interp_helper.h:237-245 | a forward step that carries the counter past the largest `int` makes the second write an out-of-bounds write |
| InterpHelper.SliceWriteNegativeStepPastEnd | include/interp_helper.h:239-241 | a negative step from a start at or past the end writes out of bounds, from another list or from itself |
| InterpHelper.SliceWriteFrom | include/interp_helper.h:185-247 | every element after a slice write was in the list or in rhs, also when the list is its own source |
| InterpHelper.StepWriteLoop | include/interp_helper.h:237-245 | the in-place stepped loop, reading the right-hand list at each write, leaves the list as `StepWrites` describes (with the list as its own source when the two are one object), or fails as it does |
| InterpHelper.ContiguousWriteInPlace | include/interp_helper.h:225-235 | the in-place erase/insert/copy leaves the list as `ContiguousWrite` describes; a failure changes nothing |
| InterpHelper.UpdateListSlice | include/interp_helper.h:185-247 | the list afterwards is `SliceWrite` of the old list and the old right-hand list, live when the two are one object; a catchable error leaves it untouched |
| InterpHelper.CopyBack | include/interp_helper.h:131-145 | copy-back keeps exactly the caller's names |
| InterpHelper.CopyBackProperties | include/interp_helper.h:131-145 | shared names take the callee's value, others keep the caller's, no name is added, and copy-back is idempotent |
| InterpHelper.UpdateVariablesInCallerFrame | include/interp_helper.h:137-145 | the caller's variables become their copy-back; flags, return slot and context stay |
| KiwiErrors.ErrorTypeName | kiwi/include/interpreter.h:1322-1325 | the type name a catch binds is the type a `throw` chose, for a user error |
| KiwiErrors.Raise | kiwi/include/interpreter.h:347-375 | raising gives a catchable error of the given kind |
| Values.FromScalar | kiwi/include/interpreter.h:846-848 | a literal's value never refers to a container |
| Values.KList.constructor | kiwi/include/interpreter.h:850-858 | a new list holds exactly the given elements |
| Values.KHash.constructor | kiwi/include/interpreter.h:887-907 | a new hash is empty |
| Values.KHash.Add | kiwi/include/interpreter.h:649-656 | insert-or-overwrite: the key maps to the value, a new key goes last in the order, an old one keeps its place |
| Values.KObject.constructor | kiwi/include/interpreter.h:1826-1831 | a new object has no identifier, class name or instance variables |
| EvalRules.GetInteger | kiwi/include/interpreter.h:984 | an integer operand is taken as is |
| EvalRules.GetString | kiwi/include/interpreter.h:994 | a string operand is taken as is |
| EvalRules.ResolveCallable | kiwi/include/interpreter.h:1606-1632 | each callable kind is chosen exactly when earlier kinds miss (function, lambda, builtin, alias, method of the current class); anything else is FunctionUndefinedError |
| EvalRules.FunctionsShadowEverything | kiwi/include/interpreter.h:1608-1609 | a declared function wins whatever else has its name |
| EvalRules.BuiltinBeforeAlias | kiwi/include/interpreter.h:1610-1617 | a registered lambda beats a builtin, and a builtin beats a lambdaTable alias |
| EvalRules.BoundValues | kiwi/include/interpreter.h:1642-1652 | parameter i takes argument i, else its default; a parameter with neither is ParameterCountMismatchError, and only then |
| EvalRules.AllArgumentsSupplied | kiwi/include/interpreter.h:1642-1647 | with an argument for every parameter, the arguments are bound as given |
| EvalRules.BindInto | kiwi/include/interpreter.h:1654-1661 | binding keeps every name of the frame and adds only parameter names |
| EvalRules.BindIntoLookup | kiwi/include/interpreter.h:1654-1661 | a parameter holds its bound value unless a later parameter repeats its name or the value is a lambda |
| EvalRules.LambdaAliases | kiwi/include/interpreter.h:1654-1658 | binding keeps every existing lambdaTable alias |
| EvalRules.RangeValues | kiwi/include/interpreter.h:860-885 | `a..b` has |b-a|+1 integers, from a stepping by +1 or -1 |
| EvalRules.BuildRange | kiwi/include/interpreter.h:874-882 | the append-and-step loop builds exactly `RangeValues` |
| EvalRules.RangeLiteral | kiwi/include/interpreter.h:860-885 | a range succeeds exactly when both bounds are integers, else it is RangeError |
| EvalRules.ListIndexRead | kiwi/include/interpreter.h:983-992 | reading `x[i]` succeeds exactly for 0 <= i < size, with element i; a negative index is a RangeError |
| EvalRules.ListIndexWrite | kiwi/include/interpreter.h:616-642 | an index outside the list is IndexError; otherwise only slot i changes, to v for a plain assignment |
| EvalRules.NegativeIndexOnlyHelperWraps | kiwi/include/interpreter.h:983-992 | a negative index fails in the evaluator, but the slice helper counts it from the end |
| EvalRules.HashIndexRead | kiwi/include/interpreter.h:993-1001 | reading a hash key succeeds exactly when the key is present; a missing key is HashKeyError naming it |
| EvalRules.ResolveObjectMethod | kiwi/include/interpreter.h:1764-1781 | the own class when it has the method, else a registered base; no base is UnimplementedMethodError, an unregistered base ClassUndefinedError, an unregistered class a null dereference |
| EvalRules.NoGrandparentFallback | kiwi/include/interpreter.h:1772-1781 | the fallback goes one level only, to the base class itself |
| EvalRules.InheritedFlags | kiwi/include/interpreter.h:244-271 | a new frame inherits InObject, InTry and SubFrame, and starts without return or loop flags |
| EvalRules.FlagsAfterDrop | kiwi/include/interpreter.h:282-284 | a sub-frame caller gets ReturnFlag when its callee is dropped; another caller keeps its flags |
| EvalRules.DropTop | kiwi/include/interpreter.h:273-288 | dropping succeeds exactly with a caller below; the caller keeps its names and takes the callee's return value, lower frames are untouched |
| EvalRules.FunctionCallUnwindAsWritten | kiwi/include/interpreter.h:1597-1600 | the handler always drops a frame, pushed or not; it fails exactly at the top level |
| EvalRules.AsWrittenUnwindLosesCaller | kiwi/include/interpreter.h:1597-1600 | a failure before the callee's frame is pushed pops the caller, or crashes at the top level |
| EvalRules.AsWrittenTopLevelCrash | kiwi/include/interpreter.h:1597-1600 | a top-level call that fails binding crashes on an empty call stack |
| EvalRules.CorrectedUnwindKeepsCaller | kiwi/include/interpreter.h:1458-1604 | with the correction a failed call leaves the caller's depth and every frame below it as they were |
| Evaluator.NatToString | include/interp_helper.h:147-149 | a lambda id suffix is a non-empty run of decimal digits |
| Evaluator.NatToStringInjective | include/interp_helper.h:147-149 | distinct counter values give distinct temporary ids |
| Evaluator.MethodKey | kiwi/include/interpreter.h:1401-1405 | a method is registered under `new` exactly when it is the constructor or named `new` |
| Evaluator.KInterpreter.constructor | kiwi/include/interpreter.h:18-28 | a new interpreter has no frames and empty registries |
| Evaluator.KInterpreter.SetVariable | kiwi/include/interpreter.h:1324 | only the named variable of that frame changes |
| Evaluator.KInterpreter.EraseVariable | kiwi/include/interpreter.h:1336-1342 | only the named variable is removed |
| Evaluator.KInterpreter.LookupOrInsert | kiwi/include/interpreter.h:614 | `variables[name]` inserts the default value for a missing name and returns the stored value otherwise |
| Evaluator.KInterpreter.SetReturn | kiwi/include/interpreter.h:329-345 | records the value and raises ReturnFlag, nothing else |
| Evaluator.KInterpreter.SetContext | kiwi/include/interpreter.h:1795 | the frame runs in the object's context afterwards |
| Evaluator.KInterpreter.LeaveContext | kiwi/include/interpreter.h:1846-1847 | the frame leaves object context; variables stay |
| Evaluator.KInterpreter.CreateFrame | kiwi/include/interpreter.h:244-271 | a new frame copies the caller's variables unless it is for a method, inherits the context and InTry/SubFrame, and has no return pending |
| Evaluator.KInterpreter.PushFrame | kiwi/include/interpreter.h:1505 | the frame is on top and nothing else changes |
| Evaluator.KInterpreter.DropFrame | kiwi/include/interpreter.h:273-288 | pops the top frame; the caller takes its return value and copy-back; with no caller it crashes |
| Evaluator.KInterpreter.Interpret | kiwi/include/interpreter.h:125-242 | a literal yields its value and `next`, `break` and no-op yield 0, all without touching any container; a list of literals is a fresh list of their values; an unguarded `throw` of a literal raises it |
| Evaluator.KInterpreter.Evaluate | kiwi/include/interpreter.h:125-242 | a literal evaluates to its value without touching any container; a list of literals is a fresh list of their values |
| Evaluator.KInterpreter.Execute | kiwi/include/interpreter.h:125-242 | `next`, `break` and no-op execute to 0 without touching any container; an unguarded `throw` of a literal raises it |
| Evaluator.KInterpreter.VisitIdentifier | kiwi/include/interpreter.h:823-844 | lookup order: frame variable, class, lambda, then a lambdaTable alias of a live lambda (the lambda it names), else the default; `@name` in an object reads (creating) its instance variable; an empty name in an object is an out-of-range crash, and the only failure |
| Evaluator.KInterpreter.VisitSelf | kiwi/include/interpreter.h:804-821 | outside an object it is InvalidContextError; `@` is the object, `@name` its instance variable (created with the default) |
| Evaluator.KInterpreter.VisitListLiteral | kiwi/include/interpreter.h:850-858 | a fresh list with one value per element, in order |
| Evaluator.KInterpreter.VisitRangeLiteral | kiwi/include/interpreter.h:860-885 | for any bound expressions, once both are evaluated: a fresh list of `RangeValues(a, b)` exactly when both values are integers, else RangeError |
| Evaluator.KInterpreter.VisitHashLiteral | kiwi/include/interpreter.h:887-907 | for any pair expressions: a key that evaluates to a non-string is a SyntaxError; otherwise a fresh hash with exactly the literal's keys, in order when distinct, each holding its `PairsMap` value of the evaluated pairs or the default |
| Evaluator.KInterpreter.EvalPairs | kiwi/include/interpreter.h:891-900 | pairs are evaluated in order and the loop stops at the first non-string key with a SyntaxError; on success every pair was evaluated, every key is a string and the map is `PairsMap` of them |
| Evaluator.KInterpreter.EvalPair | kiwi/include/interpreter.h:892-899 | for any key and value expressions, once both are evaluated: the string key and the value, else a SyntaxError |
| Evaluator.PairsMapLastWins | kiwi/include/interpreter.h:891-900 | a key some pair has is in the built map and holds the value of the last pair with that key |
| Evaluator.PairsMapOnlyKeys | kiwi/include/interpreter.h:891-900 | a key no pair has is not in the built map |
| Evaluator.KInterpreter.NewHashFrom | kiwi/include/interpreter.h:887-907 | the hash holds exactly the keys, in order when distinct, each with its evaluated value or the default |
| Evaluator.KInterpreter.VisitUnaryOperation | kiwi/include/interpreter.h:920-923 | for any operand expression, the library's unary operator applied to the operand's evaluated value |
| Evaluator.KInterpreter.VisitBinaryOperation | kiwi/include/interpreter.h:925-939 | for any operand expressions: `and` with a falsy left value is false and `or` with a truthy one is true, and then no right operand is evaluated; otherwise the operator's result on the two evaluated values |
| Evaluator.KInterpreter.VisitTernaryOperation | kiwi/include/interpreter.h:941-949 | for any condition expression: a truthy condition value selects the true branch and a falsy one the false branch (stated for literal branches) |
| Evaluator.KInterpreter.VisitPrint | kiwi/include/interpreter.h:909-918 | a print statement's value is 0 |
| Evaluator.KInterpreter.VisitIndexing | kiwi/include/interpreter.h:969-1016 | nothing to index is InvalidOperationError; a list read is `ListIndexRead` of the integer index and a hash read `HashIndexRead` of the string key; a string gives its i-th character or RangeError; another scalar is IndexError |
| Evaluator.KInterpreter.GetSlice | kiwi/include/interpreter.h:774-802 | missing bounds default to start 0, step 1 and stop the container's length; literal bounds are their values and change nothing |
| Evaluator.KInterpreter.VisitSlice | kiwi/include/interpreter.h:951-967 | nothing to slice is InvalidOperationError; neither a list nor a string is InvalidOperationError; a list slice is a fresh list |
| Evaluator.KInterpreter.VisitMemberAccess | kiwi/include/interpreter.h:442-456 | on a hash receiver the result is `HashIndexRead` of its entries (the member, or a HashKeyError); a member of any other value reads as 0 |
| Evaluator.KInterpreter.HandleNestedIndexing | kiwi/include/interpreter.h:473-589 | a successful nested write returns the list or hash it started from; a literal list index writes as `ListIndexWrite`; a literal or named hash key is set by `=`; a named key that is missing is HashKeyError |
| Evaluator.KInterpreter.AssignListElement | kiwi/include/interpreter.h:616-642 | the element write at the index narrowed to 32 bits is `ListIndexWrite` of the old elements, including its IndexError outside the list |
| Evaluator.KInterpreter.AssignHashEntry | kiwi/include/interpreter.h:643-657 | `=` sets the key; a compound write to a missing key is HashKeyError and changes nothing; otherwise the operator's result is stored |
| Evaluator.KInterpreter.WriteListElement | kiwi/include/interpreter.h:616-642 | the list becomes `ListIndexWrite` of its old elements; an error leaves it unchanged |
| Evaluator.KInterpreter.WriteHashEntry | kiwi/include/interpreter.h:643-657 | a plain assignment sets the key; a compound one sets it to the operator's result, and an operator error leaves the hash unchanged |
| Evaluator.KInterpreter.VisitAssignment | kiwi/include/interpreter.h:704-772 | `global` cannot be assigned; inside an object an `@` name or a `self` target lands in the object's instance variables, any other name in the frame; a lambda is registered under the name; a compound assignment yields `CompoundResult` of the frame variable's old value, else of the instance variable's, and a name that is neither is VariableUndefinedError |
| Evaluator.KInterpreter.AssignPlain | kiwi/include/interpreter.h:711-735 | assigning `global` is IllegalNameError; a lambda is renamed; inside an object an `@` name or `self` target sets the instance variable and leaves the frame alone, and an empty name crashes; otherwise the frame holds the value and an object remembers its variable name |
| Evaluator.KInterpreter.AssignCompound | kiwi/include/interpreter.h:736-769 | a frame variable, else an instance variable, takes `CompoundResult` of its old value (`~=` the bitwise negation, any other operator the binary operation with the operand); a name that is neither is VariableUndefinedError; a failure stores nothing in the frame |
| Evaluator.KInterpreter.CompoundInstance | kiwi/include/interpreter.h:750-766 | a missing instance variable is VariableUndefinedError; otherwise it becomes `CompoundResult` of its old value, and a failure changes nothing |
| Evaluator.KInterpreter.VisitIndexAssignment | kiwi/include/interpreter.h:591-678 | an index assignment's value is 0; a missing indexed object is a null dereference; a bad nested form is IndexError |
| Evaluator.KInterpreter.AssignSliceOf | kiwi/include/interpreter.h:597-607 | the variable exists afterwards; with literal or absent bounds, a list variable and a list value, the list becomes `SliceWrite` of its old elements from the value's old elements (live when it is the same list), or the write fails as that does; otherwise nothing is written |
| Evaluator.KInterpreter.AssignElementOf | kiwi/include/interpreter.h:608-658 | with a literal index, a list variable is written as `ListIndexWrite` at the index narrowed to 32 bits; a hash variable has the key set by `=`, and a compound write to a missing key is HashKeyError; anything else yields 0 and writes nothing |
| Evaluator.KInterpreter.WriteListSlice | kiwi/include/interpreter.h:458-471 | the list becomes `SliceWrite` of its old elements from the right-hand list, live when that is the same list, or the write fails as it does |
| Evaluator.KInterpreter.VisitMemberAssignment | kiwi/include/interpreter.h:680-702 | on a hash receiver `=` sets the member to the value, a compound operator on a missing member is a HashKeyError and on a present one stores the operator's result; on any other value nothing is written and the result is 0 |
| Evaluator.KInterpreter.RunStatements | kiwi/include/interpreter.h:296-309 | no statements give the default value and leave the frame alone; literals give the last one's value; a leading unguarded `throw` raises its error before anything else runs |
| Evaluator.KInterpreter.RunLoopBody | kiwi/include/interpreter.h:1100-1141 | the loop is ended only by a `break` statement of the body; an unguarded leading break ends it at once with the value unchanged; a body of literals and loop controls touches no container |
| Evaluator.KInterpreter.VisitIf | kiwi/include/interpreter.h:1018-1056 | an `if` yields 0; a falsy condition without other branches does nothing |
| Evaluator.KInterpreter.VisitCase | kiwi/include/interpreter.h:1058-1080 | a `case` yields 0; one without branches does nothing |
| Evaluator.KInterpreter.VisitForLoop | kiwi/include/interpreter.h:1211-1224 | iterator names are erased after the loop; a literal scalar is InvalidOperationError; over a list of literals with a quiet body without `break`, element k is bound with index k, in order, for every element |
| Evaluator.KInterpreter.ListLoop | kiwi/include/interpreter.h:1082-1144 | round k binds element k of the list as it is then, with index k; without `break` every element is bound; a quiet body binds exactly the old elements in order; a leading `break` stops after the first; an empty list runs nothing |
| Evaluator.KInterpreter.HashLoop | kiwi/include/interpreter.h:1146-1209 | the keys are bound in insertion order, as a prefix of the key list; without `break` all of them; a leading `break` stops after the first; iterator names are erased; an empty hash runs nothing |
| Evaluator.KInterpreter.VisitWhileLoop | kiwi/include/interpreter.h:1226-1252 | a falsy condition runs nothing; a leading `break` ends the loop with the default |
| Evaluator.KInterpreter.VisitRepeatLoop | kiwi/include/interpreter.h:1254-1309 | a count that is not an integer is InvalidOperationError; the alias takes 1, 2, ... in order, n values without `break` and none when n < 1; a leading `break` stops after 1; the alias is erased afterwards |
| Evaluator.KInterpreter.VisitTry | kiwi/include/interpreter.h:1311-1353 | a `try` yields 0; a catchable error leaves only through a catch or finally body; the catch body runs only if present, with the caught error's type and message bound; a `throw` heading the try body is the error caught, and nothing is caught from a literal try body; with literal bodies the finally body runs, and a `throw` heading the finally body, or the catch body, is then the result |
| Evaluator.KInterpreter.BindCatchNames | kiwi/include/interpreter.h:1318-1331 | the type name and then the message are bound in the frame (the message wins when both names are one); every other variable keeps its value |
| Evaluator.KInterpreter.CatchClause | kiwi/include/interpreter.h:1317-1343 | as the catch body starts, the error's type name and message are bound under the clause's names and every other variable is as before; both names are erased afterwards; a literal catch body yields 0; a leading `throw` in it is the result |
| Evaluator.KInterpreter.VisitReturn | kiwi/include/interpreter.h:329-345 | an unguarded return records its value with ReturnFlag; an absent value is 0 |
| Evaluator.ThrownError | kiwi/include/interpreter.h:352-364 | a thrown value that is not a hash raises type "KiwiError", with the value as message if it is a string and an empty one otherwise |
| Evaluator.KInterpreter.VisitThrow | kiwi/include/interpreter.h:347-375 | an unguarded throw raises `ThrownError` of the value it evaluated (for a hash, its "error" and "message" strings as it was then); a literal guard raises that error when truthy and otherwise yields 0; only a guard lets it pass |
| Evaluator.KInterpreter.CreateFunction | kiwi/include/interpreter.h:1431-1456 | a function with the declaration's name, body and modifiers, one parameter per declared one; the defaults are exactly those with a default expression |
| Evaluator.KInterpreter.VisitLambda | kiwi/include/interpreter.h:1355-1380 | the lambda gets the next temporary id, registered with its body and as its own alias |
| Evaluator.KInterpreter.VisitFunctionDeclaration | kiwi/include/interpreter.h:1415-1429 | inside a class body it is stored as a pending method, else as a function; the other registry is unchanged |
| Evaluator.KInterpreter.VisitClass | kiwi/include/interpreter.h:1382-1413 | an unregistered base is ClassUndefinedError; the class is registered with exactly its methods (constructor under `new`) and the pending methods are cleared |
| Evaluator.KInterpreter.EvalArguments | kiwi/include/interpreter.h:1710-1720 | one value per argument, in order |
| Evaluator.KInterpreter.VisitFunctionCall | kiwi/include/interpreter.h:1458-1604 | an unresolvable name is FunctionUndefinedError; a missing argument without default is ParameterCountMismatchError, raised with the caller's stack intact as the corrected unwind keeps it |
| Evaluator.KInterpreter.CallFunction | kiwi/include/interpreter.h:1634-1676 | a missing argument without default is ParameterCountMismatchError; an empty body yields the default |
| Evaluator.KInterpreter.BindAndRun | kiwi/include/interpreter.h:1642-1676 | the same as `CallFunction`, once the new frame exists |
| Evaluator.KInterpreter.ExecuteFunctionBody | kiwi/include/interpreter.h:1678-1690 | an empty body yields the default; after a `return` the value is the recorded return value |
| Evaluator.KInterpreter.EvalBoundArguments | kiwi/include/interpreter.h:1642-1652 | the bound values are `BoundValues` of the evaluated arguments; a parameter without argument or default is ParameterCountMismatchError |
| Evaluator.KInterpreter.VisitMethodCall | kiwi/include/interpreter.h:1692-1708 | for any receiver expression whose value is neither an object nor a class: an unknown library method is UnknownBuiltinError with no argument evaluated; a known one is the library's result on the evaluated arguments |
| Evaluator.KInterpreter.CallObjectMethod | kiwi/include/interpreter.h:1764-1818 | a dispatch failure is the call's failure; a constructor call yields the object |
| Evaluator.KInterpreter.CallObjectBaseMethod | kiwi/include/interpreter.h:1722-1762 | a method the base class lacks is UnimplementedMethodError; a constructor yields the object |
| Evaluator.KInterpreter.InvokeOnObject | kiwi/include/interpreter.h:1783-1818 | an empty entry is UnimplementedMethodError and a private method InvalidContextError; an earlier context is restored; a constructor yields the object |
| Evaluator.KInterpreter.CallClassMethod | kiwi/include/interpreter.h:1820-1852 | an unknown class is a null dereference; `new` without constructor is a fresh empty object; a non-static method is InvalidContextError; a constructor leaves the object context |
| Evaluator.KInterpreter.RunProgram | kiwi/include/interpreter.h:294-309 | a program pushes one frame holding `global` as a new hash; a script with no frame yields its last literal (the default for none) when every statement is a literal, and crashes otherwise; a script leaves the stack as it was |
| Evaluator.ParameterMismatchAt | kiwi/include/interpreter.h:1648-1651 | a parameter without argument and without default makes binding fail |
| Evaluator.BoundValuesFromSteps | kiwi/include/interpreter.h:1642-1652 | binding one parameter at a time gives the values `BoundValues` describes |

## Left out

- Console, REPL and session I/O are not modelled, and neither is the text `print` writes. This covers `src/include/parsing/interp_session.h` and `include/builtins/console_handler.h`.
- Packages, `import`, `export` and `exit` are not modelled. They load files, run other packages or end the process.
- String interpolation, deserialisation and `interpretModuleHome` are not modelled, because they re-enter a lexer and parser that are not part of this model.
- The serializer, the builtin dispatcher, the reflector and the list builtins that run lambdas are not modelled (`lambdaEach`, `lambdaMap`, `lambdaReduce`, `lambdaSelect`). They are parameters of the `Externals` datatype or absent.
- Arithmetic, truthiness, conversions (`get_integer`, `get_string`) and builtin calls are uninterpreted functions in `Externals`. Their results are limited to values without containers.
- `getTemporaryId` draws a random number; lambda ids come from a counter instead (`temporary_<n>`).
- Integers are unbounded; 64-bit `k_int` overflow is not modelled. Only the 32-bit narrowing of the slice helpers and their 32-bit loop counter are. A signed overflow of that counter is undefined behaviour in C++; the model takes it to wrap around, as the machines the code targets do.
- Error messages keep their text, but not the token (source position) they carry.
- A default-constructed value is modelled as the integer 0, because `value.h` is not part of this model.
- The `tokens`, `position` and `errorState` fields of `CallStackFrame` are not modelled, because the evaluator never uses them.
- `isSliceAssignmentExpression`, `hasReturnValue`, `getTemporaryAssignment`, `interpretAssignOp` and `interpretParameterizedCatch` are not modelled. They belong to an older token-stream interpreter that the evaluator does not call.
- The node enumeration of `kiwi/include/parsing/ast.h` is replaced by a node datatype with one variant per kind the evaluator dispatches on.
- The `fuel` bound ends every evaluation after finitely many steps with `OutOfFuel`. A program that runs longer is not followed past it. A zero-step slice read over a non-empty range, which appends forever, is `Fatal(MemoryExhausted)`.
- Evaluating methods may modify any container, not only the ones the program reaches.
- Parameter binding evaluates all arguments first, then writes them into the new frame. The source writes each one as it goes, which is equivalent because the new frame cannot be reached while arguments are evaluated.
- Evaluator.KInterpreter.VisitLambda: does not promise that the id counter only grows. Evaluating default values may run other lambdas first.
- Evaluator.KInterpreter.CallClassMethod: does not promise the new object's class name after a constructor ran.
- Evaluator.KInterpreter.AssignElementOf: states the write only for a literal index. Any other index is evaluated first, and that evaluation may change the container.
- Evaluator.KInterpreter.RunProgram: states that `global` is a fresh hash only for an empty program. Later statements may change it. A script run with no frame is followed through literal statements only: every evaluating method of the model needs a frame, so the first statement of any other kind is `Fatal(EmptyCallStack)`, even one the code would run without reading the frame.
- `kiwi/include/interpreter.h` calls `InterpHelper::listSlice`, `InterpHelper::stringSlice` and an `updateListSlice` that takes a token. The `include/interp_helper.h` modelled here has `interpretListSlice` and an `updateListSlice` taking a token stream instead. The model follows the bodies in that file. `stringSlice` is a parameter of `Externals`.
- Evaluator.KInterpreter.ExecuteFunctionBody: states the value only for an empty body and after a `return`. Otherwise the value is the last statement's.
- Evaluator.KInterpreter.VisitMethodCall: states only the library-method path for plain values. Object and class calls are stated by `CallObjectMethod` and `CallClassMethod`. The list and Kiwi library methods are one `Externals` parameter.
- Evaluator.KInterpreter.VisitTernaryOperation: states the selected branch's value only when that branch is a literal. Any other branch is evaluated by the same dispatch, whose value has no specification function to name it.
- Evaluator.KInterpreter.RunLoopBody: does not state the `next` (continue) flag's effect beyond ending the body.
- Evaluator.KInterpreter.VisitFunctionCall: follows the corrected unwind of a failed call, which drops the callee's frame only if it was pushed. The code as written (kiwi/include/interpreter.h:1597-1600) always drops a frame and so pops the caller's; that behaviour is modelled by `EvalRules.FunctionCallUnwindAsWritten` (see "## Findings"). `BindAndRun` follows the same correction.
- Evaluator.KInterpreter.HandleNestedIndexing: a compound write to a missing literal hash key is `Fatal(UnmodelledCase)`. The code reads the key with `hash->get`, whose behaviour for a missing key lives in `value.h`, which is not part of this model.
- Evaluator.KInterpreter.HashLoop: iterates over the key list as it was when the loop started. The code iterates the live key vector, so a body that adds a key can invalidate the iterator (undefined behaviour in C++).
- Loop statements (`ListLoop`, `HashLoop`, `VisitRepeatLoop`, `VisitForLoop`) state their outcome for bodies of literals, loop controls and `throw`s of literals. For other bodies they state the binding order and the `break` behaviour, but not the values the body computes.
- Evaluator.KInterpreter.VisitTry: states the outcome only for bodies of literals and `throw`s of literals. For any bodies it states which error is caught and what the catch body sees bound.

## Findings

| source | as written | input that shows it | evidently intended | confidence | as-written member | corrected member |
|---|---|---|---|---|---|---|
| kiwi/include/interpreter.h:1597-1600 | the catch handler of a call by name always calls `dropFrame`, even when the failure happened before the callee's frame was pushed (a failing argument or a missing one, at 1483-1503, 1524-1529 and 1568-1573) | `f()` at the top level inside a `try`, with `fn f(x) ... end`: ParameterCountMismatchError is thrown before the push, so the handler pops the only frame and reads an empty stack | drop the callee's frame only if it was pushed, so the caller's frame survives and the error reaches the `try` | not executed | EvalRules.AsWrittenTopLevelCrash | EvalRules.CorrectedUnwindKeepsCaller |
