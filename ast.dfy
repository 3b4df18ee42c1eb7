/**
 * The syntax tree the evaluator walks, restricted to the node kinds it
 * dispatches on. Names that the parser only ever fills with an identifier
 * (loop iterators, catch bindings, class names) are plain strings.
 */
module Ast {
  import opened Values

  /** Assignment and binary operators; only these four are told apart by the evaluator itself. */
  datatype Op = Assign | BitwiseNotAssign | AndOp | OrOp | OtherOp(name: string)

  datatype Param = Param(name: string, defaultValue: Option<Node>)

  datatype FunctionDecl = FunctionDecl(name: string, parameters: seq<Param>, body: seq<Node>,
                                       isPrivate: bool, isStatic: bool)

  datatype Node =
    | Literal(value: Scalar)
    | Identifier(name: string)
    | SelfNode(memberName: string)
    | ListLiteral(elements: seq<Node>)
    | RangeLiteral(rangeStart: Node, rangeEnd: Node)
    | HashLiteral(pairs: seq<(Node, Node)>, keys: seq<string>)
    | UnaryOperation(unaryOp: string, operand: Node)
    | BinaryOperation(binaryOp: Op, left: Node, right: Node)
    | TernaryOperation(evalExpression: Node, trueExpression: Node, falseExpression: Node)
    | Indexing(indexedObject: Option<Node>, indexExpression: Node)
    | Slice(slicedObject: Option<Node>, startExpression: Option<Node>,
            stopExpression: Option<Node>, stepExpression: Option<Node>)
    | MemberAccess(receiver: Node, memberName: string)
    | Assignment(left: Node, name: string, op: Op, initializer: Node)
    | IndexAssignment(target: Node, op: Op, initializer: Node)
    | MemberAssignment(receiver: Node, memberName: string, op: Op, initializer: Node)
    | If(condition: Node, body: seq<Node>, elseifs: seq<(Node, seq<Node>)>, elseBody: seq<Node>)
    | Case(testValue: Node, whens: seq<(Node, seq<Node>)>, elseBody: seq<Node>)
    | ForLoop(dataSet: Node, valueIterator: string, indexIterator: Option<string>, body: seq<Node>)
    | WhileLoop(condition: Node, body: seq<Node>)
    | RepeatLoop(count: Node, alias: Option<string>, body: seq<Node>)
    | Next(guard: Option<Node>)
    | Break(guard: Option<Node>)
    | Try(tryBody: seq<Node>, errorType: Option<string>, errorMessage: Option<string>,
          catchBody: seq<Node>, finallyBody: seq<Node>)
    | Lambda(parameters: seq<Param>, body: seq<Node>)
    | Class(name: string, baseClass: string, methods: seq<FunctionDecl>)
    | FunctionDeclaration(decl: FunctionDecl)
    | FunctionCall(functionName: string, arguments: seq<Node>)
    | MethodCall(receiver: Node, methodName: string, arguments: seq<Node>)
    | Return(returnValue: Option<Node>, guard: Option<Node>)
    | Throw(errorValue: Option<Node>, guard: Option<Node>)
    | Print(expression: Node)
    | NoOp
  {
    /** Statements the loops treat themselves rather than evaluate. */
    predicate IsLoopControl() {
      Next? || Break?
    }

    /** Nodes that act (assign, branch, loop, declare, leave); the others are expressions that yield a value. */
    predicate IsStatement() {
      Assignment? || IndexAssignment? || MemberAssignment? || If? || Case? || ForLoop? || WhileLoop? ||
      RepeatLoop? || Next? || Break? || Try? || Class? || FunctionDeclaration? || Return? || Throw? ||
      Print? || NoOp?
    }
  }
}
