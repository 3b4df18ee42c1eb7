/**
 * The token-stream helpers the interpreter uses while scanning source
 * tokens: reading the current and next token, advancing, bracket and
 * keyword counters that classify a `[` expression or collect a block body,
 * and the `< Base` clause of a class declaration.
 */
module TokenScan {
  import opened KiwiErrors
  import opened Values

  datatype TokenType =
    | OpenBracket | CloseBracket | OpenBrace | CloseBrace
    | Colon | Range | Operator | Identifier | Keyword
    | StreamEnd | OtherToken

  /**
   * The sub-type of a token. Which keywords open a block (and so need a
   * matching `end`) is decided by the keyword table, which is not part of
   * this model; a token says so through `Block`.
   */
  datatype SubTokenType =
    | KwEnd
    | OpsLessThan
    | Block(keyword: string)
    | OtherSubType(name: string)

  datatype Token = Token(kind: TokenType, subType: SubTokenType, text: string)

  const StreamEndToken: Token := Token(StreamEnd, OtherSubType(""), "")

  predicate IsBlockKeyword(t: Token) {
    t.subType.Block?
  }

  /** The token at `pos`, or the stream-end token past the end. */
  function CurrentAt(ts: seq<Token>, pos: nat): (t: Token)
    ensures pos >= |ts| ==> t.kind == StreamEnd
  {
    if pos >= |ts| then StreamEndToken else ts[pos]
  }

  /** The token after `pos`, or the stream-end token. */
  function PeekAt(ts: seq<Token>, pos: nat): (t: Token)
    ensures pos + 1 >= |ts| ==> t.kind == StreamEnd
  {
    if pos + 1 < |ts| then ts[pos + 1] else StreamEndToken
  }

  /** The position after `next`: one further, but never past the end. */
  function NextPos(ts: seq<Token>, pos: nat): (p: nat)
    ensures pos < |ts| ==> p == pos + 1
    ensures pos >= |ts| ==> p == pos
  {
    if pos < |ts| then pos + 1 else pos
  }

  /** `peek` looks at exactly the token that `current` shows after one `next`. */
  lemma PeekIsCurrentAfterNext(ts: seq<Token>, pos: nat)
    ensures CurrentAt(ts, NextPos(ts, pos)) == PeekAt(ts, pos)
  {
  }

  // ---------------------------------------------------------------------
  // isListExpression
  // ---------------------------------------------------------------------

  /** The position just after the `}` that closes `braces` open braces, or the stream end. */
  function SkipBraces(ts: seq<Token>, pos: nat, braces: int): (p: nat)
    ensures pos <= |ts| ==> pos <= p <= |ts|
    ensures pos > |ts| ==> p == pos
    decreases |ts| - pos
  {
    if pos < |ts| && braces > 0 then
      var b := if ts[pos].kind == OpenBrace then braces + 1
               else if ts[pos].kind == CloseBrace then braces - 1
               else braces;
      SkipBraces(ts, pos + 1, b)
    else pos
  }

  /**
   * The verdict of the bracket scan from `pos` with `depth` brackets open:
   * a colon or range separator outside braces rejects, a brace block is
   * skipped whole, and the scan accepts when the brackets balance.
   */
  function ListScan(ts: seq<Token>, pos: nat, depth: int): bool
    decreases |ts| - pos
  {
    if pos < |ts| && depth > 0 then
      match ts[pos].kind
      case OpenBracket => ListScan(ts, pos + 1, depth + 1)
      case CloseBracket => ListScan(ts, pos + 1, depth - 1)
      case OpenBrace => ListScan(ts, SkipBraces(ts, pos + 1, 1), depth)
      case Colon => false
      case Range => false
      case _ => ListScan(ts, pos + 1, depth)
    else depth == 0
  }

  /**
   * The scan from `pos` with `depth` brackets open gets to position `q`
   * with `dq` brackets open: every token on the way is visited with a
   * bracket open, brackets move the depth, a brace block is jumped over
   * whole, and no colon or range token is met.
   */
  predicate Reaches(ts: seq<Token>, pos: nat, depth: int, q: nat, dq: int)
    decreases |ts| - pos
  {
    (pos == q && depth == dq) ||
    (pos < q && pos < |ts| && depth > 0 &&
     match ts[pos].kind
     case OpenBracket => Reaches(ts, pos + 1, depth + 1, q, dq)
     case CloseBracket => Reaches(ts, pos + 1, depth - 1, q, dq)
     case OpenBrace => Reaches(ts, SkipBraces(ts, pos + 1, 1), depth, q, dq)
     case Colon => false
     case Range => false
     case _ => Reaches(ts, pos + 1, depth, q, dq))
  }

  /**
   * Acceptance means the opening bracket is balanced: the scan reaches a
   * closing bracket with one bracket open, after which none is.
   */
  lemma {:induction false} ListScanNeedsClose(ts: seq<Token>, pos: nat, depth: int) returns (q: nat)
    requires depth > 0 && ListScan(ts, pos, depth)
    ensures pos <= q < |ts| && ts[q].kind == CloseBracket && Reaches(ts, pos, depth, q, 1)
    decreases |ts| - pos
  {
    assert pos < |ts|;
    match ts[pos].kind
    case OpenBracket =>
      q := ListScanNeedsClose(ts, pos + 1, depth + 1);
    case CloseBracket =>
      if depth == 1 {
        q := pos;
      } else {
        q := ListScanNeedsClose(ts, pos + 1, depth - 1);
      }
    case OpenBrace =>
      var p := SkipBraces(ts, pos + 1, 1);
      q := ListScanNeedsClose(ts, p, depth);
    case Colon =>
    case Range =>
    case _ =>
      q := ListScanNeedsClose(ts, pos + 1, depth);
  }

  /** Along the scan the verdict does not change: it is the verdict from any point the scan reaches. */
  lemma {:induction false} ListScanAlongReach(ts: seq<Token>, pos: nat, depth: int, q: nat, dq: int)
    requires Reaches(ts, pos, depth, q, dq)
    ensures ListScan(ts, pos, depth) == ListScan(ts, q, dq)
    decreases |ts| - pos
  {
    if !(pos == q && depth == dq) {
      match ts[pos].kind
      case OpenBracket =>
        ListScanAlongReach(ts, pos + 1, depth + 1, q, dq);
      case CloseBracket =>
        ListScanAlongReach(ts, pos + 1, depth - 1, q, dq);
      case OpenBrace =>
        ListScanAlongReach(ts, SkipBraces(ts, pos + 1, 1), depth, q, dq);
      case Colon =>
      case Range =>
      case _ =>
        ListScanAlongReach(ts, pos + 1, depth, q, dq);
    }
  }

  /** A colon or range token the scan reaches outside braces, with a bracket open, rejects the expression. */
  lemma ListScanRejectsSeparator(ts: seq<Token>, pos: nat, depth: int, q: nat, dq: int)
    requires Reaches(ts, pos, depth, q, dq) && dq > 0 && q < |ts|
    requires ts[q].kind == Colon || ts[q].kind == Range
    ensures !ListScan(ts, pos, depth)
  {
    ListScanAlongReach(ts, pos, depth, q, dq);
  }

  /**
   * A brace block the scan reaches is skipped whole: the verdict is the
   * verdict after its closing brace, whatever the block holds (colons and
   * range tokens included).
   */
  lemma ListScanSkipsBraceBlock(ts: seq<Token>, pos: nat, depth: int, q: nat, dq: int)
    requires Reaches(ts, pos, depth, q, dq) && dq > 0 && q < |ts| && ts[q].kind == OpenBrace
    ensures ListScan(ts, pos, depth) == ListScan(ts, SkipBraces(ts, q + 1, 1), dq)
  {
    ListScanAlongReach(ts, pos, depth, q, dq);
  }

  /** `[{a: b}]` is a list (the colon is inside braces); `[a: b]` is not. */
  lemma ListScanExamples()
    ensures var a := Token(Identifier, OtherSubType("a"), "a");
      var colon := Token(Colon, OtherSubType(":"), ":");
      var t := Token(OpenBrace, OtherSubType("{"), "{");
      var u := Token(CloseBrace, OtherSubType("}"), "}");
      var close := Token(CloseBracket, OtherSubType("]"), "]");
      ListScan([t, a, colon, a, u, close], 0, 1) && !ListScan([a, colon, a, close], 0, 1)
  {
    var a := Token(Identifier, OtherSubType("a"), "a");
    var colon := Token(Colon, OtherSubType(":"), ":");
    var t := Token(OpenBrace, OtherSubType("{"), "{");
    var u := Token(CloseBrace, OtherSubType("}"), "}");
    var close := Token(CloseBracket, OtherSubType("]"), "]");
    var ts := [t, a, colon, a, u, close];
    assert SkipBraces(ts, 4, 1) == 5;
    assert SkipBraces(ts, 3, 1) == 5;
    assert SkipBraces(ts, 2, 1) == 5;
    assert SkipBraces(ts, 1, 1) == 5;
    assert ListScan(ts, 5, 1);
  }

  // ---------------------------------------------------------------------
  // isRangeExpression
  // ---------------------------------------------------------------------

  /**
   * The range scan from `pos` (a valid index) with `counter` brackets open:
   * a range separator accepts, the closing bracket rejects, and running off
   * the end of the token vector is an out-of-range access.
   */
  function RangeScan(ts: seq<Token>, pos: nat, counter: int): (r: Result<bool>)
    requires pos < |ts|
    ensures r == Ok(true) ==> exists q :: pos <= q < |ts| && ts[q].kind == Range
    decreases |ts| - pos
  {
    if counter <= 0 then Ok(false)
    else
      var c := if ts[pos].kind == OpenBracket then counter + 1
               else if ts[pos].kind == CloseBracket then counter - 1
               else counter;
      if ts[pos].kind == CloseBracket && c == 0 then Ok(false)
      else if ts[pos].kind == Range then Ok(true)
      else if pos + 1 >= |ts| then Err(Fatal(OutOfRangeAccess))
      else RangeScan(ts, pos + 1, c)
  }

  /** A scan that meets neither a range separator nor a closing bracket runs off the end. */
  lemma {:induction false} RangeScanUnterminated(ts: seq<Token>, pos: nat, counter: int)
    requires pos < |ts| && counter > 0
    requires forall k :: pos <= k < |ts| ==> ts[k].kind != Range && ts[k].kind != CloseBracket
    ensures RangeScan(ts, pos, counter).Err?
    decreases |ts| - pos
  {
    if pos + 1 < |ts| {
      var c := if ts[pos].kind == OpenBracket then counter + 1 else counter;
      RangeScanUnterminated(ts, pos + 1, c);
    }
  }

  /**
   * Where a block body scanned from `pos` with `counter` open blocks ends:
   * the index of the `end` that closes it (and the position after it), or
   * the stream end.
   */
  function BodyScan(ts: seq<Token>, pos: nat, counter: int): (r: (nat, nat))
    requires pos <= |ts|
    ensures pos <= r.0 <= r.1 <= |ts|
    ensures r.1 == r.0 || (r.1 == r.0 + 1 && ts[r.0].subType == KwEnd)
    decreases |ts| - pos
  {
    if pos >= |ts| || counter == 0 then (pos, pos)
    else if IsBlockKeyword(ts[pos]) then BodyScan(ts, pos + 1, counter + 1)
    else if ts[pos].subType == KwEnd then
      if counter - 1 == 0 then (pos, pos + 1) else BodyScan(ts, pos + 1, counter - 1)
    else BodyScan(ts, pos + 1, counter)
  }

  /**
   * The optional `< Base` clause at `pos`: no operator means no base class;
   * an operator other than `<`, or a `<` not followed by an identifier, is
   * a syntax error. Returns the base name and the position reached.
   */
  function BaseClassAt(ts: seq<Token>, pos: nat): (Result<string>, nat)
  {
    var t := CurrentAt(ts, pos);
    if t.kind != Operator then (Ok(""), pos)
    else if t.subType != OpsLessThan then
      (Err(Raise(SyntaxError, "Expected inheritance operator, `<`, in class definition.")), pos)
    else
      var p := NextPos(ts, pos);
      var name := CurrentAt(ts, p);
      if name.kind != Identifier then (Err(Raise(SyntaxError, "Expected base class name.")), p)
      else (Ok(name.text), NextPos(ts, p))
  }

  /** A base class is read exactly when `<` is followed by an identifier; both tokens are consumed. */
  lemma BaseClassClause(ts: seq<Token>, pos: nat)
    requires pos < |ts|
    ensures var (r, p) := BaseClassAt(ts, pos);
      (r.Ok? && p == pos + 2) <==>
        (pos + 1 < |ts| && ts[pos].kind == Operator && ts[pos].subType == OpsLessThan &&
         ts[pos + 1].kind == Identifier)
    ensures var (r, p) := BaseClassAt(ts, pos);
      r.Ok? && p == pos + 2 ==> r.value == ts[pos + 1].text
    ensures ts[pos].kind != Operator ==> BaseClassAt(ts, pos) == (Ok(""), pos)
  {
  }

  /** A token stream and the position the parser has reached in it. */
  class TokenStream {
    var tokens: seq<Token>
    var position: nat

    ghost predicate Valid()
      reads this
    {
      position <= |tokens|
    }

    constructor (tokens: seq<Token>)
      ensures Valid() && this.tokens == tokens && position == 0
    {
      this.tokens := tokens;
      position := 0;
    }

    predicate CanRead()
      reads this
    {
      position < |tokens|
    }

    function Current(): Token
      reads this
    {
      CurrentAt(tokens, position)
    }

    function Peek(): Token
      reads this
    {
      PeekAt(tokens, position)
    }

    method Next()
      requires Valid()
      modifies this
      ensures Valid() && tokens == old(tokens)
      ensures position == NextPos(tokens, old(position))
      ensures Current() == old(Peek())
    {
      if position < |tokens| {
        position := position + 1;
      }
      PeekIsCurrentAfterNext(tokens, old(position));
    }

    /** Whether the `[` at the current position opens a list literal. */
    method IsListExpression() returns (isList: bool)
      ensures isList == ListScan(tokens, position + 1, 1)
    {
      var pos := position + 1;
      var bracketCount := 1;
      while pos < |tokens| && bracketCount > 0
        invariant ListScan(tokens, pos, bracketCount) == ListScan(tokens, position + 1, 1)
        decreases |tokens| - pos
      {
        var kind := tokens[pos].kind;
        if kind == OpenBracket {
          bracketCount := bracketCount + 1;
        } else if kind == CloseBracket {
          bracketCount := bracketCount - 1;
        } else if kind == OpenBrace {
          ghost var open := pos;
          var braceCount := 1;
          pos := pos + 1;
          while pos < |tokens| && braceCount > 0
            invariant open < pos <= |tokens|
            invariant SkipBraces(tokens, pos, braceCount) == SkipBraces(tokens, open + 1, 1)
            decreases |tokens| - pos
          {
            if tokens[pos].kind == OpenBrace {
              braceCount := braceCount + 1;
            } else if tokens[pos].kind == CloseBrace {
              braceCount := braceCount - 1;
            }
            pos := pos + 1;
          }
          continue;
        } else if kind == Colon || kind == Range {
          return false;
        }
        pos := pos + 1;
      }
      return bracketCount == 0;
    }

    /**
     * Whether the `[` at the current position opens a range `[a..b]`. The
     * scan reads the vector with bounds checks, so a stream that ends
     * before a range separator or the closing bracket is an out-of-range
     * access.
     */
    method IsRangeExpression() returns (r: Result<bool>)
      ensures position + 1 >= |tokens| ==> r == Err(Fatal(OutOfRangeAccess))
      ensures position + 1 < |tokens| ==> r == RangeScan(tokens, position + 1, 1)
    {
      var pos := position + 1;
      var size := |tokens|;
      if pos >= size {
        return Err(Fatal(OutOfRangeAccess));
      }
      var token := tokens[pos];
      var counter := 1;
      var isRange := false;
      while pos < size && counter > 0
        invariant pos < size && token == tokens[pos]
        invariant RangeScan(tokens, pos, counter) == RangeScan(tokens, position + 1, 1)
        decreases size - pos
      {
        if token.kind == OpenBracket {
          counter := counter + 1;
        } else if token.kind == CloseBracket {
          counter := counter - 1;
          if counter == 0 {
            break;
          }
        }
        if token.kind == Range {
          isRange := true;
          break;
        }
        if pos + 1 >= size {
          return Err(Fatal(OutOfRangeAccess));
        }
        pos := pos + 1;
        token := tokens[pos];
      }
      return Ok(isRange);
    }

    /**
     * Collects the tokens of a block body into `body`, counting nested
     * block keywords against `end`; the matching `end` is consumed but not
     * collected.
     */
    method CollectBodyTokens(body: seq<Token>) returns (collected: seq<Token>)
      requires Valid()
      modifies this
      ensures Valid() && tokens == old(tokens)
      ensures collected == body + tokens[old(position)..BodyScan(tokens, old(position), 1).0]
      ensures position == BodyScan(tokens, old(position), 1).1
    {
      ghost var start := position;
      var counter := 1;
      collected := body;
      while position < |tokens| && counter != 0
        invariant tokens == old(tokens) && start <= position <= |tokens|
        invariant counter != 0 ==> collected == body + tokens[start..position]
        invariant counter != 0 ==> BodyScan(tokens, position, counter) == BodyScan(tokens, start, 1)
        invariant counter == 0 ==> start < position &&
                                   BodyScan(tokens, start, 1) == (position - 1, position) &&
                                   collected == body + tokens[start..position - 1]
        decreases |tokens| - position, if counter == 0 then 0 else 1
      {
        var t := Current();
        assert t == tokens[position];
        if IsBlockKeyword(t) {
          assert BodyScan(tokens, position, counter) == BodyScan(tokens, position + 1, counter + 1);
          counter := counter + 1;
        } else if t.subType == KwEnd {
          if counter == 1 {
            assert BodyScan(tokens, position, counter) == (position, position + 1);
            counter := 0;
            Next();
            continue;
          }
          assert BodyScan(tokens, position, counter) == BodyScan(tokens, position + 1, counter - 1);
          counter := counter - 1;
        } else {
          assert BodyScan(tokens, position, counter) == BodyScan(tokens, position + 1, counter);
        }
        assert tokens[start..position + 1] == tokens[start..position] + [t];
        collected := collected + [t];
        Next();
      }
    }

    /** Reads an optional `< Base` clause of a class declaration. */
    method InterpretBaseClass() returns (baseClassName: Result<string>)
      requires Valid()
      modifies this
      ensures Valid() && tokens == old(tokens)
      ensures (baseClassName, position) == BaseClassAt(tokens, old(position))
    {
      if Current().kind == Operator {
        if Current().subType != OpsLessThan {
          return Err(Raise(SyntaxError, "Expected inheritance operator, `<`, in class definition."));
        }
        Next();
        if Current().kind != Identifier {
          return Err(Raise(SyntaxError, "Expected base class name."));
        }
        var name := Current().text;
        Next();
        return Ok(name);
      }
      return Ok("");
    }
  }
}
