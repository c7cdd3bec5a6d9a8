/**
 * The single-pass Pratt compiler of compiler.cpp: a parser that pulls tokens
 * from the scanner and emits bytecode for the function being compiled, with
 * a chain of compiler records (one per function being compiled, innermost
 * current) holding the local variable slots.
 */
module Compilation {
  import opened Wrappers
  import opened Values
  import opened Chunks
  import opened Objects
  import opened Lexer
  import opened Jumps

  // ---------------------------------------------------------------------------
  // Precedence and the rule table
  // ---------------------------------------------------------------------------

  datatype Precedence =
    | PNone | PAssignment | POr | PAnd | PEquality | PComparison
    | PTerm | PFactor | PUnary | PCall | PPrimary

  /** The enumerator's value; precedences are compared through it. */
  function Level(p: Precedence): nat
  {
    match p
    case PNone => 0
    case PAssignment => 1
    case POr => 2
    case PAnd => 3
    case PEquality => 4
    case PComparison => 5
    case PTerm => 6
    case PFactor => 7
    case PUnary => 8
    case PCall => 9
    case PPrimary => 10
  }

  /** `(Precedence)(p + 1)`: the precedence one level tighter. */
  function Next(p: Precedence): (r: Precedence)
    requires p != PPrimary
    ensures Level(r) == Level(p) + 1
  {
    match p
    case PNone => PAssignment
    case PAssignment => POr
    case POr => PAnd
    case PAnd => PEquality
    case PEquality => PComparison
    case PComparison => PTerm
    case PTerm => PFactor
    case PFactor => PUnary
    case PUnary => PCall
    case PCall => PPrimary
  }

  /** The prefix parse functions of the rule table; NoPrefix is a NULL entry. */
  datatype PrefixFn =
    | NoPrefix | GroupingFn | UnaryFn | NumberFn | StringFn | CharFn
    | NewLineFn | TabFn | VariableFn | LiteralFn

  /** The infix parse functions of the rule table; NoInfix is a NULL entry. */
  datatype InfixFn = NoInfix | BinaryFn | CallFn | AndFn | OrFn

  datatype ParseRule = ParseRule(prefix: PrefixFn, infix: InfixFn, precedence: Precedence)

  /** The tokens an expression can start with. */
  predicate StartsExpression(k: Kind)
  {
    k == Minus || k == Not || k == LeftPar || k == NewLine || k == Tab || k == Identifier
    || k == String || k == Number || k == Char || k == True || k == False
  }

  /** The tokens that continue an expression as an infix operator. */
  predicate ContinuesExpression(k: Kind)
  {
    k == Plus || k == Minus || k == Star || k == Slash || k == LeftPar
    || k == Equal || k == NotEqual || k == Greater || k == GreaterEqual
    || k == Less || k == LessEqual || k == And || k == Or
  }

  /**
   * get_rule: the rules table row of a token kind. A token binds as an infix
   * operator exactly when its precedence is above PNone, and only the
   * expression-starting tokens have a prefix function.
   */
  function GetRule(kind: Kind): (r: ParseRule)
    ensures r.prefix != NoPrefix ==> kind != Eof
    ensures r.infix == NoInfix <==> r.precedence == PNone
    ensures r.precedence != PPrimary
  {
    match kind
    case Plus => ParseRule(NoPrefix, BinaryFn, PTerm)
    case Minus => ParseRule(UnaryFn, BinaryFn, PTerm)
    case Star => ParseRule(NoPrefix, BinaryFn, PFactor)
    case Slash => ParseRule(NoPrefix, BinaryFn, PFactor)
    case Not => ParseRule(UnaryFn, NoInfix, PNone)
    case LeftPar => ParseRule(GroupingFn, CallFn, PCall)
    case NewLine => ParseRule(NewLineFn, NoInfix, PNone)
    case Tab => ParseRule(TabFn, NoInfix, PNone)
    case Equal => ParseRule(NoPrefix, BinaryFn, PEquality)
    case NotEqual => ParseRule(NoPrefix, BinaryFn, PEquality)
    case Greater => ParseRule(NoPrefix, BinaryFn, PComparison)
    case GreaterEqual => ParseRule(NoPrefix, BinaryFn, PComparison)
    case Less => ParseRule(NoPrefix, BinaryFn, PComparison)
    case LessEqual => ParseRule(NoPrefix, BinaryFn, PComparison)
    case Identifier => ParseRule(VariableFn, NoInfix, PNone)
    case String => ParseRule(StringFn, NoInfix, PNone)
    case Number => ParseRule(NumberFn, NoInfix, PNone)
    case Char => ParseRule(CharFn, NoInfix, PNone)
    case And => ParseRule(NoPrefix, AndFn, PAnd)
    case Or => ParseRule(NoPrefix, OrFn, POr)
    case True => ParseRule(LiteralFn, NoInfix, PNone)
    case False => ParseRule(LiteralFn, NoInfix, PNone)
    case _ => ParseRule(NoPrefix, NoInfix, PNone)
  }

  /** Exactly the expression-starting tokens have a prefix function, and exactly the operators an infix one. */
  lemma RuleTableShape(kind: Kind)
    ensures GetRule(kind).prefix != NoPrefix <==> StartsExpression(kind)
    ensures GetRule(kind).infix != NoInfix <==> ContinuesExpression(kind)
  {
  }

  /** The instruction _binary emits after the right operand, if any. */
  function BinaryOp(kind: Kind): (r: Option<OpCode>)
    ensures r.Some? <==> GetRule(kind).infix == BinaryFn
  {
    match kind
    case Plus => Some(OpAdd)
    case Minus => Some(OpSubtract)
    case Star => Some(OpMultiply)
    case Slash => Some(OpDivide)
    case Equal => Some(OpEqual)
    case NotEqual => Some(OpNotEqual)
    case Greater => Some(OpGreater)
    case GreaterEqual => Some(OpGreaterEqual)
    case Less => Some(OpLess)
    case LessEqual => Some(OpLessEqual)
    case _ => None
  }

  /** Factors bind tighter than terms, terms than comparisons, comparisons than equality, and so on down to `ow`. */
  lemma BindingOrder()
    ensures Level(GetRule(Star).precedence) > Level(GetRule(Plus).precedence)
    ensures Level(GetRule(Plus).precedence) > Level(GetRule(Less).precedence)
    ensures Level(GetRule(Less).precedence) > Level(GetRule(Equal).precedence)
    ensures Level(GetRule(Equal).precedence) > Level(GetRule(And).precedence)
    ensures Level(GetRule(And).precedence) > Level(GetRule(Or).precedence)
    ensures Level(GetRule(Or).precedence) > Level(PAssignment)
    ensures Level(GetRule(LeftPar).precedence) > Level(PUnary)
  {
  }

  // ---------------------------------------------------------------------------
  // Literal values
  // ---------------------------------------------------------------------------

  /** The value of a run of decimal digits. */
  function DigitsValue(w: string): nat
  {
    if w == [] then 0
    else DigitsValue(w[..|w| - 1]) * 10 + (if IsDigit(w[|w| - 1]) then w[|w| - 1] as int - '0' as int else 0)
  }

  /** 10 to the power n. */
  function Pow10(n: nat): (r: nat)
    ensures r >= 1
  {
    if n == 0 then 1 else 10 * Pow10(n - 1)
  }

  /** The index of the first '.', or |w| when there is none. */
  function DotIndex(w: string): (k: nat)
    ensures k <= |w|
    ensures forall j :: 0 <= j < k ==> w[j] != '.'
    ensures k < |w| ==> w[k] == '.'
  {
    if w == [] then 0 else if w[0] == '.' then 0 else 1 + DotIndex(w[1..])
  }

  /**
   * The exact value of a number lexeme (digits, optionally a '.' and more
   * digits): what strtod reads when no character after the lexeme extends
   * the number.
   */
  function NumberValue(w: string): real
  {
    var k := DotIndex(w);
    if k == |w| then DigitsValue(w) as real
    else DigitsValue(w[..k]) as real + DigitsValue(w[k + 1..]) as real / Pow10(|w| - k - 1) as real
  }

  lemma NumberValueExamples()
    ensures NumberValue("42") == 42.0
    ensures NumberValue("3.25") == 3.25
    ensures NumberValue("0.5") == 0.5
  {
    assert DotIndex("2") == 1 && DotIndex("42") == 2;
    assert "42"[..1] == "4" && DigitsValue("42") == 42;
    assert DotIndex("3.25") == 1;
    assert "3.25"[..1] == "3" && "3.25"[2..] == "25" && "25"[..1] == "2";
    assert DigitsValue("25") == 25 && Pow10(2) == 100;
    assert DotIndex("0.5") == 1;
    assert "0.5"[..1] == "0" && "0.5"[2..] == "5";
  }

  /** Powers of ten multiply by adding exponents. */
  lemma {:induction false} Pow10Add(m: nat, n: nat)
    ensures Pow10(m + n) == Pow10(m) * Pow10(n)
    decreases n
  {
    if n > 0 {
      Pow10Add(m, n - 1);
      assert Pow10(m + n) == 10 * Pow10(m + n - 1);
    }
  }

  /** A run of n digits is worth less than 10^n. */
  lemma {:induction false} DigitsValueBound(w: string)
    ensures DigitsValue(w) < Pow10(|w|)
    decreases |w|
  {
    if w != [] {
      DigitsValueBound(w[..|w| - 1]);
    }
  }

  /** Appending digits shifts the value of the first run left by their count. */
  lemma {:induction false} DigitsValueAppend(a: string, b: string)
    ensures DigitsValue(a + b) == DigitsValue(a) * Pow10(|b|) + DigitsValue(b)
    decreases |b|
  {
    if b == [] {
      assert a + b == a;
    } else {
      var b', c := b[..|b| - 1], b[|b| - 1];
      assert (a + b)[..|a + b| - 1] == a + b';
      assert (a + b)[|a + b| - 1] == c;
      var d := if IsDigit(c) then c as int - '0' as int else 0;
      assert DigitsValue(a + b) == DigitsValue(a + b') * 10 + d;
      assert DigitsValue(b) == DigitsValue(b') * 10 + d;
      DigitsValueAppend(a, b');
      ShiftDigit(DigitsValue(a), Pow10(|b'|), DigitsValue(b'), d);
    }
  }

  /** The arithmetic step of DigitsValueAppend. */
  lemma ShiftDigit(x: int, p: int, y: int, d: int)
    ensures (x * p + y) * 10 + d == x * (10 * p) + (y * 10 + d)
  {
  }

  /** A lexeme without a '.' denotes the integer its digits spell. */
  lemma IntegerValue(w: string)
    requires forall i :: 0 <= i < |w| ==> IsDigit(w[i])
    ensures NumberValue(w) == DigitsValue(w) as real
  {
  }

  /**
   * A lexeme `a.b` denotes a plus b scaled down by its length: the digits
   * of a and b together, divided by 10^|b|. The fraction is less than one.
   */
  lemma DecimalValue(a: string, b: string)
    requires forall i :: 0 <= i < |a| ==> IsDigit(a[i])
    requires forall i :: 0 <= i < |b| ==> IsDigit(b[i])
    ensures NumberValue(a + "." + b) == DigitsValue(a) as real + DigitsValue(b) as real / Pow10(|b|) as real
    ensures NumberValue(a + "." + b) == DigitsValue(a + b) as real / Pow10(|b|) as real
    ensures DigitsValue(b) as real / Pow10(|b|) as real < 1.0
  {
    var w := a + "." + b;
    DotAfterDigits(a, b);
    assert w[..|a|] == a && w[|a| + 1..] == b;
    DigitsValueAppend(a, b);
    DigitsValueBound(b);
    ScaleDown(DigitsValue(a), DigitsValue(b), Pow10(|b|));
  }

  /** The first '.' of `a.b` is the one after a, when a is digits. */
  lemma DotAfterDigits(a: string, b: string)
    requires forall i :: 0 <= i < |a| ==> IsDigit(a[i])
    ensures DotIndex(a + "." + b) == |a|
  {
    var w := a + "." + b;
    assert w[|a|] == '.';
  }

  /** The real arithmetic of DecimalValue. */
  lemma ScaleDown(x: nat, y: nat, p: nat)
    requires 1 <= p && y < p
    ensures x as real + y as real / p as real == (x * p + y) as real / p as real
    ensures y as real / p as real < 1.0
  {
    assert (x * p + y) as real == x as real * p as real + y as real;
  }

  // ---------------------------------------------------------------------------
  // Diagnostics
  // ---------------------------------------------------------------------------

  /** Where error_at says the error is: at the end, at a lexeme, or (for a scanner error) nowhere. */
  datatype Where = AtEnd | AtLexeme(lexeme: string) | Nowhere

  datatype Diagnostic = Diagnostic(line: int, where: Where, message: string)

  /** The report error_at writes for an error at this token. */
  function Diagnose(token: Token, message: string): (d: Diagnostic)
    ensures d.line == token.line && d.message == message
    ensures d.where.AtEnd? <==> token.kind == Eof
    ensures d.where.Nowhere? <==> token.kind == Error
    ensures d.where.AtLexeme? ==> d.where.lexeme == token.lexeme
  {
    var where := if token.kind == Eof then AtEnd else if token.kind == Error then Nowhere else AtLexeme(token.lexeme);
    Diagnostic(token.line, where, message)
  }

  // ---------------------------------------------------------------------------
  // Compiler records and local slots
  // ---------------------------------------------------------------------------

  /** A local variable; depth -1 marks one declared but not yet initialised. */
  datatype Local = Local(name: Token, depth: int)

  datatype FunType = TypeScript | TypeFunction

  /** UINT8_COUNT: the number of local slots of one function. */
  const LocalsMax := 256

  /** True for a slot that belongs to a scope enclosing `depth` (the break condition of declare_variable). */
  predicate OuterSlot(l: Local, depth: int)
  {
    l.depth != -1 && l.depth < depth
  }

  /** `ls` is `before` followed only by locals at `depth`. */
  ghost predicate ExtendsSeq(before: seq<Local>, ls: seq<Local>, depth: int)
  {
    |before| <= |ls| && ls[..|before|] == before && forall i :: |before| <= i < |ls| ==> ls[i].depth == depth
  }

  lemma ExtendsSelf(a: seq<Local>, depth: int)
    ensures ExtendsSeq(a, a, depth)
  {
  }

  lemma ExtendsTrans(a: seq<Local>, b: seq<Local>, c: seq<Local>, depth: int)
    requires ExtendsSeq(a, b, depth) && ExtendsSeq(b, c, depth)
    ensures ExtendsSeq(a, c, depth)
  {
    assert c[..|a|] == c[..|b|][..|a|];
    forall i | |a| <= i < |c|
      ensures c[i].depth == depth
    {
      if i < |b| {
        assert c[i] == c[..|b|][i];
      }
    }
  }

  /** Locals added at `depth` keep the newest local no deeper than `depth`. */
  lemma ExtendsKeepsTop(a: seq<Local>, b: seq<Local>, depth: int)
    requires ExtendsSeq(a, b, depth) && |a| >= 1 && a[|a| - 1].depth <= depth
    ensures |b| >= 1 && b[|b| - 1].depth <= depth
  {
    if |b| == |a| {
      assert b[|a| - 1] == b[..|a|][|a| - 1];
    }
  }

  /**
   * Leaving a scope opened on `before` (whose newest local is no deeper than
   * `depth`): when the slots from `n` up to `m` are all deeper and slot `n - 1`
   * is not, exactly the locals of the inner scope were dropped.
   */
  lemma ScopeClosed(before: seq<Local>, ls: seq<Local>, depth: int, n: int, m: int)
    requires |before| >= 1 && before[|before| - 1].depth <= depth
    requires 1 <= n <= m <= |ls| && ExtendsSeq(before, ls[..m], depth + 1)
    requires ls[n - 1].depth <= depth && forall i :: n <= i < m ==> ls[i].depth > depth
    ensures ls[..n] == before
  {
    assert n == |before| by {
      assert ls[..m][n - 1] == ls[n - 1];
      assert ls[..m][|before| - 1] == ls[|before| - 1];
    }
    assert ls[..n] == ls[..m][..|before|];
  }

  /** The index of the newest local of an enclosing scope, or -1: slots above it form the current scope. */
  ghost function ScopeStart(ls: seq<Local>, depth: int): (b: int)
    ensures -1 <= b < |ls|
    ensures b >= 0 ==> OuterSlot(ls[b], depth)
    ensures forall i :: b < i < |ls| ==> !OuterSlot(ls[i], depth)
  {
    if ls == [] then -1
    else if OuterSlot(ls[|ls| - 1], depth) then |ls| - 1
    else ScopeStart(ls[..|ls| - 1], depth)
  }

  /** The Compiler record of compiler.cpp. */
  class Compiler {
    const enclosing: Compiler?
    const fn: Function
    /** The heap reference of `fn`. */
    const fnRef: ObjRef
    const ftype: FunType
    const locals: array<Local>
    var localCount: int
    var scopeDepth: int

    /** Slot 0 is the reserved, unnamed slot at depth 0. */
    ghost predicate Valid()
      reads this, locals
    {
      locals.Length == LocalsMax && 1 <= localCount <= LocalsMax && 0 <= scopeDepth
      && locals[0].depth == 0
    }

    ghost function Active(): seq<Local>
      reads this, locals
      requires Valid()
    {
      locals[..localCount]
    }

    /** init_compiler's own part: no scope, and slot 0 reserved with an empty name at depth 0. */
    constructor (enclosing: Compiler?, fn: Function, fnRef: ObjRef, ftype: FunType)
      ensures Valid() && fresh(locals)
      ensures this.enclosing == enclosing && this.fn == fn && this.fnRef == fnRef && this.ftype == ftype
      ensures localCount == 1 && scopeDepth == 0 && locals[0] == Local(Token(Eof, "", 0), 0)
    {
      this.enclosing := enclosing;
      this.fn := fn;
      this.fnRef := fnRef;
      this.ftype := ftype;
      locals := new Local[LocalsMax](_ => Local(Token(Eof, "", 0), 0));
      localCount := 1;
      scopeDepth := 0;
    }

    /** The search of resolve_local: the newest slot with this name, or -1. */
    method FindLocal(name: string) returns (slot: int)
      requires Valid()
      ensures -1 <= slot < localCount
      ensures slot >= 0 ==> locals[slot].name.lexeme == name
      ensures forall i :: slot < i < localCount ==> locals[i].name.lexeme != name
    {
      slot := localCount - 1;
      while slot >= 0
        invariant -1 <= slot < localCount
        invariant forall i :: slot < i < localCount ==> locals[i].name.lexeme != name
      {
        if locals[slot].name.lexeme == name {
          return;
        }
        slot := slot - 1;
      }
    }

    /** Some local of the innermost scope (above the last slot of an enclosing one) has this name. */
    ghost predicate DeclaredInScope(name: string)
      reads this, locals
      requires Valid()
    {
      exists i :: ScopeStart(Active(), scopeDepth) < i < localCount && locals[i].name.lexeme == name
    }

    /** The newest local belongs to an open scope: it is initialised no deeper than the current depth. */
    ghost predicate Closed()
      reads this, locals
      requires Valid()
    {
      locals[localCount - 1].depth <= scopeDepth
    }

    /** The slots are `before` followed by locals of the current scope only. */
    ghost predicate Extends(before: seq<Local>)
      reads this, locals
      requires Valid()
    {
      ExtendsSeq(before, Active(), scopeDepth)
    }

    /**
     * The search of declare_variable: walk down from the newest slot until
     * one of an enclosing scope, looking for the same name.
     */
    method HasDuplicateInScope(name: string) returns (dup: bool)
      requires Valid()
      ensures dup <==> DeclaredInScope(name)
    {
      ghost var b := ScopeStart(Active(), scopeDepth);
      var i := localCount - 1;
      dup := false;
      while i >= 0
        invariant -1 <= i < localCount
        invariant b <= i
        invariant dup <==> exists j :: i < j < localCount && locals[j].name.lexeme == name
        decreases i
      {
        if OuterSlot(locals[i], scopeDepth) {
          assert Active()[i] == locals[i];
          assert i == b;
          return;
        }
        assert Active()[i] == locals[i];
        if locals[i].name.lexeme == name {
          dup := true;
        }
        i := i - 1;
      }
    }
  }

  // ---------------------------------------------------------------------------
  // The parser
  // ---------------------------------------------------------------------------

  /** What the scanner guarantees of the literal tokens the prefix rules slice. */
  predicate TokenWf(t: Token)
  {
    (t.kind == String ==> |t.lexeme| >= 2) && (t.kind == Char ==> |t.lexeme| == 3)
  }

  /**
   * The value a literal token stands for: a number's decimal value, a
   * string's characters between the quotes (as a string object), a
   * character's one byte, and the newline and tab characters.
   */
  ghost predicate Denotes(t: Token, v: Value, objects: seq<Obj>)
  {
    match t.kind
    case Number => v == NumberVal(NumberValue(t.lexeme))
    case String => |t.lexeme| >= 2 && v.ObjectVal? && v.obj < |objects| && objects[v.obj] == StringObj(t.lexeme[1..|t.lexeme| - 1])
    case Char => |t.lexeme| == 3 && v == CharVal(t.lexeme[1])
    case NewLine => v == CharVal('\n')
    case Tab => v == CharVal('\t')
    case _ => false
  }

  /**
   * A forward jump instruction `op` whose operand is at `operand`, patched
   * to land on `target`: its distance is measured from just past the operand.
   */
  ghost predicate JumpTo(code: seq<byte>, operand: int, op: OpCode, target: int)
  {
    && 1 <= operand && operand + 2 <= target <= |code|
    && code[operand - 1] == OpByte(op)
    && code[operand] == Hi(target - operand - 2) && code[operand + 1] == Lo(target - operand - 2)
  }

  /** The virtual machine's READ_SHORT on such a jump takes it to `target`, when the distance fits in 16 bits. */
  lemma JumpToLands(code: seq<byte>, operand: int, op: OpCode, target: int)
    requires JumpTo(code, operand, op, target) && target - operand - 2 <= ShortMax
    ensures operand + 2 + ReadShort(code[operand], code[operand + 1]) == target
  {
    ForwardJumpLands(operand, target);
  }

  /** Patching the operand of the jump at `operand` with the current length makes it land there. */
  lemma PatchedJumpTo(code: seq<byte>, operand: int, op: OpCode)
    requires 1 <= operand && operand + 2 <= |code| && code[operand - 1] == OpByte(op)
    ensures var d := |code| - operand - 2;
      JumpTo(code[operand := Hi(d)][operand + 1 := Lo(d)], operand, op, |code|)
  {
  }

  /** A patched jump stays patched when code is appended or a later operand is patched. */
  lemma JumpToKept(code: seq<byte>, code': seq<byte>, operand: int, op: OpCode, target: int)
    requires JumpTo(code, operand, op, target)
    requires |code| <= |code'| && forall i :: operand - 1 <= i <= operand + 1 ==> code'[i] == code[i]
    ensures JumpTo(code', operand, op, target)
  {
  }

  /** An OP_LOOP instruction at `at` whose operand takes the virtual machine back to `target`. */
  ghost predicate LoopTo(code: seq<byte>, at: int, target: int)
  {
    && 0 <= target <= at && at + 3 <= |code|
    && code[at] == OpByte(OpLoop)
    && code[at + 1] == Hi(at + 3 - target) && code[at + 2] == Lo(at + 3 - target)
  }

  /** READ_SHORT on that operand, subtracted from the ip just past it, gives `target`, when the distance fits in 16 bits. */
  lemma LoopToLands(code: seq<byte>, at: int, target: int)
    requires LoopTo(code, at, target) && at + 3 - target <= ShortMax
    ensures at + 3 - ReadShort(code[at + 1], code[at + 2]) == target
  {
    LoopJumpLands(target, at + 1);
  }

  /** The statement keywords synchronize stops at. */
  predicate SyncPoint(k: Kind)
  {
    k == Var || k == If || k == Loop || k == Print || k == Read
  }

  /** The tokens statement dispatches on, and those that start an expression statement. */
  predicate StartsStatement(k: Kind)
  {
    k == Print || k == Read || k == If || k == Loop || k == Out || k == LeftSqb || StartsExpression(k)
  }

  /** What a declaration can begin with: a function or variable declaration, or a statement. */
  predicate StartsDeclaration(k: Kind)
  {
    k == Fun || k == Var || StartsStatement(k)
  }

  /** `code'` is `code` with bytes appended, except that the two operand bytes at `operand` may differ. */
  ghost predicate PatchedAppend(code: seq<byte>, code': seq<byte>, operand: int)
  {
    |code| <= |code'| && forall i :: 0 <= i < |code| && i != operand && i != operand + 1 ==> code'[i] == code[i]
  }

  /** The instruction read_statement emits for an input type token. */
  function ReadOp(k: Kind): Option<OpCode>
  {
    match k
    case ReadString => Some(OpReadString)
    case ReadNumber => Some(OpReadNumber)
    case ReadChar => Some(OpReadChar)
    case _ => None
  }

  /** A uint8_t counter incremented past 255 wraps to 0. */
  lemma WrapStep(c: nat)
    ensures (c % 256 + 1) % 256 == (c + 1) % 256
  {
  }

  /** The instruction named_variable emits: get or set, of a local slot or a global name. */
  function VariableOp(local: bool, store: bool): (op: OpCode)
    ensures op == OpGetLocal || op == OpSetLocal || op == OpGetGlobal || op == OpSetGlobal
    ensures (op == OpSetLocal || op == OpSetGlobal) <==> store
    ensures (op == OpGetLocal || op == OpSetLocal) <==> local
  {
    if local then (if store then OpSetLocal else OpGetLocal)
    else (if store then OpSetGlobal else OpGetGlobal)
  }

  /** The byte of a set instruction, local or global. */
  predicate SetsVariable(b: byte)
  {
    b == OpByte(OpSetLocal) || b == OpByte(OpSetGlobal)
  }

  /** Nothing before the new chunk length was overwritten: `s` is a prefix of `t`. */
  lemma PatchKeepsPrefix(s: seq<byte>, t: seq<byte>, offset: int, a: byte, b: byte)
    requires s <= t && |s| <= offset && offset + 1 < |t|
    ensures s <= t[offset := a][offset + 1 := b]
  {
    assert s == t[offset := a][offset + 1 := b][..|s|];
  }

  /** n OP_POP instructions. */
  function Pops(n: nat): (r: seq<byte>)
    ensures |r| == n && forall i :: 0 <= i < n ==> r[i] == OpByte(OpPop)
  {
    if n == 0 then [] else Pops(n - 1) + [OpByte(OpPop)]
  }

  lemma PopsStep(code: seq<byte>, n: nat)
    ensures code + Pops(n) + [OpByte(OpPop)] == code + Pops(n + 1)
  {
  }

  /** The slot resolve_local finds: the newest local with this name, or -1. */
  function Resolve(ls: seq<Local>, name: string): (slot: int)
    ensures -1 <= slot < |ls|
    ensures slot >= 0 ==> ls[slot].name.lexeme == name
  {
    if ls == [] then -1
    else if ls[|ls| - 1].name.lexeme == name then |ls| - 1
    else Resolve(ls[..|ls| - 1], name)
  }

  /** No local newer than the one Resolve finds has the name. */
  lemma {:induction false} ResolveNewest(ls: seq<Local>, name: string)
    ensures forall i :: Resolve(ls, name) < i < |ls| ==> ls[i].name.lexeme != name
  {
    if ls != [] && ls[|ls| - 1].name.lexeme != name {
      var init := ls[..|ls| - 1];
      ResolveNewest(init, name);
      assert forall i :: 0 <= i < |init| ==> init[i] == ls[i];
    }
  }

  /** Resolve is the only slot that has the name and no newer namesake. */
  lemma ResolveIsNewest(ls: seq<Local>, name: string, slot: int)
    requires -1 <= slot < |ls| && (slot >= 0 ==> ls[slot].name.lexeme == name)
    requires forall i :: slot < i < |ls| ==> ls[i].name.lexeme != name
    ensures slot == Resolve(ls, name)
  {
    ResolveNewest(ls, name);
  }

  /**
   * The Parser record together with the state compiler.cpp keeps in globals:
   * the scanner it reads, the heap it allocates in, the current compiler
   * record, and the error reports it has written.
   */
  class Parser {
    const scanner: Scanner
    const heap: Heap
    var current: Token
    var previous: Token
    var hadError: bool
    var panicMode: bool
    /** The reports written to stderr, oldest first. */
    var diagnostics: seq<Diagnostic>
    /** `current` of compiler.cpp: the innermost function being compiled. */
    var compiler: Compiler

    ghost predicate Valid()
      reads this, scanner, heap, compiler, compiler.locals, compiler.fn.chunk, compiler.fn.chunk.constants
    {
      && scanner.Valid() && heap.Valid() && compiler.Valid() && compiler.fn.chunk.Valid()
      && compiler.fnRef < |heap.objects| && heap.objects[compiler.fnRef] == FunctionObj(compiler.fn)
      && (hadError <==> diagnostics != [])
      && (panicMode ==> hadError)
      && TokenWf(current) && TokenWf(previous)
    }

    /** Two compiler records share no slot table, chunk or constant pool. */
    ghost predicate Separate(c: Compiler, d: Compiler)
      reads c, d, c.fn, d.fn, c.fn.chunk, d.fn.chunk
    {
      c != d && c.locals != d.locals && c.fn.chunk != d.fn.chunk && c.fn.chunk.constants != d.fn.chunk.constants
    }

    /** A compiler record this parser could switch back to: its slots and chunk are well formed and its function is in the heap. */
    ghost predicate Hosts(c: Compiler)
      reads this, heap, c, c.locals, c.fn.chunk, c.fn.chunk.constants
    {
      c.Valid() && c.fn.chunk.Valid() && c.fnRef < |heap.objects| && heap.objects[c.fnRef] == FunctionObj(c.fn)
    }

    /** The objects an expression may change. */
    ghost function ExprFrame(): set<object>
      reads this
    {
      {this, scanner, heap, compiler.fn.chunk, compiler.fn.chunk.constants}
    }

    /** The objects a declaration may change: also the compiler record and its slots. */
    ghost function StmtFrame(): set<object>
      reads this
    {
      ExprFrame() + {compiler, compiler.locals}
    }

    /** One value was added to the constant pool, which held `before`. */
    ghost predicate NewConstant(before: seq<Value>)
      reads this`compiler, compiler.fn.chunk, compiler.fn.chunk.constants
    {
      var values := compiler.fn.chunk.constants.values;
      |values| == |before| + 1 && values[..|before|] == before
    }

    /** The newest value of the constant pool (Null when it is empty). */
    ghost function LastConstant(): Value
      reads this`compiler, compiler.fn.chunk, compiler.fn.chunk.constants
    {
      var values := compiler.fn.chunk.constants.values;
      if values == [] then NullVal else values[|values| - 1]
    }

    /** The bytecode of the function being compiled. */
    ghost function Code(): seq<byte>
      reads this`compiler, compiler.fn.chunk
    {
      compiler.fn.chunk.code
    }

    /**
     * The code is `before` followed by OP_CONSTANT and the index of pool
     * slot `slot`; past slot 255 the index byte is 0 and an error is reported.
     */
    ghost predicate LoadsSlot(before: seq<byte>, slot: nat)
      reads this`compiler, this`hadError, compiler.fn.chunk
    {
      && Code() == before + [OpByte(OpConstant), if slot <= 255 then slot as byte else 0]
      && (slot > 255 ==> hadError)
    }

    /**
     * Parsing progress: twice the unread input, plus one while the current
     * token is not the end. Consuming any token other than EOF lowers it.
     */
    ghost function Measure(): nat
      reads this`current, scanner
    {
      (if scanner.current <= |scanner.source| then 2 * (|scanner.source| - scanner.current) else 0)
      + (if current.kind != Eof then 1 else 0)
    }

    /** The parser state compile sets up: no error, no panic, both tokens EOF placeholders. */
    constructor (scanner: Scanner, heap: Heap, compiler: Compiler)
      requires scanner.Valid() && heap.Valid() && compiler.Valid() && compiler.fn.chunk.Valid()
      requires compiler.fnRef < |heap.objects| && heap.objects[compiler.fnRef] == FunctionObj(compiler.fn)
      ensures Valid() && this.scanner == scanner && this.heap == heap && this.compiler == compiler
      ensures !hadError && !panicMode && diagnostics == [] && current.kind == Eof
    {
      this.scanner := scanner;
      this.heap := heap;
      this.compiler := compiler;
      current := Token(Eof, "", 0);
      previous := Token(Eof, "", 0);
      hadError, panicMode := false, false;
      diagnostics := [];
    }

    /** error_at: the first error of a statement is reported and starts panic mode; later ones are dropped. */
    method ErrorAt(token: Token, message: string)
      requires Valid()
      modifies this
      ensures Valid() && compiler == old(compiler) && current == old(current) && previous == old(previous)
      ensures hadError && panicMode
      ensures diagnostics == if old(panicMode) then old(diagnostics) else old(diagnostics) + [Diagnose(token, message)]
    {
      if panicMode {
        return;
      }
      panicMode := true;
      diagnostics := diagnostics + [Diagnose(token, message)];
      hadError := true;
    }

    /** error: at the previous token. */
    method ErrorAtPrevious(message: string)
      requires Valid()
      modifies this
      ensures Valid() && compiler == old(compiler) && current == old(current) && previous == old(previous)
      ensures hadError && panicMode
      ensures diagnostics == if old(panicMode) then old(diagnostics) else old(diagnostics) + [Diagnose(previous, message)]
    {
      ErrorAt(previous, message);
    }

    /** `if (cond) error(message)`: an error at the previous token when the condition holds. */
    method ErrorIf(cond: bool, message: string)
      requires Valid()
      modifies this
      ensures Valid() && compiler == old(compiler) && current == old(current) && previous == old(previous)
      ensures old(hadError) || cond ==> hadError
      ensures !cond ==> diagnostics == old(diagnostics) && panicMode == old(panicMode) && hadError == old(hadError)
    {
      if cond {
        ErrorAtPrevious(message);
      }
    }

    /** error_at_current: at the current token. */
    method ErrorAtCurrent(message: string)
      requires Valid()
      modifies this
      ensures Valid() && compiler == old(compiler) && current == old(current) && previous == old(previous)
      ensures hadError && panicMode
      ensures diagnostics == if old(panicMode) then old(diagnostics) else old(diagnostics) + [Diagnose(current, message)]
    {
      ErrorAt(current, message);
    }

    /** scan_token, with what advance relies on: the cursor never moves back, and moves on unless at the end. */
    method ScanNext() returns (tok: Token)
      requires scanner.Valid()
      modifies scanner
      ensures scanner.Valid() && TokenWf(tok)
      ensures old(scanner.current) <= scanner.current
      ensures tok.kind != Eof ==> old(scanner.current) < scanner.current
    {
      tok := scanner.ScanToken();
    }

    /**
     * advance: the current token becomes the previous one, and the scanner is
     * read until it yields a token that is not an error; each error token is
     * reported with its message.
     */
    method Advance()
      requires Valid()
      modifies this, scanner
      ensures old(hadError) ==> hadError
      ensures Valid() && compiler == old(compiler)
      ensures previous == old(current) && current.kind != Error
      ensures Measure() <= old(Measure())
      ensures old(current.kind) != Eof ==> Measure() < old(Measure())
      ensures old(diagnostics) <= diagnostics && (|diagnostics| == |old(diagnostics)| ==> panicMode == old(panicMode))
    {
      previous := current;
      current := ScanNext();
      SkipErrors();
    }

    /** The loop of advance: report each error token and scan again, until a token that is not an error. */
    method SkipErrors()
      requires Valid()
      modifies this, scanner
      ensures Valid() && compiler == old(compiler) && previous == old(previous) && current.kind != Error
      ensures old(hadError) ==> hadError
      ensures old(diagnostics) <= diagnostics && (|diagnostics| == |old(diagnostics)| ==> panicMode == old(panicMode))
      ensures old(scanner.current) <= scanner.current
      ensures old(current.kind) != Eof && current.kind == Eof ==> old(scanner.current) <= scanner.current
      ensures current.kind != Eof && old(current.kind) == Error ==> old(scanner.current) < scanner.current
      ensures old(current.kind) != Error ==> current == old(current) && unchanged(scanner)
    {
      while current.kind == Error
        invariant Valid() && compiler == old(compiler) && previous == old(previous)
        invariant old(hadError) ==> hadError
        invariant old(diagnostics) <= diagnostics && (|diagnostics| == |old(diagnostics)| ==> panicMode == old(panicMode))
        invariant old(scanner.current) <= scanner.current
        invariant old(current.kind) != Error ==> current == old(current) && unchanged(scanner)
        invariant current.kind != Eof && current != old(current) ==> old(scanner.current) < scanner.current
        decreases |scanner.source| - scanner.current, if current.kind == Error then 1 else 0
      {
        ReportAndRescan();
      }
    }

    /** One step of the loop of advance: report the error token, then scan the next token. */
    method ReportAndRescan()
      requires Valid()
      modifies this, scanner
      ensures Valid() && compiler == old(compiler) && previous == old(previous) && hadError
      ensures old(diagnostics) <= diagnostics && panicMode
      ensures |diagnostics| == if old(panicMode) then |old(diagnostics)| else |old(diagnostics)| + 1
      ensures old(scanner.current) <= scanner.current
      ensures current.kind != Eof ==> old(scanner.current) < scanner.current
    {
      ErrorAtCurrent(current.lexeme);
      current := ScanNext();
    }

    /** consume: advance past a token of the expected kind, or report the message at the current token. */
    method Consume(kind: Kind, message: string)
      requires Valid()
      modifies this, scanner
      ensures old(hadError) ==> hadError
      ensures Valid() && compiler == old(compiler) && Code() == old(Code())
      ensures Measure() <= old(Measure())
      ensures old(current.kind) == kind ==> previous == old(current) && current.kind != Error
      ensures old(current.kind) != kind ==>
        current == old(current) && previous == old(previous) && hadError && panicMode && unchanged(scanner)
    {
      if current.kind == kind {
        Advance();
        return;
      }
      ErrorAtCurrent(message);
    }

    /** check: the current token has this kind. */
    predicate Check(kind: Kind)
      reads this
    {
      current.kind == kind
    }

    /** match: consume the current token when it has this kind. */
    method Match(kind: Kind) returns (b: bool)
      requires Valid()
      modifies this, scanner
      ensures old(hadError) ==> hadError
      ensures Valid() && compiler == old(compiler)
      ensures b <==> old(current.kind) == kind
      ensures b ==> previous == old(current) && current.kind != Error && Measure() <= old(Measure())
      ensures b && kind != Eof ==> Measure() < old(Measure())
      ensures !b ==> unchanged(this) && unchanged(scanner)
    {
      if !Check(kind) {
        return false;
      }
      Advance();
      return true;
    }

    /** emit_byte: append to the current chunk, on the previous token's line. */
    method EmitByte(b: byte)
      requires Valid()
      modifies compiler.fn.chunk
      ensures Valid() && Code() == old(Code()) + [b]
      ensures compiler.fn.chunk.lineOf == old(compiler.fn.chunk.lineOf) + [previous.line]
    {
      compiler.fn.chunk.Write(b, previous.line);
    }

    method EmitOp(op: OpCode)
      requires Valid()
      modifies compiler.fn.chunk
      ensures Valid() && Code() == old(Code()) + [OpByte(op)]
    {
      EmitByte(OpByte(op));
    }

    /** emit_bytes: an instruction and its operand. */
    method EmitBytes(op: OpCode, operand: byte)
      requires Valid()
      modifies compiler.fn.chunk
      ensures Valid() && Code() == old(Code()) + [OpByte(op)] + [operand]
    {
      EmitByte(OpByte(op));
      EmitByte(operand);
    }

    /**
     * emit_loop: OP_LOOP and the distance back to `loopStart`, measured from
     * just past the operand (Jumps.LoopJumpLands); a distance over 16 bits
     * is an error and is stored truncated.
     */
    method EmitLoop(loopStart: int)
      requires Valid() && 0 <= loopStart <= |Code()|
      modifies this, compiler.fn.chunk
      ensures old(hadError) ==> hadError
      ensures Valid() && compiler == old(compiler) && current == old(current) && previous == old(previous)
      ensures var offset := |old(Code())| + 3 - loopStart;
        && Code() == old(Code()) + [OpByte(OpLoop)] + [Hi(offset)] + [Lo(offset)]
        && (offset > ShortMax ==> hadError)
    {
      var offset := |compiler.fn.chunk.code| + 3 - loopStart;
      var hi, lo := Hi(offset), Lo(offset);
      EmitOp(OpLoop);
      ErrorIf(offset > ShortMax, "w-woop body is t-too wawge.");
      EmitBytes2(hi, lo);
    }

    /** Two operand bytes. */
    method EmitBytes2(b1: byte, b2: byte)
      requires Valid()
      modifies compiler.fn.chunk
      ensures Valid() && Code() == old(Code()) + [b1] + [b2]
    {
      EmitByte(b1);
      EmitByte(b2);
    }

    /** emit_jump: the instruction and a placeholder operand; the result is the operand's offset. */
    method EmitJump(op: OpCode) returns (operand: int)
      requires Valid()
      modifies compiler.fn.chunk
      ensures Valid() && Code() == old(Code()) + [OpByte(op)] + [0xff] + [0xff]
      ensures operand == |old(Code())| + 1 && operand + 2 == |Code()|
    {
      EmitByte(OpByte(op));
      EmitByte(0xff);
      EmitByte(0xff);
      operand := |compiler.fn.chunk.code| - 2;
    }

    /** emit_return: an implicit `out nuww` at the end of every function. */
    method EmitReturn()
      requires Valid()
      modifies compiler.fn.chunk
      ensures Valid() && Code() == old(Code()) + [OpByte(OpNull)] + [OpByte(OpOut)]
    {
      EmitByte(OpByte(OpNull));
      EmitByte(OpByte(OpOut));
    }

    /**
     * make_constant: add to the constant pool and return its index, which must
     * fit in one byte; a 257th constant is an error and yields index 0.
     */
    method MakeConstant(value: Value) returns (index: byte)
      requires Valid()
      modifies this, compiler.fn.chunk.constants
      ensures old(hadError) ==> hadError
      ensures Valid() && compiler == old(compiler) && current == old(current) && previous == old(previous)
      ensures compiler.fn.chunk.constants.values == old(compiler.fn.chunk.constants.values) + [value]
      ensures var n := |old(compiler.fn.chunk.constants.values)|;
        && (n <= 255 ==> index as int == n && diagnostics == old(diagnostics) && panicMode == old(panicMode))
        && (n > 255 ==> index == 0 && hadError)
    {
      var c := compiler.fn.chunk.AddConstant(value);
      if c > 255 {
        ErrorAtPrevious("too many constwants in one chwnk.");
        return 0;
      }
      return c as byte;
    }

    /** emit_constant: OP_CONSTANT with the value's pool index. */
    method EmitConstant(value: Value)
      requires Valid()
      modifies this, compiler.fn.chunk, compiler.fn.chunk.constants
      ensures old(hadError) ==> hadError
      ensures Valid() && compiler == old(compiler) && current == old(current) && previous == old(previous)
      ensures compiler.fn.chunk.constants.values == old(compiler.fn.chunk.constants.values) + [value]
      ensures LoadsSlot(old(Code()), |old(compiler.fn.chunk.constants.values)|)
    {
      var index := MakeConstant(value);
      EmitBytes(OpConstant, index);
    }

    /**
     * patch_jump: point the jump whose operand is at `operand` to the end of
     * the chunk (Jumps.ForwardJumpLands); a distance over 16 bits is an error
     * and is stored truncated.
     */
    method PatchJump(operand: int)
      requires Valid() && 0 <= operand && operand + 2 <= |Code()|
      modifies this, compiler.fn.chunk
      ensures old(hadError) ==> hadError
      ensures Valid() && compiler == old(compiler) && current == old(current) && previous == old(previous)
      ensures var jump := |old(Code())| - operand - 2;
        && Code() == old(Code())[operand := Hi(jump)][operand + 1 := Lo(jump)]
        && (jump > ShortMax ==> hadError)
    {
      var jump := |compiler.fn.chunk.code| - operand - 2;
      if jump > ShortMax {
        ErrorAtPrevious("too much c-code to jwump ovew.");
      }
      compiler.fn.chunk.Patch(operand, Hi(jump));
      compiler.fn.chunk.Patch(operand + 1, Lo(jump));
    }

    /** patch_jump on a jump instruction `op`: it lands at the end of the chunk, and no other byte changes. */
    method PatchJumpHere(operand: int, ghost op: OpCode)
      requires Valid() && 1 <= operand && operand + 2 <= |Code()| && Code()[operand - 1] == OpByte(op)
      modifies this, compiler.fn.chunk
      ensures old(hadError) ==> hadError
      ensures Valid() && compiler == old(compiler) && current == old(current) && previous == old(previous)
      ensures |Code()| == |old(Code())| && JumpTo(Code(), operand, op, |Code()|)
      ensures Code()[..operand] == old(Code())[..operand] && Code()[operand + 2..] == old(Code())[operand + 2..]
      ensures |Code()| - operand - 2 > ShortMax ==> hadError
    {
      ghost var c := Code();
      PatchJump(operand);
      PatchedJumpTo(c, operand, op);
      ghost var d := |c| - operand - 2;
      assert Code() == c[operand := Hi(d)][operand + 1 := Lo(d)];
      assert Code()[..operand] == c[..operand];
      assert Code()[operand + 2..] == c[operand + 2..];
    }

    // -------------------------------------------------------------------------
    // Scopes and local variables
    // -------------------------------------------------------------------------

    /** begin_scope. */
    method BeginScope()
      requires Valid()
      modifies compiler
      ensures Valid()
      ensures compiler.scopeDepth == old(compiler.scopeDepth) + 1 && compiler.localCount == old(compiler.localCount)
    {
      compiler.scopeDepth := compiler.scopeDepth + 1;
    }

    /** One step of end_scope: an OP_POP for the newest local, which is dropped. */
    method PopLocal()
      requires Valid() && compiler.localCount >= 2
      modifies compiler, compiler.fn.chunk
      ensures Valid() && compiler.scopeDepth == old(compiler.scopeDepth)
      ensures compiler.localCount == old(compiler.localCount) - 1
      ensures Code() == old(Code()) + [OpByte(OpPop)]
    {
      EmitOp(OpPop);
      compiler.localCount := compiler.localCount - 1;
    }

    /**
     * end_scope: leave the scope, dropping exactly the trailing locals deeper
     * than the enclosing scope, with one OP_POP for each. Slot 0 (depth 0)
     * always survives.
     */
    method EndScope()
      requires Valid() && compiler.scopeDepth >= 1
      modifies compiler, compiler.fn.chunk
      ensures Valid() && compiler.scopeDepth == old(compiler.scopeDepth) - 1
      ensures 1 <= compiler.localCount <= old(compiler.localCount)
      ensures compiler.locals[compiler.localCount - 1].depth <= compiler.scopeDepth
      ensures forall i :: compiler.localCount <= i < old(compiler.localCount) ==> compiler.locals[i].depth > compiler.scopeDepth
      ensures Code() == old(Code()) + Pops(old(compiler.localCount) - compiler.localCount)
    {
      compiler.scopeDepth := compiler.scopeDepth - 1;
      while compiler.localCount > 0 && compiler.locals[compiler.localCount - 1].depth > compiler.scopeDepth
        invariant Valid() && compiler.scopeDepth == old(compiler.scopeDepth) - 1
        invariant compiler.localCount <= old(compiler.localCount)
        invariant forall i :: compiler.localCount <= i < old(compiler.localCount) ==> compiler.locals[i].depth > compiler.scopeDepth
        invariant Code() == old(Code()) + Pops(old(compiler.localCount) - compiler.localCount)
        decreases compiler.localCount
      {
        PopsStep(old(Code()), old(compiler.localCount) - compiler.localCount);
        PopLocal();
      }
    }

    /** mark_initialized: the newest local gets the current depth; at global scope nothing happens. */
    method MarkInitialized()
      requires Valid() && (compiler.scopeDepth > 0 ==> compiler.localCount >= 2)
      modifies compiler.locals
      ensures Valid()
      ensures compiler.scopeDepth > 0 ==>
        compiler.locals[..] == old(compiler.locals[..])[compiler.localCount - 1 := Local(old(compiler.locals[compiler.localCount - 1].name), compiler.scopeDepth)]
      ensures compiler.scopeDepth == 0 ==> compiler.locals[..] == old(compiler.locals[..])
    {
      if compiler.scopeDepth == 0 {
        return;
      }
      var i := compiler.localCount - 1;
      compiler.locals[i] := Local(compiler.locals[i].name, compiler.scopeDepth);
    }

    /** add_local: a new uninitialised local (depth -1), unless all 256 slots are taken. */
    method AddLocal(name: Token)
      requires Valid()
      modifies this, compiler, compiler.locals
      ensures old(hadError) ==> hadError
      ensures Valid() && compiler == old(compiler) && current == old(current) && previous == old(previous)
      ensures compiler.scopeDepth == old(compiler.scopeDepth)
      ensures old(compiler.localCount) == LocalsMax ==>
        compiler.localCount == LocalsMax && compiler.locals[..] == old(compiler.locals[..]) && hadError
      ensures old(compiler.localCount) < LocalsMax ==>
        && compiler.localCount == old(compiler.localCount) + 1
        && compiler.locals[..] == old(compiler.locals[..])[old(compiler.localCount) := Local(name, -1)]
        && diagnostics == old(diagnostics) && panicMode == old(panicMode)
    {
      if compiler.localCount == LocalsMax {
        ErrorAtPrevious("too m-many wocaw v-vawiabwes in scowpe.");
        return;
      }
      compiler.locals[compiler.localCount] := Local(name, -1);
      compiler.localCount := compiler.localCount + 1;
    }

    /** The duplicate check of declare_variable: a name already declared in the innermost scope is an error. */
    method CheckDuplicate(name: Token)
      requires Valid()
      modifies this
      ensures Valid() && compiler == old(compiler) && current == old(current) && previous == old(previous)
      ensures compiler.DeclaredInScope(name.lexeme) ==> hadError
      ensures old(hadError) ==> hadError
    {
      var dup := compiler.HasDuplicateInScope(name.lexeme);
      if dup {
        ErrorAtPrevious("muwtiple definitions of t-the same vawiabwe in the same s-scope.");
      }
    }

    /**
     * declare_variable: in a local scope, the previous token names a new
     * local; a name already declared in the same scope is an error.
     */
    method DeclareVariable()
      requires Valid()
      modifies this, compiler, compiler.locals
      ensures old(hadError) ==> hadError
      ensures Valid() && compiler == old(compiler) && current == old(current) && previous == old(previous)
      ensures compiler.scopeDepth == old(compiler.scopeDepth)
      ensures compiler.scopeDepth == 0 ==>
        compiler.localCount == old(compiler.localCount) && diagnostics == old(diagnostics) && panicMode == old(panicMode)
      ensures compiler.scopeDepth == 0 ==> compiler.locals[..] == old(compiler.locals[..])
      ensures compiler.scopeDepth > 0 ==> compiler.localCount >= 2
      ensures compiler.scopeDepth > 0 && old(compiler.localCount) < LocalsMax ==>
        && compiler.localCount == old(compiler.localCount) + 1
        && compiler.locals[..] == old(compiler.locals[..])[old(compiler.localCount) := Local(previous, -1)]
      ensures compiler.scopeDepth > 0 && old(compiler.localCount) == LocalsMax ==> hadError
      ensures compiler.scopeDepth > 0 && old(compiler.DeclaredInScope(previous.lexeme)) ==> hadError
    {
      if compiler.scopeDepth == 0 {
        return;
      }
      CheckDuplicate(previous);
      AddLocal(previous);
    }

    /**
     * resolve_local on the current compiler: the newest local with the name,
     * or -1; finding one still being initialised is an error.
     */
    method ResolveLocal(name: Token) returns (slot: int)
      requires Valid()
      modifies this
      ensures old(hadError) ==> hadError
      ensures Valid() && compiler == old(compiler) && current == old(current) && previous == old(previous)
      ensures slot == Resolve(compiler.Active(), name.lexeme)
      ensures slot >= 0 && compiler.locals[slot].depth == -1 ==> hadError && panicMode
      ensures !(slot >= 0 && compiler.locals[slot].depth == -1) ==>
        diagnostics == old(diagnostics) && panicMode == old(panicMode)
    {
      slot := compiler.FindLocal(name.lexeme);
      ResolveIsNewest(compiler.Active(), name.lexeme, slot);
      if slot >= 0 && compiler.locals[slot].depth == -1 {
        ErrorAtPrevious("can't wead wocaw vawiable fwom its o-own initiawizew.");
      }
    }

    /** identifier_constant: the name, interned, as a constant of the current chunk. */
    method IdentifierConstant(name: Token) returns (index: byte)
      requires Valid()
      modifies this, heap, compiler.fn.chunk.constants
      ensures old(hadError) ==> hadError
      ensures Valid() && compiler == old(compiler) && current == old(current) && previous == old(previous)
      ensures old(heap.objects) <= heap.objects && NewConstant(old(compiler.fn.chunk.constants.values))
      ensures LastConstant().ObjectVal? && LastConstant().obj in heap.strings && heap.objects[LastConstant().obj] == StringObj(name.lexeme)
      ensures var n := |old(compiler.fn.chunk.constants.values)|;
        && (n <= 255 ==> index as int == n && diagnostics == old(diagnostics) && panicMode == old(panicMode))
        && (n > 255 ==> index == 0 && hadError)
    {
      var r := heap.CopyString(name.lexeme);
      index := MakeConstant(ObjectVal(r));
    }

    /** define_variable: a global is defined from the stack; a local only becomes initialised. */
    method DefineVariable(global: byte)
      requires Valid() && (compiler.scopeDepth > 0 ==> compiler.localCount >= 2)
      modifies compiler.locals, compiler.fn.chunk
      ensures Valid()
      ensures compiler.scopeDepth == 0 ==>
        Code() == old(Code()) + [OpByte(OpDefineGlobal)] + [global] && compiler.locals[..] == old(compiler.locals[..])
      ensures compiler.scopeDepth > 0 ==>
        Code() == old(Code()) && compiler.locals[..] == old(compiler.locals[..])[compiler.localCount - 1 := Local(old(compiler.locals[compiler.localCount - 1].name), compiler.scopeDepth)]
      ensures old(compiler.locals[compiler.localCount - 1].depth) == compiler.scopeDepth ==> compiler.Active() == old(compiler.Active())
    {
      if compiler.scopeDepth > 0 {
        MarkInitialized();
        return;
      }
      EmitBytes(OpDefineGlobal, global);
    }

    /**
     * parse_variable: consume the name and declare it; a global's name
     * becomes a constant whose index is returned, a local yields 0.
     */
    method ParseVariable(message: string) returns (global: byte)
      requires Valid()
      modifies this, scanner, heap, compiler, compiler.locals, compiler.fn.chunk.constants
      ensures old(hadError) ==> hadError
      ensures Valid() && compiler == old(compiler)
      ensures compiler.scopeDepth == old(compiler.scopeDepth) && old(heap.objects) <= heap.objects
      ensures Measure() <= old(Measure())
      ensures compiler.scopeDepth > 0 ==> compiler.localCount >= 2 && global == 0
      ensures old(current.kind) == Identifier ==> previous == old(current)
      ensures compiler.scopeDepth == 0 ==>
        compiler.localCount == old(compiler.localCount) && compiler.locals[..] == old(compiler.locals[..])
      ensures compiler.scopeDepth > 0 && old(compiler.localCount) < LocalsMax ==>
        && compiler.localCount == old(compiler.localCount) + 1
        && compiler.locals[..] == old(compiler.locals[..])[old(compiler.localCount) := Local(previous, -1)]
      ensures compiler.scopeDepth > 0 && old(compiler.localCount) == LocalsMax ==> hadError
    {
      Consume(Identifier, message);
      DeclareVariable();
      if compiler.scopeDepth > 0 {
        return 0;
      }
      global := IdentifierConstant(previous);
    }

    // -------------------------------------------------------------------------
    // Expressions
    //
    // Every expression method keeps the parser valid, stays in the current
    // compiler record, only appends to the code (patches land past the old
    // end), only adds heap objects, and consumes tokens without going back.
    // -------------------------------------------------------------------------

    /** expression: an expression at assignment precedence. */
    method Expression()
      requires Valid()
      modifies ExprFrame()
      decreases Measure(), 1
      ensures old(hadError) ==> hadError
      ensures Valid() && compiler == old(compiler)
      ensures old(Code()) <= Code() && old(heap.objects) <= heap.objects
      ensures Measure() <= old(Measure())
      ensures old(current.kind) != Eof ==> Measure() < old(Measure())
      ensures !panicMode ==> Level(GetRule(current.kind).precedence) < Level(PAssignment)
      ensures GetRule(old(current.kind)).prefix == NoPrefix ==> hadError
    {
      ParsePrecedence(PAssignment);
    }

    /**
     * parse_precedence: a prefix expression, then infix operators for as long
     * as the current token binds at least as tightly as `precedence`. A token
     * with no prefix rule is an "expression expected" error, and so is a `:=`
     * left over where assignment was allowed.
     */
    method ParsePrecedence(precedence: Precedence)
      requires Valid() && precedence != PNone
      modifies ExprFrame()
      decreases Measure(), 0
      ensures old(hadError) ==> hadError
      ensures Valid() && compiler == old(compiler)
      ensures old(Code()) <= Code() && old(heap.objects) <= heap.objects
      ensures Measure() <= old(Measure())
      ensures old(current.kind) != Eof ==> Measure() < old(Measure())
      ensures !panicMode ==> Level(GetRule(current.kind).precedence) < Level(precedence)
      ensures GetRule(old(current.kind)).prefix == NoPrefix ==> hadError && panicMode
      ensures Level(precedence) <= Level(PAssignment) && !hadError ==> current.kind != Assign
    {
      Advance();
      var prefix := GetRule(previous.kind).prefix;
      if prefix == NoPrefix {
        ErrorAtPrevious("expwession expected.");
        return;
      }
      var canAssign := Level(precedence) <= Level(PAssignment);
      Prefix(prefix, canAssign);
      InfixLoop(precedence, canAssign);
    }

    /**
     * The rest of parse_precedence: the infix loop, then the check for a
     * `:=` that no variable consumed.
     */
    method InfixLoop(precedence: Precedence, canAssign: bool)
      requires Valid() && precedence != PNone
      modifies ExprFrame()
      decreases Measure(), 0
      ensures old(hadError) ==> hadError
      ensures Valid() && compiler == old(compiler)
      ensures old(Code()) <= Code() && old(heap.objects) <= heap.objects
      ensures Measure() <= old(Measure())
      ensures !panicMode ==> Level(GetRule(current.kind).precedence) < Level(precedence)
      ensures canAssign && !hadError ==> current.kind != Assign
    {
      while Level(precedence) <= Level(GetRule(current.kind).precedence)
        invariant Valid() && compiler == old(compiler) && (old(hadError) ==> hadError)
        invariant old(Code()) <= Code() && old(heap.objects) <= heap.objects
        invariant Measure() <= old(Measure())
        decreases Measure()
      {
        Advance();
        Infix(GetRule(previous.kind).infix, canAssign);
      }
      if canAssign {
        var assign := Match(Assign);
        if assign {
          ErrorAtPrevious("invawid assignment tawget.");
        }
      }
    }

    /** The call of a prefix rule on the token just consumed. */
    method Prefix(fn: PrefixFn, canAssign: bool)
      requires Valid() && fn != NoPrefix && fn == GetRule(previous.kind).prefix
      modifies ExprFrame()
      decreases Measure(), 5
      ensures old(hadError) ==> hadError
      ensures Valid() && compiler == old(compiler)
      ensures old(Code()) <= Code() && old(heap.objects) <= heap.objects
      ensures Measure() <= old(Measure())
    {
      match fn
      case GroupingFn => Grouping();
      case UnaryFn => Unary();
      case VariableFn => NamedVariable(previous, canAssign, false);
      case NumberFn | StringFn | CharFn | NewLineFn | TabFn | LiteralFn => Literal(fn);
    }

    /** The call of an infix rule on the operator just consumed. */
    method Infix(fn: InfixFn, canAssign: bool)
      requires Valid() && fn != NoInfix && fn == GetRule(previous.kind).infix
      modifies ExprFrame()
      decreases Measure(), 5
      ensures old(hadError) ==> hadError
      ensures Valid() && compiler == old(compiler)
      ensures old(Code()) <= Code() && old(heap.objects) <= heap.objects
      ensures Measure() <= old(Measure())
    {
      match fn
      case BinaryFn => Binary();
      case CallFn => { ghost var count := Call(); }
      case AndFn => ShortCircuit(true);
      case OrFn => ShortCircuit(false);
    }

    /** _grouping: a parenthesised expression; the `)` is required. */
    method Grouping()
      requires Valid()
      modifies ExprFrame()
      decreases Measure(), 2
      ensures old(hadError) ==> hadError
      ensures Valid() && compiler == old(compiler)
      ensures old(Code()) <= Code() && old(heap.objects) <= heap.objects
      ensures Measure() <= old(Measure())
      ensures !hadError ==> previous.kind == RightPar
    {
      Expression();
      Consume(RightPar, "')' expected aftew expwession.");
    }

    /** _unary: the operand at unary precedence, then OP_NEGATE for `-` or OP_NOT for `!`. */
    method Unary()
      requires Valid() && GetRule(previous.kind).prefix == UnaryFn
      modifies ExprFrame()
      decreases Measure(), 2
      ensures old(hadError) ==> hadError
      ensures Valid() && compiler == old(compiler)
      ensures old(Code()) <= Code() && old(heap.objects) <= heap.objects
      ensures Measure() <= old(Measure())
      ensures |old(Code())| < |Code()| && Code()[|Code()| - 1] == OpByte(if old(previous.kind) == Minus then OpNegate else OpNot)
    {
      var operator := previous.kind;
      ParsePrecedence(PUnary);
      EmitOp(if operator == Minus then OpNegate else OpNot);
    }

    /**
     * _binary: the right operand one level tighter than the operator, so the
     * operand stops at any operator of the same or a looser level (left
     * associativity); then the operator's instruction.
     */
    method Binary()
      requires Valid() && GetRule(previous.kind).infix == BinaryFn
      modifies ExprFrame()
      decreases Measure(), 2
      ensures old(hadError) ==> hadError
      ensures Valid() && compiler == old(compiler)
      ensures old(Code()) <= Code() && old(heap.objects) <= heap.objects
      ensures Measure() <= old(Measure())
      ensures |old(Code())| < |Code()| && Code()[|Code()| - 1] == OpByte(BinaryOp(old(previous.kind)).value)
      ensures !panicMode ==> Level(GetRule(current.kind).precedence) <= Level(GetRule(old(previous.kind)).precedence)
    {
      var operator := previous.kind;
      var rule := GetRule(operator);
      ParsePrecedence(Next(rule.precedence));
      EmitOp(BinaryOp(operator).value);
    }

    /**
     * The constant-loading prefix rules: `twue`/`fawse`, numbers, strings
     * (without their quotes), characters (the byte between the backticks),
     * and the `\n` and `\t` tokens.
     */
    method Literal(fn: PrefixFn)
      requires Valid() && fn == GetRule(previous.kind).prefix
      requires fn.NumberFn? || fn.StringFn? || fn.CharFn? || fn.NewLineFn? || fn.TabFn? || fn.LiteralFn?
      modifies this, heap, compiler.fn.chunk, compiler.fn.chunk.constants
      ensures old(hadError) ==> hadError
      ensures Valid() && compiler == old(compiler) && current == old(current) && previous == old(previous)
      ensures old(Code()) <= Code() && old(heap.objects) <= heap.objects
      ensures fn.LiteralFn? ==> Code() == old(Code()) + [OpByte(if previous.kind == True then OpTrue else OpFalse)]
      ensures !fn.LiteralFn? ==>
        && NewConstant(old(compiler.fn.chunk.constants.values)) && Denotes(previous, LastConstant(), heap.objects)
        && LoadsSlot(old(Code()), |old(compiler.fn.chunk.constants.values)|)
    {
      match fn
      case LiteralFn => EmitOp(if previous.kind == True then OpTrue else OpFalse);
      case NumberFn => EmitConstant(NumberVal(NumberValue(previous.lexeme)));
      case StringFn => StringLiteral();
      case CharFn => EmitConstant(CharVal(previous.lexeme[1]));
      case NewLineFn => EmitConstant(CharVal('\n'));
      case TabFn => EmitConstant(CharVal('\t'));
    }

    /** _string: the characters between the quotes, interned, as a constant. */
    method StringLiteral()
      requires Valid() && previous.kind == String
      modifies this, heap, compiler.fn.chunk, compiler.fn.chunk.constants
      ensures old(hadError) ==> hadError
      ensures Valid() && compiler == old(compiler) && current == old(current) && previous == old(previous)
      ensures old(heap.objects) <= heap.objects
      ensures NewConstant(old(compiler.fn.chunk.constants.values)) && Denotes(previous, LastConstant(), heap.objects)
      ensures LoadsSlot(old(Code()), |old(compiler.fn.chunk.constants.values)|)
    {
      var r := heap.CopyString(previous.lexeme[1..|previous.lexeme| - 1]);
      EmitConstant(ObjectVal(r));
    }

    /** The right operand of _and (isAnd) or _or, parsed at its operator's precedence. */
    method RightOperand(isAnd: bool)
      requires Valid()
      modifies ExprFrame()
      decreases Measure(), 1
      ensures old(hadError) ==> hadError
      ensures Valid() && compiler == old(compiler)
      ensures old(Code()) <= Code() && old(heap.objects) <= heap.objects
      ensures Measure() <= old(Measure())
    {
      ParsePrecedence(if isAnd then PAnd else POr);
    }

    /**
     * _and (isAnd: OP_JUMP_IF_FALSE, at `awnd` precedence) and _or
     * (OP_JUMP_IF_TRUE, at `ow` precedence): a conditional jump over the
     * right operand, which is preceded by an OP_POP of the left one. The
     * jump is patched to the end of the right operand.
     */
    method ShortCircuit(isAnd: bool)
      requires Valid()
      modifies ExprFrame()
      decreases Measure(), 2
      ensures old(hadError) ==> hadError
      ensures Valid() && compiler == old(compiler)
      ensures old(Code()) <= Code() && old(heap.objects) <= heap.objects
      ensures Measure() <= old(Measure())
      ensures var n := |old(Code())|;
        && n + 4 <= |Code()| && JumpTo(Code(), n + 1, if isAnd then OpJumpIfFalse else OpJumpIfTrue, |Code()|)
        && Code()[n + 3] == OpByte(OpPop)
        && (|Code()| - n - 3 > ShortMax ==> hadError)
    {
      ghost var n := |Code()|;
      var jump := if isAnd then OpJumpIfFalse else OpJumpIfTrue;
      var endJump := ConditionJump(jump);
      ghost var c2 := Code();
      RightOperand(isAnd);
      ghost var c3 := Code();
      assert c3[n] == c2[n] && c3[n + 3] == c2[n + 3];
      PatchJumpHere(endJump, jump);
    }

    /**
     * The operand of named_variable: a local's slot, or else the constant
     * index of the name (interned), for a global.
     */
    method ResolveVariable(name: Token) returns (local: bool, operand: byte)
      requires Valid()
      modifies this, heap, compiler.fn.chunk.constants
      ensures old(hadError) ==> hadError
      ensures Valid() && compiler == old(compiler) && current == old(current) && previous == old(previous)
      ensures old(heap.objects) <= heap.objects
      ensures var slot := old(Resolve(compiler.Active(), name.lexeme));
        && (local <==> slot >= 0)
        && (local ==> operand as int == slot && compiler.fn.chunk.constants.values == old(compiler.fn.chunk.constants.values))
      ensures !local ==>
        && NewConstant(old(compiler.fn.chunk.constants.values))
        && LastConstant().ObjectVal? && LastConstant().obj in heap.strings && heap.objects[LastConstant().obj] == StringObj(name.lexeme)
        && (|old(compiler.fn.chunk.constants.values)| <= 255 ==> operand as int == |old(compiler.fn.chunk.constants.values)|)
    {
      var slot := ResolveLocal(name);
      if slot != -1 {
        return true, slot as byte;
      }
      local := false;
      operand := IdentifierConstant(name);
    }

    /** The condition of named_variable: assignment allowed, and a `:=` consumed or a read statement. */
    method StoreFollows(canAssign: bool, read: bool) returns (store: bool)
      requires Valid()
      modifies this, scanner
      ensures old(hadError) ==> hadError
      ensures Valid() && compiler == old(compiler) && Measure() <= old(Measure())
      ensures store <==> canAssign && (old(current.kind) == Assign || read)
      ensures store && !read ==> previous.kind == Assign
    {
      store := false;
      if canAssign {
        var assign := Match(Assign);
        store := assign || read;
      }
    }

    /**
     * named_variable: a get, or (where assignment is allowed and a `:=`
     * follows, or for a read statement) a set with the new value's
     * expression in front; the operand is the local slot or the global's
     * name constant. The `:=` is looked for even when `read` is set.
     */
    method NamedVariable(name: Token, canAssign: bool, read: bool)
      requires Valid()
      modifies ExprFrame()
      decreases Measure(), 3
      ensures old(hadError) ==> hadError
      ensures Valid() && compiler == old(compiler)
      ensures old(Code()) <= Code() && old(heap.objects) <= heap.objects
      ensures Measure() <= old(Measure())
      ensures var slot := old(Resolve(compiler.Active(), name.lexeme));
        var store := canAssign && (old(current.kind) == Assign || read);
        && |old(Code())| + 2 <= |Code()|
        && Code()[|Code()| - 2] == OpByte(VariableOp(slot >= 0, store))
        && (slot >= 0 ==> Code()[|Code()| - 1] as int == slot)
      ensures canAssign && read ==> SetsVariable(Code()[|Code()| - 2])
    {
      var local, operand := ResolveVariable(name);
      Access(local, operand, canAssign, read);
    }

    /** The second half of named_variable: the set (after the new value) or the get. */
    method Access(local: bool, operand: byte, canAssign: bool, read: bool)
      requires Valid()
      modifies ExprFrame()
      decreases Measure(), 2
      ensures old(hadError) ==> hadError
      ensures Valid() && compiler == old(compiler)
      ensures old(Code()) <= Code() && old(heap.objects) <= heap.objects
      ensures Measure() <= old(Measure())
      ensures var store := canAssign && (old(current.kind) == Assign || read);
        && |old(Code())| + 2 <= |Code()|
        && Code()[|Code()| - 2] == OpByte(VariableOp(local, store)) && Code()[|Code()| - 1] == operand
      ensures canAssign && read ==> SetsVariable(Code()[|Code()| - 2])
    {
      var store := StoreFollows(canAssign, read);
      if store && !read {
        Expression();
      }
      EmitBytes(VariableOp(local, store), operand);
    }

    /**
     * arg_list: comma-separated arguments up to `)`. The count is a uint8_t
     * that wraps; reaching a 256th argument is an error.
     */
    method ArgList() returns (argc: byte, ghost count: nat)
      requires Valid()
      modifies ExprFrame()
      decreases Measure(), 3
      ensures old(hadError) ==> hadError
      ensures Valid() && compiler == old(compiler)
      ensures old(Code()) <= Code() && old(heap.objects) <= heap.objects
      ensures Measure() <= old(Measure())
      ensures argc as int == count % 256 && (count > 255 ==> hadError)
      ensures old(current.kind) == RightPar ==> count == 0
    {
      argc, count := 0, 0;
      if !Check(RightPar) {
        argc, count := Arguments();
      }
      Consume(RightPar, "')' expected aftew fwunction awguments.");
    }

    /** One more argument: the uint8_t count wraps, and reaching 255 is an error. */
    method CountArgument(argc: byte, ghost count: nat) returns (argc': byte, ghost count': nat)
      requires Valid() && argc as int == count % 256 && (count > 255 ==> hadError)
      modifies this
      ensures Valid() && compiler == old(compiler) && current == old(current) && previous == old(previous)
      ensures old(hadError) ==> hadError
      ensures count' == count + 1 && argc' as int == count' % 256 && (count' > 255 ==> hadError)
    {
      if argc == 255 {
        ErrorAtPrevious("can't have mowe than 255 awguments.");
      }
      WrapStep(count);
      argc', count' := ((argc as int + 1) % 256) as byte, count + 1;
    }

    /** The do-while loop of arg_list: an expression for each argument, while a comma follows. */
    method Arguments() returns (argc: byte, ghost count: nat)
      requires Valid()
      modifies ExprFrame()
      decreases Measure(), 2
      ensures old(hadError) ==> hadError
      ensures Valid() && compiler == old(compiler)
      ensures old(Code()) <= Code() && old(heap.objects) <= heap.objects
      ensures Measure() <= old(Measure())
      ensures argc as int == count % 256 && (count > 255 ==> hadError) && count >= 1
    {
      argc, count := 0, 0;
      while true
        invariant Valid() && compiler == old(compiler)
        invariant old(Code()) <= Code() && old(heap.objects) <= heap.objects
        invariant Measure() <= old(Measure()) && (old(hadError) ==> hadError)
        invariant argc as int == count % 256 && (count > 255 ==> hadError)
        decreases Measure()
      {
        Expression();
        argc, count := CountArgument(argc, count);
        var comma := Match(Comma);
        if !comma {
          return;
        }
      }
    }

    /** _call: the arguments, then OP_CALL with their (wrapped) count. */
    method Call() returns (ghost count: nat)
      requires Valid()
      modifies ExprFrame()
      decreases Measure(), 4
      ensures old(hadError) ==> hadError
      ensures Valid() && compiler == old(compiler)
      ensures old(Code()) <= Code() && old(heap.objects) <= heap.objects
      ensures Measure() <= old(Measure())
      ensures |old(Code())| + 2 <= |Code()| && Code()[|Code()| - 2] == OpByte(OpCall)
      ensures Code()[|Code()| - 1] as int == count % 256 && (count > 255 ==> hadError)
    {
      var argc;
      argc, count := ArgList();
      EmitBytes(OpCall, argc);
    }

    // -------------------------------------------------------------------------
    // Statements and declarations
    //
    // Every statement method also keeps the scope depth of the current
    // compiler record.
    // -------------------------------------------------------------------------

    /** expression_statement: the expression, then OP_POP of its value. */
    method ExpressionStatement()
      requires Valid()
      modifies ExprFrame()
      ensures old(hadError) ==> hadError
      ensures Valid() && compiler == old(compiler)
      ensures old(Code()) <= Code() && old(heap.objects) <= heap.objects
      ensures Measure() <= old(Measure())
      ensures old(current.kind) != Eof ==> Measure() < old(Measure())
      ensures |old(Code())| < |Code()| && Code()[|Code()| - 1] == OpByte(OpPop)
      ensures !StartsExpression(old(current.kind)) ==> hadError
    {
      RuleTableShape(current.kind);
      Expression();
      EmitOp(OpPop);
    }

    /**
     * print_statement: each comma-separated expression followed by
     * OP_PRINT, up to the closing `>>`.
     */
    method PrintStatement()
      requires Valid()
      modifies ExprFrame()
      decreases Measure()
      ensures old(hadError) ==> hadError
      ensures Valid() && compiler == old(compiler)
      ensures old(Code()) <= Code() && old(heap.objects) <= heap.objects
      ensures Measure() <= old(Measure())
      ensures |old(Code())| < |Code()| && OpByte(OpPrint) in Code()[|old(Code())|..]
      ensures !hadError ==> previous.kind == OutEnd
    {
      PrintValue();
      ghost var c := Code();
      var comma := Match(Comma);
      if comma {
        PrintStatement();
        assert c[|old(Code())|..] <= Code()[|old(Code())|..];
        return;
      }
      Consume(OutEnd, "'>>' expected aftew expwession.");
    }

    /** One value of print_statement: the expression, then OP_PRINT. */
    method PrintValue()
      requires Valid()
      modifies ExprFrame()
      ensures old(hadError) ==> hadError
      ensures Valid() && compiler == old(compiler)
      ensures old(Code()) <= Code() && old(heap.objects) <= heap.objects
      ensures Measure() <= old(Measure())
      ensures |old(Code())| < |Code()| && Code()[|Code()| - 1] == OpByte(OpPrint)
    {
      Expression();
      EmitOp(OpPrint);
    }

    /**
     * read_statement: an OP_READ_* for the input type token (anything else is
     * an error), then a set of the named variable, which leaves the value on
     * the stack, and the closing `<<`.
     */
    method ReadStatement()
      requires Valid()
      modifies ExprFrame()
      ensures old(hadError) ==> hadError
      ensures Valid() && compiler == old(compiler)
      ensures old(Code()) <= Code() && old(heap.objects) <= heap.objects
      ensures Measure() <= old(Measure())
      ensures |old(Code())| + 2 <= |Code()|
      ensures ReadOp(old(current.kind)).Some? ==> Code()[|old(Code())|] == OpByte(ReadOp(old(current.kind)).value)
      ensures ReadOp(old(current.kind)).None? ==> hadError
      ensures Code()[|Code()| - 2] == OpByte(OpSetLocal) || Code()[|Code()| - 2] == OpByte(OpSetGlobal)
    {
      ReadInstruction();
      Advance();
      ReadTarget();
    }

    /** The switch of read_statement on the current token. */
    method ReadInstruction()
      requires Valid()
      modifies this, compiler.fn.chunk
      ensures old(hadError) ==> hadError
      ensures Valid() && compiler == old(compiler) && current == old(current) && previous == old(previous)
      ensures ReadOp(current.kind).Some? ==> Code() == old(Code()) + [OpByte(ReadOp(current.kind).value)]
      ensures ReadOp(current.kind).None? ==> Code() == old(Code()) && hadError
    {
      var op := ReadOp(current.kind);
      if op.Some? {
        EmitOp(op.value);
      } else {
        ErrorAtPrevious("inpwt twype expected a-aftew wead statwement.");
      }
    }

    /** The rest of read_statement: the variable name, its set, and `<<`. */
    method ReadTarget()
      requires Valid()
      modifies ExprFrame()
      ensures old(hadError) ==> hadError
      ensures Valid() && compiler == old(compiler)
      ensures old(Code()) <= Code() && old(heap.objects) <= heap.objects
      ensures Measure() <= old(Measure())
      ensures |old(Code())| + 2 <= |Code()|
      ensures SetsVariable(Code()[|Code()| - 2])
    {
      ReadVariable();
      Consume(ReadEnd, "'<<' expected aftew expwession.");
    }

    /** The variable name of read_statement and the set of that variable. */
    method ReadVariable()
      requires Valid()
      modifies ExprFrame()
      ensures old(hadError) ==> hadError
      ensures Valid() && compiler == old(compiler)
      ensures old(Code()) <= Code() && old(heap.objects) <= heap.objects
      ensures Measure() <= old(Measure())
      ensures |old(Code())| + 2 <= |Code()|
      ensures SetsVariable(Code()[|Code()| - 2])
    {
      Consume(Identifier, "vawiabwe n-name e-expected aftew wead s-statement.");
      NamedVariable(previous, true, true);
    }

    /**
     * out_statement: outside a function it is an error. A `>>` right away
     * returns null; otherwise the value's expression, the `>>`, and OP_OUT.
     * The `>>` of a bare return is consumed (see OutStatementAsWritten).
     */
    method OutStatement()
      requires Valid()
      modifies ExprFrame()
      ensures old(hadError) ==> hadError
      ensures Valid() && compiler == old(compiler)
      ensures old(Code()) <= Code() && old(heap.objects) <= heap.objects
      ensures Measure() <= old(Measure())
      ensures compiler.ftype == TypeScript ==> hadError
      ensures old(current.kind) == OutEnd ==> Code() == old(Code()) + [OpByte(OpNull)] + [OpByte(OpOut)] && previous.kind == OutEnd
      ensures old(current.kind) != OutEnd ==> |old(Code())| < |Code()| && Code()[|Code()| - 1] == OpByte(OpOut)
    {
      OutAllowed();
      var bare := Match(OutEnd);
      if bare {
        EmitReturn();
        return;
      }
      OutValue();
    }

    /**
     * out_statement as compiler.cpp writes it: a bare return only checks for
     * the `>>` and leaves it unread, so the next declaration starts at it.
     */
    method OutStatementAsWritten()
      requires Valid()
      modifies ExprFrame()
      ensures old(hadError) ==> hadError
      ensures Valid() && compiler == old(compiler)
      ensures old(Code()) <= Code() && old(heap.objects) <= heap.objects
      ensures Measure() <= old(Measure())
      ensures compiler.ftype == TypeScript ==> hadError
      ensures old(current.kind) == OutEnd ==> Code() == old(Code()) + [OpByte(OpNull)] + [OpByte(OpOut)] && current.kind == OutEnd
      ensures old(current.kind) != OutEnd ==> |old(Code())| < |Code()| && Code()[|Code()| - 1] == OpByte(OpOut)
    {
      OutAllowed();
      if Check(OutEnd) {
        EmitReturn();
        return;
      }
      OutValue();
    }

    /** The check of out_statement: a return at the top level is an error. */
    method OutAllowed()
      requires Valid()
      modifies this
      ensures old(hadError) ==> hadError
      ensures Valid() && compiler == old(compiler) && current == old(current) && previous == old(previous)
      ensures compiler.ftype == TypeScript ==> hadError
    {
      if compiler.ftype == TypeScript {
        ErrorAtPrevious("iwwgaw out statement.");
      }
    }

    /** A returned value: the expression, the `>>`, then OP_OUT. */
    method OutValue()
      requires Valid()
      modifies ExprFrame()
      ensures old(hadError) ==> hadError
      ensures Valid() && compiler == old(compiler)
      ensures old(Code()) <= Code() && old(heap.objects) <= heap.objects
      ensures Measure() <= old(Measure())
      ensures |old(Code())| < |Code()| && Code()[|Code()| - 1] == OpByte(OpOut)
    {
      Expression();
      Consume(OutEnd, "'>>' expected aftew out.");
      EmitOp(OpOut);
    }

    /** Both halves of a jump over a block: the jump with placeholder operand, and OP_POP of the condition. */
    method ConditionJump(op: OpCode) returns (operand: int)
      requires Valid()
      modifies compiler.fn.chunk
      ensures Valid() && Code() == old(Code()) + [OpByte(op)] + [0xff] + [0xff] + [OpByte(OpPop)]
      ensures operand == |old(Code())| + 1
    {
      operand := EmitJump(op);
      EmitOp(OpPop);
    }

    /**
     * synchronize: leave panic mode, then skip tokens up to a statement
     * keyword (var, if, loop, print, read) or the end. An error token met
     * while skipping is reported, which starts panic mode again.
     */
    method Synchronize()
      requires Valid()
      modifies this, scanner
      ensures old(hadError) ==> hadError
      ensures Valid() && compiler == old(compiler)
      ensures Measure() <= old(Measure())
      ensures current.kind == Eof || SyncPoint(current.kind)
      ensures old(current.kind) != Eof && !SyncPoint(old(current.kind)) ==> Measure() < old(Measure())
      ensures old(diagnostics) <= diagnostics && (|diagnostics| == |old(diagnostics)| ==> !panicMode)
    {
      panicMode := false;
      ghost var moved := false;
      while current.kind != Eof
        invariant Valid() && compiler == old(compiler)
        invariant old(hadError) ==> hadError
        invariant Measure() <= old(Measure())
        invariant !moved ==> current == old(current)
        invariant moved ==> Measure() < old(Measure())
        invariant old(diagnostics) <= diagnostics && (|diagnostics| == |old(diagnostics)| ==> !panicMode)
        decreases Measure()
      {
        if SyncPoint(current.kind) {
          return;
        }
        Advance();
        moved := true;
      }
    }

    /** The declarations of compile, up to the end of input. */
    method Declarations()
      requires Valid()
      modifies StmtFrame()
      ensures old(hadError) ==> hadError
      ensures Valid() && compiler == old(compiler) && compiler.scopeDepth == old(compiler.scopeDepth)
      ensures old(Code()) <= Code() && old(heap.objects) <= heap.objects
      ensures previous.kind == Eof
    {
      while true
        invariant Valid() && compiler == old(compiler) && compiler.scopeDepth == old(compiler.scopeDepth)
        invariant old(hadError) ==> hadError
        invariant old(Code()) <= Code() && old(heap.objects) <= heap.objects
        decreases Measure()
      {
        var end := Match(Eof);
        if end {
          return;
        }
        Declaration();
      }
    }

    /** declaration: a function or variable declaration or a statement; after an error, synchronize. */
    method Declaration()
      requires Valid()
      modifies StmtFrame()
      decreases Measure(), 3
      ensures old(hadError) ==> hadError
      ensures Valid() && compiler == old(compiler) && compiler.scopeDepth == old(compiler.scopeDepth)
      ensures old(Code()) <= Code() && old(heap.objects) <= heap.objects
      ensures Measure() <= old(Measure())
      ensures !hadError && old(compiler.Closed()) ==> compiler.Extends(old(compiler.Active()))
      ensures old(current.kind) != Eof ==> Measure() < old(Measure())
      ensures !StartsDeclaration(old(current.kind)) ==> hadError
      ensures panicMode ==> current.kind == Eof || SyncPoint(current.kind)
    {
      DeclarationBody();
      if panicMode {
        Synchronize();
      }
    }

    /** The three branches of declaration. */
    method DeclarationBody()
      requires Valid()
      modifies StmtFrame()
      decreases Measure(), 2
      ensures old(hadError) ==> hadError
      ensures Valid() && compiler == old(compiler) && compiler.scopeDepth == old(compiler.scopeDepth)
      ensures old(Code()) <= Code() && old(heap.objects) <= heap.objects
      ensures Measure() <= old(Measure())
      ensures !hadError && old(compiler.Closed()) ==> compiler.Extends(old(compiler.Active()))
      ensures old(current.kind) != Eof ==> Measure() < old(Measure())
      ensures !StartsDeclaration(old(current.kind)) ==> hadError
    {
      var isFun := Match(Fun);
      if isFun {
        FunctionDeclaration();
        return;
      }
      var isVar := Match(Var);
      if isVar {
        VariableDeclaration();
        return;
      }
      Statement();
      ExtendsSelf(compiler.Active(), compiler.scopeDepth);
    }

    /**
     * statement. A statement declares nothing: when nothing went wrong the
     * local slots are as before. The tests of compiler.cpp are on distinct
     * token kinds, so they are grouped here into statements that hold a
     * block and those that do not.
     */
    method Statement()
      requires Valid()
      modifies StmtFrame()
      decreases Measure(), 1
      ensures old(hadError) ==> hadError
      ensures Valid() && compiler == old(compiler) && compiler.scopeDepth == old(compiler.scopeDepth)
      ensures old(Code()) <= Code() && old(heap.objects) <= heap.objects
      ensures Measure() <= old(Measure())
      ensures !hadError && old(compiler.Closed()) ==> compiler.Active() == old(compiler.Active())
      ensures old(current.kind) != Eof ==> Measure() < old(Measure())
      ensures !StartsStatement(old(current.kind)) ==> hadError
    {
      if Check(If) || Check(Loop) || Check(LeftSqb) {
        CompoundStatement();
      } else {
        SimpleStatement();
      }
    }

    /** The statements without a block: print, read, out, and an expression statement. */
    method SimpleStatement()
      requires Valid()
      modifies ExprFrame()
      ensures old(hadError) ==> hadError
      ensures Valid() && compiler == old(compiler)
      ensures old(Code()) <= Code() && old(heap.objects) <= heap.objects
      ensures Measure() <= old(Measure())
      ensures old(current.kind) != Eof ==> Measure() < old(Measure())
      ensures !StartsStatement(old(current.kind)) ==> hadError
    {
      var isPrint := Match(Print);
      if isPrint {
        PrintStatement();
        return;
      }
      var isRead := Match(Read);
      if isRead {
        ReadStatement();
        return;
      }
      var isOut := Match(Out);
      if isOut {
        OutStatement();
        return;
      }
      ExpressionStatement();
    }

    /** The statements with a block: if, loop, and a bracketed block in its own scope. */
    method CompoundStatement()
      requires Valid() && (current.kind == If || current.kind == Loop || current.kind == LeftSqb)
      modifies StmtFrame()
      decreases Measure(), 0
      ensures old(hadError) ==> hadError
      ensures Valid() && compiler == old(compiler) && compiler.scopeDepth == old(compiler.scopeDepth)
      ensures old(Code()) <= Code() && old(heap.objects) <= heap.objects
      ensures Measure() < old(Measure())
      ensures !hadError && old(compiler.Closed()) ==> compiler.Active() == old(compiler.Active())
    {
      var isIf := Match(If);
      if isIf {
        var thenOp, elseOp := IfStatement();
        return;
      }
      var isLoop := Match(Loop);
      if isLoop {
        var loopStart, exitOp := LoopStatement();
        return;
      }
      var isBlock := Match(LeftSqb);
      ScopedBlock();
    }

    /**
     * begin_scope, block, end_scope. When nothing went wrong, the block's
     * locals are exactly the ones dropped: the slots are as before.
     */
    method ScopedBlock()
      requires Valid()
      modifies StmtFrame()
      decreases Measure(), 6
      ensures old(hadError) ==> hadError
      ensures Valid() && compiler == old(compiler) && compiler.scopeDepth == old(compiler.scopeDepth)
      ensures old(Code()) <= Code() && old(heap.objects) <= heap.objects
      ensures Measure() <= old(Measure())
      ensures !hadError && old(compiler.Closed()) ==> compiler.Active() == old(compiler.Active())
    {
      ghost var before := compiler.Active();
      BeginScope();
      Block();
      ghost var ls, m := compiler.locals[..], compiler.localCount;
      EndScope();
      if !hadError && old(compiler.Closed()) {
        ScopeClosed(before, ls, compiler.scopeDepth, compiler.localCount, m);
      }
    }

    /** block: declarations up to `:]` or the end of input, then the `:]`. */
    method Block()
      requires Valid()
      modifies StmtFrame()
      decreases Measure(), 5
      ensures old(hadError) ==> hadError
      ensures Valid() && compiler == old(compiler) && compiler.scopeDepth == old(compiler.scopeDepth)
      ensures old(Code()) <= Code() && old(heap.objects) <= heap.objects
      ensures Measure() <= old(Measure())
      ensures !hadError && old(compiler.Closed()) ==> compiler.Extends(old(compiler.Active()))
      ensures !hadError ==> previous.kind == BlockEnd
    {
      while !Check(BlockEnd) && !Check(Eof)
        invariant Valid() && compiler == old(compiler) && compiler.scopeDepth == old(compiler.scopeDepth)
        invariant old(hadError) ==> hadError
        invariant old(Code()) <= Code() && old(heap.objects) <= heap.objects
        invariant Measure() <= old(Measure())
        invariant !hadError && old(compiler.Closed()) ==> compiler.Extends(old(compiler.Active())) && compiler.Closed()
        decreases Measure()
      {
        ghost var before := compiler.Active();
        BlockDeclaration();
        if !hadError && old(compiler.Closed()) {
          ExtendsTrans(old(compiler.Active()), before, compiler.Active(), compiler.scopeDepth);
        }
      }
      Consume(BlockEnd, "':]' expected aftew bwock.");
    }

    /** One declaration of a block: its locals extend the scope, whose newest local stays no deeper than it. */
    method BlockDeclaration()
      requires Valid() && current.kind != Eof
      modifies StmtFrame()
      decreases Measure(), 4
      ensures old(hadError) ==> hadError
      ensures Valid() && compiler == old(compiler) && compiler.scopeDepth == old(compiler.scopeDepth)
      ensures old(Code()) <= Code() && old(heap.objects) <= heap.objects
      ensures Measure() < old(Measure())
      ensures !hadError && old(compiler.Closed()) ==> compiler.Extends(old(compiler.Active())) && compiler.Closed()
    {
      Declaration();
      if !hadError && old(compiler.Closed()) {
        ExtendsKeepsTop(old(compiler.Active()), compiler.Active(), compiler.scopeDepth);
      }
    }

    /** The `[:` and the scoped block that follow a condition or `else`. */
    method BlockAfterCondition()
      requires Valid()
      modifies StmtFrame()
      decreases Measure(), 7
      ensures old(hadError) ==> hadError
      ensures Valid() && compiler == old(compiler) && compiler.scopeDepth == old(compiler.scopeDepth)
      ensures old(Code()) <= Code() && old(heap.objects) <= heap.objects
      ensures Measure() <= old(Measure())
      ensures !hadError && old(compiler.Closed()) ==> compiler.Active() == old(compiler.Active())
    {
      Consume(BlockStart, "'[:' expected aftew condition.");
      ScopedBlock();
    }

    /**
     * if_statement: the condition, OP_JUMP_IF_FALSE over the then-branch to
     * the OP_POP that starts the else part, the then-branch (OP_POP, block,
     * OP_JUMP to the end), then the optional else block. Both jumps are
     * patched; a distance over 16 bits is an error.
     */
    method IfStatement() returns (thenOp: int, elseOp: int)
      requires Valid()
      modifies StmtFrame()
      decreases Measure(), 11
      ensures old(hadError) ==> hadError
      ensures Valid() && compiler == old(compiler) && compiler.scopeDepth == old(compiler.scopeDepth)
      ensures old(Code()) <= Code() && old(heap.objects) <= heap.objects
      ensures Measure() <= old(Measure())
      ensures !hadError && old(compiler.Closed()) ==> compiler.Active() == old(compiler.Active())
      ensures |old(Code())| < thenOp && thenOp + 4 <= elseOp && elseOp + 3 <= |Code()|
      ensures JumpTo(Code(), thenOp, OpJumpIfFalse, elseOp + 2) && Code()[thenOp + 2] == OpByte(OpPop)
      ensures JumpTo(Code(), elseOp, OpJump, |Code()|) && Code()[elseOp + 2] == OpByte(OpPop)
      ensures elseOp - thenOp > ShortMax ==> hadError
      ensures |Code()| - elseOp - 2 > ShortMax ==> hadError
    {
      thenOp := Condition(OpJumpIfFalse);
      ghost var c := Code();
      elseOp := IfBranches(thenOp);
      assert forall i :: 0 <= i < |old(Code())| ==> Code()[i] == c[i];
    }

    /** The branches of if_statement, after the condition's jump and OP_POP. */
    method IfBranches(thenOp: int) returns (elseOp: int)
      requires Valid() && 1 <= thenOp && thenOp + 3 == |Code()|
      requires Code()[thenOp - 1] == OpByte(OpJumpIfFalse) && Code()[thenOp + 2] == OpByte(OpPop)
      modifies StmtFrame()
      decreases Measure(), 10
      ensures old(hadError) ==> hadError
      ensures Valid() && compiler == old(compiler) && compiler.scopeDepth == old(compiler.scopeDepth)
      ensures PatchedAppend(old(Code()), Code(), thenOp) && old(heap.objects) <= heap.objects
      ensures Measure() <= old(Measure())
      ensures !hadError && old(compiler.Closed()) ==> compiler.Active() == old(compiler.Active())
      ensures thenOp + 4 <= elseOp && elseOp + 3 <= |Code()|
      ensures JumpTo(Code(), thenOp, OpJumpIfFalse, elseOp + 2) && Code()[thenOp + 2] == OpByte(OpPop)
      ensures JumpTo(Code(), elseOp, OpJump, |Code()|) && Code()[elseOp + 2] == OpByte(OpPop)
      ensures elseOp - thenOp > ShortMax ==> hadError
      ensures |Code()| - elseOp - 2 > ShortMax ==> hadError
    {
      elseOp := ThenBranch(thenOp);
      ghost var c := Code();
      ElseBranch(elseOp);
      JumpToKept(c, Code(), thenOp, OpJumpIfFalse, elseOp + 2);
    }

    /** The then-branch of if_statement, ended by its OP_JUMP over the else part. */
    method ThenBranch(thenOp: int) returns (elseOp: int)
      requires Valid() && 1 <= thenOp && thenOp + 3 == |Code()|
      requires Code()[thenOp - 1] == OpByte(OpJumpIfFalse) && Code()[thenOp + 2] == OpByte(OpPop)
      modifies StmtFrame()
      decreases Measure(), 8
      ensures old(hadError) ==> hadError
      ensures Valid() && compiler == old(compiler) && compiler.scopeDepth == old(compiler.scopeDepth)
      ensures PatchedAppend(old(Code()), Code(), thenOp) && old(heap.objects) <= heap.objects
      ensures Measure() <= old(Measure())
      ensures !hadError && old(compiler.Closed()) ==> compiler.Active() == old(compiler.Active())
      ensures thenOp + 4 <= elseOp && elseOp + 3 == |Code()|
      ensures Code()[elseOp - 1] == OpByte(OpJump) && Code()[elseOp + 2] == OpByte(OpPop)
      ensures JumpTo(Code(), thenOp, OpJumpIfFalse, elseOp + 2)
      ensures elseOp - thenOp > ShortMax ==> hadError
    {
      BlockAfterCondition();
      elseOp := ExitJump(thenOp);
    }

    /** The end of the then-branch: OP_JUMP with a placeholder, the patch of the condition's jump, and OP_POP. */
    method ExitJump(thenOp: int) returns (elseOp: int)
      requires Valid() && 1 <= thenOp && thenOp + 3 <= |Code()| && Code()[thenOp - 1] == OpByte(OpJumpIfFalse)
      modifies this, compiler.fn.chunk
      ensures old(hadError) ==> hadError
      ensures Valid() && compiler == old(compiler) && current == old(current) && previous == old(previous)
      ensures PatchedAppend(old(Code()), Code(), thenOp)
      ensures elseOp == |old(Code())| + 1 && |Code()| == elseOp + 3
      ensures Code()[elseOp - 1] == OpByte(OpJump) && Code()[elseOp + 2] == OpByte(OpPop)
      ensures JumpTo(Code(), thenOp, OpJumpIfFalse, elseOp + 2)
      ensures elseOp - thenOp > ShortMax ==> hadError
    {
      elseOp := EmitJump(OpJump);
      ghost var c := Code();
      PatchJump(thenOp);
      PatchedJumpTo(c, thenOp, OpJumpIfFalse);
      EmitOp(OpPop);
    }

    /** The optional `else` block, then the patch of the then-branch's OP_JUMP to the end. */
    method ElseBranch(elseOp: int)
      requires Valid() && 1 <= elseOp && elseOp + 2 <= |Code()| && Code()[elseOp - 1] == OpByte(OpJump)
      modifies StmtFrame()
      decreases Measure(), 9
      ensures old(hadError) ==> hadError
      ensures Valid() && compiler == old(compiler) && compiler.scopeDepth == old(compiler.scopeDepth)
      ensures PatchedAppend(old(Code()), Code(), elseOp) && old(heap.objects) <= heap.objects
      ensures Measure() <= old(Measure())
      ensures !hadError && old(compiler.Closed()) ==> compiler.Active() == old(compiler.Active())
      ensures JumpTo(Code(), elseOp, OpJump, |Code()|)
      ensures |Code()| - elseOp - 2 > ShortMax ==> hadError
    {
      ElseBlock();
      ghost var c := Code();
      PatchJump(elseOp);
      PatchedJumpTo(c, elseOp, OpJump);
    }

    /** The block after `else`, when there is one. */
    method ElseBlock()
      requires Valid()
      modifies StmtFrame()
      decreases Measure(), 8
      ensures old(hadError) ==> hadError
      ensures Valid() && compiler == old(compiler) && compiler.scopeDepth == old(compiler.scopeDepth)
      ensures old(Code()) <= Code() && old(heap.objects) <= heap.objects
      ensures Measure() <= old(Measure())
      ensures !hadError && old(compiler.Closed()) ==> compiler.Active() == old(compiler.Active())
    {
      var hasElse := Match(Else);
      if hasElse {
        BlockAfterCondition();
      }
    }

    /**
     * loop_statement: the condition, OP_JUMP_IF_TRUE out of the loop, OP_POP,
     * the block, OP_LOOP back to the condition, and the OP_POP the exit jump
     * lands on. A distance over 16 bits is an error.
     */
    method LoopStatement() returns (loopStart: int, exitOp: int)
      requires Valid()
      modifies StmtFrame()
      decreases Measure(), 9
      ensures old(hadError) ==> hadError
      ensures Valid() && compiler == old(compiler) && compiler.scopeDepth == old(compiler.scopeDepth)
      ensures old(Code()) <= Code() && old(heap.objects) <= heap.objects
      ensures Measure() <= old(Measure())
      ensures !hadError && old(compiler.Closed()) ==> compiler.Active() == old(compiler.Active())
      ensures loopStart == |old(Code())| && loopStart < exitOp && exitOp + 7 <= |Code()|
      ensures JumpTo(Code(), exitOp, OpJumpIfTrue, |Code()| - 1) && Code()[exitOp + 2] == OpByte(OpPop)
      ensures LoopTo(Code(), |Code()| - 4, loopStart) && Code()[|Code()| - 1] == OpByte(OpPop)
      ensures |Code()| - exitOp - 3 > ShortMax ==> hadError
      ensures |Code()| - 1 - loopStart > ShortMax ==> hadError
    {
      loopStart := |compiler.fn.chunk.code|;
      exitOp := Condition(OpJumpIfTrue);
      ghost var c := Code();
      LoopRest(loopStart, exitOp);
      assert forall i :: 0 <= i < |old(Code())| ==> Code()[i] == c[i];
    }

    /** The condition of if_statement or loop_statement, then its conditional jump and OP_POP. */
    method Condition(op: OpCode) returns (operand: int)
      requires Valid()
      modifies ExprFrame()
      ensures old(hadError) ==> hadError
      ensures Valid() && compiler == old(compiler) && compiler.scopeDepth == old(compiler.scopeDepth)
      ensures compiler.Active() == old(compiler.Active())
      ensures old(Code()) <= Code() && old(heap.objects) <= heap.objects
      ensures Measure() <= old(Measure())
      ensures |old(Code())| < operand && operand + 3 == |Code()|
      ensures Code()[operand - 1] == OpByte(op) && Code()[operand + 2] == OpByte(OpPop)
    {
      Expression();
      operand := ConditionJump(op);
    }

    /** The rest of loop_statement, once the condition and its exit jump are emitted. */
    method LoopRest(loopStart: int, exitOp: int)
      requires Valid() && 0 <= loopStart < exitOp && exitOp + 3 == |Code()|
      requires Code()[exitOp - 1] == OpByte(OpJumpIfTrue) && Code()[exitOp + 2] == OpByte(OpPop)
      modifies StmtFrame()
      decreases Measure(), 8
      ensures old(hadError) ==> hadError
      ensures Valid() && compiler == old(compiler) && compiler.scopeDepth == old(compiler.scopeDepth)
      ensures PatchedAppend(old(Code()), Code(), exitOp) && old(heap.objects) <= heap.objects
      ensures Measure() <= old(Measure())
      ensures !hadError && old(compiler.Closed()) ==> compiler.Active() == old(compiler.Active())
      ensures exitOp + 7 <= |Code()|
      ensures JumpTo(Code(), exitOp, OpJumpIfTrue, |Code()| - 1) && Code()[exitOp + 2] == OpByte(OpPop)
      ensures LoopTo(Code(), |Code()| - 4, loopStart) && Code()[|Code()| - 1] == OpByte(OpPop)
      ensures |Code()| - exitOp - 3 > ShortMax ==> hadError
      ensures |Code()| - 1 - loopStart > ShortMax ==> hadError
    {
      BlockAfterCondition();
      LoopEnd(loopStart, exitOp);
    }

    /** The end of loop_statement: OP_LOOP, the patch of the exit jump, and OP_POP. */
    method LoopEnd(loopStart: int, exitOp: int)
      requires Valid() && 0 <= loopStart < exitOp && exitOp + 3 <= |Code()| && Code()[exitOp - 1] == OpByte(OpJumpIfTrue)
      modifies this, compiler.fn.chunk
      ensures old(hadError) ==> hadError
      ensures Valid() && compiler == old(compiler) && current == old(current) && previous == old(previous)
      ensures PatchedAppend(old(Code()), Code(), exitOp) && |Code()| == |old(Code())| + 4
      ensures JumpTo(Code(), exitOp, OpJumpIfTrue, |Code()| - 1)
      ensures LoopTo(Code(), |Code()| - 4, loopStart) && Code()[|Code()| - 1] == OpByte(OpPop)
      ensures |Code()| - exitOp - 3 > ShortMax ==> hadError
      ensures |Code()| - 1 - loopStart > ShortMax ==> hadError
    {
      EmitLoop(loopStart);
      ghost var c := Code();
      PatchJump(exitOp);
      PatchedJumpTo(c, exitOp, OpJumpIfTrue);
      EmitOp(OpPop);
    }

    /**
     * variable_declaration: the name, its initialiser (null when there is
     * no `:=`), then its definition: OP_DEFINE_GLOBAL at the top level, or
     * a local of the current scope, initialised only now.
     */
    method VariableDeclaration()
      requires Valid()
      modifies StmtFrame()
      ensures old(hadError) ==> hadError
      ensures Valid() && compiler == old(compiler) && compiler.scopeDepth == old(compiler.scopeDepth)
      ensures old(Code()) <= Code() && old(heap.objects) <= heap.objects
      ensures Measure() <= old(Measure())
      ensures !hadError && old(compiler.Closed()) ==> compiler.Extends(old(compiler.Active()))
      ensures compiler.scopeDepth == 0 ==>
        && compiler.Active() == old(compiler.Active())
        && |old(Code())| + 2 <= |Code()| && Code()[|Code()| - 2] == OpByte(OpDefineGlobal)
      ensures compiler.scopeDepth > 0 && old(compiler.localCount) < LocalsMax && old(current.kind) == Identifier ==>
        && compiler.localCount == old(compiler.localCount) + 1
        && compiler.locals[compiler.localCount - 1] == Local(old(current), compiler.scopeDepth)
    {
      var global := ParseVariable("vawiabwe n-name expected.");
      ghost var locals := compiler.locals[..];
      Initializer();
      DefineVariable(global);
    }

    /** The value of a variable declaration: the expression after `:=`, or OP_NULL. */
    method Initializer()
      requires Valid()
      modifies ExprFrame()
      ensures old(hadError) ==> hadError
      ensures Valid() && compiler == old(compiler)
      ensures old(Code()) <= Code() && old(heap.objects) <= heap.objects
      ensures Measure() <= old(Measure())
      ensures old(current.kind) != Assign ==> Code() == old(Code()) + [OpByte(OpNull)]
    {
      var assign := Match(Assign);
      if assign {
        Expression();
      } else {
        EmitOp(OpNull);
      }
    }

    /**
     * function_declaration: the name (a local is initialised at once, so
     * the body can call itself), the function, then its definition.
     */
    method FunctionDeclaration()
      requires Valid()
      modifies StmtFrame()
      decreases Measure(), 11
      ensures old(hadError) ==> hadError
      ensures Valid() && compiler == old(compiler) && compiler.scopeDepth == old(compiler.scopeDepth)
      ensures old(Code()) <= Code() && old(heap.objects) <= heap.objects
      ensures Measure() <= old(Measure())
      ensures !hadError && old(compiler.Closed()) ==> compiler.Extends(old(compiler.Active()))
      ensures compiler.scopeDepth == 0 ==>
        && compiler.Active() == old(compiler.Active())
        && |old(Code())| + 4 <= |Code()| && Code()[|Code()| - 2] == OpByte(OpDefineGlobal)
      ensures compiler.scopeDepth > 0 && old(compiler.localCount) < LocalsMax && old(current.kind) == Identifier ==>
        && compiler.localCount == old(compiler.localCount) + 1
        && compiler.locals[compiler.localCount - 1] == Local(old(current), compiler.scopeDepth)
    {
      var global := FunctionName();
      FunctionDefinition(global);
    }

    /** The function itself, then the definition of the name declared for it. */
    method FunctionDefinition(global: byte)
      requires Valid()
      requires compiler.scopeDepth > 0 ==>
        compiler.localCount >= 2 && compiler.locals[compiler.localCount - 1].depth == compiler.scopeDepth
      modifies ExprFrame(), compiler.locals
      decreases Measure(), 10
      ensures old(hadError) ==> hadError
      ensures Valid() && compiler == old(compiler) && compiler.Active() == old(compiler.Active())
      ensures old(Code()) <= Code() && old(heap.objects) <= heap.objects
      ensures Measure() <= old(Measure())
      ensures compiler.scopeDepth == 0 ==>
        |old(Code())| + 4 <= |Code()| && Code()[|Code()| - 2] == OpByte(OpDefineGlobal)
    {
      FunctionBody(TypeFunction);
      DefineVariable(global);
    }

    /** The name of function_declaration, declared and, as a local, initialised at once. */
    method FunctionName() returns (global: byte)
      requires Valid()
      modifies this, scanner, heap, compiler, compiler.locals, compiler.fn.chunk.constants
      ensures old(hadError) ==> hadError
      ensures Valid() && compiler == old(compiler) && Code() == old(Code())
      ensures compiler.scopeDepth == old(compiler.scopeDepth) && old(heap.objects) <= heap.objects
      ensures Measure() <= old(Measure())
      ensures compiler.scopeDepth > 0 ==> compiler.localCount >= 2 && global == 0
      ensures compiler.scopeDepth > 0 ==> compiler.locals[compiler.localCount - 1].depth == compiler.scopeDepth
      ensures !hadError && old(compiler.Closed()) ==> compiler.Extends(old(compiler.Active()))
      ensures old(current.kind) == Identifier ==> previous == old(current)
      ensures compiler.scopeDepth == 0 ==>
        compiler.localCount == old(compiler.localCount) && compiler.locals[..] == old(compiler.locals[..])
      ensures compiler.scopeDepth > 0 && old(compiler.localCount) < LocalsMax ==>
        && compiler.localCount == old(compiler.localCount) + 1
        && compiler.locals[..] == old(compiler.locals[..])[old(compiler.localCount) := Local(previous, compiler.scopeDepth)]
      ensures compiler.scopeDepth > 0 && old(compiler.localCount) == LocalsMax ==> hadError
    {
      global := ParseVariable("fwunction name e-expected.");
      MarkInitialized();
    }

    /**
     * _function: the body is compiled in a new compiler record for a new
     * function; the finished function, which ends with the implicit return,
     * is then loaded as a constant of the enclosing chunk.
     */
    method FunctionBody(ftype: FunType)
      requires Valid()
      modifies ExprFrame()
      decreases Measure(), 9
      ensures old(hadError) ==> hadError
      ensures Valid() && compiler == old(compiler)
      ensures old(Code()) <= Code() && old(heap.objects) <= heap.objects
      ensures Measure() <= old(Measure())
      ensures |Code()| == |old(Code())| + 2 && Code()[|old(Code())|] == OpByte(OpConstant)
      ensures NewConstant(old(compiler.fn.chunk.constants.values)) && LastConstant().ObjectVal?
      ensures LastConstant().obj < |heap.objects| && heap.objects[LastConstant().obj].FunctionObj?
      ensures var f := heap.objects[LastConstant().obj].fn;
        && fresh(f) && 2 <= |f.chunk.code|
        && f.chunk.code[|f.chunk.code| - 2..] == [OpByte(OpNull), OpByte(OpOut)]
        && (f.arity > 255 ==> hadError)
    {
      BeginFunction(ftype);
      FunctionRest();
    }

    /** The rest of _function, once the new compiler record is current: its parameters and body, then its value. */
    method FunctionRest()
      requires Valid() && compiler.enclosing != null && Hosts(compiler.enclosing) && Separate(compiler.enclosing, compiler)
      modifies StmtFrame(), compiler.fn`arity, compiler.enclosing.fn.chunk, compiler.enclosing.fn.chunk.constants
      decreases Measure(), 8
      ensures old(hadError) ==> hadError
      ensures Valid() && compiler == old(compiler.enclosing)
      ensures old(heap.objects) <= heap.objects && Measure() <= old(Measure())
      ensures |Code()| == |old(compiler.enclosing.fn.chunk.code)| + 2 && old(compiler.enclosing.fn.chunk.code) <= Code()
      ensures Code()[|Code()| - 2] == OpByte(OpConstant)
      ensures NewConstant(old(compiler.enclosing.fn.chunk.constants.values)) && LastConstant() == ObjectVal(old(compiler.fnRef))
      ensures heap.objects[old(compiler.fnRef)] == FunctionObj(old(compiler.fn))
      ensures old(Code()) <= old(compiler.fn).chunk.code && |old(Code())| + 2 <= |old(compiler.fn).chunk.code|
      ensures old(compiler.fn).chunk.code[|old(compiler.fn).chunk.code| - 2..] == [OpByte(OpNull), OpByte(OpOut)]
      ensures old(compiler.fn).arity > 255 && old(compiler.fn.arity) <= 255 ==> hadError
    {
      FunctionSignature();
      ghost var f := FunctionValue();
    }

    /**
     * init_compiler for a function: a new function and compiler record,
     * which becomes current; a function (not the script) is named after the
     * previous token. Slot 0 is reserved, and _function begins the scope of
     * the parameters.
     */
    method BeginFunction(ftype: FunType)
      requires Valid()
      modifies this, heap
      ensures Valid() && current == old(current) && previous == old(previous)
      ensures hadError == old(hadError) && panicMode == old(panicMode) && diagnostics == old(diagnostics)
      ensures compiler.enclosing == old(compiler) && compiler.ftype == ftype && Hosts(old(compiler))
      ensures fresh(compiler) && fresh(compiler.locals) && fresh(compiler.fn)
      ensures fresh(compiler.fn.chunk) && fresh(compiler.fn.chunk.constants)
      ensures compiler.localCount == 1 && compiler.scopeDepth == 1 && compiler.Closed()
      ensures compiler.fn.arity == 0 && Code() == [] && compiler.fn.chunk.constants.values == []
      ensures old(heap.objects) <= heap.objects
      ensures ftype == TypeScript ==> compiler.fn.name == None
      ensures ftype == TypeFunction ==>
        compiler.fn.name.Some? && compiler.fn.name.value < |heap.objects| && heap.objects[compiler.fn.name.value] == StringObj(previous.lexeme)
    {
      var c := NewRecord(ftype);
      compiler := c;
      BeginScope();
    }

    /** The allocations of init_compiler: the function (named unless it is the script) and its compiler record. */
    method NewRecord(ftype: FunType) returns (c: Compiler)
      requires Valid()
      modifies heap
      ensures Valid() && Hosts(c) && Hosts(compiler)
      ensures c.enclosing == compiler && c.ftype == ftype
      ensures fresh(c) && fresh(c.locals) && fresh(c.fn) && fresh(c.fn.chunk) && fresh(c.fn.chunk.constants)
      ensures c.localCount == 1 && c.scopeDepth == 0 && c.locals[0].depth == 0
      ensures c.fn.arity == 0 && c.fn.chunk.code == [] && c.fn.chunk.constants.values == []
      ensures old(heap.objects) <= heap.objects
      ensures ftype == TypeScript ==> c.fn.name == None
      ensures ftype == TypeFunction ==>
        c.fn.name.Some? && c.fn.name.value < |heap.objects| && heap.objects[c.fn.name.value] == StringObj(previous.lexeme)
    {
      var f, r := heap.NewFunction();
      if ftype != TypeScript {
        var name := heap.CopyString(previous.lexeme);
        f.name := Some(name);
      }
      c := new Compiler(compiler, f, r, ftype);
    }

    /** The parameter list and the body block of _function. */
    method FunctionSignature()
      requires Valid()
      modifies StmtFrame(), compiler.fn`arity
      decreases Measure(), 7
      ensures old(hadError) ==> hadError
      ensures Valid() && compiler == old(compiler)
      ensures old(Code()) <= Code() && old(heap.objects) <= heap.objects
      ensures Measure() <= old(Measure())
      ensures old(compiler.fn.arity) <= compiler.fn.arity
      ensures compiler.fn.arity > 255 && old(compiler.fn.arity) <= 255 ==> hadError
    {
      ParameterList();
      FunctionBlock();
    }

    /** `(`, the parameters unless `)` follows at once, and `)`. */
    method ParameterList()
      requires Valid()
      modifies StmtFrame(), compiler.fn`arity
      ensures old(hadError) ==> hadError
      ensures Valid() && compiler == old(compiler)
      ensures old(Code()) <= Code() && old(heap.objects) <= heap.objects
      ensures Measure() <= old(Measure())
      ensures old(compiler.fn.arity) <= compiler.fn.arity
      ensures compiler.fn.arity > 255 && old(compiler.fn.arity) <= 255 ==> hadError
    {
      Consume(LeftPar, "'(' expected aftew fwunction name.");
      if !Check(RightPar) {
        Parameters();
      }
      Consume(RightPar, "')' expected aftew fwunction pawametews.");
    }

    /** The `[:` and block of a function body, in the scope begun for the parameters. */
    method FunctionBlock()
      requires Valid()
      modifies StmtFrame()
      decreases Measure(), 6
      ensures old(hadError) ==> hadError
      ensures Valid() && compiler == old(compiler)
      ensures old(Code()) <= Code() && old(heap.objects) <= heap.objects
      ensures Measure() <= old(Measure())
    {
      Consume(BlockStart, "'[:' expected befowe fwunction body.");
      Block();
    }

    /** The comma-separated parameters: one or more, each counted in the arity. */
    method Parameters()
      requires Valid()
      modifies StmtFrame(), compiler.fn`arity
      ensures old(hadError) ==> hadError
      ensures Valid() && compiler == old(compiler) && compiler.scopeDepth == old(compiler.scopeDepth)
      ensures old(Code()) <= Code() && old(heap.objects) <= heap.objects
      ensures Measure() <= old(Measure())
      ensures old(compiler.fn.arity) < compiler.fn.arity && (compiler.fn.arity > 255 ==> hadError)
    {
      Parameter();
      while true
        invariant Valid() && compiler == old(compiler) && compiler.scopeDepth == old(compiler.scopeDepth)
        invariant old(hadError) ==> hadError
        invariant old(Code()) <= Code() && old(heap.objects) <= heap.objects
        invariant Measure() <= old(Measure())
        invariant old(compiler.fn.arity) < compiler.fn.arity && (compiler.fn.arity > 255 ==> hadError)
        decreases Measure()
      {
        var comma := Match(Comma);
        if !comma {
          return;
        }
        Parameter();
      }
    }

    /** One parameter: the arity goes up (past 255 is an error), and the name becomes an initialised local. */
    method Parameter()
      requires Valid()
      modifies StmtFrame(), compiler.fn`arity
      ensures old(hadError) ==> hadError
      ensures Valid() && compiler == old(compiler) && compiler.scopeDepth == old(compiler.scopeDepth)
      ensures old(Code()) <= Code() && old(heap.objects) <= heap.objects
      ensures Measure() <= old(Measure())
      ensures compiler.fn.arity == old(compiler.fn.arity) + 1 && (compiler.fn.arity > 255 ==> hadError)
    {
      CountParameter();
      ParameterName();
    }

    /** The arity goes up by one; past 255 parameters an error is reported at the current token. */
    method CountParameter()
      requires Valid()
      modifies this, compiler.fn`arity
      ensures old(hadError) ==> hadError
      ensures Valid() && compiler == old(compiler) && current == old(current) && previous == old(previous)
      ensures compiler.fn.arity == old(compiler.fn.arity) + 1 && (compiler.fn.arity > 255 ==> hadError)
    {
      compiler.fn.arity := compiler.fn.arity + 1;
      if compiler.fn.arity > 255 {
        ErrorAtCurrent("can't have mowe than 255 pawametews.");
      }
    }

    /** A parameter's name, declared and defined as a local of the function. */
    method ParameterName()
      requires Valid()
      modifies StmtFrame()
      ensures old(hadError) ==> hadError
      ensures Valid() && compiler == old(compiler) && compiler.scopeDepth == old(compiler.scopeDepth)
      ensures old(Code()) <= Code() && old(heap.objects) <= heap.objects
      ensures Measure() <= old(Measure())
    {
      var constant := ParseVariable("pawamtew name expected.");
      DefineVariable(constant);
    }

    /**
     * The end of _function: end_compiler, then OP_CONSTANT with the
     * function's index in the constant pool of the enclosing chunk.
     */
    method FunctionValue() returns (ghost f: Function)
      requires Valid() && compiler.enclosing != null && Hosts(compiler.enclosing)
      requires compiler.enclosing.fn.chunk != compiler.fn.chunk
      modifies this, compiler.fn.chunk, compiler.enclosing.fn.chunk, compiler.enclosing.fn.chunk.constants
      ensures old(hadError) ==> hadError
      ensures Valid() && compiler == old(compiler.enclosing) && current == old(current) && previous == old(previous)
      ensures f == old(compiler.fn) && f.chunk.code == old(Code()) + [OpByte(OpNull)] + [OpByte(OpOut)]
      ensures heap.objects[old(compiler.fnRef)] == FunctionObj(f)
      ensures |Code()| == |old(compiler.enclosing.fn.chunk.code)| + 2 && old(compiler.enclosing.fn.chunk.code) <= Code()
      ensures Code()[|Code()| - 2] == OpByte(OpConstant)
      ensures NewConstant(old(compiler.enclosing.fn.chunk.constants.values)) && LastConstant() == ObjectVal(old(compiler.fnRef))
    {
      f := compiler.fn;
      var r := EndCompiler();
      var index := MakeConstant(ObjectVal(r));
      EmitBytes(OpConstant, index);
    }

    /** end_compiler: the implicit return, then the enclosing compiler record becomes current again; the result is the function. */
    method EndCompiler() returns (r: ObjRef)
      requires Valid() && compiler.enclosing != null && Hosts(compiler.enclosing)
      modifies this, compiler.fn.chunk
      ensures old(hadError) ==> hadError
      ensures Valid() && compiler == old(compiler.enclosing) && current == old(current) && previous == old(previous)
      ensures hadError == old(hadError) && panicMode == old(panicMode) && diagnostics == old(diagnostics)
      ensures r == old(compiler.fnRef) && heap.objects[r] == FunctionObj(old(compiler.fn))
      ensures old(compiler.fn.chunk.code) + [OpByte(OpNull)] + [OpByte(OpOut)] == old(compiler).fn.chunk.code
    {
      EmitReturn();
      r := compiler.fnRef;
      compiler := compiler.enclosing;
    }

    /** The body of compile, once the parser is set up: every declaration, then the implicit return. */
    method Script()
      requires Valid()
      modifies this, scanner, heap, compiler, compiler.locals, compiler.fn.chunk, compiler.fn.chunk.constants
      ensures Valid() && compiler == old(compiler) && old(heap.objects) <= heap.objects
      ensures 2 <= |Code()| && Code()[|Code()| - 2..] == [OpByte(OpNull), OpByte(OpOut)]
    {
      Advance();
      Declarations();
      EmitReturn();
    }

    /**
     * out_statement as written, followed by the next declaration: after a
     * bare `out >>` the declaration starts at the `>>`, which begins no
     * declaration, so the program never compiles.
     */
    method BareOutAsWritten()
      requires Valid() && current.kind == OutEnd
      modifies StmtFrame()
      ensures hadError
    {
      OutStatementAsWritten();
      Declaration();
    }
  }

  /**
   * compile: scan and parse the whole source as the top-level script, a
   * function with no name and no parameters. The result is that function,
   * or nothing when any error was reported; every report is returned.
   */
  method Compile(source: string, heap: Heap) returns (result: Option<ObjRef>, diagnostics: seq<Diagnostic>)
    requires heap.Valid()
    modifies heap
    ensures heap.Valid() && old(heap.objects) <= heap.objects
    ensures result.None? <==> diagnostics != []
    ensures result.Some? ==> && result.value < |heap.objects| && heap.objects[result.value].FunctionObj?
    ensures result.Some? ==>
      var f := heap.objects[result.value].fn;
      && f.name == None && f.arity == 0 && 2 <= |f.chunk.code|
      && f.chunk.code[|f.chunk.code| - 2..] == [OpByte(OpNull), OpByte(OpOut)]
  {
    var scanner := new Scanner(source);
    var f, r := heap.NewFunction();
    var script := new Compiler(null, f, r, TypeScript);
    var parser := new Parser(scanner, heap, script);
    parser.Script();
    diagnostics := parser.diagnostics;
    result := if parser.hadError then None else Some(r);
  }
}
