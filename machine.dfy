/**
 * The virtual machine of vm.h / vm.cpp: the operand stack, the call
 * frames, the table of globals and the fetch-decode-execute loop of run.
 *
 * Behaviour the source leaves undefined (a pop from the empty stack, a
 * push past STACK_MAX, a fetch past the end of the code, a constant index
 * past the pool, a dangling object) stops the model with Fault instead.
 */
module Machine {
  import opened Wrappers
  import opened Values
  import opened Chunks
  import opened Objects
  import opened Jumps
  import Compilation

  /** FRAMES_MAX, and STACK_MAX = FRAMES_MAX * UINT8_COUNT. */
  const FramesMax := 64
  const StackMax := FramesMax * 256

  datatype InterpretResult = InterpretOk | InterpretCompileError | InterpretRuntimeError

  /** A call frame: the function, the index of the next byte it reads, and the stack index of its slot 0. */
  datatype CallFrame = CallFrame(fn: Function, ip: int, slots: int)

  /** One line of the trace runtime__error writes: the source line of the frame, and its function's name (none for the script). */
  datatype TraceLine = TraceLine(line: Option<int>, name: Option<ObjRef>)

  /** A runtime error report: the message format and the trace, newest frame first. */
  datatype RuntimeReport = RuntimeReport(message: string, trace: seq<TraceLine>)

  /**
   * Where the machine is after an instruction: still running, finished with
   * the result interpret returns, or stopped where the source's behaviour is
   * undefined (or, for a division by zero, is no real number).
   */
  datatype Status = Running | Finished(result: InterpretResult) | Fault

  /** A value naming no object of `objects`. */
  predicate IsDangling(v: Value, objects: seq<Obj>)
  {
    v.ObjectVal? && v.obj >= |objects|
  }

  /** IS_STRING || IS_CHAR over `objects`: the operands OP_ADD concatenates. */
  predicate IsText(v: Value, objects: seq<Obj>)
  {
    v.CharVal? || (v.ObjectVal? && v.obj < |objects| && objects[v.obj].StringObj?)
  }

  /** The characters of such an operand: a character's one, or the string's. */
  function TextChars(v: Value, objects: seq<Obj>): string
    requires IsText(v, objects)
  {
    if v.CharVal? then [v.character] else objects[v.obj].chars
  }

  /**
   * Everything of the machine an instruction can change: the stack array
   * and its top, the frame array and its count, the globals, what was
   * written so far, the console replies left, and the heap's objects,
   * intern table and allocation list.
   */
  datatype State = State(
    stack: seq<Value>, top: int, frames: seq<CallFrame>, count: int,
    globals: map<ObjRef, Value>, output: seq<Value>, reports: seq<RuntimeReport>,
    lineInput: seq<string>, numberInput: seq<real>, charInput: seq<char>,
    objects: seq<Obj>, strings: set<ObjRef>, list: seq<ObjRef>)

  /**
   * The machine as an instruction finds it, apart from the active frame's
   * ip: its State (with the active frame's ip read as 0), and the active
   * function's code, constants and slot 0.
   */
  datatype Before = Before(
    stack: seq<Value>, top: int, frames: seq<CallFrame>, count: int,
    code: seq<byte>, pool: seq<Value>, slots: int,
    globals: map<ObjRef, Value>, output: seq<Value>, reports: seq<RuntimeReport>,
    lineInput: seq<string>, numberInput: seq<real>, charInput: seq<char>,
    objects: seq<Obj>, strings: set<ObjRef>, list: seq<ObjRef>)
  {
    /** The bounds of a valid machine with at least one frame. */
    predicate Sound()
    {
      |stack| == StackMax && 0 <= top <= StackMax && |frames| == FramesMax && 1 <= count <= FramesMax
    }

    /** The frames once the active one's ip is `ip`. */
    function Resumed(ip: int): seq<CallFrame>
      requires Sound()
    {
      frames[count - 1 := frames[count - 1].(ip := ip)]
    }

    /** The whole state once the active frame's ip is `ip` and nothing else has changed. */
    function At(ip: int): State
      requires Sound()
    {
      State(stack, top, Resumed(ip), count, globals, output, reports, lineInput, numberInput, charInput, objects, strings, list)
    }

    /** The constant the operand byte at `at` indexes, if both exist. */
    function ConstantAt(at: int): Option<Value>
    {
      if 0 <= at < |code| && (code[at] as int) < |pool| then Some(pool[code[at]]) else None
    }

    /** The global name the operand byte at `at` indexes: a constant that is an object. */
    function NameAt(at: int): Option<ObjRef>
    {
      if ConstantAt(at).Some? && ConstantAt(at).value.ObjectVal? then Some(ConstantAt(at).value.obj) else None
    }

    /** The big-endian jump offset in the two operand bytes at `at`, if both exist. */
    function ShortAt(at: int): Option<nat>
    {
      if 0 <= at && at + 2 <= |code| then Some(ReadShort(code[at], code[at + 1])) else None
    }

    /** The function objects of the heap. */
    ghost function Functions(): set<Function>
    {
      set i | 0 <= i < |objects| && objects[i].FunctionObj? :: objects[i].fn
    }
  }

  // The runtime error messages (format strings; the formatting is not modelled).
  const ArityMismatch := "expected %d awguments but got %d."
  const StackOverflow := "stack ovewfwow."
  const NotCallable := "can onwy caww fwunctions."
  const NotNumbers := "Operands must be numbers."
  const UndefinedName := "unexpected towken '%s'."
  const MixedOperands := "opewands m-must b-be of same twype."
  const NotANumber := "operand must be a number."

  /**
   * The number field of the value union where the source sets it: a
   * number's own, and the 0 that NULL_VAL stores. The other constructors
   * leave those bytes unset; they are modelled as holding no zero.
   */
  function NumberField(v: Value): Option<real>
  {
    match v
    case NumberVal(n) => Some(n)
    case NullVal => Some(0.0)
    case _ => None
  }

  /** is_falsy: false, the number 0, and null (through its stored 0). */
  function IsFalsy(v: Value): (r: bool)
    ensures r <==> v == BoolVal(false) || v == NumberVal(0.0) || v == NullVal
  {
    (v.BoolVal? && !v.boolean) || NumberField(v) == Some(0.0)
  }

  /** The arithmetic and comparison operators of BINARY_OP and OP_ADD on two numbers; a division by zero has no real result. */
  function NumberOp(op: OpCode, a: real, b: real): (r: Option<Value>)
    ensures op == OpDivide ==> (r.None? <==> b == 0.0)
    ensures op in {OpAdd, OpSubtract, OpMultiply, OpDivide} && r.Some? ==> r.value.NumberVal?
    ensures op in {OpGreater, OpGreaterEqual, OpLess, OpLessEqual} ==> r.Some? && r.value.BoolVal?
  {
    match op
    case OpAdd => Some(NumberVal(a + b))
    case OpSubtract => Some(NumberVal(a - b))
    case OpMultiply => Some(NumberVal(a * b))
    case OpDivide => if b == 0.0 then None else Some(NumberVal(a / b))
    case OpGreater => Some(BoolVal(a > b))
    case OpGreaterEqual => Some(BoolVal(a >= b))
    case OpLess => Some(BoolVal(a < b))
    case OpLessEqual => Some(BoolVal(a <= b))
    case _ => None
  }

  /**
   * The line runtime__error shows for a frame: the line of the first row of
   * the line table whose cumulative count exceeds the frame's ip. When no
   * row does, the source prints an unset variable; that is None here.
   */
  ghost function FrameLine(fr: CallFrame): Option<int>
    reads fr.fn.chunk
  {
    var c := fr.fn.chunk;
    if 0 <= c.lcount < |c.lines| then LineLookup(c.lines[..c.lcount + 1], fr.ip) else None
  }

  /** The trace line of one frame. */
  ghost function Entry(fr: CallFrame): TraceLine
    reads fr.fn, fr.fn.chunk
  {
    TraceLine(FrameLine(fr), fr.fn.name)
  }

  /** The trace of a frame array, oldest first: the newest frame's line comes first. */
  ghost function Trace(fs: seq<CallFrame>): (t: seq<TraceLine>)
    reads set fr | fr in fs :: fr.fn
    reads set fr | fr in fs :: fr.fn.chunk
    ensures |t| == |fs|
    ensures forall k :: 0 <= k < |fs| ==> t[k] == Entry(fs[|fs| - 1 - k])
  {
    if fs == [] then [] else Trace(fs[1..]) + [Entry(fs[0])]
  }

  /** The line lookup of runtime__error for one frame. */
  method LineOf(fr: CallFrame) returns (line: Option<int>)
    ensures line == FrameLine(fr)
  {
    var c := fr.fn.chunk;
    if 0 <= c.lcount < |c.lines| {
      var found, l := c.LineAt(fr.ip);
      line := if found then Some(l) else None;
    } else {
      line := None;
    }
  }

  /** The machine state of vm.h, with the console as the replies the read instructions receive. */
  class VM {
    const heap: Heap
    /** vm._stack: every slot, including the stale ones above stack_top. */
    const stack: array<Value>
    var stackTop: int
    const frames: array<CallFrame>
    var frameCount: int
    /** vm.globals, keyed by the interned name string. */
    var globals: map<ObjRef, Value>
    /** The values OP_PRINT wrote, in order. */
    var output: seq<Value>
    /** The reports runtime__error wrote, in order. */
    var reports: seq<RuntimeReport>
    /** The lines read_string returns, the numbers read_number returns, the characters read_char returns. */
    var lineInput: seq<string>
    var numberInput: seq<real>
    var charInput: seq<char>

    ghost predicate Valid()
      reads this, heap
    {
      && stack.Length == StackMax && frames.Length == FramesMax
      && 0 <= stackTop <= StackMax && 0 <= frameCount <= FramesMax
      && heap.Valid()
    }

    /** The live stack, bottom first. */
    ghost function Stack(): seq<Value>
      reads this, stack
      requires 0 <= stackTop <= stack.Length
    {
      stack[..stackTop]
    }

    /** The active frame. */
    ghost function Frame(): CallFrame
      reads this, frames
      requires 1 <= frameCount <= frames.Length
    {
      frames[frameCount - 1]
    }

    /** The code of the active frame's function. */
    ghost function Code(): seq<byte>
      reads this, frames, frames[frameCount - 1].fn.chunk
      requires 1 <= frameCount <= frames.Length
    {
      Frame().fn.chunk.code
    }

    /** The frames after the active frame's ip moves by `n`. */
    ghost function Moved(n: int): seq<CallFrame>
      reads this, frames
      requires 1 <= frameCount <= frames.Length
    {
      frames[..][frameCount - 1 := Frame().(ip := Frame().ip + n)]
    }

    /** The report runtime__error writes now, for this message. */
    ghost function Report(message: string): RuntimeReport
      reads this, frames
      reads set fr | fr in frames[..frameCount] :: fr.fn
      reads set fr | fr in frames[..frameCount] :: fr.fn.chunk
      requires 0 <= frameCount <= frames.Length
    {
      RuntimeReport(message, Trace(frames[..frameCount]))
    }

    /** A value that names an object the heap does not hold. */
    predicate Dangling(v: Value)
      reads this, heap
    {
      IsDangling(v, heap.objects)
    }

    /** IS_STRING || IS_CHAR: the operands OP_ADD concatenates. */
    predicate Text(v: Value)
      reads this, heap
    {
      IsText(v, heap.objects)
    }

    /** The characters of such an operand: a character's one, or the string's. */
    ghost function Chars(v: Value): string
      reads this, heap
      requires Text(v)
    {
      TextChars(v, heap.objects)
    }

    /** initVM: an empty stack and no frames. The stack array starts zeroed, which reads as false. */
    constructor (heap: Heap, lineInput: seq<string>, numberInput: seq<real>, charInput: seq<char>)
      requires heap.Valid()
      ensures Valid() && this.heap == heap && fresh(stack) && fresh(frames)
      ensures stackTop == 0 && frameCount == 0 && globals == map[] && output == [] && reports == []
      ensures this.lineInput == lineInput && this.numberInput == numberInput && this.charInput == charInput
    {
      this.heap := heap;
      var placeholder := new Function();
      stack := new Value[StackMax](_ => BoolVal(false));
      frames := new CallFrame[FramesMax](_ => CallFrame(placeholder, 0, 0));
      stackTop, frameCount := 0, 0;
      globals, output, reports := map[], [], [];
      this.lineInput, this.numberInput, this.charInput := lineInput, numberInput, charInput;
    }

    // -------------------------------------------------------------------------
    // The stack
    // -------------------------------------------------------------------------

    /** push: store at stack_top and move it up. */
    method Push(v: Value)
      requires Valid() && stackTop < StackMax
      modifies this`stackTop, stack
      ensures Valid() && stackTop == old(stackTop) + 1
      ensures stack[..] == old(stack[..])[old(stackTop) := v]
      ensures Stack() == old(Stack()) + [v]
    {
      stack[stackTop] := v;
      stackTop := stackTop + 1;
    }

    /** pop: move stack_top down and return the value it passed; the slot keeps it. */
    method Pop() returns (v: Value)
      requires Valid() && stackTop > 0
      modifies this`stackTop
      ensures Valid() && stackTop == old(stackTop) - 1
      ensures v == old(Stack())[stackTop] && Stack() == old(Stack())[..stackTop]
    {
      stackTop := stackTop - 1;
      v := stack[stackTop];
    }

    /** peek: the value `distance` places below the top, without moving it. */
    function Peek(distance: int): (v: Value)
      reads this, stack
      requires 0 <= distance < stackTop <= stack.Length
      ensures v == Stack()[stackTop - 1 - distance]
    {
      stack[stackTop - 1 - distance]
    }

    /** A push and then a pop give back the value pushed and the stack as it was. */
    method PushThenPop(v: Value) returns (w: Value)
      requires Valid() && stackTop < StackMax
      modifies this`stackTop, stack
      ensures Valid() && w == v && stackTop == old(stackTop) && Stack() == old(Stack())
    {
      Push(v);
      w := Pop();
    }

    /** reset_stack: the stack and the frame array are emptied. */
    method ResetStack()
      modifies this`stackTop, this`frameCount
      ensures stackTop == 0 && frameCount == 0
    {
      stackTop := 0;
      frameCount := 0;
    }

    /**
     * runtime__error: the report, with one trace line per frame from the
     * newest down, then the stack reset.
     */
    method RuntimeError(message: string)
      requires Valid()
      modifies this`reports, this`stackTop, this`frameCount
      ensures Valid() && stackTop == 0 && frameCount == 0
      ensures reports == old(reports) + [old(Report(message))]
    {
      ghost var report := Report(message);
      var trace: seq<TraceLine> := [];
      var i := frameCount - 1;
      while i >= 0
        modifies {}
        invariant -1 <= i < frameCount
        invariant |trace| == frameCount - 1 - i
        invariant forall k :: 0 <= k < |trace| ==> trace[k] == Entry(frames[frameCount - 1 - k])
      {
        var fr := frames[i];
        var line := LineOf(fr);
        trace := trace + [TraceLine(line, fr.fn.name)];
        i := i - 1;
      }
      assert trace == report.trace;
      reports := reports + [RuntimeReport(message, trace)];
      ResetStack();
    }

    // -------------------------------------------------------------------------
    // Operands
    // -------------------------------------------------------------------------

    /** READ_BYTE: the byte at the active frame's ip, which moves past it; None past the end of the code. */
    method ReadByte() returns (b: Option<byte>)
      requires Valid() && frameCount >= 1
      modifies frames
      ensures 0 <= old(Frame().ip) < |old(Code())| ==> b == Some(old(Code())[old(Frame().ip)]) && frames[..] == old(Moved(1))
      ensures !(0 <= old(Frame().ip) < |old(Code())|) ==> b.None?
    {
      var fr := frames[frameCount - 1];
      if !(0 <= fr.ip < |fr.fn.chunk.code|) {
        return None;
      }
      b := Some(fr.fn.chunk.code[fr.ip]);
      frames[frameCount - 1] := fr.(ip := fr.ip + 1);
    }

    /** READ_SHORT: the big-endian operand at the ip, which moves past both bytes. */
    method ReadShortOperand() returns (v: Option<nat>)
      requires Valid() && frameCount >= 1
      modifies frames
      ensures var ip, code := old(Frame().ip), old(Code());
        0 <= ip && ip + 2 <= |code| ==> v == Some(ReadShort(code[ip], code[ip + 1])) && frames[..] == old(Moved(2))
      ensures !(0 <= old(Frame().ip) && old(Frame().ip) + 2 <= |old(Code())|) ==> v.None?
    {
      var hi := ReadByte();
      if hi.None? {
        return None;
      }
      var lo := ReadByte();
      if lo.None? {
        return None;
      }
      v := Some(ReadShort(hi.value, lo.value));
    }

    /** READ_CONSTANT: the constant whose index is the next byte; None past the code or the pool. */
    method ReadConstant() returns (c: Option<Value>)
      requires Valid() && frameCount >= 1
      modifies frames
      ensures var ip, code, pool := old(Frame().ip), old(Code()), old(Frame().fn.chunk.constants.values);
        && (0 <= ip < |code| && (code[ip] as int) < |pool| ==> c == Some(pool[code[ip]]) && frames[..] == old(Moved(1)))
        && (!(0 <= ip < |code| && (code[ip] as int) < |pool|) ==> c.None?)
    {
      var index := ReadByte();
      if index.None? {
        return None;
      }
      var pool := frames[frameCount - 1].fn.chunk.constants.values;
      if (index.value as int) < |pool| {
        return Some(pool[index.value]);
      }
      return None;
    }

    /** READ_STRING: the constant used as a global's name, which must be an object. */
    method ReadName() returns (name: Option<ObjRef>)
      requires Valid() && frameCount >= 1
      modifies frames
      ensures var ip, code, pool := old(Frame().ip), old(Code()), old(Frame().fn.chunk.constants.values);
        && (0 <= ip < |code| && (code[ip] as int) < |pool| && pool[code[ip]].ObjectVal? ==>
              name == Some(pool[code[ip]].obj) && frames[..] == old(Moved(1)))
        && (!(0 <= ip < |code| && (code[ip] as int) < |pool| && pool[code[ip]].ObjectVal?) ==> name.None?)
    {
      var c := ReadConstant();
      if c.None? || !c.value.ObjectVal? {
        return None;
      }
      return Some(c.value.obj);
    }

    /** runtime__error has reported this message, with the trace of the frames as they were, and reset the stack. */
    twostate predicate Raised(message: string)
      reads this
      requires old(0 <= frameCount <= frames.Length)
    {
      reports == old(reports) + [old(Report(message))] && stackTop == 0 && frameCount == 0
    }

    /**
     * What run relies on after each instruction: the machine stays valid, a
     * running machine has a frame, a runtime error added one report and
     * emptied the stack, and only an error adds a report.
     */
    twostate predicate Outcome(status: Status)
      reads this, heap
    {
      && Valid()
      && (status == Running ==> frameCount >= 1 && reports == old(reports))
      && (status == Finished(InterpretRuntimeError) ==> stackTop == 0 && frameCount == 0 && |reports| == |old(reports)| + 1)
      && (status == Finished(InterpretOk) ==> frameCount == 0 && reports == old(reports))
      && status != Finished(InterpretCompileError)
    }

    /** The state an instruction starts from, the active frame's ip apart. */
    ghost function Snap(): (s: Before)
      reads this, stack, frames, heap, Frame().fn.chunk, Frame().fn.chunk.constants
      requires Valid() && frameCount >= 1
      ensures s.Sound()
    {
      Before(stack[..], stackTop, frames[..][frameCount - 1 := Frame().(ip := 0)], frameCount,
        Code(), Frame().fn.chunk.constants.values, Frame().slots,
        globals, output, reports, lineInput, numberInput, charInput, heap.objects, heap.strings, heap.list)
    }

    /** The whole state as it is now. */
    ghost function Now(): State
      reads this, stack, frames, heap
    {
      State(stack[..], stackTop, frames[..], frameCount, globals, output, reports,
        lineInput, numberInput, charInput, heap.objects, heap.strings, heap.list)
    }

    /** The snapshot's frames, resumed at the active frame's ip, are the frames. */
    lemma ResumedHere()
      requires Valid() && frameCount >= 1
      ensures frames[..] == Snap().Resumed(Frame().ip)
    {
    }

    /**
     * The value was pushed onto the stack of `s` and the active frame's ip
     * is `ip`; nothing else changed. With the stack full, nothing is defined.
     */
    ghost predicate Pushed(s: Before, ip: int, v: Value, status: Status)
      reads this, stack, frames, heap
      requires s.Sound()
    {
      && (s.top < StackMax ==> status == Running && Now() == s.At(ip).(top := s.top + 1, stack := s.stack[s.top := v]))
      && (s.top == StackMax ==> status == Fault)
    }

    /**
     * runtime__error reported the message after the reports of `s`, and
     * reset the stack, with the active frame's ip at `ip`; nothing else
     * changed.
     */
    ghost predicate Failed(s: Before, ip: int, message: string, status: Status)
      reads this, stack, frames, heap
      requires s.Sound()
    {
      && status == Finished(InterpretRuntimeError) && Now() == s.At(ip).(top := 0, count := 0, reports := reports)
      && |reports| == |s.reports| + 1 && reports[..|s.reports|] == s.reports && reports[|s.reports|].message == message
    }

    /**
     * What instruction `op` did, starting from `s` with the ip just past
     * its opcode byte at `at`: the cases of run's switch.
     */
    ghost predicate Effect(op: OpCode, s: Before, at: int, status: Status)
      reads this, stack, frames, heap, s.Functions()
      requires Valid() && s.Sound()
    {
      if op in {OpConstant, OpGetLocal, OpSetLocal, OpGetGlobal, OpSetGlobal, OpDefineGlobal} then DataEffect(op, s, at, status)
      else if op in {OpJump, OpJumpIfTrue, OpJumpIfFalse, OpLoop, OpCall, OpOut} then ControlEffect(op, s, at, status)
      else StackEffect(op, s, at, status)
    }

    /**
     * What an instruction that reads a constant or a slot did, starting from
     * `s` with its operand byte at `at`. A missing operand, a missing
     * constant or a name constant that is no object is undefined.
     */
    ghost predicate DataEffect(op: OpCode, s: Before, at: int, status: Status)
      reads this, stack, frames, heap
      requires Valid() && s.Sound()
      requires op in {OpConstant, OpGetLocal, OpSetLocal, OpGetGlobal, OpSetGlobal, OpDefineGlobal}
    {
      match op
      case OpConstant =>
        && (s.ConstantAt(at).None? ==> status == Fault)
        && (s.ConstantAt(at).Some? ==> frames[..] == s.Resumed(at + 1) && Pushed(s, at + 1, s.ConstantAt(at).value, status))
      case OpGetLocal =>
        && (!(0 <= at < |s.code|) ==> status == Fault)
        && (0 <= at < |s.code| ==>
              var i := s.slots + s.code[at] as int;
              && frames[..] == s.Resumed(at + 1)
              && (0 <= i < StackMax ==> Pushed(s, at + 1, s.stack[i], status))
              && (!(0 <= i < StackMax) ==> status == Fault))
      case OpSetLocal =>
        && (!(0 <= at < |s.code|) ==> status == Fault)
        && (0 <= at < |s.code| ==>
              var i := s.slots + s.code[at] as int;
              && frames[..] == s.Resumed(at + 1)
              && (0 <= i < StackMax && s.top > 0 ==>
                    status == Running && Now() == s.At(at + 1).(stack := s.stack[i := s.stack[s.top - 1]]))
              && (!(0 <= i < StackMax && s.top > 0) ==> status == Fault))
      case OpGetGlobal =>
        && (s.NameAt(at).None? ==> status == Fault)
        && (s.NameAt(at).Some? ==>
              var name := s.NameAt(at).value;
              && frames[..] == s.Resumed(at + 1)
              && (name !in s.globals ==> Failed(s, at + 1, UndefinedName, status))
              && (name in s.globals ==> Pushed(s, at + 1, s.globals[name], status)))
      case OpSetGlobal =>
        && (s.NameAt(at).None? ==> status == Fault)
        && (s.NameAt(at).Some? ==>
              var name := s.NameAt(at).value;
              && frames[..] == s.Resumed(at + 1)
              && (name !in s.globals ==> Failed(s, at + 1, UndefinedName, status))
              && (name in s.globals && s.top == 0 ==> status == Fault)
              && (name in s.globals && s.top > 0 ==>
                    status == Running && Now() == s.At(at + 1).(globals := s.globals[name := s.stack[s.top - 1]])))
      case OpDefineGlobal =>
        && (s.NameAt(at).None? ==> status == Fault)
        && (s.NameAt(at).Some? ==>
              var name := s.NameAt(at).value;
              && frames[..] == s.Resumed(at + 1)
              && (s.top == 0 ==> status == Fault)
              && (s.top > 0 ==>
                    && status == Running
                    && Now() == s.At(at + 1).(top := s.top - 1,
                         globals := if name in s.globals then s.globals else s.globals[name := s.stack[s.top - 1]])))
      case _ => false
    }

    /**
     * What a jump, OP_CALL or OP_OUT did, starting from `s` with its operand
     * bytes at `at`. A jump offset is counted from the byte after it.
     */
    ghost predicate ControlEffect(op: OpCode, s: Before, at: int, status: Status)
      reads this, stack, frames, heap, s.Functions()
      requires Valid() && s.Sound()
      requires op in {OpJump, OpJumpIfTrue, OpJumpIfFalse, OpLoop, OpCall, OpOut}
    {
      match op
      case OpCall =>
        && (!(0 <= at < |s.code|) ==> status == Fault)
        && (0 <= at < |s.code| ==> Called(s, at, status))
      case OpOut =>
        && frames[..] == s.Resumed(at)
        && (s.top == 0 ==> status == Fault)
        && (s.top >= 1 && s.count == 1 ==>
              && (s.top == 1 ==> status == Fault)
              && (s.top >= 2 ==> status == Finished(InterpretOk) && Now() == s.At(at).(count := 0, top := s.top - 2)))
        && (s.top >= 1 && s.count > 1 ==>
              && (0 <= s.slots < StackMax ==>
                    && status == Running
                    && Now() == s.At(at).(count := s.count - 1, top := s.slots + 1, stack := s.stack[s.slots := s.stack[s.top - 1]]))
              && (!(0 <= s.slots < StackMax) ==> status == Fault))
      case OpJump =>
        && (s.ShortAt(at).None? ==> status == Fault)
        && (s.ShortAt(at).Some? ==> status == Running && Now() == s.At(at + 2 + s.ShortAt(at).value))
      case OpLoop =>
        && (s.ShortAt(at).None? ==> status == Fault)
        && (s.ShortAt(at).Some? ==> status == Running && Now() == s.At(at + 2 - s.ShortAt(at).value))
      case OpJumpIfFalse => JumpedIf(s, at, true, status)
      case OpJumpIfTrue => JumpedIf(s, at, false, status)
      case _ => false
    }

    /** OP_CALL with its argument count at `at`: the callee below the arguments got a frame, or an error was reported. */
    ghost predicate Called(s: Before, at: int, status: Status)
      reads this, stack, frames, heap, s.Functions()
      requires Valid() && s.Sound() && 0 <= at < |s.code|
    {
      var argCount := s.code[at] as int;
      && (s.top <= argCount ==> status == Fault)
      && (s.top > argCount ==>
            var callee := s.stack[s.top - 1 - argCount];
            && (IsDangling(callee, s.objects) ==> status == Fault)
            && (!IsDangling(callee, s.objects) && !(callee.ObjectVal? && s.objects[callee.obj].FunctionObj?) ==>
                  Failed(s, at + 1, NotCallable, status))
            && (callee.ObjectVal? && callee.obj < |s.objects| && s.objects[callee.obj].FunctionObj? ==>
                  var f := s.objects[callee.obj].fn;
                  && (argCount != f.arity ==> Failed(s, at + 1, ArityMismatch, status))
                  && (argCount == f.arity && s.count == FramesMax ==> Failed(s, at + 1, StackOverflow, status))
                  && (argCount == f.arity && s.count < FramesMax ==>
                        && status == Running
                        && Now() == s.At(at + 1).(count := s.count + 1,
                             frames := s.Resumed(at + 1)[s.count := CallFrame(f, 0, s.top - argCount - 1)]))))
    }

    /** OP_JUMP_IF_FALSE (`whenFalsy`) or OP_JUMP_IF_TRUE with its offset at `at`: the top value, which stays, chose the target. */
    ghost predicate JumpedIf(s: Before, at: int, whenFalsy: bool, status: Status)
      reads this, stack, frames, heap
      requires s.Sound()
    {
      && (s.ShortAt(at).None? || s.top == 0 ==> status == Fault)
      && (s.ShortAt(at).Some? && s.top > 0 ==>
            && status == Running
            && Now() == s.At(at + 2 + if IsFalsy(s.stack[s.top - 1]) == whenFalsy then s.ShortAt(at).value else 0))
    }

    /**
     * What an instruction without operands did, starting from `s` with the
     * ip at `at`: the frames are untouched, and the stack, the output, the
     * console replies or the heap changed as the instruction says.
     */
    ghost predicate StackEffect(op: OpCode, s: Before, at: int, status: Status)
      reads this, stack, frames, heap
      requires Valid() && s.Sound()
    {
      && frames[..] == s.Resumed(at)
      && if op in {OpSubtract, OpMultiply, OpDivide, OpGreater, OpGreaterEqual, OpLess, OpLessEqual} then Computed(op, s, at, status)
      else match op
        case OpTrue => Pushed(s, at, BoolVal(true), status)
        case OpFalse => Pushed(s, at, BoolVal(false), status)
        case OpNull => Pushed(s, at, NullVal, status)
        case OpPop =>
          && (s.top == 0 ==> status == Fault)
          && (s.top > 0 ==> status == Running && Now() == s.At(at).(top := s.top - 1))
        case OpEqual =>
          && (s.top < 2 ==> status == Fault)
          && (s.top >= 2 ==>
                && status == Running
                && Now() == s.At(at).(top := s.top - 1,
                     stack := s.stack[s.top - 2 := BoolVal(ValuesEqual(s.stack[s.top - 2], s.stack[s.top - 1]))]))
        case OpAdd => Added(s, at, status)
        case OpNot =>
          && (s.top == 0 ==> status == Fault)
          && (s.top > 0 ==>
                status == Running && Now() == s.At(at).(stack := s.stack[s.top - 1 := BoolVal(IsFalsy(s.stack[s.top - 1]))]))
        case OpNegate =>
          && (s.top == 0 ==> status == Fault)
          && (s.top > 0 && !s.stack[s.top - 1].NumberVal? ==> Failed(s, at, NotANumber, status))
          && (s.top > 0 && s.stack[s.top - 1].NumberVal? ==>
                status == Running && Now() == s.At(at).(stack := s.stack[s.top - 1 := NumberVal(-s.stack[s.top - 1].number)]))
        case OpPrint =>
          && (s.top == 0 ==> status == Fault)
          && (s.top > 0 ==> status == Running && Now() == s.At(at).(top := s.top - 1, output := s.output + [s.stack[s.top - 1]]))
        case OpReadString =>
          && (s.lineInput == [] || s.top == StackMax ==> status == Fault)
          && (s.lineInput != [] && s.top < StackMax ==>
                && status == Running
                && Now() == s.At(at).(top := s.top + 1, stack := s.stack[s.top := stack[s.top]], lineInput := s.lineInput[1..],
                     objects := heap.objects, strings := heap.strings, list := heap.list)
                && s.objects <= heap.objects && s.strings <= heap.strings
                && stack[s.top].ObjectVal? && stack[s.top].obj in heap.strings
                && heap.objects[stack[s.top].obj] == StringObj(s.lineInput[0]))
        case OpReadNumber =>
          && (s.top == StackMax ==> status == Fault)
          && (s.top < StackMax ==>
                && status == Running
                && (s.numberInput == [] ==> Now() == s.At(at).(top := s.top + 1, stack := s.stack[s.top := NumberVal(0.0)]))
                && (s.numberInput != [] ==>
                      Now() == s.At(at).(top := s.top + 1, stack := s.stack[s.top := NumberVal(s.numberInput[0])],
                        numberInput := s.numberInput[1..])))
        case OpReadChar =>
          && (s.charInput == [] || s.top == StackMax ==> status == Fault)
          && (s.charInput != [] && s.top < StackMax ==>
                && status == Running
                && Now() == s.At(at).(top := s.top + 1, stack := s.stack[s.top := CharVal(s.charInput[0])], charInput := s.charInput[1..]))
        case _ => false
    }

    /**
     * OP_ADD from `s`: two strings or characters became their interned
     * concatenation, two numbers their sum, any other pair an error. The
     * top operand is examined first.
     */
    ghost predicate Added(s: Before, at: int, status: Status)
      reads this, stack, frames, heap
      requires Valid() && s.Sound()
    {
      var n := s.top;
      && (n == 0 ==> status == Fault)
      && (n >= 1 ==>
            var b := s.stack[n - 1];
            && (IsDangling(b, s.objects) ==> status == Fault)
            && (IsText(b, s.objects) ==>
                  && (n == 1 ==> status == Fault)
                  && (n >= 2 ==>
                        var a := s.stack[n - 2];
                        && (IsDangling(a, s.objects) ==> status == Fault)
                        && (IsText(a, s.objects) ==>
                              && status == Running
                              && Now() == s.At(at).(top := n - 1, stack := s.stack[n - 2 := stack[n - 2]],
                                   objects := heap.objects, strings := heap.strings, list := heap.list)
                              && s.objects <= heap.objects && s.strings <= heap.strings
                              && stack[n - 2].ObjectVal? && stack[n - 2].obj in heap.strings
                              && heap.objects[stack[n - 2].obj] == StringObj(TextChars(a, s.objects) + TextChars(b, s.objects)))
                        && (!IsDangling(a, s.objects) && !IsText(a, s.objects) ==> Failed(s, at, MixedOperands, status))))
            && (!IsDangling(b, s.objects) && !IsText(b, s.objects) ==>
                  && (!b.NumberVal? ==> Failed(s, at, MixedOperands, status))
                  && (b.NumberVal? && n == 1 ==> status == Fault)
                  && (b.NumberVal? && n >= 2 && !s.stack[n - 2].NumberVal? ==> Failed(s, at, MixedOperands, status))
                  && (b.NumberVal? && n >= 2 && s.stack[n - 2].NumberVal? ==>
                        && status == Running
                        && Now() == s.At(at).(top := n - 1, stack := s.stack[n - 2 := NumberVal(s.stack[n - 2].number + b.number)]))))
    }

    /** BINARY_OP from `s`: two numbers became the operator's result. The top operand is examined first. */
    ghost predicate Computed(op: OpCode, s: Before, at: int, status: Status)
      reads this, stack, frames, heap
      requires s.Sound()
    {
      var n := s.top;
      && (n == 0 ==> status == Fault)
      && (n >= 1 && !s.stack[n - 1].NumberVal? ==> Failed(s, at, NotNumbers, status))
      && (n == 1 && s.stack[0].NumberVal? ==> status == Fault)
      && (n >= 2 && s.stack[n - 1].NumberVal? ==>
            var a, b := s.stack[n - 2], s.stack[n - 1];
            && (!a.NumberVal? ==> Failed(s, at, NotNumbers, status))
            && (a.NumberVal? && NumberOp(op, a.number, b.number).None? ==> status == Fault)
            && (a.NumberVal? && NumberOp(op, a.number, b.number).Some? ==>
                  status == Running && Now() == s.At(at).(top := n - 1, stack := s.stack[n - 2 := NumberOp(op, a.number, b.number).value])))
    }

    // -------------------------------------------------------------------------
    // Instructions without operands
    // -------------------------------------------------------------------------

    /** OP_TRUE, OP_FALSE, OP_NULL, and OP_CONSTANT once its constant is read: push the value. */
    method PushValue(v: Value) returns (status: Status)
      requires Valid()
      modifies this`stackTop, stack
      ensures Valid()
      ensures old(stackTop) == StackMax ==> status == Fault
      ensures old(stackTop) < StackMax ==>
        && status == Running && stackTop == old(stackTop) + 1
        && stack[..] == old(stack[..])[old(stackTop) := v] && Stack() == old(Stack()) + [v]
    {
      if stackTop == StackMax {
        return Fault;
      }
      Push(v);
      return Running;
    }

    /** OP_POP: drop the top value. */
    method PopValue() returns (status: Status)
      requires Valid()
      modifies this`stackTop
      ensures Valid()
      ensures old(stackTop) == 0 ==> status == Fault
      ensures old(stackTop) > 0 ==> status == Running && stackTop == old(stackTop) - 1 && Stack() == old(Stack())[..stackTop]
    {
      if stackTop == 0 {
        return Fault;
      }
      var v := Pop();
      return Running;
    }

    /** OP_EQUAL: the two top values are replaced by whether values_equal holds of them. */
    method Equal() returns (status: Status)
      requires Valid()
      modifies this`stackTop, stack
      ensures Valid()
      ensures old(stackTop) < 2 ==> status == Fault
      ensures old(stackTop) >= 2 ==>
        var n := old(stackTop);
        && status == Running && stackTop == n - 1
        && stack[..] == old(stack[..])[n - 2 := BoolVal(ValuesEqual(old(stack[n - 2]), old(stack[n - 1])))]
    {
      if stackTop < 2 {
        return Fault;
      }
      var b := Pop();
      var a := Pop();
      Push(BoolVal(ValuesEqual(a, b)));
      return Running;
    }

    /**
     * BINARY_OP: two numbers are replaced by the operator's result. The top
     * value is examined first: when it is not a number the second is never
     * read.
     */
    method Binary(op: OpCode) returns (status: Status)
      requires Valid() && op in {OpSubtract, OpMultiply, OpDivide, OpGreater, OpGreaterEqual, OpLess, OpLessEqual}
      modifies this`stackTop, this`frameCount, this`reports, stack
      ensures Valid()
      ensures old(stackTop) == 0 ==> status == Fault
      ensures old(stackTop) >= 1 && !old(stack[stackTop - 1]).NumberVal? ==>
        status == Finished(InterpretRuntimeError) && Raised(NotNumbers) && stack[..] == old(stack[..])
      ensures old(stackTop) == 1 && old(stack[0]).NumberVal? ==> status == Fault
      ensures old(stackTop) >= 2 && old(stack[stackTop - 1]).NumberVal? ==>
        var n := old(stackTop);
        var a, b := old(stack[n - 2]), old(stack[n - 1]);
        && (!a.NumberVal? ==> status == Finished(InterpretRuntimeError) && Raised(NotNumbers) && stack[..] == old(stack[..]))
        && (a.NumberVal? && NumberOp(op, a.number, b.number).None? ==> status == Fault)
        && (a.NumberVal? && NumberOp(op, a.number, b.number).Some? ==>
              && status == Running && stackTop == n - 1 && frameCount == old(frameCount) && reports == old(reports)
              && stack[..] == old(stack[..])[n - 2 := NumberOp(op, a.number, b.number).value])
    {
      if stackTop == 0 {
        return Fault;
      }
      var b := Peek(0);
      if !b.NumberVal? {
        ghost var report := Report(NotNumbers);
        RuntimeError(NotNumbers);
        assert old(Report(NotNumbers)) == report;
        return Finished(InterpretRuntimeError);
      }
      if stackTop == 1 {
        return Fault;
      }
      var a := Peek(1);
      if !a.NumberVal? {
        ghost var report := Report(NotNumbers);
        RuntimeError(NotNumbers);
        assert old(Report(NotNumbers)) == report;
        return Finished(InterpretRuntimeError);
      }
      status := NumberBinary(op);
    }

    /** The arithmetic half of BINARY_OP, once both operands are known to be numbers. */
    method NumberBinary(op: OpCode) returns (status: Status)
      requires Valid() && stackTop >= 2 && stack[stackTop - 1].NumberVal? && stack[stackTop - 2].NumberVal?
      modifies this`stackTop, stack
      ensures Valid()
      ensures var n := old(stackTop);
        var r := NumberOp(op, old(stack[n - 2]).number, old(stack[n - 1]).number);
        && (r.None? ==> status == Fault)
        && (r.Some? ==> status == Running && stackTop == n - 1 && stack[..] == old(stack[..])[n - 2 := r.value])
    {
      var b := Pop();
      var a := Pop();
      var r := NumberOp(op, a.number, b.number);
      if r.None? {
        return Fault;
      }
      Push(r.value);
      return Running;
    }

    /**
     * OP_ADD: two operands that are each a string or a character are
     * concatenated, two numbers are added, anything else is a runtime error.
     * The top operand is inspected first, and the second is read only when
     * the first leaves the outcome open.
     */
    method Add() returns (status: Status)
      requires Valid()
      modifies this`stackTop, this`frameCount, this`reports, stack, heap
      ensures Valid() && old(heap.objects) <= heap.objects && old(heap.strings) <= heap.strings
      ensures old(stackTop) == 0 ==> status == Fault
      ensures old(stackTop) >= 1 && old(Dangling(stack[stackTop - 1])) ==> status == Fault
      ensures old(stackTop) >= 1 && old(Text(stack[stackTop - 1])) ==>
        var n := old(stackTop);
        && (n == 1 ==> status == Fault)
        && (n >= 2 && old(Dangling(stack[n - 2])) ==> status == Fault)
        && (n >= 2 && old(Text(stack[n - 2])) ==>
              && status == Running && stackTop == n - 1 && reports == old(reports) && frameCount == old(frameCount)
              && stack[..n - 2] == old(stack[..n - 2]) && stack[n - 1..] == old(stack[n - 1..])
              && stack[n - 2].ObjectVal? && stack[n - 2].obj in heap.strings
              && heap.objects[stack[n - 2].obj] == StringObj(old(Chars(stack[n - 2])) + old(Chars(stack[n - 1]))))
        && (n >= 2 && !old(Dangling(stack[n - 2])) && !old(Text(stack[n - 2])) ==>
              status == Finished(InterpretRuntimeError) && Raised(MixedOperands) && stack[..] == old(stack[..]) && unchanged(heap))
      ensures old(stackTop) >= 1 && !old(Dangling(stack[stackTop - 1])) && !old(Text(stack[stackTop - 1])) ==>
        var n := old(stackTop);
        var b := old(stack[n - 1]);
        && unchanged(heap)
        && (!b.NumberVal? ==> status == Finished(InterpretRuntimeError) && Raised(MixedOperands) && stack[..] == old(stack[..]))
        && (b.NumberVal? && n == 1 ==> status == Fault)
        && (b.NumberVal? && n >= 2 && !old(stack[n - 2]).NumberVal? ==>
              status == Finished(InterpretRuntimeError) && Raised(MixedOperands) && stack[..] == old(stack[..]))
        && (b.NumberVal? && n >= 2 && old(stack[n - 2]).NumberVal? ==>
              var a := old(stack[n - 2]);
              && status == Running && stackTop == n - 1 && reports == old(reports) && frameCount == old(frameCount)
              && heap.objects == old(heap.objects)
              && stack[..] == old(stack[..])[n - 2 := NumberVal(a.number + b.number)])
    {
      if stackTop == 0 {
        return Fault;
      }
      ghost var report := Report(MixedOperands);
      var b := Peek(0);
      if Dangling(b) {
        return Fault;
      }
      if Text(b) {
        status := AddText();
      } else {
        status := AddNumbers();
      }
      assert status == Finished(InterpretRuntimeError) ==> old(Report(MixedOperands)) == report;
    }

    /** OP_ADD when the top operand is a string or a character. */
    method AddText() returns (status: Status)
      requires Valid() && stackTop >= 1 && Text(stack[stackTop - 1])
      modifies this`stackTop, this`frameCount, this`reports, stack, heap
      ensures Valid() && old(heap.objects) <= heap.objects && old(heap.strings) <= heap.strings
      ensures var n := old(stackTop);
        && (n == 1 ==> status == Fault)
        && (n >= 2 && old(Dangling(stack[n - 2])) ==> status == Fault)
        && (n >= 2 && old(Text(stack[n - 2])) ==>
              && status == Running && stackTop == n - 1 && reports == old(reports) && frameCount == old(frameCount)
              && stack[..n - 2] == old(stack[..n - 2]) && stack[n - 1..] == old(stack[n - 1..])
              && stack[n - 2].ObjectVal? && stack[n - 2].obj in heap.strings
              && heap.objects[stack[n - 2].obj] == StringObj(old(Chars(stack[n - 2])) + old(Chars(stack[n - 1]))))
        && (n >= 2 && !old(Dangling(stack[n - 2])) && !old(Text(stack[n - 2])) ==>
              status == Finished(InterpretRuntimeError) && Raised(MixedOperands) && stack[..] == old(stack[..]) && unchanged(heap))
    {
      if stackTop == 1 {
        return Fault;
      }
      var a := Peek(1);
      if Dangling(a) {
        return Fault;
      }
      if Text(a) {
        Concatenate();
        return Running;
      }
      ghost var report := Report(MixedOperands);
      RuntimeError(MixedOperands);
      assert old(Report(MixedOperands)) == report;
      return Finished(InterpretRuntimeError);
    }

    /** OP_ADD when the top operand is neither a string nor a character: only two numbers add. */
    method AddNumbers() returns (status: Status)
      requires Valid() && stackTop >= 1
      modifies this`stackTop, this`frameCount, this`reports, stack
      ensures Valid()
      ensures var n := old(stackTop);
        var b := old(stack[n - 1]);
        && (!b.NumberVal? ==> status == Finished(InterpretRuntimeError) && Raised(MixedOperands) && stack[..] == old(stack[..]))
        && (b.NumberVal? && n == 1 ==> status == Fault)
        && (b.NumberVal? && n >= 2 && !old(stack[n - 2]).NumberVal? ==>
              status == Finished(InterpretRuntimeError) && Raised(MixedOperands) && stack[..] == old(stack[..]))
        && (b.NumberVal? && n >= 2 && old(stack[n - 2]).NumberVal? ==>
              var a := old(stack[n - 2]);
              && status == Running && stackTop == n - 1 && reports == old(reports) && frameCount == old(frameCount)
              && stack[..] == old(stack[..])[n - 2 := NumberVal(a.number + b.number)])
    {
      ghost var report := Report(MixedOperands);
      var b := Peek(0);
      if !b.NumberVal? {
        RuntimeError(MixedOperands);
        assert old(Report(MixedOperands)) == report;
        return Finished(InterpretRuntimeError);
      }
      if stackTop == 1 {
        return Fault;
      }
      var a := Peek(1);
      if !a.NumberVal? {
        RuntimeError(MixedOperands);
        assert old(Report(MixedOperands)) == report;
        return Finished(InterpretRuntimeError);
      }
      b := Pop();
      a := Pop();
      Push(NumberVal(a.number + b.number));
      return Running;
    }

    /** OP_NOT: the top value is replaced by whether it is falsy. */
    method Not() returns (status: Status)
      requires Valid()
      modifies this`stackTop, stack
      ensures Valid()
      ensures old(stackTop) == 0 ==> status == Fault
      ensures old(stackTop) > 0 ==>
        status == Running && stackTop == old(stackTop)
        && stack[..] == old(stack[..])[stackTop - 1 := BoolVal(IsFalsy(old(stack[stackTop - 1])))]
    {
      if stackTop == 0 {
        return Fault;
      }
      var v := Pop();
      Push(BoolVal(IsFalsy(v)));
      return Running;
    }

    /** OP_NEGATE: a number on top is negated; anything else is a runtime error. */
    method Negate() returns (status: Status)
      requires Valid()
      modifies this`stackTop, this`frameCount, this`reports, stack
      ensures Valid()
      ensures old(stackTop) == 0 ==> status == Fault
      ensures old(stackTop) > 0 && !old(stack[stackTop - 1]).NumberVal? ==>
        status == Finished(InterpretRuntimeError) && Raised(NotANumber) && stack[..] == old(stack[..])
      ensures old(stackTop) > 0 && old(stack[stackTop - 1]).NumberVal? ==>
        && status == Running && stackTop == old(stackTop) && reports == old(reports) && frameCount == old(frameCount)
        && stack[..] == old(stack[..])[stackTop - 1 := NumberVal(-old(stack[stackTop - 1]).number)]
    {
      if stackTop == 0 {
        return Fault;
      }
      var v := Peek(0);
      if !v.NumberVal? {
        ghost var report := Report(NotANumber);
        RuntimeError(NotANumber);
        assert old(Report(NotANumber)) == report;
        return Finished(InterpretRuntimeError);
      }
      v := Pop();
      Push(NumberVal(-v.number));
      return Running;
    }

    /** OP_PRINT: the top value is popped and written out. */
    method Print() returns (status: Status)
      requires Valid()
      modifies this`stackTop, this`output
      ensures Valid()
      ensures old(stackTop) == 0 ==> status == Fault
      ensures old(stackTop) > 0 ==>
        && status == Running && stackTop == old(stackTop) - 1
        && output == old(output) + [old(stack[stackTop - 1])]
    {
      if stackTop == 0 {
        return Fault;
      }
      var v := Pop();
      output := output + [v];
      return Running;
    }

    /** char_to_string: a character becomes a new one-character string object, which is not interned; a string is itself. */
    method CharToString(v: Value) returns (r: ObjRef)
      requires Valid() && Text(v)
      modifies heap
      ensures Valid() && old(heap.objects) <= heap.objects && heap.strings == old(heap.strings)
      ensures r < |heap.objects| && heap.objects[r] == StringObj(old(Chars(v)))
      ensures v.CharVal? ==> r == |old(heap.objects)| && heap.list == [r] + old(heap.list)
      ensures !v.CharVal? ==> r == v.obj && heap.objects == old(heap.objects)
    {
      if v.CharVal? {
        r := heap.AllocateObject(StringObj([v.character]));
      } else {
        r := v.obj;
      }
    }

    /**
     * concatenate: the two top operands, each a string or a character, are
     * replaced by the interned string of their characters, the lower one's
     * first.
     */
    method Concatenate()
      requires Valid() && stackTop >= 2 && Text(stack[stackTop - 1]) && Text(stack[stackTop - 2])
      modifies this`stackTop, stack, heap
      ensures Valid() && stackTop == old(stackTop) - 1 && old(heap.objects) <= heap.objects && old(heap.strings) <= heap.strings
      ensures var n := old(stackTop); stack[..n - 2] == old(stack[..n - 2]) && stack[n - 1..] == old(stack[n - 1..])
      ensures var r := stack[stackTop - 1];
        && r.ObjectVal? && r.obj in heap.strings
        && heap.objects[r.obj] == StringObj(old(Chars(stack[stackTop - 2])) + old(Chars(stack[stackTop - 1])))
    {
      var b := Pop();
      var sb := CharToString(b);
      var a := Pop();
      var sa := CharToString(a);
      var r := heap.TakeString(heap.objects[sa].chars + heap.objects[sb].chars);
      Push(ObjectVal(r));
    }

    /** OP_READ_STRING: read_string's line, interned, is pushed. At the end of input read_string writes before its buffer. */
    method ReadString() returns (status: Status)
      requires Valid()
      modifies this`lineInput, this`stackTop, stack, heap
      ensures Valid() && old(heap.objects) <= heap.objects && old(heap.strings) <= heap.strings
      ensures old(lineInput) == [] || old(stackTop) == StackMax ==> status == Fault
      ensures old(lineInput) != [] && old(stackTop) < StackMax ==>
        var n := old(stackTop);
        && status == Running && lineInput == old(lineInput)[1..] && stackTop == n + 1
        && stack[..] == old(stack[..])[n := stack[n]]
        && stack[n].ObjectVal? && stack[n].obj in heap.strings
        && heap.objects[stack[n].obj] == StringObj(old(lineInput)[0])
    {
      if lineInput == [] || stackTop == StackMax {
        return Fault;
      }
      var line := lineInput[0];
      lineInput := lineInput[1..];
      var r := heap.TakeString(line);
      Push(ObjectVal(r));
      return Running;
    }

    /** OP_READ_NUMBER: read_number's number is pushed; at the end of input strtod sees no digits and gives 0. */
    method ReadNumber() returns (status: Status)
      requires Valid()
      modifies this`numberInput, this`stackTop, stack
      ensures Valid()
      ensures old(stackTop) == StackMax ==> status == Fault
      ensures old(stackTop) < StackMax ==>
        && status == Running && stackTop == old(stackTop) + 1
        && (old(numberInput) == [] ==> numberInput == [] && stack[..] == old(stack[..])[old(stackTop) := NumberVal(0.0)])
        && (old(numberInput) != [] ==>
              numberInput == old(numberInput)[1..] && stack[..] == old(stack[..])[old(stackTop) := NumberVal(old(numberInput)[0])])
    {
      if stackTop == StackMax {
        return Fault;
      }
      var x := 0.0;
      if numberInput != [] {
        x := numberInput[0];
        numberInput := numberInput[1..];
      }
      Push(NumberVal(x));
      return Running;
    }

    /** OP_READ_CHAR: read_char's character is pushed. At the end of input the character is never set. */
    method ReadChar() returns (status: Status)
      requires Valid()
      modifies this`charInput, this`stackTop, stack
      ensures Valid()
      ensures old(charInput) == [] || old(stackTop) == StackMax ==> status == Fault
      ensures old(charInput) != [] && old(stackTop) < StackMax ==>
        && status == Running && stackTop == old(stackTop) + 1 && charInput == old(charInput)[1..]
        && stack[..] == old(stack[..])[old(stackTop) := CharVal(old(charInput)[0])]
    {
      if charInput == [] || stackTop == StackMax {
        return Fault;
      }
      var c := charInput[0];
      charInput := charInput[1..];
      Push(CharVal(c));
      return Running;
    }

    // -------------------------------------------------------------------------
    // Instructions with operands, once the operand is read
    // -------------------------------------------------------------------------

    /** OP_GET_LOCAL: the slot's value, counted from the frame's slot 0, is pushed. */
    method GetLocal(slot: byte) returns (status: Status)
      requires Valid() && frameCount >= 1
      modifies this`stackTop, stack
      ensures Valid()
      ensures var i := old(Frame().slots) + slot as int;
        && (0 <= i < StackMax && old(stackTop) < StackMax ==>
              status == Running && stackTop == old(stackTop) + 1 && stack[..] == old(stack[..])[old(stackTop) := old(stack[i])])
        && (!(0 <= i < StackMax && old(stackTop) < StackMax) ==> status == Fault)
    {
      var i := frames[frameCount - 1].slots + slot as int;
      if !(0 <= i < StackMax) || stackTop == StackMax {
        return Fault;
      }
      var v := stack[i];
      Push(v);
      return Running;
    }

    /** OP_SET_LOCAL: the top value is copied into the slot and stays on the stack. */
    method SetLocal(slot: byte) returns (status: Status)
      requires Valid() && frameCount >= 1
      modifies stack
      ensures Valid()
      ensures var i := old(Frame().slots) + slot as int;
        && (0 <= i < StackMax && stackTop > 0 ==>
              status == Running && stack[..] == old(stack[..])[i := old(stack[stackTop - 1])])
        && (!(0 <= i < StackMax && stackTop > 0) ==> status == Fault)
    {
      var i := frames[frameCount - 1].slots + slot as int;
      if !(0 <= i < StackMax) || stackTop == 0 {
        return Fault;
      }
      stack[i] := Peek(0);
      return Running;
    }

    /** OP_GET_GLOBAL: the global's value is pushed; an undefined name is a runtime error. */
    method GetGlobal(name: ObjRef) returns (status: Status)
      requires Valid()
      modifies this`stackTop, this`frameCount, this`reports, stack
      ensures Valid()
      ensures name !in old(globals) ==> status == Finished(InterpretRuntimeError) && Raised(UndefinedName) && stack[..] == old(stack[..])
      ensures name in old(globals) && old(stackTop) == StackMax ==> status == Fault
      ensures name in old(globals) && old(stackTop) < StackMax ==>
        && status == Running && reports == old(reports) && frameCount == old(frameCount)
        && stackTop == old(stackTop) + 1 && stack[..] == old(stack[..])[old(stackTop) := globals[name]]
    {
      if name !in globals {
        ghost var report := Report(UndefinedName);
        RuntimeError(UndefinedName);
        assert old(Report(UndefinedName)) == report;
        return Finished(InterpretRuntimeError);
      }
      if stackTop == StackMax {
        return Fault;
      }
      Push(globals[name]);
      return Running;
    }

    /** OP_SET_GLOBAL: an existing global takes the top value, which stays on the stack; an undefined name is a runtime error. */
    method SetGlobal(name: ObjRef) returns (status: Status)
      requires Valid()
      modifies this`globals, this`stackTop, this`frameCount, this`reports
      ensures Valid()
      ensures name !in old(globals) ==> status == Finished(InterpretRuntimeError) && Raised(UndefinedName) && globals == old(globals)
      ensures name in old(globals) && old(stackTop) == 0 ==> status == Fault
      ensures name in old(globals) && old(stackTop) > 0 ==>
        && status == Running && reports == old(reports) && frameCount == old(frameCount) && stackTop == old(stackTop)
        && globals == old(globals)[name := stack[stackTop - 1]]
    {
      if name !in globals {
        ghost var report := Report(UndefinedName);
        RuntimeError(UndefinedName);
        assert old(Report(UndefinedName)) == report;
        return Finished(InterpretRuntimeError);
      }
      if stackTop == 0 {
        return Fault;
      }
      globals := globals[name := Peek(0)];
      return Running;
    }

    /** OP_DEFINE_GLOBAL: the top value is popped into a new global; an existing global keeps its value. */
    method DefineGlobal(name: ObjRef) returns (status: Status)
      requires Valid()
      modifies this`globals, this`stackTop
      ensures Valid()
      ensures old(stackTop) == 0 ==> status == Fault
      ensures old(stackTop) > 0 ==>
        && status == Running && stackTop == old(stackTop) - 1 && Stack() == old(Stack())[..stackTop]
        && globals == if name in old(globals) then old(globals) else old(globals)[name := old(stack[stackTop - 1])]
    {
      if stackTop == 0 {
        return Fault;
      }
      if name !in globals {
        globals := globals[name := Peek(0)];
      }
      var v := Pop();
      return Running;
    }

    /** OP_JUMP: the ip moves forward by the offset. */
    method Jump(offset: nat)
      requires Valid() && frameCount >= 1
      modifies frames
      ensures frames[..] == old(Moved(offset))
    {
      var fr := frames[frameCount - 1];
      frames[frameCount - 1] := fr.(ip := fr.ip + offset);
    }

    /** OP_JUMP_IF_FALSE (jump when falsy) and OP_JUMP_IF_TRUE (jump when not): the condition value stays on the stack. */
    method JumpIf(offset: nat, whenFalsy: bool) returns (status: Status)
      requires Valid() && frameCount >= 1
      modifies frames
      ensures stackTop == 0 ==> status == Fault
      ensures stackTop > 0 ==>
        && status == Running
        && (IsFalsy(stack[stackTop - 1]) == whenFalsy ==> frames[..] == old(Moved(offset)))
        && (IsFalsy(stack[stackTop - 1]) != whenFalsy ==> frames[..] == old(frames[..]))
    {
      if stackTop == 0 {
        return Fault;
      }
      if IsFalsy(Peek(0)) == whenFalsy {
        Jump(offset);
      }
      return Running;
    }

    /** OP_LOOP: the ip moves back by the offset. */
    method Loop(offset: nat)
      requires Valid() && frameCount >= 1
      modifies frames
      ensures frames[..] == old(Moved(-(offset as int)))
    {
      var fr := frames[frameCount - 1];
      frames[frameCount - 1] := fr.(ip := fr.ip - offset);
    }

    /**
     * call: a function whose arity is the argument count gets a new frame at
     * the start of its code, whose slot 0 is the callee below the arguments.
     */
    method CallFunction(f: Function, argCount: int) returns (status: Status)
      requires Valid()
      modifies this`frameCount, this`stackTop, this`reports, frames
      ensures Valid()
      ensures argCount != f.arity ==> status == Finished(InterpretRuntimeError) && Raised(ArityMismatch) && frames[..] == old(frames[..])
      ensures argCount == f.arity && old(frameCount) == FramesMax ==>
        status == Finished(InterpretRuntimeError) && Raised(StackOverflow) && frames[..] == old(frames[..])
      ensures argCount == f.arity && old(frameCount) < FramesMax ==>
        && status == Running && frameCount == old(frameCount) + 1 && stackTop == old(stackTop) && reports == old(reports)
        && frames[..] == old(frames[..])[old(frameCount) := CallFrame(f, 0, stackTop - argCount - 1)]
    {
      ghost var reportArity, reportOverflow := Report(ArityMismatch), Report(StackOverflow);
      if argCount != f.arity {
        RuntimeError(ArityMismatch);
        assert old(Report(ArityMismatch)) == reportArity;
        return Finished(InterpretRuntimeError);
      }
      if frameCount == FramesMax {
        RuntimeError(StackOverflow);
        assert old(Report(StackOverflow)) == reportOverflow;
        return Finished(InterpretRuntimeError);
      }
      frames[frameCount] := CallFrame(f, 0, stackTop - argCount - 1);
      frameCount := frameCount + 1;
      return Running;
    }

    /** call_value: only a function object can be called. */
    method CallValue(callee: Value, argCount: int) returns (status: Status)
      requires Valid() && !Dangling(callee)
      modifies this`frameCount, this`stackTop, this`reports, frames
      ensures Valid()
      ensures !(callee.ObjectVal? && heap.objects[callee.obj].FunctionObj?) ==>
        status == Finished(InterpretRuntimeError) && Raised(NotCallable) && frames[..] == old(frames[..])
      ensures callee.ObjectVal? && heap.objects[callee.obj].FunctionObj? ==>
        var f := heap.objects[callee.obj].fn;
        && (argCount != f.arity ==> status == Finished(InterpretRuntimeError) && Raised(ArityMismatch) && frames[..] == old(frames[..]))
        && (argCount == f.arity && old(frameCount) == FramesMax ==>
              status == Finished(InterpretRuntimeError) && Raised(StackOverflow) && frames[..] == old(frames[..]))
        && (argCount == f.arity && old(frameCount) < FramesMax ==>
              && status == Running && frameCount == old(frameCount) + 1 && stackTop == old(stackTop) && reports == old(reports)
              && frames[..] == old(frames[..])[old(frameCount) := CallFrame(f, 0, stackTop - argCount - 1)])
    {
      if callee.ObjectVal? && heap.objects[callee.obj].FunctionObj? {
        status := CallFunction(heap.objects[callee.obj].fn, argCount);
      } else {
        ghost var report := Report(NotCallable);
        RuntimeError(NotCallable);
        assert old(Report(NotCallable)) == report;
        status := Finished(InterpretRuntimeError);
      }
    }

    /** OP_CALL: the callee sits below the arguments. */
    method Call(argCount: byte) returns (status: Status)
      requires Valid()
      modifies this`frameCount, this`stackTop, this`reports, frames
      ensures Valid()
      ensures old(stackTop) <= argCount as int || old(Dangling(stack[stackTop - 1 - argCount as int])) ==> status == Fault
      ensures old(stackTop) > argCount as int && !old(Dangling(stack[stackTop - 1 - argCount as int])) ==>
        var callee := old(stack[stackTop - 1 - argCount as int]);
        && (!(callee.ObjectVal? && heap.objects[callee.obj].FunctionObj?) ==>
              status == Finished(InterpretRuntimeError) && Raised(NotCallable) && frames[..] == old(frames[..]))
        && (callee.ObjectVal? && heap.objects[callee.obj].FunctionObj? ==>
              var f := heap.objects[callee.obj].fn;
              && (argCount as int != f.arity ==> status == Finished(InterpretRuntimeError) && Raised(ArityMismatch) && frames[..] == old(frames[..]))
              && (argCount as int == f.arity && old(frameCount) == FramesMax ==>
                    status == Finished(InterpretRuntimeError) && Raised(StackOverflow) && frames[..] == old(frames[..]))
              && (argCount as int == f.arity && old(frameCount) < FramesMax ==>
                    && status == Running && frameCount == old(frameCount) + 1 && stackTop == old(stackTop) && reports == old(reports)
                    && frames[..] == old(frames[..])[old(frameCount) := CallFrame(f, 0, stackTop - argCount as int - 1)]))
    {
      if stackTop <= argCount as int {
        return Fault;
      }
      var callee := Peek(argCount as int);
      if Dangling(callee) {
        return Fault;
      }
      status := CallValue(callee, argCount as int);
    }

    /**
     * OP_OUT: the result is popped and the frame dropped. After the last
     * frame the script is popped and run ends; otherwise the stack is cut
     * back to the returning frame's slot 0, where the result is pushed.
     */
    method Out() returns (status: Status)
      requires Valid() && frameCount >= 1
      modifies this`frameCount, this`stackTop, stack
      ensures Valid()
      ensures old(stackTop) == 0 ==> status == Fault
      ensures old(stackTop) >= 1 && old(frameCount) == 1 ==>
        && (old(stackTop) == 1 ==> status == Fault)
        && (old(stackTop) >= 2 ==>
              status == Finished(InterpretOk) && frameCount == 0 && stackTop == old(stackTop) - 2 && stack[..] == old(stack[..]))
      ensures old(stackTop) >= 1 && old(frameCount) > 1 ==>
        var base := old(Frame().slots);
        && (0 <= base < StackMax ==>
              && status == Running && frameCount == old(frameCount) - 1 && stackTop == base + 1
              && stack[..] == old(stack[..])[base := old(stack[stackTop - 1])])
        && (!(0 <= base < StackMax) ==> status == Fault)
    {
      if stackTop == 0 {
        return Fault;
      }
      var result := Pop();
      frameCount := frameCount - 1;
      if frameCount == 0 {
        if stackTop == 0 {
          return Fault;
        }
        var script := Pop();
        return Finished(InterpretOk);
      }
      var base := frames[frameCount].slots;
      if !(0 <= base < StackMax) {
        return Fault;
      }
      stackTop := base;
      Push(result);
      return Running;
    }

    // -------------------------------------------------------------------------
    // Dispatch: the switch of run, split by the kind of instruction
    // -------------------------------------------------------------------------

    /** The instructions that read a constant or a slot operand. */
    method ExecuteDataOp(op: OpCode) returns (status: Status)
      requires Valid() && frameCount >= 1
      requires op in {OpConstant, OpGetLocal, OpSetLocal, OpGetGlobal, OpSetGlobal, OpDefineGlobal}
      modifies this, stack, frames
      ensures Outcome(status)
      ensures DataEffect(op, old(Snap()), old(Frame().ip), status)
    {
      if op == OpConstant {
        status := ConstantOp();
      } else if op == OpGetLocal || op == OpSetLocal {
        status := LocalOp(op == OpGetLocal);
      } else {
        status := GlobalOp(op);
      }
    }

    /** OP_CONSTANT: read the constant, push it. */
    method ConstantOp() returns (status: Status)
      requires Valid() && frameCount >= 1
      modifies this, stack, frames
      ensures Outcome(status)
      ensures DataEffect(OpConstant, old(Snap()), old(Frame().ip), status)
    {
      var c := ReadConstant();
      if c.None? {
        return Fault;
      }
      status := PushValue(c.value);
    }

    /** OP_GET_LOCAL (`get`) and OP_SET_LOCAL: read the slot byte, then act on the slot. */
    method LocalOp(get: bool) returns (status: Status)
      requires Valid() && frameCount >= 1
      modifies this, stack, frames
      ensures Outcome(status)
      ensures DataEffect(if get then OpGetLocal else OpSetLocal, old(Snap()), old(Frame().ip), status)
    {
      var slot := ReadByte();
      if slot.None? {
        return Fault;
      }
      if get {
        status := GetLocal(slot.value);
      } else {
        status := SetLocal(slot.value);
      }
    }

    /** OP_GET_GLOBAL, OP_SET_GLOBAL and OP_DEFINE_GLOBAL: read the name, then act on the global. */
    method GlobalOp(op: OpCode) returns (status: Status)
      requires Valid() && frameCount >= 1
      requires op in {OpGetGlobal, OpSetGlobal, OpDefineGlobal}
      modifies this, stack, frames
      ensures Outcome(status)
      ensures DataEffect(op, old(Snap()), old(Frame().ip), status)
    {
      var name := ReadName();
      if name.None? {
        return Fault;
      }
      if op == OpGetGlobal {
        status := GetGlobal(name.value);
      } else if op == OpSetGlobal {
        status := SetGlobal(name.value);
      } else {
        status := DefineGlobal(name.value);
      }
    }

    /** The instructions that move the ip or change frames: the jumps, OP_LOOP, OP_CALL and OP_OUT. */
    method ExecuteControlOp(op: OpCode) returns (status: Status)
      requires Valid() && frameCount >= 1
      requires op in {OpJump, OpJumpIfTrue, OpJumpIfFalse, OpLoop, OpCall, OpOut}
      modifies this, stack, frames
      ensures Outcome(status)
      ensures ControlEffect(op, old(Snap()), old(Frame().ip), status)
    {
      if op == OpCall {
        status := CallOp();
      } else if op == OpOut {
        status := OutOp();
      } else if op == OpJump || op == OpLoop {
        status := JumpOp(op == OpJump);
      } else {
        status := JumpIfOp(op == OpJumpIfFalse);
      }
    }

    /** OP_CALL: read the argument count, then call the value below the arguments. */
    method CallOp() returns (status: Status)
      requires Valid() && frameCount >= 1
      modifies this, stack, frames
      ensures Outcome(status)
      ensures ControlEffect(OpCall, old(Snap()), old(Frame().ip), status)
    {
      var argCount := ReadByte();
      if argCount.None? {
        return Fault;
      }
      status := Call(argCount.value);
    }

    /** OP_OUT, which has no operand. */
    method OutOp() returns (status: Status)
      requires Valid() && frameCount >= 1
      modifies this, stack, frames
      ensures Outcome(status)
      ensures ControlEffect(OpOut, old(Snap()), old(Frame().ip), status)
    {
      ResumedHere();
      status := Out();
    }

    /** OP_JUMP (`forward`) and OP_LOOP: read the offset, then move the ip. */
    method JumpOp(forward: bool) returns (status: Status)
      requires Valid() && frameCount >= 1
      modifies this, stack, frames
      ensures Outcome(status)
      ensures ControlEffect(if forward then OpJump else OpLoop, old(Snap()), old(Frame().ip), status)
    {
      var offset := ReadShortOperand();
      if offset.None? {
        return Fault;
      }
      if forward {
        Jump(offset.value);
      } else {
        Loop(offset.value);
      }
      status := Running;
    }

    /** OP_JUMP_IF_FALSE (`whenFalsy`) and OP_JUMP_IF_TRUE: read the offset, then test the top value. */
    method JumpIfOp(whenFalsy: bool) returns (status: Status)
      requires Valid() && frameCount >= 1
      modifies this, stack, frames
      ensures Outcome(status)
      ensures ControlEffect(if whenFalsy then OpJumpIfFalse else OpJumpIfTrue, old(Snap()), old(Frame().ip), status)
    {
      var offset := ReadShortOperand();
      if offset.None? {
        return Fault;
      }
      status := JumpIf(offset.value, whenFalsy);
    }

    /** The instructions that work on the stack alone, and the console reads. */
    method ExecuteStackOp(op: OpCode) returns (status: Status)
      requires Valid() && frameCount >= 1
      requires op !in {OpConstant, OpGetLocal, OpSetLocal, OpGetGlobal, OpSetGlobal, OpDefineGlobal}
      requires op !in {OpJump, OpJumpIfTrue, OpJumpIfFalse, OpLoop, OpCall, OpOut}
      requires op !in {OpNotEqual, OpNewLine, OpReturn}
      modifies this, stack, heap
      ensures Outcome(status)
      ensures StackEffect(op, old(Snap()), old(Frame().ip), status)
    {
      if op in {OpTrue, OpFalse, OpNull, OpPop, OpEqual, OpNot} {
        status := ValueOp(op);
      } else if op in {OpPrint, OpReadString, OpReadNumber, OpReadChar} {
        status := ConsoleOp(op);
      } else if op == OpAdd {
        status := AddOp();
      } else if op == OpNegate {
        status := NegateOp();
      } else {
        status := BinaryOp(op);
      }
    }

    /** OP_TRUE, OP_FALSE, OP_NULL, OP_POP, OP_EQUAL and OP_NOT. */
    method ValueOp(op: OpCode) returns (status: Status)
      requires Valid() && frameCount >= 1
      requires op in {OpTrue, OpFalse, OpNull, OpPop, OpEqual, OpNot}
      modifies this, stack
      ensures Outcome(status)
      ensures StackEffect(op, old(Snap()), old(Frame().ip), status)
    {
      ResumedHere();
      if op == OpTrue || op == OpFalse || op == OpNull {
        status := PushValue(if op == OpTrue then BoolVal(true) else if op == OpFalse then BoolVal(false) else NullVal);
      } else if op == OpPop {
        status := PopValue();
      } else if op == OpEqual {
        status := Equal();
      } else {
        status := Not();
      }
    }

    /** OP_PRINT and the console reads. */
    method ConsoleOp(op: OpCode) returns (status: Status)
      requires Valid() && frameCount >= 1
      requires op in {OpPrint, OpReadString, OpReadNumber, OpReadChar}
      modifies this, stack, heap
      ensures Outcome(status)
      ensures StackEffect(op, old(Snap()), old(Frame().ip), status)
    {
      ResumedHere();
      if op == OpPrint {
        status := Print();
      } else if op == OpReadString {
        status := ReadString();
      } else if op == OpReadNumber {
        status := ReadNumber();
      } else {
        status := ReadChar();
      }
    }

    /** OP_ADD. */
    method AddOp() returns (status: Status)
      requires Valid() && frameCount >= 1
      modifies this, stack, heap
      ensures Outcome(status)
      ensures StackEffect(OpAdd, old(Snap()), old(Frame().ip), status)
    {
      ResumedHere();
      status := Add();
    }

    /** OP_NEGATE. */
    method NegateOp() returns (status: Status)
      requires Valid() && frameCount >= 1
      modifies this, stack
      ensures Outcome(status)
      ensures StackEffect(OpNegate, old(Snap()), old(Frame().ip), status)
    {
      ResumedHere();
      status := Negate();
    }

    /** The BINARY_OP instructions. */
    method BinaryOp(op: OpCode) returns (status: Status)
      requires Valid() && frameCount >= 1
      requires op in {OpSubtract, OpMultiply, OpDivide, OpGreater, OpGreaterEqual, OpLess, OpLessEqual}
      modifies this, stack
      ensures Outcome(status)
      ensures StackEffect(op, old(Snap()), old(Frame().ip), status)
    {
      ResumedHere();
      status := Binary(op);
    }

    /**
     * One pass of run's loop: fetch the opcode byte, then execute it.
     * OP_NOT_EQUAL, OP_NEWLINE, OP_RETURN and bytes that are no opcode
     * have no case in the switch and do nothing.
     */
    method Step() returns (status: Status)
      requires Valid() && frameCount >= 1
      modifies this, stack, frames, heap
      ensures Outcome(status)
      ensures !(0 <= old(Frame().ip) < |old(Code())|) ==> status == Fault
      ensures 0 <= old(Frame().ip) < |old(Code())| ==>
        var op, at := DecodeOp(old(Code())[old(Frame().ip)]), old(Frame().ip) + 1;
        && (op.None? || op.value in {OpNotEqual, OpNewLine, OpReturn} ==>
              status == Running && frames[..] == old(Moved(1)) && Snap() == old(Snap()))
        && (op.Some? && op.value !in {OpNotEqual, OpNewLine, OpReturn} ==> Effect(op.value, old(Snap()), at, status))
    {
      ghost var before := Snap();
      var instruction := ReadByte();
      if instruction.None? {
        return Fault;
      }
      assert Snap() == before && Frame().ip == old(Frame().ip) + 1;
      var op := DecodeOp(instruction.value);
      if op.None? || op.value in {OpNotEqual, OpNewLine, OpReturn} {
        return Running;
      }
      status := Execute(op.value);
    }

    /** The switch of run: one instruction, its opcode byte already read. */
    method Execute(op: OpCode) returns (status: Status)
      requires Valid() && frameCount >= 1 && op !in {OpNotEqual, OpNewLine, OpReturn}
      modifies this, stack, frames, heap
      ensures Outcome(status)
      ensures Effect(op, old(Snap()), old(Frame().ip), status)
    {
      if op in {OpConstant, OpGetLocal, OpSetLocal, OpGetGlobal, OpSetGlobal, OpDefineGlobal} {
        status := ExecuteDataOp(op);
      } else if op in {OpJump, OpJumpIfTrue, OpJumpIfFalse, OpLoop, OpCall, OpOut} {
        status := ExecuteControlOp(op);
      } else {
        status := ExecuteStackOp(op);
      }
    }

    /**
     * run: steps until an instruction finishes or faults. The source loops
     * without bound; here at most `fuel` instructions run, and Running means
     * the fuel ran out.
     */
    method Run(fuel: nat) returns (status: Status)
      requires Valid() && frameCount >= 1
      modifies this, stack, frames, heap
      ensures Outcome(status)
    {
      status := Running;
      var steps := 0;
      while steps < fuel && status == Running
        invariant Outcome(status)
      {
        status := Step();
        steps := steps + 1;
      }
    }
  }

  /**
   * interpret: compile the source; a compile error returns at once.
   * Otherwise the script function is pushed and called with no arguments,
   * whether or not that call succeeds, and run takes over.
   */
  method Interpret(vm: VM, source: string, fuel: nat) returns (status: Status, diagnostics: seq<Compilation.Diagnostic>)
    requires vm.Valid()
    modifies vm, vm.stack, vm.frames, vm.heap
    ensures vm.Valid()
    ensures status == Finished(InterpretCompileError) <==> diagnostics != []
    ensures diagnostics != [] ==>
      && vm.stackTop == old(vm.stackTop) && vm.frameCount == old(vm.frameCount) && vm.reports == old(vm.reports)
      && vm.stack[..] == old(vm.stack[..]) && vm.frames[..] == old(vm.frames[..])
      && vm.globals == old(vm.globals) && vm.output == old(vm.output)
      && vm.lineInput == old(vm.lineInput) && vm.numberInput == old(vm.numberInput) && vm.charInput == old(vm.charInput)
    ensures status == Finished(InterpretRuntimeError) ==> vm.stackTop == 0 && vm.frameCount == 0 && |vm.reports| > |old(vm.reports)|
    ensures status == Finished(InterpretOk) ==> vm.frameCount == 0
  {
    var script;
    script, diagnostics := Compilation.Compile(source, vm.heap);
    if script.None? {
      return Finished(InterpretCompileError), diagnostics;
    }
    if vm.stackTop == StackMax {
      return Fault, diagnostics;
    }
    vm.Push(ObjectVal(script.value));
    var called := vm.CallValue(ObjectVal(script.value), 0);
    if vm.frameCount == 0 {
      return Fault, diagnostics;
    }
    status := vm.Run(fuel);
  }
}
