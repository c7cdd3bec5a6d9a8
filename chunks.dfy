/** The bytecode chunk of chunk.h / chunk.cpp: code buffer, constant pool and run-length line table. */
module Chunks {
  import opened Memory
  import opened Values
  import opened Wrappers

  newtype byte = x: int | 0 <= x < 256

  /**
   * The instruction set. chunk.h lists every opcode of the virtual machine
   * except OP_CALL and OP_OUT, which compiler.cpp and vm.cpp use; they are
   * numbered here after the others.
   */
  datatype OpCode =
    | OpConstant | OpTrue | OpFalse | OpPop
    | OpGetGlobal | OpSetGlobal | OpGetLocal | OpSetLocal | OpDefineGlobal
    | OpEqual | OpNotEqual | OpGreater | OpGreaterEqual | OpLess | OpLessEqual
    | OpAdd | OpSubtract | OpMultiply | OpDivide
    | OpNot | OpNegate
    | OpPrint | OpReadString | OpReadNumber | OpReadChar | OpNewLine
    | OpJump | OpJumpIfTrue | OpJumpIfFalse | OpLoop
    | OpNull | OpReturn | OpCall | OpOut

  /** Number of opcodes; their bytes are 0 .. OpCount - 1, in declaration order. */
  const OpCount := 34

  function OpByte(op: OpCode): (b: byte)
    ensures (b as int) < OpCount
  {
    match op
    case OpConstant => 0       case OpTrue => 1           case OpFalse => 2
    case OpPop => 3            case OpGetGlobal => 4      case OpSetGlobal => 5
    case OpGetLocal => 6       case OpSetLocal => 7       case OpDefineGlobal => 8
    case OpEqual => 9          case OpNotEqual => 10      case OpGreater => 11
    case OpGreaterEqual => 12  case OpLess => 13          case OpLessEqual => 14
    case OpAdd => 15           case OpSubtract => 16      case OpMultiply => 17
    case OpDivide => 18        case OpNot => 19           case OpNegate => 20
    case OpPrint => 21         case OpReadString => 22    case OpReadNumber => 23
    case OpReadChar => 24      case OpNewLine => 25       case OpJump => 26
    case OpJumpIfTrue => 27    case OpJumpIfFalse => 28   case OpLoop => 29
    case OpNull => 30          case OpReturn => 31        case OpCall => 32
    case OpOut => 33
  }

  /** The opcode a byte encodes, if any; a byte past the last opcode is no instruction. */
  function DecodeOp(b: byte): (r: Option<OpCode>)
    ensures r.Some? <==> (b as int) < OpCount
  {
    match b
    case 0 => Some(OpConstant)     case 1 => Some(OpTrue)         case 2 => Some(OpFalse)
    case 3 => Some(OpPop)          case 4 => Some(OpGetGlobal)    case 5 => Some(OpSetGlobal)
    case 6 => Some(OpGetLocal)     case 7 => Some(OpSetLocal)     case 8 => Some(OpDefineGlobal)
    case 9 => Some(OpEqual)        case 10 => Some(OpNotEqual)    case 11 => Some(OpGreater)
    case 12 => Some(OpGreaterEqual) case 13 => Some(OpLess)        case 14 => Some(OpLessEqual)
    case 15 => Some(OpAdd)         case 16 => Some(OpSubtract)    case 17 => Some(OpMultiply)
    case 18 => Some(OpDivide)      case 19 => Some(OpNot)         case 20 => Some(OpNegate)
    case 21 => Some(OpPrint)       case 22 => Some(OpReadString)  case 23 => Some(OpReadNumber)
    case 24 => Some(OpReadChar)    case 25 => Some(OpNewLine)     case 26 => Some(OpJump)
    case 27 => Some(OpJumpIfTrue)  case 28 => Some(OpJumpIfFalse) case 29 => Some(OpLoop)
    case 30 => Some(OpNull)        case 31 => Some(OpReturn)      case 32 => Some(OpCall)
    case 33 => Some(OpOut)
    case _ => None
  }

  /** Decoding the byte of an opcode gives that opcode back. */
  lemma DecodeOpByte(op: OpCode)
    ensures DecodeOp(OpByte(op)) == Some(op)
  {
  }

  /** One row of the line table: a source line and the cumulative byte count at the end of its run. */
  datatype LineRow = LineRow(line: int, count: int)

  /**
   * The line of the byte at `offset`: the line of the first row whose
   * cumulative count exceeds the offset (the lookup of runtime__error).
   */
  function LineLookup(rows: seq<LineRow>, offset: int): Option<int>
  {
    if rows == [] then None
    else if offset < rows[0].count then Some(rows[0].line)
    else LineLookup(rows[1..], offset)
  }

  /** Appending rows never changes an offset the table already resolves. */
  lemma {:induction false} LineLookupPrefixStable(p: seq<LineRow>, q: seq<LineRow>, offset: int)
    requires LineLookup(p, offset).Some?
    ensures LineLookup(p + q, offset) == LineLookup(p, offset)
  {
    if offset >= p[0].count {
      assert (p + q)[1..] == p[1..] + q;
      LineLookupPrefixStable(p[1..], q, offset);
    }
  }

  /** Rows whose counts do not exceed the offset are passed over. */
  lemma {:induction false} LineLookupSkipsPassedRows(p: seq<LineRow>, q: seq<LineRow>, offset: int)
    requires forall i :: 0 <= i < |p| ==> p[i].count <= offset
    ensures LineLookup(p + q, offset) == LineLookup(q, offset)
  {
    if p != [] {
      assert (p + q)[1..] == p[1..] + q;
      LineLookupSkipsPassedRows(p[1..], q, offset);
    } else {
      assert p + q == q;
    }
  }

  /**
   * The line table is well formed: the active rows are rows[0..lcount], the
   * last active row ends at `count`, cumulative counts strictly increase, and
   * the rows beyond lcount are fresh (1, 0) rows.
   */
  ghost predicate RowsValid(rows: seq<LineRow>, lcount: nat, count: int)
  {
    lcount < |rows|
    && rows[lcount].count == count
    && rows[0].count >= 0
    && (forall i, j :: 0 <= i < j <= lcount ==> rows[i].count < rows[j].count)
    && (forall i :: lcount < i < |rows| ==> rows[i] == LineRow(1, 0))
  }

  /** Every written offset resolves to the line it was written with. */
  ghost predicate LinesResolve(rows: seq<LineRow>, lcount: nat, lineOf: seq<int>)
    requires lcount < |rows|
  {
    forall o :: 0 <= o < |lineOf| ==> LineLookup(rows[..lcount + 1], o) == Some(lineOf[o])
  }

  class Chunk {
    var count: int
    var capacity: int
    var code: seq<byte>
    var lcount: int
    var lcapacity: int
    var lindex: int
    var lines: seq<LineRow>
    const constants: ValueArray
    /** The line each byte was written with, in order. */
    ghost var lineOf: seq<int>

    /** The buffers' shape: the sizes agree, and the active row exists once the line table is allocated. */
    ghost predicate Valid()
      reads this, constants
    {
      && constants.Valid()
      && 0 <= count == |code| == |lineOf| <= capacity
      && lindex == 0
      && 0 <= lcount && lcapacity == |lines|
      && (lcapacity == 0 ==> count == 0 && lcount == 0)
      && (lcapacity > 0 ==> lcount < lcapacity)
    }

    /** The line table is well formed and resolves every written offset to the line it was written with. */
    ghost predicate LinesValid()
      reads this, constants
    {
      Valid() && (lcapacity > 0 ==> RowsValid(lines, lcount, count) && LinesResolve(lines, lcount, lineOf))
    }

    ghost predicate Empty()
      reads this, constants
    {
      count == 0 && capacity == 0 && code == [] && lcount == 0 && lcapacity == 0
      && lines == [] && lineOf == [] && constants.values == [] && constants.capacity == 0
    }

    constructor ()
      ensures LinesValid() && Empty() && fresh(constants)
    {
      count, capacity, code := 0, 0, [];
      lcount, lcapacity, lindex, lines := 0, 0, 0, [];
      lineOf := [];
      constants := new ValueArray();
    }

    /** The line of the row that write compares against: a fresh table's row 0 has line 1. */
    function CurrentRowLine(): int
      reads this
    {
      if 0 <= lcount < |lines| then lines[lcount].line else 1
    }

    /** Grow the line table to `newCapacity` rows, the new ones fresh (1, 0) rows as write allocates them. */
    method GrowLines(newCapacity: int)
      requires Valid() && lcapacity < newCapacity
      modifies this
      ensures Valid() && (old(LinesValid()) ==> LinesValid())
      ensures lcapacity == newCapacity && |lines| == newCapacity
      ensures lines[..old(lcapacity)] == old(lines)
      ensures forall k :: old(lcapacity) <= k < newCapacity ==> lines[k] == LineRow(1, 0)
      ensures count == old(count) && code == old(code) && lcount == old(lcount) && lineOf == old(lineOf)
      ensures capacity == old(capacity)
    {
      var rows := lines;
      var i := lcapacity;
      while i < newCapacity
        invariant lcapacity <= i <= newCapacity && |rows| == i
        invariant rows[..lcapacity] == lines
        invariant forall k :: lcapacity <= k < i ==> rows[k] == LineRow(1, 0)
      {
        rows := rows + [LineRow(1, 0)];
        i := i + 1;
      }
      if lcapacity > 0 && LinesValid() {
        assert rows[..lcount + 1] == lines[..lcount + 1];
      }
      lines, lcapacity := rows, newCapacity;
    }

    /** The store half of write, once both buffers have room. */
    method Append(b: byte, line: int)
      requires Valid() && count < capacity && lcount + 1 < lcapacity
      modifies this
      ensures Valid()
      ensures code == old(code) + [b] && count == old(count) + 1
      ensures lineOf == old(lineOf) + [line]
      ensures capacity == old(capacity) && lcapacity == old(lcapacity)
      ensures lcount == if line == old(lines[lcount].line) then old(lcount) else old(lcount) + 1
      ensures old(LinesValid()) ==> LinesValid() && lines[lcount] == LineRow(line, count)
      ensures forall i :: 0 <= i < old(lcount) ==> lines[i] == old(lines[i])
    {
      ghost var rows := lines;
      ghost var resolved := LinesValid();
      if line == lines[lcount].line {
        lines := lines[lcount := LineRow(line, lines[lcount].count + 1)];
        if resolved {
          WriteSameRowResolves(rows, lcount, lineOf, line);
        }
      } else {
        lcount := lcount + 1;
        lines := lines[lcount := LineRow(line, lines[lcount - 1].count + 1)];
        if resolved {
          WriteNewRowResolves(rows, lcount - 1, lineOf, line);
        }
      }
      code := code + [b];
      count := count + 1;
      lineOf := lineOf + [line];
    }

    /**
     * write: append one byte. The code buffer grows when it is full; the line
     * table grows when row lcount + 1 does not exist. A byte on the current
     * row's line extends that row; any other line opens the next row.
     */
    method Write(b: byte, line: int)
      requires Valid()
      modifies this
      ensures Valid()
      ensures code == old(code) + [b] && count == old(count) + 1
      ensures lineOf == old(lineOf) + [line]
      ensures capacity == if old(capacity) < old(count) + 1 then GrowCapacity(old(capacity)) else old(capacity)
      ensures lcapacity == if old(lcapacity) < old(lcount) + 2 then GrowCapacity(old(lcapacity)) else old(lcapacity)
      ensures lcount == if line == old(CurrentRowLine()) then old(lcount) else old(lcount) + 1
      ensures old(LinesValid()) ==> LinesValid() && lines[lcount] == LineRow(line, count)
      ensures forall i :: 0 <= i < old(lcount) ==> lines[i] == old(lines[i])
    {
      if capacity < count + 1 {
        capacity := GrowCapacity(capacity);
      }
      if lcapacity < lcount + 2 {
        GrowLines(GrowCapacity(lcapacity));
      }
      Append(b, line);
    }

    /** Overwrite one byte of code in place, as patch_jump does through the code pointer. */
    method Patch(offset: int, b: byte)
      requires Valid() && 0 <= offset < count
      modifies this
      ensures Valid() && code == old(code)[offset := b] && (old(LinesValid()) ==> LinesValid())
      ensures count == old(count) && capacity == old(capacity) && lineOf == old(lineOf)
      ensures lines == old(lines) && lcount == old(lcount) && lcapacity == old(lcapacity)
    {
      code := code[offset := b];
    }

    /**
     * The line lookup runtime__error performs for a frame: scan rows
     * 0 .. lcount for the first whose cumulative count exceeds the offset.
     */
    method LineAt(offset: int) returns (found: bool, line: int)
      requires 0 <= lcount < |lines|
      ensures found <==> LineLookup(lines[..lcount + 1], offset).Some?
      ensures found ==> LineLookup(lines[..lcount + 1], offset) == Some(line)
    {
      ghost var active := lines[..lcount + 1];
      var i := 0;
      found, line := false, 0;
      while i <= lcount
        invariant 0 <= i <= lcount + 1
        invariant LineLookup(active, offset) == LineLookup(active[i..], offset)
        invariant !found
      {
        assert active[i..][1..] == active[i + 1..];
        if offset < lines[i].count {
          found, line := true, lines[i].line;
          return;
        }
        i := i + 1;
      }
    }

    /** init: the empty chunk; the constant pool is re-initialised in place. */
    method Init()
      modifies this, constants
      ensures LinesValid() && Empty()
    {
      count, capacity := 0, 0;
      lcount, lcapacity, lindex := 0, 0, 0;
      code, lines := [], [];
      lineOf := [];
      constants.Init();
    }

    /** free: release the buffers and return to the state init produces. */
    method Free()
      modifies this, constants
      ensures LinesValid() && Empty()
    {
      constants.Free();
      Init();
    }

    /** add_constant: append to the pool and return the new entry's index. */
    method AddConstant(value: Value) returns (index: int)
      requires Valid()
      modifies constants
      ensures Valid() && (old(LinesValid()) ==> LinesValid())
      ensures index == old(constants.count)
      ensures constants.values == old(constants.values) + [value]
      ensures constants.values[index] == value
    {
      constants.Write(value);
      index := constants.count - 1;
    }
  }

  /** Extending the current row keeps every written offset and resolves the new one. */
  lemma WriteSameRowResolves(rows: seq<LineRow>, lcount: nat, lineOf: seq<int>, line: int)
    requires RowsValid(rows, lcount, |lineOf|) && LinesResolve(rows, lcount, lineOf)
    requires rows[lcount].line == line
    ensures var rows' := rows[lcount := LineRow(line, rows[lcount].count + 1)];
      RowsValid(rows', lcount, |lineOf| + 1) && LinesResolve(rows', lcount, lineOf + [line])
  {
    var rows' := rows[lcount := LineRow(line, rows[lcount].count + 1)];
    var count := |lineOf|;
    var p := rows[..lcount];
    assert rows[..lcount + 1] == p + [rows[lcount]];
    assert rows'[..lcount + 1] == p + [rows'[lcount]];
    assert LineLookup([rows'[lcount]], count) == Some(line);
    forall o | 0 <= o < count + 1
      ensures LineLookup(rows'[..lcount + 1], o) == Some((lineOf + [line])[o])
    {
      if o < count {
        assert LineLookup(rows[..lcount + 1], o) == Some(lineOf[o]);
        if LineLookup(p, o).Some? {
          LineLookupPrefixStable(p, [rows[lcount]], o);
          LineLookupPrefixStable(p, [rows'[lcount]], o);
        } else {
          LineLookupNoneMeansPassed(p, o);
          LineLookupSkipsPassedRows(p, [rows[lcount]], o);
          LineLookupSkipsPassedRows(p, [rows'[lcount]], o);
          assert LineLookup([rows[lcount]], o) == Some(line);
          assert LineLookup([rows'[lcount]], o) == Some(line);
        }
      } else {
        assert forall i :: 0 <= i < |p| ==> p[i].count < rows[lcount].count;
        LineLookupSkipsPassedRows(p, [rows'[lcount]], o);
      }
    }
  }

  /** Opening a new row keeps every written offset and resolves the new one. */
  lemma WriteNewRowResolves(rows: seq<LineRow>, lcount: nat, lineOf: seq<int>, line: int)
    requires RowsValid(rows, lcount, |lineOf|) && LinesResolve(rows, lcount, lineOf)
    requires lcount + 1 < |rows|
    ensures var rows' := rows[lcount + 1 := LineRow(line, rows[lcount].count + 1)];
      RowsValid(rows', lcount + 1, |lineOf| + 1) && LinesResolve(rows', lcount + 1, lineOf + [line])
  {
    var rows' := rows[lcount + 1 := LineRow(line, rows[lcount].count + 1)];
    var p := rows[..lcount + 1];
    assert rows'[..lcount + 2] == p + [rows'[lcount + 1]];
    forall o | 0 <= o < |lineOf| + 1
      ensures LineLookup(rows'[..lcount + 2], o) == Some((lineOf + [line])[o])
    {
      if o < |lineOf| {
        assert LineLookup(rows[..lcount + 1], o) == Some(lineOf[o]);
        LineLookupPrefixStable(p, [rows'[lcount + 1]], o);
      } else {
        assert forall i :: 0 <= i < |p| ==> p[i].count <= rows[lcount].count;
        assert LineLookup([rows'[lcount + 1]], o) == Some(line);
        LineLookupSkipsPassedRows(p, [rows'[lcount + 1]], o);
      }
    }
  }

  /** A lookup that finds nothing has passed every row. */
  lemma {:induction false} LineLookupNoneMeansPassed(p: seq<LineRow>, offset: int)
    requires LineLookup(p, offset).None?
    ensures forall i :: 0 <= i < |p| ==> p[i].count <= offset
  {
    if p != [] {
      LineLookupNoneMeansPassed(p[1..], offset);
      forall i | 0 <= i < |p| ensures p[i].count <= offset {
        if i > 0 { assert p[i] == p[1..][i - 1]; }
      }
    }
  }
}
