# UwU: a verified model of the compile-and-run pipeline

UwU is a small bytecode language in the clox tradition, spelled in "uwu"
speak: `uwu` declares a variable, `fwun` a function, `ouo` prints, `?w?`
and `ewe` are if and else, `untiw` loops while its condition is false, and
`[:` and `:]` bracket a block. Its interpreter has the
following stages:

- a hand-written scanner;
- a single-pass Pratt compiler, which writes bytecode into a chunk (a code
  buffer, a constant pool and a run-length line table) and keeps a table of
  local variable slots per function;
- a heap of strings and functions, with an intern table for strings;
- a stack virtual machine with call frames and a table of globals.

This project models each stage in Dafny, one module per source file:

| module | file | source |
|---|---|---|
| `Wrappers` | `wrappers.dfy` | the `Option` type |
| `Memory` | `memory.dfy` | the `GROW_CAPACITY` arithmetic of `memory.h` |
| `Values` | `values.dfy` | `value.cpp`: the tagged value, `values_equal`, `ValueArray` |
| `Chunks` | `chunks.dfy` | `chunk.h` / `chunk.cpp`: the opcodes and the `Chunk` class |
| `Objects` | `objects.dfy` | `object.cpp`: the heap arena, the allocation list, interning |
| `Lexer` | `lexer.dfy` | `scanner.cpp` |
| `Jumps` | `jumps.dfy` | jump operand encoding, shared by the compiler and the VM |
| `Compilation` | `compilation.dfy` | `compiler.cpp` |
| `Machine` | `machine.dfy` | `vm.h` / `vm.cpp` |

The state the source updates in place is modelled as Dafny classes whose
methods say what they change:

- `Scanner` holds the cursor and the line;
- `ValueArray`, `Chunk` and `Heap` hold the buffers and tables;
- `Compiler` holds one function's local slots;
- `Parser` holds the two tokens, the error flags and the current compiler
  record;
- `VM` holds the stack, the frames and the globals.

Each loop of the source is a `while` loop with invariants. Each such method
is proved against a functional specification. For example:

- `Scanner.ScanToken` returns what `NextToken` computes.
- `Chunk.Write` keeps the line table resolving every written offset to its
  line.
- `Parser.EndScope` removes exactly the locals of the closed scope and emits
  one `OP_POP` for each.

Properties that relate several operations are lemmas about those
specifications. Examples are the end-of-input stability of the scanner, the
keyword table, jump landing and the interning invariant.

Modelling choices:

- **Object pointers.** An object pointer is an index into the `Heap` arena,
  so reference identity and equal contents are kept apart.
- **Numbers.** Numbers are `real`. No double-precision rounding is modelled.
- **Undefined behaviour.** Where the C++ behaviour is undefined, the VM
  stops with the status `Fault`. This covers popping an empty stack, pushing
  past `STACK_MAX`, fetching past the end of the code, a constant index past
  the pool, reading past the end of the line or character input, and dividing by zero
  (with `real`, the result is no number).
- **Two missing opcodes.** The opcode list of `chunk.h` lacks `OP_CALL` and
  `OP_OUT`, which `compiler.cpp` and `vm.cpp` use. They are numbered 32 and
  33, after the others.
- **Token kinds.** The token-kind enumeration follows the order of the rule
  table in `compiler.cpp`, not the stale `scanner.h`.

Where the source's comments and its code disagree, the model follows the
code:

- `is_falsy` reads the number field of the value union. `NULL_VAL` stores 0
  there, so null is falsy (`Machine.IsFalsy`).
- `values_equal` sends the null tag to its `default: return false` branch,
  so null is not equal to null (`Values.NullNotEqualToNull`).
- `OP_NOT_EQUAL`, `OP_NEW_LINE` and `OP_RETURN` have no case in `run`'s
  switch, so they do nothing (`Machine.VM.Step`).

## Model

| member | source | states |
|---|---|---|
| Memory.GrowCapacity | UwU_src/memory.h:13-14 | the new capacity exceeds the old one and is at least 8; from 8 upward it is exactly double |
| Values.ValuesEqual | UwU_src/value.cpp:30-43 | two values are equal exactly when they have the same tag and payload and are not null; objects compare by reference |
| Values.DifferentTagsNeverEqual | UwU_src/value.cpp:32 | values with different tags are never equal |
| Values.NullNotEqualToNull | UwU_src/value.cpp:41 | null is not equal to itself |
| Values.ObjectsCompareByIdentity | UwU_src/value.cpp:39 | two object values are equal exactly when they name the same heap object |
| Values.ValueArray.constructor | UwU_src/value.cpp:19-22 | a new array is empty, with count and capacity 0 |
| Values.ValueArray.Write | UwU_src/value.cpp:5-17 | the value is appended at index `count`, count goes up by one, earlier entries keep their values, capacity grows by GROW_CAPACITY exactly when the array was full, and count <= capacity still holds |
| Values.ValueArray.Init | UwU_src/value.cpp:19-22 | the array is empty with count and capacity 0 |
| Values.ValueArray.Free | UwU_src/value.cpp:24-28 | the array returns to the empty state init leaves |
| Chunks.OpByte | UwU_src/chunk.h:7-52 | every opcode's byte lies below the number of opcodes |
| Chunks.DecodeOp | UwU_src/chunk.h:7-52 | a byte decodes to an opcode exactly when it lies below the number of opcodes |
| Chunks.DecodeOpByte | UwU_src/chunk.h:7-52 | decoding an opcode's byte gives the opcode back |
| Chunks.LineLookupPrefixStable | UwU_src/vm.cpp:40-47 | appending rows to the line table never changes the line of an offset it already resolves |
| Chunks.LineLookupSkipsPassedRows | UwU_src/vm.cpp:40-47 | rows whose cumulative count does not exceed the offset are passed over by the lookup |
| Chunks.LineLookupNoneMeansPassed | UwU_src/vm.cpp:40-47 | a lookup that finds no row has passed every row |
| Chunks.Chunk.constructor | UwU_src/chunk.cpp:43-50 | a new chunk is empty, and its line table is well formed |
| Chunks.Chunk.GrowLines | UwU_src/chunk.cpp:14-27 | the line table gets the new capacity, old rows keep their contents, new rows are (1, 0), and nothing else changes |
| Chunks.Chunk.Append | UwU_src/chunk.cpp:29-40 | the byte is appended with its line; the same line extends row `lcount`, another line opens row `lcount + 1`; earlier rows are kept and the table stays well formed |
| Chunks.Chunk.Write | UwU_src/chunk.cpp:4-41 | the byte is stored at the old count and earlier bytes are kept; each buffer grows by GROW_CAPACITY exactly under the source's condition; the line table keeps resolving every written offset to its line, and the last row ends at count |
| Chunks.Chunk.Patch | UwU_src/compiler.cpp:256-257 | exactly one byte of code is overwritten; the lengths and the line table are unchanged |
| Chunks.Chunk.LineAt | UwU_src/vm.cpp:38-47 | the scan of the line table finds a line exactly when the lookup on the live rows does, and it finds the same line |
| Chunks.Chunk.Init | UwU_src/chunk.cpp:43-50 | the chunk and its constant pool are empty, and the line table is well formed |
| Chunks.Chunk.Free | UwU_src/chunk.cpp:52-62 | the chunk returns to the empty state init leaves |
| Chunks.Chunk.AddConstant | UwU_src/chunk.cpp:64-68 | the value is appended to the pool, and the result is its index, the old count |
| Chunks.WriteSameRowResolves | UwU_src/chunk.cpp:29-31 | extending the current row keeps every written offset's line and resolves the new offset to the new line |
| Chunks.WriteNewRowResolves | UwU_src/chunk.cpp:33-37 | opening a new row keeps every written offset's line and resolves the new offset to the new line |
| Jumps.ReadShort | UwU_src/vm.cpp:225 | READ_SHORT yields at most 65535 |
| Jumps.ShortRoundTrip | UwU_src/compiler.cpp:172-173 | an offset up to 65535, split into high and low bytes, is read back unchanged |
| Jumps.ShortTruncates | UwU_src/compiler.cpp:256-257 | a larger offset is read back as its low 16 bits |
| Jumps.ForwardJumpLands | UwU_src/compiler.cpp:247-258 | the VM, adding a patched operand with its ip just past it, lands on the chunk length at patch time |
| Jumps.LoopJumpLands | UwU_src/compiler.cpp:165-174 | the VM, subtracting an emit_loop operand with its ip just past it, lands on `loop_start` |
| Objects.Function.constructor | UwU_src/object.cpp:18-25 | a new function has arity 0, no name and an empty chunk |
| Objects.Obj.Type | UwU_src/object.cpp:27-30 | an object's type is O_STRING exactly when it is a string |
| Objects.Heap.constructor | UwU_src/vm.cpp:57-61 | the heap starts with no objects and an empty intern table |
| Objects.Heap.AllocateObject | UwU_src/object.cpp:7-16 | the object is added to the arena and prepended to the allocation list; the rest of the list and the intern table are unchanged |
| Objects.Heap.NewFunction | UwU_src/object.cpp:18-25 | the new function has arity 0, no name and an empty chunk, and is prepended to the allocation list |
| Objects.Heap.IsObjectType | UwU_src/object.cpp:27-30 | true exactly when the value is an object whose object has the given type |
| Objects.Heap.AllocateString | UwU_src/object.cpp:32-41 | a new string object is prepended to the list and added to the intern table; the table stays free of duplicates when no interned string had these characters |
| Objects.Heap.FindKey | UwU_src/object.cpp:70-85 | a found key is an interned string with these characters; nothing is found exactly when no interned string has them |
| Objects.Heap.TakeString | UwU_src/object.cpp:87-98 | the result is an interned string with these characters: the existing one, with the heap unchanged, when there is one, otherwise a new one; no duplicate is ever interned |
| Objects.Heap.CopyString | UwU_src/object.cpp:100-111 | the same as take_string: the canonical string with these characters, a new one only when none existed |
| Objects.Heap.CopyStringTwice | UwU_src/object.cpp:100-111 | two copies of the same characters are the same object |
| Objects.Heap.InternedIsCanonical | UwU_src/object.cpp:32-41 | two interned strings have the same characters exactly when they are the same object |
| Lexer.IdentEnd | UwU_src/scanner.cpp:168-169 | the end of the maximal run of identifier characters |
| Lexer.DigitsEnd | UwU_src/scanner.cpp:176 | the end of the maximal run of digits |
| Lexer.NumberEnd | UwU_src/scanner.cpp:174-185 | the number's span holds digits and at most one '.', which is followed by a digit; no digit follows the span, and without a '.' in the span neither does a '.' followed by a digit |
| Lexer.DelimEnd | UwU_src/scanner.cpp:189-193 | the first position holding the delimiter or the end of input; no earlier position in the span holds either |
| Lexer.CountedNewlines | UwU_src/scanner.cpp:191 | no more lines are counted than there are characters in the span |
| Lexer.CommentEnd | UwU_src/scanner.cpp:78-93 | the corrected comment loop moves forward unless at the end, and stops at the end of input or just past a `:}` |
| Lexer.CommentOverrunsOnTrailingColon | UwU_src/scanner.cpp:82-86 | on the input `{: :` the loop as written leaves the cursor past the terminating NUL |
| Lexer.CommentEndAgrees | UwU_src/scanner.cpp:78-93 | wherever on a NUL-free input the loop as written stays inside its input, it agrees with the corrected loop |
| Lexer.SkipWs | UwU_src/scanner.cpp:64-98 | the cursor only moves forward, the line never goes down, and it stops on a character that is neither blank nor a comment start |
| Lexer.SkipWsLineBound | UwU_src/scanner.cpp:71-76 | the line goes up by no more than the number of newline characters skipped |
| Lexer.SkipWsKeepsLine | UwU_src/scanner.cpp:66-70 | text without a newline character (spaces, `\r`, `\t`, comments) leaves the line unchanged |
| Lexer.SkipWsIdempotent | UwU_src/scanner.cpp:64-98 | skipping again where skipping stopped changes nothing |
| Lexer.SkipWsExamples | UwU_src/scanner.cpp:71-93 | a newline at the end of input does not count, a newline before more input does, and newlines inside a comment never do |
| Lexer.CheckKeyword | UwU_src/scanner.cpp:100-110 | the keyword exactly when the word has the keyword's total length and tail; otherwise an identifier, or an error token for the '?' family |
| Lexer.IdentifierKind | UwU_src/scanner.cpp:112-164 | identifier_kind only ever yields an identifier, an error or one of the twelve keyword kinds |
| Lexer.IdentifierKindIsKeywordOf | UwU_src/scanner.cpp:112-164 | on a maximal identifier, identifier_kind agrees with the keyword table defined on the word alone |
| Lexer.SplitWord | UwU_src/scanner.cpp:100-110 | a word equals head + tail exactly when its first part is the head and the rest is the tail |
| Lexer.WordFactsHold | UwU_src/scanner.cpp:166-172 | the character after a maximal identifier is not an identifier character |
| Lexer.FirstCharDiffers | UwU_src/scanner.cpp:114 | words whose first characters differ are different |
| Lexer.KeywordsFromA | UwU_src/scanner.cpp:116 | the 'a' branch agrees with the keyword table |
| Lexer.KeywordsFromI | UwU_src/scanner.cpp:117 | the 'i' branch agrees with the keyword table |
| Lexer.KeywordsFromQuery | UwU_src/scanner.cpp:118 | the '?' branch agrees with the keyword table |
| Lexer.KeywordsFromE | UwU_src/scanner.cpp:119 | the 'e' branch agrees with the keyword table |
| Lexer.KeywordsFromT | UwU_src/scanner.cpp:120 | the 't' branch agrees with the keyword table |
| Lexer.KeywordsFromF | UwU_src/scanner.cpp:122-132 | the 'f' branch, including its fall-through into the 'u' branch, agrees with the keyword table |
| Lexer.KeywordsFromU | UwU_src/scanner.cpp:133-141 | the 'u' branch agrees with the keyword table |
| Lexer.PrefixKeywords | UwU_src/scanner.cpp:142-160 | the 'o' branch, which recognises `ow`, `ouo` and `out` by prefix, agrees with the keyword table |
| Lexer.FallThroughQuirk | UwU_src/scanner.cpp:122-141 | "fntiw" is the loop keyword |
| Lexer.PrefixOnlyQuirk | UwU_src/scanner.cpp:148 | "owl" is the or keyword |
| Lexer.QueryQuirk | UwU_src/scanner.cpp:118 | a '?' word other than "?w?" is an error token |
| Lexer.Symbol | UwU_src/scanner.cpp:237-301 | an operator is one or two characters long, two only before a non-NUL; its spelling is the characters read |
| Lexer.SpellingScansBack | UwU_src/scanner.cpp:237-301 | every operator's spelling scans back to that operator, at its full length |
| Lexer.IdentifierScan | UwU_src/scanner.cpp:166-172 | the token is the maximal identifier starting here, its kind is what the keyword table gives its text, and the line is unchanged |
| Lexer.NumberScan | UwU_src/scanner.cpp:174-185 | the token is a number whose text is its source slice, with no digit after it |
| Lexer.StringScan | UwU_src/scanner.cpp:187-200 | a string token exactly when a closing quote comes before the end of input; it is the source slice from quote to quote, with no quote between; otherwise the unterminated-string error; the line never goes down |
| Lexer.CharScan | UwU_src/scanner.cpp:202-220 | a char token exactly when one non-NUL, non-backtick character lies between two backticks, and then its text has length 3; two backticks in a row give the empty-char error; every other error is the unterminated-char or the invalid-char one |
| Lexer.SymbolScan | UwU_src/scanner.cpp:237-303 | an operator token of one or two characters, or the unexpected-character error after one character |
| Lexer.NextToken | UwU_src/scanner.cpp:222-304 | the token starts where whitespace skipping stops; it is EOF exactly at the end of input, with the cursor left there; any other token consumes input and, unless it is an error, carries its source slice and line |
| Lexer.EofIsStable | UwU_src/scanner.cpp:222-228 | once EOF is returned, every further scan returns the same EOF and leaves the cursor and the line unchanged |
| Lexer.Scanner.constructor | UwU_src/scanner.cpp:13-17 | both cursors at the start, on line 1 |
| Lexer.Scanner.Advance | UwU_src/scanner.cpp:24-28 | the cursor moves one place and the character passed is returned |
| Lexer.Scanner.Match | UwU_src/scanner.cpp:41-48 | the cursor moves past the expected character exactly when it is there and the input has not ended |
| Lexer.Scanner.SkipComment | UwU_src/scanner.cpp:78-93 | the cursor ends where CommentEnd says, with the line unchanged |
| Lexer.Scanner.SkipWhitespace | UwU_src/scanner.cpp:64-98 | the cursor and the line end where SkipWs says |
| Lexer.Scanner.ScanIdentifier | UwU_src/scanner.cpp:166-172 | the token and the new state are those IdentifierScan gives |
| Lexer.Scanner.SkipDigits | UwU_src/scanner.cpp:176 | the cursor ends where DigitsEnd says |
| Lexer.Scanner.ScanNumber | UwU_src/scanner.cpp:174-185 | the token and the new state are those NumberScan gives |
| Lexer.Scanner.ScanString | UwU_src/scanner.cpp:187-200 | the token and the new state are those StringScan gives |
| Lexer.Scanner.ScanChar | UwU_src/scanner.cpp:202-220 | the token and the new state are those CharScan gives |
| Lexer.Scanner.ScanToken | UwU_src/scanner.cpp:222-304 | the token and the new state are those NextToken gives |
| Lexer.Scanner.ScanSymbol | UwU_src/scanner.cpp:237-303 | the token and the new state are those SymbolScan gives |
| Compilation.Next | UwU_src/compiler.cpp:287 | `(Precedence)(p + 1)` is the next level up |
| Compilation.GetRule | UwU_src/compiler.cpp:526-587 | EOF has no prefix rule, a token has an infix rule exactly when its precedence is above P_NONE, and no row has P_PRIMARY |
| Compilation.RuleTableShape | UwU_src/compiler.cpp:526-587 | exactly the expression-starting tokens have a prefix rule, and exactly the operators have an infix one |
| Compilation.BinaryOp | UwU_src/compiler.cpp:289-304 | _binary emits an instruction for exactly the tokens whose infix rule is _binary |
| Compilation.BindingOrder | UwU_src/compiler.cpp:16-29 | factors bind tighter than terms, terms than comparisons, and so on down to `ow`, which binds tighter than assignment; a call binds tighter than a unary operator |
| Compilation.Pow10 | UwU_src/compiler.cpp:326 | a power of ten is at least 1 |
| Compilation.DotIndex | UwU_src/compiler.cpp:326 | the position of the first '.', or the length when there is none |
| Compilation.NumberValueExamples | UwU_src/compiler.cpp:324-328 | a number literal denotes its decimal value ("42", "3.25", "0.5") |
| Compilation.Pow10Add | UwU_src/compiler.cpp:326 | powers of ten multiply by adding exponents |
| Compilation.DigitsValueBound | UwU_src/compiler.cpp:326 | a run of n digits is worth less than 10^n |
| Compilation.DigitsValueAppend | UwU_src/compiler.cpp:326 | appending digits multiplies the first run's value by 10 per digit appended, then adds theirs |
| Compilation.IntegerValue | UwU_src/compiler.cpp:324-328 | a lexeme of digits alone denotes the integer they spell |
| Compilation.DecimalValue | UwU_src/compiler.cpp:324-328 | a lexeme `a.b` denotes a plus b over 10 to the length of b, which equals the digits of a and b together over that power; the fraction is below one |
| Compilation.Diagnose | UwU_src/compiler.cpp:80-105 | a report carries the token's line and the message; it is placed at the end for EOF, nowhere for an error token, and at the lexeme otherwise |
| Compilation.ExtendsSelf | UwU_src/compiler.cpp:415-426 | a slot table extends itself |
| Compilation.ExtendsTrans | UwU_src/compiler.cpp:415-426 | adding locals of the current scope twice is adding them once |
| Compilation.ExtendsKeepsTop | UwU_src/compiler.cpp:265-274 | locals added at a depth keep the newest slot no deeper than that depth |
| Compilation.ScopeClosed | UwU_src/compiler.cpp:265-274 | when end_scope's loop stops at a slot of an enclosing scope, exactly the locals of the closed scope are gone |
| Compilation.ScopeStart | UwU_src/compiler.cpp:428-448 | the newest slot of an enclosing scope; every slot above it belongs to the current scope |
| Compilation.JumpToLands | UwU_src/vm.cpp:398-417 | a patched forward jump takes the VM to its target when the distance fits in 16 bits |
| Compilation.PatchedJumpTo | UwU_src/compiler.cpp:247-258 | patching a jump's operand with the chunk length makes it land at that length |
| Compilation.JumpToKept | UwU_src/compiler.cpp:247-258 | a patched jump stays patched when code is appended or a later operand is patched |
| Compilation.LoopToLands | UwU_src/vm.cpp:419-424 | an emitted OP_LOOP takes the VM back to its loop start when the distance fits in 16 bits |
| Compilation.WrapStep | UwU_src/compiler.cpp:512 | incrementing a wrapped uint8_t counter is wrapping the incremented count |
| Compilation.VariableOp | UwU_src/compiler.cpp:452-475 | named_variable's opcode is a set exactly when it stores, and local exactly when the name resolved to a slot |
| Compilation.PatchKeepsPrefix | UwU_src/compiler.cpp:247-258 | patching past the end of a prefix keeps the prefix |
| Compilation.Pops | UwU_src/compiler.cpp:269-272 | n OP_POP bytes |
| Compilation.PopsStep | UwU_src/compiler.cpp:269-272 | one more OP_POP appended to n of them is n + 1 |
| Compilation.Resolve | UwU_src/compiler.cpp:396-413 | the slot found carries the name, or it is -1 |
| Compilation.ResolveNewest | UwU_src/compiler.cpp:398-410 | no slot newer than the one found carries the name |
| Compilation.ResolveIsNewest | UwU_src/compiler.cpp:398-412 | any slot with the name and no newer namesake, or -1 when none has it, is the one found |
| Compilation.Compiler.constructor | UwU_src/compiler.cpp:190-211 | no scope, one local: slot 0 reserved with an empty name at depth 0 |
| Compilation.Compiler.FindLocal | UwU_src/compiler.cpp:398-412 | the search returns a slot with the name and no newer namesake, or -1 |
| Compilation.Compiler.HasDuplicateInScope | UwU_src/compiler.cpp:430-443 | true exactly when a local of the innermost scope has the name |
| Compilation.Parser.constructor | UwU_src/compiler.cpp:891-899 | no error, no panic, no report, both tokens EOF placeholders |
| Compilation.Parser.ErrorAt | UwU_src/compiler.cpp:80-105 | the error flag and panic mode are set; a report is added exactly when panic mode was off |
| Compilation.Parser.ErrorAtPrevious | UwU_src/compiler.cpp:107-110 | error_at on the previous token |
| Compilation.Parser.ErrorIf | UwU_src/compiler.cpp:107-110 | an error at the previous token when the condition holds, nothing at all otherwise |
| Compilation.Parser.ErrorAtCurrent | UwU_src/compiler.cpp:112-115 | error_at on the current token |
| Compilation.Parser.ScanNext | UwU_src/compiler.cpp:124 | the scanner never moves back, and moves on unless it returns EOF |
| Compilation.Parser.Advance | UwU_src/compiler.cpp:117-129 | the current token becomes the previous one; the new current token is no error token; every error token met is reported; progress is made unless at EOF |
| Compilation.Parser.SkipErrors | UwU_src/compiler.cpp:122-128 | the scan is repeated until a token that is not an error; a token that is no error is left alone |
| Compilation.Parser.ReportAndRescan | UwU_src/compiler.cpp:124-127 | the error token is reported, unless in panic mode, and the next token is scanned |
| Compilation.Parser.Consume | UwU_src/compiler.cpp:131-140 | advances past a token of the expected kind; otherwise reports the message at the current token; no code changes |
| Compilation.Parser.Match | UwU_src/compiler.cpp:147-152 | true exactly when the current token has the kind; then it is consumed, otherwise nothing changes |
| Compilation.Parser.EmitByte | UwU_src/compiler.cpp:154-157 | the byte is appended to the current chunk on the previous token's line |
| Compilation.Parser.EmitOp | UwU_src/compiler.cpp:154-157 | the opcode's byte is appended |
| Compilation.Parser.EmitBytes | UwU_src/compiler.cpp:159-163 | the opcode and its operand are appended |
| Compilation.Parser.EmitLoop | UwU_src/compiler.cpp:165-174 | OP_LOOP and the big-endian distance back to the loop start are appended; a distance over 65535 is an error |
| Compilation.Parser.EmitBytes2 | UwU_src/compiler.cpp:159-163 | the two bytes are appended |
| Compilation.Parser.EmitJump | UwU_src/compiler.cpp:176-182 | the opcode and 0xff 0xff are appended, and the result is the index of the first placeholder |
| Compilation.Parser.EmitReturn | UwU_src/compiler.cpp:184-188 | OP_NULL and OP_OUT are appended |
| Compilation.Parser.MakeConstant | UwU_src/compiler.cpp:230-240 | the value is added to the pool; while the pool held at most 255 values, the result is the new index and nothing is reported; past that, the result is 0 and an error is reported |
| Compilation.Parser.EmitConstant | UwU_src/compiler.cpp:242-245 | the value is added to the pool, and OP_CONSTANT is appended with that value's pool index; past index 255 the operand is 0 and an error is reported |
| Compilation.Parser.PatchJump | UwU_src/compiler.cpp:247-258 | exactly the two operand bytes become the high and low bytes of `count - offset - 2`; a distance over 65535 is an error |
| Compilation.Parser.PatchJumpHere | UwU_src/compiler.cpp:247-258 | the patched jump lands at the end of the chunk and no other byte changes |
| Compilation.Parser.BeginScope | UwU_src/compiler.cpp:260-263 | the scope depth goes up by one and no local is added |
| Compilation.Parser.PopLocal | UwU_src/compiler.cpp:269-272 | one OP_POP, and the newest local is dropped |
| Compilation.Parser.EndScope | UwU_src/compiler.cpp:265-274 | the depth goes down by one; exactly the trailing locals deeper than the new depth are removed, with one OP_POP each |
| Compilation.Parser.MarkInitialized | UwU_src/compiler.cpp:625-629 | inside a scope the newest local gets the current depth; at global scope nothing changes |
| Compilation.Parser.AddLocal | UwU_src/compiler.cpp:415-426 | a new local with depth -1 is appended, unless all 256 slots are taken, which is an error with no change |
| Compilation.Parser.CheckDuplicate | UwU_src/compiler.cpp:430-443 | a name already declared in the innermost scope is an error |
| Compilation.Parser.DeclareVariable | UwU_src/compiler.cpp:428-448 | at global scope no local is added; otherwise a duplicate in the scope is an error, and the name gets a new uninitialised slot unless the table is full |
| Compilation.Parser.ResolveLocal | UwU_src/compiler.cpp:396-413 | the newest slot with the name, or -1; reading a local in its own initialiser is an error |
| Compilation.Parser.IdentifierConstant | UwU_src/compiler.cpp:378-388 | the name, interned, is added to the pool, and its index is returned |
| Compilation.Parser.DefineVariable | UwU_src/compiler.cpp:631-640 | at global scope OP_DEFINE_GLOBAL with the name's index; inside a scope no code, and the newest local is initialised |
| Compilation.Parser.ParseVariable | UwU_src/compiler.cpp:615-623 | the identifier is consumed and declared; at global scope the slots are unchanged; inside a scope the result is 0 and a new slot is added, or an error is reported when all 256 are taken |
| Compilation.Parser.Expression | UwU_src/compiler.cpp:647-650 | code is only appended; progress is made; outside panic mode, parsing stopped at a token binding more loosely than assignment; a token with no prefix rule is an error |
| Compilation.Parser.ParsePrecedence | UwU_src/compiler.cpp:589-613 | code is only appended; outside panic mode, the infix loop stopped at a token binding more loosely than the requested precedence; a token with no prefix rule is an error; when assignment is allowed, a `:=` that no variable took is an error |
| Compilation.Parser.InfixLoop | UwU_src/compiler.cpp:602-612 | outside panic mode, the loop ends at a token binding more loosely than the precedence; when assignment is allowed, a `:=` left after the loop is an error |
| Compilation.Parser.Prefix | UwU_src/compiler.cpp:592-600 | the token's prefix rule runs; code is only appended |
| Compilation.Parser.Infix | UwU_src/compiler.cpp:604-606 | the operator's infix rule runs; code is only appended |
| Compilation.Parser.Grouping | UwU_src/compiler.cpp:318-322 | without an error the closing `)` was consumed |
| Compilation.Parser.Unary | UwU_src/compiler.cpp:483-496 | the operand's code ends in OP_NEGATE after `-` and in OP_NOT after `!` |
| Compilation.Parser.Binary | UwU_src/compiler.cpp:282-305 | the code ends in the operator's instruction; outside panic mode, the right operand stops at a token binding no tighter than the operator, which makes operators left-associative |
| Compilation.Parser.Literal | UwU_src/compiler.cpp:307-376 | `true` and `false` emit their opcode; a number, string, character, newline or tab literal adds the value it denotes to the pool and loads it by its pool index (0 with an error past 255) |
| Compilation.Parser.StringLiteral | UwU_src/compiler.cpp:348-358 | the characters between the quotes, interned, are added to the pool and loaded by their pool index (0 with an error past 255) |
| Compilation.Parser.RightOperand | UwU_src/compiler.cpp:330-346 | code is only appended |
| Compilation.Parser.ShortCircuit | UwU_src/compiler.cpp:330-346 | a conditional jump (if-false for `awnd`, if-true for `ow`) followed by OP_POP, patched to land past the right operand |
| Compilation.Parser.ResolveVariable | UwU_src/compiler.cpp:453-465 | local exactly when the name resolves to a slot, which is the operand; otherwise the interned name is added to the pool |
| Compilation.Parser.StoreFollows | UwU_src/compiler.cpp:467 | a store exactly when assignment is allowed and a `:=` follows or this is a read statement |
| Compilation.Parser.NamedVariable | UwU_src/compiler.cpp:450-476 | the code ends in the get or set of the slot or global the name resolves to; a store when assignment is allowed and `:=` follows or this is a read statement |
| Compilation.Parser.Access | UwU_src/compiler.cpp:467-475 | the set, after the new value, or the get, is appended |
| Compilation.Parser.ArgList | UwU_src/compiler.cpp:498-518 | the argument count, wrapped to a byte; more than 255 arguments is an error; `)` at once means none |
| Compilation.Parser.CountArgument | UwU_src/compiler.cpp:507-512 | one more argument, wrapped to a byte, and an error from the 256th on |
| Compilation.Parser.Arguments | UwU_src/compiler.cpp:503-513 | at least one argument, counted and wrapped as arg_list does |
| Compilation.Parser.Call | UwU_src/compiler.cpp:520-524 | OP_CALL with the wrapped argument count is appended |
| Compilation.Parser.ExpressionStatement | UwU_src/compiler.cpp:716-720 | the code ends in OP_POP; a token that starts no expression is an error |
| Compilation.Parser.PrintStatement | UwU_src/compiler.cpp:789-801 | OP_PRINT is emitted; without an error the statement ends with `>>` |
| Compilation.Parser.PrintValue | UwU_src/compiler.cpp:791-792 | the value's code ends in OP_PRINT |
| Compilation.Parser.ReadStatement | UwU_src/compiler.cpp:803-819 | the read instruction for the input type comes first, an unknown input type is an error, and the set of the variable follows |
| Compilation.Parser.ReadInstruction | UwU_src/compiler.cpp:805-812 | exactly the read instruction of the current token is appended, or nothing and an error |
| Compilation.Parser.ReadTarget | UwU_src/compiler.cpp:815-818 | the code ends in a set instruction (local or global) and its operand |
| Compilation.Parser.ReadVariable | UwU_src/compiler.cpp:815-816 | the code ends in a set instruction (local or global) and its operand |
| Compilation.Parser.OutStatement | UwU_src/compiler.cpp:770-787 | corrected out_statement: `out` at the top level is an error; a bare `out >>` emits OP_NULL OP_OUT and consumes the `>>`; otherwise the value's code ends in OP_OUT |
| Compilation.Parser.OutStatementAsWritten | UwU_src/compiler.cpp:770-787 | out_statement as written: a bare `out >>` emits OP_NULL OP_OUT and leaves `>>` as the current token |
| Compilation.Parser.OutAllowed | UwU_src/compiler.cpp:772-775 | `out` at the top level is an error |
| Compilation.Parser.OutValue | UwU_src/compiler.cpp:783-785 | the value's code ends in OP_OUT |
| Compilation.Parser.ConditionJump | UwU_src/compiler.cpp:726-727 | the conditional jump with a placeholder operand, then OP_POP, are appended |
| Compilation.Parser.Synchronize | UwU_src/compiler.cpp:821-837 | stops at a statement keyword or EOF; panic mode is left unless an error token met on the way is reported |
| Compilation.Parser.Declarations | UwU_src/compiler.cpp:902-905 | declarations up to EOF, which is consumed |
| Compilation.Parser.Declaration | UwU_src/compiler.cpp:839-855 | progress is made; a token that starts no declaration is an error; after panic mode, parsing resumes at a statement keyword or EOF |
| Compilation.Parser.DeclarationBody | UwU_src/compiler.cpp:841-852 | the three branches of declaration; locals only extend the scope |
| Compilation.Parser.Statement | UwU_src/compiler.cpp:857-889 | progress is made; without an error, a statement leaves the locals as they were; a token that starts no statement is an error |
| Compilation.Parser.SimpleStatement | UwU_src/compiler.cpp:857-889 | the print, read, out and expression-statement branches |
| Compilation.Parser.CompoundStatement | UwU_src/compiler.cpp:867-884 | the if, loop and block branches make progress and leave the locals as they were |
| Compilation.Parser.ScopedBlock | UwU_src/compiler.cpp:881-883 | a block in its own scope leaves the locals as they were |
| Compilation.Parser.Block | UwU_src/compiler.cpp:652-660 | declarations up to `:]`; without an error the `:]` was consumed |
| Compilation.Parser.BlockDeclaration | UwU_src/compiler.cpp:654-657 | one declaration of a block only adds locals of the scope |
| Compilation.Parser.BlockAfterCondition | UwU_src/compiler.cpp:729-732 | `[:` and a scoped block; the locals are as they were |
| Compilation.Parser.IfStatement | UwU_src/compiler.cpp:722-748 | the condition's jump-if-false lands just past the else jump's operand, and the else jump lands at the end; each is followed by OP_POP; an over-long jump is an error |
| Compilation.Parser.IfBranches | UwU_src/compiler.cpp:729-747 | the same landing facts, once the condition is emitted |
| Compilation.Parser.ThenBranch | UwU_src/compiler.cpp:729-737 | the condition's jump lands just past the else jump's operand |
| Compilation.Parser.ExitJump | UwU_src/compiler.cpp:734-737 | OP_JUMP with a placeholder, the patch of the condition's jump, then OP_POP |
| Compilation.Parser.ElseBranch | UwU_src/compiler.cpp:739-747 | the else jump lands at the end of the statement |
| Compilation.Parser.ElseBlock | UwU_src/compiler.cpp:739-745 | the optional else block leaves the locals as they were |
| Compilation.Parser.LoopStatement | UwU_src/compiler.cpp:750-768 | the exit jump-if-true lands on the final OP_POP, and OP_LOOP lands on the condition's start; an over-long jump is an error |
| Compilation.Parser.Condition | UwU_src/compiler.cpp:724-727 | the condition, then its jump with a placeholder and OP_POP |
| Compilation.Parser.LoopRest | UwU_src/compiler.cpp:759-767 | the same landing facts, once the condition is emitted |
| Compilation.Parser.LoopEnd | UwU_src/compiler.cpp:764-767 | OP_LOOP back to the start, the exit jump patched onto the OP_POP that follows |
| Compilation.Parser.VariableDeclaration | UwU_src/compiler.cpp:700-714 | at global scope the slots are unchanged and the code ends in OP_DEFINE_GLOBAL; inside a scope, unless the slots are full, one local initialised at the current depth is added |
| Compilation.Parser.Initializer | UwU_src/compiler.cpp:704-711 | without `:=`, exactly OP_NULL is appended |
| Compilation.Parser.FunctionDeclaration | UwU_src/compiler.cpp:692-698 | at global scope the code ends in OP_DEFINE_GLOBAL; inside a scope the name becomes a local initialised at the current depth |
| Compilation.Parser.FunctionDefinition | UwU_src/compiler.cpp:696-697 | the function's OP_CONSTANT, then OP_DEFINE_GLOBAL at global scope |
| Compilation.Parser.FunctionName | UwU_src/compiler.cpp:694-695 | the name is declared and, as a local, initialised at once, so the body can call it |
| Compilation.Parser.FunctionBody | UwU_src/compiler.cpp:662-690 | OP_CONSTANT and a new pool entry naming a new function whose code ends in the implicit return; more than 255 parameters is an error |
| Compilation.Parser.FunctionRest | UwU_src/compiler.cpp:668-689 | the enclosing record is current again; its code gains the OP_CONSTANT of the compiled function; that function's code ends in OP_NULL OP_OUT; more than 255 parameters is an error |
| Compilation.Parser.BeginFunction | UwU_src/compiler.cpp:664-666 | a fresh compiler record enclosing the old one, with scope depth 1, an empty chunk and the function's name unless it is the script |
| Compilation.Parser.NewRecord | UwU_src/compiler.cpp:190-211 | a fresh function (named after the previous token unless it is the script) and its record, at depth 0 with slot 0 reserved |
| Compilation.Parser.FunctionSignature | UwU_src/compiler.cpp:668-686 | the arity only grows; more than 255 parameters is an error |
| Compilation.Parser.ParameterList | UwU_src/compiler.cpp:668-683 | the arity only grows; more than 255 parameters is an error |
| Compilation.Parser.FunctionBlock | UwU_src/compiler.cpp:685-686 | `[:` and the body block; code is only appended |
| Compilation.Parser.Parameters | UwU_src/compiler.cpp:671-681 | at least one parameter, each counted in the arity; more than 255 is an error |
| Compilation.Parser.Parameter | UwU_src/compiler.cpp:673-680 | the arity goes up by one, and past 255 it is an error |
| Compilation.Parser.CountParameter | UwU_src/compiler.cpp:673-677 | the arity goes up by one; past 255 an error at the current token |
| Compilation.Parser.ParameterName | UwU_src/compiler.cpp:679-680 | code is only appended and the scope depth is unchanged |
| Compilation.Parser.FunctionValue | UwU_src/compiler.cpp:688-689 | the function's code gains the implicit return, and the enclosing code loads it as a new constant |
| Compilation.Parser.EndCompiler | UwU_src/compiler.cpp:213-228 | OP_NULL OP_OUT is appended to the function, the enclosing record becomes current, and the function is returned |
| Compilation.Parser.Script | UwU_src/compiler.cpp:900-907 | every declaration, then the script's code ends in OP_NULL OP_OUT |
| Compilation.Parser.BareOutAsWritten | UwU_src/compiler.cpp:777-780 | as written, the declaration after a bare `out >>` starts at the `>>` and reports an error |
| Compilation.Compile | UwU_src/compiler.cpp:891-909 | there is no result exactly when a report was written; otherwise the result is the script function, unnamed with arity 0, whose code ends in the implicit return |
| Machine.IsFalsy | UwU_src/vm.cpp:126-129 | falsy exactly for false, the number 0 and null |
| Machine.NumberOp | UwU_src/vm.cpp:228-239 | division fails exactly on a zero divisor; arithmetic gives numbers and comparisons booleans |
| Machine.Trace | UwU_src/vm.cpp:32-52 | one trace line per frame, the newest first |
| Machine.LineOf | UwU_src/vm.cpp:36-48 | the line of the frame's ip in its function's line table |
| Machine.VM.constructor | UwU_src/vm.cpp:57-61 | an empty stack, no frames, no globals, no output and no reports |
| Machine.VM.Push | UwU_src/vm.cpp:70-74 | the live stack gains the value on top |
| Machine.VM.Pop | UwU_src/vm.cpp:76-80 | the top value is returned and removed from the live stack |
| Machine.VM.Peek | UwU_src/vm.cpp:82-85 | the value `distance` below the top |
| Machine.VM.PushThenPop | UwU_src/vm.cpp:70-80 | a push and a pop give back the value, and the stack is as it was |
| Machine.VM.ResetStack | UwU_src/vm.cpp:16-20 | the stack and the frames are emptied |
| Machine.VM.RuntimeError | UwU_src/vm.cpp:22-55 | one report of the message and the trace of all frames, then the stack and frames are emptied |
| Machine.VM.ReadByte | UwU_src/vm.cpp:224 | the byte at the ip, which moves past it; a Fault past the end of the code |
| Machine.VM.ReadShortOperand | UwU_src/vm.cpp:225 | the big-endian operand at the ip, which moves past both bytes |
| Machine.VM.ReadConstant | UwU_src/vm.cpp:226 | the pool entry whose index is the next byte |
| Machine.VM.ReadName | UwU_src/vm.cpp:227 | the object named by the next constant |
| Machine.VM.PushValue | UwU_src/vm.cpp:259-267 | the value is pushed; a Fault on a full stack |
| Machine.VM.PopValue | UwU_src/vm.cpp:269 | the top value is dropped |
| Machine.VM.Equal | UwU_src/vm.cpp:320-326 | the two top values are replaced by whether values_equal holds of them |
| Machine.VM.Binary | UwU_src/vm.cpp:228-239 | two numbers are replaced by the operator's result; a non-number on top, or below a number, is a runtime error |
| Machine.VM.NumberBinary | UwU_src/vm.cpp:236-238 | the two numbers are replaced by NumberOp of them |
| Machine.VM.Add | UwU_src/vm.cpp:333-351 | two strings or characters are replaced by their interned concatenation, two numbers by their sum; anything else is a runtime error |
| Machine.VM.AddText | UwU_src/vm.cpp:335-338 | a text operand below a text top is concatenated; anything else below is a runtime error |
| Machine.VM.AddNumbers | UwU_src/vm.cpp:339-349 | two numbers are added; anything else is a runtime error |
| Machine.VM.Not | UwU_src/vm.cpp:356-358 | the top value is replaced by whether it is falsy |
| Machine.VM.Negate | UwU_src/vm.cpp:360-369 | a number on top is negated; anything else is a runtime error |
| Machine.VM.Print | UwU_src/vm.cpp:371-375 | the top value is popped and appended to the output |
| Machine.VM.CharToString | UwU_src/vm.cpp:131-146 | a character becomes a new, non-interned one-character string; a string is itself |
| Machine.VM.Concatenate | UwU_src/vm.cpp:148-161 | the two text operands are replaced by the interned string of the lower one's characters followed by the upper one's |
| Machine.VM.ReadString | UwU_src/vm.cpp:377-382 | the next input line, interned, is pushed; a Fault at the end of input |
| Machine.VM.ReadNumber | UwU_src/vm.cpp:384-389 | the next input number is pushed, or 0 at the end of input |
| Machine.VM.ReadChar | UwU_src/vm.cpp:391-396 | the next input character is pushed; a Fault at the end of input |
| Machine.VM.GetLocal | UwU_src/vm.cpp:271-276 | the value in the frame's slot is pushed |
| Machine.VM.SetLocal | UwU_src/vm.cpp:278-283 | the top value is copied into the frame's slot and stays on the stack |
| Machine.VM.GetGlobal | UwU_src/vm.cpp:285-297 | the global's value is pushed; an undefined name is a runtime error |
| Machine.VM.SetGlobal | UwU_src/vm.cpp:299-310 | an existing global takes the top value, which is not popped; an undefined name is a runtime error |
| Machine.VM.DefineGlobal | UwU_src/vm.cpp:312-318 | the top value is popped into a new global; an existing global keeps its value |
| Machine.VM.Jump | UwU_src/vm.cpp:398-403 | the ip moves forward by the offset |
| Machine.VM.JumpIf | UwU_src/vm.cpp:405-417 | the ip moves forward exactly when the top value's falsiness matches the instruction; the value is not popped |
| Machine.VM.Loop | UwU_src/vm.cpp:419-424 | the ip moves back by the offset |
| Machine.VM.CallFunction | UwU_src/vm.cpp:87-107 | an arity mismatch and a full frame array are runtime errors; otherwise a new frame starts at code offset 0 with slot 0 at the callee below the arguments |
| Machine.VM.CallValue | UwU_src/vm.cpp:109-124 | only a function object can be called; anything else is a runtime error |
| Machine.VM.Call | UwU_src/vm.cpp:428-437 | the callee below the arguments is called |
| Machine.VM.Out | UwU_src/vm.cpp:439-454 | the result is popped and the frame dropped; after the last frame the script is popped and run returns OK; otherwise the stack is cut back to the frame's slot 0 and the result pushed there |
| Machine.VM.ExecuteDataOp | UwU_src/vm.cpp:259-318 | the constant, local and global instructions keep the outcome invariant and have their data effect, which fixes the whole machine state on every path but a Fault |
| Machine.VM.ConstantOp | UwU_src/vm.cpp:259-264 | the constant the operand byte indexes is pushed and the ip moves past the operand; the frame count, globals, output, console replies and heap stay |
| Machine.VM.LocalOp | UwU_src/vm.cpp:271-283 | the value of the frame slot the operand names is pushed, or the top value is copied into that slot and stays on the stack; nothing else changes |
| Machine.VM.GlobalOp | UwU_src/vm.cpp:285-318 | the global named by the operand's constant is pushed, or set to the top value, or (when new) defined from the top value, which is popped either way; getting or setting an undefined name reports its message, with the globals, the output, the console replies and the heap unchanged; nothing else changes |
| Machine.VM.ExecuteControlOp | UwU_src/vm.cpp:398-454 | the jump, call and return instructions keep the outcome invariant and have their control effect, which fixes the whole machine state on every path but a Fault |
| Machine.VM.JumpOp | UwU_src/vm.cpp:398-424 | OP_JUMP moves the ip forward by the big-endian offset, counted from past the operand; OP_LOOP moves it back by the offset; nothing else changes |
| Machine.VM.JumpIfOp | UwU_src/vm.cpp:405-417 | the conditional jumps take the offset exactly when the top value's falsiness matches the instruction's, and leave the value on the stack; nothing else changes |
| Machine.VM.CallOp | UwU_src/vm.cpp:428-437 | the value below the argument count's arguments gets a new frame at ip 0 with its slot 0 there, the stack kept; or the non-callable, arity or overflow message is reported; nothing else changes |
| Machine.VM.OutOp | UwU_src/vm.cpp:439-454 | the result replaces the returning frame's slots and the caller resumes; after the last frame the script is popped, the stack array kept, and the run ends OK; nothing else changes |
| Machine.VM.ExecuteStackOp | UwU_src/vm.cpp:266-396 | the stack, arithmetic and console instructions keep the outcome invariant and have their stack effect, leaving the frames untouched and fixing the whole machine state on every path but a Fault |
| Machine.VM.ValueOp | UwU_src/vm.cpp:266-358 | OP_TRUE, OP_FALSE and OP_NULL push their value, OP_POP drops the top, OP_EQUAL replaces two values by their equality, OP_NOT the top by its falsiness; nothing else changes |
| Machine.VM.ConsoleOp | UwU_src/vm.cpp:371-396 | OP_PRINT writes the popped top value; the reads push the next line (interned), number (0 at the end) or character and consume it from their own queue only; nothing else changes, except that reading a line can add its string to the heap |
| Machine.VM.AddOp | UwU_src/vm.cpp:333-350 | two strings or characters become their interned concatenation (the heap's objects and table only grow), two numbers their sum with the heap unchanged, other pairs report the operand message; nothing else changes |
| Machine.VM.NegateOp | UwU_src/vm.cpp:360-369 | a number on top is negated; anything else reports the operand message; nothing else changes |
| Machine.VM.BinaryOp | UwU_src/vm.cpp:328-354 | two numbers are replaced by the operator's result; a non-number reports the operand message; nothing else changes |
| Machine.VM.Execute | UwU_src/vm.cpp:257-455 | every opcode with a case in run's switch keeps the outcome invariant and has the effect of its case, which fixes the whole machine state on every path but a Fault |
| Machine.VM.Step | UwU_src/vm.cpp:256-455 | one instruction keeps the outcome invariant; a fetch past the end of the code is a Fault; OP_NOT_EQUAL, OP_NEW_LINE, OP_RETURN and non-opcode bytes only move the ip past themselves; every other opcode has the effect of its case, with its operands just after it, and changes nothing its case does not |
| Machine.VM.Run | UwU_src/vm.cpp:220-463 | steps until the program finishes or faults, keeping the outcome invariant |
| Machine.Interpret | UwU_src/vm.cpp:465-474 | a compile error exactly when the compiler wrote a report, and then the stack, its top, the frames and their count, the globals, the output, the console replies and the runtime reports are unchanged; a runtime error leaves the stack and frames empty and adds a report; OK leaves no frame |

The effect of an instruction (`Machine.VM.Effect`) compares the machine
after it with a snapshot taken before it (`Machine.Before`). The snapshot
holds everything but the active frame's ip, because Step reads the opcode
byte before the instruction starts. The effect is split into
`DataEffect`, `ControlEffect` and `StackEffect`. On every path but a Fault,
it states the whole state after the instruction (`Machine.State`, taken by
`VM.Now`) as the snapshot's state (`Before.At`) with the instruction's own
changes applied, so every field it does not name is unchanged.

The outcome invariant of the dispatch, `Step` and `Run` rows
(`Machine.VM.Outcome`) says:

- the machine stays valid;
- a running machine has a frame and has written no report;
- a runtime error adds exactly one report and empties the stack and the
  frames;
- a finished program leaves no frame.

## Left out

- `main.cpp` is not part of this model. It holds command-line handling, the
  REPL, file reading and exit codes.
- `timer.h` (wall-clock timing) and `debug.cpp` (the disassembler and the
  execution trace, `DEBUG_PRINT_CODE`, `DEBUG_TRACE_EXECUTION`) are printing
  only and are not modelled.
- `natives.cpp` / `natives.h` are not modelled. They are floating-point
  algorithms that are never wired in: no object type holds a native, and
  `call_value` calls only functions.
- `memory.cpp`'s `reallocate` and `free_objects`, and `freeVM`, are not
  modelled. Dafny allocation replaces them, and the model never frees an
  object. Only the `GROW_CAPACITY` arithmetic is kept (`Memory.GrowCapacity`).
- Output is abstracted:
  - `print_value` and its `%.15g` formatting become an output log of values
    (`VM.output`).
  - The stderr reports of the compiler and the VM become lists of
    diagnostics. Each is the format string and the line or trace; the
    `printf` formatting is not modelled.
- Compilation.Parser.ReportAndRescan: the report for an error token is the
  token's lexeme. In the source, `advance` (`compiler.cpp:126`) passes
  `parser.current.start()` to `error_at` as the format string. For a scanner
  message, that string is the message itself. For a '?' word, which
  `make_token(T_ERROR)` builds, it is a pointer into the source: `fprintf`
  prints the whole rest of the program from the word up to the NUL, and
  formats any `%` in it. The model records only the word.
- Console input (`read_string`, `read_number`, `read_char`) becomes three
  queues of the replies these routines return: lines, numbers and
  characters. Their character-by-character loops and buffer growth are not
  modelled.
- Machine.VM.ReadNumber: pushes the queued number, and 0 once the queue is
  empty. It does not model `strtod` on the characters typed, nor the
  early `return 0` on a non-number character.
- Floating point is not modelled: numbers are `real`.
  - Compilation.NumberValue is the exact decimal value of a number lexeme, not
    the nearest double. It also reads the lexeme alone, where `strtod` at
    `compiler.cpp:326` reads on into the source text after it. An exponent
    (`1e5`, whose `e5` the scanner makes an identifier) or a hex prefix
    (`0x10`) therefore gives 100000 and 16 in the source, but 1 and 0 here.
    Tokens carry no source position in the model, so the text after a
    lexeme is not available to it.
  - Machine.NumberOp: dividing by zero is a Fault here. The source gets an
    IEEE infinity or NaN, which `real` cannot represent.
- Machine.IsFalsy: a character or an object has its union's number field
  unset. It is modelled as truthy, and nothing more is claimed about those
  bytes.
- Machine.VM.Run: its contract is the outcome invariant across the whole run.
  What each instruction does is stated by `Step`, not composed into a
  statement about the run.
- Machine.VM.Step: after a Fault, which stands for behaviour the source
  leaves undefined, the effects state nothing about the machine.
- Machine.VM.AddOp: on the concatenation path, it states that the heap's
  objects and intern table only grow and that the result is an interned
  string with the right characters. It does not state the new allocation
  list, nor which objects were added.
- Machine.VM.ConsoleOp: for OP_READ_STRING, it states the heap only as
  AddOp does.
- Machine.VM.Step: for a runtime error, the effects state the message
  reported, not the trace. The trace is stated by the instruction methods
  (`Machine.VM.Raised`).
- Machine.VM.Run: it runs at most `fuel` instructions. The source loops
  until the program returns or fails, and Running means the fuel ran out. A
  program that never ends is not modelled.
- Lexer.Scanner.Advance: it requires that the cursor is not at the end of
  input, and every caller in the model meets this. The one place where the
  source advances past the end is the comment loop described under
  Findings. That loop is modelled on values by `CommentEndAsWritten`, not
  as a method.
- Compilation.Parser.ParameterName: states only that code is appended and the
  depth kept. That the parameter gets a slot is stated by `ParseVariable`
  and `DefineVariable`, which it calls, but not repeated in its own contract.
- Compilation.Parser.RightOperand: states only that code is appended. It
  exists to keep the rule-table facts of `ParsePrecedence` out of
  `ShortCircuit`'s proof.
- Lexer.CharScan: source text is modelled as a sequence of characters, not
  of bytes. A non-ASCII character is one character here but several bytes
  in UTF-8 in the source. So a backtick literal holding such a character,
  such as `é`, is a valid character token here. `scanner.cpp:207-213`
  reaches the closing backtick more than two bytes after the opening one
  and returns "invawid chawactew towken.".
- Lexer.Scanner.ScanChar: it equals `CharScan`, and has the same
  characters-for-bytes difference.
- Lexer.SymbolScan: with the same difference, a non-ASCII character outside
  a literal gives one unexpected-character error here, where the source
  gives one per byte. In a string literal, the lexeme holds the same text,
  but its length counts characters rather than bytes.
- Compilation.Parser.SimpleStatement: its out branch calls the corrected
  `OutStatement` (see Findings), not `OutStatementAsWritten`. So do
  Compilation.Compile and Machine.Interpret, which run the whole compile
  pipeline through it. A function holding a bare `out >>`, such as
  `fwun f() [: out >> :]`, compiles with no report here. In the source,
  `compiler.cpp:777-780` leaves `>>` as the current token, the next
  declaration fails on it with "expwession expected.", and `compile`
  returns NULL. The as-written behaviour is stated on its own by
  `BareOutAsWritten`.
- Compilation.Compile: its pipeline runs the corrected out statement, as
  stated for SimpleStatement above.
- Machine.Interpret: its pipeline runs the corrected out statement, as
  stated for SimpleStatement above.
- A NUL byte inside the source text ends the input, as it does in C.
  `Lexer.At` reads NUL at and beyond the end of the string.
- Chunks.Chunk.LineAt: the source's `lindex` field is written by `init` and
  never read, so it is not modelled.
- The VM's `chunk` and `ip` fields in `vm.h`, which `run` never uses, are
  not modelled.
- Stack balance of whole programs is not claimed:
  - `OP_NOT_EQUAL` is emitted but does nothing in the VM.
  - `read_statement` leaves the read value on the stack after its set.
- Concurrency is absent from the source, and so from the model.

## Findings

| source | as written | input that shows it | evidently intended | confidence | as-written member | corrected member |
|---|---|---|---|---|---|---|
| UwU_src/scanner.cpp:82-86 | the comment loop of `skip_whitespace` calls `match(':')` and then `advance()` when no `}` follows. When the `:` is the last character of the input, the `advance` moves past the terminating NUL, and the loop goes on reading beyond the buffer | the source text `{: :` | stop at the end of input inside an unterminated comment | high, not executed | Lexer.CommentEndAsWritten, Lexer.CommentOverrunsOnTrailingColon | Lexer.CommentEnd, Lexer.CommentEndAgrees |
| UwU_src/compiler.cpp:777-780 | `out_statement` tests for `>>` with `check` instead of `match`. A bare `out >>` emits the implicit return but leaves `>>` as the next token, and the next declaration then fails on it | the source text `fwun f() [: out >> :]` | `out >>` returns null from the function, with no error | medium, not executed | Compilation.Parser.OutStatementAsWritten, Compilation.Parser.BareOutAsWritten | Compilation.Parser.OutStatement |
