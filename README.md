# RV64 PPAC code generator, modelled in Dafny

This project models the HeteroCL backend that prints lowered TVM IR as C-like
source for the RV64 PPAC target (`CodeGenRV64PPAC`). Four pieces are covered:

- the scalar type mapper `PrintType`;
- the let-statement printer, which drops host-side argument unpacking;
- the conditional printer, which drops host-side null checks and adds
  parentheses only where the condition does not already look parenthesised;
- `AddFunction`, which writes `void name(params) {`, the body one scope deeper
  and the closing brace.

Layout:

- `types.dfy`
  - `IrTypes`: the type descriptor (class, bits, fractional bits, lanes).
  - `TypeMap`: `TypeName`, the mapper as a function, with the lemmas about the
    C type each name denotes.
- `text.dfy` (module `Text`): prefix/suffix/occurrence tests, the two-space
  indentation, separated lists, and the null-check pattern
  `!\((arg)(.+)(== NULL)\)` written as a predicate.
- `ir.dfy`
  - `Ir`: variables, statements and lowered functions.
  - `Names`: the inherited variable-id table.
- `emission.dfy` (module `Emission`): the spec functions. They say what is
  written for a statement (`EmitStmt`, `EmitLet`, `EmitIf`, `EmitElse`) and
  for a function (`FunctionText`). Each starts from a scope depth and a name
  table, and returns:
  - the text written;
  - the table afterwards;
  - the warnings logged.
- `codegen.dfy` (module `CodeGen`): the class `CodeGenRV64PPAC`.
  - Fields: the output stream, the scope depth and the name table, all
    updated in place.
  - A ghost field holds the warnings logged.
  - Every printing method is proved to append exactly what `Emission` says,
    to leave the depth as it found it, and to keep the table injective.

The inherited members are methods of the class, each stated by its contract:

- `AllocVarID`:
  - a variable keeps the id it got first;
  - a new variable gets its hint, extended by `_` until it is unused, so ids
    of distinct variables differ.
- `BeginScope`/`EndScope`: a depth counter.
- `PrintIndent`: two spaces per open scope.
- `PrintStmt`: hands let statements and conditionals to the visitors. It also
  handles a sequence of two statements, any other statement as one indented
  line, and a statement that prints nothing.

Expressions appear as the text the expression printer renders for them. A
type's own textual form (`os << t`) is a parameter `dump`; every lemma holds
for every `dump`.

Where the code is more precise than a plain reading, the model follows the
code:

- The over-64-bit fixed-point cases have no `return`, so the clamped name is
  followed by the dump (`UnnamedDumps`).
- The else branch continues with the names the then branch allocated, because
  both share the one table.

## Model

| member | source | states |
|---|---|---|
| TypeMap.TypeName | tvm/src/codegen/codegen_rv64_ppac.cc:128-206 | the name written for a one-lane descriptor; its meaning is stated by the five lemmas below |
| TypeMap.NamedTypeHolds | tvm/src/codegen/codegen_rv64_ppac.cc:128-205 | every descriptor with a name of its own maps to a C type that holds all of its values: `void*` for handles, the float of its width, and an integer type of its signedness at least as wide (a 1-bit `uint` is held in the plain, signed `int`) |
| TypeMap.NamedIgnoresDump | tvm/src/codegen/codegen_rv64_ppac.cc:131-200 | for a named descriptor the text does not depend on the descriptor dump |
| TypeMap.IntIsNarrowest | tvm/src/codegen/codegen_rv64_ppac.cc:141-163 | a 1-bit int or uint is `int`, and no other width is; otherwise it is the narrower of the 32- and 64-bit types that fits, with the descriptor's signedness |
| TypeMap.FixedIsNarrowest | tvm/src/codegen/codegen_rv64_ppac.cc:171-200 | a fixed or ufixed type without fractional bits and of at most 64 bits gets the narrowest of the 8/16/32/64-bit types that fits, with its signedness, and never the plain `int` |
| TypeMap.UnnamedDumps | tvm/src/codegen/codegen_rv64_ppac.cc:184-206 | an unnamed descriptor prints just the dump, except an over-wide fixed type without fractions, which prints `uint64_t`/`int64_t` followed by the dump |
| CodeGen.CodeGenRV64PPAC.PrintType | tvm/src/codegen/codegen_rv64_ppac.cc:128-208 | requires one lane; appends the type's name and logs a cast warning exactly for the clamped over-wide fixed types |
| Text.NullCheckIsPattern | tvm/src/codegen/codegen_rv64_ppac.cc:106 | the prefix/suffix test accepts exactly `"!(arg" + m + "== NULL)"` for a non-empty `m` without line terminators, i.e. the strings the regular expression fully matches |
| Names.FreshName | tvm/src/codegen/codegen_rv64_ppac.cc:90 | the loop finds the first extension of the hint by `_` characters that no variable uses yet |
| Names.Alloc | tvm/src/codegen/codegen_rv64_ppac.cc:90 | the id of a variable and the table after allocating it; its properties are stated by `AllocSpec` and `AllocIdempotent` |
| Names.AllocSpec | tvm/src/codegen/codegen_rv64_ppac.cc:90 | the id allocated is what the table now maps the variable to; a new variable gets an unused name starting with its hint; the table gains only that entry and stays injective |
| Names.AllocIdempotent | tvm/src/codegen/codegen_rv64_ppac.cc:90 | allocating the same variable twice returns the same id and leaves the table unchanged |
| CodeGen.CodeGenRV64PPAC.AllocVarID | tvm/src/codegen/codegen_rv64_ppac.cc:90 | updates the table in place as `Alloc` says and keeps it injective |
| Names.AllocFirstNamed | tvm/src/codegen/codegen_rv64_ppac.cc:29-31 | after the first `n` arguments are allocated in order, each is named by its own id, earlier entries are kept, and the table is injective |
| Names.ArgIdsDistinct | tvm/src/codegen/codegen_rv64_ppac.cc:29-31 | two arguments get the same id exactly when they are the same variable |
| Emission.EmitStmt | tvm/src/codegen/codegen_rv64_ppac.cc:87-126 | what printing a statement writes, the table after it and its warnings: a let or a conditional as `EmitLet` or `EmitIf`, the parts of a block in order with the table passed on, any other line indented at the depth; its properties are stated by `EmitKeepsNames` and `EmitIndented` |
| Emission.EmitLet | tvm/src/codegen/codegen_rv64_ppac.cc:87-101 | the variable is allocated, the declaration line is written when `Declares` holds, and the body follows at the same depth; its properties are stated by `LetStmtEmits` and `ArgAccessorSkipped` |
| Emission.EmitIf | tvm/src/codegen/codegen_rv64_ppac.cc:103-126 | nothing for a host null check; otherwise the header, the then branch one scope deeper, the else part and the closing brace; its properties are stated by `NullCheckSkipped`, `IfStmtEmits` and `ScopesNest` |
| Emission.EmitElse | tvm/src/codegen/codegen_rv64_ppac.cc:117-123 | nothing without an else branch; otherwise `} else {` at the conditional's depth and the else branch one scope deeper, continuing the then branch's table; `IfStmtEmits` states it |
| Emission.LetStmtEmits | tvm/src/codegen/codegen_rv64_ppac.cc:87-101 | the variable always gets an id; a line is written before the body exactly when the type is not `Handle()`, the value lacks `TVMArray` and does not start with `arg`, and that line is `indent + type + " " + id + " = " + value + ";\n"` |
| Emission.ArgAccessorSkipped | tvm/src/codegen/codegen_rv64_ppac.cc:91-93 | a value starting with `arg` writes only the body |
| CodeGen.CodeGenRV64PPAC.VisitLetStmt | tvm/src/codegen/codegen_rv64_ppac.cc:87-101 | appends exactly `EmitLet`'s text, leaves the table and the warnings as it says, and restores the depth |
| CodeGen.CodeGenRV64PPAC.PrintDecl | tvm/src/codegen/codegen_rv64_ppac.cc:94-98 | appends the indented declaration line and the type's cast warning |
| Emission.IfHeaderGuard | tvm/src/codegen/codegen_rv64_ppac.cc:109-113 | the header is `if <cond> {` when the condition's first character is `(` and its last is `)`, and `if (<cond>) {` otherwise; the test is textual, so `(a) && (b)` is kept as is; the guarded condition always passes the test, so guarding twice changes nothing |
| Emission.NullCheckSkipped | tvm/src/codegen/codegen_rv64_ppac.cc:104-107 | a condition matching the null-check pattern writes nothing, allocates nothing and logs nothing, whatever its branches hold; nothing is asked of those branches, since they are never printed |
| Emission.IfStmtEmits | tvm/src/codegen/codegen_rv64_ppac.cc:108-125 | any other conditional writes the header, the then branch one scope deeper, `} else {` and the else branch exactly when there is one, and the closing brace at its own depth |
| CodeGen.CodeGenRV64PPAC.VisitIfThenElse | tvm/src/codegen/codegen_rv64_ppac.cc:103-126 | appends exactly `EmitIf`'s text, returns at once for a null check, and leaves the depth as it was |
| CodeGen.CodeGenRV64PPAC.PrintIfThen | tvm/src/codegen/codegen_rv64_ppac.cc:108-116 | appends the indented header and the then branch written one scope deeper |
| CodeGen.CodeGenRV64PPAC.PrintIfHeader | tvm/src/codegen/codegen_rv64_ppac.cc:108-113 | appends the indented header chosen by the parenthesis test |
| CodeGen.CodeGenRV64PPAC.PrintElse | tvm/src/codegen/codegen_rv64_ppac.cc:117-123 | appends `} else {` and the else branch one scope deeper when there is one, and nothing otherwise |
| CodeGen.CodeGenRV64PPAC.PrintElseHeader | tvm/src/codegen/codegen_rv64_ppac.cc:118-119 | appends the indented line `} else {` |
| CodeGen.CodeGenRV64PPAC.PrintClose | tvm/src/codegen/codegen_rv64_ppac.cc:124-125 | appends the indented closing brace |
| Emission.EmitKeepsNames | tvm/src/codegen/codegen_rv64_ppac.cc:87-126 | printing any statement only adds ids: every id given out before keeps its name, and the table stays injective |
| Emission.EmitIndented | tvm/src/codegen/codegen_rv64_ppac.cc:94-125 | whatever a statement writes is empty, or begins with the indentation of the depth it is printed at and ends a line |
| Emission.ScopesNest | tvm/src/codegen/codegen_rv64_ppac.cc:108-125 | a conditional that is not a null check begins with its header and ends with its closing brace, both at its own indentation, while its then branch and its else branch are each written at the next indentation |
| CodeGen.CodeGenRV64PPAC.BeginScope | tvm/src/codegen/codegen_rv64_ppac.cc:114 | opens a scope: returns the depth before it as the scope's id and increases the depth by one |
| CodeGen.CodeGenRV64PPAC.EndScope | tvm/src/codegen/codegen_rv64_ppac.cc:116 | closes the innermost scope: requires it to be the scope opened last and restores the depth to its id |
| CodeGen.CodeGenRV64PPAC.PrintIndent | tvm/src/codegen/codegen_rv64_ppac.cc:108 | appends two spaces per open scope |
| CodeGen.CodeGenRV64PPAC.PrintStmt | tvm/src/codegen/codegen_rv64_ppac.cc:100 | appends exactly `EmitStmt`'s text for every statement kind and leaves the depth as it was |
| CodeGen.CodeGenRV64PPAC.PrintScoped | tvm/src/codegen/codegen_rv64_ppac.cc:114-116 | a statement printed between `BeginScope` and `EndScope` is written one scope deeper, and the depth is restored |
| Emission.Param | tvm/src/codegen/codegen_rv64_ppac.cc:33-42 | one parameter: the side-table's element type, `*`, a space and the side-table's name when the argument's id is in the side-table, else the argument's own type and id; `PrintParam` is proved to write it and `SignatureParams` joins these |
| CodeGen.CodeGenRV64PPAC.PrintParam | tvm/src/codegen/codegen_rv64_ppac.cc:33-42 | an id missing from the side-table gives the argument's own type and id with a type-not-found warning; otherwise the side-table's element type, `*`, a space and the side-table's name |
| CodeGen.CodeGenRV64PPAC.PrintSeparated | tvm/src/codegen/codegen_rv64_ppac.cc:32-42 | appends `, ` unless the argument is the first, then its parameter |
| CodeGen.CodeGenRV64PPAC.AllocArg | tvm/src/codegen/codegen_rv64_ppac.cc:30-31 | the id allocated for argument `i` is its id among all the arguments' ids, and the table becomes the one for the first `i + 1` arguments |
| CodeGen.CodeGenRV64PPAC.PrintArg | tvm/src/codegen/codegen_rv64_ppac.cc:30-42 | one loop iteration: after the first `i` parameters, the first `i + 1` parameters and their warnings have been written |
| CodeGen.CodeGenRV64PPAC.PrintParams | tvm/src/codegen/codegen_rv64_ppac.cc:29-55 | the loop writes the signature's parameter list, allocates the arguments' ids in order, and logs their warnings |
| Emission.SigTextJoins | tvm/src/codegen/codegen_rv64_ppac.cc:29-55 | the first `n` parameters written one by one are the first `n` parameters joined by `, ` |
| Emission.SignatureParams | tvm/src/codegen/codegen_rv64_ppac.cc:27-42 | for any number of arguments, the parameter list is the parameters joined by `, ` (empty when there are none): the first one with no separator, then `, ` before each further one; each parameter is taken from the side-table or from the argument's own type |
| CodeGen.CodeGenRV64PPAC.InitFuncState | tvm/src/codegen/codegen_rv64_ppac.cc:21 | starts the function with an empty name table |
| CodeGen.CodeGenRV64PPAC.PrintSignature | tvm/src/codegen/codegen_rv64_ppac.cc:21-56 | starts a fresh name table and appends `void name(`, the parameter list and `) {` |
| CodeGen.CodeGenRV64PPAC.PrintFunctionClose | tvm/src/codegen/codegen_rv64_ppac.cc:61-62 | appends the indented closing brace and a blank line |
| Emission.FunctionText | tvm/src/codegen/codegen_rv64_ppac.cc:18-63 | the signature line, the body printed one scope deeper from the table of the arguments' ids, the closing brace and a blank line; the signature's warnings come before the body's; `SignatureParams`, `FunctionNames` and `AddExample` state its properties |
| CodeGen.CodeGenRV64PPAC.AddFunction | tvm/src/codegen/codegen_rv64_ppac.cc:18-63 | appends exactly `FunctionText`: signature, body one scope deeper, then the closing brace and a blank line; leaves the depth unchanged and the table as the body leaves it |
| Emission.FunctionNames | tvm/src/codegen/codegen_rv64_ppac.cc:21-59 | after a function every argument is still named by the id it got in the signature, and the table is injective |
| Emission.AddExample | tvm/src/codegen/codegen_rv64_ppac.cc:18-101 | for `add(a, b)` with both arguments in the side-table as `uint32` buffers and the body `tmp = a[0] + b[0]`, the whole text is `void add(uint32_t* a, uint32_t* b) {`, `  uint32_t tmp = a[0] + b[0];`, `}` and a blank line |

## Left out

- `PrintExpr` is not part of this model: expressions are the text it renders.
- The type printer behind `os << t` is not part of this model. It is a
  parameter, and nothing is assumed about its text.
- The safety check at line 129 (`CHECK_EQ` on the lane count) becomes a
  precondition. It is demanded only of the types actually printed, which is
  what `Printable` and `SignaturePrintable` say: the branches of a host null
  check are never printed, so nothing is asked of them.
- `LOG(WARNING)` output becomes a ghost list of warnings, each naming the id
  or type it is about. The message text is not modelled.
- The base printer is not part of this model. Its members are modelled by the
  contracts above:
  - `InitFuncState` only clears the name table;
  - `AllocVarID`'s naming scheme stands for the base printer's unique-name
    generator (hint, extended until unused);
  - `PrintStmt` dispatch covers the two visitors, sequences, one-line
    statements and empty statements. Every other statement kind is modelled
    as one indented line.
- The handle-type registration loop (lines 22-25) is left out. It only fills
  a table consulted by members outside this core.
- `Handle()` is the descriptor (handle, 64 bits, no fractions, one lane).
  The type comparison at line 91 is structural equality.
- The regular expression engine becomes a predicate on characters. Only `\n`
  and `\r` stop `.` from matching, since the condition is a byte string.
- Bit widths are unbounded naturals. The source's narrower integer fields
  never matter to the comparisons made.
- The empty condition at line 109: `cond[0]` of an empty string is the null
  character, so an empty condition counts as not parenthesised
  (`LooksParenthesized` requires a non-empty condition).
- All commented-out code is left out (lines 43-52, 58, 65-85, 149-155,
  164-170, 207).
