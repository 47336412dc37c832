/** What the RV64 PPAC backend writes for a statement and for a whole lowered
    function, as functions of the scope depth and the name table they start
    from. The class in module CodeGen is proved to write exactly this. */
module Emission {
  import opened IrTypes
  import opened TypeMap
  import opened Text
  import opened Ir
  import opened Names

  /** The diagnostics the backend logs without stopping. */
  datatype Warning = TypeNotFound(vid: string) | CastingType(t: Type)

  function CastWarnings(t: Type): seq<Warning> {
    if IsClamped(t) then [CastingType(t)] else []
  }

  /** A let statement prints a declaration unless it binds a handle or its
      value is host-side argument unpacking. */
  predicate Declares(v: Var, value: string) {
    v.ty != HandleType && !Contains(value, "TVMArray") && !StartsWith(value, "arg")
  }

  /** The indented declaration `<type> <id> = <value>;` and its line end. */
  function DeclLine(depth: nat, ty: Type, vid: string, value: string, dump: Type -> string): string
    requires ty.lanes == 1
  {
    Indent(depth) + TypeName(ty, dump) + (" " + vid + " = " + value + ";\n")
  }

  /** The textual "already parenthesised" test on a rendered condition: its
      first character is `(` and its last is `)`. */
  predicate LooksParenthesized(cond: string) {
    |cond| > 0 && cond[0] == '(' && cond[|cond| - 1] == ')'
  }

  /** The condition as it stands in the header: kept as is when it looks
      parenthesised, otherwise wrapped in one added pair. */
  function Guard(cond: string): string {
    if LooksParenthesized(cond) then cond else "(" + cond + ")"
  }

  function IfHeader(cond: string): string {
    "if " + Guard(cond) + " {\n"
  }

  /** The header is `if <cond> {` for a condition that looks parenthesised and
      `if (<cond>) {` otherwise; the guard always passes the test, so guarding
      twice changes nothing, and it keeps the condition exactly when the
      condition passes the test. */
  lemma IfHeaderGuard(cond: string)
    ensures LooksParenthesized(cond) ==> IfHeader(cond) == "if " + cond + " {\n"
    ensures !LooksParenthesized(cond) ==> IfHeader(cond) == "if (" + cond + ") {\n"
    ensures LooksParenthesized(Guard(cond))
    ensures Guard(Guard(cond)) == Guard(cond)
    ensures Guard(cond) == cond <==> LooksParenthesized(cond)
  {
    if !LooksParenthesized(cond) {
      assert "if " + ("(" + cond + ")") + " {\n" == "if (" + cond + ") {\n";
      assert |Guard(cond)| != |cond|;
    }
  }

  /** A conditional as printed: header, then branch, else part, and the
      closing brace at the conditional's depth. */
  function IfText(cond: string, depth: nat, thenText: string, elsePart: string): string {
    Indent(depth) + IfHeader(cond) + thenText + elsePart + (Indent(depth) + "}\n")
  }

  /** Every type the statement printer names is scalar. The branches of a
      host null check are never printed, so nothing is asked of them. */
  predicate Printable(s: Stmt) {
    match s
    case LetStmt(v, value, body) => (Declares(v, value) ==> v.ty.lanes == 1) && Printable(body)
    case IfThenElse(cond, thenCase, elseCase) =>
      !IsNullCheck(cond) ==> Printable(thenCase) && (elseCase.Some? ==> Printable(elseCase.value))
    case Block(first, rest) => Printable(first) && Printable(rest)
    case Line(_) => true
    case Nop => true
  }

  /** What printing a statement writes, the name table after it, and the warnings it logs. */
  datatype Out = Out(text: string, names: NameTable, warnings: seq<Warning>)

  function EmitStmt(s: Stmt, depth: nat, names: NameTable, dump: Type -> string): Out
    requires Printable(s)
    decreases s, 2
  {
    match s
    case LetStmt(_, _, _) => EmitLet(s, depth, names, dump)
    case IfThenElse(_, _, _) => EmitIf(s, depth, names, dump)
    case Block(first, rest) =>
      var a := EmitStmt(first, depth, names, dump);
      var b := EmitStmt(rest, depth, a.names, dump);
      Out(a.text + b.text, b.names, a.warnings + b.warnings)
    case Line(text) => Out(Indent(depth) + (text + "\n"), names, [])
    case Nop => Out("", names, [])
  }

  /** A let statement: the variable is allocated, the declaration is written
      when `Declares` holds, and the body follows at the same depth. */
  function EmitLet(s: Stmt, depth: nat, names: NameTable, dump: Type -> string): Out
    requires s.LetStmt? && Printable(s)
    decreases s, 1
  {
    var a := Alloc(s.v, names);
    var rest := EmitStmt(s.body, depth, a.names, dump);
    if Declares(s.v, s.value) then
      Out(DeclLine(depth, s.v.ty, a.vid, s.value, dump) + rest.text, rest.names, CastWarnings(s.v.ty) + rest.warnings)
    else rest
  }

  /** A conditional: nothing for a host null check; otherwise both branches
      one scope deeper, the else branch continuing the then branch's names. */
  function EmitIf(s: Stmt, depth: nat, names: NameTable, dump: Type -> string): Out
    requires s.IfThenElse? && Printable(s)
    decreases s, 1
  {
    if IsNullCheck(s.condition) then Out("", names, [])
    else
      var th := EmitStmt(s.thenCase, depth + 1, names, dump);
      var el := EmitElse(s, depth, th.names, dump);
      Out(IfText(s.condition, depth, th.text, el.text), el.names, th.warnings + el.warnings)
  }

  /** The else part of a conditional: nothing without an else branch, and
      otherwise `} else {` at the conditional's depth and the branch one
      scope deeper. */
  function EmitElse(s: Stmt, depth: nat, names: NameTable, dump: Type -> string): Out
    requires s.IfThenElse? && !IsNullCheck(s.condition) && Printable(s)
    decreases s, 0
  {
    if s.elseCase.None? then Out("", names, [])
    else
      var el := EmitStmt(s.elseCase.value, depth + 1, names, dump);
      Out(Indent(depth) + "} else {\n" + el.text, el.names, el.warnings)
  }

  /** Printing a statement only adds names: ids given out before keep their
      names, and the table stays injective. */
  lemma {:induction false} EmitKeepsNames(s: Stmt, depth: nat, names: NameTable, dump: Type -> string)
    requires Printable(s)
    ensures Extends(names, EmitStmt(s, depth, names, dump).names)
    ensures Injective(names) ==> Injective(EmitStmt(s, depth, names, dump).names)
    decreases s
  {
    match s
    case LetStmt(v, value, body) =>
      AllocSpec(v, names);
      EmitKeepsNames(body, depth, Alloc(v, names).names, dump);
    case IfThenElse(cond, thenCase, elseCase) =>
      if !IsNullCheck(cond) {
        EmitKeepsNames(thenCase, depth + 1, names, dump);
        var th := EmitStmt(thenCase, depth + 1, names, dump);
        var el := EmitElse(s, depth, th.names, dump);
        match elseCase
        case None => assert el.names == th.names;
        case Some(e) => EmitKeepsNames(e, depth + 1, th.names, dump);
      }
    case Block(first, rest) =>
      EmitKeepsNames(first, depth, names, dump);
      EmitKeepsNames(rest, depth, EmitStmt(first, depth, names, dump).names, dump);
    case Line(_) =>
    case Nop =>
  }

  /** Whatever a statement writes starts at its own indentation and ends a line. */
  lemma {:induction false} EmitIndented(s: Stmt, depth: nat, names: NameTable, dump: Type -> string)
    requires Printable(s)
    ensures IndentedBy(EmitStmt(s, depth, names, dump).text, Indent(depth))
    decreases s
  {
    match s
    case LetStmt(v, value, body) =>
      var a := Alloc(v, names);
      EmitIndented(body, depth, a.names, dump);
      if Declares(v, value) {
        var decl := TypeName(v.ty, dump) + (" " + a.vid + " = " + value + ";\n");
        IndentedBlock(Indent(depth), decl);
        AppendAssoc(Indent(depth), TypeName(v.ty, dump), " " + a.vid + " = " + value + ";\n");
        IndentedConcat(DeclLine(depth, v.ty, a.vid, value, dump), EmitStmt(body, depth, a.names, dump).text, Indent(depth));
      }
    case IfThenElse(cond, thenCase, elseCase) =>
      if !IsNullCheck(cond) {
        var th := EmitStmt(thenCase, depth + 1, names, dump);
        var elseText := EmitElse(s, depth, th.names, dump).text;
        var p := Indent(depth);
        var h := p + IfHeader(cond);
        StartsWithSelf(p, IfHeader(cond));
        StartsWithAppend(h, th.text, p);
        StartsWithAppend(h + th.text, elseText, p);
        StartsWithAppend(h + th.text + elseText, p + "}\n", p);
        var close := p + "}\n";
        assert (h + th.text + elseText + close)[|h + th.text + elseText + close| - 1] == close[|close| - 1];
      }
    case Block(first, rest) =>
      EmitIndented(first, depth, names, dump);
      EmitIndented(rest, depth, EmitStmt(first, depth, names, dump).names, dump);
      IndentedConcat(EmitStmt(first, depth, names, dump).text, EmitStmt(rest, depth, EmitStmt(first, depth, names, dump).names, dump).text, Indent(depth));
    case Line(text) =>
      IndentedBlock(Indent(depth), text + "\n");
    case Nop =>
  }

  /** A let statement always allocates its variable and always prints its
      body; it writes one line before the body exactly when `Declares` holds,
      and that line is the indented declaration. */
  lemma LetStmtEmits(v: Var, value: string, body: Stmt, depth: nat, names: NameTable, dump: Type -> string)
    requires Printable(LetStmt(v, value, body))
    ensures var out := EmitStmt(LetStmt(v, value, body), depth, names, dump);
      var a := Alloc(v, names);
      var rest := EmitStmt(body, depth, a.names, dump);
      v.id in out.names && out.names[v.id] == a.vid &&
      (out.text == rest.text <==> !Declares(v, value)) &&
      (Declares(v, value) ==> out.text == DeclLine(depth, v.ty, a.vid, value, dump) + rest.text)
  {
    var a := Alloc(v, names);
    AllocSpec(v, names);
    EmitKeepsNames(body, depth, a.names, dump);
    if Declares(v, value) {
      var rest := EmitStmt(body, depth, a.names, dump).text;
      assert |DeclLine(depth, v.ty, a.vid, value, dump) + rest| > |rest|;
    }
  }

  /** A value that starts with the argument-accessor prefix is never declared. */
  lemma ArgAccessorSkipped(v: Var, value: string, body: Stmt, depth: nat, names: NameTable, dump: Type -> string)
    requires Printable(body) && StartsWith(value, "arg")
    ensures EmitStmt(LetStmt(v, value, body), depth, names, dump) == EmitStmt(body, depth, Alloc(v, names).names, dump)
  {
  }

  /** A host null check, for every middle of the pattern, prints nothing,
      allocates nothing and logs nothing, whatever its branches hold. */
  lemma NullCheckSkipped(m: string, thenCase: Stmt, elseCase: Option<Stmt>, depth: nat, names: NameTable, dump: Type -> string)
    requires |m| > 0 && NoLineTerminator(m)
    ensures EmitStmt(IfThenElse(NullCheckFor(m), thenCase, elseCase), depth, names, dump) == Out("", names, [])
  {
    NullCheckIsPattern(NullCheckFor(m));
  }

  /** Any other conditional is printed as a parenthesised header, the then
      branch one scope deeper, an else part exactly when there is an else
      branch, and a closing brace at the conditional's own depth. */
  lemma IfStmtEmits(cond: string, thenCase: Stmt, elseCase: Option<Stmt>, depth: nat, names: NameTable, dump: Type -> string)
    requires !IsNullCheck(cond) && Printable(IfThenElse(cond, thenCase, elseCase))
    ensures var out := EmitStmt(IfThenElse(cond, thenCase, elseCase), depth, names, dump);
      var th := EmitStmt(thenCase, depth + 1, names, dump);
      var elseText := EmitElse(IfThenElse(cond, thenCase, elseCase), depth, th.names, dump).text;
      && out.text == Indent(depth) + IfHeader(cond) + th.text + elseText + (Indent(depth) + "}\n")
      && LooksParenthesized(Guard(cond))
      && (elseCase.None? ==> elseText == "")
      && (elseCase.Some? ==> elseText == Indent(depth) + "} else {\n" + EmitStmt(elseCase.value, depth + 1, th.names, dump).text)
  {
    IfHeaderGuard(cond);
  }

  /** The scopes of a conditional nest: it opens with its header and closes
      with its brace at its own indentation, while each branch it holds is
      written at the next indentation. */
  lemma ScopesNest(cond: string, thenCase: Stmt, elseCase: Option<Stmt>, depth: nat, names: NameTable, dump: Type -> string)
    requires !IsNullCheck(cond) && Printable(IfThenElse(cond, thenCase, elseCase))
    ensures var out := EmitStmt(IfThenElse(cond, thenCase, elseCase), depth, names, dump);
      var th := EmitStmt(thenCase, depth + 1, names, dump);
      && StartsWith(out.text, Indent(depth) + IfHeader(cond))
      && EndsWith(out.text, Indent(depth) + "}\n")
      && IndentedBy(th.text, Indent(depth + 1))
      && (elseCase.Some? ==> IndentedBy(EmitStmt(elseCase.value, depth + 1, th.names, dump).text, Indent(depth + 1)))
  {
    var s := IfThenElse(cond, thenCase, elseCase);
    var th := EmitStmt(thenCase, depth + 1, names, dump);
    var elseText := EmitElse(s, depth, th.names, dump).text;
    IfStmtEmits(cond, thenCase, elseCase, depth, names, dump);
    EmitIndented(thenCase, depth + 1, names, dump);
    if elseCase.Some? {
      EmitIndented(elseCase.value, depth + 1, th.names, dump);
    }
    Enclosed(Indent(depth) + IfHeader(cond), th.text, elseText, Indent(depth) + "}\n");
  }

  // ---- Function signatures ----

  /** The type that stands for argument `v` (allocated as `vid`) in the signature. */
  function ArgType(v: Var, vid: string, argTypes: ArgTable): Type {
    if vid in argTypes then argTypes[vid].1 else v.ty
  }

  /** One parameter: a pointer to the side-table's element type under the
      side-table's name, or else the argument's own type and id. */
  function Param(v: Var, vid: string, argTypes: ArgTable, dump: Type -> string): string
    requires ArgType(v, vid, argTypes).lanes == 1
  {
    if vid !in argTypes then TypeName(v.ty, dump) + (" " + vid)
    else TypeName(argTypes[vid].1, dump) + "*" + (" " + argTypes[vid].0)
  }

  function ParamWarnings(v: Var, vid: string, argTypes: ArgTable): seq<Warning> {
    if vid !in argTypes then [TypeNotFound(vid)] + CastWarnings(v.ty) else CastWarnings(argTypes[vid].1)
  }

  /** Every type the signature names is scalar. */
  predicate SignaturePrintable(args: seq<Var>, argTypes: ArgTable) {
    ArgsScalar(args, AllocArgs(args, map[]).vids, argTypes)
  }

  /** Argument `i`, allocated as `vids[i]`, stands for a scalar type. */
  predicate ArgsScalar(args: seq<Var>, vids: seq<string>, argTypes: ArgTable) {
    |vids| == |args| && forall i :: 0 <= i < |args| ==> ArgType(args[i], vids[i], argTypes).lanes == 1
  }

  function Params(args: seq<Var>, argTypes: ArgTable, dump: Type -> string): (ps: seq<string>)
    requires SignaturePrintable(args, argTypes)
  {
    ParamsOf(args, AllocArgs(args, map[]).vids, argTypes, dump)
  }

  /** The parameters of `args` when argument `i` is allocated as `vids[i]`. */
  function ParamsOf(args: seq<Var>, vids: seq<string>, argTypes: ArgTable, dump: Type -> string): (ps: seq<string>)
    requires ArgsScalar(args, vids, argTypes)
  {
    seq(|args|, i requires 0 <= i < |args| => Param(args[i], vids[i], argTypes, dump))
  }

  /** The warnings logged for the first `n` parameters, in order. */
  function ParamsWarnings(args: seq<Var>, vids: seq<string>, argTypes: ArgTable, n: nat): seq<Warning>
    requires n <= |args| && |vids| == |args|
  {
    if n == 0 then []
    else ParamsWarnings(args, vids, argTypes, n - 1) + ParamWarnings(args[n - 1], vids[n - 1], argTypes)
  }

  /** The first `n` parameters as the loop over the arguments writes them:
      a separator before each but the first. */
  function SigText(args: seq<Var>, vids: seq<string>, argTypes: ArgTable, dump: Type -> string, n: nat): string
    requires ArgsScalar(args, vids, argTypes) && n <= |args|
  {
    if n == 0 then ""
    else SigText(args, vids, argTypes, dump, n - 1) + (if n == 1 then "" else ", ") + Param(args[n - 1], vids[n - 1], argTypes, dump)
  }

  /** Writing parameter `i` after the first `i` gives the first `i + 1`. */
  lemma SigTextStep(start: string, args: seq<Var>, vids: seq<string>, argTypes: ArgTable, dump: Type -> string, i: nat)
    requires ArgsScalar(args, vids, argTypes) && i < |args|
    ensures start + SigText(args, vids, argTypes, dump, i) + ((if i == 0 then "" else ", ") + Param(args[i], vids[i], argTypes, dump))
      == start + SigText(args, vids, argTypes, dump, i + 1)
  {
    var before := SigText(args, vids, argTypes, dump, i);
    var sep := if i == 0 then "" else ", ";
    var p := Param(args[i], vids[i], argTypes, dump);
    AppendAssoc(start, before, sep + p);
    AppendAssoc(before, sep, p);
  }

  /** The warnings of parameter `i` after those of the first `i` are those of the first `i + 1`. */
  lemma ParamsWarningsStep(start: seq<Warning>, args: seq<Var>, vids: seq<string>, argTypes: ArgTable, i: nat)
    requires i < |args| && |vids| == |args|
    ensures start + ParamsWarnings(args, vids, argTypes, i) + ParamWarnings(args[i], vids[i], argTypes)
      == start + ParamsWarnings(args, vids, argTypes, i + 1)
  {
    AppendAssoc(start, ParamsWarnings(args, vids, argTypes, i), ParamWarnings(args[i], vids[i], argTypes));
  }

  /** Writing the parameters one by one gives the joined parameter list. */
  lemma {:induction false} SigTextJoins(args: seq<Var>, vids: seq<string>, argTypes: ArgTable, dump: Type -> string, n: nat)
    requires ArgsScalar(args, vids, argTypes) && n <= |args|
    ensures SigText(args, vids, argTypes, dump, n) == Join(ParamsOf(args, vids, argTypes, dump)[..n], ", ")
  {
    if n > 0 {
      var ps := ParamsOf(args, vids, argTypes, dump);
      assert ps[n - 1] == Param(args[n - 1], vids[n - 1], argTypes, dump);
      if n == 1 {
        SigTextFirst(args, vids, argTypes, dump);
      } else {
        SigTextJoins(args, vids, argTypes, dump, n - 1);
        JoinPrefix(ps, ", ", n);
      }
    }
  }

  /** All the parameters written one by one give the joined parameter list. */
  lemma SigTextAll(args: seq<Var>, argTypes: ArgTable, dump: Type -> string)
    requires SignaturePrintable(args, argTypes)
    ensures Signature(args, argTypes, dump) == Join(Params(args, argTypes, dump), ", ")
  {
    var vids := AllocArgs(args, map[]).vids;
    SigTextJoins(args, vids, argTypes, dump, |args|);
    assert ParamsOf(args, vids, argTypes, dump)[..|args|] == ParamsOf(args, vids, argTypes, dump);
  }

  lemma SigTextFirst(args: seq<Var>, vids: seq<string>, argTypes: ArgTable, dump: Type -> string)
    requires ArgsScalar(args, vids, argTypes) && 0 < |args|
    ensures SigText(args, vids, argTypes, dump, 1) == Param(args[0], vids[0], argTypes, dump)
  {
    var p := Param(args[0], vids[0], argTypes, dump);
    assert "" + "" + p == p;
  }

  /** The parameter list of a signature, as the loop over the arguments writes it. */
  function Signature(args: seq<Var>, argTypes: ArgTable, dump: Type -> string): string
    requires SignaturePrintable(args, argTypes)
  {
    SigText(args, AllocArgs(args, map[]).vids, argTypes, dump, |args|)
  }

  predicate FunctionPrintable(f: LoweredFunc, argTypes: ArgTable) {
    SignaturePrintable(f.args, argTypes) && Printable(f.body)
  }

  /** The first line of a function: its name and its parameter list. */
  function SignatureLine(f: LoweredFunc, argTypes: ArgTable, dump: Type -> string): string
    requires SignaturePrintable(f.args, argTypes)
  {
    "void " + f.name + "(" + Signature(f.args, argTypes, dump) + ") {\n"
  }

  /** What the body of `f` writes one scope deeper, starting from the table
      in which the arguments' ids were allocated. */
  function FunctionBody(f: LoweredFunc, depth: nat, dump: Type -> string): Out
    requires Printable(f.body)
  {
    EmitStmt(f.body, depth + 1, AllocArgs(f.args, map[]).names, dump)
  }

  /** `AddFunction`: the signature, the body one scope deeper, the closing brace
      and a blank line. The name table starts empty for every function. */
  function FunctionText(f: LoweredFunc, argTypes: ArgTable, depth: nat, dump: Type -> string): Out
    requires FunctionPrintable(f, argTypes)
  {
    var al := AllocArgs(f.args, map[]);
    var body := FunctionBody(f, depth, dump);
    Out(SignatureLine(f, argTypes, dump) + body.text + (Indent(depth) + "}\n\n"),
        body.names, ParamsWarnings(f.args, al.vids, argTypes, |f.args|) + body.warnings)
  }

  /** The parameter list written is the parameters joined by ", ": it starts
      with the first parameter and puts ", " before each further one; each
      parameter comes from the side-table when the argument's id is in it and
      from the argument's own type otherwise. */
  lemma SignatureParams(f: LoweredFunc, argTypes: ArgTable, dump: Type -> string)
    requires SignaturePrintable(f.args, argTypes)
    ensures var ps := Params(f.args, argTypes, dump);
      var vids := AllocArgs(f.args, map[]).vids;
      Signature(f.args, argTypes, dump) == Join(ps, ", ") &&
      (ps == [] ==> Signature(f.args, argTypes, dump) == "") &&
      (|ps| > 0 ==> Join(ps, ", ") == ps[0] + (if |ps| == 1 then "" else ", " + Join(ps[1..], ", "))) &&
      forall i :: 0 <= i < |ps| ==>
        (vids[i] in argTypes ==> ps[i] == TypeName(argTypes[vids[i]].1, dump) + "*" + (" " + argTypes[vids[i]].0)) &&
        (vids[i] !in argTypes ==> ps[i] == TypeName(f.args[i].ty, dump) + (" " + vids[i]))
  {
    var ps := Params(f.args, argTypes, dump);
    SigTextAll(f.args, argTypes, dump);
    if |ps| > 0 {
      JoinAtFront(ps, ", ");
    }
  }

  /** Every argument has its id in the table after the function, distinct
      arguments have distinct ids, and the table is injective. */
  lemma FunctionNames(f: LoweredFunc, argTypes: ArgTable, depth: nat, dump: Type -> string)
    requires FunctionPrintable(f, argTypes)
    ensures var al := AllocArgs(f.args, map[]);
      var out := FunctionText(f, argTypes, depth, dump);
      Injective(out.names) &&
      forall i :: 0 <= i < |f.args| ==> f.args[i].id in out.names && out.names[f.args[i].id] == al.vids[i]
  {
    var al := AllocArgs(f.args, map[]);
    AllocArgsNamed(f.args, map[]);
    EmitKeepsNames(f.body, depth + 1, al.names, dump);
  }

  // ---- The function `add(a, b)`: both arguments are mapped to 32-bit
  // unsigned buffers, and the body binds `tmp = a[0] + b[0]`. ----

  const U32: Type := Type(UInt, 32, 0, 1)
  const AddArgs: seq<Var> := [Var(0, "a", HandleType), Var(1, "b", HandleType)]
  const AddBody: Stmt := LetStmt(Var(2, "tmp", U32), "a[0] + b[0]", Nop)
  const AddFunc: LoweredFunc := LoweredFunc("add", AddArgs, AddBody)
  const AddArgTypes: ArgTable := map["a" := ("a", U32), "b" := ("b", U32)]

  /** The whole text written for `add`. */
  lemma AddExample(dump: Type -> string)
    ensures FunctionPrintable(AddFunc, AddArgTypes)
    ensures FunctionText(AddFunc, AddArgTypes, 0, dump).text ==
      "void add(" + "uint32_t* a, uint32_t* b" + ") {\n" + "  uint32_t tmp = a[0] + b[0];\n" + "}\n\n"
  {
    AddSignature(dump);
    AddBodyText(dump);
    FunctionTextOf(AddFunc, AddArgTypes, 0, dump, "uint32_t* a, uint32_t* b", "  uint32_t tmp = a[0] + b[0];\n");
    assert "void " + "add" + "(" == "void add(";
    assert Indent(0) == "";
  }

  lemma FunctionTextOf(f: LoweredFunc, argTypes: ArgTable, depth: nat, dump: Type -> string, sig: string, bodyText: string)
    requires FunctionPrintable(f, argTypes)
    requires Signature(f.args, argTypes, dump) == sig
    requires EmitStmt(f.body, depth + 1, AllocArgs(f.args, map[]).names, dump).text == bodyText
    ensures FunctionText(f, argTypes, depth, dump).text == "void " + f.name + "(" + sig + ") {\n" + bodyText + (Indent(depth) + "}\n\n")
  {
  }

  lemma AddArgIds()
    ensures AllocArgs(AddArgs, map[]) == Allocation(["a", "b"], map[0 := "a", 1 := "b"])
  {
    assert AllocFirst(AddArgs, map[], 1) == Allocation(["a"], map[0 := "a"]);
    assert "b" !in map[0 := "a"].Values;
  }

  lemma AddSignature(dump: Type -> string)
    ensures SignaturePrintable(AddArgs, AddArgTypes)
    ensures Signature(AddArgs, AddArgTypes, dump) == "uint32_t* a, uint32_t* b"
  {
    AddArgIds();
    var vids := ["a", "b"];
    assert TypeName(U32, dump) == "uint32_t";
    SigTextFirst(AddArgs, vids, AddArgTypes, dump);
    assert Param(AddArgs[0], "a", AddArgTypes, dump) == "uint32_t* a";
    assert Param(AddArgs[1], "b", AddArgTypes, dump) == "uint32_t* b";
  }

  lemma AddDeclares()
    ensures Declares(Var(2, "tmp", U32), "a[0] + b[0]")
  {
    var value := "a[0] + b[0]";
    forall i | 0 <= i <= |value| ensures !OccursAt(value, "TVMArray", i) {
      if i <= |value| - 8 { assert value[i..i + 8][0] != 'T'; }
    }
    assert value[..3] != "arg" by { assert value[..3][1] != 'r'; }
  }

  lemma AddDecl(dump: Type -> string)
    ensures DeclLine(1, U32, "tmp", "a[0] + b[0]", dump) == "  uint32_t tmp = a[0] + b[0];\n"
  {
    assert Indent(1) == "  ";
    assert TypeName(U32, dump) == "uint32_t";
  }

  lemma AddBodyText(dump: Type -> string)
    ensures Printable(AddBody)
    ensures EmitStmt(AddBody, 1, AllocArgs(AddArgs, map[]).names, dump).text == "  uint32_t tmp = a[0] + b[0];\n"
  {
    AddArgIds();
    AddDeclares();
    assert "tmp" !in map[0 := "a", 1 := "b"].Values;
    assert Alloc(Var(2, "tmp", U32), map[0 := "a", 1 := "b"]).vid == "tmp";
    AddDecl(dump);
  }
}
