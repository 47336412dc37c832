/** The RV64 PPAC code generator as an object: an output stream it appends to,
    the indentation depth, and the variable-name table, updated in place by
    its methods. Each printing method is proved to write what module Emission
    says. The members marked "base printer" stand for the inherited members
    the backend calls, by their contracts. */
module CodeGen {
  import opened IrTypes
  import opened TypeMap
  import opened Text
  import opened Ir
  import opened Names
  import opened Emission

  class CodeGenRV64PPAC {
    /** The output stream; it is only ever appended to. */
    var stream: string
    /** The number of open scopes. */
    var depth: nat
    /** The ids allocated to variables in the current function. */
    var names: NameTable
    /** The warnings logged so far. */
    ghost var warnings: seq<Warning>
    /** The descriptor printer used where no C name applies. */
    const dump: Type -> string

    ghost predicate Valid()
      reads this`names
    {
      Injective(names)
    }

    constructor (dump: Type -> string)
      ensures Valid() && this.dump == dump
      ensures stream == "" && depth == 0 && names == map[] && warnings == []
    {
      this.dump := dump;
      stream, depth, names := "", 0, map[];
      warnings := [];
    }

    /** Base printer: forgets the ids of the previous function. */
    method InitFuncState()
      modifies this`names
      ensures Valid() && names == map[]
    {
      names := map[];
    }

    /** Base printer: the id of `v`, allocated on first use. */
    method AllocVarID(v: Var) returns (vid: string)
      requires Valid()
      modifies this`names
      ensures Valid()
      ensures Alloc(v, old(names)) == Allocated(vid, names)
    {
      if v.id in names {
        vid := names[v.id];
      } else {
        vid := FreshName(v.hint, names.Values);
        names := names[v.id := vid];
      }
      AllocSpec(v, old(names));
    }

    /** Base printer: opens a scope and returns its id, the depth it started at. */
    method BeginScope() returns (sid: nat)
      modifies this`depth
      ensures sid == old(depth) && depth == sid + 1
    {
      sid := depth;
      depth := depth + 1;
    }

    /** Base printer: closes the innermost scope `sid`. */
    method EndScope(sid: nat)
      requires depth == sid + 1
      modifies this`depth
      ensures depth == sid
    {
      depth := sid;
    }

    /** Base printer: indents the next line to the current depth. */
    method PrintIndent()
      modifies this`stream
      ensures stream == old(stream) + Indent(depth)
    {
      stream := stream + Indent(depth);
    }

    /** Appends the C name of `t`; an over-wide fixed-point type logs a warning. */
    method PrintType(t: Type)
      requires t.lanes == 1
      modifies this`stream, this`warnings
      ensures stream == old(stream) + TypeName(t, dump)
      ensures warnings == old(warnings) + CastWarnings(t)
    {
      stream := stream + TypeName(t, dump);
      if IsClamped(t) {
        warnings := warnings + [CastingType(t)];
      }
    }

    /** Base printer: prints any statement, handing lets and conditionals to
        the visitors below. */
    method PrintStmt(s: Stmt)
      requires Valid() && Printable(s)
      modifies this
      ensures Valid() && depth == old(depth)
      ensures var out := EmitStmt(s, old(depth), old(names), dump);
        stream == old(stream) + out.text && names == out.names && warnings == old(warnings) + out.warnings
      decreases s, 2
    {
      match s
      case LetStmt(_, _, _) => VisitLetStmt(s);
      case IfThenElse(_, _, _) => VisitIfThenElse(s);
      case Block(first, rest) =>
        ghost var a := EmitStmt(first, depth, names, dump);
        PrintStmt(first);
        ghost var b := EmitStmt(rest, depth, names, dump);
        PrintStmt(rest);
        AppendAssoc(old(stream), a.text, b.text);
        AppendAssoc(old(warnings), a.warnings, b.warnings);
      case Line(text) =>
        PrintIndent();
        stream := stream + (text + "\n");
        AppendAssoc(old(stream), Indent(depth), text + "\n");
      case Nop =>
    }

    /** Base printer: prints `b` in a scope of its own, one level deeper. */
    method PrintScoped(b: Stmt)
      requires Valid() && Printable(b)
      modifies this
      ensures Valid() && depth == old(depth)
      ensures var out := EmitStmt(b, old(depth) + 1, old(names), dump);
        stream == old(stream) + out.text && names == out.names && warnings == old(warnings) + out.warnings
      decreases b, 3
    {
      var sid := BeginScope();
      PrintStmt(b);
      EndScope(sid);
    }

    /** A let statement: allocate the variable's id, print the declaration
        unless the value is host argument unpacking, then print the body. */
    method VisitLetStmt(s: Stmt)
      requires s.LetStmt? && Valid() && Printable(s)
      modifies this
      ensures Valid() && depth == old(depth)
      ensures var out := EmitLet(s, old(depth), old(names), dump);
        stream == old(stream) + out.text && names == out.names && warnings == old(warnings) + out.warnings
      decreases s, 1
    {
      var value := s.value;
      var vid := AllocVarID(s.v);
      ghost var rest := EmitStmt(s.body, depth, names, dump);
      if s.v.ty != HandleType && !Contains(value, "TVMArray") && !StartsWith(value, "arg") {
        PrintDecl(s.v.ty, vid, value);
        ghost var decl := DeclLine(depth, s.v.ty, vid, value, dump);
        PrintStmt(s.body);
        AppendAssoc(old(stream), decl, rest.text);
        AppendAssoc(old(warnings), CastWarnings(s.v.ty), rest.warnings);
      } else {
        PrintStmt(s.body);
      }
    }

    /** The indented declaration `<type> <id> = <value>;`. */
    method PrintDecl(ty: Type, vid: string, value: string)
      requires ty.lanes == 1
      modifies this`stream, this`warnings
      ensures stream == old(stream) + DeclLine(depth, ty, vid, value, dump)
      ensures warnings == old(warnings) + CastWarnings(ty)
    {
      PrintIndent();
      PrintType(ty);
      stream := stream + (" " + vid + " = " + value + ";\n");
      AppendAssoc(old(stream), Indent(depth), TypeName(ty, dump));
      AppendAssoc(old(stream), Indent(depth) + TypeName(ty, dump), " " + vid + " = " + value + ";\n");
    }

    /** The indented header of a conditional, adding parentheses unless the
        condition already looks parenthesised. */
    method PrintIfHeader(cond: string)
      modifies this`stream
      ensures stream == old(stream) + (Indent(depth) + IfHeader(cond))
    {
      PrintIndent();
      if LooksParenthesized(cond) {
        stream := stream + ("if " + cond + " {\n");
      } else {
        stream := stream + ("if (" + cond + ") {\n");
      }
      IfHeaderGuard(cond);
      AppendAssoc(old(stream), Indent(depth), IfHeader(cond));
    }

    /** The indented line `} else {`. */
    method PrintElseHeader()
      modifies this`stream
      ensures stream == old(stream) + (Indent(depth) + "} else {\n")
    {
      PrintIndent();
      stream := stream + "} else {\n";
      AppendAssoc(old(stream), Indent(depth), "} else {\n");
    }

    /** The indented closing brace of a conditional. */
    method PrintClose()
      modifies this`stream
      ensures stream == old(stream) + (Indent(depth) + "}\n")
    {
      PrintIndent();
      stream := stream + "}\n";
      AppendAssoc(old(stream), Indent(depth), "}\n");
    }

    /** A conditional: skipped entirely when it is a host null check; otherwise
        the header, the then branch in its own scope, the else branch in its
        own scope when there is one, and the closing brace. */
    method VisitIfThenElse(s: Stmt)
      requires s.IfThenElse? && Valid() && Printable(s)
      modifies this
      ensures Valid() && depth == old(depth)
      ensures var out := EmitIf(s, old(depth), old(names), dump);
        stream == old(stream) + out.text && names == out.names && warnings == old(warnings) + out.warnings
      decreases s, 1
    {
      var cond := s.condition;
      if IsNullCheck(cond) {
        return;
      }
      ghost var th := EmitStmt(s.thenCase, depth + 1, names, dump);
      ghost var text := Indent(depth) + IfHeader(cond) + th.text;
      PrintIfThen(s);
      assert depth == old(depth) && names == th.names;
      ghost var el := EmitElse(s, depth, names, dump);
      PrintElse(s);
      AppendAssoc(old(stream), text, el.text);
      AppendAssoc(old(warnings), th.warnings, el.warnings);
      assert depth == old(depth) && names == el.names;
      text := text + el.text;
      PrintClose();
      AppendAssoc(old(stream), text, Indent(depth) + "}\n");
      assert EmitIf(s, old(depth), old(names), dump) == Out(IfText(cond, depth, th.text, el.text), el.names, th.warnings + el.warnings);
    }

    /** The header of a conditional and its then branch in a scope of its own. */
    method PrintIfThen(s: Stmt)
      requires s.IfThenElse? && !IsNullCheck(s.condition) && Valid() && Printable(s)
      modifies this
      ensures Valid() && depth == old(depth)
      ensures var th := EmitStmt(s.thenCase, old(depth) + 1, old(names), dump);
        && stream == old(stream) + (Indent(old(depth)) + IfHeader(s.condition) + th.text)
        && names == th.names && warnings == old(warnings) + th.warnings
      decreases s, 0
    {
      ghost var th := EmitStmt(s.thenCase, depth + 1, names, dump);
      ghost var header := Indent(depth) + IfHeader(s.condition);
      PrintIfHeader(s.condition);
      PrintScoped(s.thenCase);
      AppendAssoc(old(stream), header, th.text);
    }

    /** The else branch, when there is one, in its own scope after `} else {`. */
    method PrintElse(s: Stmt)
      requires s.IfThenElse? && !IsNullCheck(s.condition) && Valid() && Printable(s)
      modifies this
      ensures Valid() && depth == old(depth)
      ensures var out := EmitElse(s, old(depth), old(names), dump);
        stream == old(stream) + out.text && names == out.names && warnings == old(warnings) + out.warnings
      decreases s, 0
    {
      if s.elseCase.Some? {
        ghost var el := EmitStmt(s.elseCase.value, depth + 1, names, dump);
        PrintElseHeader();
        PrintScoped(s.elseCase.value);
        AppendAssoc(old(stream), Indent(depth) + "} else {\n", el.text);
      }
    }

    /** The parameter list of a function: each argument's id is allocated in
        order, and the parameters are written separated by ", ". */
    method PrintParams(args: seq<Var>, argTypes: ArgTable)
      requires names == map[] && SignaturePrintable(args, argTypes)
      modifies this`names, this`stream, this`warnings
      ensures Valid()
      ensures var al := AllocArgs(args, map[]);
        stream == old(stream) + Signature(args, argTypes, dump) && names == al.names &&
        warnings == old(warnings) + ParamsWarnings(args, al.vids, argTypes, |args|)
    {
      ghost var vids := AllocArgs(args, map[]).vids;
      var i := 0;
      while i < |args|
        invariant 0 <= i <= |args| && Valid()
        invariant names == AllocFirst(args, map[], i).names
        invariant stream == old(stream) + SigText(args, vids, argTypes, dump, i)
        invariant warnings == old(warnings) + ParamsWarnings(args, vids, argTypes, i)
      {
        PrintArg(args, argTypes, i, old(stream), old(warnings));
        i := i + 1;
      }
    }

    /** Argument `i`, after `start` and the first `i` parameters: its id is
        allocated and its parameter written, so that the first `i + 1`
        parameters follow `start`. */
    method PrintArg(args: seq<Var>, argTypes: ArgTable, i: nat, ghost start: string, ghost logged: seq<Warning>)
      requires i < |args| && SignaturePrintable(args, argTypes)
      requires names == AllocFirst(args, map[], i).names
      requires var vids := AllocArgs(args, map[]).vids;
        stream == start + SigText(args, vids, argTypes, dump, i) &&
        warnings == logged + ParamsWarnings(args, vids, argTypes, i)
      modifies this`names, this`stream, this`warnings
      ensures Valid() && names == AllocFirst(args, map[], i + 1).names
      ensures var vids := AllocArgs(args, map[]).vids;
        stream == start + SigText(args, vids, argTypes, dump, i + 1) &&
        warnings == logged + ParamsWarnings(args, vids, argTypes, i + 1)
    {
      ghost var vids := AllocArgs(args, map[]).vids;
      var vid := AllocArg(args, i);
      PrintSeparated(args[i], vid, argTypes, i == 0);
      SigTextStep(start, args, vids, argTypes, dump, i);
      ParamsWarningsStep(logged, args, vids, argTypes, i);
    }

    /** Allocates the id of argument `i` after those of the arguments before it. */
    method AllocArg(args: seq<Var>, i: nat) returns (vid: string)
      requires i < |args| && names == AllocFirst(args, map[], i).names
      modifies this`names
      ensures Valid() && names == AllocFirst(args, map[], i + 1).names
      ensures vid == AllocArgs(args, map[]).vids[i]
    {
      AllocFirstNamed(args, map[], i);
      AllocFirstNext(args, map[], i);
      vid := AllocVarID(args[i]);
    }

    /** A parameter, preceded by ", " unless it is the first. */
    method PrintSeparated(v: Var, vid: string, argTypes: ArgTable, first: bool)
      requires ArgType(v, vid, argTypes).lanes == 1
      modifies this`stream, this`warnings
      ensures stream == old(stream) + ((if first then "" else ", ") + Param(v, vid, argTypes, dump))
      ensures warnings == old(warnings) + ParamWarnings(v, vid, argTypes)
    {
      if !first {
        stream := stream + ", ";
      }
      PrintParam(v, vid, argTypes);
      if !first {
        AppendAssoc(old(stream), ", ", Param(v, vid, argTypes, dump));
      } else {
        assert "" + Param(v, vid, argTypes, dump) == Param(v, vid, argTypes, dump);
      }
    }

    /** One parameter: the side-table's element type as a pointer under the
        side-table's name, or, with a warning, the argument's own type and id. */
    method PrintParam(v: Var, vid: string, argTypes: ArgTable)
      requires ArgType(v, vid, argTypes).lanes == 1
      modifies this`stream, this`warnings
      ensures stream == old(stream) + Param(v, vid, argTypes, dump)
      ensures warnings == old(warnings) + ParamWarnings(v, vid, argTypes)
    {
      if vid !in argTypes {
        warnings := warnings + [TypeNotFound(vid)];
        PrintType(v.ty);
        stream := stream + (" " + vid);
        AppendAssoc(old(stream), TypeName(v.ty, dump), " " + vid);
        AppendAssoc(old(warnings), [TypeNotFound(vid)], CastWarnings(v.ty));
      } else {
        var arg := argTypes[vid];
        PrintType(arg.1);
        stream := stream + "*";
        stream := stream + (" " + arg.0);
        AppendAssoc(old(stream), TypeName(arg.1, dump), "*");
        AppendAssoc(old(stream), TypeName(arg.1, dump) + "*", " " + arg.0);
      }
    }

    /** Prints one lowered function: signature, body one scope deeper, and
        the closing brace followed by a blank line. */
    method AddFunction(f: LoweredFunc, argTypes: ArgTable)
      requires FunctionPrintable(f, argTypes)
      modifies this
      ensures Valid() && depth == old(depth)
      ensures var out := FunctionText(f, argTypes, old(depth), dump);
        stream == old(stream) + out.text && names == out.names && warnings == old(warnings) + out.warnings
    {
      ghost var head := SignatureLine(f, argTypes, dump);
      ghost var paramWarnings := ParamsWarnings(f.args, AllocArgs(f.args, map[]).vids, argTypes, |f.args|);
      PrintSignature(f, argTypes);
      assert depth == old(depth) && names == AllocArgs(f.args, map[]).names;
      ghost var body := EmitStmt(f.body, depth + 1, names, dump);
      assert body == FunctionBody(f, old(depth), dump);
      PrintScoped(f.body);
      AppendAssoc(old(stream), head, body.text);
      AppendAssoc(old(warnings), paramWarnings, body.warnings);
      PrintFunctionClose();
      AppendAssoc(old(stream), head + body.text, Indent(depth) + "}\n\n");
    }

    /** The line `void <name>(<parameters>) {`, with a fresh name table in
        which the arguments' ids are allocated in order. */
    method PrintSignature(f: LoweredFunc, argTypes: ArgTable)
      requires SignaturePrintable(f.args, argTypes)
      modifies this`names, this`stream, this`warnings
      ensures Valid()
      ensures var al := AllocArgs(f.args, map[]);
        stream == old(stream) + SignatureLine(f, argTypes, dump) && names == al.names &&
        warnings == old(warnings) + ParamsWarnings(f.args, al.vids, argTypes, |f.args|)
    {
      InitFuncState();
      ghost var text := "void " + f.name + "(";
      stream := stream + ("void " + f.name + "(");
      ghost var sig := Signature(f.args, argTypes, dump);
      PrintParams(f.args, argTypes);
      AppendAssoc(old(stream), text, sig);
      stream := stream + ") {\n";
      AppendAssoc(old(stream), text + sig, ") {\n");
    }

    /** The function's closing brace and a blank line. */
    method PrintFunctionClose()
      modifies this`stream
      ensures stream == old(stream) + (Indent(depth) + "}\n\n")
    {
      PrintIndent();
      stream := stream + "}\n\n";
      AppendAssoc(old(stream), Indent(depth), "}\n\n");
    }
  }
}
