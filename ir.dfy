/** The part of the lowered IR the backend reads: typed variables, statements
    and lowered functions. Expressions appear as the text the expression
    printer renders for them. */
module Ir {
  import opened IrTypes

  datatype Option<T> = None | Some(value: T)

  /** The identity of an IR variable node. */
  type VarId = nat

  /** A variable: its identity, its name hint and its type. */
  datatype Var = Var(id: VarId, hint: string, ty: Type)

  datatype Stmt =
    | LetStmt(v: Var, value: string, body: Stmt)
    | IfThenElse(condition: string, thenCase: Stmt, elseCase: Option<Stmt>)
    | Block(first: Stmt, rest: Stmt)
      /** Any further statement kind, which the base printer writes as one line. */
    | Line(text: string)
      /** A statement the base printer writes nothing for. */
    | Nop

  /** A lowered function: its name, its formal arguments in order and its body. */
  datatype LoweredFunc = LoweredFunc(name: string, args: seq<Var>, body: Stmt)

  /** The argument side-table: an argument's allocated id to the name it is
      emitted under and the element type of the buffer it points to. */
  type ArgTable = map<string, (string, Type)>
}

/** The base printer's variable-name table, modelled by its contract: a
    variable keeps the id it was given, and no two variables share one. */
module Names {
  import opened Ir
  import opened Text

  type NameTable = map<VarId, string>

  predicate Injective(names: NameTable) {
    forall a, b :: a in names && b in names && a != b ==> names[a] != names[b]
  }

  /** `after` keeps every id of `before` under the same name. */
  predicate Extends(before: NameTable, after: NameTable) {
    forall a :: a in before ==> a in after && after[a] == before[a]
  }

  function AtLeastAsLong(used: set<string>, n: nat): set<string> {
    set s | s in used && |s| >= n
  }

  /** The name a new variable with hint `hint` receives when `used` are taken. */
  function Fresh(hint: string, used: set<string>): (r: string)
    ensures r !in used && StartsWith(r, hint)
    decreases AtLeastAsLong(used, |hint|)
  {
    if hint in used then
      assert hint !in AtLeastAsLong(used, |hint| + 1);
      var r := Fresh(hint + "_", used);
      assert r[..|hint|] == r[..|hint| + 1][..|hint|];
      r
    else hint
  }

  /** Finds the fresh name by extending the hint until it is unused. */
  method FreshName(hint: string, used: set<string>) returns (name: string)
    ensures name == Fresh(hint, used)
  {
    name := hint;
    while name in used
      invariant Fresh(name, used) == Fresh(hint, used)
      decreases AtLeastAsLong(used, |name|)
    {
      assert name !in AtLeastAsLong(used, |name| + 1);
      name := name + "_";
    }
  }

  datatype Allocated = Allocated(vid: string, names: NameTable)

  /** `AllocVarID`: the id of `v`, allocating a fresh one on first use. */
  function Alloc(v: Var, names: NameTable): Allocated {
    if v.id in names then Allocated(names[v.id], names)
    else
      var n := Fresh(v.hint, names.Values);
      Allocated(n, names[v.id := n])
  }

  /** The allocated id is what the table now maps `v` to; the table gains
      exactly `v`'s entry, keeps every other one, and a new id is one no other
      variable has, so the table stays injective. A variable seen before keeps
      its id and the table is unchanged. */
  lemma AllocSpec(v: Var, names: NameTable)
    ensures var r := Alloc(v, names);
      && v.id in r.names && r.names[v.id] == r.vid
      && r.names.Keys == names.Keys + {v.id}
      && Extends(names, r.names)
      && (v.id in names ==> r == Allocated(names[v.id], names))
      && (v.id !in names ==> r.vid !in names.Values && StartsWith(r.vid, v.hint))
      && (Injective(names) ==> Injective(r.names))
  {
  }

  /** Allocating twice gives the same id and leaves the table as it was. */
  lemma AllocIdempotent(v: Var, names: NameTable)
    ensures var a := Alloc(v, names); Alloc(v, a.names) == a
  {
    AllocSpec(v, names);
  }

  datatype Allocation = Allocation(vids: seq<string>, names: NameTable)

  /** The ids of the first `n` of `args`, allocated in order starting from `names`. */
  function AllocFirst(args: seq<Var>, names: NameTable, n: nat): (r: Allocation)
    requires n <= |args|
    ensures |r.vids| == n
  {
    if n == 0 then Allocation([], names)
    else
      var prev := AllocFirst(args, names, n - 1);
      var a := Alloc(args[n - 1], prev.names);
      Allocation(prev.vids + [a.vid], a.names)
  }

  /** The ids of all of `args`, allocated in order starting from `names`. */
  function AllocArgs(args: seq<Var>, names: NameTable): (r: Allocation)
    ensures |r.vids| == |args|
  {
    AllocFirst(args, names, |args|)
  }

  /** Allocating fewer arguments gives a prefix of the ids. */
  lemma {:induction false} AllocFirstPrefix(args: seq<Var>, names: NameTable, n: nat, m: nat)
    requires n <= m <= |args|
    ensures AllocFirst(args, names, n).vids == AllocFirst(args, names, m).vids[..n]
    decreases m
  {
    if n < m {
      AllocFirstPrefix(args, names, n, m - 1);
      var prev := AllocFirst(args, names, m - 1).vids;
      assert AllocFirst(args, names, m).vids[..n] == prev[..n];
    }
  }

  /** Allocating argument `i` after the ones before it gives its id among all
      the arguments' ids, and the table for the first `i + 1` arguments. */
  lemma AllocFirstNext(args: seq<Var>, names: NameTable, i: nat)
    requires i < |args|
    ensures var a := Alloc(args[i], AllocFirst(args, names, i).names);
      a.names == AllocFirst(args, names, i + 1).names && a.vid == AllocArgs(args, names).vids[i]
  {
    AllocFirstPrefix(args, names, i + 1, |args|);
    assert AllocFirst(args, names, i + 1).vids[i] == AllocArgs(args, names).vids[..i + 1][i];
  }

  /** Each of the first `n` arguments is named by its id in the resulting
      table, earlier entries are kept, and the table stays injective. */
  lemma {:induction false} AllocFirstNamed(args: seq<Var>, names: NameTable, n: nat)
    requires Injective(names) && n <= |args|
    ensures var r := AllocFirst(args, names, n);
      Injective(r.names) && Extends(names, r.names) &&
      forall i :: 0 <= i < n ==> args[i].id in r.names && r.names[args[i].id] == r.vids[i]
  {
    if n > 0 {
      AllocFirstNamed(args, names, n - 1);
      AllocSpec(args[n - 1], AllocFirst(args, names, n - 1).names);
    }
  }

  /** Every argument is named by its id in the resulting table, earlier entries
      are kept, and the table stays injective. */
  lemma AllocArgsNamed(args: seq<Var>, names: NameTable)
    requires Injective(names)
    ensures var r := AllocArgs(args, names);
      Injective(r.names) && Extends(names, r.names) &&
      forall i :: 0 <= i < |args| ==> args[i].id in r.names && r.names[args[i].id] == r.vids[i]
  {
    AllocFirstNamed(args, names, |args|);
  }

  /** Two arguments get the same id exactly when they are the same variable. */
  lemma ArgIdsDistinct(args: seq<Var>, names: NameTable, i: nat, j: nat)
    requires Injective(names) && i < |args| && j < |args|
    ensures var vids := AllocArgs(args, names).vids;
      vids[i] == vids[j] <==> args[i].id == args[j].id
  {
    AllocArgsNamed(args, names);
  }
}
