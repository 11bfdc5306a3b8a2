/** What the emitted Go code does, operation by operation as the template words it, and the proof that generated
    methods perform the documented reset (cmd/reset/reset.tmpl, cmd/reset/main.go:170-222). */
module ResetMeaning {
  import opened Metrics
  import opened ResetTypes
  import opened ResetNames
  import opened ResetCompiler

  /** What surrounds a method in its file: the scope, the imports the finished file declares, the number of the method's
      first loop, and the name of the struct it belongs to. */
  datatype File = File(scope: Scope, imports: Imports, first: nat, receiver: string)

  /** code[id] is the body of the generated method of struct id, and files[id] the file it stands in. */
  datatype Program = Program(table: Table, code: seq<seq<Op>>, files: seq<File>)

  predicate WellFormed(p: Program) { |p.code| == |p.files| == |p.table| && WellFounded(p.table) }

  // ---------------------------------------------------------------- the emitted code

  /** The predeclared identifiers that the template uses for op. */
  function Words(op: Op): set<string> {
    match op
    case BasicOp(_, kind) => if kind == Boolean then {"false"} else if kind == UnsafePointer then {"nil"} else {}
    case PointerOp(_, _) => {"nil"}
    case MapOp(_) => {"clear"}
    case StructOp(_, _, _) => {"any"}
    case _ => {}
  }

  predicate Predeclared(sc: Scope, words: set<string>) { words !! sc.decls && words !! sc.params }

  /** One operation on the value that rs points to. None is a panic, a call nested deeper than fuel, or code that does not
      mean what the template has in mind: a redeclared word, or a zero value of a name that stands for something else. */
  function Exec(p: Program, f: File, op: Op, root: Value, vars: Vars, fuel: nat): Option<Value>
    requires WellFormed(p)
    decreases fuel, op, 0
  {
    var v := Get(root, op.expr, vars);
    if !Predeclared(f.scope, Words(op)) then None else
    match op
    case BasicOp(e, kind) => Set(root, e, vars, Scalar(ZeroScalar(kind)))
    case PointerOp(e, body) =>
      if v.None? then None else if v.value.Nil? then Some(root) else Exec(p, f, body, root, vars, fuel)
    case SliceOp(e) =>
      if v.None? then None
      else if v.value.Nil? then Some(root)
      else if v.value.SliceOf? then Set(root, e, vars, v.value.(len := 0)) else None
    case MapOp(e) =>
      if v.None? then None
      else if v.value.Nil? then Some(root)
      else if v.value.MapOf? then Set(root, e, vars, v.value.(entries := map[])) else None
    case StructOp(e, id, name) =>
      if v.None? || id >= |p.table| then None
      else
        var w :=
          match p.table[id].reset
          case Generated => if fuel == 0 then None else Run(p, p.files[id], p.code[id], v.value, fuel - 1)
          case Custom(effect) => Some(effect(v.value))
          case Absent => ZeroOfName(p.table, f, Locals(vars.Keys) + ASSERTED, name, Struct(id), MentionsOf(p.table, id));
        if w.None? then None else Set(root, e, vars, w.value)
    case ArrayOp(e, index, body) =>
      if v.Some? && v.value.Elements? then Loop(p, f, body, index, |v.value.elems|, root, vars, fuel) else None
    case ZeroOp(e, typ, name) =>
      var w := if typ.Other? then ZeroOfName(p.table, f, Locals(vars.Keys), name, typ, typ.mentions) else None;
      if w.None? then None else Set(root, e, vars, w.value)
  }

  /** var zero name: the zero value of t, if the name means t here. */
  function ZeroOfName(table: Table, f: File, vars: set<string>, name: Name, t: Type, mentions: seq<Mention>): Option<Value>
    requires WellFounded(table)
  {
    if Means(f.scope, vars, f.imports, name, mentions) then Some(Zero(table, t)) else None
  }

  /** The first n iterations of a range loop. */
  function Loop(p: Program, f: File, body: Op, index: nat, n: nat, root: Value, vars: Vars, fuel: nat): Option<Value>
    requires WellFormed(p)
    decreases fuel, body, n + 1
  {
    if n == 0 then Some(root)
    else
      var r := Loop(p, f, body, index, n - 1, root, vars, fuel);
      if r.None? then None else Exec(p, f, body, r.value, vars[index := n - 1], fuel)
  }

  /** Statements one after another, with no loop around them. */
  function Run(p: Program, f: File, ops: seq<Op>, root: Value, fuel: nat): Option<Value>
    requires WellFormed(p)
    decreases fuel, ops, 0
  {
    if ops == [] then Some(root)
    else
      var r := Run(p, f, ops[..|ops| - 1], root, fuel);
      if r.None? then None else Exec(p, f, ops[|ops| - 1], r.value, map[], fuel)
  }

  predicate IsGenerated(p: Program, id: nat) { id < |p.table| && p.table[id].reset.Generated? }

  /** The files compile. */
  predicate Builds(p: Program)
    requires WellFormed(p)
  {
    forall id {:trigger IsGenerated(p, id)} | 0 <= id < |p.table| && IsGenerated(p, id) ::
      MethodBuilds(p.table, p.table[id].fields, p.files[id], p.code[id])
  }

  /** A method called Reset can be declared on the struct with a receiver called rs, every import under its alias, and
      every printed type name means its type. */
  predicate MethodBuilds(table: Table, fields: seq<Field>, f: File, ops: seq<Op>) {
    && f.receiver != "_" && "rs" !in f.scope.params
    && (forall x | x in fields :: x.name != "Reset")
    && (forall path | path in f.imports :: AliasName(f.imports[path]) !in f.scope.decls)
    && AllNamesOk(table, f.scope, f.imports, ops)
  }

  /** The method called on a pointer; None also when there is no program to call it in. */
  function CallReset(p: Program, id: nat, rs: Value, fuel: nat): Option<Value>
    requires WellFormed(p) && id < |p.table|
  {
    if !Builds(p) then None
    else if !rs.Ref? then Some(rs)
    else
      var r := Run(p, p.files[id], p.code[id], rs.target, fuel);
      if r.None? then None else Some(rs.(target := r.value))
  }

  // ---------------------------------------------------------------- compiled code does what is documented

  /** ops is what the compiler makes of the fields when it stands at g, and the file keeps its imports. */
  predicate IsCompiled(table: Table, fields: seq<Field>, ops: seq<Op>, f: File, g: Gen) {
    var (ops', g') := CompileFields(table, f.scope.local, fields, g);
    ops == ops' && g.index == f.first && Extends(g'.imports, f.imports)
  }

  /** The package builds before the generated file is added, so the names in field types are declared; and the words of
      the template keep their predeclared meaning in it. */
  predicate Suitable(table: Table, fields: seq<Field>, sc: Scope) {
    FieldsDeclared(table, sc, fields) && Predeclared(sc, {"false", "nil", "clear", "any"})
  }

  /** Every generated method comes from the compiler, whatever package it was generated in. */
  ghost predicate Compiled(p: Program) {
    && WellFormed(p)
    && forall id {:trigger IsGenerated(p, id)} | 0 <= id < |p.table| && IsGenerated(p, id) ::
         && Suitable(p.table, p.table[id].fields, p.files[id].scope)
         && exists g :: IsCompiled(p.table, p.table[id].fields, p.code[id], p.files[id], g)
  }

  /** Assigning the reset value is what the compiled operation amounts to. */
  ghost predicate Resets(p: Program, f: File, op: Op, e: Expr, t: Type, root: Value, vars: Vars, fuel: nat)
    requires WellFormed(p)
  {
    Get(root, e, vars).Some?
    && Exec(p, f, op, root, vars, fuel) == Set(root, e, vars, ResetOf(p.table, t, Get(root, e, vars).value))
  }

  /** In this file op can mean what the template has in mind. */
  predicate Sound(p: Program, f: File, op: Op, bound: set<nat>) {
    Predeclared(f.scope, {"false", "nil", "clear", "any"}) && NamesOk(p.table, f.scope, f.imports, bound, op)
  }

  ghost predicate Usable(p: Program) { Compiled(p) && Builds(p) }

  /** The operation compiled for e. */
  function OpFor(p: Program, f: File, e: Expr, t: Type, g: Gen): Op {
    Compile(p.table, f.scope.local, e, t, g).0
  }

  /** The body of the loop over e. */
  function BodyFor(p: Program, f: File, e: Expr, elem: Type, g: Gen): Op {
    OpFor(p, f, Index(e, g.index), elem, g.(index := g.index + 1))
  }

  predicate Below(e: Expr, n: nat) { forall m | m in Mentioned(e) :: m < n }

  lemma {:induction false} OpCorrect(p: Program, f: File, e: Expr, t: Type, g: Gen, root: Value, vars: Vars, fuel: nat)
    requires Usable(p) && Below(e, g.index) && Sound(p, f, OpFor(p, f, e, t, g), vars.Keys)
    requires Get(root, e, vars).Some? && Typed(p.table, t, Get(root, e, vars).value)
    requires Height(Get(root, e, vars).value) <= fuel
    ensures Resets(p, f, OpFor(p, f, e, t, g), e, t, root, vars, fuel)
    decreases fuel, 1, t, 1
  {
    match t
    case Pointer(elem) => PointerCorrect(p, f, e, elem, g, root, vars, fuel);
    case Struct(id) => StructCorrect(p, f, e, id, g, root, vars, fuel);
    case Array(_, elem) => ArrayCorrect(p, f, e, t, g, root, vars, fuel);
    case _ => LeafCorrect(p, f, e, t, g, root, vars, fuel);
  }

  lemma LeafCorrect(p: Program, f: File, e: Expr, t: Type, g: Gen, root: Value, vars: Vars, fuel: nat)
    requires WellFormed(p) && (t.Basic? || t.Slice? || t.Map? || t.Other?) && Sound(p, f, OpFor(p, f, e, t, g), vars.Keys)
    requires Get(root, e, vars).Some? && Typed(p.table, t, Get(root, e, vars).value)
    ensures Resets(p, f, OpFor(p, f, e, t, g), e, t, root, vars, fuel)
  {
    SetGet(root, e, vars);
  }

  lemma {:induction false} StructCorrect(p: Program, f: File, e: Expr, id: nat, g: Gen, root: Value, vars: Vars, fuel: nat)
    requires Usable(p) && Sound(p, f, OpFor(p, f, e, Struct(id), g), vars.Keys)
    requires Get(root, e, vars).Some? && Typed(p.table, Struct(id), Get(root, e, vars).value)
    requires Height(Get(root, e, vars).value) <= fuel
    ensures Resets(p, f, OpFor(p, f, e, Struct(id), g), e, Struct(id), root, vars, fuel)
    decreases fuel, 1, Struct(id), 0
  {
    var op := OpFor(p, f, e, Struct(id), g);
    assert op.StructOp? && op.expr == e && op.id == id;
    if IsGenerated(p, id) {
      NestedReset(p, id, Get(root, e, vars).value, fuel);
    }
    StructExec(p, f, e, id, op.name, root, vars, fuel);
  }

  /** A struct inside a value leaves fuel for the call of its method. */
  lemma {:induction false} NestedReset(p: Program, id: nat, v: Value, fuel: nat)
    requires Usable(p) && IsGenerated(p, id) && Typed(p.table, Struct(id), v) && Height(v) <= fuel
    ensures fuel > 0 && Run(p, p.files[id], p.code[id], v, fuel - 1) == Some(ResetOf(p.table, Struct(id), v))
    decreases fuel, 0, Slice, 0
  {
    BodyCorrect(p, id, v, fuel - 1);
  }

  lemma {:induction false} PointerCorrect(p: Program, f: File, e: Expr, elem: Type, g: Gen, root: Value, vars: Vars,
                                          fuel: nat)
    requires Usable(p) && Below(e, g.index) && Sound(p, f, OpFor(p, f, e, Pointer(elem), g), vars.Keys)
    requires Get(root, e, vars).Some? && Typed(p.table, Pointer(elem), Get(root, e, vars).value)
    requires Height(Get(root, e, vars).value) <= fuel
    ensures Resets(p, f, OpFor(p, f, e, Pointer(elem), g), e, Pointer(elem), root, vars, fuel)
    decreases fuel, 1, elem, 2
  {
    if Get(root, e, vars).value.Ref? {
      OpCorrect(p, f, Deref(e), elem, g, root, vars, fuel);
    } else {
      SetGet(root, e, vars);
    }
  }

  lemma StructExec(p: Program, f: File, e: Expr, id: nat, name: Name, root: Value, vars: Vars, fuel: nat)
    requires WellFormed(p) && id < |p.table| && Get(root, e, vars).Some? && Sound(p, f, StructOp(e, id, name), vars.Keys)
    requires IsGenerated(p, id) ==>
      fuel > 0
      && Run(p, p.files[id], p.code[id], Get(root, e, vars).value, fuel - 1)
         == Some(ResetOf(p.table, Struct(id), Get(root, e, vars).value))
    ensures Resets(p, f, StructOp(e, id, name), e, Struct(id), root, vars, fuel)
  {
  }

  lemma {:induction false} ArrayCorrect(p: Program, f: File, e: Expr, t: Type, g: Gen, root: Value, vars: Vars, fuel: nat)
    requires Usable(p) && Below(e, g.index) && t.Array? && Sound(p, f, OpFor(p, f, e, t, g), vars.Keys)
    requires Get(root, e, vars).Some? && Typed(p.table, t, Get(root, e, vars).value)
    requires Height(Get(root, e, vars).value) <= fuel
    ensures Resets(p, f, OpFor(p, f, e, t, g), e, t, root, vars, fuel)
    decreases fuel, 1, t.elem, 5
  {
    ArrayReady(p, f, e, t, g, root, vars, fuel);
    LoopCorrect(p, f, e, t.elem, g, root, vars, fuel, |Get(root, e, vars).value.elems|);
    ArrayExec(p, f, e, t, g, root, vars, fuel);
  }

  lemma ArrayReady(p: Program, f: File, e: Expr, t: Type, g: Gen, root: Value, vars: Vars, fuel: nat)
    requires Usable(p) && Below(e, g.index) && t.Array? && Sound(p, f, OpFor(p, f, e, t, g), vars.Keys)
    requires Get(root, e, vars).Some? && Typed(p.table, t, Get(root, e, vars).value)
    requires Height(Get(root, e, vars).value) <= fuel
    ensures LoopReady(p, f, e, t.elem, g, root, vars, fuel)
  {
    assert OpFor(p, f, e, t, g) == ArrayOp(e, g.index, BodyFor(p, f, e, t.elem, g));
  }

  lemma ArrayExec(p: Program, f: File, e: Expr, t: Type, g: Gen, root: Value, vars: Vars, fuel: nat)
    requires t.Array? && LoopReady(p, f, e, t.elem, g, root, vars, fuel)
    requires LoopResets(p, f, e, t.elem, g, root, vars, fuel, |Get(root, e, vars).value.elems|)
    ensures Resets(p, f, OpFor(p, f, e, t, g), e, t, root, vars, fuel)
  {
    var v := Get(root, e, vars).value;
    assert OpFor(p, f, e, t, g) == ArrayOp(e, g.index, BodyFor(p, f, e, t.elem, g));
    assert Elements(ResetFirst(p.table, t.elem, v.elems, |v.elems|)) == ResetOf(p.table, t, v);
  }

  /** The array after n iterations. */
  function ResetFirst(table: Table, elem: Type, elems: seq<Value>, n: nat): seq<Value>
    requires WellFounded(table) && n <= |elems|
  {
    seq(|elems|, i requires 0 <= i < |elems| => if i < n then ResetOf(table, elem, elems[i]) else elems[i])
  }

  /** e is an array of resettable elements. */
  predicate ArrayAt(p: Program, e: Expr, elem: Type, root: Value, vars: Vars, fuel: nat) {
    var v := Get(root, e, vars);
    v.Some? && v.value.Elements? && MaxHeight(v.value.elems) <= fuel
    && forall i | 0 <= i < |v.value.elems| :: Typed(p.table, elem, v.value.elems[i])
  }

  /** The array after n iterations of the loop over it, assigned back. */
  function LoopResult(p: Program, e: Expr, elem: Type, root: Value, vars: Vars, fuel: nat, n: nat): Option<Value>
    requires WellFormed(p) && ArrayAt(p, e, elem, root, vars, fuel) && n <= |Get(root, e, vars).value.elems|
  {
    Set(root, e, vars, Elements(ResetFirst(p.table, elem, Get(root, e, vars).value.elems, n)))
  }

  /** The loop over e runs over resettable elements with a body that can mean what the template has in mind. */
  ghost predicate LoopReady(p: Program, f: File, e: Expr, elem: Type, g: Gen, root: Value, vars: Vars, fuel: nat) {
    && Usable(p) && Below(e, g.index) && Sound(p, f, BodyFor(p, f, e, elem, g), vars.Keys + {g.index})
    && ArrayAt(p, e, elem, root, vars, fuel)
  }

  ghost predicate LoopResets(p: Program, f: File, e: Expr, elem: Type, g: Gen, root: Value, vars: Vars, fuel: nat, n: nat)
    requires LoopReady(p, f, e, elem, g, root, vars, fuel) && n <= |Get(root, e, vars).value.elems|
  {
    Loop(p, f, BodyFor(p, f, e, elem, g), g.index, n, root, vars, fuel) == LoopResult(p, e, elem, root, vars, fuel, n)
  }

  lemma {:induction false} LoopCorrect(p: Program, f: File, e: Expr, elem: Type, g: Gen, root: Value, vars: Vars,
                                       fuel: nat, n: nat)
    requires LoopReady(p, f, e, elem, g, root, vars, fuel) && n <= |Get(root, e, vars).value.elems|
    ensures LoopResets(p, f, e, elem, g, root, vars, fuel, n)
    decreases fuel, 1, elem, 4, n
  {
    if n == 0 {
      LoopStart(p, f, e, elem, g, root, vars, fuel);
    } else {
      LoopCorrect(p, f, e, elem, g, root, vars, fuel, n - 1);
      LoopNext(p, f, e, elem, g, root, vars, fuel, n);
    }
  }

  lemma {:induction false} LoopNext(p: Program, f: File, e: Expr, elem: Type, g: Gen, root: Value, vars: Vars, fuel: nat,
                                    n: nat)
    requires LoopReady(p, f, e, elem, g, root, vars, fuel) && 0 < n <= |Get(root, e, vars).value.elems|
    requires LoopResets(p, f, e, elem, g, root, vars, fuel, n - 1)
    ensures LoopResets(p, f, e, elem, g, root, vars, fuel, n)
    decreases fuel, 1, elem, 4, 0
  {
    IterationCorrect(p, f, e, elem, g, root, vars, fuel, n - 1);
    LoopStep(p, f, e, elem, g, root, vars, fuel, n);
  }

  lemma LoopStep(p: Program, f: File, e: Expr, elem: Type, g: Gen, root: Value, vars: Vars, fuel: nat, n: nat)
    requires LoopReady(p, f, e, elem, g, root, vars, fuel) && 0 < n <= |Get(root, e, vars).value.elems|
    requires LoopResets(p, f, e, elem, g, root, vars, fuel, n - 1)
    requires IterationResets(p, f, e, elem, g, root, vars, fuel, n - 1)
    ensures LoopResets(p, f, e, elem, g, root, vars, fuel, n)
  {
    LoopExtends(p, f, BodyFor(p, f, e, elem, g), g.index, n, root, vars, fuel,
      LoopResult(p, e, elem, root, vars, fuel, n - 1));
  }

  lemma LoopStart(p: Program, f: File, e: Expr, elem: Type, g: Gen, root: Value, vars: Vars, fuel: nat)
    requires LoopReady(p, f, e, elem, g, root, vars, fuel)
    ensures LoopResets(p, f, e, elem, g, root, vars, fuel, 0)
  {
    NoIteration(p, e, elem, root, vars);
  }

  lemma NoIteration(p: Program, e: Expr, elem: Type, root: Value, vars: Vars)
    requires WellFormed(p) && Get(root, e, vars).Some? && Get(root, e, vars).value.Elements?
    ensures Set(root, e, vars, Elements(ResetFirst(p.table, elem, Get(root, e, vars).value.elems, 0))) == Some(root)
  {
    var elems := Get(root, e, vars).value.elems;
    assert ResetFirst(p.table, elem, elems, 0) == elems;
    SetGet(root, e, vars);
  }

  lemma LoopExtends(p: Program, f: File, body: Op, index: nat, n: nat, root: Value, vars: Vars, fuel: nat,
                    before: Option<Value>)
    requires WellFormed(p) && n > 0 && before.Some? && Loop(p, f, body, index, n - 1, root, vars, fuel) == before
    ensures Loop(p, f, body, index, n, root, vars, fuel) == Exec(p, f, body, before.value, vars[index := n - 1], fuel)
  {
  }

  /** The iteration with the loop variable at k takes the array from k elements reset to k + 1. */
  ghost predicate IterationResets(p: Program, f: File, e: Expr, elem: Type, g: Gen, root: Value, vars: Vars, fuel: nat,
                                  k: nat)
    requires LoopReady(p, f, e, elem, g, root, vars, fuel) && k < |Get(root, e, vars).value.elems|
  {
    var before := LoopResult(p, e, elem, root, vars, fuel, k);
    before.Some?
    && Exec(p, f, BodyFor(p, f, e, elem, g), before.value, vars[g.index := k], fuel)
       == LoopResult(p, e, elem, root, vars, fuel, k + 1)
  }

  lemma {:induction false} IterationCorrect(p: Program, f: File, e: Expr, elem: Type, g: Gen, root: Value, vars: Vars,
                                            fuel: nat, k: nat)
    requires LoopReady(p, f, e, elem, g, root, vars, fuel) && k < |Get(root, e, vars).value.elems|
    ensures IterationResets(p, f, e, elem, g, root, vars, fuel, k)
    decreases fuel, 1, elem, 3
  {
    var elems := Get(root, e, vars).value.elems;
    var xs, ys := ResetFirst(p.table, elem, elems, k), ResetFirst(p.table, elem, elems, k + 1);
    var y := ResetOf(p.table, elem, elems[k]);
    ElementSet(root, e, vars, g.index, k, xs, y);
    assert xs[k := y] == ys;
    ElementCorrect(p, f, e, elem, g, root, vars, fuel, k, Set(root, e, vars, Elements(xs)).value);
  }

  lemma {:induction false} ElementCorrect(p: Program, f: File, e: Expr, elem: Type, g: Gen, root: Value, vars: Vars,
                                          fuel: nat, k: nat, before: Value)
    requires LoopReady(p, f, e, elem, g, root, vars, fuel) && k < |Get(root, e, vars).value.elems|
    requires Get(before, Index(e, g.index), vars[g.index := k]) == Some(Get(root, e, vars).value.elems[k])
    ensures Resets(p, f, BodyFor(p, f, e, elem, g), Index(e, g.index), elem, before, vars[g.index := k], fuel)
    decreases fuel, 1, elem, 2
  {
    assert vars[g.index := k].Keys == vars.Keys + {g.index};
    HeightAt(Get(root, e, vars).value.elems, k);
    OpCorrect(p, f, Index(e, g.index), elem, g.(index := g.index + 1), before, vars[g.index := k], fuel);
  }

  /** Assigning the array with elements xs and then y to its k-th element, under a loop variable the path does not
      mention. */
  lemma ElementSet(root: Value, e: Expr, vars: Vars, n: nat, k: nat, xs: seq<Value>, y: Value)
    requires Get(root, e, vars).Some? && n !in Mentioned(e) && k < |xs|
    ensures var before := Set(root, e, vars, Elements(xs));
      before.Some?
      && Get(before.value, Index(e, n), vars[n := k]) == Some(xs[k])
      && Set(before.value, Index(e, n), vars[n := k], y) == Set(root, e, vars, Elements(xs[k := y]))
  {
    GetSet(root, e, vars, Elements(xs));
    var before := Set(root, e, vars, Elements(xs)).value;
    FreshGet(before, e, vars, n, k);
    FreshSet(before, e, vars, n, k, Elements(xs[k := y]));
    SetSet(root, e, vars, Elements(xs), Elements(xs[k := y]));
  }

  /** A generated method resets the value it is called on. */
  lemma {:induction false} BodyCorrect(p: Program, id: nat, v: Value, fuel: nat)
    requires Usable(p) && IsGenerated(p, id) && Typed(p.table, Struct(id), v) && MaxHeight(v.fields) <= fuel
    ensures Run(p, p.files[id], p.code[id], v, fuel) == Some(ResetOf(p.table, Struct(id), v))
    decreases fuel, 3, Slice, 0
  {
    var fields, f := p.table[id].fields, p.files[id];
    var g :| IsCompiled(p.table, fields, p.code[id], f, g);
    assert MethodBuilds(p.table, fields, f, p.code[id]);
    FieldsCorrect(p, f, fields, g, v.fields, fuel);
  }

  predicate FieldsTyped(table: Table, fields: seq<Field>, vs: seq<Value>) {
    |fields| <= |vs| && forall i | 0 <= i < |fields| :: Typed(table, fields[i].typ, vs[i])
  }

  predicate AllSound(p: Program, f: File, ops: seq<Op>) {
    Predeclared(f.scope, {"false", "nil", "clear", "any"}) && AllNamesOk(p.table, f.scope, f.imports, ops)
  }

  lemma {:induction false} FieldsCorrect(p: Program, f: File, fields: seq<Field>, g: Gen, vs: seq<Value>, fuel: nat)
    requires Usable(p) && FieldsTyped(p.table, fields, vs) && MaxHeight(vs) <= fuel
    requires AllSound(p, f, CompileFields(p.table, f.scope.local, fields, g).0)
    ensures Run(p, f, CompileFields(p.table, f.scope.local, fields, g).0, Record(vs), fuel)
      == Some(Record(ResetFields(p.table, fields, vs)))
    decreases fuel, 2, Slice, |fields|
  {
    if fields == [] {
      assert ResetFields(p.table, [], vs) == vs;
    } else {
      var n := |fields| - 1;
      var (ops, g1) := CompileFields(p.table, f.scope.local, fields[..n], g);
      if fields[n].name == "_" {
        FieldsCorrect(p, f, fields[..n], g, vs, fuel);
      } else {
        var op := OpFor(p, f, Select(Receiver, n), fields[n].typ, g1);
        NamesAppend(p.table, f.scope, f.imports, ops, op);
        FieldsCorrect(p, f, fields[..n], g, vs, fuel);
        RunAppend(p, f, ops, op, Record(vs), fuel);
        ResetFieldsAt(p.table, fields[..n], vs, n);
        LastField(p, f, fields, g1, ResetFields(p.table, fields[..n], vs), vs, fuel);
      }
    }
  }

  lemma RunAppend(p: Program, f: File, ops: seq<Op>, op: Op, root: Value, fuel: nat)
    requires WellFormed(p) && Run(p, f, ops, root, fuel).Some?
    ensures Run(p, f, ops + [op], root, fuel) == Exec(p, f, op, Run(p, f, ops, root, fuel).value, map[], fuel)
  {
    assert (ops + [op])[..|ops|] == ops;
  }

  lemma {:induction false} LastField(p: Program, f: File, fields: seq<Field>, g: Gen, xs: seq<Value>, vs: seq<Value>,
                                     fuel: nat)
    requires Usable(p) && fields != [] && FieldsTyped(p.table, fields, vs) && MaxHeight(vs) <= fuel
    requires |xs| == |vs| && xs[|fields| - 1] == vs[|fields| - 1]
    requires Sound(p, f, OpFor(p, f, Select(Receiver, |fields| - 1), fields[|fields| - 1].typ, g), {})
    ensures var n := |fields| - 1;
      Exec(p, f, OpFor(p, f, Select(Receiver, n), fields[n].typ, g), Record(xs), map[], fuel)
      == Some(Record(xs[n := ResetOf(p.table, fields[n].typ, vs[n])]))
    decreases fuel, 1, fields[|fields| - 1].typ, 2
  {
    var n := |fields| - 1;
    var vars: Vars := map[];
    HeightAt(vs, n);
    var e := Select(Receiver, n);
    assert vars.Keys == {} && Mentioned(Receiver) == {} && Mentioned(e) == {};
    assert Get(Record(xs), Receiver, vars) == Some(Record(xs)) && Get(Record(xs), e, vars) == Some(vs[n]);
    OpCorrect(p, f, e, fields[n].typ, g, Record(xs), vars, fuel);
    assert forall w :: Set(Record(xs), e, vars, w) == Set(Record(xs), Receiver, vars, Record(xs[n := w]));
  }

  // ---------------------------------------------------------------- the whole program

  /** What keeps an emitted method from compiling: a struct called _, a field called Reset, a type parameter called rs, a
      declaration of the package called like the alias of an import, or a type name that is lost in the method. */
  predicate Clashes(table: Table, fields: seq<Field>, f: File) {
    || f.receiver == "_" || "rs" in f.scope.params
    || (exists x | x in fields :: x.name == "Reset")
    || (exists path | path in f.imports :: AliasName(f.imports[path]) in f.scope.decls)
    || AnyHidden(table, f.scope, f.imports, fields, f.first)
  }

  predicate ClashAt(p: Program, id: nat)
    requires WellFormed(p) && id < |p.table|
  {
    Clashes(p.table, p.table[id].fields, p.files[id])
  }

  predicate AnyClash(p: Program)
    requires WellFormed(p)
  {
    exists id :: 0 <= id < |p.table| && IsGenerated(p, id) && ClashAt(p, id)
  }

  lemma MethodBuildsIff(p: Program, id: nat)
    requires Compiled(p) && IsGenerated(p, id)
    ensures MethodBuilds(p.table, p.table[id].fields, p.files[id], p.code[id]) <==> !ClashAt(p, id)
  {
    var fields, f := p.table[id].fields, p.files[id];
    var g :| IsCompiled(p.table, fields, p.code[id], f, g);
    FieldsNames(p.table, f.scope, fields, g, f.imports);
  }

  lemma BuildsIff(p: Program)
    requires Compiled(p)
    ensures Builds(p) <==> !AnyClash(p)
  {
    forall id | 0 <= id < |p.table| && IsGenerated(p, id)
      ensures MethodBuilds(p.table, p.table[id].fields, p.files[id], p.code[id]) <==> !ClashAt(p, id)
    {
      MethodBuildsIff(p, id);
    }
  }

  /** A marked struct with a field called Reset is accepted by the generator, and its package does not build any more. */
  lemma ResetFieldClashes(p: Program, id: nat, i: nat, rs: Value, fuel: nat)
    requires WellFormed(p) && IsGenerated(p, id) && i < |p.table[id].fields| && p.table[id].fields[i].name == "Reset"
    ensures AnyClash(p) && CallReset(p, id, rs, fuel) == None
  {
    assert p.table[id].fields[i] in p.table[id].fields && ClashAt(p, id);
    assert !MethodBuilds(p.table, p.table[id].fields, p.files[id], p.code[id]);
  }

  /** Nor does it with a marked struct called _ or a type parameter called rs, or with a declaration called like the alias of
      an import. */
  lemma NamesClash(p: Program, id: nat, path: string, rs: Value, fuel: nat)
    requires WellFormed(p) && IsGenerated(p, id)
    requires var f := p.files[id];
      f.receiver == "_" || "rs" in f.scope.params
      || (path in f.imports && "resetpkg" + Decimal(f.imports[path]) in f.scope.decls)
    ensures AnyClash(p) && CallReset(p, id, rs, fuel) == None
  {
    assert path in p.files[id].imports ==> AliasName(p.files[id].imports[path]) == "resetpkg" + Decimal(p.files[id].imports[path]);
    assert ClashAt(p, id);
    assert !MethodBuilds(p.table, p.table[id].fields, p.files[id], p.code[id]);
  }

  /** Nothing clashes in an ordinary struct whose fields need no type name. */
  lemma NothingClashes(p: Program, id: nat)
    requires WellFormed(p) && IsGenerated(p, id)
    requires p.files[id].receiver != "_" && "rs" !in p.files[id].scope.params && p.files[id].imports == map[]
    requires forall x | x in p.table[id].fields :: x.name != "Reset" && Nameless(x.typ)
    ensures !ClashAt(p, id)
  {
    var fields, f := p.table[id].fields, p.files[id];
    forall i | 0 <= i < |fields| ensures !HiddenAt(p.table, f.scope, f.imports, fields, f.first, i) {
      assert fields[i] in fields;
      NamelessNotHidden(p.table, f.scope, f.imports, fields[i].typ, f.first + FieldLoops(fields[..i]), {});
    }
  }

  /** Calling a generated method does to every value exactly what is documented, without dereferencing nil, without
      running on and without changing anything else, provided that no name clashes; otherwise there is no program. */
  lemma ResetAsDocumented(p: Program, id: nat, rs: Value, fuel: nat)
    requires Compiled(p) && IsGenerated(p, id) && Typed(p.table, Pointer(Struct(id)), rs) && Height(rs) <= fuel
    ensures CallReset(p, id, rs, fuel) == if AnyClash(p) then None else Some(ResetOf(p.table, Pointer(Struct(id)), rs))
  {
    BuildsIff(p);
    if !AnyClash(p) && rs.Ref? {
      BodyCorrect(p, id, rs.target, fuel);
    }
  }

  /** What Generator.Methods leaves behind is compiled code in this sense. */
  lemma MethodsAreCompiled(table: Table, sc: Scope, structs: seq<seq<Field>>, k: nat, receiver: string)
    requires k < |structs|
    ensures var (methods, g) := CompileMethods(table, sc.local, structs);
      |methods| == |structs|
      && IsCompiled(table, structs[k], methods[k], File(sc, g.imports, FirstLoop(structs, k), receiver),
                    CompileMethods(table, sc.local, structs[..k]).1)
  {
    MethodAt(table, sc.local, structs, k);
    MethodsIndex(table, sc.local, structs[..k]);
    FirstLoopPrefix(structs, k, k);
  }
}
