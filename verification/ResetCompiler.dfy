/** The Reset generator: it turns a type into a tree of operations over access paths, numbering loop variables and
    package aliases as it goes (cmd/reset/main.go:133-252). */
module ResetCompiler {
  import opened Metrics
  import opened ResetTypes
  import opened ResetNames

  /** resetOperation by kind. Of the children in the source there is always exactly one. */
  datatype Op =
    | BasicOp(expr: Expr, kind: ScalarKind)
    | PointerOp(expr: Expr, body: Op)
    | SliceOp(expr: Expr)
    | MapOp(expr: Expr)
    | StructOp(expr: Expr, id: nat, name: Name)
    | ArrayOp(expr: Expr, index: nat, body: Op)
    | ZeroOp(expr: Expr, typ: Type, name: Name)

  // ---------------------------------------------------------------- the compiler as a function

  datatype Gen = Gen(index: nat, imports: Imports)

  function MentionsOf(table: Table, id: nat): seq<Mention> {
    if id < |table| then table[id].mentions else []
  }

  function Compile(table: Table, local: string, e: Expr, t: Type, g: Gen): (Op, Gen)
    decreases t
  {
    match t
    case Basic(kind) => (BasicOp(e, kind), g)
    case Pointer(elem) =>
      var (body, g1) := Compile(table, local, Deref(e), elem, g);
      (PointerOp(e, body), g1)
    case Slice => (SliceOp(e), g)
    case Map => (MapOp(e), g)
    case Struct(id) =>
      var (name, imports) := Qualify(local, g.imports, MentionsOf(table, id));
      (StructOp(e, id, name), g.(imports := imports))
    case Array(_, elem) =>
      var (body, g1) := Compile(table, local, Index(e, g.index), elem, g.(index := g.index + 1));
      (ArrayOp(e, g.index, body), g1)
    case Other(mentions) =>
      var (name, imports) := Qualify(local, g.imports, mentions);
      (ZeroOp(e, t, name), g.(imports := imports))
  }

  /** The operations of a method, for the first fields of a struct; blank fields get none. */
  function CompileFields(table: Table, local: string, fields: seq<Field>, g: Gen): (seq<Op>, Gen) {
    if fields == [] then ([], g)
    else
      var n := |fields| - 1;
      var (ops, g1) := CompileFields(table, local, fields[..n], g);
      if fields[n].name == "_" then (ops, g1)
      else
        var (op, g2) := Compile(table, local, Select(Receiver, n), fields[n].typ, g1);
        (ops + [op], g2)
  }

  /** The methods of a package, one after another, sharing loop numbers and imports. */
  function CompileMethods(table: Table, local: string, structs: seq<seq<Field>>): (seq<seq<Op>>, Gen) {
    if structs == [] then ([], Gen(0, map[]))
    else
      var n := |structs| - 1;
      var (methods, g) := CompileMethods(table, local, structs[..n]);
      var (ops, g1) := CompileFields(table, local, structs[n], g);
      (methods + [ops], g1)
  }

  // ---------------------------------------------------------------- the generator as it runs

  class Generator {
    const local: string
    const table: Table
    var index: nat
    var imports: Imports
    var methods: seq<seq<Op>>

    constructor (local: string, table: Table)
      ensures this.local == local && this.table == table && State() == Gen(0, map[]) && methods == []
    {
      this.local, this.table := local, table;
      index, imports, methods := 0, map[], [];
    }

    function State(): Gen
      reads this`index, this`imports
    {
      Gen(index, imports)
    }

    method TypeName(mentions: seq<Mention>) returns (name: Name)
      modifies this`imports
      ensures (name, imports) == Qualify(local, old(imports), mentions)
    {
      name := [];
      var i := 0;
      while i < |mentions|
        invariant 0 <= i <= |mentions|
        invariant (name, imports) == Qualify(local, old(imports), mentions[..i])
      {
        assert mentions[..i + 1][..i] == mentions[..i];
        var m := mentions[i];
        if !IsForeign(local, m) {
          name := name + [if m.origin.Member? then Bare(m.ident) else Plain(m.ident)];
        } else if m.origin.path in imports {
          name := name + [Dotted(imports[m.origin.path], m.ident)];
        } else {
          var alias := |imports|;
          imports := imports[m.origin.path := alias];
          name := name + [Dotted(alias, m.ident)];
        }
        i := i + 1;
      }
      assert mentions[..i] == mentions;
    }

    method Reset(e: Expr, t: Type) returns (op: Op)
      modifies this`index, this`imports
      ensures (op, State()) == Compile(table, local, e, t, old(State()))
      decreases t
    {
      match t
      case Basic(kind) =>
        op := BasicOp(e, kind);
      case Pointer(elem) =>
        var body := Reset(Deref(e), elem);
        op := PointerOp(e, body);
      case Slice =>
        op := SliceOp(e);
      case Map =>
        op := MapOp(e);
      case Struct(id) =>
        var name := TypeName(MentionsOf(table, id));
        op := StructOp(e, id, name);
      case Array(_, elem) =>
        var i := index;
        index := index + 1;
        var body := Reset(Index(e, i), elem);
        op := ArrayOp(e, i, body);
      case Other(mentions) =>
        var name := TypeName(mentions);
        op := ZeroOp(e, t, name);
    }

    method Method(fields: seq<Field>)
      modifies this
      ensures (methods, State()) ==
        (old(methods) + [CompileFields(table, local, fields, old(State())).0],
         CompileFields(table, local, fields, old(State())).1)
    {
      var ops: seq<Op> := [];
      var i := 0;
      while i < |fields|
        invariant 0 <= i <= |fields| && methods == old(methods)
        invariant (ops, State()) == CompileFields(table, local, fields[..i], old(State()))
        modifies this`index, this`imports
      {
        assert fields[..i + 1][..i] == fields[..i];
        if fields[i].name != "_" {
          var op := Reset(Select(Receiver, i), fields[i].typ);
          ops := ops + [op];
        }
        i := i + 1;
      }
      assert fields[..i] == fields;
      methods := methods + [ops];
    }

    /** The loop of generate over the marked structs of one package. */
    method Methods(structs: seq<seq<Field>>)
      requires State() == Gen(0, map[]) && methods == []
      modifies this
      ensures (methods, State()) == CompileMethods(table, local, structs)
    {
      var i := 0;
      while i < |structs|
        invariant 0 <= i <= |structs| && (methods, State()) == CompileMethods(table, local, structs[..i])
      {
        assert structs[..i + 1][..i] == structs[..i];
        Method(structs[i]);
        i := i + 1;
      }
      assert structs[..i] == structs;
    }
  }

  // ---------------------------------------------------------------- hygiene of what it emits

  function Range(from: nat, to: nat): (r: seq<nat>)
    requires from <= to
    ensures |r| == to - from && forall i | 0 <= i < |r| :: r[i] == from + i
  {
    seq(to - from, i => from + i)
  }

  /** The loop variables that an operation binds, outermost first. */
  function Bound(op: Op): seq<nat> {
    match op
    case PointerOp(_, body) => Bound(body)
    case ArrayOp(_, index, body) => [index] + Bound(body)
    case _ => []
  }

  function BoundIn(ops: seq<Op>): seq<nat> {
    if ops == [] then [] else BoundIn(ops[..|ops| - 1]) + Bound(ops[|ops| - 1])
  }

  function BoundInAll(methods: seq<seq<Op>>): seq<nat> {
    if methods == [] then [] else BoundInAll(methods[..|methods| - 1]) + BoundIn(methods[|methods| - 1])
  }

  lemma {:induction false} CompileBinds(table: Table, local: string, e: Expr, t: Type, g: Gen)
    ensures g.index <= Compile(table, local, e, t, g).1.index
    ensures Bound(Compile(table, local, e, t, g).0) == Range(g.index, Compile(table, local, e, t, g).1.index)
    decreases t
  {
    match t
    case Pointer(elem) => CompileBinds(table, local, Deref(e), elem, g);
    case Array(_, elem) => CompileBinds(table, local, Index(e, g.index), elem, g.(index := g.index + 1));
    case _ =>
  }

  lemma {:induction false} FieldsBind(table: Table, local: string, fields: seq<Field>, g: Gen)
    ensures g.index <= CompileFields(table, local, fields, g).1.index
    ensures BoundIn(CompileFields(table, local, fields, g).0)
      == Range(g.index, CompileFields(table, local, fields, g).1.index)
  {
    if fields != [] {
      var n := |fields| - 1;
      var (ops, g1) := CompileFields(table, local, fields[..n], g);
      FieldsBind(table, local, fields[..n], g);
      if fields[n].name != "_" {
        CompileBinds(table, local, Select(Receiver, n), fields[n].typ, g1);
        var op := Compile(table, local, Select(Receiver, n), fields[n].typ, g1).0;
        assert (ops + [op])[..|ops|] == ops;
      }
    }
  }

  /** No loop variable is bound twice in a package, so no loop captures another's. */
  lemma {:induction false} LoopVariablesDistinct(table: Table, local: string, structs: seq<seq<Field>>)
    ensures BoundInAll(CompileMethods(table, local, structs).0) == Range(0, CompileMethods(table, local, structs).1.index)
  {
    if structs != [] {
      var n := |structs| - 1;
      var (methods, g) := CompileMethods(table, local, structs[..n]);
      LoopVariablesDistinct(table, local, structs[..n]);
      FieldsBind(table, local, structs[n], g);
      var ops := CompileFields(table, local, structs[n], g).0;
      assert (methods + [ops])[..|methods|] == methods;
    }
  }

  /** The paths that e dereferences. */
  function Derefs(e: Expr): set<Expr> {
    match e
    case Receiver => {}
    case Select(x, _) => Derefs(x)
    case Deref(x) => Derefs(x) + {x}
    case Index(x, _) => Derefs(x)
  }

  /** Every dereference in op happens under a test that the same path is not nil. */
  predicate Guarded(op: Op, tested: set<Expr>) {
    && Derefs(op.expr) <= tested
    && (op.PointerOp? ==> Guarded(op.body, tested + {op.expr}))
    && (op.ArrayOp? ==> Guarded(op.body, tested))
  }

  lemma {:induction false} CompileGuards(table: Table, local: string, e: Expr, t: Type, g: Gen, tested: set<Expr>)
    requires Derefs(e) <= tested
    ensures Guarded(Compile(table, local, e, t, g).0, tested)
    decreases t
  {
    match t
    case Pointer(elem) => CompileGuards(table, local, Deref(e), elem, g, tested + {e});
    case Array(_, elem) => CompileGuards(table, local, Index(e, g.index), elem, g.(index := g.index + 1), tested);
    case _ =>
  }

  // ---------------------------------------------------------------- what the printed type names mean

  /** Every type name in op means the type it was printed from; bound are the loops around op. */
  predicate NamesOk(table: Table, sc: Scope, imports: Imports, bound: set<nat>, op: Op)
    decreases op
  {
    match op
    case PointerOp(_, body) => NamesOk(table, sc, imports, bound, body)
    case ArrayOp(_, index, body) => NamesOk(table, sc, imports, bound + {index}, body)
    case StructOp(_, id, name) => Means(sc, Locals(bound) + ASSERTED, imports, name, MentionsOf(table, id))
    case ZeroOp(_, typ, name) => typ.Other? && Means(sc, Locals(bound), imports, name, typ.mentions)
    case _ => true
  }

  predicate AllNamesOk(table: Table, sc: Scope, imports: Imports, ops: seq<Op>) {
    forall op | op in ops :: NamesOk(table, sc, imports, {}, op)
  }

  /** The names that the printed form of t mentions are declared where the struct is. */
  predicate TypeDeclared(table: Table, sc: Scope, t: Type) {
    match t
    case Pointer(elem) => TypeDeclared(table, sc, elem)
    case Array(_, elem) => TypeDeclared(table, sc, elem)
    case Struct(id) => forall m | m in MentionsOf(table, id) :: Declared(sc, m)
    case Other(mentions) => forall m | m in mentions :: Declared(sc, m)
    case _ => true
  }

  predicate FieldsDeclared(table: Table, sc: Scope, fields: seq<Field>) {
    forall f | f in fields && f.name != "_" :: TypeDeclared(table, sc, f.typ)
  }

  /** A name that has to be printed for t is lost: hidden by a type parameter, by rs, by the variable of an enclosing loop,
      by resetter or ok if it is part of a struct, or by a declaration of the package if it is predeclared; or out of reach
      in another package. index is the number of the next loop, bound are the loops around. */
  predicate Hidden(table: Table, sc: Scope, imports: Imports, t: Type, index: nat, bound: set<nat>)
    decreases t
  {
    match t
    case Pointer(elem) => Hidden(table, sc, imports, elem, index, bound)
    case Array(_, elem) => Hidden(table, sc, imports, elem, index + 1, bound + {index})
    case Struct(id) => AnyLost(sc, Locals(bound) + ASSERTED, imports, MentionsOf(table, id))
    case Other(mentions) => AnyLost(sc, Locals(bound), imports, mentions)
    case _ => false
  }

  /** How many loops a type needs. */
  function Loops(t: Type): nat {
    match t
    case Pointer(elem) => Loops(elem)
    case Array(_, elem) => 1 + Loops(elem)
    case _ => 0
  }

  function FieldLoops(fields: seq<Field>): nat {
    if fields == [] then 0
    else FieldLoops(fields[..|fields| - 1]) + if fields[|fields| - 1].name == "_" then 0 else Loops(fields[|fields| - 1].typ)
  }

  predicate AnyHidden(table: Table, sc: Scope, imports: Imports, fields: seq<Field>, index: nat) {
    exists i :: 0 <= i < |fields| && HiddenAt(table, sc, imports, fields, index, i)
  }

  predicate HiddenAt(table: Table, sc: Scope, imports: Imports, fields: seq<Field>, index: nat, i: nat)
    requires i < |fields|
  {
    fields[i].name != "_" && Hidden(table, sc, imports, fields[i].typ, index + FieldLoops(fields[..i]), {})
  }

  lemma {:induction false} CompileIndex(table: Table, local: string, e: Expr, t: Type, g: Gen)
    ensures Compile(table, local, e, t, g).1.index == g.index + Loops(t)
    decreases t
  {
    match t
    case Pointer(elem) => CompileIndex(table, local, Deref(e), elem, g);
    case Array(_, elem) => CompileIndex(table, local, Index(e, g.index), elem, g.(index := g.index + 1));
    case _ =>
  }

  lemma {:induction false} FieldsIndex(table: Table, local: string, fields: seq<Field>, g: Gen)
    ensures CompileFields(table, local, fields, g).1.index == g.index + FieldLoops(fields)
  {
    if fields != [] {
      var n := |fields| - 1;
      FieldsIndex(table, local, fields[..n], g);
      CompileIndex(table, local, Select(Receiver, n), fields[n].typ, CompileFields(table, local, fields[..n], g).1);
    }
  }

  lemma {:induction false} CompileImports(table: Table, local: string, e: Expr, t: Type, g: Gen)
    ensures Extends(g.imports, Compile(table, local, e, t, g).1.imports)
    ensures Numbered(g.imports) ==> Numbered(Compile(table, local, e, t, g).1.imports)
    decreases t
  {
    match t
    case Pointer(elem) => CompileImports(table, local, Deref(e), elem, g);
    case Array(_, elem) => CompileImports(table, local, Index(e, g.index), elem, g.(index := g.index + 1));
    case Struct(id) =>
      if Numbered(g.imports) { QualifyNumbers(local, g.imports, MentionsOf(table, id)); }
    case Other(mentions) =>
      if Numbered(g.imports) { QualifyNumbers(local, g.imports, mentions); }
    case _ =>
  }

  lemma {:induction false} FieldsImports(table: Table, local: string, fields: seq<Field>, g: Gen)
    ensures Extends(g.imports, CompileFields(table, local, fields, g).1.imports)
    ensures Numbered(g.imports) ==> Numbered(CompileFields(table, local, fields, g).1.imports)
  {
    if fields != [] {
      var n := |fields| - 1;
      FieldsImports(table, local, fields[..n], g);
      CompileImports(table, local, Select(Receiver, n), fields[n].typ, CompileFields(table, local, fields[..n], g).1);
    }
  }

  /** The type names of an operation mean what they were printed from exactly if none is hidden. */
  lemma {:induction false} CompileNames(table: Table, sc: Scope, e: Expr, t: Type, g: Gen, bound: set<nat>, more: Imports)
    requires Extends(Compile(table, sc.local, e, t, g).1.imports, more)
    requires TypeDeclared(table, sc, t)
    ensures NamesOk(table, sc, more, bound, Compile(table, sc.local, e, t, g).0) <==> !Hidden(table, sc, more, t, g.index, bound)
    decreases t
  {
    match t
    case Pointer(elem) => CompileNames(table, sc, Deref(e), elem, g, bound, more);
    case Array(_, elem) =>
      CompileNames(table, sc, Index(e, g.index), elem, g.(index := g.index + 1), bound + {g.index}, more);
    case Struct(id) => StructName(table, sc, e, id, g, bound, more);
    case Other(mentions) => OtherName(table, sc, e, mentions, g, bound, more);
    case _ =>
  }

  lemma StructName(table: Table, sc: Scope, e: Expr, id: nat, g: Gen, bound: set<nat>, more: Imports)
    requires Extends(Qualify(sc.local, g.imports, MentionsOf(table, id)).1, more)
    requires forall m | m in MentionsOf(table, id) :: Declared(sc, m)
    ensures NamesOk(table, sc, more, bound, Compile(table, sc.local, e, Struct(id), g).0)
      <==> !Hidden(table, sc, more, Struct(id), g.index, bound)
  {
    VariablesAreNoAliases(bound);
    QualifyMeans(sc, Locals(bound) + ASSERTED, g.imports, MentionsOf(table, id), more);
  }

  lemma OtherName(table: Table, sc: Scope, e: Expr, mentions: seq<Mention>, g: Gen, bound: set<nat>, more: Imports)
    requires Extends(Qualify(sc.local, g.imports, mentions).1, more)
    requires forall m | m in mentions :: Declared(sc, m)
    ensures NamesOk(table, sc, more, bound, Compile(table, sc.local, e, Other(mentions), g).0)
      <==> !Hidden(table, sc, more, Other(mentions), g.index, bound)
  {
    VariablesAreNoAliases(bound);
    QualifyMeans(sc, Locals(bound), g.imports, mentions, more);
  }

  lemma {:induction false} FieldsNames(table: Table, sc: Scope, fields: seq<Field>, g: Gen, more: Imports)
    requires Extends(CompileFields(table, sc.local, fields, g).1.imports, more)
    requires FieldsDeclared(table, sc, fields)
    ensures AllNamesOk(table, sc, more, CompileFields(table, sc.local, fields, g).0)
      <==> !AnyHidden(table, sc, more, fields, g.index)
  {
    if fields != [] {
      var n := |fields| - 1;
      LastImports(table, sc, fields, g);
      HiddenAppend(table, sc, more, fields, g.index);
      FieldsNames(table, sc, fields[..n], g, more);
      if fields[n].name != "_" {
        var (ops, g1) := CompileFields(table, sc.local, fields[..n], g);
        FieldsIndex(table, sc.local, fields[..n], g);
        assert fields[n] in fields;
        FieldNames(table, sc, fields, n, g.index, g1, more);
        NamesAppend(table, sc, more, ops, Compile(table, sc.local, Select(Receiver, n), fields[n].typ, g1).0);
      }
    }
  }

  lemma LastImports(table: Table, sc: Scope, fields: seq<Field>, g: Gen)
    requires fields != []
    ensures Extends(CompileFields(table, sc.local, fields[..|fields| - 1], g).1.imports,
                    CompileFields(table, sc.local, fields, g).1.imports)
  {
    var n := |fields| - 1;
    CompileImports(table, sc.local, Select(Receiver, n), fields[n].typ, CompileFields(table, sc.local, fields[..n], g).1);
  }

  /** The same for the i-th field, compiled at g. */
  lemma FieldNames(table: Table, sc: Scope, fields: seq<Field>, i: nat, index: nat, g: Gen, more: Imports)
    requires i < |fields| && fields[i].name != "_" && TypeDeclared(table, sc, fields[i].typ)
    requires g.index == index + FieldLoops(fields[..i])
    requires Extends(Compile(table, sc.local, Select(Receiver, i), fields[i].typ, g).1.imports, more)
    ensures NamesOk(table, sc, more, {}, Compile(table, sc.local, Select(Receiver, i), fields[i].typ, g).0)
      <==> !HiddenAt(table, sc, more, fields, index, i)
  {
    CompileNames(table, sc, Select(Receiver, i), fields[i].typ, g, {}, more);
  }

  lemma NamesAppend(table: Table, sc: Scope, imports: Imports, ops: seq<Op>, op: Op)
    ensures AllNamesOk(table, sc, imports, ops + [op])
      <==> AllNamesOk(table, sc, imports, ops) && NamesOk(table, sc, imports, {}, op)
  {
    assert op in ops + [op];
  }

  lemma HiddenAppend(table: Table, sc: Scope, imports: Imports, fields: seq<Field>, index: nat)
    requires fields != []
    ensures AnyHidden(table, sc, imports, fields, index) <==>
      AnyHidden(table, sc, imports, fields[..|fields| - 1], index) || HiddenAt(table, sc, imports, fields, index, |fields| - 1)
  {
    var n := |fields| - 1;
    forall i | 0 <= i < n ensures HiddenAt(table, sc, imports, fields, index, i) <==> HiddenAt(table, sc, imports, fields[..n], index, i) {
      assert fields[..n][..i] == fields[..i];
    }
  }

  /** The imports of a finished file extend what each of its methods was printed with, and no two packages share an
      alias. */
  lemma {:induction false} FileImports(table: Table, local: string, structs: seq<seq<Field>>)
    ensures Numbered(CompileMethods(table, local, structs).1.imports)
  {
    if structs != [] {
      var n := |structs| - 1;
      FileImports(table, local, structs[..n]);
      FieldsImports(table, local, structs[n], CompileMethods(table, local, structs[..n]).1);
    }
  }

  /** The number of the first loop of the k-th method. */
  function FirstLoop(structs: seq<seq<Field>>, k: nat): nat
    requires k <= |structs|
  {
    if k == 0 then 0 else FirstLoop(structs, k - 1) + FieldLoops(structs[k - 1])
  }

  lemma {:induction false} FirstLoopPrefix(structs: seq<seq<Field>>, n: nat, k: nat)
    requires k <= n <= |structs|
    ensures FirstLoop(structs[..n], k) == FirstLoop(structs, k)
  {
    if k > 0 {
      FirstLoopPrefix(structs, n, k - 1);
    }
  }

  lemma {:induction false} MethodsIndex(table: Table, local: string, structs: seq<seq<Field>>)
    ensures CompileMethods(table, local, structs).1.index == FirstLoop(structs, |structs|)
  {
    if structs != [] {
      var n := |structs| - 1;
      MethodsIndex(table, local, structs[..n]);
      FirstLoopPrefix(structs, n, n);
      FieldsIndex(table, local, structs[n], CompileMethods(table, local, structs[..n]).1);
    }
  }

  /** The k-th method is compiled from the k-th struct, with the loop numbers and the imports of those before. */
  lemma {:induction false} MethodAt(table: Table, local: string, structs: seq<seq<Field>>, k: nat)
    requires k < |structs|
    ensures var (methods, last) := CompileMethods(table, local, structs);
      var (ops, g) := CompileFields(table, local, structs[k], CompileMethods(table, local, structs[..k]).1);
      |methods| == |structs| && methods[k] == ops && Extends(g.imports, last.imports)
  {
    var n := |structs| - 1;
    var g := CompileMethods(table, local, structs[..n]).1;
    FieldsImports(table, local, structs[n], g);
    if k < n {
      MethodAt(table, local, structs[..n], k);
      assert structs[..n][..k] == structs[..k];
    } else if n > 0 {
      MethodAt(table, local, structs[..n], n - 1);
    }
  }

  /** With the imports that the finished file declares, the type names in its k-th method mean the types they were
      printed from exactly if none of them is hidden there. */
  lemma FileNames(table: Table, sc: Scope, structs: seq<seq<Field>>, k: nat, more: Imports)
    requires k < |structs| && Extends(CompileMethods(table, sc.local, structs).1.imports, more)
    requires FieldsDeclared(table, sc, structs[k])
    ensures |CompileMethods(table, sc.local, structs).0| == |structs|
    ensures AllNamesOk(table, sc, more, CompileMethods(table, sc.local, structs).0[k])
      <==> !AnyHidden(table, sc, more, structs[k], FirstLoop(structs, k))
  {
    MethodAt(table, sc.local, structs, k);
    MethodsIndex(table, sc.local, structs[..k]);
    FirstLoopPrefix(structs, k, k);
    FieldsNames(table, sc, structs[k], CompileMethods(table, sc.local, structs[..k]).1, more);
  }

  /** A local struct type called like a variable around its zeroing cannot be a field of a marked struct: rs, the variables
      of the type assertion, a type parameter, or the variable of the loop over an array. */
  lemma VariablesHide(table: Table, sc: Scope, imports: Imports, id: nat, name: string, len: nat, field: string, index: nat)
    requires id < |table| && table[id].mentions == [Mention(Package(sc.local), name)] && field != "_"
    ensures name in {"rs", "resetter", "ok"} || name in sc.params ==>
      AnyHidden(table, sc, imports, [Field(field, Struct(id))], index)
    ensures name == "i" + Decimal(index) ==> AnyHidden(table, sc, imports, [Field(field, Array(len, Struct(id)))], index)
  {
    var m := Mention(Package(sc.local), name);
    assert m in table[id].mentions && {} + {index} == {index};
    if name in {"rs", "resetter", "ok"} || name in sc.params {
      assert Lost(sc, Locals({}) + ASSERTED, imports, m);
      assert HiddenAt(table, sc, imports, [Field(field, Struct(id))], index, 0);
    }
    if name == LoopName(index) {
      assert Lost(sc, Locals({index}) + ASSERTED, imports, m);
      assert HiddenAt(table, sc, imports, [Field(field, Array(len, Struct(id)))], index, 0);
    }
  }

  /** Nor can an array type of another package whose elements are a struct type that this package does not export: the
      generator unwraps the array and prints the name of the elements. */
  lemma UnexportedElementIsHidden(table: Table, sc: Scope, imports: Imports, id: nat, path: string, ident: string, len: nat,
                                  field: string, index: nat)
    requires id < |table| && table[id].mentions == [Mention(Package(path), ident)] && path != sc.local
    requires ident != "" && 'a' <= ident[0] <= 'z' && field != "_"
    ensures AnyHidden(table, sc, imports, [Field(field, Array(len, Struct(id)))], index)
  {
    var m := Mention(Package(path), ident);
    assert m in table[id].mentions && Lost(sc, Locals({index}) + ASSERTED, imports, m);
    assert {} + {index} == {index};
    assert HiddenAt(table, sc, imports, [Field(field, Array(len, Struct(id)))], index, 0);
  }

  /** No type name is printed for it. */
  predicate Nameless(t: Type) {
    match t
    case Pointer(elem) => Nameless(elem)
    case Array(_, elem) => Nameless(elem)
    case Struct(_) => false
    case Other(_) => false
    case _ => true
  }

  lemma {:induction false} NamelessNotHidden(table: Table, sc: Scope, imports: Imports, t: Type, index: nat, bound: set<nat>)
    requires Nameless(t)
    ensures !Hidden(table, sc, imports, t, index, bound)
    decreases t
  {
    match t
    case Pointer(elem) => NamelessNotHidden(table, sc, imports, elem, index, bound);
    case Array(_, elem) => NamelessNotHidden(table, sc, imports, elem, index + 1, bound + {index});
    case _ =>
  }
}
