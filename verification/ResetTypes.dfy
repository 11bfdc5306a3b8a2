/** The Go types and values that generated Reset methods work on, access paths into a value, and what the
    documentation says a Reset does (cmd/reset/main.go, cmd/reset/reset.tmpl, README.md:263-290). */
module ResetTypes {
  import opened Metrics

  datatype ScalarKind = Numeric | Boolean | Textual | UnsafePointer

  /** What a name in the printed form of a type is: a type declared in a package, a type parameter, a predeclared type, or
      a field or method of an unnamed type that only the package it was written in can spell. */
  datatype Origin = Package(path: string) | TypeParameter | Universe | Member(owner: string)

  /** One name among those that make up the printed form of a type. */
  datatype Mention = Mention(origin: Origin, ident: string)

  /** A type as reset sees it. Struct(id) is the id-th entry of a table; Other stands for interfaces, functions,
      channels and type parameters, with the names that its printed form mentions. */
  datatype Type =
    | Basic(kind: ScalarKind)
    | Pointer(elem: Type)
    | Slice
    | Map
    | Struct(id: nat)
    | Array(len: nat, elem: Type)
    | Other(mentions: seq<Mention>)

  datatype Scalar = Number(n: real) | Flag(b: bool) | Text(s: string) | Address(a: nat)

  /** Values are trees; addr is the identity of an allocation. A slice keeps all the cells of its backing array,
      whatever its length. Opaque(0) is the zero value of an Other type. */
  datatype Value =
    | Scalar(scalar: Scalar)
    | Nil
    | Ref(addr: nat, target: Value)
    | SliceOf(addr: nat, cells: seq<Value>, len: nat)
    | MapOf(addr: nat, entries: map<string, Value>)
    | Record(fields: seq<Value>)
    | Elements(elems: seq<Value>)
    | Opaque(n: nat)

  datatype Field = Field(name: string, typ: Type)

  /** What the method set of a pointer to the struct offers; a Reset promoted from an embedded field is Custom. */
  datatype ResetMethod = Generated | Custom(effect: Value -> Value) | Absent

  datatype Def = Def(fields: seq<Field>, reset: ResetMethod, mentions: seq<Mention>)

  type Table = seq<Def>

  function ZeroScalar(kind: ScalarKind): Scalar {
    match kind
    case Numeric => Number(0.0)
    case Boolean => Flag(false)
    case Textual => Text("")
    case UnsafePointer => Address(0)
  }

  predicate IsOfKind(s: Scalar, kind: ScalarKind) {
    match kind
    case Numeric => s.Number?
    case Boolean => s.Flag?
    case Textual => s.Text?
    case UnsafePointer => s.Address?
  }

  /** The struct that a value of type t holds directly, counting from 1. */
  function DirectId(t: Type): nat {
    match t
    case Struct(id) => id + 1
    case Array(_, elem) => DirectId(elem)
    case _ => 0
  }

  /** Structs that hold each other by value come in order, since Go has no infinite types. */
  predicate WellFounded(table: Table) {
    forall id, f | 0 <= id < |table| && f in table[id].fields :: DirectId(f.typ) <= id
  }

  function Zero(table: Table, t: Type): Value
    requires WellFounded(table)
    decreases DirectId(t), t
  {
    match t
    case Basic(kind) => Scalar(ZeroScalar(kind))
    case Struct(id) =>
      if id < |table|
      then Record(seq(|table[id].fields|, i requires 0 <= i < |table[id].fields| => Zero(table, table[id].fields[i].typ)))
      else Nil
    case Array(len, elem) => Elements(seq(len, i => Zero(table, elem)))
    case Other(_) => Opaque(0)
    case _ => Nil
  }

  predicate Typed(table: Table, t: Type, v: Value)
    decreases v
  {
    match t
    case Basic(kind) => v.Scalar? && IsOfKind(v.scalar, kind)
    case Pointer(elem) => v.Nil? || (v.Ref? && Typed(table, elem, v.target))
    case Slice => v.Nil? || v.SliceOf?
    case Map => v.Nil? || v.MapOf?
    case Struct(id) =>
      id < |table| && v.Record? && |v.fields| == |table[id].fields|
      && forall i | 0 <= i < |v.fields| :: Typed(table, table[id].fields[i].typ, v.fields[i])
    case Array(len, elem) =>
      v.Elements? && |v.elems| == len && forall i | 0 <= i < len :: Typed(table, elem, v.elems[i])
    case Other(_) => v.Opaque?
  }

  /** How deep structs are nested in v, through pointers and arrays. */
  function Height(v: Value): nat
    decreases v
  {
    match v
    case Ref(_, target) => Height(target)
    case Record(fields) => 1 + MaxHeight(fields)
    case Elements(elems) => MaxHeight(elems)
    case _ => 0
  }

  function MaxHeight(vs: seq<Value>): nat
    decreases vs
  {
    if vs == [] then 0
    else
      var rest, last := MaxHeight(vs[..|vs| - 1]), Height(vs[|vs| - 1]);
      if rest < last then last else rest
  }

  lemma {:induction false} HeightAt(vs: seq<Value>, i: nat)
    requires i < |vs|
    ensures Height(vs[i]) <= MaxHeight(vs)
  {
    if i < |vs| - 1 {
      HeightAt(vs[..|vs| - 1], i);
    }
  }

  // ---------------------------------------------------------------- what a Reset does

  /** The documented reset of a value: basics become zero, slices lose their length and maps their entries in place,
      pointers are kept and their targets reset, nil stays nil, arrays are reset element by element. A struct is
      reset by its own method if it has one and zeroed otherwise. Blank fields cannot be named and stay. */
  function ResetOf(table: Table, t: Type, v: Value): Value
    requires WellFounded(table)
    decreases v, 0, 0
  {
    match t
    case Basic(kind) => Scalar(ZeroScalar(kind))
    case Pointer(elem) => if v.Ref? then v.(target := ResetOf(table, elem, v.target)) else v
    case Slice => if v.SliceOf? then v.(len := 0) else v
    case Map => if v.MapOf? then v.(entries := map[]) else v
    case Struct(id) =>
      if id >= |table| then v
      else (
        match table[id].reset
        case Generated => if v.Record? then Record(ResetFields(table, table[id].fields, v.fields)) else v
        case Custom(effect) => effect(v)
        case Absent => Zero(table, t)
      )
    case Array(_, elem) =>
      if v.Elements?
      then Elements(seq(|v.elems|, i requires 0 <= i < |v.elems| => ResetOf(table, elem, v.elems[i]))) else v
    case Other(_) => Opaque(0)
  }

  function ResetFields(table: Table, fields: seq<Field>, vs: seq<Value>): (r: seq<Value>)
    requires WellFounded(table)
    ensures |r| == |vs|
    decreases vs, 1, |fields|
  {
    if fields == [] then vs
    else
      var n := |fields| - 1;
      var r := ResetFields(table, fields[..n], vs);
      if fields[n].name == "_" || n >= |vs| then r else r[n := ResetOf(table, fields[n].typ, vs[n])]
  }

  /** Each named field is reset by its own type, the others stay as they are. */
  lemma {:induction false} ResetFieldsAt(table: Table, fields: seq<Field>, vs: seq<Value>, i: nat)
    requires WellFounded(table) && i < |vs|
    ensures ResetFields(table, fields, vs)[i]
      == if i < |fields| && fields[i].name != "_" then ResetOf(table, fields[i].typ, vs[i]) else vs[i]
  {
    if fields != [] {
      ResetFieldsAt(table, fields[..|fields| - 1], vs, i);
    }
  }

  // ---------------------------------------------------------------- access paths

  /** rs, e.field, (*e) and e[index] of the generated code; fields are numbered, loop variables too. */
  datatype Expr = Receiver | Select(e: Expr, field: nat) | Deref(e: Expr) | Index(e: Expr, index: nat)

  type Vars = map<nat, nat>

  function Mentioned(e: Expr): set<nat> {
    match e
    case Receiver => {}
    case Select(x, _) => Mentioned(x)
    case Deref(x) => Mentioned(x)
    case Index(x, n) => Mentioned(x) + {n}
  }

  /** The value at e, or None where Go would panic. */
  function Get(root: Value, e: Expr, vars: Vars): Option<Value> {
    match e
    case Receiver => Some(root)
    case Select(x, i) =>
      var v := Get(root, x, vars);
      if v.Some? && v.value.Record? && i < |v.value.fields| then Some(v.value.fields[i]) else None
    case Deref(x) =>
      var v := Get(root, x, vars);
      if v.Some? && v.value.Ref? then Some(v.value.target) else None
    case Index(x, n) =>
      var v := Get(root, x, vars);
      if v.Some? && v.value.Elements? && n in vars && vars[n] < |v.value.elems| then Some(v.value.elems[vars[n]]) else None
  }

  /** The root after the assignment e = w. */
  function Set(root: Value, e: Expr, vars: Vars, w: Value): Option<Value> {
    match e
    case Receiver => Some(w)
    case Select(x, i) =>
      var v := Get(root, x, vars);
      if v.Some? && v.value.Record? && i < |v.value.fields|
      then Set(root, x, vars, Record(v.value.fields[i := w])) else None
    case Deref(x) =>
      var v := Get(root, x, vars);
      if v.Some? && v.value.Ref? then Set(root, x, vars, v.value.(target := w)) else None
    case Index(x, n) =>
      var v := Get(root, x, vars);
      if v.Some? && v.value.Elements? && n in vars && vars[n] < |v.value.elems|
      then Set(root, x, vars, Elements(v.value.elems[vars[n] := w])) else None
  }

  lemma {:induction false} GetSet(root: Value, e: Expr, vars: Vars, w: Value)
    requires Get(root, e, vars).Some?
    ensures Set(root, e, vars, w).Some? && Get(Set(root, e, vars, w).value, e, vars) == Some(w)
  {
    match e
    case Receiver =>
    case Select(x, i) => GetSet(root, x, vars, Record(Get(root, x, vars).value.fields[i := w]));
    case Deref(x) => GetSet(root, x, vars, Get(root, x, vars).value.(target := w));
    case Index(x, n) => GetSet(root, x, vars, Elements(Get(root, x, vars).value.elems[vars[n] := w]));
  }

  lemma {:induction false} SetGet(root: Value, e: Expr, vars: Vars)
    requires Get(root, e, vars).Some?
    ensures Set(root, e, vars, Get(root, e, vars).value) == Some(root)
  {
    if e != Receiver {
      SetGet(root, e.e, vars);
      var v := Get(root, e.e, vars).value;
      match e
      case Select(x, i) => assert v.fields[i := v.fields[i]] == v.fields;
      case Deref(x) =>
      case Index(x, n) => assert v.elems[vars[n] := v.elems[vars[n]]] == v.elems;
    }
  }

  lemma {:induction false} SetSet(root: Value, e: Expr, vars: Vars, w: Value, u: Value)
    requires Get(root, e, vars).Some?
    ensures Set(root, e, vars, w).Some? && Set(Set(root, e, vars, w).value, e, vars, u) == Set(root, e, vars, u)
  {
    if e != Receiver {
      var v := Get(root, e.e, vars).value;
      match e
      case Select(x, i) =>
        var v' := Record(v.fields[i := w]);
        GetSet(root, x, vars, v');
        SetSet(root, x, vars, v', Record(v.fields[i := u]));
        assert v.fields[i := w][i := u] == v.fields[i := u];
      case Deref(x) =>
        GetSet(root, x, vars, v.(target := w));
        SetSet(root, x, vars, v.(target := w), v.(target := u));
      case Index(x, n) =>
        var v' := Elements(v.elems[vars[n] := w]);
        GetSet(root, x, vars, v');
        SetSet(root, x, vars, v', Elements(v.elems[vars[n] := u]));
        assert v.elems[vars[n] := w][vars[n] := u] == v.elems[vars[n] := u];
    }
  }

  /** A loop variable that a path does not mention has no say in it. */
  lemma {:induction false} FreshGet(root: Value, e: Expr, vars: Vars, n: nat, k: nat)
    requires n !in Mentioned(e)
    ensures Get(root, e, vars[n := k]) == Get(root, e, vars)
  {
    if e != Receiver {
      FreshGet(root, e.e, vars, n, k);
    }
  }

  lemma {:induction false} FreshSet(root: Value, e: Expr, vars: Vars, n: nat, k: nat, w: Value)
    requires n !in Mentioned(e) && Get(root, e, vars).Some?
    ensures Set(root, e, vars[n := k], w) == Set(root, e, vars, w)
  {
    if e != Receiver {
      FreshGet(root, e.e, vars, n, k);
      var v := Get(root, e.e, vars).value;
      match e
      case Select(x, i) => FreshSet(root, x, vars, n, k, Record(v.fields[i := w]));
      case Deref(x) => FreshSet(root, x, vars, n, k, v.(target := w));
      case Index(x, m) => FreshSet(root, x, vars, n, k, Elements(v.elems[vars[m] := w]));
    }
  }
}
