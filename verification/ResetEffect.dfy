/** What a documented reset leaves behind: which values it does not change, and which allocations it keeps
    (README.md:279-290). */
module ResetEffect {
  import opened Metrics
  import opened ResetTypes
  import C = ResetCompiler
  import M = ResetMeaning

  /** The zero value of Go, told from the value. */
  predicate IsZero(table: Table, t: Type, v: Value)
    requires WellFounded(table)
    decreases v
  {
    match t
    case Basic(kind) => IsZeroBasic(kind, v)
    case Struct(id) =>
      if id < |table| then
        v.Record? && |v.fields| == |table[id].fields|
        && forall i | 0 <= i < |v.fields| :: IsZero(table, table[id].fields[i].typ, v.fields[i])
      else v == Nil
    case Array(len, elem) => v.Elements? && |v.elems| == len && forall i | 0 <= i < len :: IsZero(table, elem, v.elems[i])
    case Other(_) => v == Opaque(0)
    case _ => v == Nil
  }

  predicate IsZeroBasic(kind: ScalarKind, v: Value) {
    match kind
    case Numeric => v == Scalar(Number(0.0))
    case Boolean => v == Scalar(Flag(false))
    case Textual => v == Scalar(Text(""))
    case UnsafePointer => v == Scalar(Address(0))
  }

  /** var zero T leaves the zero value and no other. */
  lemma {:induction false} ZeroIff(table: Table, t: Type, v: Value)
    requires WellFounded(table)
    ensures IsZero(table, t, v) <==> v == Zero(table, t)
    decreases v
  {
    var zero := Zero(table, t);
    match t
    case Struct(id) =>
      if id < |table| && v.Record? && |v.fields| == |table[id].fields| {
        forall i | 0 <= i < |v.fields|
          ensures IsZero(table, table[id].fields[i].typ, v.fields[i]) <==> v.fields[i] == zero.fields[i]
        {
          ZeroIff(table, table[id].fields[i].typ, v.fields[i]);
        }
        assert v.fields == zero.fields <==> v == zero;
      }
    case Array(len, elem) =>
      if v.Elements? && |v.elems| == len {
        forall i | 0 <= i < len ensures IsZero(table, elem, v.elems[i]) <==> v.elems[i] == zero.elems[i] {
          ZeroIff(table, elem, v.elems[i]);
        }
        assert v.elems == zero.elems <==> v == zero;
      }
    case _ =>
  }

  /** Nothing left to reset: zero basics, empty slices and maps, and the same behind every pointer. */
  predicate IsCleared(table: Table, t: Type, v: Value)
    requires WellFounded(table)
    decreases v
  {
    match t
    case Basic(kind) => IsZeroBasic(kind, v)
    case Pointer(elem) => v.Nil? || (v.Ref? && IsCleared(table, elem, v.target))
    case Slice => v.Nil? || (v.SliceOf? && v.len == 0)
    case Map => v.Nil? || (v.MapOf? && v.entries == map[])
    case Struct(id) =>
      id < |table| && (
        match table[id].reset
        case Generated =>
          v.Record? && |v.fields| == |table[id].fields|
          && forall i | 0 <= i < |v.fields| && table[id].fields[i].name != "_" ::
               IsCleared(table, table[id].fields[i].typ, v.fields[i])
        case Custom(effect) => effect(v) == v
        case Absent => IsZero(table, t, v)
      )
    case Array(len, elem) => v.Elements? && |v.elems| == len && forall i | 0 <= i < len :: IsCleared(table, elem, v.elems[i])
    case Other(_) => v == Opaque(0)
  }

  lemma {:induction false} ClearedIsFixed(table: Table, t: Type, v: Value)
    requires WellFounded(table) && IsCleared(table, t, v)
    ensures ResetOf(table, t, v) == v
    decreases v
  {
    match t
    case Pointer(elem) =>
      if v.Ref? { ClearedIsFixed(table, elem, v.target); }
    case Struct(id) =>
      if table[id].reset.Generated? {
        var fields := table[id].fields;
        forall i | 0 <= i < |v.fields| ensures ResetFields(table, fields, v.fields)[i] == v.fields[i] {
          ResetFieldsAt(table, fields, v.fields, i);
          if fields[i].name != "_" { ClearedIsFixed(table, fields[i].typ, v.fields[i]); }
        }
        assert ResetFields(table, fields, v.fields) == v.fields;
      } else if table[id].reset.Absent? {
        ZeroIff(table, t, v);
      }
    case Array(_, elem) =>
      forall i | 0 <= i < |v.elems| ensures ResetOf(table, elem, v.elems[i]) == v.elems[i] {
        ClearedIsFixed(table, elem, v.elems[i]);
      }
      assert ResetOf(table, t, v).elems == v.elems;
    case _ =>
  }

  lemma {:induction false} FixedIsCleared(table: Table, t: Type, v: Value)
    requires WellFounded(table) && Typed(table, t, v) && ResetOf(table, t, v) == v
    ensures IsCleared(table, t, v)
    decreases v
  {
    match t
    case Pointer(elem) =>
      if v.Ref? { FixedIsCleared(table, elem, v.target); }
    case Struct(id) =>
      if table[id].reset.Generated? {
        var fields := table[id].fields;
        forall i | 0 <= i < |v.fields| && fields[i].name != "_" ensures IsCleared(table, fields[i].typ, v.fields[i]) {
          ResetFieldsAt(table, fields, v.fields, i);
          FixedIsCleared(table, fields[i].typ, v.fields[i]);
        }
      } else if table[id].reset.Absent? {
        ZeroIff(table, t, v);
      }
    case Array(_, elem) =>
      forall i | 0 <= i < |v.elems| ensures IsCleared(table, elem, v.elems[i]) {
        assert ResetOf(table, t, v).elems[i] == ResetOf(table, elem, v.elems[i]);
        FixedIsCleared(table, elem, v.elems[i]);
      }
    case _ =>
  }

  /** The hand-written Reset methods do no more the second time than the first. */
  ghost predicate CustomSettles(table: Table) {
    forall id, v | 0 <= id < |table| && table[id].reset.Custom? && Typed(table, Struct(id), v) ::
      table[id].reset.effect(table[id].reset.effect(v)) == table[id].reset.effect(v)
  }

  lemma {:induction false} ResetClears(table: Table, t: Type, v: Value)
    requires WellFounded(table) && Typed(table, t, v) && CustomSettles(table)
    ensures IsCleared(table, t, ResetOf(table, t, v))
    decreases v
  {
    match t
    case Pointer(elem) =>
      if v.Ref? { ResetClears(table, elem, v.target); }
    case Struct(id) =>
      if table[id].reset.Generated? {
        var fields := table[id].fields;
        forall i | 0 <= i < |v.fields| && fields[i].name != "_"
          ensures IsCleared(table, fields[i].typ, ResetFields(table, fields, v.fields)[i])
        {
          ResetFieldsAt(table, fields, v.fields, i);
          ResetClears(table, fields[i].typ, v.fields[i]);
        }
      } else if table[id].reset.Absent? {
        ZeroIff(table, t, Zero(table, t));
      }
    case Array(_, elem) =>
      forall i | 0 <= i < |v.elems| ensures IsCleared(table, elem, ResetOf(table, elem, v.elems[i])) {
        ResetClears(table, elem, v.elems[i]);
      }
    case _ =>
  }

  ghost predicate Idempotent(table: Table)
    requires WellFounded(table)
  {
    forall t, v | Typed(table, t, v) :: ResetOf(table, t, ResetOf(table, t, v)) == ResetOf(table, t, v)
  }

  /** Resetting twice is resetting once exactly if that holds of the hand-written methods; with none, always. */
  lemma IdempotentIff(table: Table)
    requires WellFounded(table)
    ensures Idempotent(table) <==> CustomSettles(table)
  {
    if CustomSettles(table) {
      forall t, v | Typed(table, t, v) ensures ResetOf(table, t, ResetOf(table, t, v)) == ResetOf(table, t, v) {
        ResetClears(table, t, v);
        ClearedIsFixed(table, t, ResetOf(table, t, v));
      }
    }
    if Idempotent(table) {
      forall id, v | 0 <= id < |table| && table[id].reset.Custom? && Typed(table, Struct(id), v)
        ensures table[id].reset.effect(table[id].reset.effect(v)) == table[id].reset.effect(v)
      {
        assert ResetOf(table, Struct(id), v) == table[id].reset.effect(v);
      }
    }
  }

  /** w has the pointers, backing arrays and maps of v where v is kept rather than zeroed, and its blank fields. */
  predicate Keeps(table: Table, t: Type, v: Value, w: Value)
    decreases v
  {
    match t
    case Pointer(elem) =>
      if v.Ref? then w.Ref? && w.addr == v.addr && Keeps(table, elem, v.target, w.target) else w == v
    case Slice => if v.SliceOf? then w.SliceOf? && w.addr == v.addr && w.cells == v.cells else w == v
    case Map => if v.MapOf? then w.MapOf? && w.addr == v.addr else w == v
    case Struct(id) =>
      id < |table| && (
        match table[id].reset
        case Generated =>
          v.Record? && w.Record? && |w.fields| == |v.fields| == |table[id].fields|
          && forall i | 0 <= i < |v.fields| ::
               if table[id].fields[i].name == "_" then w.fields[i] == v.fields[i]
               else Keeps(table, table[id].fields[i].typ, v.fields[i], w.fields[i])
        case Custom(effect) => w == effect(v)
        case Absent => true
      )
    case Array(len, elem) =>
      v.Elements? && w.Elements? && |w.elems| == |v.elems| == len
      && forall i | 0 <= i < len :: Keeps(table, elem, v.elems[i], w.elems[i])
    case _ => true
  }

  lemma {:induction false} ResetKeeps(table: Table, t: Type, v: Value)
    requires WellFounded(table) && Typed(table, t, v)
    ensures Keeps(table, t, v, ResetOf(table, t, v))
    decreases v
  {
    match t
    case Pointer(elem) =>
      if v.Ref? { ResetKeeps(table, elem, v.target); }
    case Struct(id) =>
      if table[id].reset.Generated? {
        var fields := table[id].fields;
        var r := ResetFields(table, fields, v.fields);
        forall i | 0 <= i < |v.fields|
          ensures if fields[i].name == "_" then r[i] == v.fields[i] else Keeps(table, fields[i].typ, v.fields[i], r[i])
        {
          ResetFieldsAt(table, fields, v.fields, i);
          if fields[i].name != "_" { ResetKeeps(table, fields[i].typ, v.fields[i]); }
        }
      }
    case Array(_, elem) =>
      forall i | 0 <= i < |v.elems| ensures Keeps(table, elem, v.elems[i], ResetOf(table, elem, v.elems[i])) {
        ResetKeeps(table, elem, v.elems[i]);
      }
    case _ =>
  }

  lemma {:induction false} OnlyReset(table: Table, t: Type, v: Value, w: Value)
    requires WellFounded(table) && Typed(table, t, v) && IsCleared(table, t, w) && Keeps(table, t, v, w)
    ensures w == ResetOf(table, t, v)
    decreases v
  {
    match t
    case Pointer(elem) =>
      if v.Ref? { OnlyReset(table, elem, v.target, w.target); }
    case Struct(id) =>
      if table[id].reset.Generated? {
        var fields := table[id].fields;
        forall i | 0 <= i < |v.fields| ensures w.fields[i] == ResetFields(table, fields, v.fields)[i] {
          ResetFieldsAt(table, fields, v.fields, i);
          if fields[i].name != "_" { OnlyReset(table, fields[i].typ, v.fields[i], w.fields[i]); }
        }
        assert w.fields == ResetFields(table, fields, v.fields);
      } else if table[id].reset.Absent? {
        ZeroIff(table, t, w);
      }
    case Array(_, elem) =>
      forall i | 0 <= i < |v.elems| ensures w.elems[i] == ResetOf(table, elem, v.elems[i]) {
        OnlyReset(table, elem, v.elems[i], w.elems[i]);
      }
      assert w.elems == ResetOf(table, t, v).elems;
    case _ =>
  }

  /** The reset of a value is the one cleared value that keeps its allocations. */
  lemma ResetIsUnique(table: Table, t: Type, v: Value, w: Value)
    requires WellFounded(table) && Typed(table, t, v) && CustomSettles(table)
    ensures w == ResetOf(table, t, v) <==> IsCleared(table, t, w) && Keeps(table, t, v, w)
  {
    ResetClears(table, t, v);
    ResetKeeps(table, t, v);
    if IsCleared(table, t, w) && Keeps(table, t, v, w) {
      OnlyReset(table, t, v, w);
    }
  }

  // ---------------------------------------------------------------- what generated code leaves behind

  /** The assignment emitted for a basic field leaves 0, false, "" or nil there. */
  lemma BasicBecomesZero(p: M.Program, f: M.File, e: Expr, kind: ScalarKind, root: Value, vars: Vars, fuel: nat)
    requires M.WellFormed(p) && Get(root, e, vars).Some? && M.Predeclared(f.scope, {"false", "nil"})
    ensures var r := M.Exec(p, f, C.BasicOp(e, kind), root, vars, fuel);
      r.Some? && Get(r.value, e, vars).Some? && IsZeroBasic(kind, Get(r.value, e, vars).value)
  {
    GetSet(root, e, vars, Scalar(ZeroScalar(kind)));
  }

  /** Wherever there is no clash, a generated method leaves the value cleared throughout, on its old allocations. */
  lemma CallClears(p: M.Program, id: nat, rs: Value, fuel: nat)
    requires M.Compiled(p) && M.IsGenerated(p, id) && Typed(p.table, Pointer(Struct(id)), rs) && Height(rs) <= fuel
    requires !M.AnyClash(p)
    ensures var r := M.CallReset(p, id, rs, fuel);
      && r.Some? && Keeps(p.table, Pointer(Struct(id)), rs, r.value)
      && (CustomSettles(p.table) ==> IsCleared(p.table, Pointer(Struct(id)), r.value))
  {
    M.ResetAsDocumented(p, id, rs, fuel);
    ResetKeeps(p.table, Pointer(Struct(id)), rs);
    if CustomSettles(p.table) {
      ResetClears(p.table, Pointer(Struct(id)), rs);
    }
  }
}
