/** How the Reset generator prints type names, and what the printed names stand for where they appear in the emitted
    file (cmd/reset/main.go:140-152, cmd/reset/reset.tmpl:22-32). */
module ResetNames {
  import opened Metrics
  import opened ResetTypes

  /** A type of the package, a type parameter or a predeclared type is printed plain, any other behind an alias; fields
      and methods of unnamed types are printed bare. */
  datatype Word = Plain(ident: string) | Dotted(alias: nat, ident: string) | Bare(ident: string)

  type Name = seq<Word>

  // ---------------------------------------------------------------- generated identifiers

  const DIGITS: string := "0123456789"

  function Decimal(n: nat): (s: string)
    ensures s != [] && (|s| == 1 <==> n < 10)
  {
    if n < 10 then [DIGITS[n]] else Decimal(n / 10) + [DIGITS[n % 10]]
  }

  function LoopName(n: nat): string { "i" + Decimal(n) }

  function AliasName(n: nat): string { "resetpkg" + Decimal(n) }

  lemma DigitsDiffer(a: nat, b: nat)
    requires a < 10 && b < 10 && DIGITS[a] == DIGITS[b]
    ensures a == b
  {
  }

  lemma {:induction false} DecimalInjective(m: nat, n: nat)
    requires Decimal(m) == Decimal(n)
    ensures m == n
  {
    var s, t := Decimal(m), Decimal(n);
    assert s[|s| - 1] == t[|t| - 1];
    DigitsDiffer(m % 10, n % 10);
    if m >= 10 {
      assert s[..|s| - 1] == Decimal(m / 10) && t[..|t| - 1] == Decimal(n / 10);
      DecimalInjective(m / 10, n / 10);
    }
  }

  /** Different numbers give different loop variables and different aliases, and none of one kind is of the other. */
  lemma GeneratedNamesDiffer(m: nat, n: nat)
    ensures LoopName(m) == LoopName(n) ==> m == n
    ensures AliasName(m) == AliasName(n) ==> m == n
    ensures LoopName(m) != AliasName(n)
  {
    if LoopName(m) == LoopName(n) {
      assert LoopName(m)[1..] == Decimal(m) && LoopName(n)[1..] == Decimal(n);
      DecimalInjective(m, n);
    }
    if AliasName(m) == AliasName(n) {
      assert AliasName(m)[8..] == Decimal(m) && AliasName(n)[8..] == Decimal(n);
      DecimalInjective(m, n);
    }
    assert LoopName(m)[0] != AliasName(n)[0];
  }

  // ---------------------------------------------------------------- imports

  type Imports = map<string, nat>

  predicate IsForeign(local: string, m: Mention) { m.origin.Package? && m.origin.path != local }

  function AddImport(local: string, imports: Imports, m: Mention): Imports {
    if IsForeign(local, m) && m.origin.path !in imports then imports[m.origin.path := |imports|] else imports
  }

  function Print(local: string, imports: Imports, m: Mention): Word
    requires IsForeign(local, m) ==> m.origin.path in imports
  {
    if IsForeign(local, m) then Dotted(imports[m.origin.path], m.ident)
    else if m.origin.Member? then Bare(m.ident) else Plain(m.ident)
  }

  function Qualify(local: string, imports: Imports, mentions: seq<Mention>): (r: (Name, Imports))
    ensures |r.0| == |mentions| && Extends(imports, r.1)
  {
    if mentions == [] then ([], imports)
    else
      var (name, imports1) := Qualify(local, imports, mentions[..|mentions| - 1]);
      var m := mentions[|mentions| - 1];
      var imports2 := AddImport(local, imports1, m);
      (name + [Print(local, imports2, m)], imports2)
  }

  /** Every import has an alias of its own. */
  predicate Numbered(imports: Imports) {
    && (forall p | p in imports :: imports[p] < |imports|)
    && (forall p, q | p in imports && q in imports && p != q :: imports[p] != imports[q])
  }

  predicate Extends(imports: Imports, more: Imports) {
    forall p | p in imports :: p in more && more[p] == imports[p]
  }

  // ---------------------------------------------------------------- scopes

  /** What an identifier in a method of the package may stand for: decls are declared at package level, params are
      the type parameters of the method's receiver. importable are the packages that it may import, which leaves out
      internal ones of other trees. */
  datatype Scope = Scope(local: string, decls: set<string>, params: set<string>, importable: set<string>)

  /** Variables of the method body inside the given loops. */
  function Locals(bound: set<nat>): set<string> { {"rs"} + set n | n in bound :: LoopName(n) }

  /** Variables of the type assertion, in scope in both of its branches. */
  const ASSERTED: set<string> := {"resetter", "ok"}

  /** Only ASCII identifiers are considered. */
  predicate Exported(ident: string) { ident != "" && 'A' <= ident[0] <= 'Z' }

  /** The rules of Go: inner declarations hide outer ones, a variable is no type, only exported names are reached through
      an import, and an unnamed type spelled here has members of this package. */
  predicate Denotes(sc: Scope, vars: set<string>, imports: Imports, w: Word, m: Mention) {
    match w
    case Plain(ident) =>
      && ident !in vars && m.ident == ident
      && m.origin == if ident in sc.params then TypeParameter
                     else if ident in sc.decls then Package(sc.local) else Universe
    case Dotted(alias, ident) =>
      && AliasName(alias) !in vars + sc.params && m.ident == ident && Exported(ident)
      && IsForeign(sc.local, m) && m.origin.path in sc.importable
      && m.origin.path in imports && imports[m.origin.path] == alias
    case Bare(ident) => m == Mention(Member(sc.local), ident)
  }

  predicate Means(sc: Scope, vars: set<string>, imports: Imports, name: Name, mentions: seq<Mention>) {
    |name| == |mentions| && forall i | 0 <= i < |name| :: Denotes(sc, vars, imports, name[i], mentions[i])
  }

  /** A name has at most one meaning. */
  lemma MeansOne(sc: Scope, vars: set<string>, imports: Imports, name: Name, a: seq<Mention>, b: seq<Mention>)
    requires Numbered(imports) && Means(sc, vars, imports, name, a) && Means(sc, vars, imports, name, b)
    ensures a == b
  {
    forall i | 0 <= i < |name| ensures a[i] == b[i] {
      assert Denotes(sc, vars, imports, name[i], a[i]) && Denotes(sc, vars, imports, name[i], b[i]);
    }
  }

  /** What holds of a name in the type of a field, in a package that builds. */
  predicate Declared(sc: Scope, m: Mention) {
    match m.origin
    case Package(path) => path == sc.local ==> m.ident in sc.decls
    case TypeParameter => m.ident in sc.params
    case _ => true
  }

  /** The printed name does not mean m here: something nearer has the same identifier, or m belongs to a package that
      does not export it, that cannot be imported, or whose alias is taken. */
  predicate Lost(sc: Scope, vars: set<string>, imports: Imports, m: Mention) {
    match m.origin
    case Package(path) =>
      if path == sc.local then m.ident in vars + sc.params
      else !Exported(m.ident) || path !in sc.importable || (path in imports && AliasName(imports[path]) in sc.params)
    case TypeParameter => m.ident in vars
    case Universe => m.ident in vars + sc.params + sc.decls
    case Member(owner) => owner != sc.local
  }

  predicate AnyLost(sc: Scope, vars: set<string>, imports: Imports, mentions: seq<Mention>) {
    exists m | m in mentions :: Lost(sc, vars, imports, m)
  }

  ghost predicate NoAlias(names: set<string>) { forall n: nat :: AliasName(n) !in names }

  lemma VariablesAreNoAliases(bound: set<nat>)
    ensures NoAlias(Locals(bound)) && NoAlias(Locals(bound) + ASSERTED)
  {
    forall n: nat ensures AliasName(n) !in Locals(bound) + ASSERTED {
      assert AliasName(n)[5] == 'p' && "resetter"[5] == 't';
      forall k | k in bound ensures LoopName(k) != AliasName(n) {
        GeneratedNamesDiffer(k, n);
      }
    }
  }

  lemma PrintDenotes(sc: Scope, vars: set<string>, imports: Imports, m: Mention)
    requires Declared(sc, m) && NoAlias(vars)
    requires IsForeign(sc.local, m) ==> m.origin.path in imports
    ensures Denotes(sc, vars, imports, Print(sc.local, imports, m), m) <==> !Lost(sc, vars, imports, m)
  {
  }

  lemma {:induction false} QualifyNumbers(local: string, imports: Imports, mentions: seq<Mention>)
    requires Numbered(imports)
    ensures Numbered(Qualify(local, imports, mentions).1)
  {
    if mentions != [] {
      QualifyNumbers(local, imports, mentions[..|mentions| - 1]);
    }
  }

  /** A printed name means the type it was printed from, in this file and however many imports follow, exactly if
      none of its names is lost where it stands. */
  lemma {:induction false} QualifyMeans(sc: Scope, vars: set<string>, imports: Imports, mentions: seq<Mention>, more: Imports)
    requires Extends(Qualify(sc.local, imports, mentions).1, more)
    requires NoAlias(vars) && forall m | m in mentions :: Declared(sc, m)
    ensures Means(sc, vars, more, Qualify(sc.local, imports, mentions).0, mentions) <==> !AnyLost(sc, vars, more, mentions)
  {
    if mentions != [] {
      var init, m := mentions[..|mentions| - 1], mentions[|mentions| - 1];
      var (name1, imports1) := Qualify(sc.local, imports, init);
      assert Extends(imports1, AddImport(sc.local, imports1, m));
      assert mentions == init + [m] && m in mentions;
      QualifyMeans(sc, vars, imports, init, more);
      PrintDenotes(sc, vars, more, m);
      MeansAppend(sc, vars, more, name1, init, Print(sc.local, more, m), m);
      LostAppend(sc, vars, more, init, m);
    }
  }

  lemma LostAppend(sc: Scope, vars: set<string>, imports: Imports, mentions: seq<Mention>, m: Mention)
    ensures AnyLost(sc, vars, imports, mentions + [m]) <==> AnyLost(sc, vars, imports, mentions) || Lost(sc, vars, imports, m)
  {
    assert m in mentions + [m];
  }

  lemma MeansAppend(sc: Scope, vars: set<string>, imports: Imports, name: Name, mentions: seq<Mention>, w: Word, m: Mention)
    requires |name| == |mentions|
    ensures Means(sc, vars, imports, name + [w], mentions + [m])
      <==> Means(sc, vars, imports, name, mentions) && Denotes(sc, vars, imports, w, m)
  {
    var name', mentions' := name + [w], mentions + [m];
    if Means(sc, vars, imports, name', mentions') {
      assert Denotes(sc, vars, imports, name'[|name|], mentions'[|name|]);
      forall i | 0 <= i < |name| ensures Denotes(sc, vars, imports, name[i], mentions[i]) {
        assert Denotes(sc, vars, imports, name'[i], mentions'[i]);
      }
    }
  }
}
