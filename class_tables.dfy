/** The class table of one file: for every class name, its methods (name ->
    line and signature), the names of its bases and its line. */
module ClassTables {
  import opened PyAst
  import opened PyDict
  import opened Signatures

  datatype MethodInfo = MethodInfo(line: nat, signature: string)
  datatype ClassInfo = ClassInfo(methods: Dict<MethodInfo>, bases: seq<string>, line: nat)
  type ClassTable = Dict<ClassInfo>

  /** The table and every method dict in it are valid dicts. */
  ghost predicate WellFormed(t: ClassTable) {
    Valid(t) && forall c | c in t.entries :: Valid(t.entries[c].methods)
  }

  /** The bases written as plain names, in source order. */
  function BaseNames(bases: seq<Expr>): seq<string>
  {
    if |bases| == 0 then []
    else
      var kept := match bases[|bases| - 1] case Name(id) => [id] case OtherExpr => [];
      BaseNames(bases[..|bases| - 1]) + kept
  }

  predicate DefinesMethod(s: Stmt, m: string) {
    s.FunctionDef? && s.name == m
  }

  function MethodInfoOf(s: Stmt): MethodInfo
    requires s.FunctionDef?
  {
    MethodInfo(s.lineno, Render(s.name, s.args))
  }

  /** The method dict of a class body: each direct `def`, in order, assigned
      under its name. */
  function MethodsOf(body: seq<Stmt>): (r: Dict<MethodInfo>)
    ensures Valid(r)
  {
    if |body| == 0 then Empty()
    else
      var d := MethodsOf(body[..|body| - 1]);
      var s := body[|body| - 1];
      if s.FunctionDef? then Put(d, s.name, MethodInfoOf(s)) else d
  }

  function InfoOf(c: ClassDef): ClassInfo {
    ClassInfo(MethodsOf(c.body), BaseNames(c.bases), c.lineno)
  }

  /** The class dict of a list of class statements, each assigned under its
      name in order. */
  function TableOf(cs: seq<ClassDef>): (r: ClassTable)
    ensures Valid(r)
  {
    if |cs| == 0 then Empty()
    else Put(TableOf(cs[..|cs| - 1]), cs[|cs| - 1].name, InfoOf(cs[|cs| - 1]))
  }

  /** The class table of a file; an unreadable file has none. */
  function ClassTableOf(parsed: Option<seq<ClassDef>>): (r: ClassTable)
    ensures WellFormed(r)
    ensures parsed.None? ==> r.keys == []
  {
    match parsed
    case None => Empty()
    case Some(cs) => TableOfWellFormed(cs); TableOf(cs)
  }

  /** Every class in a table has a valid method dict. */
  lemma {:induction false} TableOfWellFormed(cs: seq<ClassDef>)
    ensures WellFormed(TableOf(cs))
  {
    if |cs| > 0 {
      TableOfWellFormed(cs[..|cs| - 1]);
    }
  }

  /** Builds the class table of a parsed file with the analyzer's loops. */
  method GetClassMethodsFromAst(parsed: Option<seq<ClassDef>>) returns (classesInfo: ClassTable)
    ensures classesInfo == ClassTableOf(parsed)
  {
    classesInfo := Empty();
    match parsed {
      case None =>
      case Some(nodes) =>
        var k := 0;
        while k < |nodes|
          invariant 0 <= k <= |nodes|
          invariant classesInfo == TableOf(nodes[..k])
        {
          var node := nodes[k];
          var methods: Dict<MethodInfo> := Empty();
          var baseClasses := BaseNames(node.bases);
          var j := 0;
          while j < |node.body|
            invariant 0 <= j <= |node.body|
            invariant methods == MethodsOf(node.body[..j])
          {
            var item := node.body[j];
            assert node.body[..j + 1][..j] == node.body[..j];
            if item.FunctionDef? {
              var sig := GetFunctionSignature(item);
              methods := Put(methods, item.name, MethodInfo(item.lineno, sig));
            }
            j := j + 1;
          }
          assert node.body[..j] == node.body;
          assert nodes[..k + 1][..k] == nodes[..k];
          classesInfo := Put(classesInfo, node.name, ClassInfo(methods, baseClasses, node.lineno));
          k := k + 1;
        }
        assert nodes[..k] == nodes;
    }
  }

  /** Only bases written as plain names are kept. */
  lemma {:induction false} BaseNamesMembers(bases: seq<Expr>, x: string)
    ensures x in BaseNames(bases) <==> Name(x) in bases
  {
    if |bases| > 0 {
      var p := bases[..|bases| - 1];
      BaseNamesMembers(p, x);
      assert bases == p + [bases[|bases| - 1]];
    }
  }

  /** The last statement of a body adds its own name, if it is a `def`. */
  lemma MethodsOfDomainStep(body: seq<Stmt>, m: string)
    requires |body| > 0
    ensures m in MethodsOf(body).entries <==>
            m in MethodsOf(body[..|body| - 1]).entries || DefinesMethod(body[|body| - 1], m)
  {
  }

  /** A method name is in the dict exactly when some direct `def` has it. */
  lemma {:induction false} MethodsOfDomain(body: seq<Stmt>, m: string)
    ensures m in MethodsOf(body).entries <==> exists i | 0 <= i < |body| :: DefinesMethod(body[i], m)
  {
    if |body| > 0 {
      var p := body[..|body| - 1];
      MethodsOfDomain(p, m);
      MethodsOfDomainStep(body, m);
      if exists i | 0 <= i < |p| :: DefinesMethod(p[i], m) {
        var i :| 0 <= i < |p| && DefinesMethod(p[i], m);
        assert DefinesMethod(body[i], m);
      }
      if exists i | 0 <= i < |body| :: DefinesMethod(body[i], m) {
        var i :| 0 <= i < |body| && DefinesMethod(body[i], m);
        if i < |p| { assert DefinesMethod(p[i], m); }
      }
    }
  }

  /** A later `def` of the same name overwrites an earlier one. */
  lemma {:induction false} MethodsOfLast(body: seq<Stmt>, i: nat)
    requires i < |body| && body[i].FunctionDef?
    requires forall j | i < j < |body| :: !DefinesMethod(body[j], body[i].name)
    ensures body[i].name in MethodsOf(body).entries
    ensures MethodsOf(body).entries[body[i].name] == MethodInfoOf(body[i])
  {
    if i < |body| - 1 {
      var p := body[..|body| - 1];
      assert forall j | i < j < |p| :: p[j] == body[j];
      MethodsOfLast(p, i);
    }
  }

  predicate DefinesClass(c: ClassDef, name: string) {
    c.name == name
  }

  /** The names of the class statements, in order. */
  function ClassNames(cs: seq<ClassDef>): seq<string> {
    if |cs| == 0 then [] else ClassNames(cs[..|cs| - 1]) + [cs[|cs| - 1].name]
  }

  /** The table's names are the names of the class statements. */
  lemma {:induction false} TableOfNames(cs: seq<ClassDef>, name: string)
    ensures name in TableOf(cs).entries <==> name in ClassNames(cs)
  {
    if |cs| > 0 {
      TableOfNames(cs[..|cs| - 1], name);
    }
  }

  lemma {:induction false} ClassNamesMembers(cs: seq<ClassDef>, name: string)
    ensures name in ClassNames(cs) <==> exists i | 0 <= i < |cs| :: DefinesClass(cs[i], name)
  {
    if |cs| > 0 {
      var p := cs[..|cs| - 1];
      ClassNamesMembers(p, name);
      if exists i | 0 <= i < |p| :: DefinesClass(p[i], name) {
        var i :| 0 <= i < |p| && DefinesClass(p[i], name);
        assert DefinesClass(cs[i], name);
      }
      if exists i | 0 <= i < |cs| :: DefinesClass(cs[i], name) {
        var i :| 0 <= i < |cs| && DefinesClass(cs[i], name);
        if i < |p| { assert DefinesClass(p[i], name); }
      }
    }
  }

  /** A class name is in the table exactly when some class statement has it. */
  lemma TableOfDomain(cs: seq<ClassDef>, name: string)
    ensures name in TableOf(cs).entries <==> exists i | 0 <= i < |cs| :: DefinesClass(cs[i], name)
  {
    TableOfNames(cs, name);
    ClassNamesMembers(cs, name);
  }

  /** A later class of the same name overwrites an earlier one. */
  lemma {:induction false} TableOfLast(cs: seq<ClassDef>, i: nat)
    requires i < |cs|
    requires forall j | i < j < |cs| :: !DefinesClass(cs[j], cs[i].name)
    ensures cs[i].name in TableOf(cs).entries
    ensures TableOf(cs).entries[cs[i].name] == InfoOf(cs[i])
  {
    if i < |cs| - 1 {
      var p := cs[..|cs| - 1];
      assert forall j | i < j < |p| :: p[j] == cs[j];
      TableOfLast(p, i);
    }
  }
}
