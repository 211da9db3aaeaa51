/** Forward matching: the methods of the analysed file's classes that
    override a method of one of their direct bases. */
module Forward {
  import opened PyAst
  import opened PyDict
  import opened ClassTables
  import opened BaseLookup
  import opened Relations
  import opened Sequences

  /** Method `m` of `methods` is also in the base's methods `found`, and `r`
      is its record. */
  ghost predicate ChildMatch(cls: string, methods: Dict<MethodInfo>, base: string,
                             found: Dict<BaseMethod>, m: string, r: Relation) {
    m in methods.entries && m in found.entries &&
    r == ChildRecord(cls, m, methods.entries[m], base, found.entries[m])
  }

  /** The records for the method names `ms` (in order) of class `cls` against
      one base. */
  function MatchMethods(cls: string, methods: Dict<MethodInfo>, base: string,
                        found: Dict<BaseMethod>, ms: seq<string>): seq<Relation>
    requires forall k | 0 <= k < |ms| :: ms[k] in methods.entries
  {
    if |ms| == 0 then []
    else
      var m := ms[|ms| - 1];
      var tail := if m in found.entries then [ChildRecord(cls, m, methods.entries[m], base, found.entries[m])] else [];
      MatchMethods(cls, methods, base, found, ms[..|ms| - 1]) + tail
  }

  /** The records of class `cls` against each of the bases `bases` in turn. */
  function ForwardBases(cls: string, info: ClassInfo, bases: seq<string>, ws: seq<SourceFile>): seq<Relation>
    requires Valid(info.methods)
  {
    if |bases| == 0 then []
    else
      var base := bases[|bases| - 1];
      ForwardBases(cls, info, bases[..|bases| - 1], ws) +
      MatchMethods(cls, info.methods, base, BaseMethods(base, ws), info.methods.keys)
  }

  /** The records of the classes `cs` of `table`, in turn. */
  function ForwardClasses(table: ClassTable, cs: seq<string>, ws: seq<SourceFile>): seq<Relation>
    requires WellFormed(table)
    requires forall k | 0 <= k < |cs| :: cs[k] in table.entries
  {
    if |cs| == 0 then []
    else
      var c := cs[|cs| - 1];
      ForwardClasses(table, cs[..|cs| - 1], ws) + ForwardBases(c, table.entries[c], table.entries[c].bases, ws)
  }

  /** All `child_override` records of a file with class table `table`. */
  function ForwardRecords(table: ClassTable, ws: seq<SourceFile>): seq<Relation>
    requires WellFormed(table)
  {
    ForwardClasses(table, table.keys, ws)
  }

  /** `r` is the record of method `m` of class `c` of `table` overriding the
      method of the same name of its direct base `b`. */
  ghost predicate IsChildOverride(table: ClassTable, ws: seq<SourceFile>, r: Relation, c: string, b: string, m: string) {
    c in table.entries && b in table.entries[c].bases &&
    ChildMatch(c, table.entries[c].methods, b, BaseMethods(b, ws), m, r)
  }

  /** Walks the classes of the analysed file, their bases and their methods,
      and appends a record for each method its base also defines. */
  method FindOverriddenMethods(target: SourceFile, ws: seq<SourceFile>) returns (overrides: seq<Relation>)
    ensures overrides == ForwardRecords(ClassTableOf(target.parsed), ws)
  {
    overrides := [];
    var classesInfo := GetClassMethodsFromAst(target.parsed);
    var names := classesInfo.keys;
    var ci := 0;
    while ci < |names|
      invariant 0 <= ci <= |names|
      invariant overrides == ForwardClasses(classesInfo, names[..ci], ws)
    {
      var className := names[ci];
      var classInfo := classesInfo.entries[className];
      ghost var beforeClass := overrides;
      var bases := classInfo.bases;
      var bi := 0;
      while bi < |bases|
        invariant 0 <= bi <= |bases|
        invariant overrides == beforeClass + ForwardBases(className, classInfo, bases[..bi], ws)
      {
        var baseClass := bases[bi];
        var baseMethods := FindBaseClassMethods(baseClass, ws);
        var matched := CheckMethods(className, classInfo.methods, baseClass, baseMethods);
        ForwardBasesStep(className, classInfo, bases, bi, ws);
        AppendAssoc(beforeClass, ForwardBases(className, classInfo, bases[..bi], ws), matched);
        overrides := overrides + matched;
        bi := bi + 1;
      }
      assert bases[..bi] == bases;
      ForwardClassesStep(classesInfo, names, ci, ws);
      ci := ci + 1;
    }
    assert names[..ci] == names;
  }

  /** The innermost loop of the forward search: the methods of one class,
      in order, checked against the methods found for one base. */
  method CheckMethods(className: string, methods: Dict<MethodInfo>, baseClass: string,
                      baseMethods: Dict<BaseMethod>) returns (overrides: seq<Relation>)
    requires Valid(methods)
    ensures overrides == MatchMethods(className, methods, baseClass, baseMethods, methods.keys)
  {
    overrides := [];
    var methodNames := methods.keys;
    var mi := 0;
    while mi < |methodNames|
      invariant 0 <= mi <= |methodNames|
      invariant overrides == MatchMethods(className, methods, baseClass, baseMethods, methodNames[..mi])
    {
      var methodName := methodNames[mi];
      MatchMethodsStep(className, methods, baseClass, baseMethods, methodNames, mi);
      if methodName in baseMethods.entries {
        var record := ChildRecord(className, methodName, methods.entries[methodName],
                                  baseClass, baseMethods.entries[methodName]);
        overrides := overrides + [record];
      }
      mi := mi + 1;
    }
    assert methodNames[..mi] == methodNames;
  }

  lemma MatchMethodsStep(cls: string, methods: Dict<MethodInfo>, base: string,
                         found: Dict<BaseMethod>, ms: seq<string>, i: nat)
    requires i < |ms|
    requires forall k | 0 <= k < |ms| :: ms[k] in methods.entries
    ensures MatchMethods(cls, methods, base, found, ms[..i + 1]) ==
            MatchMethods(cls, methods, base, found, ms[..i]) +
            if ms[i] in found.entries then [ChildRecord(cls, ms[i], methods.entries[ms[i]], base, found.entries[ms[i]])] else []
  {
    assert ms[..i + 1][..i] == ms[..i];
  }

  lemma ForwardBasesStep(cls: string, info: ClassInfo, bases: seq<string>, i: nat, ws: seq<SourceFile>)
    requires i < |bases|
    requires Valid(info.methods)
    ensures ForwardBases(cls, info, bases[..i + 1], ws) ==
            ForwardBases(cls, info, bases[..i], ws) +
            MatchMethods(cls, info.methods, bases[i], BaseMethods(bases[i], ws), info.methods.keys)
  {
    assert bases[..i + 1][..i] == bases[..i];
  }

  lemma ForwardClassesStep(table: ClassTable, cs: seq<string>, i: nat, ws: seq<SourceFile>)
    requires i < |cs|
    requires WellFormed(table)
    requires forall k | 0 <= k < |cs| :: cs[k] in table.entries
    ensures ForwardClasses(table, cs[..i + 1], ws) ==
            ForwardClasses(table, cs[..i], ws) +
            ForwardBases(cs[i], table.entries[cs[i]], table.entries[cs[i]].bases, ws)
  {
    assert cs[..i + 1][..i] == cs[..i];
  }

  lemma {:induction false} MatchMethodsSound(cls: string, methods: Dict<MethodInfo>, base: string,
                                             found: Dict<BaseMethod>, ms: seq<string>, r: Relation)
    requires forall k | 0 <= k < |ms| :: ms[k] in methods.entries
    requires r in MatchMethods(cls, methods, base, found, ms)
    ensures exists m | m in ms :: ChildMatch(cls, methods, base, found, m, r)
  {
    var p := ms[..|ms| - 1];
    var last := ms[|ms| - 1];
    assert ms == p + [last];
    if r in MatchMethods(cls, methods, base, found, p) {
      MatchMethodsSound(cls, methods, base, found, p, r);
      var m :| m in p && ChildMatch(cls, methods, base, found, m, r);
      assert m in ms;
    } else {
      assert ChildMatch(cls, methods, base, found, last, r);
    }
  }

  lemma {:induction false} MatchMethodsComplete(cls: string, methods: Dict<MethodInfo>, base: string,
                                                found: Dict<BaseMethod>, ms: seq<string>, m: string, r: Relation)
    requires forall k | 0 <= k < |ms| :: ms[k] in methods.entries
    requires m in ms && ChildMatch(cls, methods, base, found, m, r)
    ensures r in MatchMethods(cls, methods, base, found, ms)
  {
    var p := ms[..|ms| - 1];
    var last := ms[|ms| - 1];
    var head := MatchMethods(cls, methods, base, found, p);
    if m == last {
      assert MatchMethods(cls, methods, base, found, ms) == head + [r];
    } else {
      var i :| 0 <= i < |ms| && ms[i] == m;
      assert p[i] == m;
      MatchMethodsComplete(cls, methods, base, found, p, m, r);
      assert MatchMethods(cls, methods, base, found, ms) == head + (if last in found.entries then [ChildRecord(cls, last, methods.entries[last], base, found.entries[last])] else []);
    }
  }

  lemma {:induction false} ForwardBasesSound(cls: string, info: ClassInfo, bases: seq<string>,
                                             ws: seq<SourceFile>, r: Relation)
    requires Valid(info.methods)
    requires r in ForwardBases(cls, info, bases, ws)
    ensures exists b, m | b in bases :: ChildMatch(cls, info.methods, b, BaseMethods(b, ws), m, r)
  {
    var p := bases[..|bases| - 1];
    var last := bases[|bases| - 1];
    assert bases == p + [last];
    if r in ForwardBases(cls, info, p, ws) {
      ForwardBasesSound(cls, info, p, ws, r);
      var b, m :| b in p && ChildMatch(cls, info.methods, b, BaseMethods(b, ws), m, r);
      assert b in bases;
    } else {
      MatchMethodsSound(cls, info.methods, last, BaseMethods(last, ws), info.methods.keys, r);
      var m :| m in info.methods.keys && ChildMatch(cls, info.methods, last, BaseMethods(last, ws), m, r);
      assert last in bases;
    }
  }

  lemma {:induction false} ForwardBasesComplete(cls: string, info: ClassInfo, bases: seq<string>,
                                                ws: seq<SourceFile>, b: string, m: string, r: Relation)
    requires Valid(info.methods)
    requires b in bases && ChildMatch(cls, info.methods, b, BaseMethods(b, ws), m, r)
    ensures r in ForwardBases(cls, info, bases, ws)
  {
    var p := bases[..|bases| - 1];
    var last := bases[|bases| - 1];
    assert bases == p + [last];
    if b == last {
      MatchMethodsComplete(cls, info.methods, last, BaseMethods(last, ws), info.methods.keys, m, r);
    } else {
      assert b in p;
      ForwardBasesComplete(cls, info, p, ws, b, m, r);
    }
  }

  lemma {:induction false} ForwardClassesSound(table: ClassTable, cs: seq<string>, ws: seq<SourceFile>, r: Relation)
    requires WellFormed(table)
    requires forall k | 0 <= k < |cs| :: cs[k] in table.entries
    requires r in ForwardClasses(table, cs, ws)
    ensures exists c, b, m | c in cs :: IsChildOverride(table, ws, r, c, b, m)
  {
    var p := cs[..|cs| - 1];
    var last := cs[|cs| - 1];
    var info := table.entries[last];
    assert cs == p + [last];
    if r in ForwardClasses(table, p, ws) {
      ForwardClassesSound(table, p, ws, r);
      var c, b, m :| c in p && IsChildOverride(table, ws, r, c, b, m);
      assert c in cs;
    } else {
      ForwardBasesSound(last, info, info.bases, ws, r);
      var b, m :| b in info.bases && ChildMatch(last, info.methods, b, BaseMethods(b, ws), m, r);
      assert IsChildOverride(table, ws, r, last, b, m);
    }
  }

  lemma {:induction false} ForwardClassesComplete(table: ClassTable, cs: seq<string>, ws: seq<SourceFile>,
                                                  c: string, b: string, m: string, r: Relation)
    requires WellFormed(table)
    requires forall k | 0 <= k < |cs| :: cs[k] in table.entries
    requires c in cs && IsChildOverride(table, ws, r, c, b, m)
    ensures r in ForwardClasses(table, cs, ws)
  {
    var p := cs[..|cs| - 1];
    var last := cs[|cs| - 1];
    assert cs == p + [last];
    if c == last {
      ForwardBasesComplete(last, table.entries[last], table.entries[last].bases, ws, b, m, r);
    } else {
      assert c in p;
      ForwardClassesComplete(table, p, ws, c, b, m, r);
    }
  }

  /** Every `child_override` record comes from a class of the file, one of
      its direct bases and a method of the class that the base's method dict
      also has; its fields come from those two methods. */
  lemma ForwardRecordsSound(table: ClassTable, ws: seq<SourceFile>, r: Relation)
    requires WellFormed(table)
    requires r in ForwardRecords(table, ws)
    ensures exists c, b, m :: IsChildOverride(table, ws, r, c, b, m)
  {
    ForwardClassesSound(table, table.keys, ws, r);
  }

  /** Conversely, each such class, base and method yields its record. */
  lemma ForwardRecordsComplete(table: ClassTable, ws: seq<SourceFile>, c: string, b: string, m: string, r: Relation)
    requires WellFormed(table)
    requires IsChildOverride(table, ws, r, c, b, m)
    ensures r in ForwardRecords(table, ws)
  {
    ForwardClassesComplete(table, table.keys, ws, c, b, m, r);
  }

  /** The forward search yields only `child_override` records, each naming
      a method of the analysed file's classes. */
  lemma ForwardRecordsKind(table: ClassTable, ws: seq<SourceFile>, r: Relation)
    requires WellFormed(table)
    requires r in ForwardRecords(table, ws)
    ensures r.ChildOverride? && r.cls in table.entries
  {
    ForwardRecordsSound(table, ws, r);
  }

  /** A method that none of its class's direct bases has is never reported. */
  lemma ForwardRecordsOnlyInherited(table: ClassTable, ws: seq<SourceFile>, c: string, m: string, r: Relation)
    requires WellFormed(table)
    requires c in table.entries
    requires forall b | b in table.entries[c].bases :: m !in BaseMethods(b, ws).entries
    requires r in ForwardRecords(table, ws)
    ensures !(r.cls == c && r.methodName == m)
  {
    ForwardRecordsSound(table, ws, r);
  }
}
