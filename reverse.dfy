/** Reverse matching: the methods of the analysed file's classes that a
    subclass in another file of the workspace overrides. */
module Reverse {
  import opened PyAst
  import opened PyDict
  import opened ClassTables
  import opened BaseLookup
  import opened Relations
  import opened Sequences

  /** Method `m` of subclass `child` (methods `theirs`, in the file at
      `path`) is also a method of base class `cls` (methods `mine`), and `r`
      is its record. */
  ghost predicate ParentMatch(cls: string, mine: Dict<MethodInfo>, child: string, theirs: Dict<MethodInfo>,
                              path: string, m: string, r: Relation) {
    m in theirs.entries && m in mine.entries &&
    r == ParentRecord(cls, m, mine.entries[m], child, path, theirs.entries[m])
  }

  /** The records for the method names `ms` (in order) of subclass `child`
      against base class `cls` of the analysed file. */
  function MatchOverriders(cls: string, mine: Dict<MethodInfo>, child: string, theirs: Dict<MethodInfo>,
                           path: string, ms: seq<string>): seq<Relation>
    requires forall k | 0 <= k < |ms| :: ms[k] in theirs.entries
  {
    if |ms| == 0 then []
    else
      var m := ms[|ms| - 1];
      var tail := if m in mine.entries then [ParentRecord(cls, m, mine.entries[m], child, path, theirs.entries[m])] else [];
      MatchOverriders(cls, mine, child, theirs, path, ms[..|ms| - 1]) + tail
  }

  /** The records of subclass `child` for each of its bases `bases` that is a
      class of the analysed file (table `current`). */
  function ReverseBases(current: ClassTable, child: string, info: ClassInfo, path: string, bases: seq<string>): seq<Relation>
    requires WellFormed(current) && Valid(info.methods)
  {
    if |bases| == 0 then []
    else
      var b := bases[|bases| - 1];
      var tail := if b in current.entries
        then MatchOverriders(b, current.entries[b].methods, child, info.methods, path, info.methods.keys)
        else [];
      ReverseBases(current, child, info, path, bases[..|bases| - 1]) + tail
  }

  /** The records of the classes `cs` of another file (table `other`). */
  function ReverseClasses(current: ClassTable, other: ClassTable, path: string, cs: seq<string>): seq<Relation>
    requires WellFormed(current) && WellFormed(other)
    requires forall k | 0 <= k < |cs| :: cs[k] in other.entries
  {
    if |cs| == 0 then []
    else
      var c := cs[|cs| - 1];
      ReverseClasses(current, other, path, cs[..|cs| - 1]) +
      ReverseBases(current, c, other.entries[c], path, other.entries[c].bases)
  }

  /** The records of the files `ws` in order, skipping the analysed file. */
  function ReverseRecords(target: string, current: ClassTable, ws: seq<SourceFile>): seq<Relation>
    requires WellFormed(current)
  {
    if |ws| == 0 then []
    else
      var f := ws[|ws| - 1];
      var tail := if f.path == target then [] else ReverseClasses(current, TableAt(f), f.path, TableAt(f).keys);
      ReverseRecords(target, current, ws[..|ws| - 1]) + tail
  }

  /** `r` is the record of method `m` of class `b` of the analysed file
      (table `current`, path `target`), overridden in class `c` of file
      `ws[i]`, another file, whose direct base `b` is. */
  ghost predicate IsParentOverridden(target: string, current: ClassTable, ws: seq<SourceFile>, r: Relation,
                                     i: int, c: string, b: string, m: string) {
    0 <= i < |ws| && ws[i].path != target &&
    c in TableAt(ws[i]).entries && b in TableAt(ws[i]).entries[c].bases && b in current.entries &&
    ParentMatch(b, current.entries[b].methods, c, TableAt(ws[i]).entries[c].methods, ws[i].path, m, r)
  }

  /** Walks every other file of the workspace, its classes, their bases and
      their methods, and appends a record for each method that a base class
      of the analysed file also defines. */
  method FindOverridingMethods(target: SourceFile, ws: seq<SourceFile>) returns (overriding: seq<Relation>)
    ensures overriding == ReverseRecords(target.path, ClassTableOf(target.parsed), ws)
  {
    overriding := [];
    var currentClasses := GetClassMethodsFromAst(target.parsed);
    var fi := 0;
    while fi < |ws|
      invariant 0 <= fi <= |ws|
      invariant overriding == ReverseRecords(target.path, currentClasses, ws[..fi])
    {
      var pyFile := ws[fi];
      assert ws[..fi + 1][..fi] == ws[..fi];
      if pyFile.path != target.path {
        var otherClasses := GetClassMethodsFromAst(pyFile.parsed);
        var found := CheckFile(currentClasses, otherClasses, pyFile.path);
        overriding := overriding + found;
      }
      fi := fi + 1;
    }
    assert ws[..fi] == ws;
  }

  /** The classes and bases loops of the reverse search, for one other file. */
  method CheckFile(currentClasses: ClassTable, otherClasses: ClassTable, path: string) returns (overriding: seq<Relation>)
    requires WellFormed(currentClasses) && WellFormed(otherClasses)
    ensures overriding == ReverseClasses(currentClasses, otherClasses, path, otherClasses.keys)
  {
    overriding := [];
    var names := otherClasses.keys;
    var ci := 0;
    while ci < |names|
      invariant 0 <= ci <= |names|
      invariant overriding == ReverseClasses(currentClasses, otherClasses, path, names[..ci])
    {
      var otherClassName := names[ci];
      var otherClassInfo := otherClasses.entries[otherClassName];
      ghost var beforeClass := overriding;
      var bases := otherClassInfo.bases;
      var bi := 0;
      while bi < |bases|
        invariant 0 <= bi <= |bases|
        invariant overriding == beforeClass + ReverseBases(currentClasses, otherClassName, otherClassInfo, path, bases[..bi])
      {
        var baseClass := bases[bi];
        ReverseBasesStep(currentClasses, otherClassName, otherClassInfo, path, bases, bi);
        if baseClass in currentClasses.entries {
          var found := CheckOverriders(baseClass, currentClasses.entries[baseClass].methods,
                                       otherClassName, otherClassInfo.methods, path);
          AppendAssoc(beforeClass, ReverseBases(currentClasses, otherClassName, otherClassInfo, path, bases[..bi]), found);
          overriding := overriding + found;
        }
        bi := bi + 1;
      }
      assert bases[..bi] == bases;
      ReverseClassesStep(currentClasses, otherClasses, path, names, ci);
      ci := ci + 1;
    }
    assert names[..ci] == names;
  }

  /** The innermost loop of the reverse search: the methods of one subclass,
      in order, checked against the methods of one base class. */
  method CheckOverriders(baseClass: string, currentMethods: Dict<MethodInfo>, otherClassName: string,
                         otherMethods: Dict<MethodInfo>, path: string) returns (overriding: seq<Relation>)
    requires Valid(otherMethods)
    ensures overriding == MatchOverriders(baseClass, currentMethods, otherClassName, otherMethods, path, otherMethods.keys)
  {
    overriding := [];
    var methodNames := otherMethods.keys;
    var mi := 0;
    while mi < |methodNames|
      invariant 0 <= mi <= |methodNames|
      invariant overriding == MatchOverriders(baseClass, currentMethods, otherClassName, otherMethods, path, methodNames[..mi])
    {
      var methodName := methodNames[mi];
      assert methodNames[..mi + 1][..mi] == methodNames[..mi];
      if methodName in currentMethods.entries {
        var record := ParentRecord(baseClass, methodName, currentMethods.entries[methodName],
                                   otherClassName, path, otherMethods.entries[methodName]);
        overriding := overriding + [record];
      }
      mi := mi + 1;
    }
    assert methodNames[..mi] == methodNames;
  }

  lemma ReverseBasesStep(current: ClassTable, child: string, info: ClassInfo, path: string, bases: seq<string>, i: nat)
    requires WellFormed(current) && Valid(info.methods)
    requires i < |bases|
    ensures ReverseBases(current, child, info, path, bases[..i + 1]) ==
            ReverseBases(current, child, info, path, bases[..i]) +
            if bases[i] in current.entries
            then MatchOverriders(bases[i], current.entries[bases[i]].methods, child, info.methods, path, info.methods.keys)
            else []
  {
    assert bases[..i + 1][..i] == bases[..i];
  }

  lemma ReverseClassesStep(current: ClassTable, other: ClassTable, path: string, cs: seq<string>, i: nat)
    requires WellFormed(current) && WellFormed(other)
    requires forall k | 0 <= k < |cs| :: cs[k] in other.entries
    requires i < |cs|
    ensures ReverseClasses(current, other, path, cs[..i + 1]) ==
            ReverseClasses(current, other, path, cs[..i]) +
            ReverseBases(current, cs[i], other.entries[cs[i]], path, other.entries[cs[i]].bases)
  {
    assert cs[..i + 1][..i] == cs[..i];
  }

  lemma {:induction false} MatchOverridersSound(cls: string, mine: Dict<MethodInfo>, child: string,
                                                theirs: Dict<MethodInfo>, path: string, ms: seq<string>, r: Relation)
    requires forall k | 0 <= k < |ms| :: ms[k] in theirs.entries
    requires r in MatchOverriders(cls, mine, child, theirs, path, ms)
    ensures exists m | m in ms :: ParentMatch(cls, mine, child, theirs, path, m, r)
  {
    var p := ms[..|ms| - 1];
    var last := ms[|ms| - 1];
    assert ms == p + [last];
    if r in MatchOverriders(cls, mine, child, theirs, path, p) {
      MatchOverridersSound(cls, mine, child, theirs, path, p, r);
      var m :| m in p && ParentMatch(cls, mine, child, theirs, path, m, r);
      assert m in ms;
    } else {
      assert ParentMatch(cls, mine, child, theirs, path, last, r);
    }
  }

  lemma {:induction false} MatchOverridersComplete(cls: string, mine: Dict<MethodInfo>, child: string,
                                                   theirs: Dict<MethodInfo>, path: string, ms: seq<string>,
                                                   m: string, r: Relation)
    requires forall k | 0 <= k < |ms| :: ms[k] in theirs.entries
    requires m in ms && ParentMatch(cls, mine, child, theirs, path, m, r)
    ensures r in MatchOverriders(cls, mine, child, theirs, path, ms)
  {
    var p := ms[..|ms| - 1];
    var last := ms[|ms| - 1];
    var head := MatchOverriders(cls, mine, child, theirs, path, p);
    if m == last {
      assert MatchOverriders(cls, mine, child, theirs, path, ms) == head + [r];
    } else {
      var i :| 0 <= i < |ms| && ms[i] == m;
      assert p[i] == m;
      MatchOverridersComplete(cls, mine, child, theirs, path, p, m, r);
    }
  }

  lemma {:induction false} ReverseBasesSound(current: ClassTable, child: string, info: ClassInfo, path: string,
                                             bases: seq<string>, r: Relation)
    requires WellFormed(current) && Valid(info.methods)
    requires r in ReverseBases(current, child, info, path, bases)
    ensures exists b, m | b in bases && b in current.entries ::
              ParentMatch(b, current.entries[b].methods, child, info.methods, path, m, r)
  {
    var p := bases[..|bases| - 1];
    var last := bases[|bases| - 1];
    assert bases == p + [last];
    if r in ReverseBases(current, child, info, path, p) {
      ReverseBasesSound(current, child, info, path, p, r);
      var b, m :| b in p && b in current.entries && ParentMatch(b, current.entries[b].methods, child, info.methods, path, m, r);
      assert b in bases;
    } else {
      MatchOverridersSound(last, current.entries[last].methods, child, info.methods, path, info.methods.keys, r);
      var m :| m in info.methods.keys && ParentMatch(last, current.entries[last].methods, child, info.methods, path, m, r);
      assert last in bases;
    }
  }

  lemma {:induction false} ReverseBasesComplete(current: ClassTable, child: string, info: ClassInfo, path: string,
                                                bases: seq<string>, b: string, m: string, r: Relation)
    requires WellFormed(current) && Valid(info.methods)
    requires b in bases && b in current.entries
    requires ParentMatch(b, current.entries[b].methods, child, info.methods, path, m, r)
    ensures r in ReverseBases(current, child, info, path, bases)
  {
    var p := bases[..|bases| - 1];
    var last := bases[|bases| - 1];
    assert bases == p + [last];
    if b == last {
      MatchOverridersComplete(last, current.entries[last].methods, child, info.methods, path, info.methods.keys, m, r);
    } else {
      assert b in p;
      ReverseBasesComplete(current, child, info, path, p, b, m, r);
    }
  }

  lemma {:induction false} ReverseClassesSound(current: ClassTable, other: ClassTable, path: string,
                                               cs: seq<string>, r: Relation)
    requires WellFormed(current) && WellFormed(other)
    requires forall k | 0 <= k < |cs| :: cs[k] in other.entries
    requires r in ReverseClasses(current, other, path, cs)
    ensures exists c, b, m | c in cs && b in other.entries[c].bases && b in current.entries ::
              ParentMatch(b, current.entries[b].methods, c, other.entries[c].methods, path, m, r)
  {
    var p := cs[..|cs| - 1];
    var last := cs[|cs| - 1];
    var info := other.entries[last];
    assert cs == p + [last];
    if r in ReverseClasses(current, other, path, p) {
      ReverseClassesSound(current, other, path, p, r);
      var c, b, m :| c in p && b in other.entries[c].bases && b in current.entries &&
                     ParentMatch(b, current.entries[b].methods, c, other.entries[c].methods, path, m, r);
      assert c in cs;
    } else {
      ReverseBasesSound(current, last, info, path, info.bases, r);
      var b, m :| b in info.bases && b in current.entries &&
                  ParentMatch(b, current.entries[b].methods, last, info.methods, path, m, r);
      assert last in cs;
    }
  }

  lemma {:induction false} ReverseClassesComplete(current: ClassTable, other: ClassTable, path: string,
                                                  cs: seq<string>, c: string, b: string, m: string, r: Relation)
    requires WellFormed(current) && WellFormed(other)
    requires forall k | 0 <= k < |cs| :: cs[k] in other.entries
    requires c in cs && b in other.entries[c].bases && b in current.entries
    requires ParentMatch(b, current.entries[b].methods, c, other.entries[c].methods, path, m, r)
    ensures r in ReverseClasses(current, other, path, cs)
  {
    var p := cs[..|cs| - 1];
    var last := cs[|cs| - 1];
    assert cs == p + [last];
    if c == last {
      ReverseBasesComplete(current, last, other.entries[last], path, other.entries[last].bases, b, m, r);
    } else {
      assert c in p;
      ReverseClassesComplete(current, other, path, p, c, b, m, r);
    }
  }

  /** Every `parent_overridden` record comes from another file of the
      workspace, a class in it, one of that class's direct bases that is a
      class of the analysed file, and a method both define. */
  lemma {:induction false} ReverseRecordsSound(target: string, current: ClassTable, ws: seq<SourceFile>, r: Relation)
    requires WellFormed(current)
    requires r in ReverseRecords(target, current, ws)
    ensures exists i, c, b, m :: IsParentOverridden(target, current, ws, r, i, c, b, m)
  {
    var p := ws[..|ws| - 1];
    var f := ws[|ws| - 1];
    if r in ReverseRecords(target, current, p) {
      ReverseRecordsSound(target, current, p, r);
      var i, c, b, m :| IsParentOverridden(target, current, p, r, i, c, b, m);
      assert ws[i] == p[i];
      assert IsParentOverridden(target, current, ws, r, i, c, b, m);
    } else {
      var other := TableAt(f);
      ReverseClassesSound(current, other, f.path, other.keys, r);
      var c, b, m :| c in other.keys && b in other.entries[c].bases && b in current.entries &&
                     ParentMatch(b, current.entries[b].methods, c, other.entries[c].methods, f.path, m, r);
      assert IsParentOverridden(target, current, ws, r, |ws| - 1, c, b, m);
    }
  }

  /** Conversely, each such file, class, base and method yields its record. */
  lemma {:induction false} ReverseRecordsComplete(target: string, current: ClassTable, ws: seq<SourceFile>,
                                                  i: int, c: string, b: string, m: string, r: Relation)
    requires WellFormed(current)
    requires IsParentOverridden(target, current, ws, r, i, c, b, m)
    ensures r in ReverseRecords(target, current, ws)
  {
    var p := ws[..|ws| - 1];
    var f := ws[|ws| - 1];
    var head := ReverseRecords(target, current, p);
    if i == |ws| - 1 {
      var other := TableAt(f);
      ReverseClassesComplete(current, other, f.path, other.keys, c, b, m, r);
      assert ReverseRecords(target, current, ws) == head + ReverseClasses(current, other, f.path, other.keys);
    } else {
      assert p[i] == ws[i];
      assert IsParentOverridden(target, current, p, r, i, c, b, m);
      ReverseRecordsComplete(target, current, p, i, c, b, m, r);
    }
  }

  /** A subclass in the analysed file itself never yields a
      `parent_overridden` record. */
  lemma ReverseRecordsSkipTarget(target: string, current: ClassTable, ws: seq<SourceFile>, r: Relation)
    requires WellFormed(current)
    requires r in ReverseRecords(target, current, ws)
    ensures r.ParentOverridden? && r.childFilePath != target
  {
    ReverseRecordsSound(target, current, ws, r);
  }
}
