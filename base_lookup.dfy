/** Finding the methods of a base class by name across the workspace. */
module BaseLookup {
  import opened PyAst
  import opened PyDict
  import opened ClassTables

  /** A base-class method, tagged with the file and class it was found in. */
  datatype BaseMethod = BaseMethod(line: nat, signature: string, file: string, cls: string)

  function TableAt(f: SourceFile): (t: ClassTable)
    ensures WellFormed(t)
  {
    ClassTableOf(f.parsed)
  }

  predicate Defines(f: SourceFile, cls: string) {
    cls in TableAt(f).entries
  }

  /** The methods of a class, each tagged with `file` and `cls`, in the
      class's own method order. */
  function Tagged(methods: Dict<MethodInfo>, file: string, cls: string): (r: Dict<BaseMethod>)
    requires Valid(methods)
    ensures Valid(r) && r.keys == methods.keys
    ensures forall m | m in r.entries ::
      r.entries[m] == BaseMethod(methods.entries[m].line, methods.entries[m].signature, file, cls)
  {
    Dict(methods.keys,
      map m | m in methods.entries :: BaseMethod(methods.entries[m].line, methods.entries[m].signature, file, cls))
  }

  /** The tagged methods of `base` from the first file that defines it, or
      none when no file does. */
  function BaseMethods(base: string, ws: seq<SourceFile>): (r: Dict<BaseMethod>)
    ensures Valid(r)
  {
    if |ws| == 0 then Empty()
    else if Defines(ws[0], base) then Tagged(TableAt(ws[0]).entries[base].methods, ws[0].path, base)
    else BaseMethods(base, ws[1..])
  }

  /** Walks the workspace in order and copies the methods of the first class
      named `base` it meets, then stops. */
  method FindBaseClassMethods(base: string, ws: seq<SourceFile>) returns (methods: Dict<BaseMethod>)
    ensures methods == BaseMethods(base, ws)
  {
    methods := Empty();
    var i := 0;
    while i < |ws|
      invariant 0 <= i <= |ws|
      invariant BaseMethods(base, ws[i..]) == BaseMethods(base, ws)
      invariant methods == Empty()
    {
      var pyFile := ws[i];
      var classesInfo := GetClassMethodsFromAst(pyFile.parsed);
      if base in classesInfo.entries {
        methods := CopyMethods(classesInfo.entries[base].methods, pyFile.path, base);
        assert ws[i..][0] == pyFile;
        return;
      }
      assert ws[i..][1..] == ws[i + 1..];
      i := i + 1;
    }
  }

  /** Copies a class's methods, in order, tagging each with its file and
      class. */
  method CopyMethods(baseMethods: Dict<MethodInfo>, file: string, cls: string) returns (methods: Dict<BaseMethod>)
    requires Valid(baseMethods)
    ensures methods == Tagged(baseMethods, file, cls)
  {
    methods := Empty();
    var names := baseMethods.keys;
    var j := 0;
    while j < |names|
      invariant 0 <= j <= |names|
      invariant Valid(methods) && methods.keys == names[..j]
      invariant forall m | m in methods.entries ::
        m in baseMethods.entries &&
        methods.entries[m] == BaseMethod(baseMethods.entries[m].line, baseMethods.entries[m].signature, file, cls)
    {
      var name := names[j];
      var info := baseMethods.entries[name];
      KeyNotInPrefix(baseMethods, j);
      assert names[..j + 1] == names[..j] + [name];
      methods := Put(methods, name, BaseMethod(info.line, info.signature, file, cls));
      j := j + 1;
    }
    assert names[..j] == names;
  }

  /** The first file that defines the class decides the result. */
  lemma {:induction false} BaseMethodsFirstDefiner(base: string, ws: seq<SourceFile>, i: nat)
    requires i < |ws| && Defines(ws[i], base)
    requires forall j | 0 <= j < i :: !Defines(ws[j], base)
    ensures BaseMethods(base, ws) == Tagged(TableAt(ws[i]).entries[base].methods, ws[i].path, base)
  {
    if i > 0 {
      var rest := ws[1..];
      assert !Defines(ws[0], base);
      assert rest[i - 1] == ws[i];
      forall j | 0 <= j < i - 1
        ensures !Defines(rest[j], base)
      {
        assert rest[j] == ws[j + 1];
      }
      BaseMethodsFirstDefiner(base, rest, i - 1);
    }
  }

  /** A class no file defines has no methods. */
  lemma {:induction false} BaseMethodsUndefined(base: string, ws: seq<SourceFile>)
    requires forall j | 0 <= j < |ws| :: !Defines(ws[j], base)
    ensures BaseMethods(base, ws) == Empty()
  {
    if |ws| > 0 {
      assert !Defines(ws[0], base);
      assert forall j | 0 <= j < |ws| - 1 :: ws[1..][j] == ws[j + 1];
      BaseMethodsUndefined(base, ws[1..]);
    }
  }

  /** Files after a file that defines the class are never consulted. */
  lemma {:induction false} BaseMethodsIgnoresLater(base: string, ws: seq<SourceFile>, i: nat, later: seq<SourceFile>)
    requires i < |ws| && Defines(ws[i], base)
    ensures BaseMethods(base, ws + later) == BaseMethods(base, ws)
  {
    var all := ws + later;
    var first := ws[0];
    assert all[0] == first;
    if Defines(first, base) {
      var t := Tagged(TableAt(first).entries[base].methods, first.path, base);
      assert BaseMethods(base, all) == t;
      assert BaseMethods(base, ws) == t;
    } else {
      var rest := ws[1..];
      assert rest[i - 1] == ws[i];
      assert all[1..] == rest + later;
      BaseMethodsIgnoresLater(base, rest, i - 1, later);
    }
  }
}
