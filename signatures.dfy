/** Rendering of a method signature, `name(a, b, ...)`, and the reading of
    one back into its name and parameter names. */
module Signatures {
  import opened PyAst

  /** `", ".join(parts)` */
  function Join(parts: seq<string>): string
  {
    if |parts| == 0 then ""
    else if |parts| == 1 then parts[0]
    else parts[0] + ", " + Join(parts[1..])
  }

  /** The signature string of a `def`: the name, `(`, the parameter names
      joined by `", "`, `)`; just `name()` when the parameters cannot be read. */
  function Render(name: string, args: Option<seq<string>>): (r: string)
    ensures |r| >= |name| + 2 && r[..|name|] == name
    ensures r[|name|] == '(' && r[|r| - 1] == ')'
  {
    match args
    case Some(a) => name + "(" + Join(a) + ")"
    case None => name + "()"
  }

  /** Builds the signature of a `def` node the way the analyzer does: collect
      the parameter names one by one, then join them. */
  method GetFunctionSignature(f: Stmt) returns (sig: string)
    requires f.FunctionDef?
    ensures sig == Render(f.name, f.args)
  {
    match f.args {
      case None =>
        sig := f.name + "()";
      case Some(params) =>
        var args: seq<string> := [];
        var i := 0;
        while i < |params|
          invariant 0 <= i <= |params|
          invariant args == params[..i]
        {
          args := args + [params[i]];
          i := i + 1;
        }
        assert params[..i] == params;
        sig := f.name + "(" + Join(args) + ")";
    }
  }

  /** A Python identifier, as far as signature reading needs: non-empty and
      free of the separator and bracket characters. */
  predicate IsIdentifier(s: string) {
    |s| > 0 && forall i | 0 <= i < |s| :: s[i] != ',' && s[i] != ' ' && s[i] != '(' && s[i] != ')'
  }

  /** The index of the first `c` in `s`, or `|s|` when there is none. */
  function FirstIndex(s: string, c: char): (i: nat)
    ensures i <= |s|
    ensures forall j | 0 <= j < i :: s[j] != c
    ensures i < |s| ==> s[i] == c
  {
    if |s| == 0 then 0
    else if s[0] == c then 0
    else 1 + FirstIndex(s[1..], c)
  }

  /** Splits a non-empty parameter list at each `", "`. */
  function SplitArgs(s: string): seq<string>
    decreases |s|
  {
    var i := FirstIndex(s, ',');
    if i == |s| then [s]
    else [s[..i]] + SplitArgs(s[if i + 2 <= |s| then i + 2 else |s|..])
  }

  /** Reads a signature string back into the method name and the parameter
      names; `None` when it is not of the form `name(...)`. */
  function ParseSignature(sig: string): Option<(string, seq<string>)>
  {
    var i := FirstIndex(sig, '(');
    if i + 1 < |sig| && sig[|sig| - 1] == ')' then
      var inner := sig[i + 1..|sig| - 1];
      Some((sig[..i], if inner == "" then [] else SplitArgs(inner)))
    else None
  }

  lemma {:induction false} SplitJoin(parts: seq<string>)
    requires |parts| > 0
    requires forall k | 0 <= k < |parts| :: IsIdentifier(parts[k])
    ensures SplitArgs(Join(parts)) == parts
  {
    var s := Join(parts);
    var i := FirstIndex(s, ',');
    if |parts| == 1 {
      assert s == parts[0];
      assert i == |s|;
    } else {
      var p0 := parts[0];
      var rest := Join(parts[1..]);
      assert s == p0 + ", " + rest;
      assert s[|p0|] == ',';
      assert i == |p0|;
      assert s[..i] == p0;
      assert s[i + 2..] == rest;
      assert SplitArgs(s) == [p0] + SplitArgs(rest);
      SplitJoin(parts[1..]);
      assert [p0] + parts[1..] == parts;
    }
  }

  lemma JoinEmpty(parts: seq<string>)
    requires |parts| > 0
    requires forall k | 0 <= k < |parts| :: IsIdentifier(parts[k])
    ensures Join(parts) != ""
  {
  }

  /** A rendered signature reads back as its name and parameter names. */
  lemma RenderParse(name: string, args: seq<string>)
    requires IsIdentifier(name)
    requires forall k | 0 <= k < |args| :: IsIdentifier(args[k])
    ensures ParseSignature(Render(name, Some(args))) == Some((name, args))
  {
    var sig := Render(name, Some(args));
    var i := FirstIndex(sig, '(');
    assert sig[|name|] == '(';
    assert i == |name|;
    assert sig[i + 1..|sig| - 1] == Join(args);
    if |args| > 0 {
      JoinEmpty(args);
      SplitJoin(args);
    }
  }

  /** When the parameters cannot be read, the signature is that of a
      parameterless method. */
  lemma RenderFallback(name: string)
    requires IsIdentifier(name)
    ensures ParseSignature(Render(name, None)) == Some((name, []))
  {
    RenderParse(name, []);
  }
}
