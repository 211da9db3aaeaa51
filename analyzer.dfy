/** `analyze_file`: all override relations of one file of the workspace. */
module Analyzer {
  import opened PyAst
  import opened ClassTables
  import opened Relations
  import opened Forward
  import opened Reverse

  /** The analysis of `target`: its `child_override` records followed by its
      `parent_overridden` records. */
  function Analysis(target: SourceFile, ws: seq<SourceFile>): seq<Relation> {
    var table := ClassTableOf(target.parsed);
    ForwardRecords(table, ws) + ReverseRecords(target.path, table, ws)
  }

  /** Runs the forward search, then the reverse search, and concatenates. */
  method AnalyzeFile(target: SourceFile, ws: seq<SourceFile>) returns (allOverrides: seq<Relation>)
    ensures allOverrides == Analysis(target, ws)
  {
    var childOverrides := FindOverriddenMethods(target, ws);
    var parentOverridden := FindOverridingMethods(target, ws);
    allOverrides := childOverrides + parentOverridden;
  }

  /** The result holds every forward record first, each in its order, then
      every reverse record; a record is `child_override` exactly when it is in
      the first part. */
  lemma AnalysisLayout(target: SourceFile, ws: seq<SourceFile>)
    ensures var table := ClassTableOf(target.parsed);
            var fwd := ForwardRecords(table, ws);
            var rev := ReverseRecords(target.path, table, ws);
            var all := Analysis(target, ws);
            && |all| == |fwd| + |rev|
            && all[..|fwd|] == fwd && all[|fwd|..] == rev
            && forall k | 0 <= k < |all| :: all[k].ChildOverride? <==> k < |fwd|
  {
    var table := ClassTableOf(target.parsed);
    var fwd := ForwardRecords(table, ws);
    var rev := ReverseRecords(target.path, table, ws);
    forall r | r in fwd
      ensures r.ChildOverride?
    {
      ForwardRecordsKind(table, ws, r);
    }
    forall r | r in rev
      ensures r.ParentOverridden?
    {
      ReverseRecordsSkipTarget(target.path, table, ws, r);
    }
    KindsSplit(fwd, rev);
  }

  /** In a list of `child_override` records followed by `parent_overridden`
      records, the kind of a record tells which part it is in. */
  lemma KindsSplit(fwd: seq<Relation>, rev: seq<Relation>)
    requires forall r | r in fwd :: r.ChildOverride?
    requires forall r | r in rev :: r.ParentOverridden?
    ensures forall k | 0 <= k < |fwd + rev| :: (fwd + rev)[k].ChildOverride? <==> k < |fwd|
  {
    forall k | 0 <= k < |fwd + rev|
      ensures (fwd + rev)[k].ChildOverride? <==> k < |fwd|
    {
      if k < |fwd| {
        assert (fwd + rev)[k] == fwd[k] && fwd[k] in fwd;
      } else {
        assert (fwd + rev)[k] == rev[k - |fwd|] && rev[k - |fwd|] in rev;
      }
    }
  }

  /** A record is in the analysis exactly when it is a `child_override` of
      the file's classes or a `parent_overridden` of its classes by another
      file. */
  lemma AnalysisMembers(target: SourceFile, ws: seq<SourceFile>, r: Relation)
    ensures var table := ClassTableOf(target.parsed);
            r in Analysis(target, ws) <==>
              (exists c, b, m :: IsChildOverride(table, ws, r, c, b, m)) ||
              (exists i, c, b, m :: IsParentOverridden(target.path, table, ws, r, i, c, b, m))
  {
    var table := ClassTableOf(target.parsed);
    if r in ForwardRecords(table, ws) {
      ForwardRecordsSound(table, ws, r);
    }
    if r in ReverseRecords(target.path, table, ws) {
      ReverseRecordsSound(target.path, table, ws, r);
    }
    if exists c, b, m :: IsChildOverride(table, ws, r, c, b, m) {
      var c, b, m :| IsChildOverride(table, ws, r, c, b, m);
      ForwardRecordsComplete(table, ws, c, b, m, r);
    }
    if exists i, c, b, m :: IsParentOverridden(target.path, table, ws, r, i, c, b, m) {
      var i, c, b, m :| IsParentOverridden(target.path, table, ws, r, i, c, b, m);
      ReverseRecordsComplete(target.path, table, ws, i, c, b, m, r);
    }
  }
}
