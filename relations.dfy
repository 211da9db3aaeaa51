/** The records the analysis emits. */
module Relations {
  import opened ClassTables
  import opened BaseLookup
  import opened Paths

  /** `child_override`: method `methodName` of `cls` overrides the method of the
      same name in its direct base `base`. `parent_overridden`: method
      `methodName` of `cls` is overridden in subclass `child` of another file. */
  datatype Relation =
    | ChildOverride(cls: string, methodName: string, line: nat, base: string, baseFile: string,
                    baseFilePath: string, baseLine: nat, signature: string, baseSignature: string)
    | ParentOverridden(cls: string, methodName: string, line: nat, child: string, childFile: string,
                       childFilePath: string, childLine: nat, signature: string, childSignature: string)

  /** The `child_override` record for method `m` of class `cls`: location and
      signature from the child, the `base_*` fields from the base method. */
  function ChildRecord(cls: string, m: string, mine: MethodInfo, base: string, found: BaseMethod): Relation {
    ChildOverride(cls, m, mine.line, base, Basename(found.file), found.file, found.line,
                  mine.signature, found.signature)
  }

  /** The `parent_overridden` record for method `m` of base class `cls` of the
      analysed file, overridden in class `child` of the file at `path`. */
  function ParentRecord(cls: string, m: string, mine: MethodInfo, child: string, path: string, theirs: MethodInfo): Relation {
    ParentOverridden(cls, m, mine.line, child, Basename(path), path, theirs.line,
                     mine.signature, theirs.signature)
  }
}
