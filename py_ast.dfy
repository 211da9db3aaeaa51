/** The part of a parsed Python module that the override analysis looks at.
    Reading a file and running Python's parser are outside the model: a file
    arrives already parsed, or marked as unreadable. */
module PyAst {

  datatype Option<T> = None | Some(value: T)

  /** A base-class expression in a `class` header. Only a bare name
      (`ast.Name`) is distinguished; `mod.Base`, `Generic[T]` and every other
      form are `OtherExpr`. */
  datatype Expr = Name(id: string) | OtherExpr

  /** A statement directly in a class body. `FunctionDef` is a plain `def`;
      its `args` are the names in `args.args`, the positional-or-keyword
      parameters (`self` included when written that way), in order, or
      `None` when they cannot be read. Positional-only parameters, `*args`,
      keyword-only parameters and `**kwargs` are not among them. `async def`,
      assignments, docstrings and nested classes are `OtherStmt`. */
  datatype Stmt =
    | FunctionDef(name: string, lineno: nat, args: Option<seq<string>>)
    | OtherStmt

  /** A `class` statement found anywhere in the module (nested ones included). */
  datatype ClassDef = ClassDef(name: string, lineno: nat, bases: seq<Expr>, body: seq<Stmt>)

  /** One `.py` file of the workspace: its path and the class statements of
      its syntax tree in `ast.walk` order, or `None` when the file cannot be
      read or parsed. */
  datatype SourceFile = SourceFile(path: string, parsed: Option<seq<ClassDef>>)
}
