/**
 * A hand-written subset of Go's syntax tree, limited to the node kinds the
 * instrumentation tool matches on. Every other kind of node is an opaque
 * "other" case.
 *
 * Statement blocks, general declarations and files are objects, because the
 * tool keeps references to them and updates their fields in place. All other
 * nodes are values.
 */
module GoAst {

  datatype Option<T> = None | Some(value: T)

  /** How a Go call ends: it either returns a value or panics. */
  datatype Outcome<T> = Value(value: T) | Panic(reason: string)

  /** The message of the discovery helpers' explicit panic on a nil accumulator. */
  const NilFuncsMessage := "\"funcs\" must be not nil"

  /** The runtime message of a nil pointer dereference. */
  const NilDerefMessage := "runtime error: invalid memory address or nil pointer dereference"

  /** The tokens the tool reads: the keyword of a general declaration and a literal's kind. */
  datatype Token = IMPORT | CONST | TYPE | VAR | STRING

  datatype BasicLit = BasicLit(kind: Token, value: string)

  /** `*ast.ImportSpec`, reduced to its path. */
  datatype ImportSpec = ImportSpec(path: BasicLit)

  /** `ast.Spec`: the entries of a general declaration. */
  datatype Spec =
    | ImportSpecNode(importSpec: ImportSpec)
    | ValueSpec(names: seq<string>, values: seq<Expr>)
    | TypeSpec(name: string)

  /** `*ast.BlockStmt`: a mutable statement list. Its identity is shared. */
  class Block {
    var list: seq<Stmt>

    constructor (list: seq<Stmt>)
      ensures this.list == list
    {
      this.list := list;
    }
  }

  /** `*ast.FuncLit`: an anonymous function with its body. */
  datatype FuncLit = FuncLit(body: Block)

  /** `*ast.CallExpr`. */
  datatype CallExpr = CallExpr(fun: Expr, args: seq<Expr>)

  /** `ast.Expr`: a function literal, a call, `x.sel`, an identifier, or another expression. */
  datatype Expr =
    | FnLit(lit: FuncLit)
    | Call(call: CallExpr)
    | Selector(x: Expr, sel: string)
    | Ident(name: string)
    | OtherExpr

  /**
   * `ast.Stmt`. The six kinds that discovery matches on come first. The rest
   * are kinds discovery ignores: some of them hold blocks or literals that are
   * never reached.
   */
  datatype Stmt =
    | DeferStmt(call: CallExpr)
    | GoStmt(call: CallExpr)
    | IfStmt(body: Block, els: Option<Stmt>)
    | ForStmt(body: Block)
    | SwitchStmt(body: Block)
    | TypeSwitchStmt(body: Block)
    | DeclStmt(decl: Decl)
    | ExprStmt(x: Expr)
    | CaseClause(exprs: seq<Expr>, caseBody: seq<Stmt>)
    | BlockStmt(block: Block)
    | RangeStmt(body: Block)
    | LabeledStmt(labelName: string, stmt: Stmt)
    | AssignStmt(lhs: seq<Expr>, rhs: seq<Expr>)
    | ReturnStmt(results: seq<Expr>)
    | OtherStmt

  /** `*ast.GenDecl`: an import, const, type or var declaration. Its specs are appended to in place. */
  class GenDecl {
    const tok: Token
    var specs: seq<Spec>

    constructor (tok: Token, specs: seq<Spec>)
      ensures this.tok == tok && this.specs == specs
    {
      this.tok := tok;
      this.specs := specs;
    }
  }

  /** `*ast.FuncDecl`. The body is null for a function declared without one (an external function). */
  datatype FuncDecl = FuncDecl(name: string, body: Block?)

  /** `ast.Decl`: its three implementations in Go. */
  datatype Decl =
    | FuncD(funcDecl: FuncDecl)
    | GenD(genDecl: GenDecl)
    | BadDecl

  /** `*ast.File`: the top-level declarations and the list of imports the printer uses. */
  class File {
    var decls: seq<Decl>
    var imports: seq<ImportSpec>

    constructor (decls: seq<Decl>, imports: seq<ImportSpec>)
      ensures this.decls == decls && this.imports == imports
    {
      this.decls := decls;
      this.imports := imports;
    }
  }

  /** The bodies of the function declarations in `decls`, in order, skipping those without a body. */
  function DeclBodies(decls: seq<Decl>): (r: seq<Block>)
    ensures |r| <= |decls|
  {
    if decls == [] then []
    else
      var last := decls[|decls| - 1];
      DeclBodies(decls[..|decls| - 1])
      + (if last.FuncD? && last.funcDecl.body != null then [last.funcDecl.body] else [])
  }

  /** The number of times `x` occurs in `xs`. */
  function Count<T(==)>(xs: seq<T>, x: T): (n: nat)
    ensures n <= |xs|
    ensures n == 0 <==> x !in xs
  {
    if xs == [] then 0
    else
      assert xs == xs[..|xs| - 1] + [xs[|xs| - 1]];
      Count(xs[..|xs| - 1], x) + (if xs[|xs| - 1] == x then 1 else 0)
  }

  /** Appending one element adds one to its own count and nothing to any other. */
  lemma CountSnoc<T>(xs: seq<T>, x: T, y: T)
    ensures Count(xs + [x], y) == Count(xs, y) + (if x == y then 1 else 0)
  {
    assert (xs + [x])[..|xs|] == xs;
  }

  /** No element of `xs` occurs twice. */
  predicate Distinct<T(==)>(xs: seq<T>)
  {
    forall i, j :: 0 <= i < j < |xs| ==> xs[i] != xs[j]
  }

  /** In a sequence without repetitions every element occurs exactly once. */
  lemma {:induction false} CountDistinct<T>(xs: seq<T>, x: T)
    requires Distinct(xs)
    ensures Count(xs, x) == if x in xs then 1 else 0
  {
    if xs != [] {
      var n := |xs| - 1;
      assert xs == xs[..n] + [xs[n]];
      assert Distinct(xs[..n]);
      CountDistinct(xs[..n], x);
      if xs[n] == x {
        assert x !in xs[..n];
      }
    }
  }
}
