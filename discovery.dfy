/**
 * Discovery in cli/printf.go: which function bodies get instrumented, and
 * which import declaration gets patched.
 *
 * The syntax tree lives on the heap, because blocks are objects. Discovery
 * follows a statement into a nested block through a reference, so its
 * termination rests on the ghost parameter `rank`. `rank` gives each block
 * discovery may enter a height greater than the heights of the blocks it
 * descends into from that block (`Ranked`). Any syntax tree, being acyclic,
 * has such a ranking.
 *
 * The ghost functions here define what discovery computes. The methods follow
 * the Go loops and are proved to compute the same thing.
 */
module Discovery {
  import opened GoAst
  import opened Instrument

  // ---------------------------------------------------------------------------
  // Shape of the traversal

  /** The blocks discovery enters from a call in a `defer` or `go` statement: the callee's body, if the callee is a literal. */
  function Callee(c: CallExpr): set<Block>
  {
    if c.fun.FnLit? then {c.fun.lit.body} else {}
  }

  /** The blocks discovery enters directly from statement `s`. An `if` contributes its body but not its else branch. */
  function Followed(s: Stmt): set<Block>
  {
    match s
    case DeferStmt(c) => Callee(c)
    case GoStmt(c) => Callee(c)
    case IfStmt(b, _) => {b}
    case ForStmt(b) => {b}
    case SwitchStmt(b) => {b}
    case TypeSwitchStmt(b) => {b}
    case _ => {}
  }

  /** Every block entered from `s` has a rank below `bound`. */
  ghost predicate StmtBelow(rank: map<Block, nat>, s: Stmt, bound: nat)
  {
    forall c :: c in Followed(s) ==> c in rank && rank[c] < bound
  }

  /** Every block entered from `stmts` has a rank below `bound`. */
  ghost predicate Below(rank: map<Block, nat>, stmts: seq<Stmt>, bound: nat)
  {
    forall i :: 0 <= i < |stmts| ==> StmtBelow(rank, stmts[i], bound)
  }

  /** `rank` is a ranking of the tree: from a ranked block discovery only enters blocks of smaller rank. */
  ghost predicate Ranked(rank: map<Block, nat>)
    reads rank.Keys
  {
    forall b :: b in rank ==> Below(rank, b.list, rank[b])
  }

  /** `r` is `funcs` with literals appended whose bodies are ranked below `bound`. */
  ghost predicate Extends(rank: map<Block, nat>, funcs: seq<FuncLit>, r: seq<FuncLit>, bound: nat)
  {
    funcs <= r && forall i :: |funcs| <= i < |r| ==> r[i].body in rank && rank[r[i].body] < bound
  }

  // ---------------------------------------------------------------------------
  // What discovery computes, with an accumulator as in the Go code

  /** The function literals `findAllFuncsByCallExper` appends to `funcs` for `call`. */
  ghost function CallLits(rank: map<Block, nat>, call: CallExpr, funcs: seq<FuncLit>, bound: nat): (r: seq<FuncLit>)
    requires Ranked(rank) && StmtBelow(rank, DeferStmt(call), bound)
    reads rank.Keys
    ensures Extends(rank, funcs, r, bound)
    ensures !call.fun.FnLit? ==> r == funcs
    decreases bound, 0, 0
  {
    match call.fun
    case FnLit(f) =>
      assert f.body in Followed(DeferStmt(call));
      StmtsLits(rank, f.body.list, funcs + [f], rank[f.body])
    case _ => funcs
  }

  /** The function literals one pass of the loop in `findAllFuncsByStmt` appends to `funcs` for `s`. */
  ghost function StmtLit(rank: map<Block, nat>, s: Stmt, funcs: seq<FuncLit>, bound: nat): (r: seq<FuncLit>)
    requires Ranked(rank) && StmtBelow(rank, s, bound)
    reads rank.Keys
    ensures Extends(rank, funcs, r, bound)
    ensures Followed(s) == {} ==> r == funcs
    decreases bound, 0, 1
  {
    match s
    case DeferStmt(c) => CallLits(rank, c, funcs, bound)
    case GoStmt(c) => CallLits(rank, c, funcs, bound)
    case IfStmt(b, _) => assert b in Followed(s); StmtsLits(rank, b.list, funcs, rank[b])
    case ForStmt(b) => assert b in Followed(s); StmtsLits(rank, b.list, funcs, rank[b])
    case SwitchStmt(b) => assert b in Followed(s); StmtsLits(rank, b.list, funcs, rank[b])
    case TypeSwitchStmt(b) => assert b in Followed(s); StmtsLits(rank, b.list, funcs, rank[b])
    case DeclStmt(_) => funcs
    case _ => funcs
  }

  /** The function literals `findAllFuncsByStmt` appends to `funcs` for `stmts`. */
  ghost function StmtsLits(rank: map<Block, nat>, stmts: seq<Stmt>, funcs: seq<FuncLit>, bound: nat): (r: seq<FuncLit>)
    requires Ranked(rank) && Below(rank, stmts, bound)
    reads rank.Keys
    ensures Extends(rank, funcs, r, bound)
    decreases bound, |stmts|, 1
  {
    if stmts == [] then funcs
    else
      var n := |stmts| - 1;
      assert StmtBelow(rank, stmts[n], bound);
      StmtLit(rank, stmts[n], StmtsLits(rank, stmts[..n], funcs, bound), bound)
  }

  // ---------------------------------------------------------------------------
  // An accumulator-free reference definition, and its agreement with the above

  /** The literals found under `call`: the callee, if it is a literal, followed by those found in its body. */
  ghost function CallFound(rank: map<Block, nat>, call: CallExpr, bound: nat): seq<FuncLit>
    requires Ranked(rank) && StmtBelow(rank, DeferStmt(call), bound)
    reads rank.Keys
    decreases bound, 0, 0
  {
    if call.fun.FnLit? then
      var f := call.fun.lit;
      assert f.body in Followed(DeferStmt(call));
      [f] + Found(rank, f.body.list, rank[f.body])
    else []
  }

  /** The literals found under statement `s`. */
  ghost function StmtFound(rank: map<Block, nat>, s: Stmt, bound: nat): seq<FuncLit>
    requires Ranked(rank) && StmtBelow(rank, s, bound)
    reads rank.Keys
    decreases bound, 0, 1
  {
    match s
    case DeferStmt(c) => CallFound(rank, c, bound)
    case GoStmt(c) => CallFound(rank, c, bound)
    case IfStmt(b, _) => assert b in Followed(s); Found(rank, b.list, rank[b])
    case ForStmt(b) => assert b in Followed(s); Found(rank, b.list, rank[b])
    case SwitchStmt(b) => assert b in Followed(s); Found(rank, b.list, rank[b])
    case TypeSwitchStmt(b) => assert b in Followed(s); Found(rank, b.list, rank[b])
    case _ => []
  }

  /** The literals found under `stmts`, statement by statement. */
  ghost function Found(rank: map<Block, nat>, stmts: seq<Stmt>, bound: nat): seq<FuncLit>
    requires Ranked(rank) && Below(rank, stmts, bound)
    reads rank.Keys
    decreases bound, |stmts|, 1
  {
    if stmts == [] then []
    else
      var n := |stmts| - 1;
      assert StmtBelow(rank, stmts[n], bound);
      Found(rank, stmts[..n], bound) + StmtFound(rank, stmts[n], bound)
  }

  /** Discovery with an accumulator appends exactly the literals of the reference definition. */
  lemma {:induction false} CallLitsAppendsFound(rank: map<Block, nat>, call: CallExpr, funcs: seq<FuncLit>, bound: nat)
    requires Ranked(rank) && StmtBelow(rank, DeferStmt(call), bound)
    ensures CallLits(rank, call, funcs, bound) == funcs + CallFound(rank, call, bound)
    decreases bound, 0, 0
  {
    if call.fun.FnLit? {
      var f := call.fun.lit;
      assert f.body in Followed(DeferStmt(call));
      StmtsLitsAppendsFound(rank, f.body.list, funcs + [f], rank[f.body]);
    }
  }

  lemma {:induction false} StmtLitAppendsFound(rank: map<Block, nat>, s: Stmt, funcs: seq<FuncLit>, bound: nat)
    requires Ranked(rank) && StmtBelow(rank, s, bound)
    ensures StmtLit(rank, s, funcs, bound) == funcs + StmtFound(rank, s, bound)
    decreases bound, 0, 1
  {
    match s
    case DeferStmt(c) => CallLitsAppendsFound(rank, c, funcs, bound);
    case GoStmt(c) => CallLitsAppendsFound(rank, c, funcs, bound);
    case IfStmt(b, _) => assert b in Followed(s); StmtsLitsAppendsFound(rank, b.list, funcs, rank[b]);
    case ForStmt(b) => assert b in Followed(s); StmtsLitsAppendsFound(rank, b.list, funcs, rank[b]);
    case SwitchStmt(b) => assert b in Followed(s); StmtsLitsAppendsFound(rank, b.list, funcs, rank[b]);
    case TypeSwitchStmt(b) => assert b in Followed(s); StmtsLitsAppendsFound(rank, b.list, funcs, rank[b]);
    case _ =>
  }

  lemma {:induction false} StmtsLitsAppendsFound(rank: map<Block, nat>, stmts: seq<Stmt>, funcs: seq<FuncLit>, bound: nat)
    requires Ranked(rank) && Below(rank, stmts, bound)
    ensures StmtsLits(rank, stmts, funcs, bound) == funcs + Found(rank, stmts, bound)
    decreases bound, |stmts|, 1
  {
    if stmts != [] {
      var n := |stmts| - 1;
      assert StmtBelow(rank, stmts[n], bound);
      StmtsLitsAppendsFound(rank, stmts[..n], funcs, bound);
      var mid := StmtsLits(rank, stmts[..n], funcs, bound);
      StmtLitAppendsFound(rank, stmts[n], mid, bound);
    }
  }

  // ---------------------------------------------------------------------------
  // Properties of discovery

  /**
   * A `defer` or `go` call adds literals if and only if its callee is a
   * literal. The first one added is that literal, and the rest are those found
   * in its body.
   */
  lemma CallAddsIffLiteral(rank: map<Block, nat>, call: CallExpr, funcs: seq<FuncLit>, bound: nat)
    requires Ranked(rank) && StmtBelow(rank, DeferStmt(call), bound)
    ensures |CallLits(rank, call, funcs, bound)| > |funcs| <==> call.fun.FnLit?
    ensures call.fun.FnLit? ==>
      assert call.fun.lit.body in Followed(DeferStmt(call));
      CallLits(rank, call, funcs, bound)
      == funcs + [call.fun.lit] + Found(rank, call.fun.lit.body.list, rank[call.fun.lit.body])
  {
    CallLitsAppendsFound(rank, call, funcs, bound);
  }

  /** Discovering over `a + b` is discovering over `a`, then over `b`. */
  lemma {:induction false} StmtsLitsConcat(rank: map<Block, nat>, a: seq<Stmt>, b: seq<Stmt>, funcs: seq<FuncLit>, bound: nat)
    requires Ranked(rank) && Below(rank, a, bound) && Below(rank, b, bound)
    ensures Below(rank, a + b, bound)
    ensures StmtsLits(rank, a + b, funcs, bound) == StmtsLits(rank, b, StmtsLits(rank, a, funcs, bound), bound)
    decreases |b|
  {
    assert forall i :: 0 <= i < |a + b| ==> (a + b)[i] == if i < |a| then a[i] else b[i - |a|];
    if b == [] {
      assert a + b == a;
    } else {
      var n := |b| - 1;
      assert (a + b)[..|a + b| - 1] == a + b[..n];
      assert (a + b)[|a + b| - 1] == b[n];
      StmtsLitsConcat(rank, a, b[..n], funcs, bound);
    }
  }

  /** The injected statements enter no block, so discovery passes over them. */
  lemma MarkersAreInert(rank: map<Block, nat>, funcs: seq<FuncLit>, bound: nat)
    requires Ranked(rank)
    ensures Below(rank, Markers(), bound)
    ensures StmtsLits(rank, Markers(), funcs, bound) == funcs
  {
    var m := Markers();
    assert Followed(m[0]) == {} && Followed(m[1]) == {};
    assert m[..1][..0] == [] && m[..1][0] == m[0];
    assert StmtsLits(rank, m[..1], funcs, bound) == StmtLit(rank, m[0], funcs, bound) == funcs;
    assert m[..1] == m[..|m| - 1];
  }

  /**
   * Discovery sees through instrumentation: over a list rewritten `k` times it
   * finds what it finds over the original list.
   */
  lemma {:induction false} WrapTimesFindsSame(rank: map<Block, nat>, k: nat, list: seq<Stmt>, funcs: seq<FuncLit>, bound: nat)
    requires Ranked(rank) && Below(rank, list, bound)
    ensures Below(rank, WrapTimes(k, list), bound)
    ensures StmtsLits(rank, WrapTimes(k, list), funcs, bound) == StmtsLits(rank, list, funcs, bound)
  {
    if k > 0 {
      WrapTimesFindsSame(rank, k - 1, list, funcs, bound);
      var w := WrapTimes(k - 1, list);
      MarkersAreInert(rank, funcs, bound);
      StmtsLitsConcat(rank, Markers(), w, funcs, bound);
    }
  }

  /** Statements that enter no block add nothing, however many of them there are. */
  lemma {:induction false} InertStmtsAddNothing(rank: map<Block, nat>, stmts: seq<Stmt>, funcs: seq<FuncLit>, bound: nat)
    requires Ranked(rank)
    requires forall i :: 0 <= i < |stmts| ==> Followed(stmts[i]) == {}
    ensures Below(rank, stmts, bound)
    ensures StmtsLits(rank, stmts, funcs, bound) == funcs
  {
    if stmts != [] {
      var n := |stmts| - 1;
      assert forall i :: 0 <= i < n ==> stmts[..n][i] == stmts[i];
      InertStmtsAddNothing(rank, stmts[..n], funcs, bound);
      assert Followed(stmts[n]) == {};
    }
  }

  /**
   * A switch whose body holds only case clauses, as every switch body does,
   * adds nothing: the clauses fall into the default arm, so neither their
   * statements nor the literals in them are reached.
   */
  lemma SwitchOfCasesAddsNothing(rank: map<Block, nat>, b: Block, funcs: seq<FuncLit>, bound: nat)
    requires Ranked(rank) && StmtBelow(rank, SwitchStmt(b), bound)
    requires forall i :: 0 <= i < |b.list| ==> b.list[i].CaseClause?
    ensures StmtLit(rank, SwitchStmt(b), funcs, bound) == funcs
    ensures StmtLit(rank, TypeSwitchStmt(b), funcs, bound) == funcs
  {
    assert b in Followed(SwitchStmt(b));
    InertStmtsAddNothing(rank, b.list, funcs, rank[b]);
  }

  /** An `if` statement adds what its body adds, whatever its else branch holds. */
  lemma IfIgnoresElse(rank: map<Block, nat>, b: Block, els: Option<Stmt>, funcs: seq<FuncLit>, bound: nat)
    requires Ranked(rank) && StmtBelow(rank, IfStmt(b, None), bound)
    ensures StmtBelow(rank, IfStmt(b, els), bound)
    ensures StmtLit(rank, IfStmt(b, els), funcs, bound) == StmtLit(rank, IfStmt(b, None), funcs, bound)
  {
    assert Followed(IfStmt(b, els)) == Followed(IfStmt(b, None));
  }

  // ---------------------------------------------------------------------------
  // Top-level declarations

  /** What `findAllFuncs` returns. */
  datatype Discovered = Discovered(funcs: seq<FuncDecl>, innerFuncs: seq<FuncLit>, importDecl: GenDecl?)

  predicate IsImportDecl(d: Decl)
  {
    d.GenD? && d.genDecl.tok == IMPORT
  }

  /** The index of the last general declaration with the IMPORT token, or -1 if there is none. */
  function LastImportIndex(decls: seq<Decl>): (k: int)
    ensures -1 <= k < |decls|
    ensures k >= 0 ==> IsImportDecl(decls[k])
    ensures forall j :: k < j < |decls| ==> !IsImportDecl(decls[j])
  {
    if decls == [] then -1
    else if IsImportDecl(decls[|decls| - 1]) then |decls| - 1
    else LastImportIndex(decls[..|decls| - 1])
  }

  /** The last general declaration with the IMPORT token, or null if there is none. */
  function LastImport(decls: seq<Decl>): (g: GenDecl?)
    ensures g == null <==> forall i :: 0 <= i < |decls| ==> !IsImportDecl(decls[i])
    ensures g != null ==> g.tok == IMPORT && GenD(g) in decls
    ensures g != null ==>
      exists k :: 0 <= k < |decls| && decls[k] == GenD(g) && forall j :: k < j < |decls| ==> !IsImportDecl(decls[j])
  {
    var k := LastImportIndex(decls);
    if k < 0 then null else decls[k].genDecl
  }

  /** Extending `decls` by one declaration: the new one wins if it is an import declaration. */
  lemma LastImportSnoc(decls: seq<Decl>)
    requires decls != []
    ensures var n := |decls| - 1;
      LastImport(decls) == if IsImportDecl(decls[n]) then decls[n].genDecl else LastImport(decls[..n])
  {
  }

  /** The function declarations among `decls`, in order. */
  function FuncDeclsOf(decls: seq<Decl>): (r: seq<FuncDecl>)
    ensures forall i :: 0 <= i < |r| ==> FuncD(r[i]) in decls
    ensures forall i :: 0 <= i < |decls| && decls[i].FuncD? ==> decls[i].funcDecl in r
  {
    if decls == [] then []
    else
      var n := |decls| - 1;
      assert decls == decls[..n] + [decls[n]];
      FuncDeclsOf(decls[..n]) + (if decls[n].FuncD? then [decls[n].funcDecl] else [])
  }

  /** No function declaration in `decls` lacks a body. */
  predicate NoExternal(decls: seq<Decl>)
  {
    forall i :: 0 <= i < |decls| && decls[i].FuncD? ==> decls[i].funcDecl.body != null
  }

  /** Every function body in `decls` is ranked. */
  ghost predicate BodiesRanked(rank: map<Block, nat>, decls: seq<Decl>)
  {
    forall i :: 0 <= i < |decls| && decls[i].FuncD? && decls[i].funcDecl.body != null ==> decls[i].funcDecl.body in rank
  }

  /** Every body in `d` exists and is ranked. */
  ghost predicate InTree(rank: map<Block, nat>, d: Discovered)
  {
    && (forall i :: 0 <= i < |d.funcs| ==> d.funcs[i].body != null && d.funcs[i].body in rank)
    && (forall i :: 0 <= i < |d.innerFuncs| ==> d.innerFuncs[i].body in rank)
  }

  /** One pass of the loop in `findAllFuncs`. A function declaration without a body panics on `d.Body.List`. */
  ghost function DeclStep(rank: map<Block, nat>, decl: Decl, d: Discovered): Outcome<Discovered>
    requires Ranked(rank) && BodiesRanked(rank, [decl])
    reads rank.Keys
  {
    match decl
    case GenD(g) => Value(if g.tok == IMPORT then d.(importDecl := g) else d)
    case FuncD(fd) =>
      if fd.body == null then Panic(NilDerefMessage)
      else
        assert [decl][0] == decl;
        Value(d.(funcs := d.funcs + [fd], innerFuncs := StmtsLits(rank, fd.body.list, d.innerFuncs, rank[fd.body])))
    case BadDecl => Value(d)
  }

  /** What `findAllFuncs` computes. */
  ghost function Discover(rank: map<Block, nat>, decls: seq<Decl>): (r: Outcome<Discovered>)
    requires Ranked(rank) && BodiesRanked(rank, decls)
    reads rank.Keys
    ensures r.Value? <==> NoExternal(decls)
    ensures r.Panic? ==> r.reason == NilDerefMessage
    ensures r.Value? ==> InTree(rank, r.value)
  {
    if decls == [] then Value(Discovered([], [], null))
    else
      var n := |decls| - 1;
      assert forall i :: 0 <= i < n ==> decls[..n][i] == decls[i];
      assert [decls[n]][0] == decls[n];
      match Discover(rank, decls[..n])
      case Panic(m) => Panic(m)
      case Value(d) => DeclStep(rank, decls[n], d)
  }

  /** `findAllFuncs` returns every function declaration, in order, and the last import declaration. */
  lemma {:induction false} DiscoverFuncsAndImport(rank: map<Block, nat>, decls: seq<Decl>)
    requires Ranked(rank) && BodiesRanked(rank, decls)
    ensures Discover(rank, decls).Value? ==>
      && Discover(rank, decls).value.funcs == FuncDeclsOf(decls)
      && Discover(rank, decls).value.importDecl == LastImport(decls)
  {
    if decls != [] {
      var n := |decls| - 1;
      assert forall i :: 0 <= i < n ==> decls[..n][i] == decls[i];
      DiscoverFuncsAndImport(rank, decls[..n]);
      LastImportSnoc(decls);
    }
  }

  /** The literals found in the bodies of the function declarations of `decls`, declaration by declaration. */
  ghost function DeclsFound(rank: map<Block, nat>, decls: seq<Decl>): seq<FuncLit>
    requires Ranked(rank) && BodiesRanked(rank, decls)
    reads rank.Keys
  {
    if decls == [] then []
    else
      var n := |decls| - 1;
      var last := decls[n];
      DeclsFound(rank, decls[..n])
      + if last.FuncD? && last.funcDecl.body != null then Found(rank, last.funcDecl.body.list, rank[last.funcDecl.body]) else []
  }

  /** The literals `findAllFuncs` returns are those found body by body, in declaration order. */
  lemma {:induction false} DiscoverInnerFuncs(rank: map<Block, nat>, decls: seq<Decl>)
    requires Ranked(rank) && BodiesRanked(rank, decls)
    ensures Discover(rank, decls).Value? ==> Discover(rank, decls).value.innerFuncs == DeclsFound(rank, decls)
  {
    if decls != [] {
      var n := |decls| - 1;
      DiscoverInnerFuncs(rank, decls[..n]);
      var prev := Discover(rank, decls[..n]);
      if prev.Value? && decls[n].FuncD? && decls[n].funcDecl.body != null {
        var b := decls[n].funcDecl.body;
        StmtsLitsAppendsFound(rank, b.list, prev.value.innerFuncs, rank[b]);
      }
    }
  }

  /** Every function declaration in `d.funcs` has a body. */
  predicate HasBodies(d: Discovered)
  {
    forall i :: 0 <= i < |d.funcs| ==> d.funcs[i].body != null
  }

  /** The blocks `addPrintf` rewrites, in order: the bodies of the declarations, then the bodies of the literals. */
  function Targets(d: Discovered): (r: seq<Block>)
    requires HasBodies(d)
    ensures |r| == |d.funcs| + |d.innerFuncs|
    ensures forall i :: 0 <= i < |d.funcs| ==> r[i] == d.funcs[i].body
    ensures forall j :: 0 <= j < |d.innerFuncs| ==> r[|d.funcs| + j] == d.innerFuncs[j].body
  {
    seq(|d.funcs|, i requires 0 <= i < |d.funcs| => d.funcs[i].body as Block)
    + seq(|d.innerFuncs|, j requires 0 <= j < |d.innerFuncs| => d.innerFuncs[j].body)
  }

  // ---------------------------------------------------------------------------
  // The Go functions

  /**
   * `findAllFuncsByCallExper`: appends the callee if it is a function literal,
   * then the literals in its body. It panics on a nil accumulator, modelled as None.
   */
  method FindAllFuncsByCallExper(caller: CallExpr, funcs: Option<seq<FuncLit>>, ghost rank: map<Block, nat>, ghost bound: nat)
    returns (r: Outcome<seq<FuncLit>>)
    requires Ranked(rank) && StmtBelow(rank, DeferStmt(caller), bound)
    ensures funcs.None? ==> r == Panic(NilFuncsMessage)
    ensures funcs.Some? ==> r == Value(CallLits(rank, caller, funcs.value, bound))
    decreases bound, 0, 0
  {
    if funcs.None? {
      return Panic(NilFuncsMessage);
    }
    var acc := funcs.value;
    match caller.fun {
      case FnLit(f) =>
        assert f.body in Followed(DeferStmt(caller));
        acc := acc + [f];
        var o := FindAllFuncsByStmt(f.body.list, Some(acc), rank, rank[f.body]);
        acc := o.value;
      case _ =>
    }
    return Value(acc);
  }

  /**
   * `findAllFuncsByDecl`: its type switch has only a default arm, so it
   * returns the accumulator unchanged. It panics on a nil accumulator.
   */
  method FindAllFuncsByDecl(decls: seq<Decl>, funcs: Option<seq<FuncLit>>) returns (r: Outcome<seq<FuncLit>>)
    ensures funcs.None? ==> r == Panic(NilFuncsMessage)
    ensures funcs.Some? ==> r == Value(funcs.value)
  {
    if funcs.None? {
      return Panic(NilFuncsMessage);
    }
    return Value(funcs.value);
  }

  /**
   * `findAllFuncsByStmt`: scans each statement in order. It panics on a nil
   * accumulator; the accumulator it passes on is never nil.
   */
  method FindAllFuncsByStmt(stmts: seq<Stmt>, funcs: Option<seq<FuncLit>>, ghost rank: map<Block, nat>, ghost bound: nat)
    returns (r: Outcome<seq<FuncLit>>)
    requires Ranked(rank) && Below(rank, stmts, bound)
    ensures funcs.None? ==> r == Panic(NilFuncsMessage)
    ensures funcs.Some? ==> r == Value(StmtsLits(rank, stmts, funcs.value, bound))
    decreases bound, 1
  {
    if funcs.None? {
      return Panic(NilFuncsMessage);
    }
    var acc := funcs.value;
    for i := 0 to |stmts|
      invariant acc == StmtsLits(rank, stmts[..i], funcs.value, bound)
    {
      assert StmtBelow(rank, stmts[i], bound);
      assert stmts[..i + 1][..i] == stmts[..i];
      acc := FindAllFuncsInStmt(stmts[i], acc, rank, bound);
    }
    assert stmts[..|stmts|] == stmts;
    return Value(acc);
  }

  /** The type switch in the loop of `findAllFuncsByStmt`, on one statement. */
  method FindAllFuncsInStmt(s: Stmt, acc: seq<FuncLit>, ghost rank: map<Block, nat>, ghost bound: nat)
    returns (r: seq<FuncLit>)
    requires Ranked(rank) && StmtBelow(rank, s, bound)
    ensures r == StmtLit(rank, s, acc, bound)
    decreases bound, 0, 1
  {
    match s {
      case DeferStmt(c) =>
        var o := FindAllFuncsByCallExper(c, Some(acc), rank, bound);
        r := o.value;
      case GoStmt(c) =>
        var o := FindAllFuncsByCallExper(c, Some(acc), rank, bound);
        r := o.value;
      case IfStmt(b, _) =>
        assert b in Followed(s);
        var o := FindAllFuncsByStmt(b.list, Some(acc), rank, rank[b]);
        r := o.value;
      case ForStmt(b) =>
        assert b in Followed(s);
        var o := FindAllFuncsByStmt(b.list, Some(acc), rank, rank[b]);
        r := o.value;
      case SwitchStmt(b) =>
        assert b in Followed(s);
        var o := FindAllFuncsByStmt(b.list, Some(acc), rank, rank[b]);
        r := o.value;
      case TypeSwitchStmt(b) =>
        assert b in Followed(s);
        var o := FindAllFuncsByStmt(b.list, Some(acc), rank, rank[b]);
        r := o.value;
      case DeclStmt(d) =>
        var o := FindAllFuncsByDecl([d], Some(acc));
        r := o.value;
      case _ =>
        r := acc;
    }
  }

  /**
   * `findAllFuncs`: collects the function declarations, the literals found in
   * their bodies, and the last import declaration.
   */
  method FindAllFuncs(decls: seq<Decl>, ghost rank: map<Block, nat>) returns (r: Outcome<Discovered>)
    requires Ranked(rank) && BodiesRanked(rank, decls)
    ensures r == Discover(rank, decls)
  {
    var funcs: seq<FuncDecl> := [];
    var innerFuncs: seq<FuncLit> := [];
    var importDecl: GenDecl? := null;
    for i := 0 to |decls|
      invariant Discover(rank, decls[..i]) == Value(Discovered(funcs, innerFuncs, importDecl))
    {
      assert decls[..i + 1][..i] == decls[..i];
      assert decls[..i + 1][i] == decls[i];
      match decls[i] {
        case GenD(d) =>
          if d.tok == IMPORT {
            importDecl := d;
          }
        case FuncD(d) =>
          funcs := funcs + [d];
          if d.body == null {
            assert !NoExternal(decls);
            return Panic(NilDerefMessage);
          }
          var o := FindAllFuncsByStmt(d.body.list, Some(innerFuncs), rank, rank[d.body]);
          innerFuncs := o.value;
        case BadDecl =>
      }
    }
    assert decls[..|decls|] == decls;
    return Value(Discovered(funcs, innerFuncs, importDecl));
  }
}
