/**
 * The statements and the import spec the tool injects, and the rewrite of one
 * block. Both Go programs build the two statements in the same way.
 */
module Instrument {
  import opened GoAst

  /** The import path of the tracing library, quotes included, as it appears in source text. */
  const ThisPackagePath := "\"github.com/yuuki0xff/printfdebug\""

  /** The package name the injected calls are qualified with. */
  const TracerPackage := "printfdebug"

  /** `c` calls `printfdebug.<op>` with no arguments. */
  predicate CallsTracer(c: CallExpr, op: string)
  {
    c.fun == Selector(Ident(TracerPackage), op) && c.args == []
  }

  /** The entry statement: a plain call of `printfdebug.FuncStart()`. */
  function GetFuncStartStmt(): (s: Stmt)
    ensures s.ExprStmt? && s.x.Call? && CallsTracer(s.x.call, "FuncStart")
  {
    ExprStmt(Call(CallExpr(Selector(Ident(TracerPackage), "FuncStart"), [])))
  }

  /** The exit statement: `defer printfdebug.FuncEnd()`, which runs when the function returns. */
  function GetFuncEndStmt(): (s: Stmt)
    ensures s.DeferStmt? && CallsTracer(s.call, "FuncEnd")
    ensures !s.call.fun.FnLit?
  {
    DeferStmt(CallExpr(Selector(Ident(TracerPackage), "FuncEnd"), []))
  }

  /** The import spec appended to the file: a string literal holding the tracer's path. */
  function GetImportSpec(): (spec: ImportSpec)
    ensures spec.path.kind == STRING && spec.path.value == ThisPackagePath
  {
    ImportSpec(BasicLit(STRING, ThisPackagePath))
  }

  /** The two injected statements, in the order they are placed at the head of a body. */
  function Markers(): seq<Stmt>
  {
    [GetFuncStartStmt(), GetFuncEndStmt()]
  }

  /** A statement list after one rewrite. */
  function Wrap(list: seq<Stmt>): seq<Stmt>
  {
    Markers() + list
  }

  /** A statement list after `k` rewrites of the same block. */
  function WrapTimes(k: nat, list: seq<Stmt>): seq<Stmt>
  {
    if k == 0 then list else Wrap(WrapTimes(k - 1, list))
  }

  /**
   * After `k` rewrites the list is `k` copies of the entry/exit pair followed by
   * the original statements, unchanged and in their original order.
   */
  lemma {:induction false} WrapTimesShape(k: nat, list: seq<Stmt>)
    ensures |WrapTimes(k, list)| == |list| + 2 * k
    ensures WrapTimes(k, list)[2 * k..] == list
    ensures forall j :: 0 <= j < k ==>
      WrapTimes(k, list)[2 * j] == GetFuncStartStmt() && WrapTimes(k, list)[2 * j + 1] == GetFuncEndStmt()
  {
    if k > 0 {
      WrapTimesShape(k - 1, list);
      var w := WrapTimes(k - 1, list);
      assert WrapTimes(k, list) == [GetFuncStartStmt(), GetFuncEndStmt()] + w;
      forall j | 0 <= j < k
        ensures WrapTimes(k, list)[2 * j] == GetFuncStartStmt() && WrapTimes(k, list)[2 * j + 1] == GetFuncEndStmt()
      {
        if j > 0 {
          assert WrapTimes(k, list)[2 * j] == w[2 * (j - 1)];
          assert WrapTimes(k, list)[2 * j + 1] == w[2 * (j - 1) + 1];
        }
      }
    }
  }

  /**
   * Rewriting is not idempotent: rewriting an already rewritten list adds a
   * second pair of markers, four statements in all.
   */
  lemma {:induction false} RewriteTwiceAddsFour(list: seq<Stmt>)
    ensures WrapTimes(2, list) == [GetFuncStartStmt(), GetFuncEndStmt(), GetFuncStartStmt(), GetFuncEndStmt()] + list
    ensures |WrapTimes(2, list)| == |list| + 4
    ensures WrapTimes(2, list) != WrapTimes(1, list)
  {
    assert WrapTimes(1, list) == Wrap(list);
    assert |WrapTimes(2, list)| != |WrapTimes(1, list)|;
  }

  /**
   * A block that occurs once among the rewritten blocks, as every block of a
   * tree without shared subtrees does, gets exactly one pair of markers in
   * front of its original statements.
   */
  lemma DistinctWrappedOnce(targets: seq<Block>, b: Block, list: seq<Stmt>)
    requires Distinct(targets) && b in targets
    ensures WrapTimes(Count(targets, b), list) == Markers() + list
    ensures |WrapTimes(Count(targets, b), list)| == |list| + 2
  {
    CountDistinct(targets, b);
    assert WrapTimes(1, list) == Wrap(WrapTimes(0, list));
  }

  /**
   * Replaces `s.list` by a fresh list holding the entry statement, the exit
   * statement and then each of the old statements, appended one at a time.
   */
  method WrapBody(s: Block)
    modifies s
    ensures s.list == Wrap(old(s.list))
  {
    var stmtList := s.list;
    s.list := [];
    s.list := s.list + [GetFuncStartStmt()];
    s.list := s.list + [GetFuncEndStmt()];
    for i := 0 to |stmtList|
      invariant s.list == Markers() + stmtList[..i]
    {
      s.list := s.list + [stmtList[i]];
    }
    assert stmtList[..|stmtList|] == stmtList;
  }

  /** `orig` records the current statement list of each of `targets`. */
  ghost predicate Snapshot(targets: set<Block>, orig: map<Block, seq<Stmt>>)
    reads targets
  {
    forall b :: b in targets ==> b in orig && orig[b] == b.list
  }

  /**
   * Each of `targets` has been rewritten once for each time it occurs in
   * `visited`, starting from the list `orig` recorded for it.
   */
  ghost predicate Rewritten(targets: set<Block>, visited: seq<Block>, orig: map<Block, seq<Stmt>>)
    reads targets
  {
    forall b :: b in targets ==> b in orig && b.list == WrapTimes(Count(visited, b), orig[b])
  }

  /** One more block is rewritten: the count of `s` goes up by one and no other block changes. */
  method RewriteNext(s: Block, ghost visited: seq<Block>, ghost targets: set<Block>, ghost orig: map<Block, seq<Stmt>>)
    requires s in targets
    requires Rewritten(targets, visited, orig)
    modifies s
    ensures Rewritten(targets, visited + [s], orig)
  {
    forall b | b in targets
      ensures Count(visited + [s], b) == Count(visited, b) + (if s == b then 1 else 0)
    {
      CountSnoc(visited, s, b);
    }
    WrapBody(s);
  }
}
