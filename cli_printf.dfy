/**
 * Injection in cli/printf.go: `addPrintf` rewrites every discovered body in
 * place and, if it rewrote any, appends the tracer's import spec.
 */
module CliPrintf {
  import opened GoAst
  import opened Instrument
  import opened Discovery

  /** The import declaration `addPrintf` may append to, as a frame. */
  function ImportFrame(decls: seq<Decl>): set<GenDecl>
  {
    var g := LastImport(decls);
    if g == null then {} else {g}
  }

  /** Discovery succeeds and finds at least one block, so `addPrintf` rewrites something. */
  ghost predicate Rewrites(rank: map<Block, nat>, decls: seq<Decl>)
    requires Ranked(rank) && BodiesRanked(rank, decls)
    reads rank.Keys
  {
    var d := Discover(rank, decls);
    d.Value? && Targets(d.value) != []
  }

  /** Every block `addPrintf` rewrites is ranked. */
  lemma TargetsInTree(rank: map<Block, nat>, d: Discovered)
    requires InTree(rank, d)
    ensures HasBodies(d)
    ensures forall k :: 0 <= k < |Targets(d)| ==> Targets(d)[k] in rank
  {
    forall k | 0 <= k < |Targets(d)|
      ensures Targets(d)[k] in rank
    {
      if k >= |d.funcs| {
        assert Targets(d)[k] == d.innerFuncs[k - |d.funcs|].body;
      }
    }
  }

  /**
   * The "initialize blocks" step of `addPrintf`: an array of
   * `len(funcs) + len(innerFuncs)` nil entries, filled by index with the
   * declaration bodies in order and then the literal bodies in order.
   */
  method InitBlocks(funcs: seq<FuncDecl>, innerFuncs: seq<FuncLit>) returns (blocks: array<Block?>)
    requires forall k :: 0 <= k < |funcs| ==> funcs[k].body != null
    ensures fresh(blocks)
    ensures blocks[..] == Targets(Discovered(funcs, innerFuncs, null))
  {
    blocks := new Block?[|funcs| + |innerFuncs|];
    var i := 0;
    for k := 0 to |funcs|
      invariant i == k
      invariant forall j :: 0 <= j < i ==> blocks[j] == funcs[j].body
    {
      blocks[i] := funcs[k].body;
      i := i + 1;
    }
    for k := 0 to |innerFuncs|
      invariant i == |funcs| + k
      invariant forall j :: 0 <= j < |funcs| ==> blocks[j] == funcs[j].body
      invariant forall j :: 0 <= j < k ==> blocks[|funcs| + j] == innerFuncs[j].body
    {
      blocks[i] := innerFuncs[k].body;
      i := i + 1;
    }
  }

  /**
   * The rewrite loop of `addPrintf`: each block in turn gets the two markers in
   * front of its current statements. It reports whether it rewrote any block.
   * `targets` is the array's contents, all of them non-nil.
   */
  method RewriteBlocks(blocks: array<Block?>, ghost targets: seq<Block>, ghost rank: map<Block, nat>)
    returns (isAddedDebugLog: bool)
    requires blocks[..] == targets
    requires forall k :: 0 <= k < |targets| ==> targets[k] in rank
    modifies rank.Keys
    ensures isAddedDebugLog <==> |targets| > 0
    ensures forall b :: b in rank ==> b.list == WrapTimes(Count(targets, b), old(b.list))
  {
    ghost var orig: map<Block, seq<Stmt>> := map b | b in rank :: b.list;
    assert Snapshot(rank.Keys, orig);
    isAddedDebugLog := false;
    for i := 0 to blocks.Length
      invariant isAddedDebugLog <==> i > 0
      invariant Rewritten(rank.Keys, targets[..i], orig)
    {
      var s := blocks[i];
      assert s == targets[i];
      assert targets[..i + 1] == targets[..i] + [targets[i]];
      RewriteNext(s, targets[..i], rank.Keys, orig);
      isAddedDebugLog := true;
    }
    assert targets[..|targets|] == targets;
    forall b | b in rank
      ensures b.list == WrapTimes(Count(targets, b), old(b.list))
    {
      assert old(Snapshot(rank.Keys, orig));
    }
  }

  /**
   * `addPrintf`. A function declaration without a body makes discovery panic
   * before anything changes. Otherwise each discovered block's list becomes
   * the two markers followed by its old statements. A block reached `n` times
   * is rewritten `n` times. If any block was rewritten, one import spec is
   * appended to the last import declaration and one to `file.imports`. If there
   * is no import declaration, the append dereferences nil and panics after the
   * blocks have been rewritten. When it returns, it returns a nil error.
   */
  method AddPrintf(file: File, ghost rank: map<Block, nat>) returns (r: Outcome<Option<string>>)
    requires Ranked(rank) && BodiesRanked(rank, file.decls)
    modifies rank.Keys, file`imports, ImportFrame(file.decls)
    ensures old(Discover(rank, file.decls)).Panic? ==> forall b :: b in rank ==> b.list == old(b.list)
    ensures old(Discover(rank, file.decls)).Value? ==>
      forall b :: b in rank ==> b.list == WrapTimes(Count(Targets(old(Discover(rank, file.decls)).value), b), old(b.list))
    ensures old(Discover(rank, file.decls)).Panic? ==> r == Panic(NilDerefMessage)
    ensures !old(Rewrites(rank, file.decls)) ==>
      && file.imports == old(file.imports)
      && (LastImport(file.decls) != null ==> LastImport(file.decls).specs == old(LastImport(file.decls).specs))
    ensures !old(Rewrites(rank, file.decls)) && old(Discover(rank, file.decls)).Value? ==> r == Value(None)
    ensures old(Rewrites(rank, file.decls)) && LastImport(file.decls) == null ==>
      r == Panic(NilDerefMessage) && file.imports == old(file.imports)
    ensures old(Rewrites(rank, file.decls)) && LastImport(file.decls) != null ==>
      && r == Value(None)
      && LastImport(file.decls).specs == old(LastImport(file.decls).specs) + [ImportSpecNode(GetImportSpec())]
      && file.imports == old(file.imports) + [GetImportSpec()]
  {
    DiscoverFuncsAndImport(rank, file.decls);
    var found := FindAllFuncs(file.decls, rank);
    if found.Panic? {
      return Panic(found.reason);
    }
    var isAddedDebugLog := RewriteFound(found.value, rank);
    if isAddedDebugLog {
      r := AppendImport(file, found.value.importDecl);
    } else {
      r := Value(None);
    }
  }

  /** The steps of `addPrintf` after discovery: collect the blocks and rewrite them. */
  method RewriteFound(d: Discovered, ghost rank: map<Block, nat>) returns (isAddedDebugLog: bool)
    requires InTree(rank, d)
    modifies rank.Keys
    ensures HasBodies(d)
    ensures isAddedDebugLog <==> Targets(d) != []
    ensures forall b :: b in rank ==> b.list == WrapTimes(Count(Targets(d), b), old(b.list))
  {
    TargetsInTree(rank, d);
    var blocks := InitBlocks(d.funcs, d.innerFuncs);
    assert blocks[..] == Targets(d);
    isAddedDebugLog := RewriteBlocks(blocks, Targets(d), rank);
  }

  /**
   * The import patch of `addPrintf`: the tracer's spec is appended to the
   * import declaration and to the file's import list. A nil import
   * declaration is dereferenced and panics before either changes.
   */
  method AppendImport(file: File, importDecl: GenDecl?) returns (r: Outcome<Option<string>>)
    modifies file`imports, importDecl
    ensures importDecl == null ==> r == Panic(NilDerefMessage) && file.imports == old(file.imports)
    ensures importDecl != null ==>
      && r == Value(None)
      && importDecl.specs == old(importDecl.specs) + [ImportSpecNode(GetImportSpec())]
      && file.imports == old(file.imports) + [GetImportSpec()]
  {
    if importDecl == null {
      return Panic(NilDerefMessage);
    }
    importDecl.specs := importDecl.specs + [ImportSpecNode(GetImportSpec())];
    file.imports := file.imports + [GetImportSpec()];
    return Value(None);
  }
}
