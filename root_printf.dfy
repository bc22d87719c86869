/**
 * The older injection in printf.go: only the bodies of top-level function
 * declarations are rewritten, and imports are left alone.
 */
module RootPrintf {
  import opened GoAst
  import opened Instrument

  /** `b` is the body of a function declaration of `decls`. */
  predicate IsDeclBody(decls: seq<Decl>, b: Block)
  {
    exists i :: 0 <= i < |decls| && decls[i].FuncD? && decls[i].funcDecl.body == b
  }

  /** `d` is a function declaration without a body. */
  predicate IsExternal(d: Decl)
  {
    d.FuncD? && d.funcDecl.body == null
  }

  /** The index of the first function declaration without a body, or `|decls|` if there is none. */
  function FirstExternal(decls: seq<Decl>): (n: nat)
    ensures n <= |decls|
    ensures forall i :: 0 <= i < n ==> !IsExternal(decls[i])
    ensures n < |decls| ==> IsExternal(decls[n])
  {
    if decls == [] then 0
    else if IsExternal(decls[0]) then 0
    else 1 + FirstExternal(decls[1..])
  }

  /** `FirstExternal` is the one index with no external declaration before it and an external one, or the end, at it. */
  lemma {:induction false} FirstExternalIsFirst(decls: seq<Decl>, i: nat)
    requires i <= |decls|
    requires forall j :: 0 <= j < i ==> !IsExternal(decls[j])
    requires i < |decls| ==> IsExternal(decls[i])
    ensures FirstExternal(decls) == i
  {
    if i > 0 {
      assert !IsExternal(decls[0]);
      FirstExternalIsFirst(decls[1..], i - 1);
    }
  }

  /** Extending a prefix of `decls` by one declaration extends its bodies by that declaration's body, if any. */
  lemma DeclBodiesSnoc(decls: seq<Decl>, i: nat)
    requires i < |decls|
    ensures DeclBodies(decls[..i + 1]) == DeclBodies(decls[..i])
      + (if decls[i].FuncD? && decls[i].funcDecl.body != null then [decls[i].funcDecl.body] else [])
  {
    assert decls[..i + 1][..i] == decls[..i];
    assert decls[..i + 1][i] == decls[i];
  }

  /** The body of every function declaration that has one is among `DeclBodies`. */
  lemma {:induction false} DeclBodiesHas(decls: seq<Decl>, i: nat)
    requires i < |decls| && decls[i].FuncD? && decls[i].funcDecl.body != null
    ensures decls[i].funcDecl.body in DeclBodies(decls)
  {
    if i < |decls| - 1 {
      DeclBodiesHas(decls[..|decls| - 1], i);
    }
  }

  /** Every block in `DeclBodies` is the body of a function declaration of `decls`. */
  lemma {:induction false} DeclBodiesOnlyBodies(decls: seq<Decl>, b: Block)
    requires b in DeclBodies(decls)
    ensures exists i :: 0 <= i < |decls| && decls[i].FuncD? && decls[i].funcDecl.body == b
  {
    var n := |decls| - 1;
    var last := decls[n];
    if last.FuncD? && last.funcDecl.body == b {
      assert decls[n].FuncD? && decls[n].funcDecl.body == b;
    } else {
      DeclBodiesOnlyBodies(decls[..n], b);
      var i :| 0 <= i < n && decls[..n][i].FuncD? && decls[..n][i].funcDecl.body == b;
      assert decls[i] == decls[..n][i];
    }
  }

  /** `DeclBodiesOnlyBodies` for every block at once. */
  lemma DeclBodiesAreDeclBodies(decls: seq<Decl>)
    ensures forall b: Block :: b in DeclBodies(decls) ==> IsDeclBody(decls, b)
  {
    forall b: Block | b in DeclBodies(decls)
      ensures IsDeclBody(decls, b)
    {
      DeclBodiesOnlyBodies(decls, b);
    }
  }

  /** The bodies of the function declarations of `decls`, as a set. */
  ghost function BodySet(decls: seq<Decl>): set<Block>
  {
    set b | b in DeclBodies(decls)
  }

  /** `Rewritten` read off at the body of each function declaration. */
  lemma BodiesRewritten(decls: seq<Decl>, visited: seq<Block>, orig: map<Block, seq<Stmt>>)
    requires Rewritten(BodySet(decls), visited, orig)
    ensures forall k :: 0 <= k < |decls| && decls[k].FuncD? && decls[k].funcDecl.body != null ==>
      var b: Block := decls[k].funcDecl.body;
      b in BodySet(decls) && b in orig && b.list == WrapTimes(Count(visited, b), orig[b])
  {
    forall k | 0 <= k < |decls| && decls[k].FuncD? && decls[k].funcDecl.body != null
      ensures var b: Block := decls[k].funcDecl.body;
        b in BodySet(decls) && b in orig && b.list == WrapTimes(Count(visited, b), orig[b])
    {
      DeclBodiesHas(decls, k);
    }
  }

  /**
   * The loop of `addPrintf`. Declarations are visited in order and each
   * function declaration's body is rewritten, until the first declaration
   * without a body, whose `d.Body.List` dereferences nil and panics.
   * `visited` lists the bodies rewritten, in order.
   */
  method RewriteDecls(decls: seq<Decl>, ghost orig: map<Block, seq<Stmt>>)
    returns (r: Outcome<Option<string>>, ghost visited: seq<Block>)
    requires Rewritten(BodySet(decls), [], orig)
    modifies DeclBodies(decls)
    ensures visited == DeclBodies(decls[..FirstExternal(decls)])
    ensures Rewritten(BodySet(decls), visited, orig)
    ensures r == if FirstExternal(decls) < |decls| then Panic(NilDerefMessage) else Value(None)
  {
    ghost var targets := BodySet(decls);
    visited := [];
    for i := 0 to |decls|
      invariant forall j :: 0 <= j < i ==> !IsExternal(decls[j])
      invariant visited == DeclBodies(decls[..i])
      invariant Rewritten(targets, visited, orig)
    {
      if decls[i].FuncD? {
        var d := decls[i].funcDecl;
        if d.body == null {
          FirstExternalIsFirst(decls, i);
          return Panic(NilDerefMessage), visited;
        }
        var body: Block := d.body;
        DeclBodiesHas(decls, i);
        RewriteNext(body, visited, targets, orig);
        visited := visited + [body];
        assert visited == DeclBodies(decls[..i + 1]) by { DeclBodiesSnoc(decls, i); }
      } else {
        assert visited == DeclBodies(decls[..i + 1]) by { DeclBodiesSnoc(decls, i); }
      }
    }
    FirstExternalIsFirst(decls, |decls|);
    return Value(None), visited;
  }

  /**
   * `addPrintf` of printf.go. The body of each function declaration before
   * the first one without a body gets the two markers in front of its old
   * statements, so a body shared by `n` of them is rewritten `n` times. A
   * declaration without a body panics; the bodies before it stay rewritten.
   * Nothing but the bodies changes: other declarations, nested blocks,
   * function literals and the file's imports are outside the frame. When it
   * returns, it returns a nil error.
   */
  method AddPrintf(file: File) returns (r: Outcome<Option<string>>)
    modifies DeclBodies(file.decls)
    ensures forall k :: 0 <= k < |file.decls| && file.decls[k].FuncD? && file.decls[k].funcDecl.body != null ==>
      var b: Block := file.decls[k].funcDecl.body;
      b.list == WrapTimes(Count(DeclBodies(file.decls[..FirstExternal(file.decls)]), b), old(b.list))
    ensures r == if FirstExternal(file.decls) < |file.decls| then Panic(NilDerefMessage) else Value(None)
    ensures file.decls == old(file.decls) && file.imports == old(file.imports)
    ensures forall b: Block :: old(allocated(b)) && !IsDeclBody(file.decls, b) ==> b.list == old(b.list)
  {
    var decls := file.decls;
    ghost var targets := BodySet(decls);
    ghost var orig: map<Block, seq<Stmt>> := map b | b in targets :: b.list;
    assert Snapshot(targets, orig);
    ghost var visited;
    r, visited := RewriteDecls(decls, orig);
    BodiesRewritten(decls, visited, orig);
    forall k | 0 <= k < |decls| && decls[k].FuncD? && decls[k].funcDecl.body != null
      ensures var b: Block := decls[k].funcDecl.body; b.list == WrapTimes(Count(visited, b), old(b.list))
    {
      var b: Block := decls[k].funcDecl.body;
      assert old(Snapshot(targets, orig));
      assert orig[b] == old(b.list);
    }
    DeclBodiesAreDeclBodies(decls);
  }
}
