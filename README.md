# printfdebug: discovery and injection, modelled in Dafny

printfdebug is a Go tool that instruments source code for tracing. It parses
each file of a package and finds the function bodies to trace. Into each of
them it inserts two statements at the head: a call of `printfdebug.FuncStart()`
and `defer printfdebug.FuncEnd()`. It then adds the tracer's import to the file.
This project models the part of the tool that works on the syntax tree, and
proves what that part does. There are two versions of it:

- `cli/printf.go`. It rewrites the bodies of the top-level function
  declarations. It also rewrites the bodies of function literals called
  directly by a `defer` or `go` statement, which it finds by walking the
  bodies. When it has rewritten something, it appends the tracer's import spec
  to the file's import declaration and to the file's import list.
- `printf.go`, the older version. It rewrites only the bodies of top-level
  function declarations, and leaves imports alone.

The model is split into five modules:

- `GoAst` (`ast.dfy`) is a hand-written subset of Go's syntax tree.
  - Statement blocks (`Block`), general declarations (`GenDecl`) and files
    (`File`) are classes, because the tool keeps references to them and
    updates their fields in place.
  - Every other node is a datatype.
  - A block may be collected more than once, for instance when two function
    declarations share a body object. It is then rewritten once for each time
    it is collected, as a declaration's body or as the body of a literal called
    by `defer` or `go`. Being reachable through an `if`, `for` or `switch` body
    adds no rewrite. The model allows such sharing and counts the rewrites.
- `Instrument` (`instrument.dfy`) holds the statements and the import spec the
  tool injects, and the in-place rewrite of one block (`WrapBody`). The two Go
  files define the two statement constructors identically, so the model defines
  them once.
- `Discovery` (`discovery.dfy`) models `findAllFuncs` and its helpers from
  `cli/printf.go`.
  - Ghost functions define what discovery computes. `CallLits`, `StmtLit` and
    `StmtsLits` thread an accumulator, as the Go code does.
  - `Found` and its companions give an accumulator-free reference definition,
    and lemmas connect the two.
  - The Go functions are methods with the same loops and the same type
    switches, and each is proved equal to the ghost definition. The one
    exception is `findAllFuncsByDecl`: its loop and type switch
    (cli/printf.go:82-87) only log, so they were dropped with the logging, and
    the method only checks the accumulator and returns it.
  - Termination over heap references rests on a ghost ranking `rank` of the
    blocks (`Ranked`). Any acyclic tree has one.
- `CliPrintf` (`cli_printf.dfy`) models `addPrintf` of `cli/printf.go`: the
  block array filled by index, the rewrite loop and the import append.
- `RootPrintf` (`root_printf.dfy`) models `addPrintf` of `printf.go`.

The model follows the code as written; in particular:

- Only the body of an `if` is scanned. Its else branch is ignored.
- A switch body holds case clauses, and those fall into the default arm, so
  nothing inside a case is reached.
- A declaration statement contributes nothing, because `findAllFuncsByDecl`
  has only a default arm.
- Every import declaration overwrites the one found before it, so the last
  import declaration wins, not the first.
- `addPrintf` appends to the import declaration without checking it for nil.
  A file with something to rewrite and no import declaration therefore panics,
  after the blocks have been rewritten.
- A function declaration without a body (an external function) has a nil body.
  Reading its statement list panics. In `cli/printf.go` this happens during
  discovery, before anything changes. In `printf.go` it happens during the
  loop, after the earlier bodies have been rewritten.
- Each discovery helper panics on a nil accumulator. A nil slice is modelled as
  `None`, and a Go panic as `Panic(reason)` in `Outcome`. When `addPrintf`
  returns normally, it returns a nil error (`Value(None)`).

## Model

| member | source | states |
|---|---|---|
| GoAst.Count | cli/printf.go:171-180 | The number of occurrences is at most the length, and it is zero exactly when the element is absent; this counts how often a shared block is rewritten |
| GoAst.CountSnoc | cli/printf.go:171-180 | Appending a block raises its own count by one and leaves every other block's count alone |
| GoAst.DeclBodies | printf.go:45-60 | The bodies of the function declarations, in order, are no more than the declarations |
| GoAst.CountDistinct | cli/printf.go:171-180 | In a block list without repetitions each block occurs once if present and otherwise not at all |
| Instrument.GetFuncStartStmt | cli/printf.go:27-37 | The entry statement is an expression statement calling `printfdebug.FuncStart` with no arguments |
| Instrument.GetFuncEndStmt | cli/printf.go:39-49 | The exit statement is a `defer` of `printfdebug.FuncEnd` with no arguments, and its callee is not a function literal |
| Instrument.GetImportSpec | cli/printf.go:51-58 | The injected import spec is a string literal whose value is the package path `"github.com/yuuki0xff/printfdebug"` |
| Instrument.WrapTimesShape | cli/printf.go:171-178 | After `k` rewrites a list has grown by `2k`; it holds `k` entry/exit pairs followed by exactly the original statements, in their original order |
| Instrument.RewriteTwiceAddsFour | printf.go:52-58 | Rewriting twice puts two entry/exit pairs in front, four statements in all, so the rewrite is not idempotent |
| Instrument.WrapBody | cli/printf.go:172-178 | Rebuilding a block by successive appends leaves it as the entry statement, the exit statement and then its old statements |
| Instrument.DistinctWrappedOnce | cli/printf.go:171-178 | When no block is collected twice, each collected block becomes exactly the entry statement, the exit statement and its original statements, two statements longer |
| Instrument.RewriteNext | cli/printf.go:171-180 | Rewriting one more block raises that block's rewrite count by one and keeps every other block at its count |
| Discovery.CallLits | cli/printf.go:60-75 | A call keeps the accumulator as a prefix and appends only literals from below the bound; a callee that is not a literal adds nothing |
| Discovery.StmtLit | cli/printf.go:96-124 | A statement keeps the accumulator as a prefix; a kind that enters no block (declaration statements, case clauses, assignments, range and labelled statements, ...) adds nothing |
| Discovery.StmtsLits | cli/printf.go:91-126 | Scanning a statement list only appends to the accumulator |
| Discovery.CallLitsAppendsFound | cli/printf.go:60-75 | Discovery under a call appends exactly the literals of the accumulator-free reference definition |
| Discovery.StmtLitAppendsFound | cli/printf.go:96-124 | Discovery under a statement appends exactly the literals of the reference definition |
| Discovery.StmtsLitsAppendsFound | cli/printf.go:91-126 | Discovery over a statement list appends exactly the literals of the reference definition |
| Discovery.CallAddsIffLiteral | cli/printf.go:67-73 | A `defer` or `go` call adds literals if and only if its callee is a function literal; it then adds that literal followed by what is found in its body |
| Discovery.StmtsLitsConcat | cli/printf.go:96-124 | Scanning `a + b` equals scanning `a` and then `b` with the result as accumulator |
| Discovery.MarkersAreInert | cli/printf.go:171-178 | The two injected statements enter no block and add nothing |
| Discovery.WrapTimesFindsSame | cli/printf.go:171-178 | A list rewritten any number of times yields the same discovery result as the original list |
| Discovery.InertStmtsAddNothing | cli/printf.go:96-99 | A list of statements that enter no block adds nothing |
| Discovery.SwitchOfCasesAddsNothing | cli/printf.go:112-117 | A switch or type switch whose body holds only case clauses adds nothing, whatever the clauses contain |
| Discovery.IfIgnoresElse | cli/printf.go:106-108 | An `if` statement adds exactly what its body adds, whatever its else branch holds |
| Discovery.LastImportIndex | cli/printf.go:133-141 | The index is -1 or points at an import declaration, and no import declaration follows it |
| Discovery.LastImport | cli/printf.go:131-141 | The result is nil exactly when there is no import declaration; otherwise it is an import declaration of the file with no import declaration after it |
| Discovery.LastImportSnoc | cli/printf.go:139-140 | A later import declaration overrides an earlier one |
| Discovery.FuncDeclsOf | cli/printf.go:142-144 | Every function declaration of the file appears in the result, and only those |
| Discovery.Discover | cli/printf.go:128-150 | Discovery succeeds if and only if every function declaration has a body; it otherwise panics with a nil dereference; on success every body found is ranked |
| Discovery.DiscoverFuncsAndImport | cli/printf.go:128-150 | On success the declarations returned are all function declarations in order, and the import declaration is the last one, or nil |
| Discovery.DiscoverInnerFuncs | cli/printf.go:142-146 | On success the literals returned are those found body by body, in declaration order |
| Discovery.Targets | cli/printf.go:155-167 | The block sequence has length `len(funcs)+len(innerFuncs)`: the declarations' bodies in order, then the literals' bodies in order |
| Discovery.FindAllFuncsByCallExper | cli/printf.go:60-75 | A nil accumulator panics with the function's message; otherwise the result is the discovery under the call |
| Discovery.FindAllFuncsByDecl | cli/printf.go:77-89 | A nil accumulator panics; otherwise the accumulator comes back unchanged |
| Discovery.FindAllFuncsByStmt | cli/printf.go:91-126 | A nil accumulator panics; otherwise the loop's result is the discovery over the list |
| Discovery.FindAllFuncsInStmt | cli/printf.go:97-123 | The type switch on one statement computes that statement's discovery |
| Discovery.FindAllFuncs | cli/printf.go:128-150 | The loop computes exactly `Discover`, including its panic on a function declaration without a body |
| CliPrintf.TargetsInTree | cli/printf.go:155-167 | Every block collected for rewriting is a ranked block of the tree |
| CliPrintf.InitBlocks | cli/printf.go:155-167 | The array filled by index holds the declarations' bodies and then the literals' bodies |
| CliPrintf.RewriteBlocks | cli/printf.go:169-180 | Each block is rewritten once per occurrence in the array, and the flag is set if and only if the array is not empty |
| CliPrintf.RewriteFound | cli/printf.go:155-180 | Collecting and rewriting leaves each block rewritten once per occurrence among the targets, and reports whether there was any target |
| CliPrintf.AppendImport | cli/printf.go:182-184 | A nil import declaration panics before any change; otherwise one tracer import spec is appended to the declaration's specs and to the file's imports |
| CliPrintf.AddPrintf | cli/printf.go:152-195 | A panic in discovery changes no block; otherwise every block is rewritten as often as it was collected. The imports grow by exactly one spec when something was rewritten and an import declaration exists, stay unchanged when nothing was, and a missing import declaration panics. A normal return is nil |
| RootPrintf.FirstExternal | printf.go:45-60 | The index of the first function declaration without a body, or the end: no such declaration comes before it |
| RootPrintf.FirstExternalIsFirst | printf.go:45-60 | `FirstExternal` is the only index with that property |
| RootPrintf.DeclBodiesSnoc | printf.go:45-60 | One more declaration adds its body, if it has one, to the end of the body list |
| RootPrintf.DeclBodiesHas | printf.go:49-52 | The body of every function declaration that has one is in the body list |
| RootPrintf.DeclBodiesOnlyBodies | printf.go:45-60 | Every block in the body list is the body of some function declaration |
| RootPrintf.DeclBodiesAreDeclBodies | printf.go:45-60 | The same for every block at once: a block in the body list is a function declaration's body |
| RootPrintf.BodiesRewritten | printf.go:45-60 | The rewrite invariant, read off at every function declaration's body |
| RootPrintf.RewriteDecls | printf.go:45-60 | The loop rewrites the bodies of the declarations before the first one without a body, once per occurrence, then panics there or returns nil |
| RootPrintf.AddPrintf | printf.go:43-62 | Each function body before the first external declaration gets the markers once per occurrence, in front of its original statements. Other declarations, the imports and every block that is not the body of a function declaration, such as a literal's or a nested statement's body, are left alone. The result is a nil-dereference panic or nil |

## Left out

- `main` and `parseFlag` in both files are left out: they cover directory parsing, file removal and creation, pretty-printing and flag handling. That is I/O and foreign library code.
- Every `fmt.Println`/`fmt.Printf` and `reflect.TypeOf` diagnostic is left out, including the loop that prints the imports (cli/printf.go:185-192). They are logging and do not affect results.
- The `defaultBufferSize` capacity hint (cli/printf.go:17) is left out. Capacity does not change what a slice holds.
- debuglog.go and stacktrace.go, the runtime tracing library and a stack-printing experiment, are not part of this model.
- Of go/ast the model keeps the node kinds the tool switches on, a few kinds it does not match (case clauses, blocks, range, labelled, assignment and return statements, value and type specs) so that the lemmas can name them, and the names of function declarations. Positions, comments, an `if`'s init and condition, loop headers, the names in other nodes and the parsing of files are left out; every remaining node kind is a single opaque case.
- The syntax tree is assumed acyclic. The ghost `rank` is that assumption: the discovery methods and `CliPrintf.AddPrintf` require a ranking of the blocks they can reach.
- The constructors in printf.go (printf.go:19-41) are identical to those in cli/printf.go. They are modelled once, in `Instrument`.
- Go's slice aliasing is not modelled. Discovery threads its accumulator linearly, and each rewrite builds a fresh list, so no two slices share a backing array in a way the program can observe.
