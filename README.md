# Greedy edge-weight counter plugin: a Dafny model

The repository is a plugin for a graph-algorithm teaching host. Its only
algorithmic part is the runtime environment `MyAlgorithmRTE`. This is a
step interpreter with four steps and four variables:

- `a`: the id of the reference edge, which is the first edge of the graph;
- `e`: the id of the edge under inspection;
- `c`: a counter;
- `forEach`: the ids not yet visited.

The steps are: 0 initialises the variables; 1 takes an id out of `forEach`,
or ends the run when none is left; 2 compares the weights of `e` and `a`;
3 adds one to `c`. Three hooks save, reload and initialise the variables
for single-stepping. `visualizeEdges` paints every edge: `a` first, then
`e`, then the default look. The plugin also has a start guard that refuses
a graph without edges, and an exercise whose `examine` grades a yes/no
answer to "does w(e) equal w(a)?".

The model has four modules:

- `Host` (host.dfy) holds what the plugin uses from the host. The graph is
  a sequence of edges with ids and weights. The weight type is a parameter
  compared only for equality. The module also has the graph view, with one
  style per visual edge and the edit flag, the state container, and the
  runtime event.
- `Interpreter` (interpreter.dfy) holds the runtime environment as the
  class `AlgorithmRTE`, with the four variables as fields. Its methods are
  specified against the function `Step`. `Step` gives, for a graph, the
  variables and a step id, the new variables and either the next step id
  or the Java exception the step raises. `pick` stands for the member that
  `Set.get(0)` returns; `ExecuteStep` ensures it takes some member of
  `forEach`.
- `Correctness` (correctness.dfy) proves what a run computes. A run is a
  trace of configurations, each following from the previous one by one
  call of `Step`. For every choice of picked ids, a run from step 0 on a
  graph with at least one edge, whose edges have distinct ids as the host
  hands them out, never raises an exception, ends after at
  most 3·|E|+2 calls, and ends with `c` equal to the number of edges whose
  weight equals that of the first edge (so `1 <= c <= |E|`). Step 1
  removes one id each time it takes one. Step 3 runs once for each
  matching edge. So a run on a graph where every edge matches takes
  exactly 3·|E|+2 calls; `OneEdgeRunReachesBound` exhibits such a run on
  one edge.
- `Plugin` (plugin.dfy) holds the start guard, the stop hook and the
  exercise grading. It proves that the guard admits exactly the graphs on
  which step 0 succeeds. It also proves that `examine` marks "yes" as right
  exactly when step 2 would go on to step 3.

Step ids follow the interpreter's `switch` (0 to 3; any other id returns
-1 and changes nothing). The algorithm text numbers its steps differently:
it declares step 1 ("Let a be an arbitrary edge") and step 3 ("If w(e) ==
w(a)") only.

## Model

In the table, #E is the number of edges of the graph.

| member | source | states |
|---|---|---|
| `Host.Ids` | src/main/MyAlgorithmPlugin.java:438 | the edge-id set holds the id of every edge, only those, and has at most #E members |
| `Host.IdsCardinality` | src/main/MyAlgorithmPlugin.java:438 | with unique edge ids, `forEach` starts with exactly #E ids |
| `Host.EdgeByID` | src/main/MyAlgorithmPlugin.java:456-457 | lookup by id finds an edge with that id exactly when the id belongs to some edge, and gives null otherwise |
| `Host.EdgeByIDFindsEdge` | src/main/MyAlgorithmPlugin.java:457 | with unique ids, looking up an edge's own id returns that edge (so `a` finds the first edge) |
| `Host.CountWeight` | src/main/MyAlgorithmPlugin.java:287-290 | the reference count the algorithm text describes: the number of edges of a given weight, at most #E |
| `Interpreter.AlgorithmRTE.constructor` | src/main/MyAlgorithmPlugin.java:421-428 | the variables start at Java's defaults, with `forEach` empty |
| `Interpreter.AlgorithmRTE.ExecuteStep` | src/main/MyAlgorithmPlugin.java:431-469 | the new variables and the result are those of `Step`, with the loop test taking a member of the old `forEach`; steps 0 and 1 repaint every edge for the new `a` and `e` when they succeed, and the other steps leave the view alone |
| `Interpreter.AlgorithmRTE.StoreState` | src/main/MyAlgorithmPlugin.java:472-477 | the state container gains the current `a`, `c`, `e` and `forEach` under their names |
| `Interpreter.AlgorithmRTE.RestoreState` | src/main/MyAlgorithmPlugin.java:480-485 | the variables become the ones the container holds |
| `Interpreter.AlgorithmRTE.CreateInitialState` | src/main/MyAlgorithmPlugin.java:488-493 | the variables become `a = -1`, `c = 0`, `e = -1`, `forEach = {}` and are recorded in the container |
| `Interpreter.AlgorithmRTE.RollBackStep` | src/main/MyAlgorithmPlugin.java:496-503 | undoing step 0 or 1 repaints the edges for the current variables; undoing any other step changes nothing |
| `Interpreter.AlgorithmRTE.VisualizeEdges` | src/main/MyAlgorithmPlugin.java:514-530 | afterwards every visual edge, none skipped, has the look `StyleFor` gives its edge's id |
| `Interpreter.Step` | src/main/MyAlgorithmPlugin.java:431-469 | one step leaves the variables alone when it raises; it raises the index exception exactly for step 0 on a graph without edges and the null-pointer exception exactly for step 2 when `e` or `a` names no edge; it returns only -1 or a step id 1 to 3; outside step 0 it keeps `a`, only shrinks `forEach` and raises `c` by at most one |
| `Interpreter.StyleFor` | src/main/MyAlgorithmPlugin.java:519-528 | an edge gets colour A and width 3 exactly when its id is `a`; it gets colour E and width 2 exactly when its id is `e` but not `a`; otherwise it gets the default look |
| `Interpreter.Stored` | src/main/MyAlgorithmPlugin.java:473-476 | storing the variables leaves every other entry of the state container unchanged |
| `Interpreter.Loaded` | src/main/MyAlgorithmPlugin.java:480-485 | the variables are read back whenever the container holds all four keys, and storing what was read back leaves the container as it was |
| `Correctness.InitStep` | src/main/MyAlgorithmPlugin.java:435-442 | step 0 sets `a` to the first edge's id, `c` to 0 and `forEach` to all #E ids, keeps `e`, and returns 1; on a graph without edges it raises an exception and changes nothing |
| `Correctness.LoopTestStep` | src/main/MyAlgorithmPlugin.java:444-454 | step 1 on a non-empty `forEach` makes the picked id `e`, removes exactly that id (one fewer), keeps `a` and `c`, and returns 2; on an empty `forEach` it returns -1 and changes nothing |
| `Correctness.CompareStep` | src/main/MyAlgorithmPlugin.java:455-462 | step 2 changes no variable; when `e` and `a` both name an edge it returns 3 exactly when `w(e) == w(a)` and 1 exactly when they differ; it raises the null-pointer exception exactly when `e` or `a` names no edge; with `a` the first edge, it returns 3 exactly when `w(e)` equals the first edge's weight |
| `Correctness.IncrementAndUnknownSteps` | src/main/MyAlgorithmPlugin.java:433-468 | step 3 adds one to `c`, changes nothing else and returns 1; any step id outside 0 to 3 returns -1 and changes nothing |
| `Correctness.StepPreservesInv` | src/main/MyAlgorithmPlugin.java:435-466 | from a configuration satisfying the run invariant, every step succeeds, keeps the invariant (at step 1, `c` counts the ids already taken whose weight is `w(a)`) and lowers the measure |
| `Correctness.MatchingAllIsCount` | src/main/MyAlgorithmPlugin.java:444-466 | once all ids are taken, counting the taken ids of weight w gives the number of edges of weight w |
| `Correctness.CountOfFirstWeight` | src/main/MyAlgorithmPlugin.java:436 | the first edge matches its own weight, so at least one edge is counted and at most #E |
| `Correctness.FinalCount` | src/main/MyAlgorithmPlugin.java:444-453 | when the loop test ends the run, `c` is the number of edges whose weight equals `w(a)`, and `1 <= c <= #E` |
| `Correctness.RunInvariant` | src/main/MyAlgorithmPlugin.java:431-469 | along any run the invariant holds, and each call lowers the measure by at least one |
| `Correctness.RunTerminates` | src/main/MyAlgorithmPlugin.java:444-447 | a run from step 0 makes at most 3·#E+2 calls of the step function, because the loop test shrinks `forEach` |
| `Correctness.RunCounts` | src/main/MyAlgorithmPlugin.java:435-466 | a run from step 0 that has returned -1 has counted the edges whose weight equals the first edge's weight, and that count is between 1 and #E |
| `Correctness.RunProgresses` | src/main/MyAlgorithmPlugin.java:455-458 | in a run from step 0 that has not ended, the next step succeeds for every member the loop test may take, so the run can always go on |
| `Correctness.OneEdgeRunReachesBound` | src/main/MyAlgorithmPlugin.java:435-466 | on a single edge the run makes 5 = 3·#E+2 calls and ends with `c = 1` |
| `Correctness.RestoreAfterStore` | src/main/MyAlgorithmPlugin.java:472-485 | restoring after storing gives back exactly `a`, `c`, `e` and `forEach` |
| `Plugin.BeforeStart` | src/main/MyAlgorithmPlugin.java:382-397 | the start stays allowed exactly when it was allowed before and the graph has at least one edge; only then is the selection cleared and the view locked |
| `Plugin.OnStop` | src/main/MyAlgorithmPlugin.java:400-402 | after a stop the view is editable again, and nothing else changes |
| `Plugin.StartGuardMatchesInit` | src/main/MyAlgorithmPlugin.java:385-391 | the start guard admits exactly the graphs on which step 0 succeeds |
| `Plugin.Examine` | src/main/MyAlgorithmPlugin.java:319-325 | an answer is graded right only when it is present; grading an empty answer array raises an index exception |
| `Plugin.ExamineAgreesWithCompare` | src/main/MyAlgorithmPlugin.java:319-325 | with the variables stored, "yes" is right exactly when step 2 would return 3 and "no" exactly when it would return 1; grading fails exactly when step 2 fails; no answer is always wrong |

## Left out

- The `sleep(500)` pauses in `executeStep` are animation timing on the host thread and have no effect on the variables.
- The host's message dialogs (`showMessage` in `beforeStart`, `save` and `open`) are host I/O.
- `save`, `open` and the file filters are file I/O through the host's graph format and PNG export.
- `requestSolution` and `getResultAsString` are Swing dialog code. `Examine` takes the answer array as a parameter: a present answer, a missing answer, or an empty array.
- The metadata getters, language-file lookups, `Configuration` reads and writes, creator preferences, customization, the toolbar extension, `onCreate`, `onClose` and `PluginTest` are host and Swing wiring.
- `adoptState`, `getViews`, `beforeResume`, `beforePause`, `onRunning` and `onPause` have empty bodies or return null.
- Edge weights are floating-point values compared with `==`. The model compares an abstract weight type for equality, so NaN is not modelled.
- Colours are modelled as roles (colour A, colour E, the default colour), not as RGB values. `colorE` is null until a customization is applied (line 106 loads only `colorA`); that case is not modelled.
- The default line width is the host's constant and is modelled as a distinct value, not a number.
- `ExecuteStep`: on a graph without edges, step 0 fails inside the host's `getEdge(0)`. Which exception that raises belongs to the host; the model calls it `IndexOutOfBounds`.
- `ExecuteStep`: `c` is an unbounded integer, not Java's 32-bit `int`. A run proves `c <= |E|`, so wrap-around cannot happen there.
- `ExecuteStep`: `Set.get(0)` returns the first member in the host set's order. The model lets step 1 take any member, and the run theorems hold for every choice.
- `Interpreter.AlgorithmRTE.constructor`: before the initial-state hook runs, the Java `forEach` is null; the model starts it as the empty set.
- `RestoreState` and `Examine` require the state container to hold the keys they read. What the host's container returns for a missing key is not part of this model.
- The model passes state containers by value. It does not model aliasing between a stored set and the live `forEach`.
- `ExecuteStep`: `forEach.remove(e)` at line 447 is modelled as removing the id `e` by value. If the host's `Set` also had a `remove(int index)` overload, Java would pick it for the `int` argument; the host's `Set` is not part of this model.
- `RunCounts`, `RunTerminates` and `RunProgresses` assume that the edges have distinct ids, which the host guarantees; they state nothing about graphs with repeated ids.
- The graph view's i-th visual edge is taken to show the graph's i-th edge.
- The host's scheduler is not modelled. It calls the step function with the id the previous call returned, and the model states this as the run traces of `Correctness`.
