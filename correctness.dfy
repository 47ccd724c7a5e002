/** What the interpreter computes. A run starts at the initialisation step
    on a graph with at least one edge and keeps calling the step function
    with the step id it returned until it returns Done. Whatever edge the
    loop test takes each time, every step succeeds, the run ends after at
    most 3 * |E| + 2 calls, and the counter then holds the number of edges
    whose weight equals that of the first edge. */
module Correctness {
  import opened Host
  import opened Interpreter

  /** A graph a run can start on: the start guard lets only graphs with an
      edge through, and the host gives every edge its own id. */
  predicate Startable<W>(g: Graph<W>) {
    |g| >= 1 && UniqueIds(g)
  }

  /** The edge with this id exists and has weight w. */
  ghost predicate HasWeight<W>(g: Graph<W>, id: int, w: W) {
    EdgeByID(g, id).Some? && EdgeByID(g, id).value.weight == w
  }

  /** The ids in ids whose edge has weight w. */
  ghost function Matching<W>(g: Graph<W>, ids: set<int>, w: W): set<int> {
    set id | id in ids && HasWeight(g, id, w)
  }

  /** A point of a run: the variables and the id of the step to call next. */
  datatype Config = Config(vars: Vars, next: int)

  /** The member the loop test may take: one of forEach. */
  predicate ValidPick(cfg: Config, pick: int) {
    cfg.next == LoopTest && cfg.vars.forEach != {} ==> pick in cfg.vars.forEach
  }

  /** The run invariant, by next step. The taken ids are all ids minus
      forEach and w is the weight of the first edge: c counts the taken ids
      of weight w, leaving out e while e is being compared. */
  ghost predicate Inv<W>(g: Graph<W>, cfg: Config)
    requires |g| >= 1
  {
    var v, w := cfg.vars, g[0].weight;
    var taken := Ids(g) - v.forEach;
    if cfg.next == Init then true
    else if cfg.next == LoopTest then
      v.a == g[0].id && v.forEach <= Ids(g) && v.c == |Matching(g, taken, w)|
    else if cfg.next == CompareWeights || cfg.next == Increment then
      && v.a == g[0].id && v.forEach <= Ids(g) && v.e in taken
      && v.c == |Matching(g, taken - {v.e}, w)|
      && (cfg.next == Increment ==> HasWeight(g, v.e, w))
    else if cfg.next == Done then
      v.a == g[0].id && v.forEach == {} && v.c == |Matching(g, Ids(g), w)|
    else false
  }

  /** An upper bound on the number of step calls a run has left. */
  function Measure<W>(g: Graph<W>, cfg: Config): nat {
    var n := |cfg.vars.forEach|;
    if cfg.next == Init then 3 * |g| + 2
    else if cfg.next == LoopTest then 3 * n + 1
    else if cfg.next == CompareWeights then 3 * n + 3
    else if cfg.next == Increment then 3 * n + 2
    else 0
  }

  /** One call of the step function leads from cfg to next. */
  ghost predicate Moves<W>(g: Graph<W>, cfg: Config, pick: int, next: Config) {
    && cfg.next != Done
    && ValidPick(cfg, pick)
    && Step(g, cfg.vars, cfg.next, pick) == (next.vars, Ok(next.next))
  }

  /** trace is a run on g whose loop tests took picks. */
  ghost predicate IsRun<W>(g: Graph<W>, trace: seq<Config>, picks: seq<int>) {
    && |trace| == |picks| + 1
    && forall i :: 0 <= i < |picks| ==> Moves(g, trace[i], picks[i], trace[i + 1])
  }

  function Last(trace: seq<Config>): Config
    requires |trace| > 0
  {
    trace[|trace| - 1]
  }

  /** Taking one more id adds one to the count exactly when its weight is w. */
  lemma MatchingInsert<W>(g: Graph<W>, ids: set<int>, x: int, w: W)
    requires x !in ids
    ensures |Matching(g, ids + {x}, w)| == |Matching(g, ids, w)| + (if HasWeight(g, x, w) then 1 else 0)
  {
    if HasWeight(g, x, w) {
      assert Matching(g, ids + {x}, w) == Matching(g, ids, w) + {x};
    } else {
      assert Matching(g, ids + {x}, w) == Matching(g, ids, w);
    }
  }

  /** Counting ids of weight w counts the edges of weight w. */
  lemma {:induction false} MatchingAllIsCount<W>(g: Graph<W>, w: W)
    requires UniqueIds(g)
    ensures |Matching(g, Ids(g), w)| == CountWeight(g, w)
  {
    if g == [] {
      assert Matching(g, Ids(g), w) == {};
    } else {
      var t := g[1..];
      assert UniqueIds(t) by {
        forall i, j | 0 <= i < j < |t| ensures t[i].id != t[j].id {
          assert t[i] == g[i + 1] && t[j] == g[j + 1];
        }
      }
      MatchingAllIsCount(t, w);
      assert g[0].id !in Ids(t);
      assert Matching(g, Ids(t), w) == Matching(t, Ids(t), w) by {
        forall id | id in Ids(t) ensures HasWeight(g, id, w) == HasWeight(t, id, w) {
          assert id != g[0].id;
        }
      }
      EdgeByIDFindsEdge(g, 0);
      MatchingInsert(g, Ids(t), g[0].id, w);
      assert Ids(g) == Ids(t) + {g[0].id};
    }
  }

  /** The first edge has its own weight, so it is counted. */
  lemma CountOfFirstWeight<W>(g: Graph<W>)
    requires |g| >= 1
    ensures 1 <= CountWeight(g, g[0].weight) <= |g|
  {
  }

  /** Every step of a run from a configuration that satisfies the invariant
      succeeds, keeps the invariant, and lowers the measure. */
  lemma StepPreservesInv<W>(g: Graph<W>, cfg: Config, pick: int)
    requires Startable(g) && Inv(g, cfg) && cfg.next != Done && ValidPick(cfg, pick)
    ensures Step(g, cfg.vars, cfg.next, pick).1.Ok?
    ensures var (v', r) := Step(g, cfg.vars, cfg.next, pick);
      Inv(g, Config(v', r.value)) && Measure(g, Config(v', r.value)) < Measure(g, cfg)
  {
    var v, w := cfg.vars, g[0].weight;
    var taken := Ids(g) - v.forEach;
    if cfg.next == Init {
      assert Matching(g, Ids(g) - Ids(g), w) == {};
    } else if cfg.next == LoopTest {
      if v.forEach == {} {
        assert Ids(g) - {} == Ids(g);
      } else {
        var v' := v.(e := pick, forEach := v.forEach - {pick});
        assert Ids(g) - v'.forEach - {pick} == taken;
        assert |v'.forEach| == |v.forEach| - 1;
      }
    } else if cfg.next == CompareWeights {
      EdgeByIDFindsEdge(g, 0);
      if !HasWeight(g, v.e, w) {
        MatchingInsert(g, taken - {v.e}, v.e, w);
        assert taken - {v.e} + {v.e} == taken;
      }
    } else if cfg.next == Increment {
      MatchingInsert(g, taken - {v.e}, v.e, w);
      assert taken - {v.e} + {v.e} == taken;
    }
  }

  /** When the run is over, c is the number of edges whose weight equals
      that of the first edge; the first edge itself is among them. */
  lemma FinalCount<W>(g: Graph<W>, v: Vars)
    requires Startable(g) && Inv(g, Config(v, Done))
    ensures v.c == CountWeight(g, g[0].weight)
    ensures 1 <= v.c <= |g|
  {
    MatchingAllIsCount(g, g[0].weight);
    CountOfFirstWeight(g);
  }

  /** Along a run the invariant holds and every call lowers the measure. */
  lemma {:induction false} RunInvariant<W>(g: Graph<W>, trace: seq<Config>, picks: seq<int>)
    requires Startable(g) && IsRun(g, trace, picks) && Inv(g, trace[0])
    ensures Inv(g, Last(trace))
    ensures Measure(g, Last(trace)) + |picks| <= Measure(g, trace[0])
  {
    var k := |picks|;
    if k > 0 {
      var trace', picks' := trace[..k], picks[..k - 1];
      assert IsRun(g, trace', picks') by {
        forall i | 0 <= i < |picks'| ensures Moves(g, trace'[i], picks'[i], trace'[i + 1]) {
          assert Moves(g, trace[i], picks[i], trace[i + 1]);
        }
      }
      RunInvariant(g, trace', picks');
      assert Moves(g, trace[k - 1], picks[k - 1], trace[k]);
      StepPreservesInv(g, trace[k - 1], picks[k - 1]);
    }
  }

  /** A run from the initialisation step calls the step function at most
      3 * |E| + 2 times. */
  lemma {:induction false} RunTerminates<W>(g: Graph<W>, trace: seq<Config>, picks: seq<int>)
    requires Startable(g) && IsRun(g, trace, picks) && trace[0].next == Init
    ensures |picks| <= 3 * |g| + 2
  {
    RunInvariant(g, trace, picks);
  }

  /** A run from the initialisation step that has reached Done has counted
      the edges whose weight equals that of the first edge. */
  lemma {:induction false} RunCounts<W>(g: Graph<W>, trace: seq<Config>, picks: seq<int>)
    requires Startable(g) && IsRun(g, trace, picks) && trace[0].next == Init
    ensures Last(trace).next == Done ==>
      && Last(trace).vars.c == CountWeight(g, g[0].weight)
      && 1 <= Last(trace).vars.c <= |g|
  {
    RunInvariant(g, trace, picks);
    if Last(trace).next == Done {
      FinalCount(g, Last(trace).vars);
    }
  }

  /** A run from the initialisation step that has not reached Done does not
      raise an exception at its next step, whichever member the loop test
      takes, and so can always take one more step. */
  lemma {:induction false} RunProgresses<W>(g: Graph<W>, trace: seq<Config>, picks: seq<int>)
    requires Startable(g) && IsRun(g, trace, picks) && trace[0].next == Init
    ensures Last(trace).next != Done ==>
      forall pick | ValidPick(Last(trace), pick) :: Step(g, Last(trace).vars, Last(trace).next, pick).1.Ok?
    ensures Last(trace).next != Done ==> exists pick, next :: Moves(g, Last(trace), pick, next)
  {
    RunInvariant(g, trace, picks);
    var cfg := Last(trace);
    if cfg.next != Done {
      forall pick | ValidPick(cfg, pick) ensures Step(g, cfg.vars, cfg.next, pick).1.Ok? {
        StepPreservesInv(g, cfg, pick);
      }
      var pick := 0;
      if cfg.vars.forEach != {} {
        NonEmptyHasMember(cfg.vars.forEach);
        pick :| pick in cfg.vars.forEach;
      }
      StepPreservesInv(g, cfg, pick);
      var (v', r) := Step(g, cfg.vars, cfg.next, pick);
      assert Moves(g, cfg, pick, Config(v', r.value));
    }
  }

  /** A run on one edge: initialisation, loop test, comparison, increment,
      loop test, loop test that ends the run. */
  const OneEdge: Graph<int> := [Edge(1, 7)]
  const OneEdgeTrace: seq<Config> := [
    Config(InitialVars, Init),
    Config(Vars(1, 0, -1, {1}), LoopTest),
    Config(Vars(1, 0, 1, {}), CompareWeights),
    Config(Vars(1, 0, 1, {}), Increment),
    Config(Vars(1, 1, 1, {}), LoopTest),
    Config(Vars(1, 1, 1, {}), Done)]

  /** The bound of RunTerminates is reached: on one edge a run calls the
      step function 3 * |E| + 2 = 5 times. */
  lemma OneEdgeRunReachesBound()
    ensures IsRun(OneEdge, OneEdgeTrace, [0, 1, 0, 0, 0])
    ensures Last(OneEdgeTrace).next == Done && Last(OneEdgeTrace).vars.c == 1
    ensures |OneEdgeTrace| - 1 == 3 * |OneEdge| + 2
  {
    assert Ids(OneEdge) == {1};
    assert OneEdge[1..] == [];
  }

  /** The initialisation step takes the first edge as a, clears c and puts
      every edge id into forEach; without an edge it fails and changes
      nothing. */
  lemma InitStep<W>(g: Graph<W>, v: Vars, pick: int)
    ensures |g| == 0 ==> Step(g, v, Init, pick) == (v, Err(IndexOutOfBounds))
    ensures Startable(g) ==>
      var (v', r) := Step(g, v, Init, pick);
      && r == Ok(LoopTest) && v'.a == g[0].id && v'.c == 0 && v'.e == v.e
      && v'.forEach == Ids(g) && |v'.forEach| == |g|
  {
    if Startable(g) {
      IdsCardinality(g);
    }
  }

  /** The loop test takes exactly the picked id out of forEach, making it
      one smaller; on an empty forEach it ends the run and changes nothing. */
  lemma LoopTestStep<W>(g: Graph<W>, v: Vars, pick: int)
    requires v.forEach != {} ==> pick in v.forEach
    ensures v.forEach == {} ==> Step(g, v, LoopTest, pick) == (v, Ok(Done))
    ensures v.forEach != {} ==>
      var (v', r) := Step(g, v, LoopTest, pick);
      && r == Ok(CompareWeights) && v'.e == pick && v'.a == v.a && v'.c == v.c
      && v'.forEach == v.forEach - {pick} && |v'.forEach| == |v.forEach| - 1
  {
  }

  /** The weight comparison changes no variable. When e and a both name an
      edge it goes on to the increment exactly when their weights are equal,
      and back to the loop test exactly when they differ; when either names
      no edge it raises the null-pointer exception. During a run a is the
      first edge, so e is compared with the first edge's weight. */
  lemma CompareStep<W>(g: Graph<W>, v: Vars, pick: int)
    ensures Step(g, v, CompareWeights, pick).0 == v
    ensures EdgeByID(g, v.e).Some? && EdgeByID(g, v.a).Some? ==>
      var same := EdgeByID(g, v.e).value.weight == EdgeByID(g, v.a).value.weight;
      && (Step(g, v, CompareWeights, pick).1 == Ok(Increment) <==> same)
      && (Step(g, v, CompareWeights, pick).1 == Ok(LoopTest) <==> !same)
    ensures Step(g, v, CompareWeights, pick).1 == Err(NullPointer) <==>
      EdgeByID(g, v.e).None? || EdgeByID(g, v.a).None?
    ensures Startable(g) && v.a == g[0].id && v.e in Ids(g) ==>
      (Step(g, v, CompareWeights, pick).1 == Ok(Increment) <==> EdgeByID(g, v.e).value.weight == g[0].weight)
  {
    if Startable(g) {
      EdgeByIDFindsEdge(g, 0);
    }
  }

  /** The increment adds one to c, changes nothing else and returns to the
      loop test; an unknown step id ends the run and changes nothing. */
  lemma IncrementAndUnknownSteps<W>(g: Graph<W>, v: Vars, stepID: int, pick: int)
    ensures Step(g, v, Increment, pick) == (v.(c := v.c + 1), Ok(LoopTest))
    ensures !(0 <= stepID <= 3) ==> Step(g, v, stepID, pick) == (v, Ok(Done))
  {
  }

  /** Restoring a state container after storing the variables into it gives
      back exactly those variables. */
  lemma RestoreAfterStore(d: StateData, v: Vars)
    ensures Loaded(Stored(d, v)) == Some(v)
  {
  }
}
