/** The plugin's runtime environment: a four-step interpreter that takes the
    first edge as the reference edge a, walks the remaining edge ids one at a
    time as e, and counts in c the edges whose weight equals that of a. */
module Interpreter {
  import opened Host

  /** The algorithm variables: reference edge id a, counter c, current edge
      id e, and the ids not yet visited. */
  datatype Vars = Vars(a: int, c: int, e: int, forEach: set<int>)

  /** The variables after the initial-state hook. */
  const InitialVars := Vars(-1, 0, -1, {})

  /** Step ids of the interpreter; -1 ends the run. */
  const Init := 0
  const LoopTest := 1
  const CompareWeights := 2
  const Increment := 3
  const Done := -1

  /** One call of the step function, as a function of the graph, the
      variables before it and the step id. pick stands for the member of
      forEach that the loop test takes; it is used only by that step.
      Returns the variables after the step and either the next step id or
      the exception the step raises (which leaves the variables alone). */
  function Step<W(==)>(g: Graph<W>, v: Vars, stepID: int, pick: int): (r: (Vars, Result<int>))
    ensures r.1.Err? ==> r.0 == v
    ensures r.1 == Err(IndexOutOfBounds) <==> stepID == Init && |g| == 0
    ensures r.1 == Err(NullPointer) <==>
      stepID == CompareWeights && (EdgeByID(g, v.e).None? || EdgeByID(g, v.a).None?)
    ensures r.1.Ok? ==> r.1.value in {LoopTest, CompareWeights, Increment, Done}
    ensures stepID != Init ==> r.0.a == v.a && r.0.forEach <= v.forEach && v.c <= r.0.c <= v.c + 1
  {
    if stepID == Init then
      if |g| == 0 then (v, Err(IndexOutOfBounds))
      else (v.(a := g[0].id, c := 0, forEach := Ids(g)), Ok(LoopTest))
    else if stepID == LoopTest then
      if v.forEach != {} then (v.(e := pick, forEach := v.forEach - {pick}), Ok(CompareWeights))
      else (v, Ok(Done))
    else if stepID == CompareWeights then
      match (EdgeByID(g, v.e), EdgeByID(g, v.a))
      case (Some(edgeE), Some(edgeA)) =>
        (v, Ok(if edgeE.weight == edgeA.weight then Increment else LoopTest))
      case _ => (v, Err(NullPointer))
    else if stepID == Increment then
      (v.(c := v.c + 1), Ok(LoopTest))
    else
      (v, Ok(Done))
  }

  /** Whether a step repaints the edges: the initialisation step when it
      succeeds, and the loop test when it takes an edge. */
  predicate Redraws<W>(g: Graph<W>, v: Vars, stepID: int) {
    (stepID == Init && |g| > 0) || (stepID == LoopTest && v.forEach != {})
  }

  /** The look of the edge with the given id: a takes priority over e. */
  function StyleFor(id: int, a: int, e: int): (s: EdgeStyle)
    ensures s == EdgeStyle(ColorA, Width(3)) <==> id == a
    ensures s == EdgeStyle(ColorE, Width(2)) <==> id != a && id == e
    ensures s == DefaultStyle <==> id != a && id != e
  {
    if id == a then EdgeStyle(ColorA, Width(3))
    else if id == e then EdgeStyle(ColorE, Width(2))
    else DefaultStyle
  }

  /** Every visual edge of the view shows the variables a and e. */
  ghost predicate Highlights<W>(view: GraphView<W>, a: int, e: int)
    reads view, view.styles
  {
    forall i :: 0 <= i < view.styles.Length && i < |view.graph| ==>
      view.styles[i] == StyleFor(view.graph[i].id, a, e)
  }

  /** The state keys the variables are stored under. */
  const KeyA := "a"
  const KeyC := "c"
  const KeyE := "e"
  const KeyForEach := "forEach"

  /** The state container after the variables are stored into it. */
  function Stored(d: StateData, v: Vars): (r: StateData)
    ensures forall k :: k in d.ints && k != KeyA && k != KeyC && k != KeyE ==>
      k in r.ints && r.ints[k] == d.ints[k]
    ensures forall k :: k in d.sets && k != KeyForEach ==> k in r.sets && r.sets[k] == d.sets[k]
  {
    StateData(d.ints[KeyA := v.a][KeyC := v.c][KeyE := v.e], d.sets[KeyForEach := v.forEach])
  }

  /** The variables read back from a state container; None when one of the
      keys is missing. Storing what was read back leaves the container as
      it was. */
  function Loaded(d: StateData): (r: Option<Vars>)
    ensures KeyA in d.ints && KeyC in d.ints && KeyE in d.ints && KeyForEach in d.sets ==> r.Some?
    ensures r.Some? ==> Stored(d, r.value) == d
  {
    if KeyA in d.ints && KeyC in d.ints && KeyE in d.ints && KeyForEach in d.sets then
      Some(Vars(d.ints[KeyA], d.ints[KeyC], d.ints[KeyE], d.sets[KeyForEach]))
    else None
  }

  /** The runtime environment: the algorithm variables as fields, and the
      graph view the steps read the graph from and repaint. */
  class AlgorithmRTE<W(==)> {
    const view: GraphView<W>
    var a: int
    var c: int
    var e: int
    var forEach: set<int>

    function Variables(): Vars
      reads this
    {
      Vars(a, c, e, forEach)
    }

    /** Java's default field values; forEach starts out as the empty set. */
    constructor (view: GraphView<W>)
      ensures this.view == view && Variables() == Vars(0, 0, 0, {})
    {
      this.view := view;
      a, c, e, forEach := 0, 0, 0, {};
    }

    /** Executes one step and returns the next step id (Done when the run is
        over) or the exception the step raises. */
    method ExecuteStep(stepID: int) returns (r: Result<int>)
      requires view.Valid()
      modifies this, view.styles
      ensures stepID == LoopTest && old(forEach) != {} ==> e in old(forEach)
      ensures (Variables(), r) == Step(view.graph, old(Variables()), stepID, e)
      ensures Redraws(view.graph, old(Variables()), stepID) ==> Highlights(view, a, e)
      ensures !Redraws(view.graph, old(Variables()), stepID) ==> view.styles[..] == old(view.styles[..])
    {
      var graph := view.graph;
      r := Ok(Done);
      if stepID == Init {
        if |graph| == 0 {
          return Err(IndexOutOfBounds);
        }
        a := graph[0].id;
        c := 0;
        forEach := Ids(graph);
        VisualizeEdges();
        r := Ok(LoopTest);
      } else if stepID == LoopTest {
        if |forEach| > 0 {
          NonEmptyHasMember(forEach);
          var x :| x in forEach;
          e := x;
          forEach := forEach - {e};
          VisualizeEdges();
          r := Ok(CompareWeights);
        } else {
          r := Ok(Done);
        }
      } else if stepID == CompareWeights {
        var edgeE := EdgeByID(graph, e);
        var edgeA := EdgeByID(graph, a);
        if edgeE.None? || edgeA.None? {
          return Err(NullPointer);
        }
        if edgeE.value.weight == edgeA.value.weight {
          r := Ok(Increment);
        } else {
          r := Ok(LoopTest);
        }
      } else if stepID == Increment {
        c := c + 1;
        r := Ok(LoopTest);
      }
    }

    /** Saves the variables into the state container. */
    method StoreState(state: AlgorithmState)
      modifies state
      ensures state.Data() == Stored(old(state.Data()), Variables())
    {
      state.ints := state.ints[KeyA := a];
      state.ints := state.ints[KeyC := c];
      state.ints := state.ints[KeyE := e];
      state.sets := state.sets[KeyForEach := forEach];
    }

    /** Reloads the variables from a state container that holds them. */
    method RestoreState(state: AlgorithmState)
      requires Loaded(state.Data()).Some?
      modifies this
      ensures Loaded(state.Data()) == Some(Variables())
    {
      a := state.ints[KeyA];
      c := state.ints[KeyC];
      e := state.ints[KeyE];
      forEach := state.sets[KeyForEach];
    }

    /** Sets the variables to their initial values and records them. */
    method CreateInitialState(state: AlgorithmState)
      modifies this, state
      ensures Variables() == InitialVars
      ensures state.Data() == Stored(old(state.Data()), InitialVars)
    {
      state.ints := state.ints[KeyA := -1];
      a := -1;
      state.ints := state.ints[KeyC := 0];
      c := 0;
      state.ints := state.ints[KeyE := -1];
      e := -1;
      state.sets := state.sets[KeyForEach := {}];
      forEach := {};
    }

    /** Undoing the initialisation step or the loop test repaints the edges
        for the restored variables; other steps leave the view alone. */
    method RollBackStep(stepID: int, nextStepID: int)
      requires view.Valid()
      modifies view.styles
      ensures stepID == Init || stepID == LoopTest ==> Highlights(view, a, e)
      ensures !(stepID == Init || stepID == LoopTest) ==> view.styles[..] == old(view.styles[..])
    {
      if stepID == Init || stepID == LoopTest {
        VisualizeEdges();
      }
    }

    /** Paints every visual edge according to a and e. */
    method VisualizeEdges()
      requires view.Valid()
      modifies view.styles
      ensures Highlights(view, a, e)
    {
      var i := 0;
      while i < view.styles.Length
        invariant 0 <= i <= view.styles.Length
        invariant forall k :: 0 <= k < i ==> view.styles[k] == StyleFor(view.graph[k].id, a, e)
      {
        var id := view.graph[i].id;
        if id == a {
          view.styles[i] := EdgeStyle(ColorA, Width(3));
        } else if id == e {
          view.styles[i] := EdgeStyle(ColorE, Width(2));
        } else {
          view.styles[i] := DefaultStyle;
        }
        i := i + 1;
      }
    }
  }
}
