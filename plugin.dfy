/** The plugin callbacks around the interpreter: the start guard, the stop
    hook, and the grading of the exercise attached to the weight comparison
    ("Does w(e) equal w(a)?", answered yes, no, or not at all). */
module Plugin {
  import opened Host
  import opened Interpreter

  /** Before a run starts: a graph without edges cancels the start; a start
      that is still on clears the selection and locks the view. */
  method BeforeStart<W>(view: GraphView<W>, ev: RTEvent)
    modifies ev, view
    ensures ev.doit == (old(ev.doit) && |view.graph| >= 1)
    ensures view.graph == old(view.graph) && view.styles == old(view.styles)
    ensures view.editable == (if ev.doit then false else old(view.editable))
    ensures view.selection == (if ev.doit then {} else old(view.selection))
  {
    if |view.graph| < 1 {
      ev.doit := false;
    }
    if ev.doit {
      view.selection := {};
      view.editable := false;
    }
  }

  /** After a run stops the view can be edited again. */
  method OnStop<W>(view: GraphView<W>)
    modifies view
    ensures view.editable
    ensures view.graph == old(view.graph) && view.styles == old(view.styles)
    ensures view.selection == old(view.selection)
  {
    view.editable := true;
  }

  /** The start guard lets through exactly the graphs on which the
      initialisation step succeeds. */
  lemma StartGuardMatchesInit<W>(g: Graph<W>, v: Vars, pick: int)
    ensures |g| >= 1 <==> Step(g, v, Init, pick).1 == Ok(LoopTest)
    ensures |g| < 1 <==> Step(g, v, Init, pick).1 == Err(IndexOutOfBounds)
  {
  }

  /** Grades an answer to the exercise against the variables e and a held
      by the state the exercise is checked in. A missing answer is wrong;
      an id without an edge raises the null-pointer exception. */
  function Examine<W(==)>(g: Graph<W>, results: seq<Option<bool>>, d: StateData): (r: Result<bool>)
    requires KeyA in d.ints && KeyE in d.ints
    ensures r.Ok? && r.value ==> |results| > 0 && results[0].Some?
    ensures r == Err(IndexOutOfBounds) <==> |results| == 0
  {
    var edgeE := EdgeByID(g, d.ints[KeyE]);
    var edgeA := EdgeByID(g, d.ints[KeyA]);
    if |results| == 0 then Err(IndexOutOfBounds)
    else if results[0].None? then Ok(false)
    else if edgeE.None? || edgeA.None? then Err(NullPointer)
    else Ok(results[0].value == (edgeE.value.weight == edgeA.value.weight))
  }

  /** In a state that holds the variables v, the answer "yes" is graded
      right exactly when the weight comparison would go on to the increment,
      and "no" exactly when it would go back to the loop test; grading fails
      exactly when the comparison fails. Not answering is always wrong. */
  lemma ExamineAgreesWithCompare<W>(g: Graph<W>, d: StateData, v: Vars, answer: bool, pick: int)
    ensures var grade := Examine(g, [Some(answer)], Stored(d, v));
      match Step(g, v, CompareWeights, pick).1
      case Ok(next) => grade == Ok(answer == (next == Increment))
      case Err(f) => grade == Err(f)
    ensures Examine(g, [None], Stored(d, v)) == Ok(false)
  {
  }
}
