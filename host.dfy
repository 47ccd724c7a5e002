/** The parts of the visualization host that the plugin's step interpreter
    relies on: graphs of weighted edges with unique ids, the graph view whose
    visual edges carry a colour and a line width, the generic state container
    used for snapshots, and the event object of the start callback. */
module Host {

  datatype Option<T> = None | Some(value: T)

  /** The Java exceptions the plugin's own code can raise. */
  datatype Failure = IndexOutOfBounds | NullPointer

  datatype Result<T> = Ok(value: T) | Err(failure: Failure)

  /** An edge of the host graph: its id and its weight. The plugin only ever
      compares weights for equality, so the weight type is a parameter. */
  datatype Edge<W> = Edge(id: int, weight: W)

  /** The edges of the host graph, in the host's edge order. */
  type Graph<W> = seq<Edge<W>>

  /** The host hands out a distinct id to every edge. */
  predicate UniqueIds<W>(g: Graph<W>) {
    forall i, j :: 0 <= i < j < |g| ==> g[i].id != g[j].id
  }

  /** The set of all edge ids (the host's edge-id set). */
  function Ids<W>(g: Graph<W>): (ids: set<int>)
    ensures |ids| <= |g|
    ensures forall i :: 0 <= i < |g| ==> g[i].id in ids
    ensures forall id :: id in ids ==> exists i :: 0 <= i < |g| && g[i].id == id
  {
    if g == [] then {}
    else
      var rest := Ids(g[1..]);
      assert forall id :: id in rest ==> exists i :: 0 <= i < |g| && g[i].id == id by {
        forall id | id in rest ensures exists i :: 0 <= i < |g| && g[i].id == id {
          var k :| 0 <= k < |g[1..]| && g[1..][k].id == id;
          assert g[k + 1].id == id;
        }
      }
      {g[0].id} + rest
  }

  /** Lookup of an edge by id; Java's null is None. */
  function EdgeByID<W>(g: Graph<W>, id: int): (r: Option<Edge<W>>)
    ensures r.Some? <==> id in Ids(g)
    ensures r.Some? ==> r.value.id == id && r.value in g
  {
    if g == [] then None
    else if g[0].id == id then Some(g[0])
    else EdgeByID(g[1..], id)
  }

  /** The number of edges whose weight is w. */
  function CountWeight<W(==)>(g: Graph<W>, w: W): (n: nat)
    ensures n <= |g|
  {
    if g == [] then 0
    else (if g[0].weight == w then 1 else 0) + CountWeight(g[1..], w)
  }

  /** With unique ids every edge is found by its own id. */
  lemma {:induction false} EdgeByIDFindsEdge<W>(g: Graph<W>, i: nat)
    requires UniqueIds(g) && i < |g|
    ensures EdgeByID(g, g[i].id) == Some(g[i])
  {
    if i > 0 {
      assert g[1..][i - 1] == g[i];
      EdgeByIDFindsEdge(g[1..], i - 1);
    }
  }

  /** With unique ids there are exactly as many ids as edges. */
  lemma {:induction false} IdsCardinality<W>(g: Graph<W>)
    requires UniqueIds(g)
    ensures |Ids(g)| == |g|
  {
    if g != [] {
      IdsCardinality(g[1..]);
      assert g[0].id !in Ids(g[1..]);
    }
  }

  /** A non-empty set has a member to take. */
  lemma NonEmptyHasMember(s: set<int>)
    requires s != {}
    ensures exists x :: x in s
  {
    if forall x :: x !in s {
      assert false;
    }
  }

  /** The colour a visual edge is painted with: the customizable colours of
      the variables a and e, or the view's default edge colour. */
  datatype EdgeColor = ColorA | ColorE | DefaultEdgeColor

  /** A line width in pixels, or the view's default edge line width. */
  datatype LineWidth = Width(pixels: nat) | DefaultLineWidth

  datatype EdgeStyle = EdgeStyle(color: EdgeColor, lineWidth: LineWidth)

  const DefaultStyle := EdgeStyle(DefaultEdgeColor, DefaultLineWidth)

  /** The graph view: the graph it shows, one visual edge per graph edge (the
      i-th visual edge shows the i-th edge), and the view's edit state. */
  class GraphView<W> {
    var graph: Graph<W>
    var styles: array<EdgeStyle>
    var editable: bool
    /** ids of the selected graph objects */
    var selection: set<int>

    ghost predicate Valid()
      reads this
    {
      styles.Length == |graph|
    }

    constructor (g: Graph<W>)
      ensures Valid() && fresh(styles)
      ensures graph == g && editable && selection == {}
      ensures forall i :: 0 <= i < styles.Length ==> styles[i] == DefaultStyle
    {
      graph := g;
      styles := new EdgeStyle[|g|](_ => DefaultStyle);
      editable := true;
      selection := {};
    }
  }

  /** The contents of the host's generic state container: named integers and
      named sets of integers. */
  datatype StateData = StateData(ints: map<string, int>, sets: map<string, set<int>>)

  /** The host's state container, filled and read in place by the plugin. */
  class AlgorithmState {
    var ints: map<string, int>
    var sets: map<string, set<int>>

    function Data(): StateData
      reads this
    {
      StateData(ints, sets)
    }

    constructor ()
      ensures Data() == StateData(map[], map[])
    {
      ints := map[];
      sets := map[];
    }
  }

  /** The event of a runtime callback; clearing doit cancels the action. */
  class RTEvent {
    var doit: bool

    constructor ()
      ensures doit
    {
      doit := true;
    }
  }
}
