/** The toy state graph: three nodes that each append a fixed phrase to a
    one-field string state, joined START -> node_1 -> {node_2 | node_3} -> END.
    The coin `random.random()` draws is a parameter in [0, 1). */
module StateGraph {

  datatype Node = Node1 | Node2 | Node3

  /** Positions of a run: before the first node, at a node, or finished. */
  datatype Vertex = Start | At(node: Node) | Finish

  /** The phrase each node appends. */
  function Phrase(n: Node): string {
    match n
    case Node1 => " AGI"
    case Node2 => " Achieved!"
    case Node3 => " Not Achieved :("
  }

  /** Runs one node on the state: the incoming state is kept as a prefix and
      exactly the node's phrase follows it. */
  function Apply(n: Node, state: string): (r: string)
    ensures state <= r
    ensures r[|state|..] == Phrase(n)
  {
    state + Phrase(n)
  }

  /** The range of `random.random()`. */
  predicate IsCoin(coin: real) {
    0.0 <= coin < 1.0
  }

  /** `decide_mood`: below one half goes to node_2, otherwise node_3. */
  function DecideMood(coin: real): (n: Node)
    requires IsCoin(coin)
    ensures n != Node1
  {
    if coin < 0.5 then Node2 else Node3
  }

  /** The coin decides: each of node_2 and node_3 is chosen by some coin. */
  lemma DecisionReachesBoth()
    ensures exists coin :: IsCoin(coin) && DecideMood(coin) == Node2
    ensures exists coin :: IsCoin(coin) && DecideMood(coin) == Node3
  {
    assert IsCoin(0.0) && DecideMood(0.0) == Node2;
    assert IsCoin(0.5) && DecideMood(0.5) == Node3;
  }

  /** The edge table: START to node_1, node_1 through `decide_mood`, and
      node_2 and node_3 to END. */
  function Next(v: Vertex, coin: real): (w: Vertex)
    requires IsCoin(coin)
    requires v != Finish
    ensures Rank(w) < Rank(v)
  {
    match v
    case Start => At(Node1)
    case At(Node1) => At(DecideMood(coin))
    case At(_) => Finish
  }

  /** Remaining steps to the end, at most. */
  function Rank(v: Vertex): nat {
    match v
    case Start => 3
    case At(Node1) => 2
    case At(_) => 1
    case Finish => 0
  }

  /** The closed form of a run: node_1's phrase, then the chosen node's. */
  function FinalState(init: string, coin: real): string
    requires IsCoin(coin)
  {
    init + " AGI" + (if coin < 0.5 then " Achieved!" else " Not Achieved :(")
  }

  /** The script's run from an empty state ends in one of two phrases. */
  lemma EmptyStartFinalStates(coin: real)
    requires IsCoin(coin)
    ensures coin < 0.5 ==> FinalState("", coin) == " AGI Achieved!"
    ensures 0.5 <= coin ==> FinalState("", coin) == " AGI Not Achieved :("
  {
  }

  /** `graph.invoke(init)`: follows the edges from START, running each node
      reached, until END. Returns the final state and the nodes visited. */
  method Invoke(init: string, coin: real) returns (final: string, visited: seq<Node>)
    requires IsCoin(coin)
    ensures final == FinalState(init, coin)
    ensures visited == [Node1, DecideMood(coin)]
    ensures |visited| == 2 && Node1 !in visited[1..]
  {
    var v := Next(Start, coin);
    var state := init;
    visited := [];
    while v != Finish
      invariant v == At(Node1) ==> state == init && visited == []
      invariant v.At? && v.node != Node1 ==>
        v.node == DecideMood(coin) && state == init + " AGI" && visited == [Node1]
      invariant v == Finish ==>
        state == FinalState(init, coin) && visited == [Node1, DecideMood(coin)]
      invariant v != Start
      decreases Rank(v)
    {
      state := Apply(v.node, state);
      visited := visited + [v.node];
      v := Next(v, coin);
    }
    final := state;
  }
}
