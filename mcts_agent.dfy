/** The glue between the game state and the Monte Carlo tree search: the search-tree node,
    child expansion with alternating player numbers, node evaluation, the policy prior, the
    discovery factor and the root set-up of `scegli_mossa`. The search itself (selection,
    back-propagation, the simulations, the final choice) belongs to a library that is not part of
    this model; its final choice is the parameter `scelta`. */
module MctsAgent {
  import opened Cards
  import opened Players
  import opened Table
  import opened GameStates

  /** The search-tree node, with the fields the agent sets and reads. */
  class Node {
    var state: ScopaGameState
    var children: seq<Node>
    var parent: Node?
    var playerNumber: int
    var policyValue: real
    var discoveryFactor: real

    constructor (state: ScopaGameState)
      ensures this.state == state && children == [] && parent == null
    {
      this.state := state;
      children := [];
      parent := null;
    }

    /** `add_child`: the child is appended and learns its parent. */
    method AddChild(child: Node)
      modifies this`children, child`parent
      ensures children == old(children) + [child]
      ensures child.parent == this
    {
      children := children + [child];
      child.parent := this;
    }
  }

  /** `_calculate_policy_value`: 0.3 for a discard, 0.2 more for a capture, 0.15 more when it
      takes a coin card and 0.25 more when it takes the seven of coins, capped at 1. */
  function CalculatePolicyValue(state: ScopaGameState, mossa: Mossa): (r: real)
    ensures 0.3 <= r <= 0.9
  {
    var baseValue :=
      if mossa.presa != [] then
        0.3 + 0.2
        + (if ContaDenari(mossa.presa) > 0 then 0.15 else 0.0)
        + (if HaSettebello(mossa.presa) then 0.25 else 0.0)
      else 0.3;
    if baseValue < 1.0 then baseValue else 1.0
  }

  /** The policy value takes exactly four values: 0.3 for a discard, 0.5 for a capture without
      coins, 0.65 for one with coins but not the seven of coins, 0.9 for one with the seven of
      coins; the cap at 1 never applies. */
  lemma PolicyValueCasi(state: ScopaGameState, mossa: Mossa)
    ensures CalculatePolicyValue(state, mossa) == 0.3 <==> mossa.presa == []
    ensures CalculatePolicyValue(state, mossa) == 0.5 <==> mossa.presa != [] && ContaDenari(mossa.presa) == 0
    ensures CalculatePolicyValue(state, mossa) == 0.65 <==> ContaDenari(mossa.presa) > 0 && !HaSettebello(mossa.presa)
    ensures CalculatePolicyValue(state, mossa) == 0.9 <==> HaSettebello(mossa.presa)
  {
    FiltraSemeMembri(mossa.presa, Denari);
    ContaDenariZero(mossa.presa);
    if HaSettebello(mossa.presa) {
      assert Settebello in FiltraSeme(mossa.presa, Denari);
    }
  }

  /** `_calculate_discovery_factor`: 0.4, plus 0.15 once the player has a sweep, plus 0.1 with
      five coin cards collected, plus 0.1 with two cards or more in hand, capped at 0.8. */
  function CalculateDiscoveryFactor(state: ScopaGameState): (r: real)
    ensures 0.4 <= r <= 0.75
  {
    var baseFactor := 0.4
      + (if state.scope > 0 then 0.15 else 0.0)
      + (if ContaDenari(state.carteRaccolteGiocatore) >= 5 then 0.1 else 0.0)
      + (if |state.carteMano| >= 2 then 0.1 else 0.0);
    if baseFactor < 0.8 then baseFactor else 0.8
  }

  /** The discovery factor is at its least, 0.4, exactly when none of the three bonuses applies,
      and at its greatest, 0.75, exactly when all three do; the cap at 0.8 never applies. */
  lemma DiscoveryFactorEstremi(state: ScopaGameState)
    ensures CalculateDiscoveryFactor(state) == 0.4 <==>
              state.scope <= 0 && ContaDenari(state.carteRaccolteGiocatore) < 5 && |state.carteMano| < 2
    ensures CalculateDiscoveryFactor(state) == 0.75 <==>
              state.scope > 0 && ContaDenari(state.carteRaccolteGiocatore) >= 5 && |state.carteMano| >= 2
  {
  }

  /** `node_evaluator`: the state's evaluation, within [0, 1] while the sweep count is not
      negative. */
  function NodeEvaluator(node: Node): (r: real)
    reads node
    ensures -1.0 <= r <= 1.0
    ensures node.state.scope >= 0 ==> 0.0 <= r <= 1.0
    ensures r == EvaluateState(node.state)
  {
    EvaluateState(node.state)
  }

  /** The fields of a node the agent sets, as a value. */
  datatype Campi = Campi(state: ScopaGameState, playerNumber: int, policyValue: real,
                         discoveryFactor: real, children: seq<Node>, parent: Node?)

  ghost function CampiDi(n: Node): Campi
    reads n
  {
    Campi(n.state, n.playerNumber, n.policyValue, n.discoveryFactor, n.children, n.parent)
  }

  /** The child `child_finder` builds for `mossa` below `padre`, a node holding `stato` with
      player number `numero`: the state the move leads to, the other player's number, the move's
      policy value and the new state's discovery factor, no children yet. */
  function FiglioAtteso(stato: ScopaGameState, numero: int, padre: Node?, mossa: Mossa): Campi
  {
    var nuovoStato := Applica(stato, mossa);
    Campi(nuovoStato, 3 - numero, CalculatePolicyValue(nuovoStato, mossa),
          CalculateDiscoveryFactor(nuovoStato), [], padre)
  }

  /** A hand of n cards offers at least n moves. */
  lemma {:induction false} AlmenoUnaMossaPerCarta(s: ScopaGameState, mano: seq<Carta>)
    ensures ContaMosse(s, mano) >= |mano|
  {
    if mano != [] {
      AlmenoUnaMossaPerCarta(s, mano[..|mano| - 1]);
    }
  }

  /** `child_finder`: one new child per move of `get_possible_moves`, in that order, each holding
      the state the move leads to and the other player's number; the node's own state is not
      touched. */
  method ChildFinder(node: Node)
    modifies node`children
    ensures node.state == old(node.state)
    ensures FigliAttesi(node, old(node.children), PossibleMoves(node.state))
    ensures forall k :: |old(node.children)| <= k < |node.children| ==> fresh(node.children[k])
  {
    var possibleMoves := GetPossibleMoves(node.state);
    TutteLegali(node.state);
    AggiungiFigli(node, possibleMoves);
  }

  /** The children of `node` are the ones it had before, `prima`, followed by one child per move
      of `mosse`, in that order, each as `FiglioAtteso` describes it. */
  ghost predicate FigliAttesi(node: Node, prima: seq<Node>, mosse: seq<Mossa>)
    reads node, node.children
  {
    && |node.children| == |prima| + |mosse|
    && node.children[..|prima|] == prima
    && forall k :: |prima| <= k < |node.children| ==>
         CampiDi(node.children[k]) == FiglioAtteso(node.state, node.playerNumber, node, mosse[k - |prima|])
  }

  /** Every generated move can be played. */
  lemma TutteLegali(s: ScopaGameState)
    ensures forall m :: m in PossibleMoves(s) ==> Legale(s, m)
  {
    forall m | m in PossibleMoves(s) ensures Legale(s, m) {
      MosseLegali(s, m);
    }
  }

  /** The loop of `child_finder` over the moves of the node's state. */
  method AggiungiFigli(node: Node, possibleMoves: seq<Mossa>)
    requires forall m :: m in possibleMoves ==> Legale(node.state, m)
    modifies node`children
    ensures FigliAttesi(node, old(node.children), possibleMoves)
    ensures forall k :: |old(node.children)| <= k < |node.children| ==> fresh(node.children[k])
  {
    var stato := node.state;
    var numero := node.playerNumber;
    ghost var prima := node.children;
    ghost var figli: seq<Node> := [];
    for i := 0 to |possibleMoves|
      invariant node.children == prima + figli && |figli| == i
      invariant forall k :: 0 <= k < i ==> fresh(figli[k])
      invariant forall k :: 0 <= k < i ==> CampiDi(figli[k]) == FiglioAtteso(stato, numero, node, possibleMoves[k])
    {
      var child := AggiungiFiglio(node, stato, numero, possibleMoves[i]);
      figli := figli + [child];
    }
    FigliAggiunti(node, prima, figli, possibleMoves);
  }

  /** The children built one per move, appended after the old ones, are what `FigliAttesi`
      describes. */
  lemma FigliAggiunti(node: Node, prima: seq<Node>, figli: seq<Node>, mosse: seq<Mossa>)
    requires node.children == prima + figli && |figli| == |mosse|
    requires forall k :: 0 <= k < |figli| ==>
               CampiDi(figli[k]) == FiglioAtteso(node.state, node.playerNumber, node, mosse[k])
    ensures FigliAttesi(node, prima, mosse)
  {
    assert node.children[..|prima|] == prima;
    forall k | |prima| <= k < |node.children|
      ensures CampiDi(node.children[k]) == FiglioAtteso(node.state, node.playerNumber, node, mosse[k - |prima|])
    {
      assert node.children[k] == figli[k - |prima|];
    }
  }

  /** The loop body of `child_finder`: a new child for `mossa`, appended below `node`. */
  method AggiungiFiglio(node: Node, stato: ScopaGameState, numero: int, mossa: Mossa) returns (child: Node)
    requires Legale(stato, mossa)
    modifies node`children
    ensures node.children == old(node.children) + [child]
    ensures fresh(child) && CampiDi(child) == FiglioAtteso(stato, numero, node, mossa)
  {
    child := NuovoFiglio(stato, numero, mossa);
    node.AddChild(child);
  }

  /** The loop body of `child_finder` before `add_child`: the move is applied to a copy of the
      state, and the new node gets the other player's number, the move's policy value and the new
      state's discovery factor. */
  method NuovoFiglio(stato: ScopaGameState, numero: int, mossa: Mossa) returns (child: Node)
    requires Legale(stato, mossa)
    ensures fresh(child) && CampiDi(child) == FiglioAtteso(stato, numero, null, mossa)
  {
    var nuovoStato := Move(stato, mossa);
    child := new Node(nuovoStato);
    child.playerNumber := 3 - numero;
    var policyValue := CalculatePolicyValue(nuovoStato, mossa);
    child.policyValue := policyValue;
    child.discoveryFactor := CalculateDiscoveryFactor(nuovoStato);
  }

  /** `figlio` is a child `child_finder` built below `padre`, for some move. */
  ghost predicate FiglioDi(figlio: Node, padre: Node)
    reads figlio, padre
  {
    exists m :: CampiDi(figlio) == FiglioAtteso(padre.state, padre.playerNumber, padre, m)
  }

  /** A child built by `child_finder` carries the other player's number and knows its parent. */
  lemma FiglioDiNumero(figlio: Node, padre: Node)
    requires FiglioDi(figlio, padre)
    ensures figlio.playerNumber == 3 - padre.playerNumber && figlio.parent == padre
  {
    var m :| CampiDi(figlio) == FiglioAtteso(padre.state, padre.playerNumber, padre, m);
  }

  /** Every child `child_finder` adds to a node is a `FiglioDi` of it. */
  lemma FigliAttesiFigli(node: Node, prima: seq<Node>, mosse: seq<Mossa>)
    requires FigliAttesi(node, prima, mosse)
    ensures forall k :: |prima| <= k < |node.children| ==> FiglioDi(node.children[k], node)
  {
    forall k | |prima| <= k < |node.children|
      ensures FiglioDi(node.children[k], node)
    {
      var m := mosse[k - |prima|];
      assert CampiDi(node.children[k]) == FiglioAtteso(node.state, node.playerNumber, node, m);
    }
  }

  /** A path down the tree from a root with player number 1, each node a child that
      `child_finder` built below the one before it, alternates 1, 2, 1, ... */
  lemma {:induction false} Alternanza(path: seq<Node>, k: nat)
    requires |path| > 0 && path[0].playerNumber == 1
    requires forall j :: 0 <= j < |path| - 1 ==> FiglioDi(path[j + 1], path[j])
    requires k < |path|
    ensures path[k].playerNumber == if k % 2 == 0 then 1 else 2
  {
    if k > 0 {
      Alternanza(path, k - 1);
      FiglioDiNumero(path[k], path[k - 1]);
    }
  }

  /** The root of `scegli_mossa`: a fresh node holding the initial state, with player number 1,
      discovery factor 0.4, no children and no parent. */
  method NuovaRadice(stato: ScopaGameState) returns (root: Node)
    ensures fresh(root) && root.state == stato && root.children == [] && root.parent == null
    ensures root.playerNumber == 1 && root.discoveryFactor == 0.4
  {
    root := new Node(stato);
    root.playerNumber := 1;
    root.discoveryFactor := 0.4;
  }

  /** The root expanded by `child_finder`: one fresh child per move of the initial state, in
      order, as `FiglioAtteso` describes it; so each child has player number 2 and the root as
      parent. */
  method RadiceEspansa(stato: ScopaGameState) returns (root: Node)
    ensures fresh(root) && root.state == stato && root.parent == null
    ensures root.playerNumber == 1 && root.discoveryFactor == 0.4
    ensures FigliAttesi(root, [], PossibleMoves(stato))
    ensures forall k :: 0 <= k < |root.children| ==> fresh(root.children[k])
    ensures forall k :: 0 <= k < |root.children| ==>
              root.children[k].playerNumber == 2 && root.children[k].parent == root
  {
    root := NuovaRadice(stato);
    ChildFinder(root);
    FigliAttesiFigli(root, [], PossibleMoves(stato));
    forall k | 0 <= k < |root.children|
      ensures root.children[k].playerNumber == 2 && root.children[k].parent == root
    {
      FiglioDiNumero(root.children[k], root);
    }
  }

  class AgenteMonteCarlo {
    const giocatore: Giocatore

    constructor (giocatore: Giocatore)
      ensures this.giocatore == giocatore
    {
      this.giocatore := giocatore;
    }

    /** `scegli_mossa`: the root holds a snapshot of the player and the table, carries player
        number 1 and discovery factor 0.4, and is expanded by `child_finder`; the library's
        choice among the root's children is `scelta`, taken modulo their number, and the card of
        its move is returned. It is always a card of the player's hand. */
    method ScegliMossa(tavolo: Tavolo, scelta: nat) returns (carta: Carta)
      requires giocatore.carteMano != []
      ensures carta in giocatore.carteMano
      ensures exists m :: m in PossibleMoves(NuovoStato(giocatore, tavolo, giocatore.carteMano,
                                                        giocatore.carteRaccolte, [])) && m.carta == carta
      ensures var moves := PossibleMoves(NuovoStato(giocatore, tavolo, giocatore.carteMano,
                                                    giocatore.carteRaccolte, []));
              |moves| > 0 && carta == moves[scelta % |moves|].carta
    {
      var statoIniziale := NuovoStato(giocatore, tavolo, giocatore.carteMano, giocatore.carteRaccolte, []);
      var rootNode := RadiceEspansa(statoIniziale);
      NumeroMosse(statoIniziale);
      AlmenoUnaMossaPerCarta(statoIniziale, statoIniziale.carteMano);
      var moves := PossibleMoves(statoIniziale);
      var k := scelta % |moves|;
      assert rootNode.children[k] == rootNode.children[0 + k];
      var bestNode := rootNode.children[k];
      assert CampiDi(bestNode) == FiglioAtteso(statoIniziale, 1, rootNode, moves[k]);
      MosseLegali(statoIniziale, moves[k]);
      ApplicaMano(statoIniziale, moves[k]);
      carta := bestNode.state.lastMove.value.carta;
      assert carta == moves[k].carta;
    }
  }
}
