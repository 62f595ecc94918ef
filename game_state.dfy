/** The search's game state (`ScopaGameState`): move generation and ordering, the move and
    discard scores, the copy-then-change transition and the state evaluation. */
module GameStates {
  import opened Wrappers
  import opened Cards
  import opened Lists
  import opened Sorting
  import opened Players
  import opened Table

  /** A move `(carta, presa)`; an empty `presa` is a discard. */
  datatype Mossa = Mossa(carta: Carta, presa: seq<Carta>)

  /** A state. `scope` is the sweep counter of the state's own player object: `move`
      deep-copies the whole state, that player included, so each state carries its own. */
  datatype ScopaGameState = ScopaGameState(
    scope: int,
    tavolo: seq<Carta>,
    carteMano: seq<Carta>,
    carteRaccolteGiocatore: seq<Carta>,
    carteRaccolteAvversario: seq<Carta>,
    lastMove: Option<Mossa>)

  /** `ScopaGameState.__init__`: a snapshot of the player's sweep count and of the collections,
      with no last move. */
  function NuovoStato(giocatore: Giocatore, tavolo: Tavolo, carteMano: seq<Carta>,
                      raccolteGiocatore: seq<Carta>, raccolteAvversario: seq<Carta>): (s: ScopaGameState)
    reads giocatore, tavolo
    ensures s.lastMove == None && s.scope == giocatore.scope && s.tavolo == tavolo.carte
    ensures s.carteMano == carteMano && s.carteRaccolteGiocatore == raccolteGiocatore
    ensures s.carteRaccolteAvversario == raccolteAvversario
  {
    ScopaGameState(giocatore.scope, tavolo.carte, carteMano, raccolteGiocatore, raccolteAvversario, None)
  }

  // ---- scores ----

  /** The cards of rank 7, 6 or 1. */
  function ContaAlte(presa: seq<Carta>): (r: nat)
    ensures r <= |presa|
  {
    if presa == [] then 0
    else (if presa[0].valore in [7, 6, 1] then 1 else 0) + ContaAlte(presa[1..])
  }

  /** `_valuta_presa`: 50 for the seven of coins, 20 per coin card, 40 when the capture takes the
      whole table, 15 per card of rank 7, 6 or 1, and 10 per card. */
  function ValutaPresa(s: ScopaGameState, presa: seq<Carta>): (score: int)
    ensures 10 * |presa| <= score <= 90 + 45 * |presa|
    ensures presa != [] ==> score >= 10
  {
    (if HaSettebello(presa) then 50 else 0)
    + ContaDenari(presa) * 20
    + (if |s.tavolo| == |presa| then 40 else 0)
    + ContaAlte(presa) * 15
    + |presa| * 10
  }

  /** `_valuta_scarto`: discarding strategic cards is penalised, discarding low non-coin cards
      is favoured. */
  function ValutaScarto(carta: Carta): (score: int)
    ensures -55 <= score <= 10
    ensures score == 10 <==> carta.seme != Denari && carta.valore <= 4 && carta.valore != 1
    ensures carta.seme == Denari ==> score <= -30
  {
    (if carta.seme == Denari then -30 else 0)
    + (if carta.valore == 7 then -25 else 0)
    + (if carta.valore in [6, 1] then -15 else 0)
    + (if carta.valore <= 4 && carta.seme != Denari then 10 else 0)
  }

  /** `_valuta_mossa`: the capture score for a capture, the discard score for a discard. */
  function ValutaMossa(s: ScopaGameState, m: Mossa): (score: int)
    ensures m.presa != [] ==> score >= 10
    ensures m.presa == [] ==> score <= 10
  {
    if m.presa != [] then ValutaPresa(s, m.presa) else ValutaScarto(m.carta)
  }

  /** The sort keys of `get_possible_moves`. */
  function ChiavePresa(s: ScopaGameState): seq<Carta> -> int
  {
    p => ValutaPresa(s, p)
  }

  function ChiaveMossa(s: ScopaGameState): Mossa -> int
  {
    m => ValutaMossa(s, m)
  }

  // ---- move generation ----

  /** The moves of one hand card: one per capture, best capture first, or the discard. */
  function MosseDi(s: ScopaGameState, carta: Carta): seq<Mossa>
  {
    var prese := PresePossibili(carta, s.tavolo);
    if prese == [] then [Mossa(carta, [])]
    else
      var ordinate := SortDesc(prese, ChiavePresa(s));
      seq(|ordinate|, i requires 0 <= i < |ordinate| => Mossa(carta, ordinate[i]))
  }

  /** The moves in generation order, hand card by hand card. */
  function Generate(s: ScopaGameState, mano: seq<Carta>): seq<Mossa>
  {
    if mano == [] then [] else Generate(s, mano[..|mano| - 1]) + MosseDi(s, mano[|mano| - 1])
  }

  /** What `get_possible_moves` returns. */
  function PossibleMoves(s: ScopaGameState): seq<Mossa>
  {
    SortDesc(Generate(s, s.carteMano), ChiaveMossa(s))
  }

  /** `sum(max(1, len(captures(c))) for c in mano)`. */
  function ContaMosse(s: ScopaGameState, mano: seq<Carta>): nat
  {
    if mano == [] then 0
    else
      var ultima := mano[|mano| - 1];
      ContaMosse(s, mano[..|mano| - 1])
      + (if PresePossibili(ultima, s.tavolo) == [] then 1 else |PresePossibili(ultima, s.tavolo)|)
  }

  /** `get_possible_moves`. */
  method GetPossibleMoves(s: ScopaGameState) returns (mosse: seq<Mossa>)
    ensures mosse == PossibleMoves(s)
  {
    var generate: seq<Mossa> := [];
    for i := 0 to |s.carteMano|
      invariant generate == Generate(s, s.carteMano[..i])
    {
      var mosseCarta := MosseCarta(s, s.carteMano[i]);
      generate := generate + mosseCarta;
      GenerateStep(s, s.carteMano, i);
    }
    assert s.carteMano[..|s.carteMano|] == s.carteMano;
    mosse := SortDesc(generate, ChiaveMossa(s));
  }

  /** The body of the generation loop for one hand card: its captures, best first, each as a
      move, or its discard when it has none. */
  method MosseCarta(s: ScopaGameState, carta: Carta) returns (mosse: seq<Mossa>)
    ensures mosse == MosseDi(s, carta)
  {
    mosse := [];
    var presePossibili := Giocatore.CercaPresePossibili(carta, s.tavolo);
    if presePossibili != [] {
      var preseOrdinate := SortDesc(presePossibili, ChiavePresa(s));
      ghost var mosseCarta := MosseDi(s, carta);
      assert |mosseCarta| == |preseOrdinate|;
      for j := 0 to |preseOrdinate|
        invariant mosse == mosseCarta[..j]
      {
        assert mosseCarta[j] == Mossa(carta, preseOrdinate[j]);
        assert mosseCarta[..j + 1] == mosseCarta[..j] + [mosseCarta[j]];
        mosse := mosse + [Mossa(carta, preseOrdinate[j])];
      }
      assert mosseCarta[..|preseOrdinate|] == mosseCarta;
    } else {
      mosse := [Mossa(carta, [])];
    }
  }

  /** One step of the generation loop: the moves of the next hand card come after those of
      the cards before it. */
  lemma GenerateStep(s: ScopaGameState, mano: seq<Carta>, i: nat)
    requires i < |mano|
    ensures Generate(s, mano[..i + 1]) == Generate(s, mano[..i]) + MosseDi(s, mano[i])
  {
    assert mano[..i + 1][..i] == mano[..i];
  }

  lemma {:induction false} GenerateLength(s: ScopaGameState, mano: seq<Carta>)
    ensures |Generate(s, mano)| == ContaMosse(s, mano)
  {
    if mano != [] {
      GenerateLength(s, mano[..|mano| - 1]);
      SortDescLength(PresePossibili(mano[|mano| - 1], s.tavolo), ChiavePresa(s));
    }
  }

  /** One move per capture of each hand card, or one discard for a card without captures. */
  lemma NumeroMosse(s: ScopaGameState)
    ensures |PossibleMoves(s)| == ContaMosse(s, s.carteMano)
  {
    GenerateLength(s, s.carteMano);
    SortDescLength(Generate(s, s.carteMano), ChiaveMossa(s));
  }

  predicate MossaDi(s: ScopaGameState, mano: seq<Carta>, m: Mossa)
  {
    && m.carta in mano
    && (PresePossibili(m.carta, s.tavolo) == [] ==> m.presa == [])
    && (PresePossibili(m.carta, s.tavolo) != [] ==> m.presa in PresePossibili(m.carta, s.tavolo))
  }

  /** The moves of one card are its captures, or its discard when it has none. */
  lemma MosseDiContenuto(s: ScopaGameState, carta: Carta, m: Mossa)
    ensures m in MosseDi(s, carta) <==>
              && m.carta == carta
              && (PresePossibili(carta, s.tavolo) == [] ==> m.presa == [])
              && (PresePossibili(carta, s.tavolo) != [] ==> m.presa in PresePossibili(carta, s.tavolo))
  {
    var prese := PresePossibili(carta, s.tavolo);
    if prese != [] {
      var ordinate := SortDesc(prese, ChiavePresa(s));
      SortDescMembership(prese, ChiavePresa(s), m.presa);
      if m.carta == carta && m.presa in prese {
        var i :| 0 <= i < |ordinate| && ordinate[i] == m.presa;
        assert MosseDi(s, carta)[i] == m;
      }
    }
  }

  lemma {:induction false} GenerateContenuto(s: ScopaGameState, mano: seq<Carta>, m: Mossa)
    ensures m in Generate(s, mano) <==> MossaDi(s, mano, m)
  {
    if mano != [] {
      var ultima := mano[|mano| - 1];
      var prima := mano[..|mano| - 1];
      GenerateContenuto(s, prima, m);
      MosseDiContenuto(s, ultima, m);
      assert Generate(s, mano) == Generate(s, prima) + MosseDi(s, ultima);
      assert m in Generate(s, mano) <==> m in Generate(s, prima) || m in MosseDi(s, ultima);
      assert mano == prima + [ultima];
      assert m.carta in mano <==> m.carta in prima || m.carta == ultima;
    }
  }

  /** A move is offered exactly when its card is in the hand and its capture is one the capture
      finder returns for that card, or it is the discard of a card with no capture. */
  lemma MosseContenuto(s: ScopaGameState, m: Mossa)
    ensures m in PossibleMoves(s) <==> MossaDi(s, s.carteMano, m)
  {
    SortDescMembership(Generate(s, s.carteMano), ChiaveMossa(s), m);
    GenerateContenuto(s, s.carteMano, m);
  }

  /** The moves come in non-increasing `_valuta_mossa` order, and moves of equal score keep
      their generation order. */
  lemma MosseOrdinate(s: ScopaGameState)
    ensures forall i, j :: 0 <= i < j < |PossibleMoves(s)| ==>
              ValutaMossa(s, PossibleMoves(s)[i]) >= ValutaMossa(s, PossibleMoves(s)[j])
    ensures forall k :: WithKey(PossibleMoves(s), ChiaveMossa(s), k)
                     == WithKey(Generate(s, s.carteMano), ChiaveMossa(s), k)
  {
    SortDescSorted(Generate(s, s.carteMano), ChiaveMossa(s));
    forall k ensures WithKey(PossibleMoves(s), ChiaveMossa(s), k)
                  == WithKey(Generate(s, s.carteMano), ChiaveMossa(s), k) {
      SortDescStable(Generate(s, s.carteMano), ChiaveMossa(s), k);
    }
  }

  /** A discard scoring below 10 never comes before a capture. */
  lemma CattureAvantiScarti(s: ScopaGameState, i: nat, j: nat)
    requires i < j < |PossibleMoves(s)|
    requires PossibleMoves(s)[i].presa == [] && PossibleMoves(s)[j].presa != []
    ensures ValutaMossa(s, PossibleMoves(s)[i]) == 10 == ValutaMossa(s, PossibleMoves(s)[j])
  {
    MosseOrdinate(s);
  }

  // ---- the transition ----

  /** The moves `move` accepts without raising: the card is in the hand and every captured card
      can be taken off the table. */
  predicate Legale(s: ScopaGameState, m: Mossa)
  {
    m.carta in s.carteMano && multiset(m.presa) <= multiset(s.tavolo)
  }

  /** Every generated move is legal. */
  lemma MosseLegali(s: ScopaGameState, m: Mossa)
    requires m in PossibleMoves(s)
    ensures Legale(s, m)
  {
    MosseContenuto(s, m);
    PreseSommano(m.carta, s.tavolo);
  }

  /** The state `move` returns for a legal move: a copy whose hand has lost the card; a capture
      moves the captured cards and then the played card to the pile and may count a sweep; a
      discard puts the card at the end of the table. */
  function Applica(s: ScopaGameState, m: Mossa): ScopaGameState
  {
    var mano := RemoveFirst(s.carteMano, m.carta);
    if m.presa != [] then
      var tavolo := RemoveEach(s.tavolo, m.presa);
      s.(carteMano := mano, tavolo := tavolo,
         carteRaccolteGiocatore := s.carteRaccolteGiocatore + m.presa + [m.carta],
         scope := if |tavolo| == 0 && |mano| > 0 then s.scope + 1 else s.scope,
         lastMove := Some(m))
    else
      s.(carteMano := mano, tavolo := s.tavolo + [m.carta], lastMove := Some(m))
  }

  /** `move`: copy the state, then change the copy step by step. */
  method Move(s: ScopaGameState, mossa: Mossa) returns (nuovoStato: ScopaGameState)
    requires Legale(s, mossa)
    ensures nuovoStato == Applica(s, mossa)
  {
    nuovoStato := s;
    nuovoStato := nuovoStato.(carteMano := RemoveFirst(nuovoStato.carteMano, mossa.carta));
    if mossa.presa != [] {
      for i := 0 to |mossa.presa|
        invariant nuovoStato == s.(carteMano := RemoveFirst(s.carteMano, mossa.carta),
                                   tavolo := RemoveEach(s.tavolo, mossa.presa[..i]),
                                   carteRaccolteGiocatore := s.carteRaccolteGiocatore + mossa.presa[..i])
      {
        assert mossa.presa[..i + 1] == mossa.presa[..i] + [mossa.presa[i]];
        RemoveEachSnoc(s.tavolo, mossa.presa[..i], mossa.presa[i]);
        nuovoStato := nuovoStato.(tavolo := RemoveFirst(nuovoStato.tavolo, mossa.presa[i]),
                                  carteRaccolteGiocatore := nuovoStato.carteRaccolteGiocatore + [mossa.presa[i]]);
      }
      assert mossa.presa[..|mossa.presa|] == mossa.presa;
      nuovoStato := nuovoStato.(carteRaccolteGiocatore := nuovoStato.carteRaccolteGiocatore + [mossa.carta]);
      if |nuovoStato.tavolo| == 0 && |nuovoStato.carteMano| > 0 {
        nuovoStato := nuovoStato.(scope := nuovoStato.scope + 1);
      }
    } else {
      nuovoStato := nuovoStato.(tavolo := nuovoStato.tavolo + [mossa.carta]);
    }
    nuovoStato := nuovoStato.(lastMove := Some(mossa));
  }

  /** The hand loses exactly the played card; the opponent's pile is untouched; the copy
      remembers the move. */
  lemma ApplicaMano(s: ScopaGameState, m: Mossa)
    requires Legale(s, m)
    ensures multiset(Applica(s, m).carteMano) == multiset(s.carteMano) - multiset{m.carta}
    ensures |Applica(s, m).carteMano| == |s.carteMano| - 1
    ensures Applica(s, m).carteRaccolteAvversario == s.carteRaccolteAvversario
    ensures Applica(s, m).lastMove == Some(m)
  {
    RemoveFirstMultiset(s.carteMano, m.carta);
    RemoveFirstPresent(s.carteMano, m.carta);
  }

  /** A capture: the captured cards leave the table, and the pile gains them followed by the
      played card. */
  lemma ApplicaCattura(s: ScopaGameState, m: Mossa)
    requires Legale(s, m) && m.presa != []
    ensures multiset(Applica(s, m).tavolo) == multiset(s.tavolo) - multiset(m.presa)
    ensures |Applica(s, m).tavolo| == |s.tavolo| - |m.presa|
    ensures Applica(s, m).carteRaccolteGiocatore == s.carteRaccolteGiocatore + m.presa + [m.carta]
  {
    RemoveEachMultiset(s.tavolo, m.presa);
    RemoveEachLength(s.tavolo, m.presa);
  }

  /** A discard: the card goes to the end of the table and the pile and sweep count stay. */
  lemma ApplicaScarto(s: ScopaGameState, m: Mossa)
    requires Legale(s, m) && m.presa == []
    ensures Applica(s, m).tavolo == s.tavolo + [m.carta]
    ensures Applica(s, m).carteRaccolteGiocatore == s.carteRaccolteGiocatore
    ensures Applica(s, m).scope == s.scope
  {
  }

  /** A sweep is credited on the copy exactly when the move captures the whole table and
      the hand still holds a card after the played one leaves it. */
  lemma ApplicaScopa(s: ScopaGameState, m: Mossa)
    requires Legale(s, m)
    ensures Applica(s, m).scope ==
              s.scope + (if m.presa != [] && multiset(m.presa) == multiset(s.tavolo)
                                           && |s.carteMano| >= 2 then 1 else 0)
  {
    RemoveFirstPresent(s.carteMano, m.carta);
    if m.presa != [] {
      RemoveEachMultiset(s.tavolo, m.presa);
      var t := RemoveEach(s.tavolo, m.presa);
      assert |t| == 0 <==> multiset(t) == multiset{};
    }
  }

  /** No card appears or vanishes: hand, table and pile together hold the same cards. */
  lemma ApplicaConserva(s: ScopaGameState, m: Mossa)
    requires Legale(s, m)
    ensures var t := Applica(s, m);
            multiset(t.carteMano) + multiset(t.tavolo) + multiset(t.carteRaccolteGiocatore)
            == multiset(s.carteMano) + multiset(s.tavolo) + multiset(s.carteRaccolteGiocatore)
  {
    RemoveFirstMultiset(s.carteMano, m.carta);
    RemoveEachMultiset(s.tavolo, m.presa);
  }

  // ---- evaluation ----

  /** The evaluator's primiera table `{7: 21, 6: 18, 1: 16, 5: 15, 4: 14}`, 0 for other ranks. */
  function ValorePrimieraStima(valore: int): (r: int)
    ensures 0 <= r <= 21
  {
    if valore == 7 then 21
    else if valore == 6 then 18
    else if valore == 1 then 16
    else if valore == 5 then 15
    else if valore == 4 then 14
    else 0
  }

  /** `max(primiera_values.get(c.valore, 0) for c in carte)` of a non-empty list, 0 for none. */
  function MassimoStima(carte: seq<Carta>): (r: int)
    ensures 0 <= r <= 21
    ensures forall c :: c in carte ==> ValorePrimieraStima(c.valore) <= r
    ensures carte != [] ==> exists c :: c in carte && ValorePrimieraStima(c.valore) == r
  {
    if carte == [] then 0
    else
      var resto := MassimoStima(carte[1..]);
      var v := ValorePrimieraStima(carte[0].valore);
      if carte[1..] == [] || v >= resto then v else resto
  }

  /** The primiera part of `evaluate_state` for one suit. */
  function TermineSeme(carte: seq<Carta>, seme: string): (r: real)
    ensures 0.0 <= r <= 10.5
  {
    var carteSeme := FiltraSeme(carte, seme);
    if carteSeme != [] then (MassimoStima(carteSeme) as real) * 0.5 else 0.0
  }

  /** The weighted sum `evaluate_state` divides by 150. */
  function PunteggioGrezzo(s: ScopaGameState): real
  {
    var denari := ContaDenari(s.carteRaccolteGiocatore);
    (s.scope * 15) as real
    + (denari * (if denari >= 5 then 8 else 5)) as real
    + (if HaSettebello(s.carteRaccolteGiocatore) then 20.0 else 0.0)
    + TermineSeme(s.carteRaccolteGiocatore, Bastoni) + TermineSeme(s.carteRaccolteGiocatore, Coppe)
    + TermineSeme(s.carteRaccolteGiocatore, Denari) + TermineSeme(s.carteRaccolteGiocatore, Spade)
    + (if |s.tavolo| < 3 then 5.0 else 0.0)
  }

  /** `evaluate_state`: the weighted sum over 150, clamped to [-1, 1]; never negative while
      the sweep count is not. */
  function EvaluateState(s: ScopaGameState): (r: real)
    ensures -1.0 <= r <= 1.0
    ensures s.scope >= 0 ==> 0.0 <= r
  {
    var x := PunteggioGrezzo(s) / 150.0;
    if x < -1.0 then -1.0 else if x > 1.0 then 1.0 else x
  }

  /** With no sweep and at most the deck's ten coin cards, the sum stays below 150, so the
      value is the plain quotient. */
  lemma EvaluateSenzaTaglio(s: ScopaGameState)
    requires s.scope == 0 && ContaDenari(s.carteRaccolteGiocatore) <= 10
    ensures EvaluateState(s) == PunteggioGrezzo(s) / 150.0
    ensures EvaluateState(s) < 1.0
  {
    var denari := ContaDenari(s.carteRaccolteGiocatore);
    assert denari * (if denari >= 5 then 8 else 5) <= 80;
  }

  /** One more sweep never lowers the evaluation. */
  lemma EvaluateMonotonaScope(s: ScopaGameState)
    ensures EvaluateState(s) <= EvaluateState(s.(scope := s.scope + 1))
  {
    assert PunteggioGrezzo(s.(scope := s.scope + 1)) == PunteggioGrezzo(s) + 15.0;
  }
}
