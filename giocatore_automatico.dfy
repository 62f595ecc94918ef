/** The scripted bot (`GiocatoreAutomatico`): it plays the first card of its hand and takes the
    first capture the capture finder offers. */
module AutoPlayer {
  import opened Cards
  import opened Lists
  import opened Players
  import opened Table
  import opened GameStates

  /** What one call of `gioca_mano` leaves behind: whether it captured, and the new hand, table,
      pile and sweep count. */
  datatype Esito = Esito(presa: bool, mano: seq<Carta>, tavolo: seq<Carta>, raccolte: seq<Carta>, scope: int)

  /** `gioca_mano` as written: the capture step runs while the played card is still in the
      hand, so the sweep test of `raccogli_carte` always sees a non-empty hand. */
  function Giocata(mano: seq<Carta>, tavolo: seq<Carta>, raccolte: seq<Carta>, scope: int): Esito
  {
    if mano == [] then Esito(false, mano, tavolo, raccolte, scope)
    else
      var carta := mano[0];
      var prese := PresePossibili(carta, tavolo);
      if prese != [] then
        var presa := prese[0];
        var resto := RemoveEach(tavolo, presa);
        Esito(true, RemoveFirst(mano, carta), resto, raccolte + presa + [carta],
              if |resto| == 0 && |mano| > 0 then scope + 1 else scope)
      else Esito(false, RemoveFirst(mano, carta), tavolo + [carta], raccolte, scope)
  }

  /** `gioca_mano` with the played card leaving the hand before the capture step, which is what
      the hand test of `raccogli_carte` is there for: no sweep is counted for the last card. */
  function GiocataCorretta(mano: seq<Carta>, tavolo: seq<Carta>, raccolte: seq<Carta>, scope: int): Esito
  {
    if mano == [] then Esito(false, mano, tavolo, raccolte, scope)
    else
      var carta := mano[0];
      var prese := PresePossibili(carta, tavolo);
      var nuovaMano := RemoveFirst(mano, carta);
      if prese != [] then
        var presa := prese[0];
        var resto := RemoveEach(tavolo, presa);
        Esito(true, nuovaMano, resto, raccolte + presa + [carta],
              if |resto| == 0 && |nuovaMano| > 0 then scope + 1 else scope)
      else Esito(false, nuovaMano, tavolo + [carta], raccolte, scope)
  }

  /** The first card of a hand is removed by removing the head. */
  lemma RimuoviPrima(mano: seq<Carta>)
    requires mano != []
    ensures RemoveFirst(mano, mano[0]) == mano[1..]
  {
  }

  /** An empty hand: nothing happens and no capture is reported. */
  lemma GiocataManoVuota(tavolo: seq<Carta>, raccolte: seq<Carta>, scope: int)
    ensures Giocata([], tavolo, raccolte, scope) == Esito(false, [], tavolo, raccolte, scope)
    ensures GiocataCorretta([], tavolo, raccolte, scope) == Esito(false, [], tavolo, raccolte, scope)
  {
  }

  /** The bot always plays its first card, and the hand loses exactly that card. */
  lemma {:induction false} GiocataPrimaCarta(mano: seq<Carta>, tavolo: seq<Carta>, raccolte: seq<Carta>, scope: int)
    requires mano != []
    ensures Giocata(mano, tavolo, raccolte, scope).mano == mano[1..]
    ensures |Giocata(mano, tavolo, raccolte, scope).mano| == |mano| - 1
  {
    RimuoviPrima(mano);
  }

  /** A capture takes the first capture offered: those cards leave the table and join the pile,
      the played card after them; a discard goes to the end of the table and leaves the pile
      alone. The result reports whether a capture was made. */
  lemma GiocataEffetti(mano: seq<Carta>, tavolo: seq<Carta>, raccolte: seq<Carta>, scope: int)
    requires mano != []
    ensures var e := Giocata(mano, tavolo, raccolte, scope);
            var prese := PresePossibili(mano[0], tavolo);
            && e.presa == (prese != [])
            && (prese != [] ==> e.tavolo == RemoveEach(tavolo, prese[0])
                                && e.raccolte == raccolte + prese[0] + [mano[0]])
            && (prese == [] ==> e.tavolo == tavolo + [mano[0]] && e.raccolte == raccolte && e.scope == scope)
  {
  }

  /** No card is lost or made: hand, table and pile together hold the same cards before and
      after the play. */
  lemma GiocataConserva(mano: seq<Carta>, tavolo: seq<Carta>, raccolte: seq<Carta>, scope: int)
    ensures var e := Giocata(mano, tavolo, raccolte, scope);
            multiset(e.mano) + multiset(e.tavolo) + multiset(e.raccolte)
              == multiset(mano) + multiset(tavolo) + multiset(raccolte)
  {
    if mano != [] {
      var carta := mano[0];
      var prese := PresePossibili(carta, tavolo);
      RemoveFirstMultiset(mano, carta);
      assert carta in multiset(mano);
      if prese != [] {
        PreseSommano(carta, tavolo);
        assert prese[0] in prese;
        RemoveEachMultiset(tavolo, prese[0]);
      }
    }
  }

  /** As written, a table-clearing capture always counts a sweep, the last card of the hand
      included. */
  lemma GiocataScopa(mano: seq<Carta>, tavolo: seq<Carta>, raccolte: seq<Carta>, scope: int)
    requires mano != []
    ensures var e := Giocata(mano, tavolo, raccolte, scope);
            e.scope == scope + (if e.presa && e.tavolo == [] then 1 else 0)
  {
  }

  /** The discrepancy: with the four of coins as the only card in hand and the four of swords as
      the only card on the table, the bot as written clears the table with its last card and is
      credited a sweep. */
  lemma ScopaUltimaCarta()
    ensures var e := Giocata([Carta(Denari, 4)], [Carta(Spade, 4)], [], 0);
            e.presa && e.mano == [] && e.tavolo == [] && e.scope == 1
    ensures GiocataCorretta([Carta(Denari, 4)], [Carta(Spade, 4)], [], 0).scope == 0
  {
    var tavolo := [Carta(Spade, 4)];
    var carta := Carta(Denari, 4);
    assert tavolo[1..] == [];
    assert Dirette(tavolo, 4) == [Carta(Spade, 4)];
    assert PresePossibili(carta, tavolo) == [[Carta(Spade, 4)]];
    assert RemoveFirst(tavolo, Carta(Spade, 4)) == [];
    assert RemoveEach(tavolo, [Carta(Spade, 4)]) == RemoveEach(RemoveFirst(tavolo, Carta(Spade, 4)), []);
  }

  /** The corrected play counts a sweep exactly when it captures, the table is then empty and
      cards remain in the hand. */
  lemma GiocataCorrettaScopa(mano: seq<Carta>, tavolo: seq<Carta>, raccolte: seq<Carta>, scope: int)
    requires mano != []
    ensures var e := GiocataCorretta(mano, tavolo, raccolte, scope);
            e.scope == scope + (if e.presa && e.tavolo == [] && e.mano != [] then 1 else 0)
            && e.mano == mano[1..]
  {
    RimuoviPrima(mano);
  }

  /** The corrected play is the search's own transition: for the state with this hand, table,
      pile and sweep count, `move` of the bot's move gives the same hand, table, pile and sweep
      count. */
  lemma GiocataCorrettaComeMove(s: ScopaGameState)
    requires s.carteMano != []
    ensures var prese := PresePossibili(s.carteMano[0], s.tavolo);
            var m := Mossa(s.carteMano[0], if prese != [] then prese[0] else []);
            var e := GiocataCorretta(s.carteMano, s.tavolo, s.carteRaccolteGiocatore, s.scope);
            var t := Applica(s, m);
            && t.carteMano == e.mano && t.tavolo == e.tavolo
            && t.carteRaccolteGiocatore == e.raccolte && t.scope == e.scope
  {
    var prese := PresePossibili(s.carteMano[0], s.tavolo);
    if prese != [] {
      PreseSommano(s.carteMano[0], s.tavolo);
      assert prese[0] in prese;
    }
  }

  /** `GiocatoreAutomatico`: a player driven by the script. */
  class GiocatoreAutomatico {
    const giocatore: Giocatore
    const nome: string

    constructor (nome: string)
      ensures fresh(giocatore) && this.nome == nome
      ensures giocatore.carteMano == [] && giocatore.carteRaccolte == [] && giocatore.scope == 0
    {
      giocatore := new Giocatore();
      this.nome := nome;
    }

    /** `gioca_mano` as written. */
    method GiocaMano(tavolo: Tavolo) returns (haFattoPresa: bool)
      modifies giocatore, tavolo
      ensures Esito(haFattoPresa, giocatore.carteMano, tavolo.carte, giocatore.carteRaccolte, giocatore.scope)
              == Giocata(old(giocatore.carteMano), old(tavolo.carte), old(giocatore.carteRaccolte), old(giocatore.scope))
    {
      if giocatore.carteMano == [] {
        return false;
      }
      var cartaDaGiocare := giocatore.carteMano[0];
      var presePossibili := Giocatore.CercaPresePossibili(cartaDaGiocare, tavolo.carte);
      haFattoPresa := false;
      if presePossibili != [] {
        giocatore.RaccogliCarte(cartaDaGiocare, presePossibili[0], tavolo);
        haFattoPresa := true;
      } else {
        tavolo.AggiungiCartaDaGiocatore(cartaDaGiocare);
      }
      giocatore.carteMano := RemoveFirst(giocatore.carteMano, cartaDaGiocare);
    }

    /** `gioca_mano` with the played card removed from the hand first. */
    method GiocaManoCorretta(tavolo: Tavolo) returns (haFattoPresa: bool)
      modifies giocatore, tavolo
      ensures Esito(haFattoPresa, giocatore.carteMano, tavolo.carte, giocatore.carteRaccolte, giocatore.scope)
              == GiocataCorretta(old(giocatore.carteMano), old(tavolo.carte), old(giocatore.carteRaccolte), old(giocatore.scope))
    {
      if giocatore.carteMano == [] {
        return false;
      }
      var cartaDaGiocare := giocatore.carteMano[0];
      var presePossibili := Giocatore.CercaPresePossibili(cartaDaGiocare, tavolo.carte);
      giocatore.carteMano := RemoveFirst(giocatore.carteMano, cartaDaGiocare);
      haFattoPresa := false;
      if presePossibili != [] {
        giocatore.RaccogliCarte(cartaDaGiocare, presePossibili[0], tavolo);
        haFattoPresa := true;
      } else {
        tavolo.AggiungiCartaDaGiocatore(cartaDaGiocare);
      }
    }
  }
}
