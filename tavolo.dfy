/** The table (`Tavolo`): the face-up cards, in the order they were put down. */
module Table {
  import opened Cards
  import opened Lists
  import opened Deck

  class Tavolo {
    var carte: seq<Carta>

    constructor ()
      ensures carte == []
    {
      carte := [];
    }

    /** `aggiungi_carta_da_mazzo`: the card goes to the end of the table and one copy
        of it leaves the deck. */
    method AggiungiCartaDaMazzo(carta: Carta, mazzo: Mazzo)
      modifies this`carte, mazzo`carte
      ensures carte == old(carte) + [carta]
      ensures mazzo.carte == RemoveFirst(old(mazzo.carte), carta)
      ensures carta in old(mazzo.carte) ==>
                multiset(carte) + multiset(mazzo.carte) == old(multiset(carte) + multiset(mazzo.carte))
    {
      carte := carte + [carta];
      RemoveFirstMultiset(mazzo.carte, carta);
      mazzo.EliminaCarta(carta);
    }

    /** `aggiungi_carta_da_giocatore`: a discarded card goes to the end of the table. */
    method AggiungiCartaDaGiocatore(carta: Carta)
      modifies this`carte
      ensures carte == old(carte) + [carta]
    {
      carte := carte + [carta];
    }

    /** `elimina_carta`: the first equal card leaves the table; an absent card is only reported. */
    method EliminaCarta(carta: Carta)
      modifies this`carte
      ensures carte == RemoveFirst(old(carte), carta)
      ensures carta in old(carte) ==> |carte| == |old(carte)| - 1
      ensures carta !in old(carte) ==> carte == old(carte)
    {
      if carta in carte {
        RemoveFirstPresent(carte, carta);
      } else {
        RemoveFirstAbsent(carte, carta);
      }
      carte := RemoveFirst(carte, carta);
    }
  }
}
