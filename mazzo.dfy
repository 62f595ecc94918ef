/** The 40-card deck (`Mazzo`). */
module Deck {
  import opened Cards
  import opened Lists

  /** The code `f"{valore}{seme}"` of the deck's `i`-th card: suit-major, ranks ascending. */
  function SiglaMazzo(i: nat): string
    requires i < 40
  {
    NatToString(i % 10 + 1) + [LettereSeme[i / 10]]
  }

  /** The card `Carta.da_sigla` builds from the `i`-th code; that code always parses. */
  function CartaMazzo(i: nat): (c: Carta)
    requires i < 40
    ensures c == Carta(Seme[LettereSeme[i / 10]], i % 10 + 1)
  {
    DaSiglaRoundTrip(i % 10 + 1, LettereSeme[i / 10]);
    DaSigla(SiglaMazzo(i)).value
  }

  /** `crea_mazzo`: `[Carta.da_sigla(f"{v}{s}") for s in Carta.Seme for v in range(1, 11)]`. */
  function CreaMazzo(): (d: seq<Carta>)
    ensures |d| == 40
    ensures forall i :: 0 <= i < 40 ==> d[i] == Carta(Seme[LettereSeme[i / 10]], i % 10 + 1)
  {
    seq(40, i requires 0 <= i < 40 => CartaMazzo(i))
  }

  lemma OccursOnce<T>(s: seq<T>, x: T, k: nat)
    requires k < |s| && s[k] == x
    requires forall i :: 0 <= i < |s| && i != k ==> s[i] != x
    ensures multiset(s)[x] == 1
  {
    assert s == s[..k] + [s[k]] + s[k + 1..];
    assert x !in s[..k];
    assert x !in s[k + 1..];
  }

  /** Every card of the deck is one of the four suits with a rank in 1..10. */
  lemma MazzoSoloCarteValide()
    ensures forall c :: c in CreaMazzo() ==> c.seme in Seme.Values && 1 <= c.valore <= 10
  {
    var d := CreaMazzo();
    forall c | c in d ensures c.seme in Seme.Values && 1 <= c.valore <= 10 {
      var i :| 0 <= i < 40 && d[i] == c;
      assert LettereSeme[i / 10] in Seme;
    }
  }

  /** Every suit letter C, B, D, S with every rank 1..10 occurs exactly once in the deck. */
  lemma MazzoOgniCartaUnaVolta(l: char, v: int)
    requires l in LettereSeme && 1 <= v <= 10
    ensures multiset(CreaMazzo())[Carta(Seme[l], v)] == 1
  {
    var d := CreaMazzo();
    var p :| 0 <= p < 4 && LettereSeme[p] == l;
    var k := p * 10 + v - 1;
    assert k / 10 == p && k % 10 == v - 1;
    forall i | 0 <= i < 40 && i != k ensures d[i] != Carta(Seme[l], v) {
      if i / 10 == p {
        assert i % 10 != v - 1;
      } else {
        assert Seme[LettereSeme[i / 10]] != Seme[l];
      }
    }
    OccursOnce(d, Carta(Seme[l], v), k);
  }

  /** A deck: the list of cards not yet dealt. */
  class Mazzo {
    var carte: seq<Carta>

    /** The deck as `crea_mazzo` builds it, before `mescola` shuffles it. */
    constructor ()
      ensures carte == CreaMazzo()
    {
      carte := CreaMazzo();
    }

    /** `elimina_carta`: `list.remove` whose `ValueError` is caught and only printed. */
    method EliminaCarta(carta: Carta)
      modifies this`carte
      ensures carte == RemoveFirst(old(carte), carta)
      ensures carta in old(carte) ==> |carte| == |old(carte)| - 1
      ensures carta !in old(carte) ==> carte == old(carte)
    {
      if carta in carte {
        RemoveFirstPresent(carte, carta);
      } else {
        RemoveFirstAbsent(carte, carta);
      }
      carte := RemoveFirst(carte, carta);
    }
  }
}
