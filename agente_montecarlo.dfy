/** The heuristic agent (`AgenteMontecarlo`): despite its name it runs no random playout; each
    "simulation" values the card's best capture on a copy of the table, so every simulation
    adds the same amount. */
module HeuristicAgent {
  import opened Wrappers
  import opened Cards
  import opened Lists
  import opened Players
  import opened Table

  /** What one simulation of `valuta_carta` adds: nothing without a capture; otherwise the size
      plus the rank sum of the first capture maximal by (size, rank sum), and 5 more when that
      capture takes the whole table. */
  function ValoreSimulazione(carta: Carta, tavolo: seq<Carta>): int
  {
    var prese := PresePossibili(carta, tavolo);
    if prese == [] then 0
    else
      var best := MigliorPresa(prese);
      |best| + Somma(best) + (if |tavolo| - |best| == 0 then 5 else 0)
  }

  /** The value of a card: with no capture it is 0; with one, the best capture beats no other
      capture, its rank sum is the played card's rank, and the 5-point bonus is given exactly
      when taking it leaves the table empty. */
  lemma ValoreSimulazioneCasi(carta: Carta, tavolo: seq<Carta>)
    ensures PresePossibili(carta, tavolo) == [] ==> ValoreSimulazione(carta, tavolo) == 0
    ensures var prese := PresePossibili(carta, tavolo);
            prese != [] ==>
              var best := MigliorPresa(prese);
              && best in prese
              && (forall p :: p in prese ==> !ChiavePiuGrande(p, best))
              && ValoreSimulazione(carta, tavolo)
                 == |best| + carta.valore + (if RemoveEach(tavolo, best) == [] then 5 else 0)
  {
    var prese := PresePossibili(carta, tavolo);
    if prese != [] {
      var best := MigliorPresa(prese);
      MigliorPresaMassima(prese);
      forall p | p in prese ensures !ChiavePiuGrande(p, best) {
        var j :| 0 <= j < |prese| && prese[j] == p;
      }
      PreseSommano(carta, tavolo);
      RemoveEachLength(tavolo, best);
    }
  }

  /** For a card of non-negative rank the value is 0 exactly when the card captures nothing. */
  lemma ValoreNulloSenzaPrese(carta: Carta, tavolo: seq<Carta>)
    requires carta.valore >= 0
    ensures ValoreSimulazione(carta, tavolo) == 0 <==> PresePossibili(carta, tavolo) == []
  {
    var prese := PresePossibili(carta, tavolo);
    if prese != [] {
      PreseSommano(carta, tavolo);
      assert MigliorPresa(prese) in prese;
      RemoveEachLength(tavolo, MigliorPresa(prese));
    }
  }

  /** `max(xs, key=f)`: the first element of `s` whose key no element exceeds. */
  function PrimoMassimo<T>(s: seq<T>, f: T -> int): (m: T)
    requires s != []
    ensures m in s
  {
    if |s| == 1 then s[0]
    else
      var m := PrimoMassimo(s[..|s| - 1], f);
      var ultimo := s[|s| - 1];
      if f(ultimo) > f(m) then ultimo else m
  }

  /** The element found has the largest key, and every element before its first occurrence has
      a smaller key: of equal keys, the earliest wins. */
  lemma {:induction false} PrimoMassimoProprieta<T>(s: seq<T>, f: T -> int)
    requires s != []
    ensures forall j :: 0 <= j < |s| ==> f(s[j]) <= f(PrimoMassimo(s, f))
    ensures exists k :: 0 <= k < |s| && s[k] == PrimoMassimo(s, f) &&
              forall j :: 0 <= j < k ==> f(s[j]) < f(PrimoMassimo(s, f))
  {
    var best := PrimoMassimo(s, f);
    if |s| == 1 {
      assert s[0] == best;
    } else {
      var prima := s[..|s| - 1];
      PrimoMassimoProprieta(prima, f);
      var m := PrimoMassimo(prima, f);
      var k :| 0 <= k < |prima| && prima[k] == m && forall j :: 0 <= j < k ==> f(prima[j]) < f(m);
      forall j | 0 <= j < |s| - 1 ensures s[j] == prima[j] {
      }
      if f(s[|s| - 1]) > f(m) {
        var w := |s| - 1;
        assert s[w] == best;
      } else {
        assert s[k] == best;
      }
    }
  }

  /** Scanning one more element: it replaces the best so far only when its key is larger. */
  lemma PrimoMassimoPasso<T>(s: seq<T>, i: nat, f: T -> int)
    requires 0 < i < |s|
    ensures PrimoMassimo(s[..i + 1], f)
         == if f(s[i]) > f(PrimoMassimo(s[..i], f)) then s[i] else PrimoMassimo(s[..i], f)
  {
    assert s[..i + 1][..i] == s[..i];
  }

  /** The card the agent would pick without the dictionary error: the first card of the hand of
      largest value. */
  function MigliorCarta(mano: seq<Carta>, tavolo: seq<Carta>): (c: Carta)
    requires mano != []
    ensures c in mano
  {
    PrimoMassimo(mano, c => ValoreSimulazione(c, tavolo))
  }

  /** The chosen card has the largest value in the hand, and every card before its first
      occurrence has a smaller one. */
  lemma MigliorCartaMassima(mano: seq<Carta>, tavolo: seq<Carta>)
    requires mano != []
    ensures forall j :: 0 <= j < |mano| ==>
              ValoreSimulazione(mano[j], tavolo) <= ValoreSimulazione(MigliorCarta(mano, tavolo), tavolo)
    ensures exists k :: 0 <= k < |mano| && mano[k] == MigliorCarta(mano, tavolo) &&
              forall j :: 0 <= j < k ==>
                ValoreSimulazione(mano[j], tavolo) < ValoreSimulazione(MigliorCarta(mano, tavolo), tavolo)
  {
    PrimoMassimoProprieta(mano, c => ValoreSimulazione(c, tavolo));
  }

  /** Scanning one more card: it replaces the best so far only when its value is larger. */
  lemma MigliorCartaPasso(mano: seq<Carta>, i: nat, tavolo: seq<Carta>)
    requires 0 < i < |mano|
    ensures MigliorCarta(mano[..i + 1], tavolo)
         == if ValoreSimulazione(mano[i], tavolo) > ValoreSimulazione(MigliorCarta(mano[..i], tavolo), tavolo)
            then mano[i] else MigliorCarta(mano[..i], tavolo)
  {
    PrimoMassimoPasso(mano, i, c => ValoreSimulazione(c, tavolo));
  }

  /** One more simulation adds one more copy of the value. */
  lemma Accumula(totale: int, i: nat, v: int)
    requires totale == i * v
    ensures totale + v == (i + 1) * v
  {
  }

  /** Scaling by the number of simulations and dividing back gives the value itself. */
  lemma MediaEsatta(totale: int, n: nat, v: int)
    requires n > 0 && totale == n * v
    ensures totale as real / n as real == v as real
  {
    assert totale as real == n as real * v as real;
  }

  /** `AgenteMonteCarlo` of the heuristic agent: the player it plays for and its fixed number of
      simulations. */
  class AgenteMonteCarlo {
    const giocatore: Giocatore
    const simulazioni: nat := 100

    constructor (giocatore: Giocatore)
      ensures this.giocatore == giocatore
    {
      this.giocatore := giocatore;
    }

    /** `valuta_carta`: the average over the simulations, each on a fresh copy of the table, is
        the value of one simulation; the caller's table is not touched (no `modifies`). */
    method ValutaCarta(carta: Carta, tavolo: Tavolo) returns (punteggioMedio: real)
      ensures punteggioMedio == ValoreSimulazione(carta, tavolo.carte) as real
    {
      var punteggiTotali := 0;
      ghost var valore := ValoreSimulazione(carta, tavolo.carte);
      for i := 0 to simulazioni
        invariant punteggiTotali == i * valore
      {
        var punteggio := Simulazione(carta, tavolo);
        Accumula(punteggiTotali, i, valore);
        punteggiTotali := punteggiTotali + punteggio;
      }
      MediaEsatta(punteggiTotali, simulazioni, valore);
      punteggioMedio := punteggiTotali as real / simulazioni as real;
    }

    /** The body of the simulation loop of `valuta_carta`: the table is copied into a fresh one
        and the best capture on the copy is valued. */
    method Simulazione(carta: Carta, tavolo: Tavolo) returns (punteggio: int)
      ensures punteggio == ValoreSimulazione(carta, tavolo.carte)
    {
      var tavoloSimulato := new Tavolo();
      tavoloSimulato.carte := tavolo.carte;
      var presePossibili := Giocatore.CercaPresePossibili(carta, tavoloSimulato.carte);
      punteggio := 0;
      if presePossibili != [] {
        var migliorPresa := MigliorPresa(presePossibili);
        var punteggioPresa := |migliorPresa| + Somma(migliorPresa);
        punteggio := punteggio + punteggioPresa;
        if |tavoloSimulato.carte| - |migliorPresa| == 0 {
          punteggio := punteggio + 5;
        }
      }
    }

    /** `scegli_mossa` as written: no card gives `None`, a single card is returned; with two or
        more cards the first store into the dictionary keyed by `Carta` fails, because `Carta`
        defines equality without a hash. */
    method ScegliMossa(tavolo: Tavolo) returns (r: Result<Option<Carta>>)
      ensures giocatore.carteMano == [] ==> r == Ok(None)
      ensures |giocatore.carteMano| == 1 ==> r == Ok(Some(giocatore.carteMano[0]))
      ensures |giocatore.carteMano| >= 2 ==> r == Err(TypeError)
    {
      var mossePossibili := giocatore.carteMano;
      if mossePossibili == [] {
        return Ok(None);
      }
      if |mossePossibili| == 1 {
        return Ok(Some(mossePossibili[0]));
      }
      var punteggioMedio := ValutaCarta(mossePossibili[0], tavolo);
      return Err(TypeError);
    }

    /** `scegli_mossa` with a hashable card: the first card of the hand of largest value, found
        by the same first-maximum scan `max` makes over the dictionary's insertion order. */
    method ScegliMossaCorretta(tavolo: Tavolo) returns (r: Option<Carta>)
      ensures giocatore.carteMano == [] ==> r == None
      ensures giocatore.carteMano != [] ==> r == Some(MigliorCarta(giocatore.carteMano, tavolo.carte))
    {
      var mossePossibili := giocatore.carteMano;
      if mossePossibili == [] {
        return None;
      }
      if |mossePossibili| == 1 {
        return Some(mossePossibili[0]);
      }
      var migliore := PrimaMigliore(mossePossibili, tavolo);
      r := Some(migliore);
    }

    /** The loop of `scegli_mossa` over the hand followed by `max` over the valuations: the
        first card whose valuation no later card beats strictly. */
    method PrimaMigliore(mano: seq<Carta>, tavolo: Tavolo) returns (migliore: Carta)
      requires mano != []
      ensures migliore == MigliorCarta(mano, tavolo.carte)
    {
      migliore := mano[0];
      var valoreMigliore := ValutaCarta(migliore, tavolo);
      assert mano[..1] == [migliore];
      for i := 1 to |mano|
        invariant migliore == MigliorCarta(mano[..i], tavolo.carte)
        invariant valoreMigliore == ValoreSimulazione(migliore, tavolo.carte) as real
      {
        var carta := mano[i];
        var punteggioMedio := ValutaCarta(carta, tavolo);
        MigliorCartaPasso(mano, i, tavolo.carte);
        if punteggioMedio > valoreMigliore {
          migliore, valoreMigliore := carta, punteggioMedio;
        }
      }
      assert mano[..|mano|] == mano;
    }
  }
}
