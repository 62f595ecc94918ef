/** The round scorer (`Punteggio`): card-count, coins, seven of coins, sweeps and primiera,
    and the running total. */
module Scoring {
  import opened Wrappers
  import opened Cards

  /** `calcola_carte_lungo`: a point for strictly more cards. */
  function CalcolaCarteLungo(numCarte: int, numCarteAvversario: int): (r: int)
    ensures r == 0 || r == 1
    ensures r == 1 <==> numCarte > numCarteAvversario
  {
    if numCarte > numCarteAvversario then 1 else 0
  }

  /** The card-count point never goes to both players, and a tie gives it to neither. */
  lemma CarteLungoEsclusivo(a: int, b: int)
    ensures !(CalcolaCarteLungo(a, b) == 1 && CalcolaCarteLungo(b, a) == 1)
    ensures a == b ==> CalcolaCarteLungo(a, b) == 0 == CalcolaCarteLungo(b, a)
  {
  }

  /** `calcola_valore_primiera`: the primiera value of a rank, 0 for anything that is not a rank. */
  function CalcolaValorePrimiera(valore: int): (r: int)
    ensures 1 <= valore <= 10 ==> 10 <= r <= 21
    ensures !(1 <= valore <= 10) ==> r == 0
    ensures r == 21 <==> valore == 7
  {
    if valore == 7 then 21
    else if valore == 6 then 18
    else if valore == 1 then 16
    else if valore == 5 then 15
    else if valore == 4 then 14
    else if valore == 3 then 13
    else if valore == 2 then 12
    else if valore == 8 || valore == 9 || valore == 10 then 10
    else 0
  }

  /** The four suits the primiera groups by, in the order of the source's dictionary. */
  const OrdineSemi: seq<string> := [Coppe, Bastoni, Denari, Spade]

  const SemiNoti: set<string> := {Coppe, Bastoni, Denari, Spade}

  /** Every card has one of the four suits; otherwise grouping by suit raises `KeyError`. */
  predicate SemiValidi(carte: seq<Carta>)
  {
    forall i :: 0 <= i < |carte| ==> carte[i].seme in SemiNoti
  }

  /** `max(calcola_valore_primiera(c.valore) for c in carte)` of a non-empty list. */
  function MaxPrimiera(carte: seq<Carta>): (r: int)
    requires carte != []
    ensures 0 <= r <= 21
  {
    if |carte| == 1 then CalcolaValorePrimiera(carte[0].valore)
    else
      var resto := MaxPrimiera(carte[1..]);
      var v := CalcolaValorePrimiera(carte[0].valore);
      if v >= resto then v else resto
  }

  /** The maximum is the value of one of the cards and no card's value exceeds it. */
  lemma {:induction false} MaxPrimieraMassimo(carte: seq<Carta>)
    requires carte != []
    ensures forall c :: c in carte ==> CalcolaValorePrimiera(c.valore) <= MaxPrimiera(carte)
    ensures exists c :: c in carte && CalcolaValorePrimiera(c.valore) == MaxPrimiera(carte)
  {
    assert carte[0] in carte;
    if |carte| > 1 {
      MaxPrimieraMassimo(carte[1..]);
      assert carte == [carte[0]] + carte[1..];
      if CalcolaValorePrimiera(carte[0].valore) < MaxPrimiera(carte[1..]) {
        var c :| c in carte[1..] && CalcolaValorePrimiera(c.valore) == MaxPrimiera(carte[1..]);
        assert c in carte;
      }
    }
  }

  /** The primiera value of one suit: its best card, 0 without cards of that suit. */
  function ValoreSeme(carte: seq<Carta>, seme: string): (r: int)
    ensures 0 <= r <= 21
  {
    var carteSeme := FiltraSeme(carte, seme);
    if carteSeme != [] then MaxPrimiera(carteSeme) else 0
  }

  function DettagliPrimiera(carte: seq<Carta>): map<string, int>
  {
    map seme | seme in SemiNoti :: ValoreSeme(carte, seme)
  }

  /** What `calcola_primiera` returns: the sum of the four suit values and the values by suit,
      or `KeyError` when a card has another suit. */
  function Primiera(carte: seq<Carta>): Result<(int, map<string, int>)>
  {
    if !SemiValidi(carte) then Err(KeyError)
    else
      Ok((ValoreSeme(carte, Coppe) + ValoreSeme(carte, Bastoni) + ValoreSeme(carte, Denari)
          + ValoreSeme(carte, Spade), DettagliPrimiera(carte)))
  }

  /** Grouping by suit extends card by card. */
  lemma {:induction false} FiltraSemeSnoc(carte: seq<Carta>, c: Carta, seme: string)
    ensures FiltraSeme(carte + [c], seme) == FiltraSeme(carte, seme) + (if c.seme == seme then [c] else [])
  {
    if carte == [] {
      assert [] + [c] == [c];
    } else {
      var testa := if carte[0].seme == seme then [carte[0]] else [];
      assert (carte + [c])[0] == carte[0];
      assert (carte + [c])[1..] == carte[1..] + [c];
      FiltraSemeSnoc(carte[1..], c, seme);
      assert FiltraSeme(carte + [c], seme) == testa + FiltraSeme(carte[1..] + [c], seme);
    }
  }

  /** `calcola_primiera`: the cards are grouped by suit in a loop, then each suit's best value
      is taken, in dictionary order. */
  method CalcolaPrimiera(carteRaccolte: seq<Carta>) returns (r: Result<(int, map<string, int>)>)
    ensures r == Primiera(carteRaccolte)
  {
    var gruppi := RaggruppaPerSeme(carteRaccolte);
    if gruppi.Err? {
      return Err(gruppi.error);
    }
    var punteggiPerSeme := ValoriPerSeme(carteRaccolte, gruppi.value);
    var somma := punteggiPerSeme[Coppe] + punteggiPerSeme[Bastoni] + punteggiPerSeme[Denari] + punteggiPerSeme[Spade];
    PrimieraOk(carteRaccolte, punteggiPerSeme, somma);
    r := Ok((somma, punteggiPerSeme));
  }

  /** Each of the four suits with its cards, in pile order. */
  function Gruppi(carte: seq<Carta>): map<string, seq<Carta>>
  {
    map seme | seme in SemiNoti :: FiltraSeme(carte, seme)
  }

  /** The grouping loop of `calcola_primiera`: each suit's cards in pile order, or `KeyError` at
      the first card of another suit. */
  method RaggruppaPerSeme(carteRaccolte: seq<Carta>) returns (r: Result<map<string, seq<Carta>>>)
    ensures r.Err? <==> !SemiValidi(carteRaccolte)
    ensures r.Err? ==> r.error == KeyError
    ensures r.Ok? ==> r.value == Gruppi(carteRaccolte)
  {
    var cartePerSeme: map<string, seq<Carta>> := map[Coppe := [], Bastoni := [], Denari := [], Spade := []];
    assert cartePerSeme == Gruppi(carteRaccolte[..0]);
    for i := 0 to |carteRaccolte|
      invariant cartePerSeme == Gruppi(carteRaccolte[..i])
      invariant SemiValidi(carteRaccolte[..i])
    {
      var carta := carteRaccolte[i];
      RaggruppaPasso(carteRaccolte, i);
      if carta.seme !in cartePerSeme {
        return Err(KeyError);
      }
      cartePerSeme := cartePerSeme[carta.seme := cartePerSeme[carta.seme] + [carta]];
    }
    assert carteRaccolte[..|carteRaccolte|] == carteRaccolte;
    r := Ok(cartePerSeme);
  }

  /** One step of the grouping loop: the groups cover the four suits, a card of a known suit
      extends its own group, and the pile so far has only known suits exactly when the card
      before it did and this one is known. */
  lemma RaggruppaPasso(carte: seq<Carta>, i: nat)
    requires i < |carte|
    ensures Gruppi(carte[..i]).Keys == SemiNoti
    ensures carte[i].seme in SemiNoti ==>
              Gruppi(carte[..i + 1]) == Gruppi(carte[..i])[carte[i].seme := Gruppi(carte[..i])[carte[i].seme] + [carte[i]]]
    ensures SemiValidi(carte[..i + 1]) <==> SemiValidi(carte[..i]) && carte[i].seme in SemiNoti
    ensures SemiValidi(carte) ==> SemiValidi(carte[..i + 1])
  {
    var prima, dopo := carte[..i], carte[..i + 1];
    assert dopo == prima + [carte[i]];
    if carte[i].seme in SemiNoti {
      GruppiSnoc(prima, carte[i]);
    }
    if SemiValidi(dopo) {
      assert dopo[i] == carte[i];
      forall k | 0 <= k < |prima| ensures prima[k].seme in SemiNoti {
        assert prima[k] == dopo[k];
      }
    }
    if SemiValidi(prima) && carte[i].seme in SemiNoti {
      forall k | 0 <= k < |dopo| ensures dopo[k].seme in SemiNoti {
        if k < i { assert dopo[k] == prima[k]; }
      }
    }
    if SemiValidi(carte) {
      forall k | 0 <= k < |dopo| ensures dopo[k].seme in SemiNoti {
        assert dopo[k] == carte[k];
      }
    }
  }

  /** Appending a card of a known suit to the pile appends it to that suit's group only. */
  lemma GruppiSnoc(carte: seq<Carta>, carta: Carta)
    requires carta.seme in SemiNoti
    ensures Gruppi(carte + [carta]) == Gruppi(carte)[carta.seme := Gruppi(carte)[carta.seme] + [carta]]
  {
    var prima := Gruppi(carte);
    var dopo := Gruppi(carte + [carta]);
    var atteso := prima[carta.seme := prima[carta.seme] + [carta]];
    assert dopo.Keys == SemiNoti == atteso.Keys;
    forall seme | seme in SemiNoti ensures dopo[seme] == atteso[seme] {
      FiltraSemeSnoc(carte, carta, seme);
    }
  }

  /** The second loop of `calcola_primiera`: for each suit in dictionary order, the best value of
      its group, 0 for an empty group. */
  method ValoriPerSeme(carteRaccolte: seq<Carta>, cartePerSeme: map<string, seq<Carta>>)
    returns (punteggiPerSeme: map<string, int>)
    requires cartePerSeme == Gruppi(carteRaccolte)
    ensures punteggiPerSeme == DettagliPrimiera(carteRaccolte)
  {
    punteggiPerSeme := map[];
    for j := 0 to |OrdineSemi|
      invariant forall k :: k in punteggiPerSeme <==> k in OrdineSemi[..j]
      invariant forall k :: k in punteggiPerSeme ==> punteggiPerSeme[k] == ValoreSeme(carteRaccolte, k)
    {
      var seme := OrdineSemi[j];
      assert OrdineSemi[..j + 1] == OrdineSemi[..j] + [seme];
      var carte := cartePerSeme[seme];
      if carte != [] {
        var maxValore := MaxPrimiera(carte);
        punteggiPerSeme := punteggiPerSeme[seme := maxValore];
      } else {
        punteggiPerSeme := punteggiPerSeme[seme := 0];
      }
    }
    assert OrdineSemi[..4] == OrdineSemi;
  }

  lemma PrimieraOk(carte: seq<Carta>, d: map<string, int>, somma: int)
    requires SemiValidi(carte) && d == DettagliPrimiera(carte)
    requires somma == d[Coppe] + d[Bastoni] + d[Denari] + d[Spade]
    ensures Primiera(carte) == Ok((somma, d))
  {
  }

  /** The breakdown names exactly the four suits, each worth between 0 and 21, and the total is
      their sum, between 0 and 84. */
  lemma PrimieraLimiti(carte: seq<Carta>)
    requires Primiera(carte).Ok?
    ensures var (totale, d) := Primiera(carte).value;
            && d.Keys == SemiNoti
            && (forall seme :: seme in d ==> 0 <= d[seme] <= 21)
            && totale == d[Coppe] + d[Bastoni] + d[Denari] + d[Spade]
            && 0 <= totale <= 84
  {
  }

  /** Each suit's entry is the best primiera value among that suit's cards, or 0 when there is
      none. */
  lemma PrimieraMigliorCarta(carte: seq<Carta>, seme: string)
    requires Primiera(carte).Ok? && seme in SemiNoti
    ensures var v := Primiera(carte).value.1[seme];
            && (forall c :: c in carte && c.seme == seme ==> CalcolaValorePrimiera(c.valore) <= v)
            && ((exists c :: c in carte && c.seme == seme) ==>
                  exists c :: c in carte && c.seme == seme && CalcolaValorePrimiera(c.valore) == v)
            && ((forall c :: c in carte ==> c.seme != seme) ==> v == 0)
  {
    var carteSeme := FiltraSeme(carte, seme);
    FiltraSemeMembri(carte, seme);
    if carteSeme != [] {
      MaxPrimieraMassimo(carteSeme);
    } else {
      assert forall c :: c in carte ==> c.seme != seme;
    }
  }

  /** `calcola_primiera` fails, with `KeyError`, exactly when some card has none of the four
      suits. */
  lemma PrimieraErrore(carte: seq<Carta>)
    ensures Primiera(carte).Err? <==> exists c :: c in carte && c.seme !in SemiNoti
    ensures Primiera(carte).Err? ==> Primiera(carte).error == KeyError
  {
    if !SemiValidi(carte) {
      var i :| 0 <= i < |carte| && carte[i].seme !in SemiNoti;
      assert carte[i] in carte;
    }
  }

  /** The breakdown of `calcola_punteggio_round`. */
  datatype Dettaglio = Dettaglio(
    carteLungo: int, carteGiocatore: int, carteAvversario: int,
    denari: int, denariAvversario: int, settebello: int, scope: int,
    primiera: int, punteggioPrimiera: int, punteggioPrimieraAvv: int,
    dettagliPrimiera: map<string, int>, dettagliPrimieraAvv: map<string, int>,
    totale: int)

  /** `calcola_punteggio_round`, for the player's pile and sweep count against the opponent's
      pile. The total and the breakdown's `totale` are the card-count point plus the coins point
      plus the seven-of-coins point plus the sweeps plus the primiera point. */
  function CalcolaPunteggioRound(raccolte: seq<Carta>, scope: int, raccolteAvversario: seq<Carta>)
    : (r: Result<(int, Dettaglio)>)
    ensures r.Err? <==> !SemiValidi(raccolte) || !SemiValidi(raccolteAvversario)
    ensures r.Ok? ==>
              var (punteggioRound, d) := r.value;
              && punteggioRound == d.totale
              && d.totale == d.carteLungo + (if d.denari > d.denariAvversario then 1 else 0)
                             + d.settebello + d.scope + d.primiera
              && (d.carteLungo == 1 <==> |raccolte| > |raccolteAvversario|)
              && (d.settebello == 1 <==> Settebello in raccolte)
              && (d.primiera == 1 <==> d.punteggioPrimiera > d.punteggioPrimieraAvv)
              && d.carteLungo in {0, 1} && d.settebello in {0, 1} && d.primiera in {0, 1}
              && d.scope == scope
              && d.denari == ContaDenari(raccolte) && d.denariAvversario == ContaDenari(raccolteAvversario)
              && d.carteGiocatore == |raccolte| && d.carteAvversario == |raccolteAvversario|
              && Primiera(raccolte).Ok? && Primiera(raccolteAvversario).Ok?
              && (d.punteggioPrimiera, d.dettagliPrimiera) == Primiera(raccolte).value
              && (d.punteggioPrimieraAvv, d.dettagliPrimieraAvv) == Primiera(raccolteAvversario).value
  {
    var carteGiocatore := |raccolte|;
    var carteAvversario := |raccolteAvversario|;
    var carteLungo := CalcolaCarteLungo(carteGiocatore, carteAvversario);
    var denariGiocatore := ContaDenari(raccolte);
    var denariAvversario := ContaDenari(raccolteAvversario);
    var puntoDenari := if denariGiocatore > denariAvversario then 1 else 0;
    var puntoSettebello := if HaSettebello(raccolte) then 1 else 0;
    var puntiScope := scope;
    match Primiera(raccolte)
    case Err(e) => Err(e)
    case Ok((punteggioPrimiera, dettagliPrimiera)) =>
      match Primiera(raccolteAvversario)
      case Err(e) => Err(e)
      case Ok((punteggioPrimieraAvv, dettagliPrimieraAvv)) =>
        var puntoPrimiera := if punteggioPrimiera > punteggioPrimieraAvv then 1 else 0;
        var punteggioRound := carteLungo + puntoDenari + puntoSettebello + puntiScope + puntoPrimiera;
        Ok((punteggioRound,
            Dettaglio(carteLungo, carteGiocatore, carteAvversario, denariGiocatore, denariAvversario,
                      puntoSettebello, puntiScope, puntoPrimiera, punteggioPrimiera, punteggioPrimieraAvv,
                      dettagliPrimiera, dettagliPrimieraAvv, punteggioRound)))
  }

  /** Scoring the round from both sides: the card-count, coins and primiera points never go to
      both players, and a tie in any of them gives it to neither. */
  lemma PuntiEsclusivi(a: seq<Carta>, sa: int, b: seq<Carta>, sb: int)
    requires CalcolaPunteggioRound(a, sa, b).Ok?
    ensures CalcolaPunteggioRound(b, sb, a).Ok?
    ensures var da := CalcolaPunteggioRound(a, sa, b).value.1;
            var db := CalcolaPunteggioRound(b, sb, a).value.1;
            && !(da.carteLungo == 1 && db.carteLungo == 1)
            && !(da.denari > da.denariAvversario && db.denari > db.denariAvversario)
            && !(da.primiera == 1 && db.primiera == 1)
            && (|a| == |b| ==> da.carteLungo == 0 == db.carteLungo)
            && (da.denari == da.denariAvversario ==> !(db.denari > db.denariAvversario))
            && (da.punteggioPrimiera == da.punteggioPrimieraAvv ==> da.primiera == 0 == db.primiera)
  {
  }

  /** The running score (`Punteggio`). */
  class Punteggio {
    var punteggioTotale: int

    constructor ()
      ensures punteggioTotale == 0
    {
      punteggioTotale := 0;
    }

    /** `aggiungi_punteggio`: the total grows by exactly `punti`. */
    method AggiungiPunteggio(punti: int)
      modifies this
      ensures punteggioTotale == old(punteggioTotale) + punti
    {
      punteggioTotale := punteggioTotale + punti;
    }
  }
}
