/** The player (`Giocatore`): the capture finder, the capture step and the computer-player
    branch of `gioca_mano`. */
module Players {
  import opened Cards
  import opened Lists
  import opened Deck
  import opened Table

  /** `sum(c.valore for c in carte)`. */
  function Somma(carte: seq<Carta>): int
  {
    if carte == [] then 0 else carte[0].valore + Somma(carte[1..])
  }

  /** The cards of `tavolo` at the positions `scelta` marks, in table order: an
      order-preserving sub-sequence that uses every table position at most once. */
  function Seleziona(tavolo: seq<Carta>, scelta: seq<bool>): seq<Carta>
    requires |scelta| == |tavolo|
  {
    if tavolo == [] then []
    else (if scelta[0] then [tavolo[0]] else []) + Seleziona(tavolo[1..], scelta[1..])
  }

  /** What `trova_combinazioni(numero, tavolo, corrente, acc)` appends to `acc`. */
  function Combinazioni(numero: int, tavolo: seq<Carta>, corrente: seq<Carta>): seq<seq<Carta>>
    decreases |tavolo|, 1
  {
    if numero == 0 then [corrente]
    else if numero < 0 then []
    else Rami(numero, tavolo, corrente)
  }

  /** The loop of `trova_combinazioni`: one recursive call per table position, taking that
      card and searching only the cards after it. */
  function Rami(numero: int, tavolo: seq<Carta>, corrente: seq<Carta>): seq<seq<Carta>>
    decreases |tavolo|, 0
  {
    if tavolo == [] then []
    else Combinazioni(numero - tavolo[0].valore, tavolo[1..], corrente + [tavolo[0]])
         + Rami(numero, tavolo[1..], corrente)
  }

  /** `prese_dirette`: the table cards of the played rank, in table order. */
  function Dirette(tavolo: seq<Carta>, valore: int): (r: seq<Carta>)
    ensures |r| <= |tavolo|
  {
    FiltraCarte(tavolo, (c: Carta) => c.valore == valore)
  }

  /** The direct captures are exactly the table's cards of that rank. */
  lemma DiretteMembri(tavolo: seq<Carta>, valore: int)
    ensures forall c :: c in Dirette(tavolo, valore) <==> c in tavolo && c.valore == valore
  {
    FiltraCarteMembri(tavolo, (c: Carta) => c.valore == valore);
  }

  /** The de-duplicating loop of `cerca_prese_possibili`: each combination longer than one card
      is appended to `prese` unless it is already there. */
  function Filtra(combinazioni: seq<seq<Carta>>, prese: seq<seq<Carta>>): seq<seq<Carta>>
    decreases |combinazioni|
  {
    if combinazioni == [] then prese
    else
      var c := combinazioni[0];
      Filtra(combinazioni[1..], if c !in prese && |c| > 1 then prese + [c] else prese)
  }

  /** `cerca_prese_possibili(carta, tavolo)`. */
  function PresePossibili(carta: Carta, tavolo: seq<Carta>): seq<seq<Carta>>
  {
    var dirette := Dirette(tavolo, carta.valore);
    if dirette != [] then seq(|dirette|, i requires 0 <= i < |dirette| => [dirette[i]])
    else Filtra(Combinazioni(carta.valore, tavolo, []), [])
  }

  /** The positions holding a card of rank `valore`. */
  function MascheraDirette(tavolo: seq<Carta>, valore: int): (m: seq<bool>)
    ensures |m| == |tavolo|
  {
    seq(|tavolo|, i requires 0 <= i < |tavolo| => tavolo[i].valore == valore)
  }

  // ---- facts about the selections ----

  lemma {:induction false} SelezionaNessuna(tavolo: seq<Carta>)
    ensures Seleziona(tavolo, seq(|tavolo|, _ => false)) == []
  {
    if tavolo != [] {
      assert seq(|tavolo|, _ => false)[1..] == seq(|tavolo[1..]|, _ => false);
      SelezionaNessuna(tavolo[1..]);
    }
  }

  lemma {:induction false} SelezionaMultiset(tavolo: seq<Carta>, scelta: seq<bool>)
    requires |scelta| == |tavolo|
    ensures multiset(Seleziona(tavolo, scelta)) <= multiset(tavolo)
  {
    if tavolo != [] {
      SelezionaMultiset(tavolo[1..], scelta[1..]);
      assert tavolo == [tavolo[0]] + tavolo[1..];
    }
  }

  lemma {:induction false} SommaConcat(a: seq<Carta>, b: seq<Carta>)
    ensures Somma(a + b) == Somma(a) + Somma(b)
  {
    if a == [] {
      assert a + b == b;
    } else {
      assert (a + b)[1..] == a[1..] + b;
      SommaConcat(a[1..], b);
    }
  }

  /** With ranks of at least 1, a non-empty set of cards sums to at least its size. */
  lemma {:induction false} SommaPositiva(carte: seq<Carta>)
    requires forall c :: c in carte ==> c.valore >= 1
    ensures Somma(carte) >= |carte|
  {
    if carte != [] {
      SommaPositiva(carte[1..]);
    }
  }

  lemma SelezionaValori(tavolo: seq<Carta>, scelta: seq<bool>)
    requires |scelta| == |tavolo|
    ensures forall c :: c in Seleziona(tavolo, scelta) ==> c in tavolo
  {
    SelezionaMultiset(tavolo, scelta);
    forall c | c in Seleziona(tavolo, scelta) ensures c in tavolo {
      assert c in multiset(Seleziona(tavolo, scelta));
    }
  }

  lemma {:induction false} DiretteSeleziona(tavolo: seq<Carta>, valore: int)
    ensures Dirette(tavolo, valore) == Seleziona(tavolo, MascheraDirette(tavolo, valore))
  {
    if tavolo != [] {
      assert MascheraDirette(tavolo, valore)[1..] == MascheraDirette(tavolo[1..], valore);
      DiretteSeleziona(tavolo[1..], valore);
    }
  }

  // ---- soundness and completeness of the subset-sum search ----

  /** Every combination found extends `corrente` by a sub-sequence of the table summing to `numero`. */
  lemma {:induction false} CombinazioniCorrette(numero: int, tavolo: seq<Carta>, corrente: seq<Carta>, r: seq<Carta>)
    requires r in Combinazioni(numero, tavolo, corrente)
    ensures exists m :: |m| == |tavolo| && r == corrente + Seleziona(tavolo, m)
                        && Somma(Seleziona(tavolo, m)) == numero
    decreases |tavolo|, 1
  {
    if numero == 0 {
      var m := seq(|tavolo|, _ => false);
      SelezionaNessuna(tavolo);
      assert r == corrente + Seleziona(tavolo, m);
    } else {
      RamiCorretti(numero, tavolo, corrente, r);
    }
  }

  lemma {:induction false} RamiCorretti(numero: int, tavolo: seq<Carta>, corrente: seq<Carta>, r: seq<Carta>)
    requires r in Rami(numero, tavolo, corrente)
    ensures exists m :: |m| == |tavolo| && r == corrente + Seleziona(tavolo, m)
                        && Somma(Seleziona(tavolo, m)) == numero
    decreases |tavolo|, 0
  {
    var primo := tavolo[0];
    if r in Combinazioni(numero - primo.valore, tavolo[1..], corrente + [primo]) {
      CombinazioniCorrette(numero - primo.valore, tavolo[1..], corrente + [primo], r);
      var m' :| |m'| == |tavolo[1..]| && r == corrente + [primo] + Seleziona(tavolo[1..], m')
                && Somma(Seleziona(tavolo[1..], m')) == numero - primo.valore;
      EstendiScelta(numero, tavolo, corrente, r, true, m');
      var m := [true] + m';
      assert |m| == |tavolo| && r == corrente + Seleziona(tavolo, m) && Somma(Seleziona(tavolo, m)) == numero;
    } else {
      RamiCorretti(numero, tavolo[1..], corrente, r);
      var m' :| |m'| == |tavolo[1..]| && r == corrente + Seleziona(tavolo[1..], m')
                && Somma(Seleziona(tavolo[1..], m')) == numero;
      EstendiScelta(numero, tavolo, corrente, r, false, m');
      var m := [false] + m';
      assert |m| == |tavolo| && r == corrente + Seleziona(tavolo, m) && Somma(Seleziona(tavolo, m)) == numero;
    }
  }

  /** A choice on the rest of the table, with the first card taken or not, is a choice on the
      whole table. */
  lemma EstendiScelta(numero: int, tavolo: seq<Carta>, corrente: seq<Carta>, r: seq<Carta>,
                      prendi: bool, m': seq<bool>)
    requires tavolo != [] && |m'| == |tavolo| - 1
    requires r == corrente + (if prendi then [tavolo[0]] else []) + Seleziona(tavolo[1..], m')
    requires Somma(Seleziona(tavolo[1..], m')) == numero - (if prendi then tavolo[0].valore else 0)
    ensures var m := [prendi] + m';
            |m| == |tavolo| && r == corrente + Seleziona(tavolo, m) && Somma(Seleziona(tavolo, m)) == numero
  {
    var m := [prendi] + m';
    var testa := if prendi then [tavolo[0]] else [];
    var resto := Seleziona(tavolo[1..], m');
    assert m[0] == prendi && m[1..] == m';
    assert Seleziona(tavolo, m) == testa + resto;
    SommaConcat(testa, resto);
    if prendi {
      assert testa[1..] == [];
    }
    assert Somma(testa) == if prendi then tavolo[0].valore else 0;
    ConcatAssoc(corrente, testa, resto);
  }

  /** With ranks of at least 1, every sub-sequence of the table summing to `numero` is found. */
  lemma {:induction false} CombinazioniComplete(numero: int, tavolo: seq<Carta>, corrente: seq<Carta>, m: seq<bool>)
    requires |m| == |tavolo|
    requires forall c :: c in tavolo ==> c.valore >= 1
    requires Somma(Seleziona(tavolo, m)) == numero
    ensures corrente + Seleziona(tavolo, m) in Combinazioni(numero, tavolo, corrente)
    decreases |tavolo|, 1
  {
    var s := Seleziona(tavolo, m);
    if s == [] {
      assert corrente + s == corrente;
    } else {
      SelezionaValori(tavolo, m);
      SommaPositiva(s);
      RamiCompleti(numero, tavolo, corrente, m);
    }
  }

  lemma {:induction false} RamiCompleti(numero: int, tavolo: seq<Carta>, corrente: seq<Carta>, m: seq<bool>)
    requires |m| == |tavolo|
    requires forall c :: c in tavolo ==> c.valore >= 1
    requires Somma(Seleziona(tavolo, m)) == numero
    requires Seleziona(tavolo, m) != []
    ensures corrente + Seleziona(tavolo, m) in Rami(numero, tavolo, corrente)
    decreases |tavolo|, 0
  {
    var primo := tavolo[0];
    var resto := Seleziona(tavolo[1..], m[1..]);
    if m[0] {
      assert Seleziona(tavolo, m) == [primo] + resto;
      SommaConcat([primo], resto);
      CombinazioniComplete(numero - primo.valore, tavolo[1..], corrente + [primo], m[1..]);
      assert corrente + Seleziona(tavolo, m) == corrente + [primo] + resto;
    } else {
      assert Seleziona(tavolo, m) == resto;
      RamiCompleti(numero, tavolo[1..], corrente, m[1..]);
    }
  }

  // ---- the de-duplicating filter ----

  lemma {:induction false} FiltraContenuto(combinazioni: seq<seq<Carta>>, prese: seq<seq<Carta>>)
    ensures forall x :: x in Filtra(combinazioni, prese) <==> x in prese || (x in combinazioni && |x| > 1)
    decreases |combinazioni|
  {
    if combinazioni != [] {
      var c := combinazioni[0];
      FiltraContenuto(combinazioni[1..], if c !in prese && |c| > 1 then prese + [c] else prese);
      assert combinazioni == [c] + combinazioni[1..];
    }
  }

  lemma {:induction false} FiltraSenzaDuplicati(combinazioni: seq<seq<Carta>>, prese: seq<seq<Carta>>)
    requires NoDup(prese)
    ensures NoDup(Filtra(combinazioni, prese))
    decreases |combinazioni|
  {
    if combinazioni != [] {
      var c := combinazioni[0];
      FiltraSenzaDuplicati(combinazioni[1..], if c !in prese && |c| > 1 then prese + [c] else prese);
    }
  }

  // ---- the capture finder's contract ----

  predicate HaDiretta(carta: Carta, tavolo: seq<Carta>)
  {
    exists c :: c in tavolo && c.valore == carta.valore
  }

  /** `HaDiretta` decides which branch `PresePossibili` takes. */
  lemma DiretteVuote(carta: Carta, tavolo: seq<Carta>)
    ensures Dirette(tavolo, carta.valore) == [] <==> !HaDiretta(carta, tavolo)
  {
    var d := Dirette(tavolo, carta.valore);
    DiretteMembri(tavolo, carta.valore);
    if d != [] {
      assert d[0] in d;
    }
  }

  lemma PreseDiretteSommano(carta: Carta, tavolo: seq<Carta>, r: seq<Carta>)
    requires r in PresePossibili(carta, tavolo) && HaDiretta(carta, tavolo)
    ensures r != [] && Somma(r) == carta.valore && multiset(r) <= multiset(tavolo)
  {
    DiretteVuote(carta, tavolo);
    var dirette := Dirette(tavolo, carta.valore);
    DiretteMembri(tavolo, carta.valore);
    var i :| 0 <= i < |dirette| && r == [dirette[i]];
    assert r[1..] == [];
    assert dirette[i] in dirette;
  }

  lemma PreseSommeSommano(carta: Carta, tavolo: seq<Carta>, r: seq<Carta>)
    requires r in PresePossibili(carta, tavolo) && !HaDiretta(carta, tavolo)
    ensures r != [] && Somma(r) == carta.valore && multiset(r) <= multiset(tavolo)
  {
    DiretteVuote(carta, tavolo);
    var tutte := Combinazioni(carta.valore, tavolo, []);
    assert PresePossibili(carta, tavolo) == Filtra(tutte, []);
    FiltraContenuto(tutte, []);
    assert r in tutte && |r| > 1;
    CombinazioniCorrette(carta.valore, tavolo, [], r);
    var m :| |m| == |tavolo| && r == [] + Seleziona(tavolo, m) && Somma(Seleziona(tavolo, m)) == carta.valore;
    assert r == Seleziona(tavolo, m);
    SelezionaMultiset(tavolo, m);
  }

  /** Every capture sums exactly to the played rank and takes cards that lie on the table. */
  lemma PreseSommano(carta: Carta, tavolo: seq<Carta>)
    ensures forall r :: r in PresePossibili(carta, tavolo) ==>
              r != [] && Somma(r) == carta.valore && multiset(r) <= multiset(tavolo)
  {
    forall r | r in PresePossibili(carta, tavolo)
      ensures r != [] && Somma(r) == carta.valore && multiset(r) <= multiset(tavolo)
    {
      if HaDiretta(carta, tavolo) {
        PreseDiretteSommano(carta, tavolo, r);
      } else {
        PreseSommeSommano(carta, tavolo, r);
      }
    }
  }

  /** A table card of the played rank: the result is exactly one singleton per such card, in
      table order, and no sum combination. */
  lemma PreseDirette(carta: Carta, tavolo: seq<Carta>)
    requires HaDiretta(carta, tavolo)
    ensures var d := Seleziona(tavolo, MascheraDirette(tavolo, carta.valore));
            PresePossibili(carta, tavolo) == seq(|d|, i requires 0 <= i < |d| => [d[i]])
  {
    DiretteSeleziona(tavolo, carta.valore);
    DiretteVuote(carta, tavolo);
  }

  /** No table card of the played rank: every capture has at least two cards and is an
      order-preserving sub-sequence of the table. */
  lemma PreseSomme(carta: Carta, tavolo: seq<Carta>)
    requires !HaDiretta(carta, tavolo)
    ensures forall r :: r in PresePossibili(carta, tavolo) ==>
              |r| >= 2 && exists m :: |m| == |tavolo| && r == Seleziona(tavolo, m)
  {
    DiretteVuote(carta, tavolo);
    FiltraContenuto(Combinazioni(carta.valore, tavolo, []), []);
    forall r | r in PresePossibili(carta, tavolo)
      ensures |r| >= 2 && exists m :: |m| == |tavolo| && r == Seleziona(tavolo, m)
    {
      CombinazioniCorrette(carta.valore, tavolo, [], r);
      var m :| |m| == |tavolo| && r == [] + Seleziona(tavolo, m) && Somma(Seleziona(tavolo, m)) == carta.valore;
      assert r == Seleziona(tavolo, m);
    }
  }

  /** Completeness: with ranks of at least 1 and no table card of the played rank, every
      sub-sequence of at least two cards summing to the played rank is offered. */
  lemma PreseComplete(carta: Carta, tavolo: seq<Carta>, m: seq<bool>)
    requires !HaDiretta(carta, tavolo)
    requires forall c :: c in tavolo ==> c.valore >= 1
    requires |m| == |tavolo| && |Seleziona(tavolo, m)| >= 2
    requires Somma(Seleziona(tavolo, m)) == carta.valore
    ensures Seleziona(tavolo, m) in PresePossibili(carta, tavolo)
  {
    DiretteVuote(carta, tavolo);
    CombinazioniComplete(carta.valore, tavolo, [], m);
    assert [] + Seleziona(tavolo, m) == Seleziona(tavolo, m);
    FiltraContenuto(Combinazioni(carta.valore, tavolo, []), []);
  }

  /** No combination is offered twice. Singletons can repeat only if the table itself holds two
      equal cards, which a real deck never produces. */
  lemma PreseSenzaDuplicati(carta: Carta, tavolo: seq<Carta>)
    requires !HaDiretta(carta, tavolo) || NoDup(tavolo)
    ensures NoDup(PresePossibili(carta, tavolo))
  {
    DiretteVuote(carta, tavolo);
    var d := Dirette(tavolo, carta.valore);
    if d != [] {
      DiretteSeleziona(tavolo, carta.valore);
      SelezionaNoDup(tavolo, MascheraDirette(tavolo, carta.valore));
    } else {
      FiltraSenzaDuplicati(Combinazioni(carta.valore, tavolo, []), []);
    }
  }

  lemma {:induction false} SelezionaNoDup(tavolo: seq<Carta>, scelta: seq<bool>)
    requires |scelta| == |tavolo| && NoDup(tavolo)
    ensures NoDup(Seleziona(tavolo, scelta))
  {
    if tavolo != [] {
      SelezionaNoDup(tavolo[1..], scelta[1..]);
      SelezionaValori(tavolo[1..], scelta[1..]);
      assert tavolo[0] !in tavolo[1..];
      var s := Seleziona(tavolo, scelta);
      var resto := Seleziona(tavolo[1..], scelta[1..]);
      if scelta[0] {
        assert s == [tavolo[0]] + resto;
        forall i, j | 0 <= i < j < |s| ensures s[i] != s[j] {
          if i == 0 {
            assert s[j] == resto[j - 1];
          } else {
            assert s[i] == resto[i - 1] && s[j] == resto[j - 1];
          }
        }
      }
    }
  }

  /** An empty result, the signal that only a discard is possible, happens exactly when there is
      neither a table card of the played rank nor a sub-sequence of two or more cards summing
      to it (ranks of at least 1). */
  lemma PreseVuote(carta: Carta, tavolo: seq<Carta>)
    requires forall c :: c in tavolo ==> c.valore >= 1
    ensures PresePossibili(carta, tavolo) == [] <==>
              !HaDiretta(carta, tavolo) &&
              forall m :: |m| == |tavolo| && |Seleziona(tavolo, m)| >= 2 ==>
                Somma(Seleziona(tavolo, m)) != carta.valore
  {
    if HaDiretta(carta, tavolo) {
      var c :| c in tavolo && c.valore == carta.valore;
      DiretteMembri(tavolo, carta.valore);
      assert c in Dirette(tavolo, carta.valore);
    } else {
      forall m | |m| == |tavolo| && |Seleziona(tavolo, m)| >= 2 && PresePossibili(carta, tavolo) == []
        ensures Somma(Seleziona(tavolo, m)) != carta.valore
      {
        if Somma(Seleziona(tavolo, m)) == carta.valore {
          PreseComplete(carta, tavolo, m);
        }
      }
      if PresePossibili(carta, tavolo) != [] {
        PreseSomme(carta, tavolo);
        PreseSommano(carta, tavolo);
        var r := PresePossibili(carta, tavolo)[0];
        var m :| |m| == |tavolo| && r == Seleziona(tavolo, m);
        assert |Seleziona(tavolo, m)| >= 2 && Somma(Seleziona(tavolo, m)) == carta.valore;
      }
    }
  }

  // ---- choosing among captures ----

  /** `(len(a), sum(a)) > (len(b), sum(b))`, Python's tuple order. */
  predicate ChiavePiuGrande(a: seq<Carta>, b: seq<Carta>)
  {
    |a| > |b| || (|a| == |b| && Somma(a) > Somma(b))
  }

  /** `max(prese, key=lambda x: (len(x), sum(c.valore for c in x)))`: the first capture whose
      key no other capture beats. */
  function MigliorPresa(prese: seq<seq<Carta>>): (best: seq<Carta>)
    requires prese != []
    ensures best in prese
  {
    if |prese| == 1 then prese[0]
    else
      var b := MigliorPresa(prese[..|prese| - 1]);
      var ultima := prese[|prese| - 1];
      if ChiavePiuGrande(ultima, b) then ultima else b
  }

  /** No capture has a larger key than the chosen one, and every capture before it has a
      smaller key: it is the first maximal one, as Python's `max` picks. */
  lemma {:induction false} MigliorPresaMassima(prese: seq<seq<Carta>>)
    requires prese != []
    ensures exists k :: 0 <= k < |prese| && prese[k] == MigliorPresa(prese) &&
              forall j :: 0 <= j < k ==> ChiavePiuGrande(MigliorPresa(prese), prese[j])
    ensures forall j :: 0 <= j < |prese| ==> !ChiavePiuGrande(prese[j], MigliorPresa(prese))
  {
    if |prese| > 1 {
      var prima := prese[..|prese| - 1];
      MigliorPresaMassima(prima);
      var b := MigliorPresa(prima);
      var ultima := prese[|prese| - 1];
      var k :| 0 <= k < |prima| && prima[k] == b && forall j :: 0 <= j < k ==> ChiavePiuGrande(b, prima[j]);
      if ChiavePiuGrande(ultima, b) {
        assert prese[|prese| - 1] == MigliorPresa(prese);
        forall j | 0 <= j < |prese| - 1 ensures ChiavePiuGrande(ultima, prese[j]) {
          assert prese[j] == prima[j];
        }
        assert forall j :: 0 <= j < |prese| - 1 ==> ChiavePiuGrande(MigliorPresa(prese), prese[j]);
        forall j | 0 <= j < |prese| ensures !ChiavePiuGrande(prese[j], ultima) {
          if j < |prese| - 1 {
            assert prese[j] == prima[j];
          }
        }
      } else {
        assert prese[k] == MigliorPresa(prese);
        forall j | 0 <= j < k ensures ChiavePiuGrande(b, prese[j]) {
          assert prese[j] == prima[j];
        }
        assert forall j :: 0 <= j < k ==> ChiavePiuGrande(MigliorPresa(prese), prese[j]);
        forall j | 0 <= j < |prese| ensures !ChiavePiuGrande(prese[j], b) {
          if j < |prese| - 1 {
            assert prese[j] == prima[j];
          }
        }
      }
    } else {
      assert prese[0] == MigliorPresa(prese);
    }
  }

  class Giocatore {
    var carteMano: seq<Carta>
    var carteRaccolte: seq<Carta>
    var scope: int

    constructor ()
      ensures carteMano == [] && carteRaccolte == [] && scope == 0
    {
      carteMano, carteRaccolte, scope := [], [], 0;
    }

    /** `aggiungi_mano`: the card is dealt from the deck into the hand. */
    method AggiungiMano(carta: Carta, mazzo: Mazzo)
      modifies this`carteMano, mazzo`carte
      ensures carteMano == old(carteMano) + [carta]
      ensures mazzo.carte == RemoveFirst(old(mazzo.carte), carta)
    {
      carteMano := carteMano + [carta];
      mazzo.EliminaCarta(carta);
    }

    /** `trova_combinazioni`: the recursive search, appending into the shared accumulator
        (passed in and handed back). */
    static method TrovaCombinazioni(numero: int, carteTavolo: seq<Carta>, combinazioneCorrente: seq<Carta>,
                                    tutteCombinazioni: seq<seq<Carta>>)
      returns (tutte: seq<seq<Carta>>)
      ensures tutte == tutteCombinazioni + Combinazioni(numero, carteTavolo, combinazioneCorrente)
      decreases |carteTavolo|
    {
      if numero == 0 {
        tutte := tutteCombinazioni + [combinazioneCorrente];
        return;
      }
      if numero < 0 {
        tutte := tutteCombinazioni;
        return;
      }
      tutte := tutteCombinazioni;
      for i := 0 to |carteTavolo|
        invariant tutte + Rami(numero, carteTavolo[i..], combinazioneCorrente)
               == tutteCombinazioni + Rami(numero, carteTavolo, combinazioneCorrente)
      {
        var t := carteTavolo[i..];
        assert t[0] == carteTavolo[i] && t[1..] == carteTavolo[i + 1..];
        tutte := TrovaCombinazioni(numero - carteTavolo[i].valore, carteTavolo[i + 1..],
                                   combinazioneCorrente + [carteTavolo[i]], tutte);
      }
      assert carteTavolo[|carteTavolo|..] == [];
    }

    /** `cerca_prese_possibili`: the direct takes, or else the de-duplicated sum combinations
        of two or more cards. */
    static method CercaPresePossibili(cartaGiocata: Carta, carteTavolo: seq<Carta>)
      returns (presePossibili: seq<seq<Carta>>)
      ensures presePossibili == PresePossibili(cartaGiocata, carteTavolo)
    {
      var v := cartaGiocata.valore;
      presePossibili := [];
      var preseDirette := CarteDirette(v, carteTavolo);
      for i := 0 to |preseDirette|
        invariant presePossibili == seq(i, k requires 0 <= k < i => [preseDirette[k]])
      {
        presePossibili := presePossibili + [[preseDirette[i]]];
      }
      if preseDirette == [] {
        var tutte := TrovaCombinazioni(v, carteTavolo, [], []);
        assert tutte == Combinazioni(v, carteTavolo, []);
        presePossibili := SenzaDoppioni(tutte);
      }
    }

    /** The first loop of `cerca_prese_possibili`: the table's cards of rank `v`, in table
        order. */
    static method CarteDirette(v: int, carteTavolo: seq<Carta>) returns (preseDirette: seq<Carta>)
      ensures preseDirette == Dirette(carteTavolo, v)
    {
      preseDirette := [];
      for i := 0 to |carteTavolo|
        invariant preseDirette + Dirette(carteTavolo[i..], v) == Dirette(carteTavolo, v)
      {
        var t := carteTavolo[i..];
        assert t[0] == carteTavolo[i] && t[1..] == carteTavolo[i + 1..];
        if carteTavolo[i].valore == v {
          preseDirette := preseDirette + [carteTavolo[i]];
        }
      }
      assert carteTavolo[|carteTavolo|..] == [];
    }

    /** The last loop of `cerca_prese_possibili`: the combinations of more than one card, each
        kept once, in the order they were found. */
    static method SenzaDoppioni(tutte: seq<seq<Carta>>) returns (presePossibili: seq<seq<Carta>>)
      ensures presePossibili == Filtra(tutte, [])
    {
      presePossibili := [];
      for i := 0 to |tutte|
        invariant Filtra(tutte[i..], presePossibili) == Filtra(tutte, [])
      {
        assert tutte[i..][0] == tutte[i] && tutte[i..][1..] == tutte[i + 1..];
        if tutte[i] !in presePossibili && |tutte[i]| > 1 {
          presePossibili := presePossibili + [tutte[i]];
        }
      }
      assert tutte[|tutte|..] == [];
    }

    /** `raccogli_carte`: the captured cards leave the table one by one and join the pile,
        the played card after them; a sweep is counted when the table ends up empty while
        the hand is not. */
    method RaccogliCarte(cartaGiocata: Carta, cartePrese: seq<Carta>, tavolo: Tavolo)
      modifies this`carteRaccolte, this`scope, tavolo`carte
      ensures tavolo.carte == RemoveEach(old(tavolo.carte), cartePrese)
      ensures carteRaccolte == old(carteRaccolte) + cartePrese + [cartaGiocata]
      ensures scope == old(scope) + (if |tavolo.carte| == 0 && |carteMano| > 0 then 1 else 0)
    {
      for i := 0 to |cartePrese|
        invariant tavolo.carte == RemoveEach(old(tavolo.carte), cartePrese[..i])
        invariant carteRaccolte == old(carteRaccolte) + cartePrese[..i]
        invariant scope == old(scope)
      {
        assert cartePrese[..i + 1] == cartePrese[..i] + [cartePrese[i]];
        RemoveEachSnoc(old(tavolo.carte), cartePrese[..i], cartePrese[i]);
        tavolo.EliminaCarta(cartePrese[i]);
        carteRaccolte := carteRaccolte + [cartePrese[i]];
      }
      assert cartePrese[..|cartePrese|] == cartePrese;
      carteRaccolte := carteRaccolte + [cartaGiocata];
      if |tavolo.carte| == 0 && |carteMano| > 0 {
        scope := scope + 1;
      }
    }

    /** The computer-player branch of `gioca_mano`. `cartaDaGiocare` is the card the attached
        agent chose, a card of the hand. The best capture by (size, rank sum) is collected, or
        the card is discarded; the card leaves the hand only after the capture step. */
    method GiocaManoIA(tavolo: Tavolo, cartaDaGiocare: Carta) returns (presa: bool)
      requires carteMano != [] ==> cartaDaGiocare in carteMano
      modifies this`carteMano, this`carteRaccolte, this`scope, tavolo`carte
      ensures old(carteMano) == [] ==>
                !presa && carteMano == [] && carteRaccolte == old(carteRaccolte)
                && scope == old(scope) && tavolo.carte == old(tavolo.carte)
      ensures old(carteMano) != [] ==>
                var prese := PresePossibili(cartaDaGiocare, old(tavolo.carte));
                && presa == (prese != [])
                && carteMano == RemoveFirst(old(carteMano), cartaDaGiocare)
                && |carteMano| == |old(carteMano)| - 1
                && (prese != [] ==>
                      var migliore := MigliorPresa(prese);
                      && tavolo.carte == RemoveEach(old(tavolo.carte), migliore)
                      && carteRaccolte == old(carteRaccolte) + migliore + [cartaDaGiocare]
                      && scope == old(scope) + (if tavolo.carte == [] then 1 else 0))
                && (prese == [] ==>
                      && tavolo.carte == old(tavolo.carte) + [cartaDaGiocare]
                      && carteRaccolte == old(carteRaccolte) && scope == old(scope))
    {
      if carteMano == [] {
        return false;
      }
      var presePossibili := CercaPresePossibili(cartaDaGiocare, tavolo.carte);
      if presePossibili != [] {
        var migliorPresa := MigliorPresa(presePossibili);
        RaccogliCarte(cartaDaGiocare, migliorPresa, tavolo);
      } else {
        tavolo.AggiungiCartaDaGiocatore(cartaDaGiocare);
      }
      RemoveFirstPresent(carteMano, cartaDaGiocare);
      carteMano := RemoveFirst(carteMano, cartaDaGiocare);
      presa := presePossibili != [];
    }
  }
}
