/** Cards (`Carta`): suit and rank, equality, the "<seme> <valore>" text and the "7D" codes. */
module Cards {
  import opened Wrappers

  /** A card. The suit is the suit's Italian name, as the source stores it. */
  datatype Carta = Carta(seme: string, valore: int)

  const Coppe: string := "Coppe"
  const Bastoni: string := "Bastoni"
  const Denari: string := "Denari"
  const Spade: string := "Spade"

  /** `Carta.Seme`: suit letter to suit name, in the dictionary's order C, B, D, S. */
  const LettereSeme: string := "CBDS"
  const Seme: map<char, string> := map['C' := Coppe, 'B' := Bastoni, 'D' := Denari, 'S' := Spade]

  /** The seven of coins (settebello). */
  const Settebello: Carta := Carta(Denari, 7)

  /** A value `Carta.__eq__` may be compared with: a card or anything else. */
  datatype Valore = DiCarta(carta: Carta) | NonCarta

  /** `Carta.__eq__`: same rank and same suit; never equal to a value that is not a card.
      So the source's list membership and `remove` agree with structural equality. */
  function Uguale(c: Carta, altro: Valore): (r: bool)
    ensures r <==> altro == DiCarta(c)
  {
    match altro
    case DiCarta(d) => c.valore == d.valore && c.seme == d.seme
    case NonCarta => false
  }

  // ---- decimal text ----

  predicate IsDigit(ch: char) { '0' <= ch <= '9' }

  predicate AllDigits(s: string) { forall i :: 0 <= i < |s| ==> IsDigit(s[i]) }

  function DigitValue(ch: char): nat
    requires IsDigit(ch)
  {
    (ch as int - '0' as int) as nat
  }

  function DigitChar(d: nat): (ch: char)
    requires d < 10
    ensures IsDigit(ch) && DigitValue(ch) == d
  {
    ('0' as int + d) as char
  }

  /** The number a string of decimal digits denotes (leading zeros allowed). */
  function DecimalValue(s: string): nat
    requires AllDigits(s)
  {
    if s == [] then 0 else DecimalValue(s[..|s| - 1]) * 10 + DigitValue(s[|s| - 1])
  }

  /** Python's `str(n)` for a natural number. */
  function NatToString(n: nat): string
  {
    if n < 10 then [DigitChar(n)] else NatToString(n / 10) + [DigitChar(n % 10)]
  }

  /** Python's `str(v)` for an integer. */
  function IntToString(v: int): string
  {
    if v < 0 then "-" + NatToString(-v) else NatToString(v)
  }

  /** Reading back what `str` printed gives the number again. */
  lemma {:induction false} DecimalRoundTrip(n: nat)
    ensures |NatToString(n)| >= 1 && AllDigits(NatToString(n))
    ensures DecimalValue(NatToString(n)) == n
  {
    if n >= 10 {
      DecimalRoundTrip(n / 10);
      var s := NatToString(n);
      assert s[..|s| - 1] == NatToString(n / 10);
    }
  }

  /** `int(s)` restricted to plain decimal digits; anything else raises `ValueError`. */
  function ParseInt(s: string): (r: Result<int>)
  {
    if s != [] && AllDigits(s) then Ok(DecimalValue(s)) else Err(ValueError)
  }

  /** `str.upper()` on one character, for ASCII letters. */
  function Upper(ch: char): char
  {
    if 'a' <= ch <= 'z' then (ch as int - 32) as char else ch
  }

  /** `Carta.da_sigla`: everything but the last character is the rank, the last character
      (in either case) is the suit letter. */
  function DaSigla(sigla: string): (r: Result<Carta>)
    ensures r.Ok? <==>
      && |sigla| >= 2
      && AllDigits(sigla[..|sigla| - 1])
      && Upper(sigla[|sigla| - 1]) in Seme
      && 1 <= DecimalValue(sigla[..|sigla| - 1]) <= 10
    ensures r.Ok? ==> r.value == Carta(Seme[Upper(sigla[|sigla| - 1])], DecimalValue(sigla[..|sigla| - 1]))
    ensures r.Err? ==> r.error == ValueError
  {
    var testo := if sigla == [] then [] else sigla[..|sigla| - 1];
    match ParseInt(testo)
    case Err(e) => Err(e)
    case Ok(valore) =>
      var lettera := Upper(sigla[|sigla| - 1]);
      if lettera in Seme && 1 <= valore <= 10 then Ok(Carta(Seme[lettera], valore)) else Err(ValueError)
  }

  /** Round trip: the code `str(v) + l` of a rank 1..10 and a suit letter of either case
      reads back as that card. */
  lemma DaSiglaRoundTrip(v: int, l: char)
    requires 1 <= v <= 10 && Upper(l) in Seme
    ensures DaSigla(NatToString(v) + [l]) == Ok(Carta(Seme[Upper(l)], v))
  {
    DecimalRoundTrip(v);
    var s := NatToString(v) + [l];
    assert s[..|s| - 1] == NatToString(v);
  }

  /** A rank outside 1..10 or an unknown letter raises `ValueError`. */
  lemma DaSiglaRejects(v: nat, l: char)
    requires v == 0 || v > 10 || Upper(l) !in Seme
    ensures DaSigla(NatToString(v) + [l]) == Err(ValueError)
  {
    DecimalRoundTrip(v);
    var s := NatToString(v) + [l];
    assert s[..|s| - 1] == NatToString(v);
  }

  /** `Carta.__str__`. */
  function Str(c: Carta): string
  {
    c.seme + " " + IntToString(c.valore)
  }

  lemma NatToStringInjective(m: nat, n: nat)
    requires NatToString(m) == NatToString(n)
    ensures m == n
  {
    DecimalRoundTrip(m);
    DecimalRoundTrip(n);
  }

  lemma IntToStringSign(v: int)
    ensures |IntToString(v)| >= 1 && (IntToString(v)[0] == '-' <==> v < 0)
  {
    DecimalRoundTrip(if v < 0 then -v else v);
  }

  lemma IntToStringInjective(a: int, b: int)
    requires IntToString(a) == IntToString(b)
    ensures a == b
  {
    IntToStringSign(a);
    IntToStringSign(b);
    DecimalRoundTrip(if a < 0 then -a else a);
    DecimalRoundTrip(if b < 0 then -b else b);
    var s := IntToString(a);
    if a < 0 && b < 0 {
      assert NatToString(-a) == s[1..] == NatToString(-b);
      NatToStringInjective(-a, -b);
    } else if a >= 0 && b >= 0 {
      NatToStringInjective(a, b);
    }
  }

  /** `__str__` loses nothing: for suit names without a space, the text determines the card. */
  lemma StrInjective(a: Carta, b: Carta)
    requires ' ' !in a.seme && ' ' !in b.seme
    requires Str(a) == Str(b)
    ensures a == b
  {
    var s := Str(a);
    assert s[|a.seme|] == ' ' && s[|b.seme|] == ' ';
    assert |a.seme| == |b.seme|;
    assert a.seme == s[..|a.seme|] == b.seme;
    assert IntToString(a.valore) == s[|a.seme| + 1..] == IntToString(b.valore);
    IntToStringInjective(a.valore, b.valore);
  }

  // ---- small list queries shared by the scoring code ----

  /** `[c for c in carte if p(c)]`: the cards satisfying `p`, in their order. */
  function FiltraCarte(carte: seq<Carta>, p: Carta -> bool): (r: seq<Carta>)
    ensures |r| <= |carte|
  {
    if carte == [] then []
    else (if p(carte[0]) then [carte[0]] else []) + FiltraCarte(carte[1..], p)
  }

  /** The filter keeps exactly the cards satisfying the condition. */
  lemma {:induction false} FiltraCarteMembri(carte: seq<Carta>, p: Carta -> bool)
    ensures forall c :: c in FiltraCarte(carte, p) <==> c in carte && p(c)
  {
    if carte != [] {
      FiltraCarteMembri(carte[1..], p);
      assert carte == [carte[0]] + carte[1..];
    }
  }

  /** `[c for c in carte if c.seme == seme]`. */
  function FiltraSeme(carte: seq<Carta>, seme: string): (r: seq<Carta>)
    ensures |r| <= |carte|
  {
    FiltraCarte(carte, (c: Carta) => c.seme == seme)
  }

  /** The suit filter keeps exactly the cards of the suit. */
  lemma FiltraSemeMembri(carte: seq<Carta>, seme: string)
    ensures forall c :: c in FiltraSeme(carte, seme) <==> c in carte && c.seme == seme
  {
    FiltraCarteMembri(carte, (c: Carta) => c.seme == seme);
  }

  /** `sum(1 for c in carte if c.seme == 'Denari')`. */
  function ContaDenari(carte: seq<Carta>): (r: nat)
    ensures r == |FiltraSeme(carte, Denari)|
  {
    if carte == [] then 0
    else (if carte[0].seme == Denari then 1 else 0) + ContaDenari(carte[1..])
  }

  /** No coin is counted exactly when the list holds no coin card. */
  lemma ContaDenariZero(carte: seq<Carta>)
    ensures ContaDenari(carte) == 0 <==> forall c :: c in carte ==> c.seme != Denari
  {
    FiltraSemeMembri(carte, Denari);
    if ContaDenari(carte) != 0 {
      assert FiltraSeme(carte, Denari)[0] in FiltraSeme(carte, Denari);
    }
  }

  /** Coin counts add up over concatenated piles. */
  lemma {:induction false} ContaDenariConcat(a: seq<Carta>, b: seq<Carta>)
    ensures ContaDenari(a + b) == ContaDenari(a) + ContaDenari(b)
  {
    if a != [] {
      assert (a + b)[1..] == a[1..] + b;
      ContaDenariConcat(a[1..], b);
    } else {
      assert a + b == b;
    }
  }

  /** `any(c.seme == 'Denari' and c.valore == 7 for c in carte)`: a card has just a suit and
      a rank, so this is membership of the seven of coins. */
  predicate HaSettebello(carte: seq<Carta>)
  {
    Settebello in carte
  }

  /** The membership test agrees with the source's search for a coin card of rank 7. */
  lemma HaSettebelloQualsiasi(carte: seq<Carta>)
    ensures HaSettebello(carte) <==> exists c :: c in carte && c.seme == Denari && c.valore == 7
  {
    if exists c :: c in carte && c.seme == Denari && c.valore == 7 {
      var c :| c in carte && c.seme == Denari && c.valore == 7;
      assert c == Settebello;
    }
  }
}
