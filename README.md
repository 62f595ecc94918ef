# A Scopa engine, modelled and verified in Dafny

This project models the decision and scoring core of a Python engine for Scopa, the Italian
fishing card game. Scopa uses a 40-card deck of four suits (Coppe, Bastoni, Denari, Spade) and
ranks 1 to 10. A player plays one card from the hand. The card either captures table cards
whose ranks match or add up to its own rank, or it is left on the table. Clearing the table
with a capture is a sweep (*scopa*). The modules follow the engine's files:

- `wrappers.dfy` (`Wrappers`): `Option`, `Result` and the three Python exceptions the core
  can raise (`ValueError`, `KeyError`, `TypeError`).
- `lists.dfy` (`Lists`): Python's `list.remove`, meaning the first equal occurrence goes and
  an absent value leaves the list as it is. Also removing a whole capture, one card at a time.
- `sorting.dfy` (`Sorting`): `sorted(..., key=..., reverse=True)`, a stable
  descending sort by an integer key.
- `carta.dfy` (`Cards`): the card `Carta`, its equality, its string form, the
  `da_sigla` parser and the card counts the scorers share.
- `mazzo.dfy` (`Deck`): the 40-card deck and its `elimina_carta`.
- `tavolo.dfy` (`Table`): the table `Tavolo`, a list of cards updated in place.
- `giocatore.dfy` (`Players`): the capture finder (`trova_combinazioni`,
  `cerca_prese_possibili`) and the player `Giocatore`, with `raccogli_carte` and the
  computer-player branch of `gioca_mano`.
- `game_state.dfy` (`GameStates`): the search's `ScopaGameState`, covering move generation and
  ordering, capture and discard scores, the copy-then-change `move` and `evaluate_state`.
- `mcts_agent.dfy` (`MctsAgent`): the glue around the Monte Carlo tree search library. It holds
  the search node, `child_finder`, `node_evaluator`, the policy prior, the discovery factor and
  the root set-up of `scegli_mossa`.
- `punteggio.dfy` (`Scoring`): the end-of-round scorer `Punteggio`.
- `giocatore_automatico.dfy` (`AutoPlayer`): the scripted bot `GiocatoreAutomatico`.
- `agente_montecarlo.dfy` (`HeuristicAgent`): the per-card heuristic agent of
  `AgenteMontecarlo.py`.

The top-level `AgenteMonteCarlo.py` repeats `src/Agent/GameState.py` (its lines 8-157 are
that file's lines 4-153, shifted by four). It also repeats `src/Agent/AgenteMonteCarlo.py`,
except that `child_finder` and `node_evaluator` are closures. One model covers both copies.
Rows below that cite the top-level file state the same property for both copies.

Modelling choices:
- States and moves of the search are values. Python's `deepcopy` in `move` therefore becomes
  "the receiver is a value and is unchanged".
- Classes whose fields the engine updates in place are Dafny classes: `Tavolo`, `Mazzo`,
  `Giocatore`, `Node`, `Punteggio`,
  `GiocatoreAutomatico` and both agents.
- The engine's loops are methods with loop invariants, each proved equal to a function of its
  inputs. The properties are proved about those functions.
- Decimal constants (0.3, 0.15, 0.5, /150) are exact `real`s.

## Model

| member | source | states |
|---|---|---|
| Lists.RemoveFirstPresent | Tavolo.py:17-19 | removing a card that is present deletes exactly its first occurrence, the part before and after it kept in order, so the list is one shorter |
| Lists.RemoveFirstAbsent | Tavolo.py:21-22 | removing an absent card (the caught `ValueError`) leaves the list unchanged |
| Lists.RemoveFirstMultiset | src/GameEngine/Mazzo.py:14-16 | removal takes one copy of the card out of the list's multiset of cards, and nothing else |
| Lists.RemoveEachMultiset | src/GameEngine/Giocatore.py:99-101 | removing the captured cards one by one subtracts the capture's multiset from the table's |
| Lists.RemoveEachLength | src/Agent/GameState.py:109-110 | when the captured cards are all on the table, the table shrinks by exactly the capture's size |
| Sorting.SortDescSorted | src/Agent/GameState.py:34-36 | the sort's output is non-increasing in the key |
| Sorting.SortDescPermutation | src/Agent/GameState.py:45 | the sort's output is a permutation of its input |
| Sorting.SortDescStable | src/Agent/GameState.py:44-45 | for every key value, the elements with that key keep their input order (Python's sort is stable) |
| Cards.Uguale | Carta.py:17-21 | `__eq__` is true exactly when the other value is a card with the same rank and suit; a non-card is never equal |
| Cards.DaSigla | Carta.py:23-34 | parsing succeeds exactly when the text before the last character is a decimal number from 1 to 10 and the last character, upper-cased, is C, B, D or S; the card has that suit and rank; any other input gives `ValueError` |
| Cards.DaSiglaRoundTrip | Carta.py:26-32 | for every rank 1..10 and suit letter of either case, parsing the rank's decimal text followed by the letter gives back that card |
| Cards.DaSiglaRejects | Carta.py:29-34 | a rank of 0 or above 10, or a letter that is not a suit, is rejected with `ValueError` |
| Cards.StrInjective | Carta.py:14-15 | the text `"<seme> <valore>"` identifies the card: two cards (suit names without spaces) with the same text are equal |
| Cards.IntToStringSign | Carta.py:15 | the decimal text of a rank is non-empty and starts with `-` exactly for a negative rank |
| Cards.FiltraCarteMembri | src/Agent/GameState.py:144 | a list comprehension over cards keeps exactly the cards of the list that satisfy its condition |
| Cards.FiltraSemeMembri | src/Agent/GameState.py:144 | the cards of a suit are exactly the cards of the list with that suit |
| Cards.ContaDenari | Punteggio.py:11-13 | the coin count is the number of cards of suit Denari |
| Cards.ContaDenariZero | src/Agent/AgenteMonteCarlo.py:99 | the coin count is zero exactly when no card of the list is a coin card |
| Cards.ContaDenariConcat | src/GameEngine/Giocatore.py:101 | the coin count of two lists put together is the sum of their counts |
| Cards.HaSettebelloQualsiasi | Punteggio.py:15-17 | the seven-of-coins test holds exactly when the list holds the seven of Denari |
| Deck.CreaMazzo | src/GameEngine/Mazzo.py:9-12 | the deck has 40 cards and card i is suit C, B, D, S for i / 10 = 0..3 with rank i % 10 + 1, in suit-major then ascending-rank order |
| Deck.MazzoSoloCarteValide | src/GameEngine/Mazzo.py:10-12 | every card of the deck has one of the four suits and a rank from 1 to 10 |
| Deck.MazzoOgniCartaUnaVolta | src/GameEngine/Mazzo.py:12 | each of the 40 (suit, rank) cards occurs exactly once in the deck |
| Deck.Mazzo.constructor | src/GameEngine/Mazzo.py:5-6 | a new deck holds the 40 cards of `crea_mazzo` |
| Deck.Mazzo.EliminaCarta | src/GameEngine/Mazzo.py:14-19 | the deck loses the first equal occurrence of a present card and is one shorter; an absent card leaves it unchanged |
| Table.Tavolo.constructor | Tavolo.py:7-8 | a new table is empty |
| Table.Tavolo.AggiungiCartaDaMazzo | Tavolo.py:10-12 | the card is appended to the table and one occurrence of it leaves the deck; when it was in the deck, table and deck together hold the same cards as before |
| Table.Tavolo.AggiungiCartaDaGiocatore | Tavolo.py:14-15 | the card is appended at the end of the table and nothing else changes |
| Table.Tavolo.EliminaCarta | Tavolo.py:17-22 | the table loses the first equal occurrence of a present card and is one shorter; an absent card leaves it unchanged |
| Players.DiretteMembri | src/GameEngine/Giocatore.py:48 | the direct takes are exactly the table cards of the played rank |
| Players.CombinazioniCorrette | src/GameEngine/Giocatore.py:28-41 | every combination the search records is the current prefix followed by an order-preserving selection of table cards (each card used at most once) |
| Players.RamiCorretti | src/GameEngine/Giocatore.py:35-41 | every combination found by the loop over the table is the prefix followed by an order-preserving selection of that table |
| Players.CombinazioniComplete | src/GameEngine/Giocatore.py:30-40 | with ranks at least 1, every order-preserving selection of table cards whose ranks add up to the target is recorded |
| Players.RamiCompleti | src/GameEngine/Giocatore.py:35-40 | with ranks at least 1, every non-empty selection adding up to the target is found by the loop over the table |
| Players.FiltraContenuto | src/GameEngine/Giocatore.py:59-62 | the filter keeps exactly the combinations already kept plus those of more than one card |
| Players.FiltraSenzaDuplicati | src/GameEngine/Giocatore.py:60-62 | the filter never keeps the same combination twice |
| Players.DiretteVuote | src/GameEngine/Giocatore.py:54-55 | the subset-sum search runs exactly when no table card has the played rank |
| Players.PreseSommano | src/GameEngine/Giocatore.py:43-64 | every capture offered is non-empty, its ranks add up to the played card's rank and its cards are all on the table |
| Players.PreseDirette | src/GameEngine/Giocatore.py:48-52 | with a direct take, the captures are exactly the singletons of the matching cards, in table order, and no sum combination |
| Players.PreseSomme | src/GameEngine/Giocatore.py:55-62 | without a direct take, every capture has at least two cards and is an order-preserving selection of the table |
| Players.PreseComplete | src/GameEngine/Giocatore.py:56-62 | without a direct take and with ranks at least 1, every order-preserving selection of two or more cards adding up to the played rank is offered |
| Players.PreseSenzaDuplicati | src/GameEngine/Giocatore.py:59-62 | no capture is offered twice (for direct takes, as long as the table holds no two equal cards) |
| Players.PreseVuote | src/GameEngine/Giocatore.py:45-64 | with ranks at least 1, no capture is offered exactly when no table card has the played rank and no selection of two or more cards adds up to it; this is a normal return |
| Players.MigliorPresaMassima | src/GameEngine/Giocatore.py:124 | the capture chosen by `max` with key (size, rank sum) is beaten by no capture, and every capture before its first occurrence is strictly smaller |
| Players.Giocatore.constructor | src/GameEngine/Giocatore.py:5-8 | a new player has an empty hand, an empty pile and no sweeps |
| Players.Giocatore.AggiungiMano | src/GameEngine/Giocatore.py:24-26 | the card joins the end of the hand and one occurrence of it leaves the deck |
| Players.Giocatore.TrovaCombinazioni | src/GameEngine/Giocatore.py:28-41 | the recursive search appends to the shared accumulator exactly the combinations of the search |
| Players.Giocatore.CercaPresePossibili | src/GameEngine/Giocatore.py:43-64 | the loops compute the captures the properties above describe |
| Players.Giocatore.CarteDirette | src/GameEngine/Giocatore.py:48 | the comprehension returns the table cards of the played rank, in table order |
| Players.Giocatore.SenzaDoppioni | src/GameEngine/Giocatore.py:59-62 | the filtering loop keeps the combinations of more than one card, each once, in the order found |
| Players.Giocatore.RaccogliCarte | src/GameEngine/Giocatore.py:96-110 | the captured cards leave the table and join the pile in order, followed by the played card; the sweep count rises by one exactly when the table is then empty and the hand is not |
| Players.Giocatore.GiocaManoIA | src/GameEngine/Giocatore.py:112-133 | with an empty hand nothing happens; otherwise the best capture by (size, rank sum) is collected, or the card is discarded to the table; the card leaves the hand after the capture step, so a table-clearing capture always counts a sweep; the result says whether it captured |
| GameStates.NuovoStato | src/Agent/GameState.py:5-21 | the new state holds the player's sweep count, the table, the hand and both piles, and no last move |
| GameStates.ValutaPresa | src/Agent/GameState.py:47-71 | the capture score is at least 10 per captured card (so at least 10 for any capture) and at most 90 plus 45 per card |
| GameStates.ValutaScarto | src/Agent/GameState.py:73-89 | the discard score lies in [-55, 10], is 10 exactly for a non-coin card of rank 2, 3 or 4, and is at most -30 for any coin card |
| GameStates.ValutaMossa | src/Agent/GameState.py:91-97 | a capture scores at least 10 and a discard at most 10 |
| GameStates.GetPossibleMoves | src/Agent/GameState.py:23-45 | the generation loop and the final sort return the moves the three lemmas below describe |
| GameStates.MosseCarta | src/Agent/GameState.py:30-42 | one hand card yields one move per capture, best capture first, or its discard when it has none |
| GameStates.NumeroMosse | src/Agent/GameState.py:28-42 | the number of moves is the sum over hand cards of the number of their captures, or 1 for a card without any |
| GameStates.MosseContenuto | src/Agent/GameState.py:28-45 | a move is offered exactly when its card is in the hand and it is one of the card's captures, or the card has none and the move is its discard |
| GameStates.MosseOrdinate | AgenteMonteCarlo.py:32-49 | the moves are non-increasing in `_valuta_mossa`, and moves of equal score keep their generation order |
| GameStates.CattureAvantiScarti | src/Agent/GameState.py:45 | a discard comes before a capture only when both score exactly 10 |
| GameStates.MosseLegali | src/Agent/GameState.py:105-110 | every offered move can be applied: its card is in the hand and its captured cards are on the table |
| GameStates.Move | src/Agent/GameState.py:99-123 | the copy-then-change steps of `move` give the state `Applica` describes; the receiver, a value, is unchanged |
| GameStates.ApplicaMano | src/Agent/GameState.py:104-105 | the new hand is the old one minus one copy of the played card, one shorter; the opponent's pile is untouched and the new state remembers the move |
| GameStates.ApplicaCattura | AgenteMonteCarlo.py:106-117 | a capture takes exactly the captured cards off the table, which shrinks by their number, and the pile gains them followed by the played card |
| GameStates.ApplicaScarto | src/Agent/GameState.py:118-120 | a discard puts the card at the end of the table, and the pile and the sweep count stay as they were |
| GameStates.ApplicaScopa | AgenteMonteCarlo.py:120-121 | a sweep is credited exactly when the move captures the whole table and at least one card remains in the hand after the played one |
| GameStates.ApplicaConserva | src/Agent/GameState.py:102-120 | no card appears or vanishes: hand, table and pile together hold the same cards before and after |
| GameStates.ValorePrimieraStima | src/Agent/GameState.py:142 | the evaluator's primiera value of a rank lies in [0, 21] |
| GameStates.MassimoStima | src/Agent/GameState.py:146 | the maximum primiera value of a suit's cards bounds every card's value and is reached by one of them |
| GameStates.TermineSeme | src/Agent/GameState.py:143-147 | a suit adds between 0 and 10.5 to the evaluation |
| GameStates.EvaluateState | src/Agent/GameState.py:125-153 | the evaluation lies in [-1, 1], and in [0, 1] whenever the sweep count is not negative |
| GameStates.EvaluateSenzaTaglio | AgenteMonteCarlo.py:129-157 | with no sweep and at most ten coin cards the clamp does not bind: the value is the weighted sum over 150, below 1 |
| GameStates.EvaluateMonotonaScope | AgenteMonteCarlo.py:134 | one more sweep never lowers the evaluation |
| MctsAgent.Node.constructor | src/Agent/AgenteMonteCarlo.py:31 | a new node holds the given state, with no children and no parent |
| MctsAgent.Node.AddChild | src/Agent/AgenteMonteCarlo.py:72 | the child is appended to the node's children and records the node as its parent |
| MctsAgent.CalculatePolicyValue | src/Agent/AgenteMonteCarlo.py:84-106 | the policy value lies in [0.3, 0.9] |
| MctsAgent.PolicyValueCasi | AgenteMonteCarlo.py:228-241 | the policy value is 0.3 exactly for a discard, 0.5 for a capture without coins, 0.65 for one with coins but not the seven of coins, and 0.9 for one with the seven of coins; the cap at 1 never applies |
| MctsAgent.CalculateDiscoveryFactor | src/Agent/AgenteMonteCarlo.py:108-130 | the discovery factor lies in [0.4, 0.75] |
| MctsAgent.DiscoveryFactorEstremi | AgenteMonteCarlo.py:250-265 | the factor is 0.4 exactly when no bonus applies (no sweep, fewer than five coin cards, fewer than two hand cards) and 0.75 exactly when all three apply; the cap at 0.8 never binds |
| MctsAgent.NodeEvaluator | src/Agent/AgenteMonteCarlo.py:74-82 | a node is valued by its state's evaluation, which lies in [0, 1] whenever the sweep count is not negative |
| MctsAgent.AlmenoUnaMossaPerCarta | src/Agent/GameState.py:37-42 | a hand of n cards offers at least n moves |
| MctsAgent.TutteLegali | src/Agent/AgenteMonteCarlo.py:58-60 | `move` can be applied to every move `get_possible_moves` offers |
| MctsAgent.ChildFinder | src/Agent/AgenteMonteCarlo.py:51-72 | expansion appends one new child per offered move, in order; each child holds the state that move leads to, the other player's number (3 minus the parent's), that move's policy value and the discovery factor of the new state; the node's own state does not change |
| MctsAgent.AggiungiFigli | AgenteMonteCarlo.py:189-202 | the closure's loop appends, after the existing children, one new child per move as above |
| MctsAgent.AggiungiFiglio | src/Agent/AgenteMonteCarlo.py:59-72 | one loop step appends one new child for the move below the node |
| MctsAgent.NuovoFiglio | AgenteMonteCarlo.py:191-200 | the new child holds the moved state, the other player's number, the policy value and the discovery factor |
| MctsAgent.FiglioDiNumero | src/Agent/AgenteMonteCarlo.py:60-62 | a child built by the expansion for any move carries 3 minus its parent's player number and records that parent |
| MctsAgent.FigliAttesiFigli | src/Agent/AgenteMonteCarlo.py:57-72 | every child an expansion appends is a child built for some move below that node |
| MctsAgent.Alternanza | AgenteMonteCarlo.py:180-193 | along any path from a root numbered 1 in which each node is a child the expansion built below the one before it, the player numbers alternate 1, 2, 1, ... by depth |
| MctsAgent.NuovaRadice | src/Agent/AgenteMonteCarlo.py:30-33 | the root is a fresh node holding the initial state, with player number 1, discovery factor 0.4, no children and no parent |
| MctsAgent.RadiceEspansa | src/Agent/AgenteMonteCarlo.py:30-39 | after expansion the root still holds the initial state with player number 1 and discovery factor 0.4, and has one fresh child per offered move, in order, as the expansion builds it, each with player number 2 and the root as parent |
| MctsAgent.AgenteMonteCarlo.constructor | src/Agent/AgenteMonteCarlo.py:6-12 | the agent is bound to its player |
| MctsAgent.AgenteMonteCarlo.ScegliMossa | src/Agent/AgenteMonteCarlo.py:14-49 | the returned card is the card of the offered move at the position the search picks (taken modulo the number of moves); so it is in the player's hand and belongs to a move the root state offers |
| Scoring.CalcolaCarteLungo | Punteggio.py:5-9 | the card-count point is 0 or 1, and it is 1 exactly when the player has strictly more cards |
| Scoring.CarteLungoEsclusivo | Punteggio.py:66-68 | the two players never both get the card-count point, and a tie gives it to neither |
| Scoring.CalcolaValorePrimiera | Punteggio.py:19-33 | a rank 1..10 is worth 10 to 21, any other key 0, and 21 exactly for the seven |
| Scoring.MaxPrimiera | Punteggio.py:52-55 | the best primiera value of a non-empty suit lies in [0, 21] |
| Scoring.MaxPrimieraMassimo | Punteggio.py:52-55 | the best value of a suit bounds every card's primiera value and is reached by one of the suit's cards |
| Scoring.ValoreSeme | Punteggio.py:50-59 | a suit's entry in the breakdown lies in [0, 21] |
| Scoring.CalcolaPrimiera | Punteggio.py:35-61 | the method computes the primiera specified by the lemmas below, or `KeyError` |
| Scoring.RaggruppaPerSeme | Punteggio.py:38-46 | grouping fails with `KeyError` exactly when some card's suit is not one of the four; otherwise each suit gets its cards in pile order |
| Scoring.ValoriPerSeme | Punteggio.py:49-59 | the second loop gives every suit its best primiera value, 0 for an empty suit |
| Scoring.PrimieraLimiti | Punteggio.py:49-61 | the breakdown has exactly the four suits, each in [0, 21], and the total is their sum, in [0, 84] |
| Scoring.PrimieraMigliorCarta | Punteggio.py:50-59 | a suit's entry is 0 when the suit has no card; otherwise it is the primiera value of one of its cards and no card of the suit is worth more |
| Scoring.PrimieraErrore | Punteggio.py:45-46 | the primiera fails exactly when some card's suit is not one of the four, and then with `KeyError` |
| Scoring.CalcolaPunteggioRound | Punteggio.py:63-110 | the round fails exactly when either pile holds a card of an unknown suit; otherwise the total is card-count + coins + seven of coins + sweeps + primiera point, each point 1 exactly when strictly ahead (the seven when it is in the player's pile), the primiera point 1 exactly when the player's primiera total is strictly larger; the breakdown records each of these parts, the total, both pile sizes, both coin counts, and both piles' primiera totals and per-suit primiera breakdowns as `calcola_primiera` computes them |
| Scoring.PuntiEsclusivi | Punteggio.py:82-85 | scoring the round from both sides, the card-count, coins and primiera points never go to both players, and a tie in any of them gives that point to neither |
| Scoring.Punteggio.constructor | Punteggio.py:2-3 | a new scorer starts from 0 |
| Scoring.Punteggio.AggiungiPunteggio | Punteggio.py:112-114 | the running total rises by exactly the points given |
| AutoPlayer.GiocataManoVuota | GiocatoreAutomatico.py:11-12 | with an empty hand the bot reports no capture and hand, table, pile and sweeps are unchanged |
| AutoPlayer.GiocataPrimaCarta | GiocatoreAutomatico.py:15-26 | the bot plays the first card of its hand, and the hand loses exactly that card |
| AutoPlayer.GiocataEffetti | GiocatoreAutomatico.py:16-27 | the bot reports a capture exactly when one is offered; then the first capture offered leaves the table and joins the pile followed by the card; otherwise the card goes to the end of the table and pile and sweeps stay as they were |
| AutoPlayer.GiocataConserva | GiocatoreAutomatico.py:9-27 | hand, table and pile together hold the same cards before and after the bot's play |
| AutoPlayer.GiocataScopa | GiocatoreAutomatico.py:21 | as written, a capture that clears the table always counts a sweep |
| AutoPlayer.ScopaUltimaCarta | GiocatoreAutomatico.py:26 | with the four of coins as the last card in hand and the four of swords alone on the table, the bot as written is credited a sweep; the corrected play is not |
| AutoPlayer.GiocataCorrettaScopa | src/GameEngine/Giocatore.py:106-108 | with the card removed first, a sweep counts exactly when the capture clears the table and cards remain in the hand |
| AutoPlayer.GiocataCorrettaComeMove | src/Agent/GameState.py:104-117 | the corrected bot play agrees with the search's `move` of the same card and capture, in hand, table, pile and sweeps |
| AutoPlayer.GiocatoreAutomatico.constructor | GiocatoreAutomatico.py:5-7 | a new bot has its name, an empty hand, an empty pile and no sweeps |
| AutoPlayer.GiocatoreAutomatico.GiocaMano | GiocatoreAutomatico.py:9-27 | the method's new hand, table, pile, sweeps and result are those of the bot's play as written |
| AutoPlayer.GiocatoreAutomatico.GiocaManoCorretta | GiocatoreAutomatico.py:15-26 | the same with the card removed from the hand before the capture step |
| HeuristicAgent.ValoreSimulazioneCasi | AgenteMontecarlo.py:46-57 | a card without captures adds 0; otherwise it adds the size of the best capture plus the card's own rank (the capture's rank sum), plus 5 exactly when that capture empties the table; no capture beats the best one |
| HeuristicAgent.ValoreNulloSenzaPrese | AgenteMontecarlo.py:49-60 | for a card of non-negative rank the value is 0 exactly when it captures nothing |
| HeuristicAgent.PrimoMassimoProprieta | AgenteMontecarlo.py:32 | `max` with a key returns an element whose key no element exceeds, and every element before its first occurrence has a smaller key |
| HeuristicAgent.MigliorCartaMassima | AgenteMontecarlo.py:26-32 | the card chosen has the largest valuation in the hand, and every card before it has a smaller one |
| HeuristicAgent.AgenteMonteCarlo.constructor | AgenteMontecarlo.py:6-8 | the agent is bound to its player and runs 100 simulations |
| HeuristicAgent.AgenteMonteCarlo.ValutaCarta | AgenteMontecarlo.py:34-60 | every simulation adds the same amount, so the average is exactly one simulation's value; the caller's table is not modified |
| HeuristicAgent.AgenteMonteCarlo.Simulazione | AgenteMontecarlo.py:41-57 | one simulation on a copy of the table gives the card's value |
| HeuristicAgent.AgenteMonteCarlo.ScegliMossa | AgenteMontecarlo.py:10-32 | as written: `None` for an empty hand, the only card for a one-card hand, and `TypeError` for two or more cards |
| HeuristicAgent.AgenteMonteCarlo.ScegliMossaCorretta | AgenteMontecarlo.py:16-32 | corrected: `None` for an empty hand; otherwise the first card of largest valuation |
| HeuristicAgent.AgenteMonteCarlo.PrimaMigliore | AgenteMontecarlo.py:27-32 | valuing each card and keeping the first strictly better one gives the card `max` picks |

## Left out

- The Monte Carlo tree search library is not part of this model. It does the selection,
  back-propagation, `simulate(1000)` and `make_choice`. Its final choice is the parameter
  `scelta` of `MctsAgent.AgenteMonteCarlo.ScegliMossa`.
- MctsAgent.AgenteMonteCarlo.ScegliMossa: requires a non-empty hand. With an empty hand the
  root has no children and the library's choice is undefined. `gioca_mano` never calls the
  agent then (src/GameEngine/Giocatore.py:114-115).
- Players.Giocatore.GiocaManoIA: takes the agent's chosen card as a parameter and requires it
  to be in the hand whenever the hand is non-empty. `MctsAgent.AgenteMonteCarlo.ScegliMossa`
  proves it always is. The agent call itself is the library's business.
- Human input and output in `src/GameEngine/Giocatore.py` are not modelled. This covers
  `clear_screen`, `print_separator`, `mostra_combinazioni`, `get_valid_choice`, `mostra_mano`,
  the `input()` loop of `gioca_mano` (lines 135-173), and every `print` and `time.sleep`.
  They are terminal I/O.
- `Mazzo.mescola` is not modelled: it is `random.shuffle`. `stampa_mazzo` and `stampa_carte`
  are not modelled either: they only print. A new `Mazzo` is therefore the unshuffled deck.
- `Main.py`, `MainAutomatico.py` and `Evaluation/ValutationGame.py` are not modelled. They are
  turn loops over a shuffled deck with timing and report writing.
- The top-level `Giocatore.py` is not part of this model. It is a stub without capture logic;
  `GiocatoreAutomatico` is modelled on the full player of `src/GameEngine/Giocatore.py`.
- Cards.DaSigla: accepts only decimal digits before the suit letter. Python's `int()` also
  takes surrounding white space, a sign and underscores.
- Cards.DaSigla: upper-cases ASCII letters only.
- `float` arithmetic is exact `real` arithmetic. No rounding is modelled.
- `deepcopy` in `move` and in `ScopaGameState.__init__` is value semantics. States and moves are
  datatypes, so the receiver is unchanged by construction.
- A state's player object is reduced to its sweep count `scope`. That is the only field of it
  the search reads or writes.
- Players.Giocatore.TrovaCombinazioni: the shared accumulator list is passed in and handed back
  as a value, not mutated through an alias.
- GameStates.Move: requires a legal move: the card is in the hand and the captured cards are on
  the table. `move` raises `ValueError` on any other move, and that error path is not modelled.
  Every generated move is legal (`GameStates.MosseLegali`).
- GameStates.ValutaPresa: its contract gives bounds only. The exact formula is its body.
- Several loop bodies are separate methods, each proved against the same function as the loop:
  `GameStates.MosseCarta`, `MctsAgent.AggiungiFigli`, `MctsAgent.AggiungiFiglio`,
  `MctsAgent.NuovoFiglio`, `Players.Giocatore.CarteDirette`, `Players.Giocatore.SenzaDoppioni`,
  `Scoring.RaggruppaPerSeme`, `Scoring.ValoriPerSeme`,
  `HeuristicAgent.AgenteMonteCarlo.Simulazione` and
  `HeuristicAgent.AgenteMonteCarlo.PrimaMigliore`.
- `_calculate_policy_value`, `_calculate_discovery_factor` and `node_evaluator` are module
  functions. They read no field of the agent.
- HeuristicAgent.AgenteMonteCarlo.ScegliMossaCorretta: folds the dictionary of valuations into
  a running maximum over the hand. With unique keys, `max` over the dictionary scans it in
  insertion order. Equal cards in the hand would share one dictionary entry, but that does not
  change which card is chosen.
- HeuristicAgent.ValoreNulloSenzaPrese: requires a non-negative rank. A card of negative rank
  could have a capture worth 0.
- Players.PreseComplete, Players.PreseVuote, Players.CombinazioniComplete and
  Players.RamiCompleti: require table ranks of at least 1. The search stops at a sum of exactly
  0, so a card of rank 0 or below could hide longer combinations.

## Findings

| source | as written | input that shows it | evidently intended | confidence | as-written member | corrected member |
|---|---|---|---|---|---|---|
| GiocatoreAutomatico.py:21-26 | the played card is removed from the hand after `raccogli_carte`, whose sweep test reads the hand, so a table-clearing capture with the last card counts a sweep (the AI branch at src/GameEngine/Giocatore.py:125-132 has the same order) | hand [4 of Denari], table [4 of Spade]: the capture empties hand and table and the sweep count goes from 0 to 1 | no sweep for the last card of the hand (src/GameEngine/Giocatore.py:106-107), as the search's `move` does by removing the card first (src/Agent/GameState.py:105-117) | not executed | AutoPlayer.ScopaUltimaCarta | AutoPlayer.GiocataCorrettaScopa |
| AgenteMontecarlo.py:29 | `valutazioni[carta] = ...` keys a dictionary by `Carta`, which defines `__eq__` without `__hash__` (Carta.py:17-21) and so is unhashable: every hand of two or more cards raises `TypeError` | any hand of two cards, e.g. [1 of Coppe, 2 of Coppe] | the first card of largest valuation, as `max(valutazioni, key=valutazioni.get)` at line 32 would return | not executed | HeuristicAgent.AgenteMonteCarlo.ScegliMossa | HeuristicAgent.AgenteMonteCarlo.ScegliMossaCorretta |
