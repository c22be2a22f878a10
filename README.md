# Three-card poker analyzer, modelled in Dafny

The repository analyses a three-card poker game. The model covers these parts:

- **Classifier.** `get_hand` sorts three cards into one of six categories: straight flush, three of a kind, straight, flush, pair and high card. It uses a precedence cascade over four predicates: `is_sequence`, `is_same_suit`, `is_same_rank` and `is_two_same_rank`.
- **Frequency table.** `HandTable` holds six counters, one per category. `push_sequence` bumps them in place and `Add` merges two tables.
- **Expected returns.** `calculate_return` and `calculate_pay` work on a partial paytable. `calcualte_return_full` works on a complete one.
- **Paytable search.** `build_paytable` is a depth-first search that fills empty paytable slots with decreasing payouts until the expected return falls in a band.
- **Discard advisor.** `optimal_play` tries every replacement for each held card and discards the card whose replacement has the best expected return, if that beats standing pat.
- **Enumeration.** `generate_all_games` pushes every ordered draw of three distinct cards of the 52-card deck into one table, then runs the paytable search on it.
- **Ranks and suits.** `Rank` and `Suit` are enums with integer discriminants. `from_num`, `partial_cmp` and the `Step` operations step over them.

`cards/src/main.rs` is the current analyzer. `src/main.rs` is an older copy: its classifier and table take a tuple `(Card, Card, Card)` where the current one takes `[Card; 3]`. Its predicates, deck and paytable search behave the same, although the text differs in places: `src/main.rs` writes `.filter(is_some).map(unwrap)` where `cards/src/main.rs` writes `.flatten()`, and it calls `calculate_pay` where the newer copy calls `calculate_return`. The model shares the common behaviour between the two copies. Module `Legacy` declares again the tuple-taking members (`get_hand`, `push_sequence` and the enumeration loops), and the `HandTable` class with its `calculate_pay` and `build_paytable`.

Modules, one per file:

- `Common`: `Option` and `Ordering`.
- `Ranks` and `Suits`: from `src/rank.rs` and `src/suit.rs`.
- `Hands`: the category enum.
- `Classifier`: the cards and `get_hand`.
- `Deck`: `generate_deck`.
- `Tallies`: counters as values.
- `Returns`: expected returns, in exact rationals.
- `Paytables`: `build_paytable`.
- `HandTables`: the `HandTable` class, with its counters in an array updated in place.
- `Advisor`: `optimal_play`.
- `Enumeration`: the triple loop of `generate_all_games`.
- `Legacy`: the tuple-based copy in `src/main.rs`.

Each imperative routine is a method whose loops carry invariants. Its `ensures` ties the result or the new table to a specification function: `Tally` of the classified draws, `Advice`, or `Search`. The properties the source promises are proved about those functions.

`src/rank.rs` and `src/suit.rs` spell their variants in capitals (`QUEEN`, `KING` and `CLUBS`). Both `main.rs` files write `Rank::Queen` and `Suit::Clubs`. The model names the variants once, in the second spelling, with the discriminants `src/rank.rs` and `src/suit.rs` give: `A = 1` … `King = 13` and `Clubs = 0` … `Diamonds = 3`. `suites.sort()` on ranks is modelled as sorting by discriminant.

## Model

| member | source | states |
|---|---|---|
| Common.Compare | src/rank.rs:37-41 | the unsigned `cmp` is `Less`, `Equal` or `Greater` exactly when `x < y`, `x == y` or `x > y` |
| Ranks.Ord | src/rank.rs:1-16 | every rank discriminant lies in 1..13 |
| Ranks.FromNum | src/rank.rs:17-36 | `from_num(n)` is `Some` iff `1 <= n <= 13`, and the rank it gives has discriminant `n` |
| Ranks.FromNumOrd | src/rank.rs:1-36 | decoding a rank's discriminant gives the rank back |
| Ranks.OrdInjective | src/rank.rs:1-16 | two ranks have the same discriminant iff they are equal |
| Ranks.PartialCmp | src/rank.rs:37-41 | `partial_cmp` is never `None`; it answers `Less`/`Equal`/`Greater` exactly as the discriminants compare |
| Ranks.ForwardChecked | src/rank.rs:46-49 | `forward_checked(s, c)` is `Some` iff `ord(s) + c <= 13`, and the result has discriminant `ord(s) + c` |
| Ranks.BackwardChecked | src/rank.rs:50-57 | `backward_checked(s, c)` is `Some` iff `c < ord(s)`; `c == ord(s)` reaches the missing discriminant 0 |
| Ranks.StepsBetween | src/rank.rs:43-45 | given `ord(s) <= ord(e)`, `steps_between` is `Some(n)` with `forward_checked(s, n) == Some(e)` |
| Ranks.ForwardThenBackward | src/rank.rs:46-57 | stepping forward `c` places and then back `c` places returns to the start |
| Ranks.BackwardThenForward | src/rank.rs:46-57 | stepping back `c` places and then forward `c` places returns to the start |
| Suits.Ord | src/suit.rs:1-7 | every suit discriminant lies in 0..3 |
| Suits.FromNum | src/suit.rs:8-18 | `from_num(n)` is `Some` iff `n <= 3`, and the suit it gives has discriminant `n` |
| Suits.FromNumOrd | src/suit.rs:1-18 | decoding a suit's discriminant gives the suit back |
| Suits.OrdInjective | src/suit.rs:1-7 | two suits have the same discriminant iff they are equal |
| Suits.PartialCmp | src/suit.rs:19-23 | `partial_cmp` is never `None` and agrees with the discriminants |
| Suits.ForwardChecked | src/suit.rs:28-31 | `forward_checked(s, c)` is `Some` iff `ord(s) + c <= 3`, and the result has discriminant `ord(s) + c` |
| Suits.BackwardChecked | src/suit.rs:32-39 | `backward_checked(s, c)` is `Some` iff `c <= ord(s)`, since discriminant 0 is a suit |
| Suits.StepsBetween | src/suit.rs:25-27 | given `ord(s) <= ord(e)`, `steps_between` is `Some(n)` with `forward_checked(s, n) == Some(e)` |
| Suits.ForwardThenBackward | src/suit.rs:28-39 | stepping forward and then back by the same count returns to the start |
| Suits.BackwardThenForward | src/suit.rs:28-39 | stepping back and then forward by the same count returns to the start |
| Hands.Index | cards/src/main.rs:8-16 | `hand as usize` is below the slot count 6 |
| Hands.FromIndex | cards/src/main.rs:17-29 | `Hand::from(i)` succeeds iff `i <= 5`, and gives the category with index `i`; larger indices are the panic |
| Hands.FromIndexIndex | cards/src/main.rs:8-29 | `Hand::from(h as usize) == h` for every category |
| Hands.PartialCmp | cards/src/main.rs:30-34 | the category order is reversed: `a` is greater than `b` iff `a`'s index is smaller, equal iff `a == b` |
| Classifier.SortRanks | cards/src/main.rs:73-74 | the sorted rank vector has three entries, is ordered by discriminant, and is a permutation of the input ranks |
| Classifier.IsSequence | cards/src/main.rs:72-80 | `is_sequence` on the sorted ranks; its meaning without sorting is `Classifier.IsSequenceIff`, and the unit test is `Classifier.ClassifierExamples` |
| Classifier.IsSameSuit | cards/src/main.rs:81-83 | `is_same_suit`: all three suits equal; used by `Classifier.GetHandMeaning` |
| Classifier.IsSameRank | cards/src/main.rs:84-86 | `is_same_rank`: all three ranks equal; used by `Classifier.GetHandMeaning` |
| Classifier.IsTwoSameRank | cards/src/main.rs:87-91 | `is_two_same_rank` on the sorted ranks; its meaning without sorting is `Classifier.IsTwoSameRankIff` |
| Classifier.GetHand | cards/src/main.rs:92-110 | the precedence cascade; what each category means is `Classifier.GetHandMeaning`, and order independence is `Classifier.GetHandPermutation` |
| Classifier.SortedOrdinals | cards/src/main.rs:72-91 | for a sorted rearrangement `p <= q <= r` of three ordinals, consecutive neighbours mean three distinct values spanning 2, neighbours `1, 12, 13` mean exactly those three values, and two equal neighbours mean some two values are equal |
| Classifier.IsSequenceIff | cards/src/main.rs:72-80 | `is_sequence` holds iff the three ranks are distinct and span three consecutive ordinals, or are exactly A, Queen and King, with no sorting involved |
| Classifier.IsTwoSameRankIff | cards/src/main.rs:87-91 | `is_two_same_rank` holds iff some two of the three ranks are equal |
| Classifier.OrdFacts | src/rank.rs:1-16 | rank equality, and being A, Queen or King, can be read off the discriminants |
| Classifier.GetHandMeaning | cards/src/main.rs:92-110 | the cascade, stated without sorting: each category holds iff its own test holds and every stronger test fails; so a three of a kind or pair is never single-suited |
| Classifier.SamePredicatesSameHand | cards/src/main.rs:92-110 | `get_hand` reads its cards only through the four predicates |
| Classifier.RunSwaps | cards/src/main.rs:72-91 | the order-free run test and the equal-ranks test do not depend on card order |
| Classifier.SwapFirstTwo | cards/src/main.rs:72-110 | swapping the first two cards keeps the category |
| Classifier.SwapLastTwo | cards/src/main.rs:72-110 | swapping the last two cards keeps the category |
| Classifier.GetHandPermutation | cards/src/main.rs:72-110 | all six orders of three cards get the same category |
| Classifier.ClassifierExamples | cards/src/main.rs:285-317 | A-2-3 is a sequence and A-2-4 is not (the unit test); as hands of one suit they are a straight flush and a flush |
| Classifier.CascadeExamples | cards/src/main.rs:92-110 | A-Q-K of one suit is a straight flush, of mixed suits a straight; 5-5-5 is three of a kind, 5-5-7 a pair, K-A-2 a high card |
| Deck.RankRange | cards/src/main.rs:119 | the inclusive rank range `start..=end` is empty when `start > end`, otherwise has `end - start + 1` ranks with consecutive discriminants from `start` |
| Deck.SuitRange | cards/src/main.rs:118 | the inclusive suit range is empty when `start > end`, otherwise has consecutive discriminants from `start` |
| Deck.SuitRow | cards/src/main.rs:119 | one suit's row holds 13 cards of that suit with discriminants 1 to 13 in order |
| Deck.GenerateDeck | cards/src/main.rs:117-121 | the suits in the outer loop, the ranks in the inner one; its layout is `Deck.DeckAt` and `Deck.DeckLayout` |
| Deck.SuitRowsLength | cards/src/main.rs:117-121 | the flattened rows of `n` suits hold `13 * n` cards |
| Deck.SuitRowsAt | cards/src/main.rs:117-121 | position `13 * q + r` of the rows holds rank `r + 1` of the `q`-th suit |
| Deck.DeckAt | cards/src/main.rs:117-121 | deck position `n` holds suit `n / 13` and rank `n % 13 + 1`: suit-major order |
| Deck.DeckIndex | cards/src/main.rs:117-121 | every card has a deck position below 52 |
| Deck.DeckLayout | cards/src/main.rs:117-121 | the deck has 52 cards, each card sits at its position, and no card appears twice |
| Deck.DeckComplete | src/main.rs:74-78 | every suit and rank combination is in the deck |
| Tallies.Total | cards/src/main.rs:144 | `hands.iter().sum()`; how pushes and sums change it is `Tallies.Bump`, `Tallies.TotalPointwise` and `Tallies.TallyCounts` |
| Tallies.TotalUpdate | cards/src/main.rs:144 | overwriting one counter changes the sum by the difference |
| Tallies.Bump | cards/src/main.rs:139-142 | a push adds one to the pushed category's counter, leaves the other five unchanged, and adds one to the total |
| Tallies.TallySnoc | cards/src/main.rs:139-142 | pushing one more hand bumps the table of the hands before it |
| Tallies.TallyCounts | cards/src/main.rs:139-142 | each counter of a filled table is the number of pushed hands of its category, and the total is the number pushed |
| Tallies.TotalPointwise | cards/src/main.rs:129-137 | the total of a sum of tables is the sum of their totals |
| Tallies.TallyConcat | cards/src/main.rs:129-142 | adding the tables of two runs of pushes gives the table of both runs pushed one after the other |
| Returns.PartialReturn | cards/src/main.rs:143-152 | the sum of `count / total * pay` over filled slots; it equals the weighted count over the total (`Returns.PartialTermsIsDot`), lies in `[0, MaxPay]` (`Returns.PartialReturnBounds`) and never falls as slots are filled (`Returns.ReturnMonotone`) |
| Returns.FullReturn | cards/src/main.rs:153-160 | the sum of `count / total * pay` over every slot; it is the partial return of the filled paytable (`Returns.FullIsPartial`) and lies in `[0, MaxPay]` (`Returns.FullReturnBounds`) |
| Returns.MaxPay | cards/src/main.rs:143-152 | the largest filled payout: no filled slot pays more, and it is 0 or the payout of some filled slot |
| Returns.PartialTermsIsDot | cards/src/main.rs:143-152 | the fold of `count / total * pay` over filled slots equals the whole-number weighted count divided by the total |
| Returns.FullTermsIsPartial | cards/src/main.rs:153-160 | the full fold equals the partial fold with every slot filled |
| Returns.ZeroFilledTerms | cards/src/main.rs:143-152 | the partial fold equals the full fold with zeros in the empty slots |
| Returns.FullIsPartial | cards/src/main.rs:143-160 | `calcualte_return_full(p)` equals `calculate_return` of `p` with every slot filled |
| Returns.UnfilledCountZero | src/main.rs:91-100 | unfilled slots contribute zero: the partial return is the full return with zeros in them |
| Returns.DotBound | cards/src/main.rs:143-152 | the weighted count is at most the largest payout times the total |
| Returns.ReturnBelow | cards/src/main.rs:143-152 | the expected return lies between 0 and any bound on the filled payouts |
| Returns.PartialReturnBounds | cards/src/main.rs:143-152 | the expected return lies between 0 and the largest filled payout |
| Returns.FullReturnBounds | cards/src/main.rs:153-160 | the full expected return lies between 0 and the largest payout |
| Returns.DotMonotone | cards/src/main.rs:143-152 | filling more slots never lowers the weighted count |
| Returns.ReturnMonotone | cards/src/main.rs:143-152 | filling more slots never lowers the expected return |
| Paytables.HolesFill | cards/src/main.rs:182-187 | filling an empty slot leaves one empty slot fewer, which is why the recursion ends |
| Paytables.FirstHoleFrom | cards/src/main.rs:170-175 | the first empty slot at or after `i`, or none when every later slot is filled |
| Paytables.FirstHole | cards/src/main.rs:170-181 | `check_idx.next()` is the lowest empty slot, or none when every slot is filled |
| Paytables.ExtendsStep | cards/src/main.rs:182-187 | a result reached from the guess with its first hole filled below the left neighbour extends the original guess |
| Paytables.Search | cards/src/main.rs:164-194 | a found guess has its return in `(low, high]`, keeps every filled slot of the input, and fills empty slots from the left, each strictly below its left neighbour; conversely `Paytables.SearchComplete` shows it finds one whenever such an extension exists |
| Paytables.TryCandidates | cards/src/main.rs:182-190 | trying `v - 1` down to 0 in the first hole: a success has its return in band, extends the guess, and holds a value below `v` in that slot; conversely `Paytables.TryComplete` shows it succeeds whenever such an extension exists |
| Paytables.SearchStops | cards/src/main.rs:176-193 | above the band gives `None`; in the band gives the guess itself, empty slots and all; below the band with no empty slot, or with a 0 left of the first empty slot, gives `None` |
| Paytables.NoHoleExtends | cards/src/main.rs:170-175 | a guess with every slot filled has no extension but itself |
| Paytables.FirstHoleKept | cards/src/main.rs:170-181 | an extension that leaves the first empty slot empty leaves every slot as it was, since holes are filled from the left |
| Paytables.SearchComplete | cards/src/main.rs:176-193 | completeness of the brute-force search: if some extension of the guess with each new slot below its left neighbour has its return in `(low, high]`, the search returns `Some` |
| Paytables.TryComplete | cards/src/main.rs:182-190 | the candidates below `v` for the first hole yield a success whenever some in-band extension puts a value below `v` in that hole |
| Paytables.PruneSound | cards/src/main.rs:177-178 | once a guess's return exceeds `high`, every guess that keeps its filled slots does too, so giving up on it loses nothing |
| HandTables.HandTable.constructor | cards/src/main.rs:208-214 | `HandTable::default()` has six zero counters |
| HandTables.HandTable.PushSequence | cards/src/main.rs:139-142 | the counter of the pushed hand's category grows by one, nothing else changes, and the total grows by one |
| HandTables.HandTable.Add | cards/src/main.rs:129-137 | each of the six counters becomes the sum of the two counters (`Pointwise`), the table itself is handed back, and totals add |
| HandTables.HandTable.CalculateReturn | cards/src/main.rs:143-152 | the return of a partial paytable is the full return of the paytable with zeros in the empty slots (`ZeroFilled`), between 0 and the largest filled payout |
| HandTables.HandTable.CalculateReturnFull | cards/src/main.rs:153-160 | the return of a complete paytable is the partial return of the paytable with every slot filled (`Filled`), between 0 and the largest payout |
| HandTables.HandTable.BuildPaytable | cards/src/main.rs:164-194 | a found guess has its `calculate_return` in `(low, high]` and extends the input guess as the search may |
| HandTables.HandTable.BuildPaytableComplete | cards/src/main.rs:164-194 | `build_paytable` returns `Some` whenever some extension of the guess it may build has its `calculate_return` in `(low, high]` |
| Advisor.ReplacementsLength | cards/src/main.rs:43-48 | one replacement is pushed per deck card that is not held |
| Advisor.CountHeldSplit | cards/src/main.rs:44 | the held deck cards are at most the copies of each of the three held cards |
| Advisor.CountEqualAbsent | cards/src/main.rs:44 | a card not in the deck is counted zero times |
| Advisor.CountEqualDistinct | cards/src/main.rs:44 | a card appears at most once in a deck of distinct cards |
| Advisor.SwitchTotal | cards/src/main.rs:41-50 | every switch table holds at least 49 hands, also when held cards repeat, so its return is defined |
| Advisor.CountEqualPresent | cards/src/main.rs:43-44 | a card of a deck of distinct cards appears in it exactly once |
| Advisor.CountHeldDistinct | cards/src/main.rs:44 | for three distinct held cards, the held deck cards are exactly the copies of each of them |
| Advisor.SwitchTotalDistinct | cards/src/main.rs:41-50 | with three distinct held cards, every switch table holds exactly 49 hands |
| Advisor.SwitchTableReturn | cards/src/main.rs:51-54 | a table holding slot `i`'s switch counts is non-empty and its full return is that slot's switch return |
| Advisor.StandReturn | cards/src/main.rs:60-61 | the payout of the held hand's category, `paytable[get_hand(cards) as usize]` |
| Advisor.FirstBest | cards/src/main.rs:51-59 | the chosen slot's return is the greatest of the three, and strictly greater than every earlier slot's |
| Advisor.Decide | cards/src/main.rs:60-70 | at most one slot is emptied and the others keep their card; an emptied slot strictly beats standing pat, has the greatest return and is the first to reach it; all three cards stay iff no return beats standing pat |
| Advisor.Advice | cards/src/main.rs:35-71 | the advice as a value, `Decide` on the three switch returns and `StandReturn`; its properties are the `ensures` of `Advisor.Decide`, and `Advisor.OptimalPlay` computes it |
| Advisor.ReplacementsStep | cards/src/main.rs:43-48 | trying one more deck card bumps the table by the replaced hand, or leaves it if the card is held |
| Advisor.BuildSwitchTable | cards/src/main.rs:42-49 | a fresh table holding the tally of every replacement of slot `i` by a card not held, in deck order |
| Advisor.ScanResult | cards/src/main.rs:51-59 | a scan from return 0 at slot 0 ends at the first slot with the greatest return |
| Advisor.AdviceFromScan | cards/src/main.rs:60-70 | with the scan's slot and return, the advice is the held hand with that slot emptied exactly when the return beats standing pat |
| Advisor.FillSwitchTables | cards/src/main.rs:41-50 | three tables, table `k` holding the tally of slot `k`'s replacements from the given deck |
| Advisor.BuildSwitchTables | cards/src/main.rs:39-50 | three tables over the generated deck, table `k` holding slot `k`'s switch counts |
| Advisor.ScanTables | cards/src/main.rs:51-59 | the scan returns the first table with the greatest full return, and that return |
| Advisor.OptimalPlay | cards/src/main.rs:35-71 | the result is `Advice`: the result of `Decide` on the three switch returns (one full return per slot's replacement table) and the payout of the held hand |
| Advisor.StandPatExample | cards/src/main.rs:250-284 | with only a straight flush paying 1, a held 8-9-10 of clubs comes back unchanged |
| Enumeration.DrawsBefore | cards/src/main.rs:218-221 | every index triple pushed before a loop position is three distinct deck indices |
| Enumeration.CodeInjective | cards/src/main.rs:218-220 | distinct index triples within the deck are visited at distinct loop positions |
| Enumeration.DrawsBeforeCount | cards/src/main.rs:218-221 | the pushes before `(i, j, k)` number `i * 51 * 50`, plus 50 per earlier `j` other than `i`, plus one per earlier `k` other than `i` and `j` |
| Enumeration.DrawsBeforeStep | cards/src/main.rs:220-226 | one inner iteration pushes `(i, j, k)` exactly when the three indices are distinct |
| Enumeration.DrawsBeforeMembers | cards/src/main.rs:218-229 | a triple is pushed before a loop position iff it is three distinct deck indices visited earlier |
| Enumeration.DrawsBeforeIncreasing | cards/src/main.rs:218-229 | pushes happen in strictly increasing loop order, so no triple is pushed twice |
| Enumeration.DrawTallySnoc | cards/src/main.rs:222-225 | pushing one more draw bumps the table by its category |
| Enumeration.DrawTallyIsTally | cards/src/main.rs:218-229 | the filled table is the tally of the categories of the drawn hands |
| Enumeration.DrawTallyTotal | cards/src/main.rs:218-229 | the table total is the number of pushed draws |
| Enumeration.Visit | cards/src/main.rs:221-226 | one inner iteration pushes the three cards at distinct indices, and the table stays the tally of the pushes so far |
| Enumeration.PushRow | cards/src/main.rs:220-227 | the inner loop pushes every distinct `(i, j, k)` for the fixed `i, j`, keeping the table the tally of the pushes |
| Enumeration.PushBlock | cards/src/main.rs:219-228 | the middle loop does the same for every `j` |
| Enumeration.PushAllDraws | cards/src/main.rs:216-229 | each ordered triple of distinct deck indices is pushed exactly once: 132600 pushes, a table total of 132600, and the table is the tally of those draws |
| Enumeration.GenerateAllGames | cards/src/main.rs:215-239 | the same over the generated deck, then the search from 250 / open / 0 for a return in `(0.99, 1.00]`, whose result, if any, has its return in that band |
| Legacy.GetTupleHand | src/main.rs:49-67 | the tuple cascade gives the same category as `get_hand` on the three cards |
| Legacy.TupleExamples | src/main.rs:192-224 | A-2-3 is a sequence and A-2-4 is not; their tuple categories are straight flush and flush |
| Legacy.HandTable.constructor | src/main.rs:150-156 | `HandTable::default()` has six zero counters |
| Legacy.HandTable.PushSequence | src/main.rs:87-90 | the counter of the tuple's category grows by one, nothing else changes, and the total grows by one |
| Legacy.HandTable.CalculatePay | src/main.rs:91-100 | unfilled slots contribute zero: the return is the full return with zeros in them, between 0 and the largest filled payout |
| Legacy.HandTable.BuildPaytable | src/main.rs:104-137 | a found guess has its `calculate_pay` in `(low, high]` and extends the input guess as the search may |
| Legacy.HandTable.BuildPaytableComplete | src/main.rs:104-137 | `build_paytable` returns `Some` whenever some extension of the guess it may build has its `calculate_pay` in `(low, high]` |
| Legacy.DrawnTuple | src/main.rs:164-167 | the tuple of a draw's cards has the category of the draw |
| Legacy.Visit | src/main.rs:163-168 | one inner iteration pushes the tuple at distinct indices, and the table stays the tally of the pushes so far |
| Legacy.PushRow | src/main.rs:162-169 | the inner loop pushes every distinct `(i, j, k)` for the fixed `i, j` |
| Legacy.PushBlock | src/main.rs:161-170 | the middle loop does the same for every `j` |
| Legacy.PushAllDraws | src/main.rs:158-171 | each ordered triple of distinct deck indices is pushed exactly once: 132600 pushes and a table total of 132600 |
| Legacy.GenerateAllGames | src/main.rs:157-181 | the same over the generated deck, then the search from 10 / open / 0 for a return in `(0.99, 1.00]`, whose result, if any, has its `calculate_pay` in that band |

## Left out

- Floating point: returns are exact rationals (`real`), not `f32`, so rounding in the folds and in the comparisons of `optimal_play` and `build_paytable` is not modelled.
- Returns.PartialReturn, Returns.FullReturn: an empty table divides 0 by 0 (NaN) in the source. The model requires a non-zero total instead.
- Machine integers: counters, payouts and indices are unbounded `nat`s, so `usize` overflow is not modelled.
- Ranks.StepsBetween, Suits.StepsBetween: require `start <= end`, because the `usize` subtraction underflows otherwise.
- Ranks.ForwardChecked, Suits.ForwardChecked: the overflow of `start as usize + count` is not modelled.
- HandTables.HandTable.BuildPaytable, Legacy.HandTable.BuildPaytable, Paytables.Search: require slot 0 of the guess to be filled. The source assumes this in its doc comment. With an empty slot 0, the source still answers when the guess's return is above `low`: `None` above `high`, the guess itself in the band. Only at or below `low` does it reach `guess.pay[idx - 1]` with `idx == 0`, which panics. The model does not cover the first two cases for such a guess.
- Output: `println!`, the `Display` impls, `PrintTable` and `main` are not modelled. The final `println!` of the found paytable's return is left out with them.
- `.unwrap()` on the result of the hard-coded search: modelled as an `Option` result, where `None` is the panic.
- The number of hands per category over all 132600 draws is not computed. The model proves the total and the per-push invariant: the table is the tally of the pushed draws.
- The nightly `Step` trait and the `..=` range syntax: modelled as plain functions on discriminants (`Deck.RankRange`, `Deck.SuitRange`).
- `cards/src/rank.rs` and `cards/src/suit.rs` are not part of this model. Ranks and suits follow `src/rank.rs` and `src/suit.rs`.
- `hull/` is not part of this model: it is a floating-point stub and a plotting script.
- `calcualte_return_full` is spelled `CalculateReturnFull`.
- Loop structure: the triple loop of `generate_all_games` is modelled as three nested methods (`PushAllDraws`, `PushBlock`, `PushRow`) plus the loop body (`Visit`). The first loop of `optimal_play` is one method per table (`BuildSwitchTable`), collected by `FillSwitchTables`. The scan is `ScanTables`.
- The ghost sequence of draws only records which index triples the loops pushed. It has no counterpart in the source.
