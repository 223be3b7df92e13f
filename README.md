# Voice shopping assistant — a Dafny model of its core

This project models the logic of a voice-driven grocery list written in TypeScript and React.
It covers these parts:

- **Catalog** (`src/utils/productSearch.ts`). `searchProducts` lowers, trims and splits a query
  into words. It keeps every product that some query word selects, and orders the kept products
  stably by how many query words they mention.
- **Patterns** (the regular expressions of `src/components/VoiceCommands.tsx` and
  `src/components/VoiceSearch.tsx`). Keyed add and remove templates, the leading count, the
  filler-word stripper and the four price patterns are each written out as a matcher that
  follows the backtracking order of a JavaScript regular expression.
- **VoiceCommands** (`processCommand`). The cascade turns a spoken transcript into an intent:
  ten add templates, then six remove templates, then the clear-all phrases, then token salvage.
  An add intent is then resolved against the catalog.
- **VoiceSearch** (`processSearchCommand`, `performSearch`). The search panel's own cascade
  tries add templates, price filters, a keyword-stripped catalog search and token salvage. The
  panel (filter, query, results) is a class whose methods update it in place.
- **Store** (`src/App.tsx`). The shopping list, the purchase history and the search log form a
  class `ShoppingStore`. Each handler the components call is a method that reassigns those
  fields. Categorisation by keyword table is modelled too.
- **Suggestions** (`src/components/SmartSuggestions.tsx`). Seven generators propose items:
  frequent, seasonal, substitute, complementary, personalised, catalog-search and
  catalog-complement. Their proposals are concatenated, de-duplicated by lower-cased name and
  cut to six.
- **ListView** (`src/components/ShoppingListManager.tsx`). Items are grouped by category. The
  headings are sorted, completed items are counted per group, the set of expanded headings is
  kept, and the quantity box falls back to 1.
- **Stats** (`src/components/ShoppingStats.tsx`). The summary card shows total and completed
  counts, summed quantity, the most common category and the most purchased item.

Some JavaScript primitives are modelled once in shared modules: `Text` holds `toLowerCase`,
`trim`, `includes`, `split`, `parseInt` and the `\s`/`\d`/`\w` classes. `Seqs` holds `filter`.
`Sorting` holds the stable `sort` with a numeric comparator and the default string `sort()`.

The model follows what the code does, including where that is not what the code's own comments
say it does:

- A price spoken as `$N` is extracted but not removed from the item phrase, although the comment
  at `src/components/VoiceCommands.tsx:173` says the price is removed. The code builds
  `new RegExp(matchedText)`, where `$` is an end anchor, so the pattern never matches.
- The last add template, the letters-only catch-all `^[a-z\s]+$` (commented at
  `src/components/VoiceCommands.tsx:128` as a bare item name), is tried before any remove
  template. So "remove milk" and "clear all" become add intents (`RemoveNeedsNonLetter`,
  `VoiceCommandExamples.RemoveMilkIsAdded`).
- Relevance counts every query word, duplicates included, not distinct words.
- The voice-command add takes the first search result whether or not it is in stock.
- The search log is kept newest-first (`src/App.tsx:192-201`). The comment at
  `src/components/SmartSuggestions.tsx:216` says `slice(-3)` takes the most recent searches, but
  on that log it takes the three oldest (`Suggestions.NewestSearchIsNotRecent`).
- The search panel lowers the transcript but does not trim it (`src/components/VoiceSearch.tsx:82`).

## Model

| member | source | states |
|---|---|---|
| Catalog.SearchProducts | src/utils/productSearch.ts:138-199 | `searchProducts` without its delay; what it returns is stated by BlankQueryFindsNothing, SearchReturnsExactlyMatches, SearchRanksByRelevance and SearchKeepsCatalogOrderOnTies |
| Catalog.BlankQueryFindsNothing | src/utils/productSearch.ts:143-147 | a query made only of white space finds no product |
| Catalog.SearchReturnsExactlyMatches | src/utils/productSearch.ts:150-193 | for a non-blank query the results are exactly the catalog products some query word selects, each as often as in the catalog |
| Catalog.MatchingMultiset | src/utils/productSearch.ts:153-174 | the filter step keeps a product as often as it occurs exactly when a query word selects it |
| Catalog.SearchRanksByRelevance | src/utils/productSearch.ts:177-191 | results are ordered by non-increasing relevance |
| Catalog.SearchKeepsCatalogOrderOnTies | src/utils/productSearch.ts:177-191 | products of equal relevance keep their catalog order (stable sort) |
| Catalog.MatchingIgnoresCase | src/utils/productSearch.ts:143-156 | the search ignores the case of the query, and selection and relevance ignore the case of product fields |
| Catalog.RelevanceIgnoresCase | src/utils/productSearch.ts:177-188 | relevance is unchanged when a product's name, brand and category are lower-cased |
| Catalog.FirstResultIsBest | src/utils/productSearch.ts:153-193 | the first result is a selected catalog product at least as relevant as every other selected product |
| Catalog.NothingFoundIff | src/utils/productSearch.ts:143-174 | the search finds nothing if and only if the query is blank or no product is selected |
| CatalogExamples.CaseOutranksPhone | src/utils/productSearch.ts:177-191 | "iPhone Case" puts the case, which mentions both words, before the phone, which mentions one |
| Sorting.SortFacts | src/utils/productSearch.ts:191 | the comparator sort is descending by key, a permutation, and stable within each key |
| Sorting.SortSwapsPair | src/utils/productSearch.ts:177-191 | the comparator `b - a` puts the element of larger key first |
| Sorting.SortStable | src/utils/productSearch.ts:177-191 | the elements sharing a key come out in their input order |
| Sorting.SortHeadIsFirstMax | src/components/ShoppingStats.tsx:21 | the head of a descending sort is the earliest element of largest key |
| Sorting.SortTextsAscends | src/components/ShoppingListManager.tsx:36 | the default string sort yields an ascending sequence |
| Sorting.TextLeTotal | src/components/ShoppingListManager.tsx:36 | any two strings are comparable in code-unit order |
| Sorting.TextLeTransitive | src/components/ShoppingListManager.tsx:36 | code-unit order is transitive |
| Sorting.TextLeAntisymmetric | src/components/ShoppingListManager.tsx:36 | two strings ordered both ways are equal |
| Text.LowerIdempotent | src/components/VoiceCommands.tsx:114 | lower-casing twice is lower-casing once |
| Text.TrimIdempotent | src/components/VoiceCommands.tsx:114 | trimming twice is trimming once |
| Text.TrimEmptyIff | src/utils/productSearch.ts:143-147 | a text trims to nothing exactly when it is all white space |
| Text.ParseInt | src/components/ShoppingListManager.tsx:173 | `parseInt` yields a number only for a text holding a digit |
| Text.ParseIntDigits | src/components/VoiceCommands.tsx:140 | `parseInt` of a digit run is the run's decimal value |
| Text.SplitWsAtSpace | src/components/VoiceCommands.tsx:244 | splitting on white space separates a word from the rest at a single space |
| Catalog.Relevance | src/utils/productSearch.ts:178-182 | a product's relevance is the number of query words (with repetition) it mentions, at most their count, and zero exactly when it mentions none |
| Patterns.LettersHaveNoDigit | src/components/VoiceCommands.tsx:129 | a letters-only phrase holds no digit, and `parseInt` finds no number in it |
| Patterns.LazyEnd | src/components/VoiceCommands.tsx:118 | the lazy `(.+?)` stops at the first position where the optional list tail and the end of input follow |
| Patterns.Cut | src/components/VoiceCommands.tsx:127 | the captured item is a non-empty prefix, the whole text when there is no tail, otherwise the shortest prefix after which the tail ends the text |
| Patterns.CountedBody | src/components/VoiceCommands.tsx:118-122 | the item group is non-empty and a count group is a non-empty digit prefix of the text |
| Patterns.CountGroupIff | src/components/VoiceCommands.tsx:118-122 | `(\d+)?` captures exactly when the text starts with a digit and something follows it |
| Patterns.KeyAt | src/components/VoiceCommands.tsx:117-133 | at one position the first keyword alternative that occurs there with text after it is taken, and none is taken only if no alternative fits |
| Patterns.Scan | src/components/VoiceCommands.tsx:117-133 | a template matches at the leftmost position where a keyword fits, and finds none only if no position fits |
| Patterns.TemplateMatch | src/components/VoiceCommands.tsx:117-133 | a keyed template matches iff a keyword occurs with text after it; the catch-all matches iff the text is non-empty letters and spaces, capturing it whole |
| Patterns.NoKeyNoMatch | src/components/VoiceCommands.tsx:117-128 | a command containing none of a template's keywords does not match it |
| Patterns.LeadingCount | src/components/VoiceCommands.tsx:153-157 | a leading count is a digit run followed by white space, and the rest is a non-empty proper suffix |
| Patterns.LeadingCountSplits | src/components/VoiceCommands.tsx:153-157 | "digits, spaces, rest" yields the digits' value and the rest |
| Patterns.NoLeadingCount | src/components/VoiceCommands.tsx:153-157 | a phrase not starting with a digit has no leading count |
| Patterns.FirstWordAt | src/components/VoiceCommands.tsx:180-182 | the first filler alternative that occurs as a whole word at a position, or none when none does |
| Patterns.StripNothing | src/components/VoiceCommands.tsx:180-182 | where no filler occurs as a whole word, stripping changes nothing |
| Patterns.StripKeepsHead | src/components/VoiceCommands.tsx:180-182 | a first character that starts no filler is kept |
| Patterns.NumberAt | src/components/VoiceCommands.tsx:162-168 | a number is read exactly where a digit stands, and is never negative |
| Patterns.DollarWord | src/components/VoiceCommands.tsx:162-168 | a `dollars?` match keeps the amount and its text is a non-empty prefix of the input from the start position |
| Patterns.NumberEnds | src/components/VoiceCommands.tsx:165-166 | a `$N` or `costs N` match needs a digit where the number starts, and its text is a non-empty prefix from the start position |
| Patterns.DollarsAfter | src/components/VoiceCommands.tsx:164-167 | a `for N dollars` or `N dollars` match needs a digit where the number starts, and its text is a non-empty prefix from the start position |
| Patterns.PriceAt | src/components/VoiceCommands.tsx:162-177 | a price match is a non-empty prefix from its position with a non-negative amount, and it needs a digit |
| Patterns.PriceScan | src/components/VoiceCommands.tsx:169-177 | a price pattern finds a match at some position, or none when no position matches |
| Patterns.FirstPrice | src/components/VoiceCommands.tsx:169-177 | the price comes from the first of the four patterns that matches anywhere |
| Patterns.NoneBeforeShift | src/components/VoiceCommands.tsx:169-177 | skipping a pattern that does not match keeps the "no earlier pattern matched" condition |
| Patterns.NoDigitNoPrice | src/components/VoiceCommands.tsx:162-177 | a command without digits carries no price |
| Patterns.RemovePattern | src/components/VoiceCommands.tsx:174 | removal never lengthens the phrase, and a price text containing `$` removes nothing |
| Patterns.RemovePatternLiteral | src/components/VoiceCommands.tsx:174 | a literal price text at the front is removed |
| VoiceCommands.Interpret | src/components/VoiceCommands.tsx:113-273 | the intent `processCommand` acts on; ProcessCommand computes it step by step, and AddFirst, RemoveSecond, RemoveNeedsNonLetter and SalvageIsLastResort state which stage decides |
| VoiceCommands.AddFromCapture | src/components/VoiceCommands.tsx:134-184 | an accepted capture yields an add intent with a non-empty name and the first price found |
| VoiceCommands.AddAttempt | src/components/VoiceCommands.tsx:133-203 | one template yields an add only when it matches, with a non-empty name and the first price found |
| VoiceCommands.FirstAdd | src/components/VoiceCommands.tsx:132-205 | the add loop yields an intent iff some template accepts the command |
| VoiceCommands.RemoveAttempt | src/components/VoiceCommands.tsx:217-228 | a remove template yields a remove intent iff it matches; the phrase is the capture, trimmed, with "from my list", "from the list" and "from list" removed as whole words, trimmed again, and never longer than the capture |
| VoiceCommands.RemovePhraseIsCapture | src/components/VoiceCommands.tsx:220-224 | a capture in which no list phrase stands as a whole word is removed as it is, trimmed |
| VoiceCommands.FirstRemove | src/components/VoiceCommands.tsx:217-229 | the remove loop yields an intent iff some remove template matches, and then a remove intent |
| VoiceCommands.FirstRemoveWinner | src/components/VoiceCommands.tsx:217-229 | the remove loop's intent is that of the earliest matching template; every template before it misses |
| VoiceCommands.FirstGivenWinner | src/components/VoiceCommands.tsx:217-229 | a loop that returns from its first hit gives what that hit gives, and nothing before it hits |
| VoiceCommands.Salvaged | src/components/VoiceCommands.tsx:244-248 | salvage keeps exactly the tokens longer than two characters that are not stop words |
| VoiceCommands.ProcessCommand | src/components/VoiceCommands.tsx:113-273 | the pattern-by-pattern method yields the intent the cascade defines |
| VoiceCommands.AddLoop | src/components/VoiceCommands.tsx:132-205 | the loop over add templates returns the first template's add |
| VoiceCommands.RemoveLoop | src/components/VoiceCommands.tsx:217-229 | the loop over remove templates returns the first match |
| VoiceCommands.ClearLoop | src/components/VoiceCommands.tsx:232-241 | the loop over clear phrases finds one iff the command mentions one |
| VoiceCommands.TryAdd | src/components/VoiceCommands.tsx:133-203 | one template's body, run step by step, gives that template's add |
| VoiceCommands.ReadGroups | src/components/VoiceCommands.tsx:135-157 | quantity and name come from the groups and are then overridden by a leading count |
| VoiceCommands.ExtractPrice | src/components/VoiceCommands.tsx:169-177 | the first price pattern that matches sets the price, and its text is removed from the name |
| VoiceCommands.Resolve | src/components/VoiceCommands.tsx:186-265 | remove, clear and unrecognised intents pass through unchanged |
| VoiceCommands.CatchAllAdds | src/components/VoiceCommands.tsx:129 | the catch-all adds the whole filler-stripped command, quantity 1, no price |
| VoiceCommands.WholeCommandAdds | src/components/VoiceCommands.tsx:134-184 | a letters-only capture of the whole command has no count and no price, and adds its filler-stripped text once |
| VoiceCommands.LettersOnlyCommandIsAdd | src/components/VoiceCommands.tsx:129-205 | every command of letters and spaces that survives filler stripping is an add |
| VoiceCommands.LastTemplateIsCatchAll | src/components/VoiceCommands.tsx:117-130 | there are ten add templates and the last is the letters-only catch-all |
| VoiceCommands.AddFirst | src/components/VoiceCommands.tsx:132-205 | when any add template accepts, the result is the first such add |
| VoiceCommands.RemoveNeedsNonLetter | src/components/VoiceCommands.tsx:129-241 | a remove or clear intent needs a character other than letters and spaces, or a command that is all filler |
| VoiceCommands.RemoveSecond | src/components/VoiceCommands.tsx:207-229 | with no add, the first remove template decides |
| VoiceCommands.EmptyPhraseSkips | src/components/VoiceCommands.tsx:138-159 | a match with no count group, or a single group that parses as a number, is skipped |
| VoiceCommands.CountGroupSetsQuantity | src/components/VoiceCommands.tsx:138-141 | the count group's digits give the quantity |
| VoiceCommands.LeadingCountOverrides | src/components/VoiceCommands.tsx:153-157 | a leading number in the phrase overrides the quantity |
| VoiceCommands.QuantityDefaultsToOne | src/components/VoiceCommands.tsx:135-157 | without any count the quantity is 1 |
| VoiceCommands.AddPriceIsFirstMatch | src/components/VoiceCommands.tsx:160-177 | an add's price is the first price pattern's amount, and absent when the command has no digit |
| VoiceCommands.FirstAddIsAnAttempt | src/components/VoiceCommands.tsx:132-205 | the loop's add is one template's add |
| VoiceCommands.UnrecognisedHasNoSalvageableToken | src/components/VoiceCommands.tsx:243-272 | an unrecognised command has no token longer than two characters outside the stop words |
| VoiceCommands.SalvageIsLastResort | src/components/VoiceCommands.tsx:243-272 | a salvage or unrecognised intent is exactly what salvage makes of the command |
| VoiceCommands.SalvageKeepsQualifyingTokens | src/components/VoiceCommands.tsx:243-251 | a salvage phrase joins exactly the qualifying tokens |
| VoiceCommands.ResolvedAddIsBestMatch | src/components/VoiceCommands.tsx:186-195 | an added item is a best-ranked selected catalog product, at the spoken price unless that is absent or zero |
| VoiceCommands.ResolvedSalvageIsBestMatch | src/components/VoiceCommands.tsx:250-257 | a salvaged phrase that resolves to an add puts a best-ranked selected catalog product on the list once, with its own name, category and catalog price |
| VoiceCommands.NotAvailableIffNoMatch | src/components/VoiceCommands.tsx:186-199 | an add or salvage is reported unavailable iff the catalog has no match |
| VoiceCommandExamples.AddedWhenTrimmedTo | src/components/VoiceCommands.tsx:114-205 | a command that lowers and trims to a letters-only phrase keeping a word after the fillers is an add |
| VoiceCommandExamples.RemoveMilkLowered | src/components/VoiceCommands.tsx:114 | the transcript "Remove milk" lowers and trims to "remove milk" |
| VoiceCommandExamples.RemoveMilkIsAdded | src/components/VoiceCommands.tsx:129 | every command that lowers and trims to "remove milk" is interpreted as an add |
| VoiceCommandExamples.ClearAllIsAdded | src/components/VoiceCommands.tsx:129 | every command that lowers and trims to "clear all" is interpreted as an add |
| VoiceSearch.InterpretSearch | src/components/VoiceSearch.tsx:81-193 | the intent `processSearchCommand` acts on; ClassifySearch computes it step by step, and FilterOnlyWithoutAdd, SearchedQueryIsClean and SalvageOnlyWithEmptyQuery state which stage decides |
| VoiceSearch.CleanQuery | src/components/VoiceSearch.tsx:159-163 | the command with search words, price phrases and dollar words removed, then trimmed; SearchedQueryIsClean, PlainCommandIsItsOwnQuery and RemoveAllUnchangedIff state what is removed |
| VoiceSearch.Narrowed | src/components/VoiceSearch.tsx:202-208 | the results within the price filter; NarrowedInTwoSteps, NarrowedMembership and NarrowedKeepsOrder state it |
| VoiceSearch.SearchGroups | src/components/VoiceSearch.tsx:100-108 | a single group is the trimmed phrase with quantity 1; a match without its count group leaves the phrase empty |
| VoiceSearch.SearchAddAttempt | src/components/VoiceSearch.tsx:97-139 | one template yields an add only when it matches, with a non-empty name |
| VoiceSearch.FirstSearchAdd | src/components/VoiceSearch.tsx:97-140 | the panel's add loop yields an add iff some template accepts |
| VoiceSearch.NumberAfter | src/components/VoiceSearch.tsx:143-145 | a number is read after a keyword exactly when a digit follows it |
| VoiceSearch.FirstNumberAfter | src/components/VoiceSearch.tsx:143-145 | the first keyword alternative followed by a number decides |
| VoiceSearch.NumberScan | src/components/VoiceSearch.tsx:143-145 | a match is reported at a position where a keyword is followed by a number, with the value read there |
| VoiceSearch.NumberScanIsLeftmost | src/components/VoiceSearch.tsx:143-145 | no position before the reported one matches, and nothing is reported only when no position matches |
| VoiceSearch.BetweenAt | src/components/VoiceSearch.tsx:151-153 | a `between N and M` match stays inside the text |
| VoiceSearch.RangeScan | src/components/VoiceSearch.tsx:151-153 | the leftmost `between` match gives the range, or none exists |
| VoiceSearch.FirstPrefix | src/components/VoiceSearch.tsx:160-162 | the first non-empty word that starts the text, or none when none does |
| VoiceSearch.RemoveAll | src/components/VoiceSearch.tsx:160 | removing keywords never lengthens the text |
| VoiceSearch.PricePhrase | src/components/VoiceSearch.tsx:161 | a price phrase starts here iff "under", "less than" or "below" followed by digits, or "between N and M", matches here; its length is that match's, positive and inside the text |
| VoiceSearch.RemovePricePhrases | src/components/VoiceSearch.tsx:161 | removing price phrases never lengthens the text |
| VoiceSearch.ResolveAdd | src/components/VoiceSearch.tsx:125-135 | an add is either put on the list or reported unavailable for its phrase |
| VoiceSearch.Respond | src/components/VoiceSearch.tsx:81-193 | filters set the panel's price filter, queries are searched, and unrecognised input is reported |
| VoiceSearch.SearchPanel.constructor | src/components/VoiceSearch.tsx:28-30 | the panel starts with no filter, no query and no results |
| VoiceSearch.SearchPanel.ProcessSearchCommand | src/components/VoiceSearch.tsx:81-193 | the outcome is the cascade's response; a filter changes only the filter, a search only the query and the narrowed results |
| VoiceSearch.SearchPanel.Carry | src/components/VoiceSearch.tsx:125-192 | each intent gets its response: a filter changes only the filter, a query only the query and the narrowed results, an add or salvage nothing on the panel |
| VoiceSearch.ClassifySearch | src/components/VoiceSearch.tsx:81-192 | the cascade run step by step picks the intent the stated cascade yields |
| VoiceSearch.ClassifyFilter | src/components/VoiceSearch.tsx:142-192 | after the add templates fail, a maximum price comes before a range, a range before a query, a query before salvage |
| VoiceSearch.SearchPanel.PerformSearch | src/components/VoiceSearch.tsx:195-229 | results are the catalog answer narrowed by the current filter; filter and query stay |
| VoiceSearch.SearchPanel.ManualSearch | src/components/VoiceSearch.tsx:242-246 | a non-blank typed query is searched and logged; a blank one changes nothing |
| VoiceSearch.SearchPanel.ClearFilters | src/components/VoiceSearch.tsx:248-252 | the filter, the query and the results are all reset |
| VoiceSearch.SearchAddLoop | src/components/VoiceSearch.tsx:97-139 | the panel's loop over add templates returns the first template's add |
| VoiceSearch.TrySearchAdd | src/components/VoiceSearch.tsx:97-139 | one template's body, run step by step, gives that template's add |
| VoiceSearch.ReadSearchGroups | src/components/VoiceSearch.tsx:100-115 | quantity and name come from the groups and are then overridden by a leading count |
| VoiceSearch.NarrowedInTwoSteps | src/components/VoiceSearch.tsx:202-208 | narrowing by a filter equals the code's min filter followed by its max filter |
| VoiceSearch.NarrowedMembership | src/components/VoiceSearch.tsx:202-210 | a product survives narrowing, as often as before, iff its price is in range |
| VoiceSearch.NarrowedKeepsOrder | src/components/VoiceSearch.tsx:202-210 | narrowing keeps the results' order |
| VoiceSearch.FilterOnlyWithoutAdd | src/components/VoiceSearch.tsx:142-156 | a price filter is set only when no add template accepts; a range needs no `under` number first |
| VoiceSearch.SearchedQueryIsClean | src/components/VoiceSearch.tsx:158-167 | a searched query is the cleaned, trimmed, non-empty command, and neither adds nor filters applied |
| VoiceSearch.SalvageOnlyWithEmptyQuery | src/components/VoiceSearch.tsx:168-191 | salvage happens only when cleaning leaves nothing, and joins exactly the qualifying tokens |
| VoiceSearch.SingleCaptureKept | src/components/VoiceSearch.tsx:106-108 | a numeric single capture the voice-command parser skips is added here as a name |
| VoiceSearch.NumericCaptureSkipped | src/components/VoiceCommands.tsx:143-150 | the voice-command parser skips a single capture that parses as a number |
| VoiceSearch.SingleCaptureAdds | src/components/VoiceSearch.tsx:100-139 | a single capture with no leading count is added once under its trimmed, filler-stripped name |
| VoiceSearch.SalvageSearch | src/components/VoiceSearch.tsx:168-191 | the search panel's salvage yields a salvage phrase or reports the command unrecognised |
| VoiceSearch.ResolvedAddIsBestMatch | src/components/VoiceSearch.tsx:125-135 | unavailable iff the catalog has no match; otherwise a best-ranked selected product is added with the spoken quantity |
| VoiceSearch.RemoveAllUnchangedIff | src/components/VoiceSearch.tsx:160 | keyword removal leaves the text unchanged iff no keyword occurs in it |
| VoiceSearch.RemoveNothing | src/components/VoiceSearch.tsx:160 | text containing no keyword is left as it is |
| VoiceSearch.RemoveShrinks | src/components/VoiceSearch.tsx:160 | text containing a keyword gets shorter |
| VoiceSearch.NoDigitNoPricePhrase | src/components/VoiceSearch.tsx:161 | text without digits loses no price phrase |
| VoiceSearch.PlainCommandIsItsOwnQuery | src/components/VoiceSearch.tsx:159-163 | a command without keywords, digits or currency words is searched trimmed as it is |
| Store.Categorize | src/App.tsx:163-186 | `categorizeItem`; CategorizeIsFirstMatch states it |
| Store.WithoutId | src/App.tsx:100-106 | the list after `removeItem`; WithoutIdKeepsTheRest states it |
| Store.WithoutNamed | src/App.tsx:108-116 | the list after `removeItemByName`; RemoveByNameTakesFirstMatch states it |
| Store.Pending | src/App.tsx:130-136 | the list after `clearCompleted`; PendingKeepsTheRest states it |
| Store.RecordPurchase | src/App.tsx:143-161 | the history after `updateHistory`; KnownNameIsCounted, NewNameIsAppended and HistoryOnlyGrows state it |
| Store.Logged | src/App.tsx:192-201 | the search log after `handleSearchQuery`; LogIsNewestFirst states it |
| Store.FirstCategory | src/App.tsx:179-183 | the category of the first table entry with a keyword in the name, or none iff no entry has one |
| Store.CategorizeIsFirstMatch | src/App.tsx:163-186 | "Other" iff no keyword occurs in the lowered name; otherwise the first entry that has one |
| Store.NoEntryIsOther | src/App.tsx:166-177 | no table entry is called "Other", so "Other" always means no match |
| Store.IceCreamIsDairy | src/App.tsx:167-174 | "Ice Cream" is filed under Dairy, because "cream" is found before "ice cream" |
| Store.FindByName | src/App.tsx:108-110 | the first item whose lowered name contains the phrase, or none iff no item's does |
| Store.WithQuantity | src/App.tsx:118-122 | only the quantity of items with the id changes, and it becomes the new value |
| Store.Toggled | src/App.tsx:124-128 | only items with the id flip their completed flag |
| Store.WithoutIdKeepsTheRest | src/App.tsx:102 | deletion keeps exactly the items of other ids, with their multiplicity |
| Store.RemoveByNameTakesFirstMatch | src/App.tsx:108-116 | with a match, exactly the items whose id differs from the first matching item's id stay; no match leaves the list as it is; a blank phrase removes the first item's id |
| Store.ToggleTwice | src/App.tsx:124-128 | toggling twice restores the list |
| Store.QuantityLastWins | src/App.tsx:118-122 | the last quantity update wins |
| Store.PendingKeepsTheRest | src/App.tsx:130-136 | clearing completed keeps exactly the pending items, and the two counts add up to the list length |
| Store.KnownNameIsCounted | src/App.tsx:145-151 | a name already in the history bumps the frequency and timestamp of entries with that name, changing nothing else |
| Store.NewNameIsAppended | src/App.tsx:152-158 | a new name is appended with frequency 1 |
| Store.HistoryOnlyGrows | src/App.tsx:143-161 | the history never shrinks, no frequency drops, and the name is present afterwards |
| Store.LogIsNewestFirst | src/App.tsx:192-201 | the new query goes first and the log keeps at most twenty entries |
| Store.ShoppingStore.constructor | src/App.tsx:34-36 | the store starts with an empty list, history and log |
| Store.ShoppingStore.AddItem | src/App.tsx:83-96 | the item is appended with the given or derived category, and its purchase is recorded |
| Store.ShoppingStore.RemoveItem | src/App.tsx:100-106 | the list loses the items of that id; history and log stay |
| Store.ShoppingStore.RemoveItemByName | src/App.tsx:108-116 | reports whether a name matched, and removes the first match's id |
| Store.ShoppingStore.UpdateQuantity | src/App.tsx:118-122 | the list becomes the quantity-updated list; history and log stay |
| Store.ShoppingStore.ToggleComplete | src/App.tsx:124-128 | the list becomes the toggled list; history and log stay |
| Store.ShoppingStore.ClearCompleted | src/App.tsx:130-136 | only pending items remain, and the count of removed items is reported |
| Store.ShoppingStore.ClearAll | src/App.tsx:138-141 | the list empties; history and log stay |
| Store.ShoppingStore.UpdateHistory | src/App.tsx:143-161 | the purchase is recorded; list and log stay |
| Store.ShoppingStore.AcceptSuggestion | src/App.tsx:188-190 | the suggestion is added with quantity 1, no price, and its derived category |
| Store.ShoppingStore.HandleSearchQuery | src/App.tsx:192-201 | the query is logged; list and history stay |
| Store.ShoppingStore.ApplyVoiceAction | src/components/VoiceCommands.tsx:186-238 | adds, removals by name and clearing reach the store; other outcomes change nothing |
| Store.ShoppingStore.ApplySearchOutcome | src/components/VoiceSearch.tsx:125-214 | adds reach the list, searches reach the log, other outcomes change nothing |
| Suggestions.Suggest | src/components/SmartSuggestions.tsx:34-114 | `generateSuggestions`; SuggestionsShown and DedupKeepsFirstOccurrences state what is shown, GenerateSuggestions computes it step by step |
| Suggestions.Candidates | src/components/SmartSuggestions.tsx:34-105 | the seven generators' proposals in order; CandidatesUnlisted states none is listed |
| Suggestions.SeasonOf | src/components/SmartSuggestions.tsx:373-386 | the season of a month; SeasonsByQuarter states it |
| Suggestions.SubstituteFor | src/components/SmartSuggestions.tsx:388-411 | `getSubstitute`, a LookUp in its table; AlmondMilkStaysAlmondMilk shows the table order at work |
| Suggestions.ComplementFor | src/components/SmartSuggestions.tsx:413-437 | `getComplementaryItem`, a LookUp in its table; TortillaChipsGetSalsa shows the table order at work |
| Suggestions.FrequentEntries | src/components/SmartSuggestions.tsx:39-51 | at most five entries, none already on the list |
| Suggestions.FrequentSuggestions | src/components/SmartSuggestions.tsx:39-51 | at most five suggestions, none already on the list |
| Suggestions.FrequentByDescendingCount | src/components/SmartSuggestions.tsx:39-42 | frequent entries come from the history in descending frequency |
| Suggestions.FrequentAreTopFive | src/components/SmartSuggestions.tsx:39-42 | an unlisted entry more frequent than a suggested one is suggested too |
| Suggestions.MoreFrequentInTop | src/components/SmartSuggestions.tsx:39-42 | among the five most frequent entries, an entry is outranked only by entries that are there too |
| Suggestions.SeasonalItems | src/components/SmartSuggestions.tsx:373-386 | each season has five items |
| Suggestions.SeasonalPicks | src/components/SmartSuggestions.tsx:53-67 | at most two seasonal items of the month, none already listed |
| Suggestions.SeasonsByQuarter | src/components/SmartSuggestions.tsx:382-385 | months 0-2 are winter, 3-5 spring, 6-8 summer and 9-11 fall |
| Suggestions.FirstKeyFrom | src/components/SmartSuggestions.tsx:404-410 | the first table key from a position that the name contains, or none iff none does |
| Suggestions.FirstKey | src/components/SmartSuggestions.tsx:430-436 | the first table key the name contains, or none iff none does |
| Suggestions.LookUp | src/components/SmartSuggestions.tsx:404-410 | the value of the first key the lowered name contains, absent iff no key occurs |
| Suggestions.ItemLookups | src/components/SmartSuggestions.tsx:70-93 | at most one proposal per item, of the given kind, none already listed |
| Suggestions.Keywords | src/components/SmartSuggestions.tsx:131-135 | every keyword is longer than two characters |
| Suggestions.MatchedCategories | src/components/SmartSuggestions.tsx:153-155 | exactly the table categories some keyword includes or is included in |
| Suggestions.MatchedInTableOrder | src/components/SmartSuggestions.tsx:153-155 | the matched categories keep the table's order |
| Suggestions.CategoryPicks | src/components/SmartSuggestions.tsx:158-173 | one unlisted pick for each matched category that has an unlisted item, the `k`-th from the `k`-th such category, and no other |
| Suggestions.PreferencePick | src/components/SmartSuggestions.tsx:176-200 | an unlisted preference item, offered exactly when some keyword is a preference word and some preference item is unlisted |
| Suggestions.Fallback | src/components/SmartSuggestions.tsx:351-371 | one unlisted fallback item, absent iff every fallback item is listed |
| Suggestions.PersonalizedSuggestions | src/components/SmartSuggestions.tsx:116-208 | at most two, none without search history, none listed |
| Suggestions.PersonalizedWithKey | src/components/SmartSuggestions.tsx:129-207 | with an API key, the category picks in table order and then the preference pick, cut to two |
| Suggestions.NoKeyMeansFallback | src/components/SmartSuggestions.tsx:123-127 | without an API key the personalised proposals are the fallback |
| Suggestions.Distinct | src/components/SmartSuggestions.tsx:217 | the same queries without repeats |
| Suggestions.LastThree | src/components/SmartSuggestions.tsx:217 | at most three queries |
| Suggestions.Available | src/components/SmartSuggestions.tsx:223-229 | only in-stock, unlisted products |
| Suggestions.QueryOffers | src/components/SmartSuggestions.tsx:219-239 | at most two offers per query, none listed |
| Suggestions.QueryOffer | src/components/SmartSuggestions.tsx:219-239 | at most two offers for one query, none listed |
| Suggestions.QueryOfferFound | src/components/SmartSuggestions.tsx:219-239 | an offer for one query is an available catalog result of that query |
| Suggestions.QueryOffersFound | src/components/SmartSuggestions.tsx:219-239 | every offer is an available catalog result of one of the queries |
| Suggestions.CatalogSearchSuggestions | src/components/SmartSuggestions.tsx:210-246 | at most two, none without history, none listed |
| Suggestions.CatalogSearchUsesLastThree | src/components/SmartSuggestions.tsx:217-239 | every offer comes from one of the last three distinct queries |
| Suggestions.Queries | src/App.tsx:265 | the panel receives the logged queries in log order |
| Suggestions.NewestSearchIsNotRecent | src/components/SmartSuggestions.tsx:217 | logging a new query leaves the three queries read unchanged while the log is not full |
| Suggestions.FirstOffer | src/components/SmartSuggestions.tsx:321-340 | at most one offer per complement, not listed |
| Suggestions.FirstOfferIsFirstOfferable | src/components/SmartSuggestions.tsx:323-331 | the offer is the first available search result, and absent iff none is available |
| Suggestions.ComplementOffers | src/components/SmartSuggestions.tsx:321-340 | at most one offer per complement, none listed |
| Suggestions.ItemOffers | src/components/SmartSuggestions.tsx:314-346 | an item's complement offers are not listed |
| Suggestions.CartOffers | src/components/SmartSuggestions.tsx:314-346 | the cart's complement offers are not listed |
| Suggestions.CatalogComplements | src/components/SmartSuggestions.tsx:248-349 | at most two complement offers from the given table, none listed |
| Suggestions.Dedup | src/components/SmartSuggestions.tsx:108-112 | no two kept suggestions share a lower-cased name, and all come from the input |
| Suggestions.DedupKeepsFirstOccurrences | src/components/SmartSuggestions.tsx:108-112 | exactly the first suggestion of each lower-cased name is kept |
| Suggestions.DedupKeepsEveryName | src/components/SmartSuggestions.tsx:108-112 | every name proposed is still represented |
| Suggestions.CandidatesUnlisted | src/components/SmartSuggestions.tsx:34-105 | no generator proposes an item already on the list |
| Suggestions.Shown | src/components/SmartSuggestions.tsx:108-113 | at most six suggestions, no two with the same lower-cased name, each one of the candidates |
| Suggestions.ShownUnlisted | src/components/SmartSuggestions.tsx:108-113 | de-duplicating and cutting unlisted candidates leaves no listed name |
| Suggestions.SuggestionsShown | src/components/SmartSuggestions.tsx:34-114 | at most six distinct-named proposals, each from the generators, none listed |
| Suggestions.PushLookups | src/components/SmartSuggestions.tsx:70-93 | the loop over the first three items pushes their lookups |
| Suggestions.GeneratePersonalized | src/components/SmartSuggestions.tsx:116-208 | the personalised generator, step by step |
| Suggestions.PushQueryOffers | src/components/SmartSuggestions.tsx:219-239 | the loop over queries pushes their offers |
| Suggestions.GenerateCatalogSearch | src/components/SmartSuggestions.tsx:210-246 | the catalog-search generator, step by step |
| Suggestions.PushComplementOffers | src/components/SmartSuggestions.tsx:321-340 | the loop over complements pushes the first offer of each |
| Suggestions.PushCartOffers | src/components/SmartSuggestions.tsx:314-346 | the loop over items pushes their complement offers |
| Suggestions.GenerateCatalogComplements | src/components/SmartSuggestions.tsx:248-349 | the catalog-complement generator over a given table, step by step |
| Suggestions.GenerateSuggestions | src/components/SmartSuggestions.tsx:34-114 | the panel's suggestions are what the generators propose, de-duplicated and cut to six |
| SuggestionExamples.TortillaChipsGetSalsa | src/components/SmartSuggestions.tsx:413-437 | "tortilla chips" gets the "chips" complement, because that key comes before "tortilla chips" |
| SuggestionExamples.IPhoneGetsIPhoneAccessories | src/components/SmartSuggestions.tsx:252-325 | with the component's own table, a cart item naming an iPhone is offered the four iPhone accessories |
| SuggestionExamples.AlmondMilkStaysAlmondMilk | src/components/SmartSuggestions.tsx:388-411 | the substitute of "Almond Milk" is "Almond Milk", because "milk" is tried first |
| ListView.InCategory | src/components/ShoppingListManager.tsx:28-35 | the group of one category; GroupByCategory states that the reduce builds exactly these groups |
| ListView.Headings | src/components/ShoppingListManager.tsx:36 | the sorted category keys; HeadingsAreSortedCategories states it |
| ListView.CompletedCount | src/components/ShoppingListManager.tsx:37 | the completed count; CompletedAddUp states that the per-heading counts add up to it |
| ListView.CategoryOrder | src/components/ShoppingListManager.tsx:28-34 | record keys are distinct and are exactly the categories present |
| ListView.GroupByCategory | src/components/ShoppingListManager.tsx:28-34 | the reduction gives each category present exactly its items, in list order, and no other key |
| ListView.HeadingsAreSortedCategories | src/components/ShoppingListManager.tsx:36 | headings are ascending, distinct, and exactly the categories present |
| ListView.GroupsPartition | src/components/ShoppingListManager.tsx:28-36 | distinct categories that cover the list have groups summing to its length |
| ListView.HeadingsCoverList | src/components/ShoppingListManager.tsx:28-36 | the groups under the headings hold every item once |
| ListView.CompletedInGroup | src/components/ShoppingListManager.tsx:121 | a group's completed count is the size of that group among completed items |
| ListView.CompletedAddUp | src/components/ShoppingListManager.tsx:37-121 | per-heading completed counts add up to the header's completed count |
| ListView.Toggled | src/components/ShoppingListManager.tsx:40-50 | the clicked heading flips and no other changes |
| ListView.ToggleTwice | src/components/ShoppingListManager.tsx:40-50 | two clicks restore the expanded set |
| ListView.ListPanel.constructor | src/components/ShoppingListManager.tsx:25 | no heading starts expanded |
| ListView.ListPanel.ToggleCategory | src/components/ShoppingListManager.tsx:40-50 | the expanded set becomes the toggled set |
| ListView.QuantityFromInput | src/components/ShoppingListManager.tsx:173 | the quantity is never zero, and is 1 when the box holds no digit |
| ListView.QuantityOfDigits | src/components/ShoppingListManager.tsx:173 | a box of digits yields its value, or 1 for zero |
| Stats.TotalQuantity | src/components/ShoppingStats.tsx:13 | the summed quantity; TotalQuantityConcat and TotalQuantityCoversItems state it |
| Stats.CategoryCounts | src/components/ShoppingStats.tsx:15-19 | the category entries; CountByCategory and CountsAddUp state them |
| Stats.TopCategory | src/components/ShoppingStats.tsx:21 | the top category; TopCategoryIsMostCommon states it |
| Stats.TopItem | src/components/ShoppingStats.tsx:24 | the most purchased item; TopItemIsMostPurchased states it |
| Stats.TotalQuantityConcat | src/components/ShoppingStats.tsx:13 | summed quantity distributes over concatenation |
| Stats.TotalQuantityCoversItems | src/components/ShoppingStats.tsx:13 | with every quantity at least 1, there are at least as many units as items |
| Stats.Tally | src/components/ShoppingStats.tsx:16-21 | one entry per category, pairing it with its number of items |
| Stats.CountByCategory | src/components/ShoppingStats.tsx:16-19 | the loop gives each category present its item count, keyed in creation order |
| Stats.CountsAddUp | src/components/ShoppingStats.tsx:16-19 | the category counts add up to the number of items |
| Stats.TopCategoryIsMostCommon | src/components/ShoppingStats.tsx:21 | present iff the list is non-empty; a most common category, with its true count, and the first such in creation order |
| Stats.TopItemIsMostPurchased | src/components/ShoppingStats.tsx:24 | present iff there is history; the earliest entry of highest frequency |
| Stats.Summarize | src/components/ShoppingStats.tsx:11-24 | the card shows the list length, completed count, summed quantity, top category and top item |

## Left out

- Speech recognition, microphone permissions, interim transcripts and the listening indicator
  are outside the model. A transcript is a string parameter.
- Toasts, reason texts, icons, badge colours and all rendering (JSX) are not modelled.
  `Suggestion` keeps only the name, kind and price.
- Persisting to and loading from `localStorage` is not modelled. The store starts empty.
- The asynchronous parts are not modelled: `await`, the simulated network delay of the search,
  and the `try`/`catch` paths around failed lookups. `searchProducts` is the synchronous
  `Catalog.SearchProducts` over a catalog parameter. The fallback grocery list used when the
  lookup fails is not part of this model.
- The contents of the product database are a parameter, not a constant.
- `Math.random`, the clock (`Date.now` for ids and timestamps, `getMonth` for the season) and
  the presence of an API key are parameters. No claim is made that ids are unique.
- Prices are Dafny `real`s. JavaScript's floating point and `parseFloat` rounding are not
  modelled: a price `D.dd` reads as `D + dd/100`.
- `toLowerCase` is modelled on ASCII letters only.
- The regular-expression `.` is modelled as matching every character. JavaScript's `.` does not
  match line terminators.
- `Object.keys` and `Object.entries` are modelled in insertion order. JavaScript puts
  integer-like keys first, and a category named like an `Object.prototype` member would misbehave
  in the `!acc[key]` test. Neither is modelled.
- JavaScript's `.length` counts UTF-16 code units. The model's `|w|` counts characters, so a
  word holding a character outside the Basic Multilingual Plane is one shorter in the model. This
  affects the length tests on query words (`src/utils/productSearch.ts:161`), on history
  keywords (`src/components/SmartSuggestions.tsx:135`) and on salvaged tokens
  (`src/components/VoiceCommands.tsx:246`, `src/components/VoiceSearch.tsx:172`).
- JavaScript numbers are doubles. `parseInt` (`src/components/ShoppingListManager.tsx:173`,
  `src/components/VoiceCommands.tsx:140`) and the quantity sum
  (`src/components/ShoppingStats.tsx:13`) lose precision beyond 2^53. The model's integers are
  exact.
- The default string `sort()` compares UTF-16 code units. The model compares Dafny characters,
  which differs only for characters outside the Basic Multilingual Plane.
- React's stale closures are not modelled. Each voice action is applied to the current store
  state, not to the state the recognition handler captured. This also holds for the search
  panel: its recognition handler is created again only when the language changes
  (`src/components/VoiceSearch.tsx:40-79`), so a voice search narrows its results by the price
  filter in force when the handler was created (`src/components/VoiceSearch.tsx:202-208`).
  `VoiceSearch.SearchPanel.ProcessSearchCommand` narrows by the current filter.
- `showMoreProducts` (revealing more search results) and the manual `Input` bindings other than
  the quantity box are not modelled.
- VoiceCommands.Resolve: only the pass-through cases are stated in the contract. The add case
  is stated by `ResolvedAddIsBestMatch`, the salvage add by `ResolvedSalvageIsBestMatch`, and
  when either is reported unavailable by `NotAvailableIffNoMatch`.
- VoiceSearch.BetweenAt: states only that the match stays inside the text. `RangeScan` states
  which match is taken.
- VoiceSearch.RemoveAll: states only that the text does not grow. Which keywords are removed is
  stated by `RemoveAllUnchangedIff`, `RemoveNothing` and `RemoveShrinks`.
- VoiceSearch.RemovePricePhrases: states only that the text does not grow and that text
  without digits is unchanged (`NoDigitNoPricePhrase`).
- Suggestions.ItemOffers: states only that no offer is already listed.
- Suggestions.CartOffers: states only that no offer is already listed.
