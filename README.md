# Bank-statement tools, modelled in Dafny

This project models the data-handling core of `misc-tool`'s personal-finance
scripts. The scripts fall into two families.

- **Account-balance tools**
  - The Chase and Bank of America extractors find a statement's period-end
    date and ending balance in its text. They normalise the date to
    `YYYY/MM/DD` and the money to `digits.dd`, and write a `date,balance`
    summary sorted ascending.
  - The aggregator reads such summaries and reduces each date to a `Y/M`
    month bucket. It adds the balances of each bucket with exact decimal
    string arithmetic, then writes the buckets sorted.
- **Budget-tracking tools**
  - The Citibank, Bank of America and Chase parsers turn statement lines into
    `{date, description, amount}` records.
  - Two of them put descriptions into big camel case (`_big_camel`).
  - Two can rewrite descriptions through an ordered table of patterns, where
    the first match wins.
  - All of them group the records by date, keeping input order within a date,
    and write the dates in ascending order, each followed by its entry rows.
  - The combiner reads such ledgers back and merges them date by date.

Each Dafny module follows one piece of the program:

| module | models |
|---|---|
| `Results` | failures as `Result`, and the "map over a list, stop at the first failure" shape every parser loop has |
| `Text` | `str.split(' ')`, `' '.join`, `str.strip`, Python slices, `re.sub` of one character, and first- and last-match searches |
| `Ordering` | Python's order on strings and on `[date, balance]` pairs, and `sorted` |
| `Money` | `_normalize_money`, `_check_money_format` and `_add_money` |
| `Dates` | `_normalize_date`, `_normalize_month`, `_normalize_day` and `_to_month` |
| `BalanceRows` | `_write_balance_summary` of the extractors |
| `ChaseBalance`, `BofaBalance` | the two account-balance extractors |
| `BalanceAggregate` | the aggregator; its dictionary is the field of class `BalanceSummary`, updated in place |
| `Ledgers` | records, `_write_records`' grouping dictionary and its sorted writer |
| `Descriptions` | the conversion table, `_convert_entry_description` and `_big_camel` |
| `CitiStatement`, `BofaBudget`, `ChaseBudget`, `BofaCamel` | the four statement parsers (`BofaCamel` is the top-level `bofa_statement.py`) |
| `Combine` | the ledger reader, the merger and the writer |

Loops that build or update something are methods with loop invariants. Each
is proved equal to a function that states what the loop computes, and the
properties are lemmas about those functions. Loops that only look for the
first matching line are recursive functions over `Text.FirstFrom`:
`_extract_date` in both extractors and the Bank of America `_extract_balance`.

The program's inputs are parameters of the model:

- statement text already extracted from the PDF;
- the lines of a file;
- CSV rows as sequences of cells;
- the rows of a conversion file as (pattern, name) pairs;
- the regular-expression search on user patterns, as a predicate `search(pattern, description)`.

Two behaviours of the code a reader might not expect:

- `_add_money` does not left-pad a sum under 100 minor units. `"0.01"` plus
  `"0.02"` gives `".3"`, which the next addition into that bucket rejects.
  `Money.AddMoneyUnpadded`, `Money.UnpaddedSumPoisons` and
  `BalanceAggregate.SmallFirstBalancePoisonsMonth` state this.
- `_to_month` keeps the first two digit groups as they are. A `M/D/YYYY`
  date such as `3/14/2024` therefore gives `3/14` (`Dates.ToMonthExamples`).

## Model

| member | source | states |
|---|---|---|
| Dates.NormalizeMonth | account-balance/chase_statement.py:75-91 | a name is accepted exactly when it is one of the twelve English month names; the result is that month's entry of the table, and any other name fails with UnknownMonth |
| Dates.MonthNumbersAreTwoDigits | account-balance/chase_statement.py:77-90 | every month number is two digits whose value is between 1 and 12 |
| Dates.MonthNumbersDistinct | account-balance/chase_statement.py:77-90 | different month names map to different numbers |
| Dates.NormalizeDay | account-balance/chase_statement.py:93-99 | a day of one or two characters is accepted, ends in the given day, is two long, and gets a leading `0` when it was one long; any other length fails with UnexpectedDayFormat |
| Dates.NormalizeDayKeepsValue | account-balance/chase_statement.py:94-98 | padding a one- or two-digit day keeps its numeric value |
| Dates.ParseHumanDateSound | account-balance/chase_statement.py:67-69 | whatever the `word digits, digits` match accepts is well formed, and printing its three groups back gives the matched text |
| Dates.ParseHumanDateComplete | account-balance/chase_statement.py:67-69 | every well-formed `Month D, YYYY` text is matched, with exactly its month, day and year as the groups |
| Dates.NormalizeDate | account-balance/chase_statement.py:66-69 | a text the pattern does not match fails with UnexpectedDateFormat carrying that text |
| Dates.NormalizeDateOf | account-balance/chase_statement.py:66-73 | a statement date normalises exactly when its month is known and its day is at most two digits, to `year/MM/DD`; otherwise it fails with UnknownMonth or UnexpectedDayFormat, checked in that order |
| Dates.NormalizeDateShape | account-balance/chase_statement.py:70-73 | a normalised date is three slash-separated digit groups, with a two-digit month from 1 to 12 and a two-digit day |
| Dates.ToMonth | account-balance/account_balance_aggregate.py:60-66 | a month key comes only from a `digits/digits/digits` date and is its first two groups joined by a slash |
| Dates.ToMonthOf | account-balance/account_balance_aggregate.py:60-66 | every `digits/digits/digits` date is accepted, giving its first two groups unchanged |
| Dates.ToMonthExamples | account-balance/account_balance_aggregate.py:61-66 | `2024/01/15` gives `2024/01`, and `3/14/2024` gives `3/14` |
| Dates.ToMonthOfNormalizedDate | account-balance/account_balance_aggregate.py:60-66 | the aggregator accepts every date an extractor writes, and buckets it under its year and two-digit month |
| Money.IsMoney | account-balance/account_balance_aggregate.py:69-72 | `^\d+\.\d\d$` on the whole string: at least one ASCII digit, a dot, two ASCII digits; `MoneyParts` states its shape |
| Money.MoneyParts | account-balance/account_balance_aggregate.py:69-72 | a well-formed amount is its integer digits, one dot and two cent digits, with no comma |
| Money.NormalizeMoney | account-balance/chase_statement.py:127-132 | succeeds exactly when the input with every comma removed is well formed, and then returns that comma-free string; failure carries the original input; a well-formed input is returned unchanged |
| Money.NormalizeMoneyGrouped | account-balance/chase_statement.py:128-132 | an amount written `digits,digits.dd` normalises to its digits joined, in order, before the dot and cents |
| Money.NormalizeMoneyExample | account-balance/chase_statement.py:128-132 | `1,234.56` normalises to `1234.56` |
| Money.SignedMoneyRefused | account-balance/bofa_statement.py:111-116 | a signed amount is refused |
| Money.DecimalString | account-balance/account_balance_aggregate.py:82 | `str` of a natural number: digits without a leading zero whose value is the number; at least three digits exactly from 100 on |
| Money.AddMoney | account-balance/account_balance_aggregate.py:75-77 | the sum succeeds exactly when both operands are well formed; otherwise it fails on the first malformed operand |
| Money.AddMoneyExact | account-balance/account_balance_aggregate.py:79-83 | when the minor units add up to 100 or more, the sum is well formed, its minor units are the operands' total, and its text is `str` of that total with a dot before the last two digits |
| Money.AddMoneyCarryExample | account-balance/account_balance_aggregate.py:79-83 | `999.99` plus `0.01` is `1000.00` |
| Money.HundredThousand | account-balance/account_balance_aggregate.py:82 | `str(100000)` splits into `1000` and `00` at the dot's place |
| Money.AddMoneyUnpadded | account-balance/account_balance_aggregate.py:82-83 | when the minor units add up to less than 100, the sum is a dot followed by their total's digits, which is not a well-formed amount |
| Money.UnpaddedSumPoisons | account-balance/account_balance_aggregate.py:76-83 | adding anything to such a small sum fails with UnexpectedMoneyFormat |
| Money.AddMoneyCommutes | account-balance/account_balance_aggregate.py:82 | the operands' order does not change the sum |
| Money.AddAllExact | account-balance/account_balance_aggregate.py:50-57 | adding well-formed amounts one after another, with no small first sum, succeeds, and the minor units are the start's plus the amounts' total |
| Money.BucketTotalExact | account-balance/account_balance_aggregate.py:54-57 | a bucket started at `0.00` whose first amount is at least one unit holds the exact total of its amounts |
| Ordering.StrLeIsTotalOrder | budget-tracking/combine.py:70 | the order `sorted` uses on dates is total, transitive and antisymmetric |
| Ordering.PairLeIsTotalOrder | account-balance/chase_statement.py:139 | the order on `[date, balance]` pairs is total, transitive and antisymmetric |
| Ordering.Sort | account-balance/chase_statement.py:139 | `sorted` returns a permutation of its input |
| Ordering.SortSorted | account-balance/chase_statement.py:139 | under a total order, the result of `sorted` is ordered |
| Ordering.SortedUnique | account-balance/chase_statement.py:139 | under an antisymmetric order, two ordered permutations of one multiset are equal, so the result of `sorted` is determined by its input's elements |
| Ordering.SortDistinct | budget-tracking/combine.py:70 | sorting distinct keys keeps them distinct |
| Text.Split | budget-tracking/citi_statement.py:51 | `split(' ')` gives at least one piece, no piece holds the separator, and joining the pieces gives the string back |
| Text.SplitOfJoin | budget-tracking/citi_statement.py:55 | splitting the join of separator-free pieces gives the pieces back |
| Text.SplitStripJoin | budget-tracking/bofa_statement.py:43 | the tokens of a stripped line built from space-free tokens are those tokens |
| Text.Strip | budget-tracking/chase_statement.py:48-50 | `strip()` leaves no whitespace at either end |
| Text.StripLeading | budget-tracking/chase_statement.py:48-50 | leading whitespace removed: the result is a suffix, everything removed is whitespace, and it starts with a non-blank |
| Text.StripTrailing | budget-tracking/chase_statement.py:48-50 | trailing whitespace removed: the result is a prefix, everything removed is whitespace, and it ends with a non-blank |
| Text.PySlice | budget-tracking/citi_statement.py:55 | a Python slice is never longer than the sequence; in-range bounds give that piece, a negative bound counts from the end, a stop past the end is clamped, and crossed bounds give nothing |
| Text.RemoveCharConcat | budget-tracking/citi_statement.py:38 | removing a character from a concatenation removes it from each part, so the characters kept stay in order |
| Text.RemoveCharAbsent | budget-tracking/citi_statement.py:38 | a string without the character is unchanged |
| Text.RemoveCharCounts | budget-tracking/citi_statement.py:38 | `re.sub` of one character removes every copy of it and keeps every other character with its count |
| Text.LastOccurrence | account-balance/bofa_statement.py:58 | the greedy `.*` before a literal settles on its last occurrence in range, and no later one exists; none means no occurrence |
| Text.FirstFrom | account-balance/bofa_statement.py:57-61 | a line scan returns the first matching line, and none before it matches; none means no line matches |
| ChaseBalance.AccountTypeMark | account-balance/chase_statement.py:119-124 | checking accounts use `CHECKING SUMMARY`, savings accounts `SAVINGS SUMMARY` |
| ChaseBalance.AccountTypeMarksDiffer | account-balance/chase_statement.py:120-123 | the two marks differ |
| ChaseBalance.ThroughGroup | account-balance/chase_statement.py:59 | a line matches exactly when it contains `through`, and the group is the text after its last occurrence |
| ChaseBalance.DateOfLines | account-balance/chase_statement.py:56-63 | the date scan: the first line matching `^.*through(.*)$` decides; its properties are stated by `DateOfLinesFirstMatch` |
| ChaseBalance.DateOfLinesFirstMatch | account-balance/chase_statement.py:56-63 | with no `through` line, the result is DateNotFound, and only then; otherwise it is the normalisation of the first such line's group, with no retry on later lines |
| ChaseBalance.NormalizeDateNeverMissing | account-balance/chase_statement.py:62-63 | a failure of a found date is never DateNotFound |
| ChaseBalance.ThroughGroupKeepsSpace | account-balance/chase_statement.py:59 | the group after `through` keeps the space that follows the word |
| ChaseBalance.ThroughNoOverlap | account-balance/chase_statement.py:59 | two occurrences of `through` cannot overlap |
| ChaseBalance.SpaceAfterThroughRefused | account-balance/chase_statement.py:56-69 | a first `through` line printed as `… through Month D, YYYY` makes date extraction fail with UnexpectedDateFormat, because of that leading space |
| ChaseBalance.BalanceAfterMarkFirstMatch | account-balance/chase_statement.py:102-116 | with no mark line, or no `Ending Balance $` line after the first mark, the result is BalanceNotFound; otherwise it is the normalised group of the first balance line after the first mark, and balance lines up to the mark are ignored |
| ChaseBalance.ScanBalance | account-balance/chase_statement.py:105-116 | the flag-driven loop computes the header-gated first match |
| ChaseBalance.ExtractBalance | account-balance/chase_statement.py:102-116 | `_extract_balance` is the header-gated scan over the text's lines with the account's mark |
| ChaseBalance.EntryStep | account-balance/chase_statement.py:33-36 | one statement's entry: its date, then its balance, the first failure aborting |
| ChaseBalance.Run | account-balance/chase_statement.py:30-38 | all statements' entries, in order, written as the sorted summary; the first failing statement aborts the run with its error |
| BofaBalance.DateGroupMatches | account-balance/bofa_statement.py:58 | a line matches `for .* to (.*) Account number: .*` exactly when the pattern has a match; the group is the one Python's backtracking picks: last ` Account number: `, then last ` to ` before it |
| BofaBalance.DateOfLines | account-balance/bofa_statement.py:55-62 | the date scan: the first date line decides; its properties are stated by `DateOfLinesFirstMatch` |
| BofaBalance.DateOfLinesFirstMatch | account-balance/bofa_statement.py:55-62 | with no date line, the result is DateNotFound, and only then; otherwise it is the normalisation of the first date line's group |
| BofaBalance.BalanceGroupMatches | account-balance/bofa_statement.py:104 | a line matches `Ending balance on .* \$(.*)` exactly when the pattern has a match; the group follows the last ` $` |
| BofaBalance.BalanceOfLines | account-balance/bofa_statement.py:101-108 | the balance scan: the first balance line decides; its properties are stated by `BalanceOfLinesFirstMatch` |
| BofaBalance.BalanceOfLinesFirstMatch | account-balance/bofa_statement.py:101-108 | the first balance line anywhere in the text gives the balance, with no header gating; with none the result is BalanceNotFound |
| BofaBalance.Run | account-balance/bofa_statement.py:29-37 | all statements' entries, in order, written as the sorted summary; the first failing statement aborts the run |
| BofaBalance.RunSucceeds | account-balance/bofa_statement.py:29-37 | the run succeeds exactly when every statement yields an entry, and then the data rows hold exactly the statements' entries, as a multiset, in ascending order |
| BalanceRows.WriteBalanceSummary | account-balance/chase_statement.py:135-140 | the `date,balance` header, then two-cell rows holding exactly the entries, as a multiset, in ascending order |
| BalanceRows.WriteBalanceSummaryUnique | account-balance/bofa_statement.py:127-132 | the data rows are the one ordered arrangement of the entries |
| BalanceRows.WriteBalanceSummaryOrderFree | account-balance/bofa_statement.py:127-132 | the written summary does not depend on the order the entries were collected in |
| BalanceAggregate.ReadBalanceSummary | account-balance/account_balance_aggregate.py:36-38 | the header row is dropped and the rest kept in order; a file with no rows fails with MissingHeader |
| BalanceAggregate.AddEntry | account-balance/account_balance_aggregate.py:51-57 | adding one row never removes a bucket |
| BalanceAggregate.AddEntryOk | account-balance/account_balance_aggregate.py:51-57 | a row that adds cleanly has a date and a balance and a valid month; its bucket, started at `0.00` when unseen, becomes the sum, and nothing else changes |
| BalanceAggregate.AddEntryStep | account-balance/account_balance_aggregate.py:51-57 | the loop body on one row computes `AddEntry` |
| BalanceAggregate.AddEntriesFrame | account-balance/account_balance_aggregate.py:49-57 | buckets are never removed, and a bucket no row falls into is neither created nor changed |
| BalanceAggregate.AddEntriesBuckets | account-balance/account_balance_aggregate.py:49-57 | after a clean pass, the buckets are the old ones plus the months of the rows, and each holds its start plus that month's balances added in row order |
| BalanceAggregate.AddEntriesConcat | account-balance/account_balance_aggregate.py:26-28 | adding two lists of rows is adding the first and, unless it failed, then the second |
| BalanceAggregate.SmallFirstBalancePoisonsMonth | account-balance/account_balance_aggregate.py:54-57 | two rows of the same month whose first balance is under one unit make the pass fail on the unpadded partial sum |
| BalanceAggregate.BalanceSummary.constructor | account-balance/account_balance_aggregate.py:25 | the dictionary starts empty |
| BalanceAggregate.BalanceSummary.AddBalanceSummary | account-balance/account_balance_aggregate.py:49-57 | the in-place loop leaves the dictionary, and reports the error, that `AddEntries` gives from the old dictionary |
| BalanceAggregate.BalanceSummary.Items | account-balance/account_balance_aggregate.py:45 | `items()`: one pair per bucket, each with its value, every bucket present |
| BalanceAggregate.BalanceSummary.Write | account-balance/account_balance_aggregate.py:41-46 | the header, then exactly one row per bucket holding its month and value, in ascending order |
| BalanceAggregate.RowsOfItems | account-balance/account_balance_aggregate.py:45-46 | every written row is a bucket with its value |
| BalanceAggregate.ItemsInRows | account-balance/account_balance_aggregate.py:45-46 | every bucket has a written row |
| BalanceAggregate.AggregateIsAddEntries | account-balance/account_balance_aggregate.py:25-28 | reading and adding the files one by one is adding all their data rows in one pass |
| BalanceAggregate.AggregateBuckets | account-balance/account_balance_aggregate.py:25-28 | after a clean run, the buckets are the months that occur, each holding `0.00` plus its balances in file and row order |
| BalanceAggregate.Run | account-balance/account_balance_aggregate.py:22-30 | the run succeeds exactly when aggregation does, and then writes the summary of the aggregated buckets; otherwise it fails with aggregation's error |
| Ledgers.Grouped | budget-tracking/citi_statement.py:91-95 | the grouping dictionary as a mapping: each date of a record to its entries in input order; `GroupedValid` and `OnHasRecord` state its properties |
| Ledgers.FirstAppearanceDates | budget-tracking/citi_statement.py:91-95 | the grouping dictionary's keys are distinct, and are exactly the records' dates |
| Ledgers.OnHasRecord | budget-tracking/citi_statement.py:95 | every record is in its date's group |
| Ledgers.GroupedValid | budget-tracking/citi_statement.py:91-95 | the grouping dictionary has a key for each date of a record and no other, and each record's entry is in its date's group |
| Ledgers.GroupByDate | budget-tracking/citi_statement.py:91-95 | the loop builds the keys in first-appearance order, with each date's entries in input order |
| Ledgers.SortedDates | budget-tracking/citi_statement.py:99 | sorting the keys keeps exactly the keys, in strictly ascending order |
| Ledgers.SortedKeys | budget-tracking/citi_statement.py:99 | every sorted key is a key of the dictionary |
| Ledgers.WriteBlock | budget-tracking/citi_statement.py:100-102 | one date row, then one `[description, amount]` row per entry in order |
| Ledgers.WriteLedger | budget-tracking/citi_statement.py:97-102 | the blocks of the sorted dates, one after another |
| Ledgers.WriteLedgerOrderFree | budget-tracking/citi_statement.py:99-102 | the written rows depend only on the date-to-entries mapping, not on key insertion order |
| Ledgers.WriteRecords | budget-tracking/citi_statement.py:90-102 | `_write_records`: group, then write sorted; the grouping is a valid ledger |
| Descriptions.TableOf | budget-tracking/citi_statement.py:72-74 | the conversion table built from the rows; `TableOfKeys` and `TableOfLastWins` state its properties |
| Descriptions.TableOfKeys | budget-tracking/citi_statement.py:72-74 | the table's patterns are distinct, and are exactly the patterns of the rows |
| Descriptions.TableOfLastWins | budget-tracking/citi_statement.py:73-74 | a pattern's name is the one on its last row |
| Descriptions.BuildTable | budget-tracking/citi_statement.py:72-74 | the reading loop builds that table; a repeated pattern keeps its first position |
| Descriptions.Converted | budget-tracking/citi_statement.py:79-87 | date and amount are kept; the description becomes the name of the first pattern, in table order, that is found in it; the record is unchanged when none is |
| Descriptions.ConvertEntryDescription | budget-tracking/citi_statement.py:79-87 | the loop returning on the first pattern found computes `Converted` |
| Descriptions.ConvertDescriptions | budget-tracking/citi_statement.py:76 | converting keeps the number of records and each record's date and amount |
| Descriptions.ConvertAll | budget-tracking/citi_statement.py:76 | the comprehension converts each record in order |
| Descriptions.ConvertStep | budget-tracking/citi_statement.py:26-27 | the records are converted only when a conversion file is given |
| Descriptions.ConvertKeepsDates | budget-tracking/bofa_statement.py:61 | conversion leaves the grouping's dates, their first-appearance order and each group's size unchanged |
| Descriptions.SameDatesSameKeys | budget-tracking/bofa_statement.py:76-80 | records with the same dates in the same order group under the same keys, with groups of the same sizes |
| Descriptions.LowerAll | budget-tracking/chase_statement.py:73 | `lower()` maps each character and keeps the length |
| Descriptions.CapitalizeShape | budget-tracking/chase_statement.py:73 | a non-empty token becomes capitalised, keeps its length and its spaces, and an already capitalised token is unchanged |
| Descriptions.BigCamel | budget-tracking/chase_statement.py:71-74 | `_big_camel`: each space-separated token capitalised, joined by single spaces; `BigCamelOk`, `BigCamelTokens` and `BigCamelIdempotent` state its properties |
| Descriptions.BigCamelOk | budget-tracking/chase_statement.py:71-74 | `_big_camel` succeeds exactly when no space-separated token is empty, and otherwise fails with MissingToken |
| Descriptions.BigCamelTokens | budget-tracking/chase_statement.py:71-74 | the result has as many tokens as the input, each the input token with its first character upper-cased and the rest lower-cased |
| Descriptions.BigCamelIdempotent | budget-tracking/chase_statement.py:71-74 | applying `_big_camel` to its own result changes nothing |
| CitiStatement.ParseAmount | budget-tracking/citi_statement.py:37-38 | the result is the amount with every `$` removed, other characters kept in order (`RemoveChar`, fixed by `RemoveCharConcat`, `RemoveCharAbsent` and `RemoveCharCounts`); an amount without `$` is unchanged |
| CitiStatement.ParseAmountDollar | budget-tracking/citi_statement.py:37-38 | a leading `$` is dropped and the amount after it is kept as it is |
| CitiStatement.ParseAmountExample | budget-tracking/citi_statement.py:37-38 | `$1,234.56` gives `1,234.56` |
| CitiStatement.IsDate | budget-tracking/citi_statement.py:41-42 | `^\d\d/\d\d$`: exactly two ASCII digits, a slash and two ASCII digits |
| CitiStatement.ParseTokens | budget-tracking/citi_statement.py:52-63 | on the tokens of a line: fails only when the only token is a date (no second token to test), with MissingToken; otherwise the date is the first token and the amount is the last token without `$` |
| CitiStatement.ParseLine | budget-tracking/citi_statement.py:51-63 | a line fails only when its only token is a date, with MissingToken; otherwise the date is the first token of the stripped line split on spaces, and the amount is its last token without `$` |
| CitiStatement.TokensUndated | budget-tracking/citi_statement.py:58-63 | tokens whose first is not a date: that token is the date, the tokens between it and the last are the description (empty for a single token), the last is the amount |
| CitiStatement.TokensDated | budget-tracking/citi_statement.py:58-63 | tokens starting with a date and then a non-date: the description is every token between the first and the last |
| CitiStatement.TokensPosted | budget-tracking/citi_statement.py:52-57 | tokens starting with two dates: the description is every token between the second and the last |
| CitiStatement.LineOfTokens | budget-tracking/citi_statement.py:51 | a line printed from space-free tokens, the first starting and the last ending in a non-blank, splits back into those tokens |
| CitiStatement.ParseLineOfFields | budget-tracking/citi_statement.py:58-63 | a line `date words… amount` whose first word is not a date parses into that date, the words joined by spaces, and the amount without `$` |
| CitiStatement.ParseLineOfPostedFields | budget-tracking/citi_statement.py:52-57 | a line `date posted words… amount` drops both dates from the description |
| CitiStatement.ParseLineOfUndatedFields | budget-tracking/citi_statement.py:58-63 | a line `first words… amount` whose first token is not a date keeps that token as its date, the words joined by spaces as its description, and the amount without `$` |
| CitiStatement.ParseLineOneToken | budget-tracking/citi_statement.py:58-63 | a one-token line that is not a date is its own date and amount (without `$`), with an empty description |
| CitiStatement.ParseBlankLine | budget-tracking/citi_statement.py:51-63 | a blank line gives a record of three empty fields |
| CitiStatement.ParseStatement | budget-tracking/citi_statement.py:45-65 | one record per line, in order; the first failing line aborts |
| CitiStatement.RunFails | budget-tracking/citi_statement.py:51-52 | parsing fails exactly when some line is a lone date |
| CitiStatement.Run | budget-tracking/citi_statement.py:22-28 | parse, convert when a table is given, write the grouped ledger; a parse failure aborts |
| BofaBudget.ParseLine | budget-tracking/bofa_statement.py:43-47 | the date is the first token and the amount the last, verbatim; a line of at most five tokens has an empty description; no line fails |
| BofaBudget.ParseLineOfFields | budget-tracking/bofa_statement.py:43-47 | a line `date x words… a b c amount` of space-free tokens parses into the date, the words joined by spaces, and the amount |
| BofaBudget.ParseAll | budget-tracking/bofa_statement.py:41-50 | one record per line |
| BofaBudget.ParseStatement | budget-tracking/bofa_statement.py:41-50 | the loop parses each line in order |
| BofaBudget.LedgerDates | budget-tracking/bofa_statement.py:75-80 | with or without conversion, the ledger's dates are exactly the lines' first tokens |
| BofaBudget.Run | budget-tracking/bofa_statement.py:22-28 | parse, convert when a table is given, write the grouped ledger |
| ChaseBudget.RecordOf | budget-tracking/chase_statement.py:47-51 | one zipped triple: stripped date, big-camel stripped description, stripped amount; `RecordOfOk` states when it succeeds |
| ChaseBudget.RecordOfOk | budget-tracking/chase_statement.py:47-51 | a zipped triple makes a record exactly when its stripped description can be capitalised |
| ChaseBudget.ParseFile | budget-tracking/chase_statement.py:39-51 | a file fails with UnexpectedLineCount exactly when its line count is not a multiple of three |
| ChaseBudget.ParseFileOk | budget-tracking/chase_statement.py:42-51 | a file of `3n` lines parses exactly when every line of its middle block can be capitalised |
| ChaseBudget.ParseFileRecords | budget-tracking/chase_statement.py:42-51 | record `i` is the stripped line `i`, the big-camel stripped line `n+i` and the stripped line `2n+i` |
| ChaseBudget.ParseFileLength | budget-tracking/chase_statement.py:39-46 | a file that parses has a multiple of three lines and one record per three lines |
| ChaseBudget.ParseLayout | budget-tracking/chase_statement.py:42-51 | laying plain records out in three blocks and parsing the file gives them back |
| ChaseBudget.ParseFileStep | budget-tracking/chase_statement.py:39-51 | the loop body on one file computes `ParseFile` |
| ChaseBudget.ParseStatement | budget-tracking/chase_statement.py:33-53 | the files' records concatenated in file order; the first failing file aborts |
| ChaseBudget.FlattenLength | budget-tracking/chase_statement.py:34-53 | the concatenated records number at most a third of all lines, and exactly a third when every file's count is a multiple of three |
| ChaseBudget.ParseFilesCount | budget-tracking/chase_statement.py:34-53 | a successful parse makes one record per three lines across all files |
| ChaseBudget.Run | budget-tracking/chase_statement.py:20-24 | parse all files, then write the grouped ledger; a parse failure aborts |
| BofaCamel.ParseLine | bofa_statement.py:39-44 | the budget-tracking line parse with the description put into big camel case; `ShortLineFails`, `ParseLineOfFields` and `ParsedCapitalized` state its properties |
| BofaCamel.ShortLineFails | bofa_statement.py:42 | a line of at most five tokens fails, since its empty description has an empty token |
| BofaCamel.ParseLineOfFields | bofa_statement.py:39-44 | a line with non-empty description words parses into its date and amount and the words, each capitalised |
| BofaCamel.ParseStatement | bofa_statement.py:37-46 | one record per line, in order; the first failing line aborts |
| BofaCamel.ParsedCapitalized | bofa_statement.py:37-46 | each record keeps the date and amount of the budget-tracking parser's record of its line, with a description already in big camel case |
| BofaCamel.Run | bofa_statement.py:20-24 | parse, then write the grouped ledger; a parse failure aborts |
| Combine.ReadRow | budget-tracking/combine.py:41-52 | one row of the reader; the rule for each kind of row is stated by `ReadRowSkips`, `ReadRowDate` and `ReadRowEntry` |
| Combine.ReadRowSkips | budget-tracking/combine.py:42-52 | a row of neither one nor two cells changes nothing |
| Combine.ReadRowDate | budget-tracking/combine.py:42-45 | a date row becomes current; a date already read keeps its position and entries, and a new one is appended with an empty list |
| Combine.ReadRowEntry | budget-tracking/combine.py:46-52 | an entry row appends `[description, amount]` to the current date's list and changes nothing else; with no current date of this file it fails with NoCurrentDate |
| Combine.ReadSheet | budget-tracking/combine.py:40-53 | the row loop of one file computes `ReadRows` from an empty dictionary, carrying the current date in |
| Combine.ReadSpreadsheets | budget-tracking/combine.py:35-54 | one dictionary per file, in order, with the current date carried from file to file; the first failing file aborts |
| Combine.ReadRowsValid | budget-tracking/combine.py:41-52 | reading keeps the dictionary's keys distinct and in step with their lists |
| Combine.ReadRowsConcat | budget-tracking/combine.py:41 | reading two runs of rows is reading the first, then the second from where it left off |
| Combine.EntryBeforeDateFails | budget-tracking/combine.py:46-49 | a two-cell row before any date row of its file fails with NoCurrentDate |
| Combine.ReadAllValid | budget-tracking/combine.py:35-54 | every dictionary read is a valid ledger |
| Combine.ReadLedgerRows | budget-tracking/combine.py:41-52 | reading the blocks of distinct dates gives those dates, in order, with their entry lists |
| Combine.WriteThenRead | budget-tracking/combine.py:67-73 | reading back a written ledger gives the same date-to-entries mapping, with keys in sorted order |
| Combine.RecordsRoundTrip | budget-tracking/citi_statement.py:90-102 | reading back the rows a parser writes gives its grouping of the records |
| Combine.AllDatesMembers | budget-tracking/combine.py:59-62 | the merged keys are the union of the inputs' keys |
| Combine.CombinedOne | budget-tracking/combine.py:57-64 | merging one ledger gives it back |
| Combine.CombinedSnoc | budget-tracking/combine.py:59-63 | merging one more ledger adds its keys and appends its lists to the merged ones |
| Combine.AddDate | budget-tracking/combine.py:61-63 | adding a date creates it when absent and extends only its list |
| Combine.AddDateValid | budget-tracking/combine.py:61-62 | adding a date keeps the ledger valid |
| Combine.ExtendWith | budget-tracking/combine.py:60-63 | the inner loop adds a ledger's keys and extends each list by that ledger's list |
| Combine.CombineSheets | budget-tracking/combine.py:57-64 | the nested loops give a valid ledger whose mapping is the merge of the inputs |
| Combine.CombinedContents | budget-tracking/combine.py:57-64 | the merge has a key exactly when some input has it, and each list is the concatenation of that date's lists in file order, with no deduplication |
| Combine.Run | budget-tracking/combine.py:21-26 | the run succeeds exactly when reading does, and then writes the merged mapping with its dates sorted; otherwise it fails with reading's error |

## Left out

- Argument parsing, `_check_args`, logging, `main` and exit codes: process plumbing.
- `_list_file_paths` and `_retrieve_text`: the statement text, a file's lines and a CSV file's rows are inputs of the model.
  - The order of `os.listdir` does not change a successful run's output, because every writer sorts (`BalanceRows.WriteBalanceSummaryOrderFree`). It does decide which error a failing run reports: the first failing file in that order.
- `_read_balance_summary`'s file opening, and CSV quoting in every writer: rows are sequences of cells, and CSV encoding is not part of this model.
- The conversion file is taken as its (pattern, name) rows. The `csv.DictReader` column lookup is not modelled.
- The regular-expression engine:
  - the fixed patterns are written out as string predicates;
  - `\d` and `\w` are ASCII only;
  - `$` also matching before a trailing newline is not modelled. The statement extractors and the Citi `_is_date` only ever see lines that are already split on newlines, so it cannot arise there;
  - the user's description patterns are the `search` parameter.
- Dates.ToMonth: `_to_month` (account-balance/account_balance_aggregate.py:61) matches a CSV cell of a balance summary, and a quoted cell can end in a newline. The code accepts such a cell (`2024/01/15` followed by a newline gives `2024/01`); the model refuses it with UnexpectedDateFormat.
- Money.AddMoney: `_check_money_format` (account-balance/account_balance_aggregate.py:70) matches a CSV cell too. The code accepts `1.00` followed by a newline, and `int` ignores the newline, so the sum goes through; the model refuses that cell with UnexpectedMoneyFormat.
- Descriptions.Upper: `upper()` and `lower()` are ASCII-only; other characters are left as they are.
- Exception types (`KeyError`, `IndexError`, `UnboundLocalError`, `Error`) become kinds of the `Error` datatype. Message texts are not modelled.
- In the combiner, an unbound `date` and a date missing from the current file's dictionary both become `NoCurrentDate`.
- `_get_account_type_mark` in `account-balance/bofa_statement.py` is never called there, so it is not modelled again.
- Combine.CombineSheets: states the merged keys and lists, not the insertion order of the keys. The writer sorts the keys, so the order cannot be observed (`Ledgers.WriteLedgerOrderFree`).
- BalanceAggregate.BalanceSummary.Items: the order of `items()` is left open. Only the sorted output depends on it, and that output is unique (`BalanceRows.WriteBalanceSummaryUnique`).
- `emtrain-cheat/copypasta.js`: browser automation with timers, not part of the statement tools.
