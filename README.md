# Recall assistant core, in Dafny

A model of the deterministic core of the recalls platform. The platform is
an assistant that answers questions about FDA drug recalls. It asks a
language model which of two tools to call, runs the chosen tool against the
openFDA Drug Enforcement API, and falls back on fixed rules when the model
gives no tool call. The model covers:

- the record normalisation and per-year grouping of enforcement records
  (`transforms.dfy`, module `Transforms`);
- the openFDA client (`client.dfy`, module `OpenFda`): search composition,
  parameter building and clamping, and the reading of replies. The client
  is a class whose remote GET is an abstract function `api` from query
  parameters to a reply or an error. A ghost `log` records every request
  issued, so the number and order of remote calls can be stated;
- the two tool handlers (`tools.dfy`, module `Tools`), `search_recalls` and
  `get_recall_stats`. Each is an imperative method. Its result and the
  requests it appends to the log are proved equal to a specification
  function (`SearchOutcome`, `StatsRun`), and the behaviour the handlers
  promise is proved about those functions;
- the conversation (`services.dfy`, module `Services`):
  - the correction of the tool call the model proposes (class label, firm
    extraction, the firm-total rewrite, the forced bottom-firms ranking, the
    firm-listing regular expression);
  - the dispatch to the two handlers;
  - the loop of at most five model turns;
  - the ordered fallback rules.
  The language model is an oracle `model: seq<Message> -> Turn` from the
  messages sent so far to its next turn. The clock is a `Clock` parameter:
  the current year, and the `%Y%m%d` rendering of a given number of days
  ago.

Helper modules: `Wrappers` (Option, Result), `Strings` (the Python `str`
operations used: `lower`, `strip`, `split`, `join`, `find`, `isdigit`,
`int`, `str`), and `MapSum` (`sum(d.values())`).

The question "how many recalls for firm Acme class 1" gets no class label,
because it does not contain "classification"; the extracted firm is
"acme class 1".

## Model

| member | source | states |
|---|---|---|
| Transforms.Text | third_party/openfda/transforms.py:6-14 | an absent or null field reads as "", a string field as itself |
| Transforms.FirmName | third_party/openfda/transforms.py:9 | `firm_name` whenever that key is present (even null or empty); `recalling_firm` only when it is absent |
| Transforms.NormalizeRecall | third_party/openfda/transforms.py:4-15 | the normalised record has exactly the nine output keys |
| Transforms.NormalizeRecallFields | third_party/openfda/transforms.py:6-14 | each copied key holds the text of its own source field (id from recall_number, productName from product_description, …), firmName the firm name |
| Transforms.NormalizeIsFieldwise | third_party/openfda/transforms.py:6-14 | two raw records that agree on a key's source field(s) normalise to the same value at that key |
| Transforms.NormalizeEmptyRecord | third_party/openfda/transforms.py:4-15 | a record with no fields normalises to nine empty strings |
| Transforms.ExtractYear | third_party/openfda/transforms.py:18-21 | "" exactly when the date is shorter than 4 characters, otherwise its first four characters |
| Transforms.YearCounts | third_party/openfda/transforms.py:24-31 | the year map built record by record is never keyed by "", and every count in it is positive |
| Transforms.YearCountsSpec | third_party/openfda/transforms.py:24-31 | the year map has no "" key; a year is a key exactly when some record has it, and maps to the number of records with it; the counts add up to the number of dated records |
| Transforms.GroupYearCounts | third_party/openfda/transforms.py:24-31 | the loop builds the year map; every count is positive, none is keyed "", and they add up to the dated records |
| MapSum.SumValuesUpdate | ask/tools.py:84 | setting one key changes the sum of the values by the difference at that key |
| MapSum.SumValuesRemove | ask/tools.py:84 | the sum does not depend on which key is taken out first |
| MapSum.Sum | ask/tools.py:84 | the loop over the keys, in any order, computes the sum of the values |
| Strings.Lower | ask/services.py:72 | `lower()` maps each character to its lower-case form and keeps the length |
| Strings.LowerHasNoUpper | ask/services.py:72 | a lowered string has no upper-case letter; lowering is idempotent |
| Strings.Strip | ask/tools.py:10 | `strip()` removes only leading and trailing whitespace (or quotes) and leaves no such character at either end |
| Strings.StripNoop | ask/tools.py:10 | stripping a string with nothing to strip at either end leaves it unchanged |
| Strings.StripSpaceAndQuotes | ask/services.py:87 | `strip().strip('"\'')` leaves no quote mark at either end and only characters of its input |
| Strings.After | ask/services.py:85 | `split(sep, 1)[1]` exists exactly when `sep` occurs, and is the text after its first occurrence |
| Strings.Find | ask/services.py:85 | the first occurrence of a substring, or None exactly when it occurs nowhere |
| Strings.Split | ask/services.py:86 | `split()` yields only non-empty words without whitespace, and yields none exactly when the string is blank |
| Strings.SplitSpaces | ask/services.py:86 | leading whitespace does not change the words |
| Strings.SplitFirstWord | ask/services.py:86 | a word followed by whitespace or the end of the string is the first word, and the words of the rest follow it; with SplitSpaces and the blank case this fixes `split()` completely |
| Strings.SplitAfterSpace | ask/services.py:129-130 | the text after a keyword, " W rest", stripped and split, is W followed by the words of rest |
| Strings.SplitChars | ask/services.py:86 | every word of `split()` is made of characters of the split string |
| Strings.JoinPair | ask/services.py:87 | `sep.join([a, b])` is `a + sep + b` |
| Strings.Join | ask/services.py:87 | every character of `sep.join(parts)` is from the separator or from one of the parts |
| Strings.DecimalRoundTrip | ask/tools.py:128 | reading back the decimal rendering of a natural number gives the number |
| Strings.IntRoundTrip | ask/tools.py:21 | `int(str(i)) == i` for every integer |
| Strings.ReadInt | ask/tools.py:20-23 | an integer literal is read only from text that starts with a digit or a sign |
| Strings.ParseDigits | ask/services.py:132-133 | a string of ASCII digits is read as its value |
| Strings.ParseGrouped | ask/tools.py:21 | digit groups joined by one underscore read as the digits run together: `int("2_5") == 25` |
| Strings.ParseDoubleUnderscore | ask/tools.py:20-23 | two underscores in a row are refused, as `int()` raises ValueError for them |
| Strings.ParseNegative | ask/tools.py:21 | a minus sign before the digits negates their value |
| Strings.ParseIntRejects | ask/tools.py:20-23 | a string that starts with anything but whitespace, a sign or a digit is not an integer |
| OpenFda.Clamp | third_party/openfda/client.py:36 | `max(lo, min(x, hi))` lies in [lo, hi], is `x` inside the range and the nearer bound outside it |
| OpenFda.ClampIdempotent | third_party/openfda/client.py:53-54 | clamping twice (as `get_recent_enforcements` then `search_enforcements` do) equals clamping once |
| OpenFda.ComposeSearch | third_party/openfda/client.py:17-26 | None exactly when classification and query are both empty or absent; otherwise the classification clause ANDed before the query, or whichever one is given |
| OpenFda.SearchParams | third_party/openfda/client.py:36-42 | exactly the keys limit, skip, plus search when the composed search is non-empty and sort when it is truthy; limit clamped to [1, 100], skip to at least 0 |
| OpenFda.CountParams | third_party/openfda/client.py:45-48 | `count=<field>.exact`, plus search only when one is given, and nothing else |
| OpenFda.RecentParamsShape | third_party/openfda/client.py:52-54 | the recent-records request is exactly a clamped limit, skip 0 and the newest-first sort, with no search |
| OpenFda.RecordsOf | third_party/openfda/client.py:55 | a missing or null `results` reads as no records; otherwise one record per result |
| OpenFda.BucketsOf | third_party/openfda/client.py:50 | a missing or null `results` reads as no buckets; otherwise one bucket per result |
| OpenFda.Client.HttpGet | third_party/openfda/client.py:12-15 | one request is logged and its reply (or failure) returned |
| OpenFda.Client.SearchEnforcements | third_party/openfda/client.py:28-43 | issues exactly one request, SearchParams of its arguments, and returns its reply |
| OpenFda.Client.CountBuckets | third_party/openfda/client.py:45-50 | issues exactly one request, CountParams, and returns its buckets or its error |
| OpenFda.Client.GetRecentEnforcements | third_party/openfda/client.py:52-55 | issues exactly one request, the recent-records parameters, and returns its records or its error |
| Tools.FirmScopedQuery | ask/tools.py:10-16 | an empty stripped firm leaves the query alone; otherwise the query is exactly `(<query>) AND recalling_firm:"<firm>"` when a query was given and the firm clause alone when not, so it always ends with the firm clause |
| Tools.CoerceLimit | ask/tools.py:19-28 | the limit lies in [1, 50]; an absent limit, null, a list or an object, and text that is not an integer literal give 10; an integer, the integer part of a float, or the value of an integer literal is clamped to [1, 50] |
| Tools.Truncate | ask/tools.py:21 | `int(x)` of a finite float is its integer part, rounded toward zero |
| Tools.CoerceLimitWholeFloat | ask/tools.py:21 | a whole-number float limit counts as the integer it spells |
| Tools.CoerceLimitFractionalFloat | ask/tools.py:21 | a fractional float limit keeps its integer part |
| Tools.CoerceLimitRejectsWords | ask/tools.py:20-23 | a limit such as "abc" becomes 10 |
| Tools.CoerceLimitNumericText | ask/tools.py:21 | a limit given as the text of a number is treated like that number |
| Tools.Project | ask/tools.py:38 | the projection keeps exactly the record's keys that are listed, with their values; unknown names select nothing |
| Tools.ShapeRecords | ask/tools.py:33-39 | one record per remote result, in order, each normalised and projected when a non-empty field list is given |
| Tools.ShapeRecordsKeys | ask/tools.py:34-39 | each returned record has the nine recall keys, or those of them named in `fields` |
| Tools.ScopeQuery | ask/tools.py:9-16 | the firm step of the handler computes FirmScopedQuery |
| Tools.ReadLimit | ask/tools.py:19-28 | the limit step of the handler computes CoerceLimit |
| Tools.ProjectEach | ask/tools.py:35-39 | the projection loop projects every record, in order |
| Tools.ShapeReply | ask/tools.py:33-39 | the records of the payload are ShapeRecords of the reply's records |
| Tools.SearchRecalls | ask/tools.py:8-40 | `search_recalls_handler` issues exactly one request, SearchRequest of its arguments, and returns SearchOutcome |
| Tools.SearchOutcome | ask/tools.py:32-40 | the handler fails exactly when its one request fails, and otherwise returns one recall per remote record |
| Tools.Requested | ask/tools.py:44-46 | a metric is requested exactly when it occurs as a string entry of `stats`; non-string entries are dropped |
| Tools.TopLimit | ask/tools.py:88-89 | 5 when absent or 0, otherwise the value clamped to [1, 10] |
| Tools.BottomLimit | ask/tools.py:90-91 | the top limit when absent or 0, otherwise the value clamped to [1, 10] |
| Tools.Label | ask/tools.py:80 | a bucket's label is never empty: a missing or empty term reads as "Unknown" |
| Tools.ClassificationKeys | ask/tools.py:80 | the classification mapping has a key exactly for each bucket label, never "" |
| Tools.ClassificationLastWins | ask/tools.py:80 | each key holds the count of the last bucket with that label |
| Tools.ClassificationCounts | ask/tools.py:80 | the classification mapping is never keyed by "" |
| Tools.TopFirms | ask/tools.py:99-103 | topFirms is the first `limit` buckets (all of them when fewer), in the API's order |
| Tools.CollectTopFirms | ask/tools.py:97-103 | the loop that builds topFirms computes TopFirms |
| Tools.SortPerm | ask/tools.py:106-109 | sorting by count only reorders the entries |
| Tools.SortAscending | ask/tools.py:106-109 | the sorted entries ascend by count |
| Tools.SortStable | ask/tools.py:106-109 | sorting is stable: entries with equal counts keep their order |
| Tools.BottomFirmsPrefix | ask/tools.py:105-111 | bottomFirms is a prefix of the positive entries sorted ascending, a permutation of all positive entries |
| Tools.BottomFirmsOrdered | ask/tools.py:105-111 | bottomFirms ascends by count and holds only positive counts |
| Tools.BottomFirmsSize | ask/tools.py:110 | bottomFirms holds `limit` positive entries, or all of them when fewer, each one of the positive entries |
| Tools.BottomFirmsSmallest | ask/tools.py:105-111 | no positive entry left out of bottomFirms has a smaller count than one in it |
| Tools.BottomFirmsStable | ask/tools.py:105-111 | for every count, the listed firms with it are the first of the positive firms with it in API order |
| Tools.BottomFirmsExample | ask/tools.py:105-111 | buckets A:5, B:0, C:2 rank as C:2 then A:5 |
| Tools.BottomFirms | ask/tools.py:105-111 | bottomFirms holds at most `limit` entries, each with a positive count |
| Tools.YearRange | ask/tools.py:115-120 | the given range when both ends are integers in order, otherwise the ten years ending this year |
| Tools.YearTotals | ask/tools.py:121-130 | one entry per year of the range, ascending, each the year's total or 0 when its request failed |
| Tools.CountYears | ask/tools.py:121-130 | the per-year loop computes YearTotals and issues exactly one request per year, in order |
| Tools.MostIndex | ask/tools.py:133-135 | the index of the first entry with the largest count |
| Tools.LeastIndex | ask/tools.py:136-138 | the index of the first entry with the smallest count |
| Tools.MostIsEarliestMax | ask/tools.py:133-135 | mostYear has the largest count, and every earlier year has a smaller one |
| Tools.LeastIsEarliestMin | ask/tools.py:136-138 | leastYear has the smallest count, and every earlier year has a larger one |
| Tools.TotalsConsecutive | ask/tools.py:122 | the per-year entries run over consecutive years from the start of the range |
| Tools.YearStageMost | ask/tools.py:133-135 | a requested mostYear is the MostIndex entry of the per-year totals |
| Tools.YearStageLeast | ask/tools.py:136-138 | a requested leastYear is the LeastIndex entry of the per-year totals |
| Tools.FirmTotalKeys | ask/tools.py:57-74 | the firm-total step sets firmTotal exactly when asked and firm exactly when a firm is also given, and nothing else |
| Tools.ClassKeys | ask/tools.py:77-84 | the classification step sets byClassification and total exactly when asked, and nothing else |
| Tools.FirmsKeys | ask/tools.py:86-111 | the firm step sets topFirms and bottomFirms exactly when asked, and nothing else |
| Tools.YearKeys | ask/tools.py:113-138 | the year step never fails, and sets the three year metrics exactly when asked |
| Tools.FirmsRankingsBounded | ask/tools.py:86-111 | both firm rankings hold at most ten firms, and bottomFirms no zero count |
| Tools.FirmsStageRanks | ask/tools.py:86-111 | a successful firm step ranks the one facet reply: topFirms is TopFirms and bottomFirms is BottomFirms of its buckets |
| Tools.StatsKeysMatchRequest | ask/tools.py:43-140 | a successful statistics call has a key exactly for each requested metric, and `firm` exactly when firmTotal is asked with a firm |
| Tools.StatsCallsPlanned | ask/tools.py:43-140 | the remote calls are lazy: the planned requests, in order, each only when a metric it serves is asked: all of them on success, otherwise up to the one that failed |
| Tools.StatsTotalOnly | ask/tools.py:76-84 | asking only for the total issues only the classification facet request, and answers with the summed total alone |
| Tools.StatsFirmTotalOnly | ask/tools.py:58-72 | firmTotal alone with a firm issues exactly one request and answers with exactly firmTotal and firm |
| Tools.StatsTotalIsSum | ask/tools.py:78-84 | totalRecalls is the sum of the classification mapping |
| Tools.CountFirm | ask/tools.py:59-65 | the firm count is one `limit=1` search for `recalling_firm:"F"`, ANDed with the classification clause when one is given |
| Tools.FirmTotalStep | ask/tools.py:57-74 | the firm-total step computes FirmTotalStage |
| Tools.ClassStep | ask/tools.py:76-84 | the classification step computes ClassStage |
| Tools.ReadFirmLimits | ask/tools.py:88-91 | the limits read are TopLimit and BottomLimit |
| Tools.FirmsStep | ask/tools.py:86-111 | the firm step computes FirmsStage |
| Tools.ReadYearRange | ask/tools.py:115-120 | the range read is YearRange |
| Tools.YearStep | ask/tools.py:113-138 | the year step computes YearStage |
| Tools.GetRecallStats | ask/tools.py:43-140 | `get_recall_stats_handler` returns StatsRun's result and issues exactly its requests |
| Tools.StatsRun | ask/tools.py:43-140 | with no metric requested, the handler issues no request and returns an empty result |
| Services.ClassLabel | ask/services.py:74-81 | a label only when the question says "classification"; Class I, II, III tried in that order, the first that matches wins, each case stated both ways |
| Services.HigherClassesReadAsClassI | ask/services.py:74-81 | a question with "classification" and "class ii" or "class iii" is labelled Class I |
| Services.DropStopWords | ask/services.py:86 | a word is kept exactly when it occurs and is not one of is/are/exists/for/of/the |
| Services.ExtractFirm | ask/services.py:85-87 | "" when "firm" does not occur; never starts or ends with a quote mark |
| Services.FirmWordsSpec | ask/services.py:85-86 | the firm words are exactly the words after the first "firm" that are not stop words |
| Services.ExtractFirmChars | ask/services.py:85-87 | every character of the extracted name is from the question or the joining space |
| Services.ExtractedFirmIsLowerCase | ask/services.py:72-87 | the firm extracted from the lowered question has no upper-case letter |
| Services.FirmListMatch | ask/services.py:100 | a captured firm is non-empty and never spans a line break, as `(.+)` captures |
| Services.FirmListLeftmost | ask/services.py:100 | the search finds nothing exactly when no position matches, and otherwise the group at the leftmost matching position |
| Services.MatchAtStart | ask/services.py:100 | a match at the start of the question is the one found |
| Services.RecallsForFirmCaptures | ask/services.py:100 | "recalls for firm NAME" captures NAME when NAME is one line starting with a non-space |
| Services.ListAllRecallsCaptures | ask/services.py:100 | "list all recalls for firm NAME" captures NAME through the second alternative |
| Services.FirmListOverrides | ask/services.py:99-104 | a firm-listing match overrides every other rewrite: a search for the captured firm, limit 50, newest first, no classification |
| Services.FewestForcesBottomFirms | ask/services.py:93-98 | "least" or "fewest" forces the bottom-firms ranking of 10 with the class label, whatever the model proposed, unless a firm listing matched |
| Services.FirmCountRewrite | ask/services.py:82-92 | the firm-total rewrite fires exactly for a statistics call about "how many" and "firm", with the extracted firm (else the model's) and the label; otherwise the call is unchanged |
| Services.CorrectedName | ask/services.py:93-104 | the corrected tool is one of the two tools or the model's own, and differs from the model's only through the fewest or listing rules |
| Services.CorrectCall | ask/services.py:72-104 | the proposed call is left unchanged unless the firm-total rewrite, the fewest rule or a firm listing applies |
| Services.FirmCountAsksOnlyFirmTotal | ask/services.py:82-92 | a rewritten firm-count call issues one request and answers with the firm and its total alone |
| Services.UnknownToolMakesNoCall | ask/services.py:52-58 | an unknown tool name answers "Unknown tool: <name>" and issues no request |
| Services.Dispatch | ask/services.py:52-58 | a search issues exactly its one request; a recalls payload comes only from the search tool and a statistics payload only from the statistics tool |
| Services.CallTool | ask/services.py:52-58 | `call_tool` dispatches on the name and returns Dispatch's result, issuing exactly its requests |
| Services.TimeRangeOnlyAfterPast | ask/services.py:127-171 | the time-range rule is reached only for questions with "past", "recall" and no "last" |
| Services.SelectRule | ask/services.py:127-218 | the first rule applies exactly when "last" and "recall" occur; the firm listing needs "firm" and the ranking one of its phrases; the firm total is reached only by a "how many … firm" question without "list" or "recalls for firm"; the default answer only when neither a ranking phrase nor a firm count question occurs |
| Services.LastCountReads | ask/services.py:127-137 | "last N …" asks for N recalls: the number after "last" is the count read |
| Services.SpanPastReads | ask/services.py:185-195 | "past N U" without "last" reads a span of N units U |
| Services.TrimTrailingS | ask/services.py:196 | `rstrip('s')` removes exactly the trailing run of "s" |
| Services.SpanDays | ask/services.py:196-206 | once trailing "s"s are dropped from the unit, "week" reaches back 7n days, "month" 30n, and "day" or any other unit n |
| Services.SpanDaysUnits | ask/services.py:196-206 | "weeks", "week" and "weekss" count 7 days each, "months" 30, "days" and "hours" 1 |
| Services.TopLines | ask/services.py:165 | one line `i. firm: count` per ranked firm, numbered from 1 |
| Services.FirmTotalNeverFails | ask/services.py:217-237 | the firm-total rule never fails. An empty firm asks nothing and a failed count leaves the default answer. After a successful count it issues exactly the count and the sample search; a failed sample gives the default answer, a successful one "Total recalls for firm F: N" with the sample payload |
| Services.FirmTotalRequest | ask/services.py:227-228 | its first request is the handler's firm-total request without a classification |
| Services.DefaultAnswer | ask/services.py:237 | with no rule applying, the answer is the model's text with the last tool payload, and nothing is requested |
| Services.FallbackNeverFails | ask/services.py:217-237 | the firm-total rule and the default answer always answer; only the searching and ranking rules can fail |
| Services.FallbackSearchesOnce | ask/services.py:127-216 | the last-recalls, firm-listing and time-range rules each issue exactly one request |
| Services.LastRecallsRequest | ask/services.py:127-141 | any question with "last" and "recall" issues one newest-first search of N records (10 without a number), bounded to [1, 50] |
| Services.LastArgsRequest | ask/services.py:138-141 | the search of rule 1 is the request `get_recent_enforcements` sends for the count bounded to [1, 50] |
| Services.LastRecallsAnswer | ask/services.py:127-144 | rule 1 answers "Last N recalls (newest first). Found C." with the search payload, or fails with the search's error |
| Services.SearchAnswer | ask/services.py:138-159 | a search fallback returns SearchAnswerRun's result and issues its one request |
| Services.TopFirmsAnswer | ask/services.py:161-169 | the top-firms fallback returns TopFirmsRun's result and issues its requests |
| Services.FirmTotalAnswer | ask/services.py:217-236 | the firm-total fallback returns FirmTotalRun's answer and issues its requests |
| Services.SampleAnswer | ask/services.py:231-233 | the sample step returns SampleRun's answer and issues its one request |
| Services.Fallback | ask/services.py:124-237 | the fallback chain returns FallbackRun's result and issues its requests: the first rule that applies wins |
| Services.ToolCallsSendPayloads | ask/services.py:68-120 | one tool message per call is sent back, in order, under the corrected name; the kept payload is always the latest one sent |
| Services.ToolCalls | ask/services.py:68-120 | the inner loop corrects, dispatches and reports each call in turn, and stops at the first failing handler |
| Services.Round | ask/services.py:62-122 | one round either stops the rounds with their result or leaves one round fewer |
| Services.RunRounds | ask/services.py:62-122 | the loop inspects at most five turns and stops at the first turn without tool calls |
| Services.RoundsRun | ask/services.py:62-124 | the rounds stop with a final text only when the model gave a turn without calls with that text |
| Services.RunConversation | ask/services.py:15-239 | `run_conversation_with_gemini` returns Conversation's answer and issues exactly its requests |
| Services.Conversation | ask/services.py:15-239 | a first turn without calls is answered by the fallback chain, with no payload kept |
| Services.EndlessCallsUseUpRounds | ask/services.py:62-122 | a model that calls a tool in every turn uses up the rounds; the final conversation keeps its latest payload, and after at least one round its last message is a tool message carrying that payload |
| Services.CallsRunnerKeepsPayloads | ask/services.py:105-120 | after the assistant's tool calls of a turn, the last message sent is a tool message and its payload is the one kept |
| Services.EndsWithReported | ask/services.py:105-120 | when the tool messages for a turn's calls end the conversation, it ends with a tool message whose payload is the one kept |
| Services.EndlessCallsApologise | ask/services.py:239 | five turns that all call tools end in "Sorry, I could not complete the request.", whose data is the payload of the last tool message sent |

## Left out

- HTTP transport (`_http_get`'s session, timeout and status check): the remote API is the abstract function `api`, which may fail with an error.
- The Gemini SDK (configuration, `start_chat`, `send_message`, the message objects, the system instruction): the model is the oracle `model` from the messages sent so far to the next turn. A reply that has no candidates is a turn without calls and with empty text.
- `datetime.utcnow`, `timedelta` and `strftime`: the `Clock` parameter gives the year and the rendered date a number of days back. Calendar arithmetic and overflow for huge day counts are not modelled.
- The logger, the FastAPI routes, `main.py`, the settings and the function schemas: plumbing with nothing to verify.
- Python dynamic typing: arguments are a typed record. `int()` of other objects, a boolean argument (Python reads it as 0 or 1; the model takes it as Other), a `skip` that makes `int()` raise, and SDK exceptions are not modelled.
- Tools.CoerceLimit: a float is finite. An infinite limit, for which `int()` raises an uncaught OverflowError, and NaN are not modelled; JSON carries neither.
- Tools.TopLimit, Tools.BottomLimit: `skip`, `topFirmsLimit` and `bottomFirmsLimit` are integers in the model. The source's `int()` would also truncate a float given there.
- The import of `ask.function_tools`: taken to be `ask/tools.py`.
- Characters are code points. `lower`, `isspace` and `isdigit` use their ASCII part; Unicode case folding, Unicode whitespace and Unicode digits are not modelled.
- Tools.YearTotals: years are kept as integers, while the source keys `recallsByYear` and mostYear/leastYear by `str(year)`.
- Services.SampleRun: the `{"total": total}` alternative of the firm-total answer is unreachable, because the sample payload is a non-empty dictionary, so it is not modelled.
- Services.RunRounds: the response to each tool message is not modelled separately. The next turn is the oracle's answer to all messages sent so far, which is what the last response of a turn amounts to.
- Services.Fallback: a rule that searches or ranks passes a failed request on as an error, as the source lets the exception escape. The firm-total rule swallows it, as its `except` does.
