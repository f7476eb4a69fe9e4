# Lexical program retrieval for the 전주대학교 extracurricular chatbot

This project models the retrieval core of the five chatbot scripts in `project/` (`chatbot.py`,
`test2.py`, `test5.py`, `test6.py`, `test7.py`), and proves properties of that model.

Each script does the following:

- It loads a catalog of extracurricular programs from a JSON document. The program list sits
  under the first of `프로그램_정보`, `비교과_프로그램` and `프로그램` that the document has.
- It extracts search criteria from the user's question, using hand-written regular expressions
  over the lower-cased query:
  - a month, either the first `N월` or every `dddd.dd` token;
  - the topic keywords from a fixed vocabulary that occur in the query. test5.py and test7.py
    expand 점프업 into three variants;
  - an audience token, either a digit followed by `학년`, or `졸업 예정자`.
- `find_program` keeps, in catalog order, the records that pass every criterion present. Every
  test is a case-insensitive substring test.
- The reply depends on the script:
  - chatbot.py and test6.py render a fixed-format reply. The header is picked by priority and
    each result gets a block of seven fields. When nothing is found, chatbot.py gives a fixed
    message and test6.py lists the first five catalog records.
  - test2.py, test5.py and test7.py hand a prompt to a language model. test2.py and test5.py
    give a fixed reply when nothing is found. test7.py always asks the model.
- test6.py also does the following:
  - It indexes the catalog in a vector store: a document id, an embedded text, and metadata in
    which each list becomes a `", "`-joined string.
  - It lists the vector results followed by the lexical results.
- test7.py builds one embedding text per record.

Modules:

- `Text`, `Seqs` and `Wrappers` hold string and sequence helpers: ASCII lower-casing, substring
  containment, `str.join`, order-preserving filtering and subsequences.
- `Scanners` holds the four regular expressions. `re.search` is the leftmost position that
  matches. `re.findall` is a left-to-right scan of non-overlapping matches.
- `Catalog` holds the record and the loader's key lookup.
- `Keywords` holds the vocabularies and the 점프업 expansion.
- `Filters` holds the three variants of `extract_filters`.
- `Matcher` holds the `find_program` loop and its specification.
- `Render` holds header and block rendering.
- `Rag` holds prompts and the fixed-or-generated choice.
- `Indexing` holds the vector-store payload and the embedding texts.
- `Search` holds each script's `find_program`.
- `Chatbot`, `Test2`, `Test5`, `Test6` and `Test7` hold each script's own flow.

The month test `re.search(rf"{d}\.", period)` is a plain substring test for `d + "."`, because
`d` is always one or two digits. The model keeps this substring rule as the code has it
(`Matcher.AnchorMatchesNumberEnding`). In particular, every period that contains `2025.` passes
the test for 5월 (`Matcher.FiveMatchesAny2025Period`).

The hybrid merge concatenates with no deduplication (project/test6.py:162), and the model follows
the code (`Test6.Hybrid`).

## Model

| member | source | states |
|---|---|---|
| Text.Lower | project/test6.py:77 | `query.lower()` on ASCII: same length, every capital becomes its lower-case letter (code point plus 32), every other character is unchanged |
| Text.Contains | project/test6.py:107-109 | Python's `t in s` on strings: t occurs in s as a contiguous substring |
| Text.ContainsIffOccurs | project/test6.py:107-109 | `t in s` holds iff t occurs in s at some position (both directions) |
| Text.Join | project/test6.py:130-132 | Python's `sep.join(xs)`: the parts in order with one separator between neighbours (its properties are JoinContains, JoinAppend and JoinLength) |
| Scanners.Leftmost | project/test6.py:78 | how `re.search` scans: the first position from the start at which the pattern matches, and no match means no position matches |
| Scanners.MonthAt | project/test6.py:78 | a match of `(\d{1,2})월` at a position has group 1 of one or two ASCII digits, and the query shows that group followed by 월 there |
| Scanners.MonthAtComplete | project/test6.py:78 | every occurrence of one or two digits before 월 is a match at its position whose group is exactly those digits |
| Scanners.SearchMonth | project/test6.py:78-79 | `re.search` for the month: the match is at the leftmost position where the pattern matches; no match means no position matches |
| Scanners.TargetAt | project/chatbot.py:57 | a match of the audience pattern at a position is either a digit followed by 학년 or the literal 졸업 예정자, occurring at that position |
| Scanners.TargetAtComplete | project/chatbot.py:57 | every occurrence of either alternative is a match at its position |
| Scanners.SearchTarget | project/chatbot.py:57-58 | `re.search` for the audience: the leftmost matching position; no match means no position matches |
| Scanners.FindAllFrom | project/test5.py:86 | the `re.findall` scan from a position: take a match and resume after it, or move one character on (its properties are FindAllSound and FindAllComplete) |
| Scanners.FindAllSound | project/test5.py:86 | every position the `re.findall` scan reports is a `dddd.dd` match; the reported matches increase and do not overlap |
| Scanners.FindAllComplete | project/test5.py:86 | no match is skipped: every match position is reported, or lies inside a reported match that begins before it |
| Scanners.FindAllYearMonths | project/test5.py:86 | the findall tokens, one per reported position and left to right, each a `dddd.dd` substring of the query |
| Scanners.SkipSpaces | project/test7.py:70 | the greedy `\s*`: everything skipped is white space and the character it stops at is not |
| Scanners.DateRangeAt | project/test7.py:70 | a date-range match at a position yields two `dddd.dd.dd` dates; the first begins at that position and the second occurs in the query |
| Scanners.SkipSpacesStops | project/test7.py:70 | a run of white space up to a non-space character is exactly what `\s*` skips |
| Scanners.DateRangeAtComplete | project/test7.py:70 | every textual occurrence of a full date, white space, `~`, white space and a full date is a match at its position, with those two dates as groups |
| Scanners.DateRangeAtSound | project/test7.py:70 | every match is a textual occurrence: a full date at i, white space, `~`, white space and a full date, whose two dates are the groups |
| Scanners.SearchDateRange | project/test7.py:70 | `re.search` for the date range: the leftmost matching position; no match means no position matches |
| Scanners.DateRangeYieldsYearMonth | project/test7.py:67-70 | whenever a date range is found, the `dddd.dd` findall over the same query reports at least one token |
| Catalog.ListedPrograms | project/test6.py:40-45 | the list under the first present key of 프로그램_정보, 비교과_프로그램, 프로그램, else empty (read positionally by ListedProgramsIsFirstPresent) |
| Catalog.ListedProgramsIsFirstPresent | project/test2.py:41-46 | the loaded list is the value of the first present key in the order 프로그램_정보, 비교과_프로그램, 프로그램, and empty when none is present |
| Catalog.LookupPrograms | project/test6.py:40-45 | the key loop returns exactly that first-present value, or the empty list |
| Catalog.LoadProgramData | project/test6.py:34-48 | a document that cannot be read or parsed gives the empty catalog; otherwise the key lookup's result |
| Catalog.LoadProgramDataAt | project/test5.py:48-66 | a missing path gives the empty catalog before the file is opened; otherwise as LoadProgramData |
| Matcher.MonthPresent | project/test6.py:105 | the truthiness of `month_filter`: no month, an empty digit string and an empty token list mean no month criterion |
| Matcher.MonthHolds | project/test6.py:105-106 | the month test: `re.search(rf"{d}\.", period)` as the substring test for the digits and a full stop, or some findall token in the period |
| Matcher.KeywordHolds | project/test6.py:107 | some keyword occurs in the description, title or benefits |
| Matcher.TargetPresent | project/test6.py:109 | the truthiness of `target_filter`: absent or empty means no audience criterion |
| Matcher.Matches | project/test6.py:105-110 | the three `continue` tests on the lower-cased fields, each applied only when its criterion is present |
| Matcher.Select | project/test6.py:94-114 | the catalog filtered by Matches, in catalog order (its properties are the Select lemmas below) |
| Matcher.FindProgram | project/test6.py:94-114 | the loop with its three `continue`s returns exactly the catalog filtered by the present criteria, in catalog order |
| Matcher.SelectIsSubsequence | project/test2.py:76-97 | the result is an order-preserving subsequence of the catalog and never longer than it |
| Matcher.SelectMembers | project/chatbot.py:67-88 | a record is in the result iff it is in the catalog and passes every present criterion: the month test in the lower-cased period, a keyword in the lower-cased description, title or benefits, and the token in the lower-cased audience |
| Matcher.SelectUnconstrained | project/test6.py:105-112 | with no month, keyword or audience criterion, the whole catalog comes back unchanged |
| Matcher.SelectRelaxing | project/test2.py:84-93 | dropping the month, the keyword or the audience criterion can only enlarge the result: the full result is a subsequence of the relaxed one |
| Matcher.SelectCongruent | project/test6.py:105-110 | criteria that judge every catalog record alike select the same records |
| Matcher.TokenCriteriaHold | project/test5.py:110-115 | with month tokens and no audience token, a record passes iff some token occurs in its period (when there are tokens) and some keyword occurs in its description, title or benefits (when there are keywords) |
| Matcher.AnchorMatchesNumberEnding | project/test6.py:105 | the month digits pass wherever they end a longer number followed by a full stop, so the test is a substring test and not a date test |
| Matcher.FiveMatchesAny2025Period | project/test6.py:105 | every period that shows "2025." passes the test for 5월 |
| Keywords.MatchedKeywords | project/test6.py:81 | `[kw for kw in keywords if kw in query_lower]` as a filter of the vocabulary (its properties are MatchedKeywordsSpec) |
| Keywords.MatchedKeywordsSpec | project/test6.py:80-81 | the hits are exactly the vocabulary entries that occur in the query (both directions), in vocabulary order, with no duplicates |
| Keywords.VocabulariesDistinct | project/test5.py:89 | neither vocabulary lists a word twice |
| Keywords.Expand | project/test5.py:93-94 | the expansion keeps the hits as a prefix; it appends exactly the three variants when 점프업 occurs, and otherwise changes nothing |
| Keywords.VariantsExtendUmbrella | project/test5.py:94 | every appended variant begins with 점프업 |
| Keywords.ExpandAsSet | project/test5.py:93-94 | as a set, the expanded keywords are the hits together with the variants when 점프업 occurs; expanding twice adds no new element |
| Filters.MonthDigits | project/test6.py:78-79 | the month value is absent, or one or two digits that the query shows followed by 월 |
| Filters.MonthDigitsLeftmost | project/test6.py:78-79 | the month digits come from the leftmost match; they are absent iff no one- or two-digit number precedes 월 anywhere in the query |
| Filters.TargetToken | project/chatbot.py:57-58 | the audience token, when present, occurs in the query and is a digit followed by 학년 or 졸업 예정자 |
| Filters.TargetTokenLeftmost | project/chatbot.py:57-58 | the audience token comes from the leftmost match; it is absent iff neither alternative occurs in the query |
| Filters.SingleMonthFilters | project/test2.py:54-69 | chatbot, test2 and test6 extraction: the leftmost month digits, the leftmost audience token, and exactly the seven-word vocabulary entries in the lower-cased query, in vocabulary order, without duplicates |
| Filters.ExpandedKeywords | project/test7.py:73-78 | the eleven-word hits, with the three variants appended exactly when 점프업 occurs |
| Filters.TokenFilters | project/test5.py:82-96 | test5 extraction: the month tokens are exactly the `re.findall` result over the lower-cased query (hence dddd.dd substrings in order), the expanded keywords, and no audience criterion |
| Filters.RangeFilters | project/test7.py:63-84 | test7 extraction: the month tokens are exactly the `re.findall` result over the lower-cased query, the expanded keywords, the leftmost audience token, and the leftmost date range of two full dates |
| Filters.ExtendingKeepsKeywordTest | project/test5.py:114 | appending keywords that each extend a keyword already present leaves the keyword test unchanged |
| Filters.ExpansionKeepsKeywordTest | project/test5.py:93-94 | the 점프업 expansion changes neither whether a keyword criterion is present nor any record's keyword test |
| Filters.ExpansionKeepsSelection | project/test5.py:114 | hence the expansion never changes a `find_program` result |
| Filters.UnrecognisedQueryIsUnconstrained | project/chatbot.py:45-60 | a query in which no pattern and no vocabulary word occurs yields no month, no keywords and no audience criterion |
| Render.HeaderKindOf | project/test6.py:120-127 | header priority, each case as an iff: keywords first, then audience token, then month, then the generic header |
| Render.Header | project/test6.py:120-127 | the header line of the chosen kind: it opens with `**📌 ` and closes with `:**` |
| Render.HeaderNamesItsCriterion | project/test6.py:120-127 | every header opens with `**📌 `, and names what chose it: each matched keyword, the audience token, or the month digits followed by 월 |
| Render.BlockLayout | project/test6.py:131-137 | the full block is the short block followed by the location, benefits, audience and contact lines in that order; it shows all seven fields, the short block title, description and period |
| Render.Block | project/test6.py:131 | a result's block: the bold title, then description, period, location, benefits, audience and contact, each on its own labelled line |
| Render.ShortBlock | project/test6.py:137 | a suggestion's block: the bold title, then description and period on labelled lines |
| Render.Blocks | project/test6.py:131 | one block per result, in result order |
| Render.ShortBlocks | project/test6.py:137 | one short block per suggested record, in order |
| Render.Listing | project/test6.py:129-132 | the non-empty reply: it opens with the header and a blank line, and for one result is exactly the header, a blank line and that block |
| Render.ListingShowsEveryResult | project/test6.py:129-132 | the listing starts with the header and a blank line, and contains the block of every result |
| Render.ListingAppend | project/test6.py:130-132 | listing one more result appends a blank line and exactly that result's block, so the listing holds one block per result in result order |
| Rag.ReplyText | project/test2.py:113 | the text the user sees: the fixed text, or the generator's answer to the prompt (`response.content`) |
| Rag.QuestionHead | project/test2.py:106 | the question line of every prompt contains the query |
| Rag.ListingBody | project/test2.py:107-111 | the part of the prompt after the question contains the serialised results and the closing request |
| Rag.ListingPrompt | project/test2.py:105-111 | the listing prompt contains the query, the serialised results and the closing request |
| Rag.FallbackPrompt | project/test7.py:127-130 | the no-result prompt contains the query and the nothing-found note |
| Rag.PromptsDiffer | project/test7.py:119-130 | both prompts open with the same question line, and a listing prompt is never the no-result prompt |
| Rag.ExplainingResponse | project/test2.py:103-115 | the reply is fixed iff there are no results, and the fixed reply is the not-found text; otherwise the generator gets a prompt holding the query and the serialised results |
| Rag.AnsweringResponse | project/test7.py:118-133 | the generator is always consulted with a prompt holding the query; the prompt is the no-result prompt iff there are no results, and otherwise contains the serialised results |
| Rag.FixedReplyIgnoresGenerator | project/test2.py:114-115 | without results the reply is the not-found text, whatever the generator |
| Indexing.Flatten | project/test6.py:66-69 | a flattened value is text: text stays as is, and a list becomes its items joined by `", "` in order |
| Indexing.Flattened | project/test6.py:64-69 | the metadata stored for an entry: every value flattened, keys unchanged |
| Indexing.FlattenMetadata | project/test6.py:64-69 | the loop over `program.items()` builds exactly the flattened map |
| Indexing.FlattenedSpec | project/test6.py:64-69 | flattening keeps the key set, leaves text values unchanged, turns each list into its `", "`-joined items, leaves no list, and is idempotent |
| Indexing.FlattenedFixesFlat | project/test6.py:64-69 | metadata is already flat iff flattening leaves it unchanged |
| Indexing.DocId | project/test6.py:59 | the document id is the title when there is one, and "Unknown" otherwise |
| Indexing.Display | project/test6.py:60 | how the f-string shows a value: text as is, a list as the repr of a list of strings |
| Indexing.FieldShown | project/test6.py:60 | `program.get(key, '')` as the f-string shows it: the displayed value, or empty for a missing key |
| Indexing.IndexContent | project/test6.py:60 | the embedded text is the title, the description and the benefits as shown, in that order, separated by single spaces, an absent field showing as empty |
| Indexing.EntryOf | project/test6.py:59-71 | one entry: the document id, the embedding of the content, and the flattened metadata |
| Indexing.BuildIndex | project/test6.py:58-71 | one store entry per program in catalog order, each with its id, the embedding of its text, and its flattened (list-free) metadata |
| Indexing.EmbeddingText | project/test7.py:56 | a record's text is its title, description, audience and benefits in that order, separated by single spaces |
| Indexing.EmbeddingTexts | project/test7.py:56 | one text per record, in order |
| Indexing.CreateEmbeddings | project/test7.py:53-58 | nothing for an empty catalog; otherwise the embedding model applied to the texts |
| Search.SingleMonthSearch | project/test6.py:94-114 | chatbot, test2 and test6 `find_program`: the catalog filtered by that query's criteria, as an order-preserving subsequence, with iff membership |
| Search.TokenSearch | project/test5.py:99-119 | test5 `find_program`: the catalog filtered by month tokens and expanded keywords, with iff membership |
| Search.RangeSearch | project/test7.py:87-112 | test7 `find_program`: the catalog filtered by month tokens, expanded keywords and audience; only the criteria reach the matcher, never the date range |
| Search.TokenSearchIgnoresAudience | project/test5.py:103-117 | in test5, changing a record's audience never changes whether it is kept |
| Search.ExpansionNeverChangesResults | project/test7.py:77-78 | in test5 and test7, searching with the unexpanded hits gives the same records |
| Chatbot.GenerateResponse | project/chatbot.py:91-112 | no results give the fixed message; otherwise the reply is the priority header, a blank line, and the block of each result in result order separated by blank lines |
| Chatbot.Answer | project/chatbot.py:134-135 | one turn: the reply to the `find_program` result for the query |
| Chatbot.UmbrellaIsNoKeyword | project/chatbot.py:53-54 | without expansion, 점프업 on its own is never a keyword criterion |
| Chatbot.UmbrellaOnlyQuery | project/chatbot.py:53-54 | the query "점프업" has no keyword criterion at all |
| Chatbot.MonthQueryScenario | project/chatbot.py:49-50 | "3월 일정 알려줘" asks for month 3 |
| Chatbot.MonthPeriodScenario | project/chatbot.py:75-76 | a period 2025.03.10 ~ 2025.03.20 passes the test for month 3 |
| Test2.RagResponse | project/test2.py:100-115 | the reply is fixed (the not-found text) iff `find_program` finds nothing; otherwise the prompt holds the query and the serialised results |
| Test2.NoMatchIgnoresGenerator | project/test2.py:114-115 | when no record passes the criteria, the reply is the not-found text whatever the generator |
| Test5.TokenCriteria | project/test5.py:103-117 | a record passes iff some month token occurs in its period and some expanded keyword occurs in its description, title or benefits, each when present; 신청대상 plays no part |
| Test5.RagResponse | project/test5.py:122-136 | the reply is fixed iff `find_program` finds nothing; otherwise the prompt holds the query and the serialised results |
| Test6.Alternatives | project/test6.py:135 | `program_data[:5]`: a prefix of the catalog of length min(5, catalog size) |
| Test6.Fallback | project/test6.py:133-138 | the no-result reply is the warning followed by the short blocks of exactly the first min(5, n) records, in catalog order; an empty catalog gives just the warning |
| Test6.FallbackIgnoresLaterRecords | project/test6.py:135 | records after the fifth never change the fallback reply |
| Test6.GenerateResponse | project/test6.py:117-140 | no results give the fallback; otherwise the reply is the priority header, a blank line, and the block of each result in result order separated by blank lines |
| Test6.Hybrid | project/test6.py:162 | vector results first, then lexical results: the length is the sum, both parts appear intact, and the multiset is the union |
| Test6.HybridKeepsDuplicates | project/test6.py:160-162 | vector [a, b] and lexical [b, c] merge to [a, b, b, c]: nothing is deduplicated |
| Test6.Answer | project/test6.py:157-164 | one turn: the reply to the vector results followed by the lexical `find_program` result |
| Test6.VectorResultsAreAlwaysListed | project/test6.py:160-164 | with any vector result there is no fallback: the reply has the header and every vector and lexical block |
| Test7.RagResponse | project/test7.py:115-133 | the generator is always consulted with a prompt holding the query; the prompt is the no-result prompt iff `find_program` finds nothing, and otherwise contains the serialised results |
| Test7.DateRangeImpliesMonthTokens | project/test7.py:67-70 | the date range is never used, but a query that has one always has a month-token criterion |

## Left out

- The Streamlit interface is not modelled: page setup, styling, the chat transcript in
  `st.session_state`, `st.rerun`, `st.error` and `st.cache_data`.
- File access (`open`, `os.path.exists`, `json.load`) becomes parameters of the loaders. These
  are the parsed document (absent when reading or parsing raised) and whether the path exists.
- chatbot.py's chat turn is modelled from the search on (project/chatbot.py:134-135). As written, the
  script never initialises `st.session_state["messages"]` (it only reads it with `.get` at line
  118), so the `append` at line 131 raises `KeyError` on a fresh session before `find_program`
  runs. `Chatbot.Answer` describes the reply the turn computes once that list exists.
- test5.py's file-path text box is not modelled. Neither is the failure when it is left empty
  and `program_data` is never assigned.
- The vector store is not modelled. `collection.get`, `delete` and `query`, the similarity
  ranking, numpy arrays and the unused `cosine_similarity` import are all left out.
  - The vector results enter `Test6.Answer` as an input sequence.
  - The embedding models are function parameters.
  - `Indexing.BuildIndex` gives the sequence of `collection.add` calls. It does not model
    deleting earlier entries, or what the store does with two entries that share an id.
- The language model (`chat_model.invoke`) and `json.dumps` are function parameters.
- The hard-coded API keys and the dotenv loading are left out.
- Catalog records are modelled as well-formed: every field is present and a string.
  - The `KeyError` when the renderer or test7.py's `create_embeddings` indexes a missing field
    is not modelled.
  - The failure of `.lower()` on a non-string field is not modelled.
  - The `""` default of `program.get` in `find_program` is not modelled.
  - Vector-store metadata is assumed to have the same seven fields.
- Catalog entry values for indexing are strings or lists of strings. Numbers, booleans and
  nested objects are left out.
- Indexing.Display: shows a list as `['a', 'b']`. It leaves out Python's `repr` escaping and
  its switch to double quotes for strings that contain a single quote.
- Text.Lower: only ASCII capitals are lower-cased. Python's full Unicode case mapping is not
  modelled; Hangul and digits are unaffected by either.
- `\d` in the patterns is read as an ASCII digit and `\s` as ASCII white space. Python's
  Unicode classes are wider.
- Keywords.Expand: `matched_keywords.extend(...)` is modelled as building the new list. No
  other reference to the list exists, so nothing observes the difference.
- Deduplication of the hybrid merge is not modelled, because the code does not perform it.
- Render.Header: requires a month that is digits or absent. These scripts never render a
  token-list month.
