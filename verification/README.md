# licitaciones-monitor, modelled in Dafny

This project models the core of *licitaciones-monitor*, a pipeline that
watches Argentine public-procurement portals for new calls for tender
("licitaciones"). Adapters ("scrapers") turn each portal's answers into
candidate records. A search run then does these steps for every enabled
portal:
- deduplicates each record by a content hash;
- scores it against the configured keywords;
- stores every new record;
- updates the portal's health;
- leaves exactly one outcome row.

The run row aggregates the per-portal results into a final status. A small
REST layer lists and updates tenders, portals and keywords. A seeding step
fills an empty database.

Everything is modelled with immutable datatypes and pure functions. The
exceptions are three methods with loops: `Scan.ScanAll`,
`Orchestrator.ScanPortals` and `Orchestrator.Run`. The database is a value
`Db(portals, keywords, licitaciones, runPortals)`. A commit is the next
value. A rollback keeps the previous value.

Inputs the model cannot compute are function parameters:
- the network answers of every adapter;
- SHA-256;
- `urljoin`;
- the date parsers;
- the clock.

Modules, one per source component:

| module | models |
|---|---|
| `Wrappers`, `Strings`, `Json`, `Sorting` | Python `str` operations, decoded JSON values, `WHERE` / `ORDER BY` |
| `Models` | `database/models.py`: enums, rows, defaults, unique constraints |
| `Records` | `scrapers/base.py`: `LicitacionData`, `compute_hash`, `BaseScraper` |
| `WordMatch` | the whole-word regex alternation the matcher compiles |
| `Matcher` | `core/matcher.py` |
| `Dedup` | `core/deduplicator.py` |
| `Registry` | `scrapers/__init__.py` |
| `Scan`, `Orchestrator` | `core/orchestrator.py` |
| `Mapping`, `Comprar`, `Boletin`, `Pbac`, `Municipal` | the adapters' JSON and HTML mappings |
| `Http`, `LicitacionesApi`, `PortalesApi`, `KeywordsApi` | the REST routes |
| `Seed` | `api/seed.py` |

## Model

| member | source | states |
|---|---|---|
| Strings.Lower | licitaciones-monitor/core/matcher.py:138 | `str.lower()` maps every code point independently and keeps the length |
| Strings.Upper | licitaciones-monitor/core/matcher.py:48 | `operator.upper()` maps every ASCII letter independently and keeps the length |
| Strings.LowerCharFacts | licitaciones-monitor/core/matcher.py:138 | lower-casing one character is idempotent and does not change whether it is white space |
| Strings.LowerIdempotent | licitaciones-monitor/core/matcher.py:138 | lower-casing twice is lower-casing once |
| Strings.LowerConcat | licitaciones-monitor/core/matcher.py:66 | lower-casing distributes over concatenation |
| Strings.TrimStart | licitaciones-monitor/scrapers/base.py:62-65 | `lstrip()` removes exactly a blank prefix and leaves a result that is empty or starts with a non-blank |
| Strings.TrimEnd | licitaciones-monitor/scrapers/base.py:62-65 | `rstrip()` removes exactly a blank suffix and leaves a result that is empty or ends with a non-blank |
| Strings.StripFramed | licitaciones-monitor/scrapers/base.py:62-65 | `strip()` of blank + core + blank, where the core starts and ends non-blank, is the core |
| Strings.StripIdempotent | licitaciones-monitor/api/routes/keywords.py:40 | stripping twice is stripping once |
| Strings.StripIgnoresPadding | licitaciones-monitor/api/routes/keywords.py:40 | surrounding white space never changes the stripped text |
| Strings.StripOfBlank | licitaciones-monitor/scrapers/base.py:63-65 | an all-blank string strips to "" |
| Strings.LowerStripCommute | licitaciones-monitor/scrapers/base.py:62 | `s.strip().lower() == s.lower().strip()` |
| Strings.RStripChar | licitaciones-monitor/scrapers/base.py:106 | `rstrip("/")` removes exactly the trailing run of that character |
| Strings.ContainsWitness | licitaciones-monitor/scrapers/municipal/generic.py:340 | `sub in s` holds exactly when some slice of `s` equals `sub` |
| Strings.ReplaceAbsent | licitaciones-monitor/scrapers/municipal/generic.py:235 | `replace` leaves a string without the pattern unchanged |
| Strings.ReplaceWhole | licitaciones-monitor/scrapers/municipal/generic.py:235 | replacing a string that is exactly the pattern yields the replacement |
| Strings.Truncate | licitaciones-monitor/core/orchestrator.py:112 | `s[:n]` is the prefix of length min(n, len(s)) |
| Json.Lookup | licitaciones-monitor/scrapers/comprar.py:110-113 | a key is bound exactly when some field carries it |
| Json.FirstTruthy | licitaciones-monitor/scrapers/portal_compras_pba.py:103 | `a or b or ... or d` is the default or one of the values; a non-default answer is truthy; the default exactly covers all-falsy inputs |
| Json.Elements | licitaciones-monitor/api/seed.py:78 | `for item in x` fails on numbers, booleans and None; it visits a list's elements, and the characters or keys of a string or object |
| Json.Set | licitaciones-monitor/scrapers/boletin_nacional.py:178 | `{**d, k: v}` binds `k` to `v` and leaves every other key's binding unchanged |
| Models.LevelFromValue | licitaciones-monitor/database/models.py:24-27 | `PortalLevel(s)` is the member whose value is `s`, and raises exactly when there is none |
| Models.PortalStatusFromValue | licitaciones-monitor/database/models.py:30-33 | `PortalStatus(s)` is the member whose value is `s`, and raises exactly when there is none |
| Models.RunStatusFromValue | licitaciones-monitor/database/models.py:36-40 | `RunStatus(s)` is the member whose value is `s`, and raises exactly when there is none |
| Models.LicitacionStatusFromValue | licitaciones-monitor/database/models.py:43-47 | `LicitacionStatus(s)` is the member whose value is `s`, and raises exactly when there is none |
| Models.EnumsClosed | licitaciones-monitor/database/models.py:24-47 | the four enums accept exactly 3, 3, 4 and 4 values, namely the ones declared |
| Models.LevelRank | licitaciones-monitor/core/orchestrator.py:276 | `ORDER BY level` ranks the three levels below 3 |
| Models.LevelRankInjective | licitaciones-monitor/core/orchestrator.py:276 | on either backend, distinct levels sort apart |
| Models.NewSearchRun | licitaciones-monitor/database/models.py:189-199 | a new run row is RUNNING, unfinished, and has all four counters at 0 |
| Models.NewPortal | licitaciones-monitor/database/models.py:72-78 | a new portal row takes the column defaults: ACTIVE, 0 consecutive errors, no check, success or error yet; enablement, id, short name, URL and scraper class are as given |
| Models.HashesOf | licitaciones-monitor/database/models.py:169-171 | the stored content hashes of a portal are exactly those of its rows |
| Models.FindPortal | licitaciones-monitor/api/routes/portales.py:123-128 | `db.get(Portal, id)` finds a row with that id, or reports that none has it |
| Models.FindKeyword | licitaciones-monitor/api/routes/keywords.py:79-84 | `db.get(Keyword, id)` finds a row with that id, or reports that none has it |
| Sorting.Filter | licitaciones-monitor/core/orchestrator.py:273 | a `WHERE` keeps exactly the rows that satisfy it, each as often as before |
| Sorting.FilterExtensional | licitaciones-monitor/core/orchestrator.py:274-275 | conditions that agree on every row select the same rows |
| Sorting.FilterSubsequence | licitaciones-monitor/scrapers/municipal/generic.py:349-353 | a filter keeps the input order |
| Sorting.FilterIdempotent | licitaciones-monitor/scrapers/municipal/generic.py:349-353 | filtering twice by one condition is filtering once |
| Sorting.Insert | licitaciones-monitor/core/orchestrator.py:276 | inserting into a sorted list adds exactly that element and stays sorted |
| Sorting.Sort | licitaciones-monitor/core/orchestrator.py:276 | `ORDER BY` returns a sorted permutation of its rows |
| Sorting.StrLeTotal | licitaciones-monitor/api/routes/keywords.py:32 | code-point order compares any two strings |
| Sorting.StrLeTransitive | licitaciones-monitor/api/routes/keywords.py:32 | code-point order is transitive |
| Sorting.StrLeAntisymmetric | licitaciones-monitor/api/routes/keywords.py:32 | code-point order is antisymmetric |
| Records.PreimageIsJoin | licitaciones-monitor/scrapers/base.py:56-68 | the hashed text is `"\|".join` of title.strip().lower(), external_id, numero_licitacion and organismo (each stripped, None as ""), and portal_short_name |
| Records.ContentHash | licitaciones-monitor/scrapers/base.py:56-69 | the hash is the digest of `"\|".join(key_parts)` |
| Records.HashIgnoresNonKeyFields | licitaciones-monitor/scrapers/base.py:56-67 | records agreeing on the five key parts share a hash, whatever their URLs, dates, amounts, descripcion, numero_expediente, keywords or raw data |
| Records.HashIgnoresTitlePaddingAndCase | licitaciones-monitor/scrapers/base.py:62 | titles that differ only in surrounding white space and case hash alike |
| Records.PreimageBlankOptional | licitaciones-monitor/scrapers/base.py:63-65 | None, "" and an all-blank value give the same preimage for each optional key field |
| Records.KeyPartsCongruent | licitaciones-monitor/scrapers/base.py:61-68 | records whose key parts strip alike have equal preimages |
| Records.PreimageOrganismoSensitive | licitaciones-monitor/scrapers/base.py:65-68 | records equal in every key part except the stripped organismo have different preimages |
| Records.PreimageSeparatorAmbiguous | licitaciones-monitor/scrapers/base.py:68 | "\|" is not escaped: for any texts a, b free of white space and capitals, the title a+"\|"+b and the title a with external id b+"\|" differ in their key parts but share a hash |
| Records.NewScraperBase | licitaciones-monitor/scrapers/base.py:105-108 | the constructor strips trailing "/" from the URL; a missing or empty config becomes {} and any other config is kept |
| Records.NewScraperBaseIdempotent | licitaciones-monitor/scrapers/base.py:106-107 | constructing again from a constructed scraper changes nothing |
| Records.Overlay | licitaciones-monitor/scrapers/base.py:131 | `{**base, **extra}` answers each key from `extra` when it is bound there, otherwise from `base` |
| Records.ConfiguredHeaders | licitaciones-monitor/scrapers/base.py:131 | the sent headers (`RequestHeaders`: the defaults as base) are the base overridden key by key by `config["extra_headers"]`; building them fails exactly when the config or that entry is not a dict, with the text of the Python exception |
| Records.ConfiguredHeadersKeepBase | licitaciones-monitor/scrapers/base.py:131 | `extra_headers` can override a default header but never drop one: every base header is still sent |
| Records.GetTextEmptyIffBlank | licitaciones-monitor/scrapers/base.py:162 | `get_text(strip=True)` is empty exactly when every text node is blank |
| Records.SafeText | licitaciones-monitor/scrapers/base.py:157-162 | `_safe_text` is None exactly for a missing element or all-blank text; otherwise it is non-empty |
| WordMatch.FirstAt | licitaciones-monitor/core/matcher.py:109-111 | at one position the alternation picks the first term, in order, that matches as a whole word there |
| WordMatch.SearchFrom | licitaciones-monitor/core/matcher.py:73-75 | `pattern.search` returns the leftmost whole-word match, its length being one term's |
| WordMatch.SearchFindsOccurrence | licitaciones-monitor/core/matcher.py:73-75 | `search` succeeds exactly when some term occurs as a whole word |
| WordMatch.CountPositiveIffOccurs | licitaciones-monitor/core/matcher.py:168-170 | `findall` returns matches exactly when `search` succeeds |
| WordMatch.AbsentCharNeverMatches | licitaciones-monitor/core/matcher.py:109-111 | a term with a character absent from the text never matches it |
| Matcher.NormalizeChar | licitaciones-monitor/core/matcher.py:126-141 | a normalised character is lower-case and carries none of the replaced accents |
| Matcher.Normalize | licitaciones-monitor/core/matcher.py:126-141 | `_normalize` keeps the length; each character is the lower-cased input with its accent removed |
| Matcher.FoldIsUnaccent | licitaciones-monitor/core/matcher.py:133-140 | the chain of single-character replacements rewrites each character at most once, into its plain letter |
| Matcher.NormalizeAsWrittenAgrees | licitaciones-monitor/core/matcher.py:138-140 | `lower()` followed by the `replace` calls in table order equals the pointwise normalisation |
| Matcher.NormalizeIdempotent | licitaciones-monitor/core/matcher.py:126-141 | normalising twice is normalising once |
| Matcher.FirstGroup | licitaciones-monitor/core/matcher.py:121-122 | the group chosen is the first in table order that lists the keyword or whose key occurs in it |
| Matcher.Without | licitaciones-monitor/core/matcher.py:123 | `[s for s in syns if s != kw]` keeps exactly the other members |
| Matcher.GetSynonyms | licitaciones-monitor/core/matcher.py:119-124 | the synonyms are the first applicable group's members other than the keyword, or [] when no group applies |
| Matcher.TermsFor | licitaciones-monitor/core/matcher.py:104-107 | a keyword's terms are its normal form plus exactly its synonyms |
| Matcher.AccentedTermNeverHits | licitaciones-monitor/core/matcher.py:106-110 | synonyms are not normalised, so a term carrying an accent never hits normalised text |
| Matcher.CriminalisticaNeverHits | licitaciones-monitor/core/matcher.py:11-19 | "forense" expands to "criminalística", which can never hit |
| Matcher.Distinct | licitaciones-monitor/core/matcher.py:102-103 | the dict's keys are each distinct keyword once, in first-occurrence order |
| Matcher.InOrderDistinct | licitaciones-monitor/core/matcher.py:102-103 | a list in first-occurrence order has no repeats |
| Matcher.CompilePatterns | licitaciones-monitor/core/matcher.py:100-117 | one pattern per distinct keyword, in first-occurrence order, over that keyword's terms |
| Matcher.FreqBonus | licitaciones-monitor/core/matcher.py:168-173 | the frequency bonus is 0.02 per match below 10 matches and 0.2 from then on |
| Matcher.Score | licitaciones-monitor/core/matcher.py:143-175 | the score lies in [0, 1], is 0 exactly when nothing is found, and otherwise is min(found/max(n,1) + 0.1·titleHits + bonus, 1) |
| Matcher.ScoreMonotone | licitaciones-monitor/core/matcher.py:151-175 | more keywords found, more title hits or more matches never lower the score |
| Matcher.FindContext | licitaciones-monitor/core/matcher.py:177-185 | no match gives ""; otherwise the window is up to 40 characters around the first match, with "..." in front iff it starts after 0 and behind iff it ends before the end |
| Matcher.Scan | licitaciones-monitor/core/matcher.py:71-80 | the loop finds at most one keyword per pattern and records one highlight per title hit |
| Matcher.ScanTallies | licitaciones-monitor/core/matcher.py:71-80 | over compiled patterns, the loop's title count, match total and highlights are those (TitleHits, TotalMatches, Highlights) of the keywords it found |
| Matcher.TitleHitsAll | licitaciones-monitor/core/matcher.py:160-166 | every found keyword earns the 0.1 title bonus exactly when all found keywords hit the title |
| Matcher.ScanFound | licitaciones-monitor/core/matcher.py:71-78 | the loop keeps exactly the keywords whose pattern hits the title, description or organisation |
| Matcher.ScanKeepsOrder | licitaciones-monitor/core/matcher.py:71-78 | the found keywords keep the configuration order |
| Matcher.CompiledHits | licitaciones-monitor/core/matcher.py:62-64 | the compiled patterns hit the normalised fields exactly for the keywords whose terms do |
| Matcher.Match | licitaciones-monitor/core/matcher.py:51-98 | `keywords_found` is exactly the configured keywords that hit, in order; AND compares its length with the raw list, OR asks for one; the score is in [0, 1] and is 0 iff nothing was found |
| Matcher.MatchScoreAndHighlights | licitaciones-monitor/core/matcher.py:71-175 | the score is `_compute_score` of the found count, the configured count, the number of found keywords whose pattern hits the title (0.1 each) and the sum of their `findall` counts over the joined text (0.02 each, capped at 0.2); the highlights are one title context per found keyword that hits the title, in order |
| Matcher.OrMatchesIffSomeKeywordHits | licitaciones-monitor/core/matcher.py:85-86 | under OR a record matches iff some configured keyword hits it |
| Matcher.AndOverNoKeywordsMatches | licitaciones-monitor/core/matcher.py:83-84 | under AND an empty keyword list matches every record |
| Matcher.AndMatchesIffAllHit | licitaciones-monitor/core/matcher.py:83-84 | under AND with distinct keywords, a record matches iff every keyword hits |
| Matcher.FullIffCovers | licitaciones-monitor/core/matcher.py:84 | an ordered sub-list of a distinct list is as long as it iff it holds every element |
| Dedup.NewDeduplicator | licitaciones-monitor/core/deduplicator.py:26-28 | a new deduplicator has an empty cache |
| Dedup.QueryHash | licitaciones-monitor/core/deduplicator.py:51-57 | the hash query finds a row iff the portal stores that hash |
| Dedup.QueryExternalId | licitaciones-monitor/core/deduplicator.py:59-67 | the external-id query finds a row iff the portal stores that id |
| Dedup.PreloadCache | licitaciones-monitor/core/deduplicator.py:30-37 | after preloading, every stored hash of the portal is cached, nothing else is added, and nothing is lost |
| Dedup.IsDuplicate | licitaciones-monitor/core/deduplicator.py:39-72 | duplicate iff the hash is cached, or the portal stores the hash, or the portal stores a non-empty external id; a duplicate caches the hash and a fresh record changes nothing |
| Dedup.CheckHash | licitaciones-monitor/core/deduplicator.py:47-72 | the same decision once the hash is computed |
| Dedup.MarkSeen | licitaciones-monitor/core/deduplicator.py:74-76 | `mark_seen` adds exactly the record's hash |
| Dedup.MarkHash | licitaciones-monitor/core/deduplicator.py:76 | adding a computed hash adds exactly it |
| Dedup.CachedIgnoresStore | licitaciones-monitor/core/deduplicator.py:47-48 | a cached hash is a duplicate whatever the store holds, and the cache is unchanged |
| Dedup.NoExternalIdChecksHashOnly | licitaciones-monitor/core/deduplicator.py:59 | without an external id only the hash is looked up |
| Dedup.MarkSeenThenDuplicate | licitaciones-monitor/core/deduplicator.py:74-76 | after `mark_seen(d)` any record with the same hash is a duplicate |
| Dedup.PreloadedHashIsDuplicate | licitaciones-monitor/core/deduplicator.py:30-48 | after preloading, a record whose hash the portal stores is a duplicate from the cache alone |
| Dedup.CacheNeverShrinks | licitaciones-monitor/core/deduplicator.py:30-76 | no sequence of preloads, checks and marks ever removes a cached hash |
| Registry.KindOf | licitaciones-monitor/scrapers/__init__.py:27 | `SCRAPER_REGISTRY.get(name)` is the kind registered under that name, or None |
| Registry.RegistryClosed | licitaciones-monitor/scrapers/__init__.py:13-19 | the registry has exactly five distinct keys, and every kind is one of them |
| Registry.GetScraper | licitaciones-monitor/scrapers/__init__.py:22-33 | an unknown class raises KeyError with the listed options; a known one is built with the stripped portal URL and `config or {}` |
| Registry.GetScraperAsBaseConstructor | licitaciones-monitor/scrapers/__init__.py:33 | `get_scraper` builds what the base constructor builds from the same arguments |
| Scan.RowForFields | licitaciones-monitor/core/orchestrator.py:188-210 | a stored row keeps the match's score, uses `keywords_found or` the adapter's list, and is NUEVA and new, whatever `matched` says |
| Scan.Hashes | licitaciones-monitor/scrapers/base.py:56-69 | the content hash of each fetched record, in order |
| Scan.ScanStep | licitaciones-monitor/core/orchestrator.py:179-213 | one loop turn stages a row exactly when the record is not a duplicate, and always caches its hash |
| Scan.ScanFold | licitaciones-monitor/core/orchestrator.py:179-213 | the loop stages at most one row per record, only hashes not cached at the start, with no two staged rows sharing a hash |
| Scan.CommitKeepsUniqueContent | licitaciones-monitor/database/models.py:169-171 | committing the staged rows keeps (portal_id, content_hash) unique |
| Scan.CommitKeepsUniqueIds | licitaciones-monitor/database/models.py:125 | rows numbered from above the largest stored id keep tender ids unique when committed |
| Scan.FreshRecordsAllStaged | licitaciones-monitor/core/orchestrator.py:186-213 | when records have pairwise distinct hashes and nothing matches, every record is stored |
| Scan.HealthOnSuccess | licitaciones-monitor/core/orchestrator.py:216-221 | success resets the error counter to 0, sets ACTIVE and stamps both times; nothing else changes |
| Scan.HealthOnFailure | licitaciones-monitor/core/orchestrator.py:252-258 | failure increments `(old or 0)`, sets ERROR iff the count reaches 5 (otherwise keeps the status) and keeps the error cut to 500 characters |
| Scan.FailuresFromHealthy | licitaciones-monitor/core/orchestrator.py:252-258 | from a healthy portal, k failures count k, and the portal is ERROR iff k ≥ 5 |
| Scan.UpdateHealth | licitaciones-monitor/core/orchestrator.py:216-221 | the health update touches exactly the portal with that id |
| Scan.UpdateHealthKeepsKeys | licitaciones-monitor/database/models.py:63 | health updates keep portal ids and short names unique |
| Scan.SearchFailsWithHeaders | licitaciones-monitor/scrapers/base.py:123-131 | `search` raises exactly what building the request headers raises, and otherwise returns what the adapter fetched |
| Scan.SearchWith | licitaciones-monitor/scrapers/base.py:123-131 | a configuration whose headers cannot be built fails with that exception's text before any fetch; otherwise the adapter's answer is returned |
| Scan.Fetched | licitaciones-monitor/core/orchestrator.py:172-173 | an unregistered scraper class fails with the registry's KeyError text; a registered one with a missing or empty configuration returns the adapter's answer; a truthy configuration that is not a mapping fails |
| Scan.Staged | licitaciones-monitor/core/orchestrator.py:179-213 | the staged rows are new, belong to the portal, have distinct hashes, collide with no stored hash of the portal, and take consecutive ids above every stored id |
| Scan.CommitScan | licitaciones-monitor/core/orchestrator.py:216-228 | success commits the rows, the portal's health and a "success" outcome row with found and new; the schema stays valid, tender ids included |
| Scan.RecordFailure | licitaciones-monitor/core/orchestrator.py:236-258 | failure rolls back the staged rows and writes an "error" outcome row with the text cut to 500, plus the health update; the schema stays valid |
| Scan.Settle | licitaciones-monitor/core/orchestrator.py:166-262 | a portal scan leaves exactly one outcome row and reports the fetch's exception or its record count |
| Scan.ScanPortal | licitaciones-monitor/core/orchestrator.py:148-262 | `_scan_portal_isolated` for one portal, from the adapter lookup on |
| Scan.ExtendScan | licitaciones-monitor/core/orchestrator.py:86-100 | one more portal scan after the scans of a list is a scan of the longer list |
| Scan.Fetches | licitaciones-monitor/core/orchestrator.py:172-173 | each portal's adapter answer, in portal order |
| Scan.ScanAll | licitaciones-monitor/core/orchestrator.py:86-100 | the portals are scanned in order, one outcome row each, every scan seeing the previous commits |
| Orchestrator.ByPriorityDescTotal | licitaciones-monitor/core/orchestrator.py:268 | `ORDER BY priority DESC` is a total preorder |
| Orchestrator.Terms | licitaciones-monitor/core/orchestrator.py:270 | the terms of the rows, in order |
| Orchestrator.ActiveByPriority | licitaciones-monitor/core/orchestrator.py:264-270 | exactly the active keyword rows, ordered by descending priority |
| Orchestrator.EffectiveKeywords | licitaciones-monitor/core/orchestrator.py:61 | a non-empty override wins; None or [] falls back to the stored keywords |
| Orchestrator.LoadKeywordsAreActiveTerms | licitaciones-monitor/core/orchestrator.py:264-270 | a term is loaded iff some active keyword carries it |
| Orchestrator.LoadKeywords | licitaciones-monitor/core/orchestrator.py:264-270 | the terms, position by position, of the active keyword rows in descending priority |
| Orchestrator.DateFrom | licitaciones-monitor/core/orchestrator.py:70-71 | the requested start, or 48 hours (172800 s) before now when none is given |
| Orchestrator.ByLevelThenNameTotal | licitaciones-monitor/core/orchestrator.py:276 | `ORDER BY level, name` is a total preorder on either backend |
| Orchestrator.LoadPortals | licitaciones-monitor/core/orchestrator.py:272-277 | exactly the enabled portals within `portal_ids` (when that list is non-empty), ordered by level then name |
| Orchestrator.EmptyIdsMeanNoFilter | licitaciones-monitor/core/orchestrator.py:274 | an empty id list loads what no list loads |
| Orchestrator.SummariesPerFailure | licitaciones-monitor/core/orchestrator.py:108-114 | one error entry per failed portal, naming it, with the message cut to 200 characters |
| Orchestrator.NoFailuresNoSummaries | licitaciones-monitor/core/orchestrator.py:124 | there are no entries iff there are no failures, so `error_details or None` stores None |
| Orchestrator.FailuresCount | licitaciones-monitor/core/orchestrator.py:106-114 | the failure count is 0 iff every portal succeeded, and equals the portal count iff every portal failed |
| Orchestrator.NewNeverExceedsFound | licitaciones-monitor/core/orchestrator.py:115-118 | the run's new total never exceeds its found total |
| Orchestrator.Aggregate | licitaciones-monitor/core/orchestrator.py:102-118 | the loop's totals are the sums over successful portals, the failure count and the summaries |
| Orchestrator.RunStatusOf | licitaciones-monitor/core/orchestrator.py:126-131 | FAILED iff failures = portals (zero portals included), PARTIAL iff 0 < failures < portals, SUCCESS iff 0 = failures < portals |
| Orchestrator.StatusFromResults | licitaciones-monitor/core/orchestrator.py:126-131 | FAILED iff every portal failed, SUCCESS iff there are portals and none failed, PARTIAL otherwise |
| Orchestrator.Run | licitaciones-monitor/core/orchestrator.py:44-146 | every return leaves a finished non-RUNNING row; the keywords used are a non-empty override, else the active keywords; a failing keyword query ends FAILED with its error and no change; no keywords means FAILED before any scan; a failing portal query ends FAILED with its error; otherwise every portal `_load_portals` selects is scanned with the adapters' answers from `date_from` (default now − 48 h), one outcome row each, and the run's totals, failures, error summaries and status are those of the scan results; the schema stays valid |
| Orchestrator.ScanPortals | licitaciones-monitor/core/orchestrator.py:73-131 | `portals_scanned` is the portal count, the totals are the sums, and the status follows the failure count |
| Orchestrator.RecordedResults | licitaciones-monitor/core/orchestrator.py:86-100 | one result per portal, none with more new than found |
| Mapping.Or | licitaciones-monitor/scrapers/comprar.py:145 | `a or b` is `a` when truthy, else `b` |
| Mapping.OptText | licitaciones-monitor/scrapers/portal_compras_pba.py:112-121 | an optional text field holds a value exactly when it is a string |
| Mapping.Text | licitaciones-monitor/scrapers/comprar.py:145 | a string value is kept as it is |
| Mapping.FilterMap | licitaciones-monitor/scrapers/comprar.py:115-159 | the loop with a per-item `try` keeps only items that map, each replaced by its image, never more records than items |
| Mapping.FilterMapKeeps | licitaciones-monitor/scrapers/comprar.py:115-159 | every item that maps leaves its image in the result |
| Mapping.FilterMapIsFlatten | licitaciones-monitor/scrapers/comprar.py:115-159 | the result is exactly the images of the items that map, in item order: none dropped, duplicated or moved |
| Mapping.FirstTruthyKey | licitaciones-monitor/scrapers/comprar.py:119-127 | the first key in order whose value is truthy, or None iff all are falsy |
| Mapping.IsoDateOf | licitaciones-monitor/scrapers/comprar.py:118-127 | a date read from keys that are all falsy is None |
| Mapping.AmountOf | licitaciones-monitor/scrapers/comprar.py:130-137 | an amount read from keys that are all falsy is None |
| Mapping.ParsedDate | licitaciones-monitor/scrapers/portal_compras_pba.py:233-240 | a falsy or non-string date is None; otherwise it is what the parser returns |
| Comprar.DedupeFrom | licitaciones-monitor/scrapers/comprar.py:318-323 | the loop keeps a subsequence with distinct keys covering every key not yet seen |
| Comprar.DedupeById | licitaciones-monitor/scrapers/comprar.py:314-324 | `_dedupe_by_id` returns an order-preserving subsequence with pairwise distinct keys and every input key |
| Comprar.DedupeFromKeepsFirst | licitaciones-monitor/scrapers/comprar.py:318-323 | each item the loop keeps is the first of its key |
| Comprar.DedupeKeepsFirst | licitaciones-monitor/scrapers/comprar.py:314-324 | each kept item is the first input item with its key |
| Comprar.DistinctKeysUnchanged | licitaciones-monitor/scrapers/comprar.py:318-323 | items with distinct keys pass unchanged |
| Comprar.DedupeIdempotent | licitaciones-monitor/scrapers/comprar.py:314-324 | deduplicating twice is deduplicating once |
| Comprar.DetailUrl | licitaciones-monitor/scrapers/comprar.py:140-147 | an absolute URL is kept, a relative one is joined to base_url, and a missing one becomes base_url |
| Comprar.ApiRecord | licitaciones-monitor/scrapers/comprar.py:139-155 | titulo = descripcion or titulo or "Sin título"; portal "comprar"; external_id = str(nroExpediente or id or ""); matched_keywords = [keyword] |
| Comprar.ParseItem | licitaciones-monitor/scrapers/comprar.py:115-159 | an item yields a record exactly when it is an object whose URL resolves |
| Comprar.ParseApiResponse | licitaciones-monitor/scrapers/comprar.py:107-161 | fails iff the response is not a dict; a selected value that is not a list gives []; otherwise exactly the record of each mappable item, in item order (`ItemRecords`) |
| Comprar.TryApi | licitaciones-monitor/scrapers/comprar.py:76-105 | a failed request gives []; otherwise the parsed response |
| Comprar.SearchKeyword | licitaciones-monitor/scrapers/comprar.py:56-74 | the API's records when there are any, else the web results |
| Comprar.WebOnlyWithoutApiResults | licitaciones-monitor/scrapers/comprar.py:66-69 | once the API yields records, the web answer makes no difference |
| Comprar.MappedItemBlocksWeb | licitaciones-monitor/scrapers/comprar.py:66-69 | an API answer with one mappable item never falls back to the web |
| Comprar.Collected | licitaciones-monitor/scrapers/comprar.py:37-53 | the records of every keyword whose search did not raise, concatenated in keyword order |
| Comprar.FetchLicitaciones | licitaciones-monitor/scrapers/comprar.py:37-54 | the deduplicated records of every keyword that did not raise, in keyword order |
| Boletin.SectionName | licitaciones-monitor/scrapers/boletin_nacional.py:139-143 | sections 1, 2 and 3 have fixed labels, and any other number prints as itself |
| Boletin.SelectedItems | licitaciones-monitor/scrapers/boletin_nacional.py:132-137 | `publicaciones`, else `data.publicaciones`, else `items`, else [] |
| Boletin.ApiRecord | licitaciones-monitor/scrapers/boletin_nacional.py:147-179 | the URL is BASE_URL + "/#!DetalleNorma/" + section code + "/" + number; the title and external id follow their fallback chains; portal "boletin-nacional"; raw data is the item plus `_seccion` |
| Boletin.ParseItem | licitaciones-monitor/scrapers/boletin_nacional.py:145-183 | an item yields a record exactly when it is an object |
| Boletin.ParseApiResults | licitaciones-monitor/scrapers/boletin_nacional.py:126-185 | fails exactly when the response or its `data` member is not a dict or the selected items are not iterable; otherwise parses the selected items, giving [] when they are not a list |
| Boletin.ParseItems | licitaciones-monitor/scrapers/boletin_nacional.py:145-183 | exactly the record of each object among the items, in item order, even in a list mixing objects and other values; each carries portal "boletin-nacional", the searched keyword and its section label |
| Boletin.ParseItemsNoObjects | licitaciones-monitor/scrapers/boletin_nacional.py:145-183 | when no item is an object, every `item.get` raises and nothing is parsed |
| Boletin.SearchApiLabelled | licitaciones-monitor/scrapers/boletin_nacional.py:168-179 | every record the API search returns carries the section label of the searched section |
| Boletin.SearchApi | licitaciones-monitor/scrapers/boletin_nacional.py:92-124 | a failed request gives []; otherwise the parsed results |
| Boletin.SearchKeyword | licitaciones-monitor/scrapers/boletin_nacional.py:78-88 | the API's records when there are any, else the web results |
| Boletin.WebOnlyWithoutApiResults | licitaciones-monitor/scrapers/boletin_nacional.py:82-84 | once the API yields records, the web answer makes no difference |
| Boletin.SearchSection | licitaciones-monitor/scrapers/boletin_nacional.py:71-90 | the concatenation, in keyword order, of each keyword's records, a keyword whose search raises giving none; every record is labelled with the section or came from the web |
| Boletin.FetchLicitaciones | licitaciones-monitor/scrapers/boletin_nacional.py:47-69 | section 3's per-keyword results concatenated, then section 1's; the split point separates the two sections |
| Boletin.SectionsTellApart | licitaciones-monitor/scrapers/boletin_nacional.py:56-67 | no API record carries both section labels |
| Pbac.SelectedItems | licitaciones-monitor/scrapers/portal_compras_pba.py:103 | `items or licitaciones or data or []` |
| Pbac.DetailUrl | licitaciones-monitor/scrapers/portal_compras_pba.py:107-109 | the item URL, else BASE_URL + "/licitacion/" + id, joined to BASE_URL when not absolute |
| Pbac.ApiRecord | licitaciones-monitor/scrapers/portal_compras_pba.py:111-123 | titulo = descripcion or objeto or "Sin título"; portal "pbac"; external_id = str(nroExpediente or id or ""); matched_keywords = [keyword] |
| Pbac.ParseItem | licitaciones-monitor/scrapers/portal_compras_pba.py:105-127 | an item yields a record exactly when it is an object whose URL resolves |
| Pbac.TryApi | licitaciones-monitor/scrapers/portal_compras_pba.py:72-129 | every failure gives []; otherwise exactly the record of each mappable item, in item order, each for this keyword |
| Pbac.ScrapePortal | licitaciones-monitor/scrapers/portal_compras_pba.py:131-162 | the portal's records, or the alternative search when the first scrape is empty or raises |
| Pbac.SearchKeyword | licitaciones-monitor/scrapers/portal_compras_pba.py:55-70 | the API's records when there are any, else the portal scrape |
| Pbac.BuscadorOnlyAsLastResort | licitaciones-monitor/scrapers/portal_compras_pba.py:64-70 | the alternative search's records are returned only when the API gave none and the portal scrape was empty or raised |
| Pbac.PerKeyword | licitaciones-monitor/scrapers/portal_compras_pba.py:36-53 | position j holds keyword j's records |
| Pbac.FetchLicitaciones | licitaciones-monitor/scrapers/portal_compras_pba.py:36-53 | the result is the concatenation of each keyword's records, in keyword order, with nothing dropped or merged |
| Pbac.FetchedMatchTheirKeyword | licitaciones-monitor/scrapers/portal_compras_pba.py:36-53 | every fetched record answers one of the keywords |
| Municipal.KnownConfig | licitaciones-monitor/scrapers/municipal/generic.py:34-81 | `MUNICIPAL_CONFIGS.get(key)` is the configuration registered under that key, or None |
| Municipal.NewMunicipal | licitaciones-monitor/scrapers/municipal/generic.py:92-96 | the constructor reads `municipality_key` (default "") and `short_name` (default "municipal"), and fails when the key is unhashable |
| Municipal.SearchTemplate | licitaciones-monitor/scrapers/municipal/generic.py:232 | the municipality's template, or {"q": "{keyword}"} when unknown |
| Municipal.BuildSearchParams | licitaciones-monitor/scrapers/municipal/generic.py:230-236 | same keys in the same order; string values get the keyword substituted; other values are unchanged |
| Municipal.ParamsWithoutPlaceholder | licitaciones-monitor/scrapers/municipal/generic.py:235 | a value without the placeholder is passed on unchanged |
| Municipal.UnknownMunicipalityParams | licitaciones-monitor/scrapers/municipal/generic.py:95 | an unknown municipality searches with {"q": keyword} |
| Municipal.IsRelevant | licitaciones-monitor/scrapers/municipal/generic.py:334-340 | an empty keyword is relevant to every record, as `"" in s` always holds |
| Municipal.RelevanceIgnoresKeywordCase | licitaciones-monitor/scrapers/municipal/generic.py:336 | a keyword and its lowered form are relevant to the same records |
| Municipal.RelevantWithoutDescription | licitaciones-monitor/scrapers/municipal/generic.py:334-340 | without a description, relevance is the lowered keyword occurring in the lowered title |
| Municipal.FilterByKeyword | licitaciones-monitor/scrapers/municipal/generic.py:342-353 | exactly the relevant items, each as often as before, in their original order |
| Municipal.FilterByKeywordIdempotent | licitaciones-monitor/scrapers/municipal/generic.py:342-353 | filtering twice is filtering once |
| Municipal.LinkRecord | licitaciones-monitor/scrapers/municipal/generic.py:274-289 | a link is kept iff it has an href, text of length ≥ 10, and a tender marker in its href or text; its matched_keywords is [] |
| Municipal.ExtractAllItems | licitaciones-monitor/scrapers/municipal/generic.py:271-291 | every extracted item comes from a kept link |
| Municipal.ExtractKeepsEveryTenderLink | licitaciones-monitor/scrapers/municipal/generic.py:271-291 | every kept link leaves its record among the items |
| Municipal.ParseItem | licitaciones-monitor/scrapers/municipal/generic.py:293-332 | a container yields a record iff it has a title element whose text has length ≥ 5 |
| Municipal.RelevantItem | licitaciones-monitor/scrapers/municipal/generic.py:262-266 | a container contributes iff it parses and the record is relevant |
| Municipal.ExtractLicitaciones | licitaciones-monitor/scrapers/municipal/generic.py:238-269 | exactly the record of each container that parses and is relevant, in page order (`ContainerRecords`); each is tagged with the keyword |
| Municipal.ExtractKeepsEveryRelevant | licitaciones-monitor/scrapers/municipal/generic.py:262-266 | every container that parses and is relevant leaves its record among the extracted tenders |
| Municipal.SearchInPortal | licitaciones-monitor/scrapers/municipal/generic.py:196-228 | a failed page gives []; every record returned is relevant |
| Municipal.FetchLicitaciones | licitaciones-monitor/scrapers/municipal/generic.py:98-125 | no tenders section gives []; every record is relevant to some keyword |
| Municipal.FetchIsEveryKeywordsSearch | licitaciones-monitor/scrapers/municipal/generic.py:105-125 | with a tenders section, the result is the concatenation, in keyword order, of each keyword's search of that section |
| LicitacionesApi.FindLicitacion | licitaciones-monitor/api/routes/licitaciones.py:94-97 | the lookup finds a row with that id, or reports that none has it |
| LicitacionesApi.MarkViewed | licitaciones-monitor/api/routes/licitaciones.py:100-104 | viewing clears `is_new`, turns NUEVA into VISTA, and keeps every other status and field |
| LicitacionesApi.MarkViewedIdempotent | licitaciones-monitor/api/routes/licitaciones.py:100 | viewing an already-viewed record changes nothing |
| LicitacionesApi.GetLicitacion | licitaciones-monitor/api/routes/licitaciones.py:86-106 | 404 iff the id is unknown; otherwise the viewed row, replaced in place |
| LicitacionesApi.GetLicitacionKeepsValid | licitaciones-monitor/database/models.py:169-171 | viewing keeps every unique constraint |
| LicitacionesApi.GetLicitacionIdempotent | licitaciones-monitor/api/routes/licitaciones.py:100-104 | viewing twice leaves the store as one view left it |
| LicitacionesApi.UpdateStatus | licitaciones-monitor/api/routes/licitaciones.py:109-129 | 404 for an unknown id, checked first; 400 iff the value is not one of the four statuses, with "Estado inválido. Opciones: " and the value list as Python prints it; otherwise only the status changes |
| LicitacionesApi.PageCountIsCeiling | licitaciones-monitor/api/routes/licitaciones.py:81 | pages·size ≥ total, (pages−1)·size < total when total > 0, and pages = 0 iff total = 0 |
| LicitacionesApi.PageRows | licitaciones-monitor/api/routes/licitaciones.py:72 | a page holds the rows from offset (page−1)·size, at most size of them |
| LicitacionesApi.ListPage | licitaciones-monitor/api/routes/licitaciones.py:31-32 | 422 iff page < 1 or size is outside 1..100; otherwise the total, page count and page rows |
| LicitacionesApi.PageNonEmptyIff | licitaciones-monitor/api/routes/licitaciones.py:72-81 | a page holds rows iff its number is at most the page count |
| LicitacionesApi.PagesPrefix | licitaciones-monitor/api/routes/licitaciones.py:72 | the first k pages are the first k·size rows |
| LicitacionesApi.PagesCoverRows | licitaciones-monitor/api/routes/licitaciones.py:72-81 | the counted pages, read in order, are exactly the rows |
| PortalesApi.MinimalCreate | licitaciones-monitor/api/routes/portales.py:18-27 | an omitted scraper_class is "GenericMunicipalScraper" and an omitted is_enabled is true |
| PortalesApi.DefaultClassRegistered | licitaciones-monitor/api/routes/portales.py:25 | the default scraper class is registered |
| PortalesApi.FindShortName | licitaciones-monitor/api/routes/portales.py:59-62 | the query finds a portal with that short name, or reports that none has it |
| PortalesApi.NextPortalId | licitaciones-monitor/api/routes/portales.py:81-82 | a new primary key is used by no row |
| PortalesApi.CreatePortal | licitaciones-monitor/api/routes/portales.py:47-83 | 400 for an unregistered class, then 409 for a taken short name, then 400 for a bad level; success inserts the row with its defaults |
| PortalesApi.CreatePortalKeepsValid | licitaciones-monitor/database/models.py:63 | creating keeps short names and ids unique |
| PortalesApi.CreateTwiceConflicts | licitaciones-monitor/api/routes/portales.py:59-63 | creating the same portal twice gets 409 the second time |
| PortalesApi.GetPortal | licitaciones-monitor/api/routes/portales.py:86-89 | 404 iff no row has the id |
| PortalesApi.ApplyUpdate | licitaciones-monitor/api/routes/portales.py:99-106 | only the given fields among name, url, is_enabled and scraper_config change |
| PortalesApi.ApplyUpdateIdempotent | licitaciones-monitor/api/routes/portales.py:99-106 | applying an update twice is applying it once |
| PortalesApi.UpdatePortal | licitaciones-monitor/api/routes/portales.py:92-108 | 404 iff the id is unknown; otherwise the row is updated in place |
| PortalesApi.UpdatePortalKeepsValid | licitaciones-monitor/database/models.py:63 | updating keeps every unique constraint |
| PortalesApi.RemoveAt | licitaciones-monitor/api/routes/portales.py:113 | removing a row keeps the others in order |
| PortalesApi.DeletePortal | licitaciones-monitor/api/routes/portales.py:111-114 | 404 for an unknown id; 500 with no change iff tenders or outcome rows reference the portal; otherwise the row is removed |
| PortalesApi.DeletePortalRemoves | licitaciones-monitor/api/routes/portales.py:111-114 | a deletion keeps the schema valid, and a later get answers 404 |
| PortalesApi.ListPortales | licitaciones-monitor/api/routes/portales.py:37-44 | every portal once, ordered by level then name |
| KeywordsApi.MinimalCreate | licitaciones-monitor/api/routes/keywords.py:16-20 | priority defaults to 5 and is_active to true |
| KeywordsApi.FindTerm | licitaciones-monitor/api/routes/keywords.py:39-42 | the query finds a keyword with that term, or reports that none has it |
| KeywordsApi.NextKeywordId | licitaciones-monitor/api/routes/keywords.py:51-52 | a new primary key is used by no row |
| KeywordsApi.CreateKeyword | licitaciones-monitor/api/routes/keywords.py:37-53 | 409 with no insert iff the stripped term exists; otherwise the stripped term is stored under a fresh id |
| KeywordsApi.CreateKeywordKeepsValid | licitaciones-monitor/database/models.py:103 | creating keeps terms and ids unique |
| KeywordsApi.CreateTwiceConflicts | licitaciones-monitor/api/routes/keywords.py:39-43 | a term that differs from a created one only in surrounding blanks gets 409 |
| KeywordsApi.ApplyUpdate | licitaciones-monitor/api/routes/keywords.py:63-68 | only the given fields among is_active, priority and category change; the term never does |
| KeywordsApi.ApplyUpdateIdempotent | licitaciones-monitor/api/routes/keywords.py:63-68 | applying an update twice is applying it once |
| KeywordsApi.UpdateKeyword | licitaciones-monitor/api/routes/keywords.py:56-70 | 404 iff the id is unknown; otherwise the row is updated in place |
| KeywordsApi.UpdateKeywordKeepsValid | licitaciones-monitor/database/models.py:103 | updating keeps every unique constraint |
| KeywordsApi.DeleteKeyword | licitaciones-monitor/api/routes/keywords.py:73-76 | 404 for an unknown id; otherwise the row is removed |
| KeywordsApi.DeleteKeywordRemoves | licitaciones-monitor/api/routes/keywords.py:73-76 | a deletion keeps the schema valid, and a later lookup fails |
| KeywordsApi.ByPriorityThenTermTotal | licitaciones-monitor/api/routes/keywords.py:32 | `ORDER BY priority DESC, term` is a total preorder |
| KeywordsApi.ListKeywords | licitaciones-monitor/api/routes/keywords.py:29-34 | every keyword once, ordered by priority descending, then by term |
| KeywordsApi.ListKeywordsStrict | licitaciones-monitor/api/routes/keywords.py:32 | with unique terms, consecutive entries are strictly ordered |
| Seed.DefaultKeywordsWellFormed | licitaciones-monitor/api/seed.py:19-39 | 19 default keywords, pairwise distinct terms, priorities in 1..10 |
| Seed.KeywordRows | licitaciones-monitor/api/seed.py:52-57 | the default keywords become rows with consecutive fresh ids |
| Seed.DefaultPortalsWellFormed | licitaciones-monitor/api/seed.py:96-133 | four enabled default portals with distinct short names, two national then two provincial |
| Seed.RequiredText | licitaciones-monitor/api/seed.py:80-86 | `p["key"]` gives the text bound to the key, and raises when the key is missing |
| Seed.OptionalText | licitaciones-monitor/api/seed.py:84-87 | `p.get("key")` is None for a missing or null key, and the text otherwise |
| Seed.ParseEntry | licitaciones-monitor/api/seed.py:79-89 | one registry entry: an unknown level or a missing required key raises; is_enabled defaults to true |
| Seed.ParseEntries | licitaciones-monitor/api/seed.py:77-90 | the loop succeeds iff every entry parses, keeping their order |
| Seed.RegistryEntries | licitaciones-monitor/api/seed.py:76-78 | `data.get("portals", [])` iterated, failing when data is not a dict |
| Seed.LoadPortalsFromRegistry | licitaciones-monitor/api/seed.py:68-93 | a missing or unreadable registry, or any failing entry, falls back to the four default portals |
| Seed.RegistryPortalEnabledByDefault | licitaciones-monitor/api/seed.py:88 | an entry without is_enabled is enabled |
| Seed.PortalRow | licitaciones-monitor/api/seed.py:59-65 | a seeded portal row takes the entry's fields and the model defaults |
| Seed.PortalRows | licitaciones-monitor/api/seed.py:59-65 | the seeded portals become rows with consecutive fresh ids |
| Seed.SeedInitialData | licitaciones-monitor/api/seed.py:42-65 | keywords are inserted iff none exist, portals iff none exist, each independently of the other |
| Seed.SeedKeepsValid | licitaciones-monitor/database/models.py:63 | seeding a valid store keeps it valid |
| Seed.SeedIdempotent | licitaciones-monitor/api/seed.py:43-65 | seeding twice inserts nothing the second time |
| Seed.MissingRegistrySeedsDefaults | licitaciones-monitor/api/seed.py:70-72 | with no registry file an empty store gets the four default portals |

## Left out

- Network I/O, retries, timeouts and `httpx`: every adapter request is a parameter answer (`Result<Json, string>` or a record list).
- HTML parsing with BeautifulSoup: elements are reduced to text nodes and an optional href (`Records.Node`, `Municipal.Container`), and the selector chains that find them are not modelled.
- `_find_licitaciones_url` and `_find_licitaciones_link` of the municipal adapter: their result is a parameter (`section`).
- The HTML fallback parsers of every adapter (`_scrape_web`, `_parse_search_html`, `_buscar_web`, `_parse_web_html`, `_parse_html`, `_scrape_buscador`), and the datos.gob.ar fallback of the Compra adapter: their records are parameters.
- `scrapers/boletin_pba.py`: it is only HTTP requests and selector logic.
- `_delay` and every sleep: timing only.
- `dateparser`, `datetime.fromisoformat`, `float()` and `urljoin`: foreign libraries, passed in as `Mapping.Libs`.
- Floating point: JSON numbers are integers in the model. Scores are exact `real`s, so the rounding done for display is not modelled.
- Mapping.Text: a non-string title is printed with `str()` in the model. The source keeps the raw value, and `compute_hash` then raises at `.strip()`, so the whole portal fails (rolled back, an error outcome row, the failure counters raised). Only `external_id` goes through `str()` in the source. This failure path is not modelled.
- Mapping.OptText: a non-string value of an optional text field is `None` in the model. The source keeps the raw value. For `organismo` and `numero_licitacion`, a truthy non-string makes `compute_hash` raise at `.strip()`, and the portal fails as above. A falsy one hashes as "". For the other fields the value reaches the database unchanged. None of this is modelled.
- Comprar.ApiRecord: a non-string `descripcion`/`titulo` or `organismo`/`reparticion` is printed or dropped (Mapping.Text, Mapping.OptText). In the source such a record makes the portal fail at hashing.
- Boletin.ApiRecord: a non-string title or `organismo`/`emisor`/`dependencia` is printed or dropped (Mapping.Text, Mapping.OptText). In the source such a record makes the portal fail at hashing.
- Pbac.ApiRecord: a non-string `descripcion`/`objeto`, `organismo`/`jurisdiccion` or `nroLicitacion` (a number, say) is printed or dropped (Mapping.Text, Mapping.OptText). In the source such a record makes the portal fail at hashing.
- Municipal.NewMunicipal: a non-string `short_name` in the configuration is printed with `str()`. In the source it is kept, `"|".join` in `compute_hash` raises on the first record, and the portal fails.
- Strings.Lower: covers ASCII and Latin-1 capitals only; other code points are left unchanged.
- WordMatch.FirstAt: `\w` is exact only below U+0250; above it, characters are treated as non-word characters.
- WordMatch.WholeAt: compares characters exactly after `Matcher.Normalize` lower-cases both sides. `re.IGNORECASE` also lets a few characters that lower-casing leaves distinct match each other, such as `ſ` with `s` and `ı` with `i`. So a title "ſoftware" hits "software" in the source but not in the model.
- WordMatch.SearchFrom: the leftmost whole-word match is taken under that exact comparison, so the `ſ`/`ı`-style case-fold hits of `re.IGNORECASE` are missed (see WordMatch.WholeAt).
- Matcher.CompilePatterns: the terms are ordered keyword first, then synonyms in table order. The source orders them by `set()` iteration, which depends on string hashing and varies between processes. When one term is a prefix of another, the order changes what a match covers. For the keyword "pericia forense" over the text "pericia forense", `findall` finds 1 or 2 matches. For "investigacion criminal", the first match ends at 22 or 13. So the frequency bonus and the highlight window of a given run of the source may differ from the model's. Whether a keyword hits does not depend on the order.
- Json.Elements and Json.Repr: a decoded object is a list of fields, and both visit a repeated key once per occurrence. Python's decoder keeps only the last one. `Repr` also puts every string between `'` with no escaping. Python's `repr` switches to `"` for a string holding `'`, and escapes backslashes and control characters.
- SHA-256: the content hash is an opaque function of the preimage.
- asyncio: the semaphore and `gather` become a sequential scan in portal order, which is the order `gather` returns.
- Database engines and sessions: the store is a value, a commit is a new value, and a rollback keeps the old one. Collation is code-point order, and ties in `ORDER BY` are unspecified.
- Orchestrator.Run: database faults are modelled only for the keyword and portal loading queries, which are the ones the outer handler is written for.
- Clocks: `utcnow`, `time.time` and `duration_seconds` are not modelled; the run takes `now` as a parameter.
- `created_at` and `updated_at` columns, and the serialisers `_serialize` and `_serialize_licitacion`.
- `list_scrapers`, `get_stats` and `api/routes/runs.py`: presentation only.
- The filters of `list_licitaciones` (portal, status, text search, dates, score): LicitacionesApi.ListPage receives the rows they select, already ordered.
- Seed.ParseEntry: a registry value of the wrong type (a non-string text column, a non-boolean `is_enabled`) is treated as a failing entry, so the defaults are used; in the source the row is built and the outcome depends on the database driver.
- PortalesApi.NextPortalId, KeywordsApi.NextKeywordId and Scan.Staged: fresh ids are one more than the largest id in use, and the tender rows of one scan are numbered consecutively from there; the database's sequence, which never reuses the id of a deleted row, is not modelled.
- PortalesApi.DeletePortal: deleting a referenced portal is a 500 with no change. The relationships have no cascade, so the session nulls the non-null foreign key, the commit raises, and the request is rolled back.
- `main.py`, `api/app.py`, `scheduler/scheduler.py`, `alerts/notifier.py` and `config.py`: wiring, scheduling, e-mail and settings.

## Where the code and its description differ

- The Official Bulletin adapter reads the section code with `item.get("seccionCodigo", seccion)`, a default rather than an `or`. A present `null` therefore prints as "None" in the detail URL. `Boletin.ApiRecord` follows the code.
- `_compile_patterns` builds its term list through `set()`, whose order depends on string hashing. The model uses the order keyword first, then synonyms. Whether a match exists and where it starts do not depend on this order. Its length and the `findall` count do (see Matcher.CompilePatterns under "Left out").
