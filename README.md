# Mind-film recommender core in Dafny

This project models the decision logic of a small Streamlit app. The app turns a five-section psychological survey into a comfort profile, interprets that profile, maps it to film themes, and curates film titles for those themes. It then shapes TMDB movie records, falling back to a local pool of four films. A companion module holds the TMDB request helper: credential lookup, request construction, reply classification and the watch-provider region list.

Modules:

- `Wrappers`: `Option`.
- `Text`: Python string behaviour the app relies on:
  - `str.strip` and `str.lstrip(chars)`
  - slicing `s[:n]`
  - `str(n)`
  - the truthiness of optional strings (`a or b`)
  - the code-point order used by `sorted`
- `Lists`: `list(dict.fromkeys(xs))` as `Dedup`, first-occurrence index, sum.
- `Survey`:
  - `clamp`
  - the survey tables (`SECTIONS`, `NEGATIVE_SECTIONS`)
  - `score_profile`, `interpret_profile`, `derive_themes`
- `Curation`:
  - `LOCAL_POOL` and the theme bank
  - `curate_titles_by_themes`
  - the record shaping of `fetch_movie_by_title`
  - `enrich_movie`
- `Tmdb`: `get_api_key`, `get_access_token`, `tmdb_request`, `get_provider_regions`.

Scores are exact reals. Every HTTP exchange is a parameter:
- the search hits with and without the preferred year
- the details by movie id
- the reply to a TMDB request: a transport error, or the `ok` flag, status, body text and parsed JSON.

The session state, secrets and environment are a `Sources` value. The request that `tmdb_request` would send is returned as a value.

Behaviour of the app that the model follows:
- Films are chosen by scoring the survey and curating from a fixed theme bank.
- Credentials are read from session state, then secrets, then environment, and stripped.
- A non-OK reply is not retried; it gives `{}`.

## Model

| member | source | states |
|---|---|---|
| Survey.Clamp | test.py:44-45 | the result lies in `[lo, hi]` when `lo <= hi`; it is `x` inside the range and the nearer bound outside it |
| Survey.Answer | test.py:198 | `responses.get(key, 3)`: the stored answer, or the neutral 3 when the item is unanswered |
| Survey.ItemKeyInjective | test.py:197-198 | distinct items of a section read distinct response keys `f"{sec}_{i}"` |
| Survey.ItemKey | test.py:197 | `f"{sec}_{i}"`: the section name, an underscore at position `len(sec)`, then the digits of `i` |
| Survey.Answers | test.py:195-204 | one answer per item, in item order: entry `i` is `responses.get(f"{sec}_{i}", 3)` |
| Survey.SectionPct | test.py:205-206 | a section's percentage always lies in 0..100 |
| Survey.Comfort | test.py:209-216 | negative sections ("감정 상태", "애착/관계") become `100 - pct`; the others keep `pct` |
| Survey.DefaultAnswersSum | test.py:198-205 | with no responses, the answers of `n` items sum to `3n` |
| Survey.EmptyResponsesScoreFifty | test.py:196-206 | a four-item section with no responses scores exactly 50 |
| Survey.EmptyResponsesGiveNeutralProfile | test.py:191-216 | an empty survey gives comfort 50 in every section |
| Survey.SectionNamesDistinct | test.py:150-189 | the five section names are distinct; exactly "감정 상태" and "애착/관계" are negative |
| Survey.ProfileKeysDistinct | test.py:225-231 | the five profile keys are distinct |
| Survey.ProfileOf | test.py:218-232 | the profile has exactly the five keys, each holding its section's value |
| Survey.ScoreSection | test.py:195-207 | the item loop yields the section's percentage, in 0..100 |
| Survey.ComfortScores | test.py:210-216 | the comfort map has the same sections, each converted by `Comfort` |
| Survey.ScoreSections | test.py:193-207 | after the section loop over a table with distinct names, the keys are exactly the section names and each maps to its percentage |
| Survey.ScoreProfile | test.py:191-232 | the profile has exactly five keys, all in 0..100: mood and attachment are 100 minus their section percentage; coping, drive and flow equal theirs |
| Survey.FiredMembers | test.py:245-259 | a message is produced exactly when a rule listing it fires |
| Survey.Fired | test.py:245-259 | the reference for a run of conditional appends: the outputs of the firing rules in rule order (its membership and step lemmas follow); no rules give nothing |
| Survey.FiredEmpty | test.py:289-301 | nothing is produced exactly when no rule fires |
| Survey.FiredOfThree | test.py:245-259 | three conditional appends concatenate the fired rules' outputs in order |
| Survey.FiredStep | test.py:289-299 | each conditional `themes +=` extends the fired prefix by one rule |
| Survey.Interpret | test.py:234-283 | highlights and cautions are the fired threshold rules in source order; the suggestions are the fixed five; `today` picks recover, go or steady by the source's conditions |
| Survey.Highlights | test.py:245-251 | the highlight appends equal the fired highlight rules (drive, flow, coping ≥ 60) in order |
| Survey.Cautions | test.py:253-259 | the caution appends equal the fired caution rules (mood < 50, attachment < 50, coping < 40) in order |
| Survey.Today | test.py:270-276 | recover when mood and coping are both below 50; otherwise go when drive and flow are both at least 60; otherwise steady |
| Survey.InterpretMessages | test.py:245-259 | each highlight or caution is present iff its threshold holds (≥ 60, < 50, < 40); at most three of each |
| Survey.FallbackNotFromRules | test.py:289-301 | no rule produces the fallback theme |
| Survey.ThemeList | test.py:288-302 | the specification of `derive_themes`: a non-empty, duplicate-free list |
| Survey.ThemeListProperties | test.py:288-302 | the themes are non-empty and duplicate-free; they are the fallback pair iff no rule fires; a theme is present iff a firing rule lists it, or it is a fallback theme and none fires |
| Survey.CollectLowThemes | test.py:290-295 | the first three conditional appends (the `< 50` rules) yield the fired themes of the first three rules |
| Survey.CollectThemes | test.py:289-299 | the five conditional appends yield the themes of the firing rules, in rule order |
| Survey.DeriveThemes | test.py:288-302 | the conditional appends, fallback and de-duplication compute `ThemeList`: non-empty, duplicate-free, fallback iff no rule fires |
| Lists.FirstIndex | test.py:302 | the first position holding `x` |
| Lists.Dedup | test.py:302 | same members, no duplicates, never longer |
| Lists.DedupKeepsFirstOccurrenceOrder | test.py:302 | kept elements appear in the order of their first occurrence |
| Lists.FirstIndexOfPrefix | test.py:330 | an element's first index is the same in a list and in any prefix holding it |
| Lists.DedupOfNoDup | test.py:302 | de-duplicating a duplicate-free list changes nothing |
| Lists.Sum | test.py:205 | `sum(vals)`: an empty list sums to 0 |
| Lists.SumBounds | test.py:205 | `n` answers on the 1..5 scale sum to between `n` and `5n` |
| Text.LeadCount | app.py:65 | the length of the leading run of the given characters: all of them are in the set, and the next one is not |
| Text.TrailCount | test.py:108 | the length of the trailing run of the given characters: all of them are in the set, and the one before is not |
| Text.TrimStartDrops | app.py:65 | `lstrip('/')` keeps a suffix, removes only the given characters, and leaves none at the front |
| Text.StripEnd | test.py:108 | the end of the stripped slice never precedes its start, and lies past it when the text is not all white space |
| Text.TrimStart | app.py:65 | `lstrip(chars)` is never longer than its input and leaves no character of the set at the front |
| Text.Strip | test.py:108 | `strip()` is never longer than its input, and is empty exactly when the input is all white space |
| Text.StripSlice | test.py:108 | `strip` keeps a contiguous slice with only white space around it |
| Text.StripTrimmed | test.py:108 | a stripped text has no white space at either end |
| Text.StripEmptyIffBlank | app.py:94 | `raw.strip() == ""` iff the text is white space only |
| Text.Take | test.py:331 | `s[:n]` is the first `min(n, len)` elements |
| Text.DecimalString | test.py:197 | `str(i)` is a non-empty run of digits |
| Text.DecimalRoundTrip | test.py:197 | reading the digits of `str(n)` back gives `n` |
| Text.DecimalStringInjective | test.py:197 | distinct numbers have distinct `str(n)` |
| Text.OrElse | test.py:106 | `o or fallback` keeps a truthy value and otherwise yields the fallback |
| Text.LessIrreflexive | app.py:119 | string order is irreflexive |
| Text.LessTransitive | app.py:119 | string order is transitive |
| Text.LessTotal | app.py:119 | distinct strings are ordered one way or the other |
| Text.LessAsymmetric | app.py:119 | string order is asymmetric |
| Curation.Candidates | test.py:323-328 | the list handed to de-duplication is non-empty, starts with the gathered bank titles, and holds only bank titles or pool titles |
| Curation.Curated | test.py:330-331 | the curated list has at most nine titles, all drawn from the candidates |
| Curation.FirstDistinctOrder | test.py:330-331 | keeping the first `n` distinct elements keeps their first-occurrence order and drops one only when `n` earlier ones are kept |
| Curation.BankTitles | test.py:325 | `bank.get(t, [])`: the bank entry of a known theme, nothing for an unknown one |
| Curation.Gathered | test.py:323-325 | the gather loop's result: every gathered title is listed under one of the themes in the bank |
| Curation.GatheredAppend | test.py:323-325 | for any bank, the titles gathered for `a + b` are those for `a` followed by those for `b` |
| Curation.GatheredMembers | test.py:323-325 | a title is gathered iff some given theme's bank entry lists it |
| Curation.UnknownThemeContributesNothing | test.py:325 | a theme missing from the bank adds nothing (`bank.get(t, [])`) |
| Curation.CuratedSources | test.py:304-331 | 1..9 distinct titles, each from the bank or the pool; the pool is used only when the bank gives fewer than six, and then all four pool titles are kept |
| Curation.CuratedOrder | test.py:327-331 | titles keep first-occurrence order; a candidate is dropped only when nine earlier ones are kept |
| Curation.CurateTitles | test.py:304-331 | the loop computes `Curated`: 1..9 distinct titles from the bank or the pool |
| Curation.CastText | test.py:99-102 | a named entry reads `name (character)` when the character is truthy, otherwise `name` |
| Curation.FormatCast | test.py:96-102 | the shown cast is never longer than the cast list |
| Curation.FormatCastProperties | test.py:96-102 | every shown line is the text of some named entry, and there is at most one line per entry |
| Curation.FormatCastShowsNamed | test.py:98-102 | every named entry is shown: an unnamed entry is skipped and does not stop the loop |
| Curation.FormatCastAppend | test.py:98-102 | the lines for `a + b` are the lines for `a` followed by those for `b`, so lines keep entry order |
| Curation.FormatCastOne | test.py:99-102 | one entry gives its text when named and no line otherwise |
| Curation.FormatCastAllNamed | test.py:96-102 | when every entry is named, the shown cast is exactly their texts in entry order |
| Curation.FormatTopCast | test.py:95-102 | at most five lines, from the first five cast entries |
| Curation.ShapeRecord | test.py:89-112 | each field takes the first truthy source (details, then the search hit, then the fallback); the overview is stripped; the year is the first four characters of the release date or ""; the poster URL is set iff there is a poster path; the cast is the formatted first five entries |
| Curation.ShapedRecordBounds | test.py:92-108 | a shaped record has a year of at most four characters, an overview with no white space at either end, at most five cast lines, and a non-empty title when the requested one is |
| Curation.FetchMovieByTitle | test.py:75-112 | retries without the year only when the first search is empty; `None` iff there is no hit or no details for the first hit; otherwise the record shaped from that hit and its details |
| Curation.EnrichMovie | test.py:333-343 | a fetched record wins; else the pool film of that title; else the first pool film |
| Tmdb.Get | app.py:4 | `d.get(name)`: present exactly when the key is, holding its value |
| Tmdb.SecretOf | app.py:6 | `st.secrets.get(name, None)`, or `None` when secrets are unavailable |
| Tmdb.Chosen | app.py:2-18 | the session value if truthy, else the secret if truthy, else the environment value |
| Tmdb.Resolve | app.py:9 | `(k or "").strip()`: "" when the chosen value is missing or empty, otherwise no longer than it |
| Tmdb.ResolvePriority | app.py:2-18 | the first truthy value among session, secrets and environment, stripped; "" when none |
| Tmdb.ResolveEmptyIff | app.py:9 | a credential is "" exactly when the chosen value is missing, empty or all white space |
| Tmdb.BlankSessionValueWins | app.py:4-9 | a white-space session value shadows secrets and environment and resolves to "" |
| Tmdb.ResolvedIsTrimmed | app.py:9 | a resolved credential has no white space at either end |
| Tmdb.Classify | app.py:85-105 | the parsed JSON only for an OK reply with a non-blank body that parses; `{}` otherwise |
| Tmdb.CallerParams | app.py:66 | `(params or {})`: the caller's parameters, or none |
| Tmdb.GetApiKey | app.py:2-9 | `TMDB_API_KEY`: the stripped session value if truthy, else the stripped secret if truthy, else the stripped environment value or "" |
| Tmdb.GetAccessToken | app.py:11-18 | `TMDB_ACCESS_TOKEN`, by the same priority and stripping |
| Tmdb.AuthQuery | app.py:72-79 | without a v4 token the query gains `api_key` holding the v3 key; with one its keys are the caller's |
| Tmdb.LangQuery | app.py:81-83 | the query gains the `language` key only when `lang` is non-empty, and a caller's `language` is kept |
| Tmdb.AuthQueryFacts | app.py:72-79 | with a v4 token the caller's parameters are unchanged; otherwise `api_key` is the v3 key; no other key changes |
| Tmdb.LangQueryFacts | app.py:81-83 | `language` is added only when absent and `lang` is non-empty; no other key changes |
| Tmdb.QueryFacts | app.py:66-83 | the sent parameters keep the caller's `api_key` under v4 and carry the v3 key otherwise; they keep the caller's `language` or take the default; all other parameters are the caller's |
| Tmdb.BuildRequest | app.py:65-83 | no request iff both credentials are empty; the URL is `base/` plus the endpoint with leading slashes removed; the parameters are the authenticated, language-defaulted copy; a Bearer header iff there is a v4 token |
| Tmdb.ReadReply | app.py:85-105 | the reply branches compute `Classify`; a non-`{}` result is the reply's own JSON |
| Tmdb.TmdbRequest | app.py:58-105 | no request and `{}` without credentials; otherwise the request built from the resolved token and key, and the classified reply |
| Tmdb.ResultsOf | app.py:115-117 | a non-empty result is exactly the `results` list of a JSON object |
| Tmdb.Code | app.py:118 | a code is a non-empty `iso_3166_1` string of a JSON object; an empty string gives no code |
| Tmdb.InsertSorted | app.py:118-119 | inserting into a strictly sorted list keeps it strictly sorted and adds exactly the new element |
| Tmdb.SortedCodes | app.py:118 | strictly sorted and holding exactly the non-empty string codes of the dict entries |
| Tmdb.RegionCodes | app.py:115-119 | strictly sorted region codes, exactly those of the `results` entries; `[]` when `results` is missing, not a list or empty |
| Tmdb.SortedUnique | app.py:119 | two strictly sorted lists with the same elements are equal |
| Tmdb.NotBothLess | app.py:119 | no two strings are each less than the other |
| Tmdb.SortedTail | app.py:119 | the tail of a strictly sorted list is its elements other than the head |
| Tmdb.RegionCodesIsSortedSet | app.py:118-119 | `RegionCodes` is `sorted(set(codes))`: the only strictly sorted list of those codes |
| Tmdb.SortedHasNoDuplicates | app.py:118-119 | a strictly sorted list has no duplicates |
| Tmdb.GetProviderRegions | app.py:107-119 | `[]` without credentials; otherwise the sorted, duplicate-free codes of the classified reply |

## Left out

- Survey.ScoreProfile: scores are exact. `round(pct, 1)` and `round(comfort, 1)` are not modelled, because they are floating-point rounding.
- Survey.SectionPct: the same; the percentage is exact, not rounded to one decimal.
- The `REVERSE_KEYS` branch of `score_profile` is a no-op (`pass`), so every answer is taken as given. The table is not modelled as code.
- Survey.ScoreProfile: responses are integers. The source accepts whatever the UI stores; the slider supplies 1..5.
- Survey.Interpret: requires the five profile keys. The source raises `KeyError` without them, and every caller passes a `score_profile` result.
- Survey.DeriveThemes: requires the five profile keys, for the same reason.
- Text.Strip: white space is the fixed set of characters for which `str.isspace()` is true. Unicode data beyond that set is not modelled.
- Tmdb.Chosen: credential values are strings. Truthiness of other value types in session state or secrets is not modelled.
- Tmdb.RegionCodes: the model drops truthy non-string `iso_3166_1` values. The source keeps them (`[{"iso_3166_1": 5}]` gives `[5]`), or raises `TypeError` when `sorted` meets them beside strings or when they are unhashable (a list or dict value fails in the set comprehension).
- Curation.FetchMovieByTitle: the search and details replies are typed records. Keys missing from a search hit (`first["id"]`) are not modelled, nor are non-dict JSON shapes.
- Curation.FetchMovieByTitle: `prefer_year` enters only through which hit list is non-empty. The HTTP calls of `tmdb_search_movie` and `tmdb_movie_details` are not modelled.
- HTTP transport, the `st.cache_data` caching, the timeouts, and `st.error`, `st.warning` and `st.stop` are not modelled. They are I/O and UI effects.
- `TMDB_BASE` is a parameter, because `app.py` is a fragment that does not define it.
- `tmdb_get` (the key-test helper, with its 401 and raise branches) is not modelled. It is a UI key check outside the recommendation path.
- `test_api_key.py` is not part of this model. It is a manual connectivity script.
- `wrap`, the Streamlit pages, bookmarks, search and history are not modelled. They are presentation code.
- Copying `params` (`.copy()`) is implicit, because maps are values in the model. No aliasing with the caller's dict can arise.
