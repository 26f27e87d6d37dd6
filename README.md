# Movie detail cache, search indices and people backfill — a Dafny model

The repository keeps a cache of movie detail records fetched from the KOFIC
(Korean Film Council) open API and derives two search indices from it. Three
scripts form its core, and this project models each of them:

- `scripts/build_movie_details.py` walks the years from `--year-start` to
  `--year-end`. For each year it reads the candidate movie codes of
  `year-YYYY.json`, fetches the movie info of every code that has no cache file
  yet, and saves a nine-field record, stopping once `--max` records are saved.
  With `--audiacc recent|all` it also scans eight weekly box-office reports and
  stores the largest cumulative audience (`audiAcc`) it finds. The quota error
  320011 ends the run with exit status 0.
- `scripts/build_indices.py` normalises every cached record into one row of
  the movie index. It also gathers the directors and actors of all records into
  the person index. Six record shapes are read: `directors`, `actors`, `casts`,
  `staffs`, `actorsNm` and `directorNm`.
- `scripts/backfill_people.py` visits the cached records that have no people,
  in sorted path order. Within a call budget it fetches the movie info and
  rewrites `directors` and `actors` with the standard fields.

JSON is the datatype `PyValue.Value`, and Python truthiness is `PyValue.Truthy`.
An exception the code does not catch is `Wrappers.Result.Crash`. Scripts that
raise become a `Failed` run status or `ok == false`. The network, the clock, the
calendar and the file system are parameters:
- `DetailBuilder.Env` holds the API key's presence, the mode, `--max`, the year
  files, the replies of the two endpoints, date validity and the "recent" window;
- `Backfill.BackfillRun` takes the directory listing, a map from paths to parsed
  contents, and the reply oracle.

Some behaviours are stated as the code has them, although a reader might
expect otherwise:
- The code has no retry or backoff. One request is one attempt.
- `audiAcc` is overwritten and never merged monotonically. Cached files are
  never revisited.
- The week scan has no early stop after a value is found. It runs all eight
  weeks unless the quota stops it.
- People are sorted by `(peopleNm, peopleCd)`.
- The index is written even when it is empty.
- A malformed record is not skipped: `.strip()` on a non-string or `.get` on a
  non-dict raises, and the whole script stops. A string entry in `directors`
  or `actors` always raises, because `_push_person` calls `entry.get` before its
  `isinstance(entry, str)` test (`PeopleIndex.StrEntryCrashes`).
- A negative `--budget` gives `used == 0`, so the bound proved is
  `used <= max(budget, 0)`.

Modules, in dependency order:
- `wrappers.dfy`: Option and Result.
- `pytext.dfy`: `strip`, `split`, `join`, `replace`, `upper`, `int()`, `str()`.
- `order.dfy`: Python's string, tuple and path order, and a stable sort.
- `pyvalue.dfy`: JSON values, truthiness, `get`, `or`-chains, `repr`.
- `normalize.dfy`: `parse_open_dt`, `norm_grade`, `infer_rep_nation`, `as_list`.
- `movie_index.dfy`: `build_movies_index`.
- `people_index.dfy`: `_push_person`, `build_people_index`, and a class for the
  `defaultdict` the script updates in place.
- `detail_builder.dfy`: `norm_ymd`, `parse_date_ymd`, `collect_candidates`,
  `fetch_weekly_audi_acc`, `main`.
- `backfill.dfy`: `need_backfill`, `fetch_movie_info`, `backfill`.

## Model

| member | source | states |
|---|---|---|
| PyText.Strip | scripts/build_indices.py:28 | `s.strip()` is trimmed, no longer than `s`, and empty exactly when `s` is all whitespace |
| PyText.StripSlice | scripts/build_indices.py:28 | `s.strip()` is a slice `s[i..j]` and every character it cuts away is whitespace |
| PyText.StripIdempotent | scripts/build_indices.py:28 | stripping twice is stripping once |
| PyText.StripAvoids | scripts/build_indices.py:195 | strip only removes characters: one absent from the text is absent from the result |
| PyText.RemoveChar | scripts/build_indices.py:28 | `s.replace(c, "")` leaves no `c` |
| PyText.ReplaceChar | scripts/build_indices.py:195 | `s.replace(c, d)` keeps the length and swaps exactly the `c`s for `d` |
| PyText.Split | scripts/build_indices.py:195 | `split(sep)` gives at least one piece and no piece holds the separator |
| PyText.JoinSplit | scripts/build_indices.py:195 | joining the pieces of `split(sep)` with `sep` gives the text back |
| PyText.Digits | scripts/build_movie_details.py:45 | `re.sub(r"\D", "", s)` is all digits, no longer than `s`, and the identity on digit strings |
| PyText.UpperAscii | scripts/build_indices.py:48 | `upper()` keeps the length and raises exactly the ASCII lower-case letters |
| PyText.NatToStr | scripts/build_movie_details.py:86 | `str(n)` of a natural is a non-empty digit string |
| PyText.ParseIntOfIntToStr | scripts/build_indices.py:104 | `int(str(n)) == n` for every integer, negative ones included |
| PyText.ParseIntOfDigits | scripts/build_movie_details.py:95 | `int()` of a digit string is its decimal value |
| PyText.ParseIntOfNegative | scripts/build_indices.py:104 | `int("-" + d)` is minus the value of the digits `d` |
| PyText.ParseInt | scripts/build_indices.py:104 | defines `int(s)` on a str: surrounding whitespace, an optional sign, digits with single underscores, None where Python raises ValueError; its properties are ParseIntOfDigits, ParseIntOfNegative and ParseIntOfIntToStr |
| PyValue.FirstTruthy | scripts/build_indices.py:127-128 | the first truthy value of an `or`-chain of `get`s; none exactly when every key is falsy |
| PyValue.Truthy | scripts/backfill_people.py:60 | defines Python's `bool(v)` for JSON values (None, False, 0, "", [] and {} are falsy), used by every `if not x` and `or`-chain; FirstTruthy and RowOf state what follows from it |
| PyValue.RawText | scripts/build_indices.py:84 | `(d.get(k1) or … or "")` used as a str raises exactly when the first truthy value is not a str, else is that str or "" |
| PyValue.TextOf | scripts/build_indices.py:82 | `(d.get(k) or "").strip()` is trimmed and raises exactly when the raw text does |
| PyValue.Fields | scripts/build_indices.py:82 | `.get` succeeds exactly on a dict |
| PyValue.Repr | scripts/build_movie_details.py:59 | `repr` of a value is non-empty and starts with a non-space |
| PyValue.PyStrNonBlank | scripts/build_indices.py:95 | `str()` of a non-string JSON value never strips to "" |
| PyValue.PyStr | scripts/build_movie_details.py:45 | defines `str(v)`: a string is itself, anything else its repr; PyStrNonBlank and ParseIntPyStr state its properties |
| PyValue.ParseIntPyStr | scripts/build_movie_details.py:95 | `int(str(n)) == n` for a JSON integer |
| PyValue.PyEq | scripts/build_movie_details.py:92 | defines Python's `==` on JSON values: a bool equals the int it stands for, lists item by item, dicts by keys and values; PyEqReflexive, PyEqSymmetric, PyEqOfText and PyEqBoolInt state it |
| PyValue.PyEqReflexive | scripts/build_movie_details.py:92 | Python's `==` holds of every value with itself, nested lists and dicts included |
| PyValue.PyEqSymmetric | scripts/build_movie_details.py:92 | Python's `==` is symmetric |
| PyValue.PyEqOfText | scripts/build_movie_details.py:92 | None and a str equal exactly themselves |
| PyValue.PyEqBoolInt | scripts/build_movie_details.py:92 | `True == 1` and `False == 0` in both orders, and a bool differs from the other int |
| Order.StrLeTotalOrder | scripts/build_movie_details.py:107 | Python's `<=` on str is reflexive, total, antisymmetric and transitive |
| Order.StrLtStrictTotal | scripts/build_movie_details.py:107 | Python's `<` on str is a strict total order |
| Order.PairLeTotalOrder | scripts/build_indices.py:119 | tuple `<=` on string pairs is a total order |
| Order.PathLeTotalPreorder | scripts/backfill_people.py:54 | pathlib's path order is total and transitive |
| Order.SortBy | scripts/build_indices.py:119 | `list.sort(key=…)` is a permutation of its input |
| Order.SortBySorted | scripts/build_indices.py:119 | the sorted list is ordered by the key |
| Order.SortByStable | scripts/build_indices.py:205 | the sort is stable: the elements that tie on the key keep their order |
| Order.Least | scripts/build_movie_details.py:107 | a non-empty set of strings has a least element that belongs to it |
| Order.SortedElems | scripts/build_movie_details.py:107 | `sorted(set)` lists exactly the set's elements, strictly increasing, each once |
| Normalize.ParseOpenDt | scripts/build_indices.py:27-31 | the result is "" or eight digits; it is non-empty exactly when the stripped text without dashes is eight digits, and is then that text |
| Normalize.ParseOpenDtOfYmd | scripts/build_indices.py:27-31 | a YYYYMMDD text is kept as it is |
| Normalize.ParseOpenDtOfIso | scripts/build_indices.py:27-31 | a dashed YYYY-MM-DD date becomes YYYYMMDD |
| Normalize.ParseOpenDtIdempotent | scripts/build_indices.py:27-31 | `parse_open_dt` is idempotent |
| Normalize.ZerosLeast | scripts/build_indices.py:119 | no digit string sorts below "00000000" of its length, so the undated key is the least |
| Normalize.NormGrade | scripts/build_indices.py:33-45 | a known spelling maps to a canonical label; any other text is returned stripped |
| Normalize.CanonicalLabelsAreFixed | scripts/build_indices.py:35-44 | every canonical label is a spelling of itself |
| Normalize.NormGradeIdempotent | scripts/build_indices.py:33-45 | `norm_grade` is idempotent |
| Normalize.NormGradeAllAges | scripts/build_indices.py:36-37 | both spellings of the all-ages label give 전체관람가 |
| Normalize.NormGradeTwelve | scripts/build_indices.py:38-39 | both spellings of the 12+ label give 12세이상관람가 |
| Normalize.NormGradeFifteen | scripts/build_indices.py:40-41 | both spellings of the 15+ label give 15세이상관람가 |
| Normalize.NormGradeAdult | scripts/build_indices.py:42-43 | both spellings of the adults-only label give "청소년 관람불가" |
| Normalize.KoreaOrForeign | scripts/build_indices.py:55 | "K" exactly when the text contains 한국, else "F" |
| Normalize.NationNames | scripts/build_indices.py:58 | one name per `nations` entry |
| Normalize.InferRepNation | scripts/build_indices.py:47-61 | the inferred nation is "K", "F" or "" |
| Normalize.NationFromText | scripts/build_indices.py:52-55 | the nationAlt/repNationNm loop yields "K", "F" or "" |
| Normalize.TextOr | scripts/build_indices.py:53-55 | one loop step either decides K/F, passes on to the fallback, or raises |
| Normalize.NationFromList | scripts/build_indices.py:56-60 | the `nations` fallback yields "K", "F" or "" |
| Normalize.ExplicitCodeWins | scripts/build_indices.py:48-50 | an explicit K/F code, in either case, decides alone, upper-cased; the other fields are not read |
| Normalize.NationAltDecides | scripts/build_indices.py:52-55 | a non-blank nationAlt decides the text loop by whether it contains 한국 |
| Normalize.NationAltWins | scripts/build_indices.py:47-55 | without an explicit code a non-blank nationAlt decides ahead of repNationNm and nations |
| Normalize.RepNationNmDecides | scripts/build_indices.py:52-55 | a non-blank repNationNm decides the text loop whatever nations holds |
| Normalize.RepNationNmWins | scripts/build_indices.py:47-55 | repNation, nationAlt and a non-blank repNationNm fix the result whatever nations holds |
| Normalize.AsList | scripts/build_indices.py:63-65 | `as_list` is empty exactly for None or []; a list gives its items and any other value the one-element list holding it |
| MovieIndex.GenreName | scripts/build_indices.py:92-96 | a genre name is trimmed; a non-dict entry gives `str(g).strip()` |
| MovieIndex.GenresOf | scripts/build_indices.py:90-98 | the genre list holds only non-blank trimmed names, at most one per entry |
| MovieIndex.GenresOfCleanNames | scripts/build_indices.py:90-98 | a list of clean genre names comes out unchanged |
| MovieIndex.CollectGenres | scripts/build_indices.py:90-98 | the genres loop computes `GenresOf` |
| MovieIndex.CrashSpreads | scripts/build_indices.py:90-98 | an exception on a prefix of the genres ends the whole loop |
| MovieIndex.AudiAccIgnoresCommas | scripts/build_indices.py:101-106 | thousands separators do not change the audience count |
| MovieIndex.AudiAccOfText | scripts/build_indices.py:101-106 | a count written as decimal text is read back exactly |
| MovieIndex.AudiAccOf | scripts/build_indices.py:101-106 | defines the audiAcc of a record: commas dropped from a string, None, "", "null" and whatever int() rejects give no value; AudiAccIgnoresCommas and AudiAccOfText state its properties |
| MovieIndex.YearOr | scripts/build_indices.py:112 | prdtYear if set, else the first four characters of openDt, else "" |
| MovieIndex.RowOf | scripts/build_indices.py:78-117 | a falsy record is skipped exactly; every row has an 8-digit or empty date, a K/F/"" nation, a production year whenever it has a date, and clean genres |
| MovieIndex.RowsOf | scripts/build_indices.py:76-117 | one row per truthy record, every row well-formed |
| MovieIndex.MovieLeTotalPreorder | scripts/build_indices.py:119 | the `(openDt or "00000000", movieCd)` key order is total and transitive |
| MovieIndex.MoviesIndexOf | scripts/build_indices.py:75-122 | defines the movie index as the loop's rows sorted by the key, with their count; BuildMoviesIndex computes it and states its shape |
| MovieIndex.BuildMoviesIndex | scripts/build_indices.py:75-122 | count is the number of rows, one per truthy record; the rows are sorted by the key and a permutation of the loop's rows |
| MovieIndex.CollectRows | scripts/build_indices.py:76-117 | the loop over the records computes `RowsOf` |
| MovieIndex.RowsCrashSpreads | scripts/build_indices.py:77-117 | an exception on one record ends the whole index build |
| MovieIndex.BuildRow | scripts/build_indices.py:78-117 | one loop iteration computes `RowOf` |
| MovieIndex.UndatedFirst | scripts/build_indices.py:119 | in the sorted index only undated rows (or 00000000) come before an undated row |
| MovieIndex.SameDateByCode | scripts/build_indices.py:119 | rows with the same open date are in movie code order |
| PeopleIndex.NormRole | scripts/build_indices.py:137-145 | a role naming 감독 becomes 감독; otherwise the actor hint gives 배우 |
| PeopleIndex.FiledKeepsOk | scripts/build_indices.py:147-153 | filing an entry keeps the bucket invariant: keys once in insertion order, records under their own key, roles set, dates normalised |
| PeopleIndex.FiledEffect | scripts/build_indices.py:147-153 | filing sets name and code, appends the film, keeps a set role, and changes no other key |
| PeopleIndex.Filed | scripts/build_indices.py:147-153 | defines the update under one key (name and code overwritten, role set once, film appended); FiledEffect and FiledKeepsOk state it |
| PeopleIndex.PushedKeepsOk | scripts/build_indices.py:125-153 | every successful `_push_person` keeps the bucket invariant |
| PeopleIndex.Pushed | scripts/build_indices.py:125-153 | defines `_push_person` on the accumulator, with a crash where the code raises; PushEffect, BlankNameDropped, StrEntryCrashes and PushedKeepsOk state it |
| PeopleIndex.BlankNameDropped | scripts/build_indices.py:127-134 | an entry without a usable name leaves the bucket unchanged |
| PeopleIndex.StrEntryCrashes | scripts/build_indices.py:127-134 | a string entry raises, because `entry.get` runs first |
| PeopleIndex.PushEffect | scripts/build_indices.py:135-153 | an accepted entry is filed under its code, or "NM:"+name without one, with name, code and film; other keys unchanged |
| PeopleIndex.NameEntryFiled | scripts/build_indices.py:196 | a name from actorsNm or directorNm is filed under "NM:"+name with role from the hint and an empty part |
| PeopleIndex.FirstRoleSticks | scripts/build_indices.py:151-152 | a key's first role is never overwritten |
| PeopleIndex.NewKeyRole | scripts/build_indices.py:137-152 | a new key gets 감독 when its role mentions 감독, 배우 for the actor hint otherwise, and never an empty role |
| PeopleIndex.NonBlankParts | scripts/build_indices.py:195 | the kept parts are non-blank and trimmed |
| PeopleIndex.SplitNamesClean | scripts/build_indices.py:193-196 | every name from actorsNm is non-blank, trimmed and free of both comma forms |
| PeopleIndex.PushAllKeepsOk | scripts/build_indices.py:168-180 | the loops over directors, actors and casts keep the invariant |
| PeopleIndex.RolePushedKeepsOk | scripts/build_indices.py:186-190 | the role tests of one staff entry keep the invariant |
| PeopleIndex.StaffPushedKeepsOk | scripts/build_indices.py:184-190 | one staff entry keeps the invariant |
| PeopleIndex.StaffPushedTwice | scripts/build_indices.py:183-190 | a staff entry whose role names both 감독 and 배우 is pushed twice: its key gets the same film appended two times and no other key changes |
| PeopleIndex.LoneEntryAsList | scripts/build_indices.py:63-65 | a lone entry that is neither None nor a list is handled as the one-element list holding it: pushed once when it is a dict or a str, otherwise skipped |
| PeopleIndex.PushStaffsKeepsOk | scripts/build_indices.py:183-190 | the staffs loop keeps the invariant |
| PeopleIndex.PushNamesKeepsOk | scripts/build_indices.py:195-196 | the actorsNm loop keeps the invariant |
| PeopleIndex.NamesPushedKeepsOk | scripts/build_indices.py:192-201 | actorsNm then directorNm keep the invariant |
| PeopleIndex.ShapesPushedKeepsOk | scripts/build_indices.py:167-201 | all six shapes of one record keep the invariant |
| PeopleIndex.RecordPushedKeepsOk | scripts/build_indices.py:158-201 | one loop iteration over the detail files keeps the invariant |
| PeopleIndex.CollectOk | scripts/build_indices.py:156-201 | the accumulator after the whole cache satisfies the invariant |
| PeopleIndex.FilmLeTotalPreorder | scripts/build_indices.py:205 | the reversed `openDt or "00000000"` order is total and transitive |
| PeopleIndex.PersonLeTotalPreorder | scripts/build_indices.py:207 | the `(peopleNm, peopleCd)` order is total and transitive |
| PeopleIndex.ValuesListRecords | scripts/build_indices.py:204-207 | `people.values()` lists every record exactly once |
| PeopleIndex.PeopleIndexShape | scripts/build_indices.py:155-212 | count equals the number of people, one per accumulated key; each person is its record with sorted films; the list is ordered by (name, code) with distinct keys |
| PeopleIndex.PeopleIndexOf | scripts/build_indices.py:155-212 | defines the people index as the accumulated records with sorted films, sorted by (name, code), with their count; PeopleIndexShape states its shape |
| PeopleIndex.SortedFilmsShape | scripts/build_indices.py:204-205 | each filmography is a permutation of the films, newest first, with ties in appending order |
| PeopleIndex.UndatedLast | scripts/build_indices.py:205 | in a sorted filmography an undated film is followed only by undated ones |
| PeopleIndex.PeopleStrictlyOrdered | scripts/build_indices.py:207 | (peopleNm, peopleCd) strictly increases along the person index |
| PeopleIndex.PushAllCrashSpreads | scripts/build_indices.py:168-180 | an exception in the list loop ends it |
| PeopleIndex.PushStaffsCrashSpreads | scripts/build_indices.py:183-190 | an exception in the staffs loop ends it |
| PeopleIndex.PushNamesCrashSpreads | scripts/build_indices.py:195-196 | an exception in the names loop ends it |
| PeopleIndex.CollectCrashSpreads | scripts/build_indices.py:158-201 | an exception on one record ends the index build |
| PeopleIndex.PeopleBucket.constructor | scripts/build_indices.py:156 | the `defaultdict` starts empty |
| PeopleIndex.PeopleBucket.Push | scripts/build_indices.py:125-153 | `_push_person` on the object succeeds exactly when the value model does, with the same new state |
| PeopleIndex.PeopleBucket.File | scripts/build_indices.py:147-153 | the update of `bucket[key]` in place |
| PeopleIndex.PeopleBucket.PushEach | scripts/build_indices.py:168-180 | the directors, actors and casts loops in place |
| PeopleIndex.PeopleBucket.PushStaffList | scripts/build_indices.py:183-190 | the staffs loop in place |
| PeopleIndex.PeopleBucket.PushNameList | scripts/build_indices.py:195-196 | the actorsNm names loop in place |
| PeopleIndex.PeopleBucket.PushRecord | scripts/build_indices.py:158-201 | one record's six shapes in place |
| PeopleIndex.PeopleBucket.PushShapes | scripts/build_indices.py:167-190 | the four list shapes in place |
| PeopleIndex.PeopleBucket.PushTexts | scripts/build_indices.py:192-201 | actorsNm and directorNm in place |
| PeopleIndex.PeopleBucket.SortAllFilms | scripts/build_indices.py:204-205 | every filmography sorted in place |
| PeopleIndex.BuildPeopleIndex | scripts/build_indices.py:155-212 | the method computes the person index, and its count is the number of people |
| DetailBuilder.NormYmd | scripts/build_movie_details.py:43-45 | at most eight digits; "" for a falsy value |
| DetailBuilder.NormYmdOfYmd | scripts/build_movie_details.py:43-45 | a YYYYMMDD date is kept |
| DetailBuilder.NormYmdOfIso | scripts/build_movie_details.py:43-45 | a YYYY-MM-DD date becomes YYYYMMDD |
| DetailBuilder.NormYmdIdempotent | scripts/build_movie_details.py:43-45 | `norm_ymd` is idempotent |
| DetailBuilder.ParseDateYmd | scripts/build_movie_details.py:47-50 | no date exactly when the normalised text is not eight digits; a date is those eight valid digits; an invalid calendar date raises |
| DetailBuilder.ListCodes | scripts/build_movie_details.py:103 | `set(list)` of a list of string codes holds each of them; any other item is a crash (see Left out) |
| DetailBuilder.CodesOf | scripts/build_movie_details.py:103 | defines `set(j.get("movieCds") or [])`: a list's codes, a string's characters, a dict's keys, a crash for a truthy non-iterable; ListCodes, Candidates and ListedCodesAreCandidates state its properties |
| DetailBuilder.RowCode | scripts/build_movie_details.py:105 | defines `str(row.get("movieCd") or "").strip()`; RowCodesTrimmed and RowCodesAreCandidates state that the kept codes are non-blank, trimmed candidates |
| DetailBuilder.RowCodes | scripts/build_movie_details.py:104-106 | only non-empty codes are added |
| DetailBuilder.Candidates | scripts/build_movie_details.py:99-107 | `sorted(cds)` is strictly increasing and holds exactly the candidate set |
| DetailBuilder.MissingYearEmpty | scripts/build_movie_details.py:102 | a missing year file has no candidates |
| DetailBuilder.RowCodesAreCandidates | scripts/build_movie_details.py:104-107 | every movieList code is non-blank, trimmed and a candidate |
| DetailBuilder.ListedCodesAreCandidates | scripts/build_movie_details.py:103-107 | once collect_candidates succeeds on a movieCds list, each entry is a string and a candidate; the model makes a non-string entry a crash where Python keeps it (see Left out) |
| DetailBuilder.CollectCandidates | scripts/build_movie_details.py:99-107 | the method computes `Candidates` |
| DetailBuilder.AddRowCodes | scripts/build_movie_details.py:104-106 | the add loop succeeds exactly when every row yields a code, and adds exactly those codes |
| DetailBuilder.AddRowCode | scripts/build_movie_details.py:104-106 | one row of the add loop: it raises exactly on a non-dict row, and otherwise the set is the base plus the codes so far |
| DetailBuilder.RowCodesCrashSpreads | scripts/build_movie_details.py:104-106 | an exception on one row ends `collect_candidates` |
| DetailBuilder.MaxWith | scripts/build_movie_details.py:96 | the running maximum is at least both arguments and is one of them |
| DetailBuilder.WeekOf | scripts/build_movie_details.py:76-90 | defines how one weekly reply is read: skipped on a bad status, non-JSON or another fault, the quota on code 320011, a crash on a malformed reply, else its items; QuotaWeek, OtherRepliesSkip and NumericQuotaCode state it |
| DetailBuilder.ItemValue | scripts/build_movie_details.py:91-95 | defines what one item gives: nothing for another movie (compared with Python's `==`, `PyEq`) or a missing audiAcc, else `int(str(a).replace(",", ""))`, a crash where that raises; ItemsAccIsMax, BoolCodeMatches and ScanItem state it |
| DetailBuilder.BoolCodeMatches | scripts/build_movie_details.py:92-96 | an item whose movieCd is `True` matches the movie code 1, as Python's `True == 1` makes it, and its audiAcc counts |
| DetailBuilder.ItemsAccIsMax | scripts/build_movie_details.py:91-96 | the items loop yields the maximum of the earlier value and every matching audiAcc |
| DetailBuilder.ScanIsMax | scripts/build_movie_details.py:72-97 | while the scan goes on, `max_acc` is the maximum of every matching audiAcc seen so far |
| DetailBuilder.ScanMonotone | scripts/build_movie_details.py:96 | `max_acc` never decreases from one week to a later one |
| DetailBuilder.QuotaStops | scripts/build_movie_details.py:83-88 | a quota fault in week i ends the scan with RATE_LIMIT for every later horizon |
| DetailBuilder.StopStays | scripts/build_movie_details.py:72-97 | once stopped, the scan's outcome never changes |
| DetailBuilder.OtherRepliesSkip | scripts/build_movie_details.py:77-89 | a non-200 reply, or a fault other than 320011, only skips the week |
| DetailBuilder.NumericQuotaCode | scripts/build_movie_details.py:86-87 | a numeric error code 320011 is the quota fault too |
| DetailBuilder.QuotaWeek | scripts/build_movie_details.py:83-88 | a week stops the scan exactly on the quota fault |
| DetailBuilder.ScanItems | scripts/build_movie_details.py:91-96 | the items loop computes `ItemsAcc` |
| DetailBuilder.ScanItem | scripts/build_movie_details.py:92-95 | one item of the loop computes `ItemValue`: a non-dict item or an unparsable audiAcc raises, another movie or a missing audiAcc adds nothing |
| DetailBuilder.ItemsCrashSpreads | scripts/build_movie_details.py:91-96 | an exception on one item ends the scan |
| DetailBuilder.ScanWeek | scripts/build_movie_details.py:76-96 | one week of the loop computes `WeekStep` |
| DetailBuilder.FetchWeeklyAudiAcc | scripts/build_movie_details.py:63-97 | the result is the scan's; at most `weeks` requests; all of them without a stop; on RATE_LIMIT the last request was the quota fault and the scan was still going before it |
| DetailBuilder.WeeklyAcc | scripts/build_movie_details.py:63-97 | defines fetch_weekly_audi_acc: None without a key, a ValueError for a bad date, else the scan of `range(weeks)`; FetchWeeklyAudiAcc computes it and ScanIsMax states its maximum |
| DetailBuilder.ExitCode | scripts/build_movie_details.py:188-193 | exit status 0 exactly when the run did not fail; a quota stop is a success |
| DetailBuilder.InfoOf | scripts/build_movie_details.py:52-61 | defines fetch_movie_info: an `http=` error on a bad status, a `fault=` error on a fault, else movieInfo, a crash where the code raises; InfoQuotaStops and ProcessKey state it |
| DetailBuilder.DetailRecord | scripts/build_movie_details.py:151-162 | defines the saved record's nine fields; SavedRecord and RecordStepSaved state them |
| DetailBuilder.AllowScan | scripts/build_movie_details.py:165-173 | defines `allow`: every movie in all mode, a parseable open date inside the window in recent mode; NoScanNoAudiAcc and ProcessRecord state it |
| DetailBuilder.KeyStep | scripts/build_movie_details.py:139-181 | defines the outcome of one uncached movie (skipped, saved, quota stop or crash); ProcessKey computes it and SavedRecord, InfoQuotaStops and Take state its properties |
| DetailBuilder.RecordStepSaved | scripts/build_movie_details.py:151-181 | a saved record holds movieCd and the normalised open date, and has audiAcc only when the scan ran and found that maximum |
| DetailBuilder.SavedRecord | scripts/build_movie_details.py:139-162 | a movie is saved only after an info dict came back, and the record is built from it |
| DetailBuilder.NoScanNoAudiAcc | scripts/build_movie_details.py:165 | without the API key, or with `--audiacc off`, no record has audiAcc |
| DetailBuilder.InfoQuotaStops | scripts/build_movie_details.py:140-146 | an info error stops the run exactly when it contains 320011 |
| DetailBuilder.ProcessRecord | scripts/build_movie_details.py:150-181 | the method computes the record and its audiAcc step |
| DetailBuilder.ProcessKey | scripts/build_movie_details.py:139-181 | the method computes one movie's step |
| DetailBuilder.Take | scripts/build_movie_details.py:139-184 | one uncached movie keeps the run sound and gives `After` of its step: appended to the fetched movies; a quota hit stops the run, a crash fails it, a save stores the record and counts it, a skip changes nothing else |
| DetailBuilder.After | scripts/build_movie_details.py:139-184 | the run after one movie extends the fetched movies by it, has failed exactly on a crash and has stopped exactly on a quota hit |
| DetailBuilder.AfterSound | scripts/build_movie_details.py:139-184 | taking an uncached, unfetched movie below the cap keeps every clause of `Sound` |
| DetailBuilder.AfterCrashes | scripts/build_movie_details.py:139-184 | a run failed by a step has a crashed movie among those fetched |
| DetailBuilder.CrashedLast | scripts/build_movie_details.py:124-193 | in a run that stops as `Sound` demands, a crashed movie is the last one fetched and the run has failed |
| DetailBuilder.AfterStops | scripts/build_movie_details.py:139-184 | a step from a completed run keeps the stopping clauses of `Sound`: a quota hit or crash on the new movie is the last one fetched and sets the status |
| DetailBuilder.AfterStored | scripts/build_movie_details.py:139-184 | taking a new movie below the cap keeps the storing clauses of `Sound` |
| DetailBuilder.AfterCounted | scripts/build_movie_details.py:139-184 | any step keeps the cap, the cached files, the fetched movies distinct and uncached, and one new file per save |
| DetailBuilder.AfterKeepsSaved | scripts/build_movie_details.py:139-185 | after a step every fetched movie whose step saves is stored with its record |
| DetailBuilder.AfterNewSaved | scripts/build_movie_details.py:139-185 | after a step every stored file not in the first cache is the saved record of a fetched movie |
| DetailBuilder.Visit | scripts/build_movie_details.py:134-184 | a cached code leaves the run unchanged; otherwise the run becomes `After` of the code's step, fetched after every earlier code of the year; a failure has a crashed movie |
| DetailBuilder.RunYear | scripts/build_movie_details.py:131-184 | the year's fetched movies are its candidates, in increasing code order, the run stays sound, and it fails only with a crashed movie |
| DetailBuilder.NotYetTaken | scripts/build_movie_details.py:107 | a sorted set has no repeats, so no code is visited twice in a year |
| DetailBuilder.RunYearFile | scripts/build_movie_details.py:125-184 | a crashing year file fails the run; otherwise its candidates are visited in code order; a failure comes from a crashed movie or from this year's file |
| DetailBuilder.FetchedYears | scripts/build_movie_details.py:125 | appending one year's movies after the earlier years' keeps the (year, code) order |
| DetailBuilder.RunDetails | scripts/build_movie_details.py:118-193 | stated below this table |
| Backfill.NoPeopleListIff | scripts/backfill_people.py:33-36 | the loop finds no non-empty list exactly when none of the keys holds one |
| Backfill.NeedBackfillIff | scripts/backfill_people.py:31-40 | a record needs backfill exactly when none of actors, directors, casts, staffs is a non-empty list and actorsNm and directorNm are falsy |
| Backfill.NeedBackfill | scripts/backfill_people.py:31-40 | defines need_backfill; NeedBackfillIff states it field by field |
| Backfill.FetchOf | scripts/backfill_people.py:42-47 | a fetch fails exactly when the request raises, the status is 4xx or 5xx, or the body is not JSON |
| Backfill.Stripped | scripts/backfill_people.py:90 | a stripped field is trimmed |
| Backfill.PersonRow | scripts/backfill_people.py:87-101 | each entry is a dict; the row keeps its stripped peopleCd and peopleNm; directors get 감독 and actors 배우; only actors carry a stripped cast |
| Backfill.RowValue | scripts/backfill_people.py:89-101 | the saved dict has exactly peopleCd, peopleNm, repRoleNm, and cast for actors, with the row's values |
| Backfill.MapOkShape | scripts/backfill_people.py:87-101 | the append loop succeeds exactly when every entry does, and gives their rows in order |
| Backfill.MapEach | scripts/backfill_people.py:87-101 | the append loop computes `MapOk` |
| Backfill.RebuildEffect | scripts/backfill_people.py:85-106 | a rewrite keeps every other field, stores the rebuilt lists, has a director or an actor, and needs no further backfill |
| Backfill.Rebuild | scripts/backfill_people.py:85-106 | defines the rewrite of one file from a reply, None when no director or actor came back; RebuildEffect states what it keeps and what it replaces |
| Backfill.RefilledDone | scripts/backfill_people.py:63 | a rewritten file is not backfilled again |
| Backfill.UsedFacts | scripts/backfill_people.py:59-82 | a used call means budget was left and the file was a dict needing people; a rewrite is what its reply rebuilds |
| Backfill.FileStep | scripts/backfill_people.py:59-110 | defines what one file comes to (continue, skip, budget stop, call, crash); ProcessFile computes it and UsedFacts and FetchFailOutcome state its cases |
| Backfill.RefillKeepsOk | scripts/backfill_people.py:82-107 | a rewrite within budget keeps the loop invariant |
| Backfill.StillOriginal | scripts/backfill_people.py:63 | a file that still needs people has not been rewritten by the loop |
| Backfill.ApplyKeepsOk | scripts/backfill_people.py:59-110 | every outcome but a stop keeps used within budget, updated within used, and each file unchanged or refilled |
| Backfill.StepKeepsOk | scripts/backfill_people.py:59-110 | one loop iteration keeps the invariant |
| Backfill.GoKeepsOk | scripts/backfill_people.py:58-110 | the whole loop keeps the invariant |
| Backfill.Go | scripts/backfill_people.py:58-110 | defines the loop over the files; GoKeepsOk, GoStep, BudgetStops and BackfillBounds state its properties |
| Backfill.BackfillBounds | scripts/backfill_people.py:49-113 | used ≤ max(budget, 0); updated ≤ used; the same files; each one unchanged or rewritten from its own fetched info |
| Backfill.FailedFetchIsFree | scripts/backfill_people.py:75-80 | a fetch that raises uses no budget and only counts as skipped |
| Backfill.FetchFailOutcome | scripts/backfill_people.py:70-80 | a file that needs people, has a movie code and meets a failed fetch is skipped as a failed fetch |
| Backfill.BudgetStops | scripts/backfill_people.py:67-68 | once the budget is spent, the next file that needs people ends the loop |
| Backfill.NoKeyNoRun | scripts/backfill_people.py:50-51 | without the API key the run raises before reading, fetching or writing anything |
| Backfill.ListedFilters | scripts/backfill_people.py:53 | the listing drops exactly the .gitkeep files |
| Backfill.WorklistSorted | scripts/backfill_people.py:53-54 | the files are visited in increasing path order, each listed non-.gitkeep file once |
| Backfill.ProcessFile | scripts/backfill_people.py:59-110 | one file of the loop computes `FileStep` |
| Backfill.GoStep | scripts/backfill_people.py:58-68 | a budget stop or an exception ends the loop; any other outcome continues with the updated tally |
| Backfill.Count | scripts/backfill_people.py:64-110 | the counters and the file after one outcome |
| Backfill.RunBackfill | scripts/backfill_people.py:49-113 | the method computes `BackfillRun`, whose properties are `BackfillBounds` and `WorklistSorted` |

`DetailBuilder.RunDetails` ensures that the run is `Sound`, that every fetched movie lies in the year range and is a candidate of its year, that the movies were fetched in increasing (year, code) order, and that a failed run has a crashed movie among those fetched or a year in the range whose year file makes `collect_candidates` raise (so a run over no years does not fail). `Sound` says:
- at most `max(--max, 0)` records are saved;
- every existing cache file is kept, and no cached movie is fetched;
- no movie is fetched twice;
- every fetched movie whose step saves a record is stored with that record;
- every new file is the record its movie's step computes, and there is one new file per save;
- a quota error comes only from the last movie fetched, and exactly when the run stopped for the quota;
- a crash comes only from the last movie fetched, which failed the run.

## Left out

- Network, disk and console I/O: requests, `json.load`/`json.dump`, `os.makedirs`, the
  `.tmp` file and atomic `os.replace`, `print`, and `time.sleep`. They are replaced by
  oracles and maps; the rate-shaping sleep has no observable effect on the model.
- `generatedAt: int(time.time())` in both indices is left out, because it comes from the
  clock. The writes of `movies.json` and `people.json` are the returned index values.
  `unknown.json` is always the constant `{"peopleNm": "", "films": []}`
  (scripts/build_indices.py:210) and is not modelled.
- argparse: `main` takes the years, `--max` and `--audiacc` as parameters. `int()` on the
  command-line strings is not modelled.
- `datetime` arithmetic (`datetime.now()`, `timedelta`, the `--audiacc-days` window and
  the `targetDt` of each week) is an oracle. `Env.valid` says whether an 8-digit date
  is a calendar date. `Env.recent` stands for the recent window. `Env.weekly` gives
  the reply for week i of a movie. With no parsable open date the scan uses `now()`,
  and the same oracle covers it.
- The movie-info oracle is keyed by the movie code alone, so the same code in two years
  gets the same reply.
- Floating-point JSON numbers are not in `Value`: a float `audiAcc`, `showTm` or code is
  not modelled.
- PyValue.Repr: does not escape quotes, backslashes or control characters inside
  strings, always quotes with `'`, and lists dict keys in code-point order instead of
  insertion order. For None, bools, ints and strs `str()` is exact; the difference shows
  only for a list or dict value, wherever `str()` meets one: the open date in `norm_ymd`
  (`DetailBuilder.NormYmd`), a genre entry that is not a dict (`MovieIndex.GenreName`), a
  `movieList` row's movieCd (`DetailBuilder.RowCode`), a fault's errorCode
  (`DetailBuilder.QuotaCode`) and the fault text of an info error (`DetailBuilder.InfoOf`).
  For example `norm_ymd({"b": "1", "a": "2"})` is "12" in Python and "21" in the model.
- Strings are sequences of code points. Digit tests and `upper()` are ASCII-only. Python's
  `isdigit()` also accepts other Unicode digits, which `re.sub(r"\D")` would keep as well;
  this is not modelled.
- `int()` is modelled for decimal text with an optional sign and underscores between
  digits. Surrounding Unicode whitespace beyond `str.isspace` is not modelled.
- Glob and pathlib: a path is its list of parts. The `.gitkeep` filter looks at the last
  part, and the recursive glob's own order is the input order.
- The order in which `build_indices.py` walks the cache is the input sequence. The movie
  index sorts it away. The person index depends on it in three ways: the last push of a
  key sets its peopleNm and peopleCd, the first push sets its repRoleNm, and films with
  the same date keep their appending order under the stable sort.
- `build_year_cache.py`, `update_data.py`, `run_backfill.py` and `analyze_data.py` are not
  part of this model.
- DetailBuilder.ListCodes: a `movieCds` item that is not a str is modelled as a crash.
  Python's `set()` keeps any hashable item (an int, None, a bool), and `sorted()` orders
  the set when all of its items are of one kind, so `{"movieCds": [20231234]}` makes
  Python fetch and save movie 20231234 where the model fails the run. Modelling such
  codes would need codes of every JSON type and Python's ordering between them.
- DetailBuilder.ListedCodesAreCandidates: "every movieCds entry is a string" holds only
  because of the `ListCodes` gap above; for string codes it states what the source does.
- DetailBuilder.RunDetails: does not state that every uncached candidate before the cap
  or the stop was fetched (completeness). It states that the fetched movies are distinct,
  uncached candidates in the right order and that the run obeys `Sound`; the whole
  visiting order is only implicit in the method's code.
- Backfill.BackfillBounds: states `used <= max(budget, 0)` instead of `used <= budget`,
  because a negative budget still gives `used == 0`.
