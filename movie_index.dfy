/** The movie search index of scripts/build_indices.py: one row per cached
    detail record, sorted by (open date, movie code). */
module MovieIndex {
  import opened Wrappers
  import opened PyText
  import opened PyValue
  import opened Normalize
  import opened Order

  datatype MovieRow = MovieRow(
    movieCd: string,
    movieNm: string,
    openDt: string,
    prdtYear: string,
    repNation: string,
    grade: string,
    genres: seq<string>,
    audiAcc: Option<int>)

  datatype MoviesIndex = MoviesIndex(count: nat, movies: seq<MovieRow>)

  // ---------- genres ----------

  /** The name of one genre entry: genreNm or name of a dict, str() of anything else, stripped. */
  function GenreName(g: Value): (r: Result<string>)
    ensures r.Ok? ==> Trimmed(r.value)
    ensures !g.Obj? ==> r == Ok(Strip(PyStr(g)))
  {
    if g.Obj? then TextOf(g.fields, ["genreNm", "name"]) else Ok(Strip(PyStr(g)))
  }

  /** The genre names appended by the loop over as_list(genres): blank names are dropped. */
  function GenresOf(gs: seq<Value>): (r: Result<seq<string>>)
    ensures r.Ok? ==> |r.value| <= |gs|
    ensures r.Ok? ==> forall i :: 0 <= i < |r.value| ==> r.value[i] != "" && Trimmed(r.value[i])
  {
    if gs == [] then Ok([])
    else
      var init :- GenresOf(gs[..|gs| - 1]);
      var nm :- GenreName(gs[|gs| - 1]);
      Ok(if nm != "" then init + [nm] else init)
  }

  /** The str values holding the given names. */
  function StrValues(names: seq<string>): (r: seq<Value>)
    ensures |r| == |names| && forall i :: 0 <= i < |r| ==> r[i] == Str(names[i])
  {
    if names == [] then [] else StrValues(names[..|names| - 1]) + [Str(names[|names| - 1])]
  }

  /** A list of clean genre names comes out as it went in. */
  lemma {:induction false} GenresOfCleanNames(names: seq<string>)
    requires forall i :: 0 <= i < |names| ==> names[i] != "" && Trimmed(names[i])
    ensures GenresOf(StrValues(names)) == Ok(names)
  {
    if names != [] {
      var gs := StrValues(names);
      var init := names[..|names| - 1];
      assert gs[..|gs| - 1] == StrValues(init);
      GenresOfCleanNames(init);
      StripOfTrimmed(names[|names| - 1]);
      assert init + [names[|names| - 1]] == names;
    }
  }

  /** The genres loop of build_movies_index. */
  method CollectGenres(gs: seq<Value>) returns (r: Result<seq<string>>)
    ensures r == GenresOf(gs)
  {
    var out: seq<string> := [];
    var i := 0;
    while i < |gs|
      invariant 0 <= i <= |gs|
      invariant GenresOf(gs[..i]) == Ok(out)
    {
      assert gs[..i + 1][..i] == gs[..i];
      var nm := GenreName(gs[i]);
      if nm.Crash? {
        assert GenresOf(gs[..i + 1]).Crash?;
        r := Crash;
        CrashSpreads(gs, i + 1);
        return;
      }
      if nm.value != "" {
        out := out + [nm.value];
      }
      i := i + 1;
    }
    assert gs[..i] == gs;
    r := Ok(out);
  }

  /** Once a prefix of the genres fails, the whole list fails. */
  lemma {:induction false} CrashSpreads(gs: seq<Value>, n: nat)
    requires n <= |gs| && GenresOf(gs[..n]).Crash?
    ensures GenresOf(gs).Crash?
    decreases |gs| - n
  {
    if n < |gs| {
      assert gs[..n + 1][..n] == gs[..n];
      CrashSpreads(gs, n + 1);
    } else {
      assert gs[..n] == gs;
    }
  }

  // ---------- audiAcc ----------

  /** The audiAcc of a row: commas are removed from a string, None, "" and "null"
      give no value, and whatever int() rejects (a TypeError or ValueError the
      code catches) gives no value as well. */
  function AudiAccOf(v: Value): Option<int> {
    match v
    case Null => None
    case Bool(b) => Some(if b then 1 else 0)
    case Int(i) => Some(i)
    case Str(s) =>
      var t := RemoveChar(s, ',');
      if t == "" || t == "null" then None else ParseInt(t)
    case List(_) => None
    case Obj(_) => None
  }

  lemma RemoveCharIdempotent(s: string, c: char)
    ensures RemoveChar(RemoveChar(s, c), c) == RemoveChar(s, c)
  {
    RemoveAbsent(RemoveChar(s, c), c);
  }

  /** Thousands separators do not matter: removing the commas first gives the same count. */
  lemma AudiAccIgnoresCommas(s: string)
    ensures AudiAccOf(Str(s)) == AudiAccOf(Str(RemoveChar(s, ',')))
  {
    RemoveCharIdempotent(s, ',');
  }

  /** A count written as decimal text is read back exactly. */
  lemma AudiAccOfText(n: int)
    ensures AudiAccOf(Str(IntToStr(n))) == Some(n)
  {
    var t := IntToStr(n);
    NoCommaInNatToStr(if n < 0 then -n else n);
    assert ',' !in t;
    RemoveAbsent(t, ',');
    ParseIntOfIntToStr(n);
    assert t != "null" by {
      if n >= 0 { assert IsDigit(t[0]); } else { assert t[0] == '-'; }
    }
  }

  // ---------- rows ----------

  /** The properties every row has: a normalised date and country code, a
      production year that falls back to the open year, and clean genres. */
  predicate RowOk(row: MovieRow) {
    && (row.openDt == "" || IsYmd(row.openDt))
    && (row.repNation == "K" || row.repNation == "F" || row.repNation == "")
    && (row.prdtYear == "" ==> row.openDt == "")
    && (forall i :: 0 <= i < |row.genres| ==> row.genres[i] != "" && Trimmed(row.genres[i]))
  }

  /** prdtYear or openDt[:4] or "". */
  function YearOr(prdtYear: string, openDt: string): (r: string)
    ensures prdtYear != "" ==> r == prdtYear
    ensures prdtYear == "" && |openDt| >= 4 ==> r == openDt[..4]
    ensures prdtYear == "" && openDt == "" ==> r == ""
  {
    if prdtYear != "" then prdtYear else if openDt != "" then openDt[..if |openDt| < 4 then |openDt| else 4] else ""
  }

  /** The row built from one cached record; None for a record that is skipped. */
  function RowOf(data: Value): (r: Result<Option<MovieRow>>)
    ensures r.Ok? && r.value.Some? ==> RowOk(r.value.value)
    ensures !Truthy(data) <==> r == Ok(None)
  {
    if !Truthy(data) then Ok(None)
    else
      var d :- Fields(data);
      var movieCd :- TextOf(d, ["movieCd"]);
      var movieNm :- TextOf(d, ["movieNm"]);
      var rawDt :- RawText(d, ["openDt", "openDtStr"]);
      var openDt := ParseOpenDt(rawDt);
      var prdtYear :- TextOf(d, ["prdtYear"]);
      var repNation :- InferRepNation(d);
      var rawGrade :- RawText(d, ["grade", "watchGradeNm"]);
      var genres :- GenresOf(AsList(Get(d, "genres")));
      Ok(Some(MovieRow(movieCd, movieNm, openDt, YearOr(prdtYear, openDt), repNation,
                       NormGrade(rawGrade), genres, AudiAccOf(Get(d, "audiAcc")))))
  }

  /** The number of records that are not skipped. */
  function CountTruthy(cache: seq<Value>): nat {
    if cache == [] then 0
    else CountTruthy(cache[..|cache| - 1]) + (if Truthy(cache[|cache| - 1]) then 1 else 0)
  }

  /** The rows list after the loop over the cache, in cache order. */
  function RowsOf(cache: seq<Value>): (r: Result<seq<MovieRow>>)
    ensures r.Ok? ==> |r.value| == CountTruthy(cache)
    ensures r.Ok? ==> forall i :: 0 <= i < |r.value| ==> RowOk(r.value[i])
  {
    if cache == [] then Ok([])
    else
      var rows :- RowsOf(cache[..|cache| - 1]);
      var row :- RowOf(cache[|cache| - 1]);
      Ok(if row.Some? then rows + [row.value] else rows)
  }

  // ---------- sorting ----------

  /** The sort key (openDt or "00000000", movieCd). */
  function SortKey(row: MovieRow): (string, string) {
    (if row.openDt != "" then row.openDt else "00000000", row.movieCd)
  }

  predicate MovieLe(a: MovieRow, b: MovieRow) {
    PairLe(SortKey(a), SortKey(b))
  }

  lemma MovieLeTotalPreorder()
    ensures TotalPreorder(MovieLe)
  {
    PairLeTotalOrder();
  }

  /** The whole index: the rows sorted, and their count. */
  function MoviesIndexOf(cache: seq<Value>): Result<MoviesIndex> {
    var rows :- RowsOf(cache);
    var movies := SortBy(rows, MovieLe);
    Ok(MoviesIndex(|movies|, movies))
  }

  /** build_movies_index: the rows of the loop, sorted, and their count. */
  method BuildMoviesIndex(cache: seq<Value>) returns (r: Result<MoviesIndex>)
    ensures r == MoviesIndexOf(cache)
    ensures r.Ok? ==> r.value.count == |r.value.movies| == CountTruthy(cache)
    ensures r.Ok? ==> SortedBy(r.value.movies, MovieLe)
    ensures r.Ok? ==> multiset(r.value.movies) == multiset(RowsOf(cache).value)
  {
    var rows := CollectRows(cache);
    if rows.Crash? {
      return Crash;
    }
    MovieLeTotalPreorder();
    SortBySorted(rows.value, MovieLe);
    var movies := SortBy(rows.value, MovieLe);
    r := Ok(MoviesIndex(|movies|, movies));
  }

  /** The loop of build_movies_index: one row appended per record that is not skipped. */
  method CollectRows(cache: seq<Value>) returns (r: Result<seq<MovieRow>>)
    ensures r == RowsOf(cache)
  {
    var rows: seq<MovieRow> := [];
    var i := 0;
    while i < |cache|
      invariant 0 <= i <= |cache|
      invariant RowsOf(cache[..i]) == Ok(rows)
    {
      assert cache[..i + 1][..i] == cache[..i];
      var row := BuildRow(cache[i]);
      if row.Crash? {
        RowsCrashSpreads(cache, i + 1);
        return Crash;
      }
      if row.value.Some? {
        rows := rows + [row.value.value];
      }
      i := i + 1;
    }
    assert cache[..i] == cache;
    r := Ok(rows);
  }

  lemma {:induction false} RowsCrashSpreads(cache: seq<Value>, n: nat)
    requires n <= |cache| && RowsOf(cache[..n]).Crash?
    ensures RowsOf(cache).Crash?
    decreases |cache| - n
  {
    if n < |cache| {
      assert cache[..n + 1][..n] == cache[..n];
      RowsCrashSpreads(cache, n + 1);
    } else {
      assert cache[..n] == cache;
    }
  }

  /** One iteration of the loop: the fields of one record. */
  method BuildRow(data: Value) returns (r: Result<Option<MovieRow>>)
    ensures r == RowOf(data)
  {
    if !Truthy(data) {
      return Ok(None);
    }
    if !data.Obj? {
      return Crash;
    }
    var d := data.fields;
    var movieCd := TextOf(d, ["movieCd"]);
    var movieNm := TextOf(d, ["movieNm"]);
    var rawDt := RawText(d, ["openDt", "openDtStr"]);
    var prdtYear := TextOf(d, ["prdtYear"]);
    var repNation := InferRepNation(d);
    var rawGrade := RawText(d, ["grade", "watchGradeNm"]);
    if movieCd.Crash? || movieNm.Crash? || rawDt.Crash? || prdtYear.Crash? || repNation.Crash? || rawGrade.Crash? {
      return Crash;
    }
    var genres := CollectGenres(AsList(Get(d, "genres")));
    if genres.Crash? {
      return Crash;
    }
    var openDt := ParseOpenDt(rawDt.value);
    r := Ok(Some(MovieRow(movieCd.value, movieNm.value, openDt, YearOr(prdtYear.value, openDt), repNation.value,
                          NormGrade(rawGrade.value), genres.value, AudiAccOf(Get(d, "audiAcc")))));
  }

  // ---------- properties of the sorted index ----------

  /** Rows without an open date come first: a row sorted before an undated one
      is undated too, or dated 00000000. */
  lemma UndatedFirst(movies: seq<MovieRow>, i: int, j: int)
    requires SortedBy(movies, MovieLe) && forall k :: 0 <= k < |movies| ==> RowOk(movies[k])
    requires 0 <= i < j < |movies| && movies[j].openDt == ""
    ensures movies[i].openDt == "" || movies[i].openDt == "00000000"
  {
    assert MovieLe(movies[i], movies[j]);
    var t := movies[i].openDt;
    if t != "" && t != "00000000" {
      assert RowOk(movies[i]);
      assert Zeros(8) == "00000000";
      assert StrLt(t, "00000000");
      ZerosLeast(t);
    }
  }

  /** Rows with the same open date are ordered by movie code. */
  lemma SameDateByCode(movies: seq<MovieRow>, i: int, j: int)
    requires SortedBy(movies, MovieLe)
    requires 0 <= i < j < |movies| && movies[i].openDt == movies[j].openDt
    ensures StrLe(movies[i].movieCd, movies[j].movieCd)
  {
    assert MovieLe(movies[i], movies[j]);
    StrLeTotalOrder();
  }
}
