/** The detail-cache builder of scripts/build_movie_details.py: candidate movie
    codes per year, the optional weekly audience scan, and the main loop that
    fills movies/{year}/{movieCd}.json under a cap and stops cleanly on quota. */
module DetailBuilder {
  import opened Wrappers
  import opened PyText
  import opened PyValue
  import opened Order
  import Normalize

  // ---------- norm_ymd and parse_date_ymd ----------

  /** norm_ymd: "" for a falsy value, else the first eight digits of str(v). */
  function NormYmd(v: Value): (r: string)
    ensures AllDigits(r) && |r| <= 8
    ensures !Truthy(v) ==> r == ""
  {
    if !Truthy(v) then ""
    else
      var t := Digits(PyStr(v));
      if |t| <= 8 then t else t[..8]
  }

  lemma {:induction false} DigitsConcat(a: string, b: string)
    ensures Digits(a + b) == Digits(a) + Digits(b)
  {
    if a == [] {
      assert a + b == b;
    } else {
      assert (a + b)[0] == a[0] && (a + b)[1..] == a[1..] + b;
      DigitsConcat(a[1..], b);
    }
  }

  /** A date already in YYYYMMDD form is kept as it is. */
  lemma NormYmdOfYmd(d: string)
    requires Normalize.IsYmd(d)
    ensures NormYmd(Str(d)) == d
  {
  }

  /** A dashed ISO date YYYY-MM-DD normalises to YYYYMMDD. */
  lemma NormYmdOfIso(d: string)
    requires Normalize.IsYmd(d)
    ensures NormYmd(Str(Normalize.Iso(d))) == d
  {
    DigitsOfIso(d);
    assert PyStr(Str(Normalize.Iso(d))) == Normalize.Iso(d);
  }

  /** The digits of YYYY-MM-DD are YYYYMMDD. */
  lemma DigitsOfIso(d: string)
    requires Normalize.IsYmd(d)
    ensures Digits(Normalize.Iso(d)) == d
  {
    Normalize.AllDigitsSlice(d, 0, 4);
    Normalize.AllDigitsSlice(d, 4, 6);
    Normalize.AllDigitsSlice(d, 6, 8);
    var iso := Normalize.Iso(d);
    assert iso == d[..4] + ("-" + (d[4..6] + ("-" + d[6..])));
    DigitsConcat(d[..4], "-" + (d[4..6] + ("-" + d[6..])));
    DashDropped(d[4..6] + ("-" + d[6..]));
    DigitsConcat(d[4..6], "-" + d[6..]);
    DashDropped(d[6..]);
    assert Digits(iso) == d[..4] + d[4..6] + d[6..] == d;
  }

  /** The dash of a dashed date is not a digit. */
  lemma DashDropped(s: string)
    ensures Digits("-" + s) == Digits(s)
  {
    assert ("-" + s)[1..] == s;
  }

  /** norm_ymd is idempotent on its own output. */
  lemma NormYmdIdempotent(v: Value)
    ensures NormYmd(Str(NormYmd(v))) == NormYmd(v)
  {
  }

  /** What parse_date_ymd gives: None for a normalised string that is not
      eight characters long, else a datetime, or a ValueError when the eight
      digits are not a calendar date (valid is that calendar test). */
  datatype DateOutcome = NoDate | Date(ymd: string) | BadDate

  function ParseDateYmd(v: Value, valid: string -> bool): (r: DateOutcome)
    ensures r.NoDate? <==> |NormYmd(v)| != 8
    ensures r.Date? ==> Normalize.IsYmd(r.ymd) && valid(r.ymd) && r.ymd == NormYmd(v)
    ensures r.BadDate? ==> !valid(NormYmd(v))
  {
    var s := NormYmd(v);
    if |s| != 8 then NoDate
    else if valid(s) then Date(s)
    else BadDate
  }

  // ---------- replies of the box-office API ----------

  /** The body of a reply: r.json() either raises or yields a value. */
  datatype Body = NotJson | Json(v: Value)

  /** One HTTP exchange: requests raising (timeout, connection error), or a
      reply with its status code and body. */
  datatype HttpReply = Unreachable | Reply(status: int, body: Body)

  // ---------- collect_candidates ----------

  /** year-YYYY.json as load_json sees it: missing or unreadable, or parsed. */
  datatype YearFile = Missing | Parsed(v: Value)

  /** set(j.get("movieCds") or []): a list of codes, a string's characters or a
      dict's keys; a truthy non-iterable raises. Python also keeps hashable
      items that are not strings (ints, None), and sorted() orders them when
      they are all of one kind; the model takes only strings and raises on
      any other item. */
  function CodesOf(mc: Value): Result<set<string>> {
    match mc
    case List(items) => ListCodes(items)
    case Str(s) => Ok(set i | 0 <= i < |s| :: [s[i]])
    case Obj(m) => Ok(m.Keys)
    case _ => if Truthy(mc) then Crash else Ok({})
  }

  /** set(items) for a list of codes, defined for string items only. */
  function ListCodes(items: seq<Value>): (r: Result<set<string>>)
    ensures r.Ok? <==> forall i :: 0 <= i < |items| ==> items[i].Str?
    ensures r.Ok? ==> forall i :: 0 <= i < |items| ==> items[i].s in r.value
  {
    if items == [] then Ok({})
    else
      var init :- ListCodes(items[..|items| - 1]);
      var last := items[|items| - 1];
      if last.Str? then Ok(init + {last.s}) else Crash
  }

  /** The non-empty str(row.get("movieCd") or "").strip() of each row; a row
      that is not a dict raises. */
  function RowCodes(rows: seq<Value>): (r: Result<seq<string>>)
    ensures r.Ok? ==> forall i :: 0 <= i < |r.value| ==> r.value[i] != ""
  {
    if rows == [] then Ok([])
    else
      var init :- RowCodes(rows[..|rows| - 1]);
      var row :- Fields(rows[|rows| - 1]);
      var cd := RowCode(row);
      Ok(if cd != "" then init + [cd] else init)
  }

  /** str(row.get("movieCd") or "").strip() */
  function RowCode(row: map<string, Value>): string {
    Strip(PyStr(OrElse(row, ["movieCd"], Str(""))))
  }

  lemma RowCodesSnoc(rows: seq<Value>, i: int)
    requires 0 <= i < |rows| && RowCodes(rows[..i]).Ok?
    ensures !rows[i].Obj? ==> RowCodes(rows[..i + 1]).Crash?
    ensures rows[i].Obj? && RowCode(rows[i].fields) != "" ==>
      RowCodes(rows[..i + 1]) == Ok(RowCodes(rows[..i]).value + [RowCode(rows[i].fields)])
    ensures rows[i].Obj? && RowCode(rows[i].fields) == "" ==> RowCodes(rows[..i + 1]) == RowCodes(rows[..i])
  {
    var s := rows[..i + 1];
    assert s[..|s| - 1] == rows[..i];
    assert s[|s| - 1] == rows[i];
  }

  /** The parsed year file, or the default {"movieList": [], "movieCds": []}. */
  function YearJson(yf: YearFile): Value {
    match yf
    case Missing => Obj(map["movieList" := List([]), "movieCds" := List([])])
    case Parsed(v) => v
  }

  /** `for row in j.get("movieList") or []`: only a list can be walked without
      raising, since iterating a str or dict yields strs, which have no .get. */
  function RowsOf(ml: Value): Result<seq<Value>> {
    if ml.List? then Ok(ml.items) else if Truthy(ml) then Crash else Ok([])
  }

  /** set(s) */
  function Elems(s: seq<string>): set<string> {
    set x | x in s
  }

  lemma ElemsSnoc(s: seq<string>, x: string)
    ensures Elems(s + [x]) == Elems(s) + {x}
  {
    assert forall y :: y in s + [x] <==> y in s || y == x;
  }

  /** The set of candidate codes of one year. */
  function CandidateSet(yf: YearFile): Result<set<string>> {
    var j :- Fields(YearJson(yf));
    var base :- CodesOf(OrElse(j, ["movieCds"], List([])));
    var rows :- RowsOf(OrElse(j, ["movieList"], List([])));
    var codes :- RowCodes(rows);
    Ok(base + Elems(codes))
  }

  /** collect_candidates: sorted(cds). */
  function Candidates(yf: YearFile): (r: Result<seq<string>>)
    ensures r.Ok? <==> CandidateSet(yf).Ok?
    ensures r.Ok? ==> StrictlySorted(r.value)
    ensures r.Ok? ==> forall x :: x in r.value <==> x in CandidateSet(yf).value
  {
    var cds :- CandidateSet(yf);
    Ok(SortedElems(cds))
  }

  /** A missing year file has no candidates. */
  lemma MissingYearEmpty()
    ensures Candidates(Missing) == Ok([])
  {
    var j := YearJson(Missing).fields;
    assert OrElse(j, ["movieCds"], List([])) == List([]);
    assert OrElse(j, ["movieList"], List([])) == List([]);
    var none: seq<Value> := [];
    assert CodesOf(List(none)) == Ok({});
    var noCodes: seq<string> := [];
    assert Fields(YearJson(Missing)) == Ok(j);
    assert RowsOf(List([])) == Ok(none);
    assert RowCodes(none) == Ok(noCodes);
    assert CandidateSet(Missing).Ok?;
    var cs := CandidateSet(Missing).value;
    assert forall x :: x !in cs;
    assert cs == {};
    assert SortedElems({}) == [];
  }

  lemma {:induction false} RowCodesTrimmed(rows: seq<Value>)
    requires RowCodes(rows).Ok?
    ensures forall i :: 0 <= i < |RowCodes(rows).value| ==> Trimmed(RowCodes(rows).value[i])
  {
    if rows != [] {
      var init := rows[..|rows| - 1];
      RowCodesTrimmed(init);
      var cd := RowCode(rows[|rows| - 1].fields);
      TrimmedSnoc(RowCodes(init).value, if cd != "" then [cd] else []);
    }
  }

  /** Appending trimmed codes to trimmed codes gives trimmed codes. */
  lemma TrimmedSnoc(xs: seq<string>, ys: seq<string>)
    requires forall i :: 0 <= i < |xs| ==> Trimmed(xs[i])
    requires forall i :: 0 <= i < |ys| ==> Trimmed(ys[i])
    ensures forall i :: 0 <= i < |xs + ys| ==> Trimmed((xs + ys)[i])
  {
    forall i | 0 <= i < |xs + ys|
      ensures Trimmed((xs + ys)[i])
    {
      if i < |xs| {
        assert (xs + ys)[i] == xs[i];
      } else {
        assert (xs + ys)[i] == ys[i - |xs|];
      }
    }
  }

  /** Every code read from movieList is non-blank and trimmed, and it is a candidate. */
  lemma RowCodesAreCandidates(yf: YearFile, i: int)
    requires Fields(YearJson(yf)).Ok?
    requires CandidateSet(yf).Ok?
    requires RowCodes(RowsOf(OrElse(YearJson(yf).fields, ["movieList"], List([]))).value).Ok?
    requires 0 <= i < |RowCodes(RowsOf(OrElse(YearJson(yf).fields, ["movieList"], List([]))).value).value|
    ensures var cd := RowCodes(RowsOf(OrElse(YearJson(yf).fields, ["movieList"], List([]))).value).value[i];
            cd != "" && Trimmed(cd) && cd in Candidates(yf).value
  {
    RowCodesTrimmed(RowsOf(OrElse(YearJson(yf).fields, ["movieList"], List([]))).value);
  }

  /** Every code listed in movieCds is a candidate. */
  lemma ListedCodesAreCandidates(yf: YearFile, i: int)
    requires Fields(YearJson(yf)).Ok?
    requires CandidateSet(yf).Ok?
    requires OrElse(YearJson(yf).fields, ["movieCds"], List([])).List?
    requires 0 <= i < |OrElse(YearJson(yf).fields, ["movieCds"], List([])).items|
    ensures OrElse(YearJson(yf).fields, ["movieCds"], List([])).items[i].Str?
    ensures OrElse(YearJson(yf).fields, ["movieCds"], List([])).items[i].s in Candidates(yf).value
  {
  }

  /** collect_candidates: the codes of movieCds, grown over movieList, then sorted. */
  method CollectCandidates(yf: YearFile) returns (r: Result<seq<string>>)
    ensures r == Candidates(yf)
  {
    var j := YearJson(yf);
    if !j.Obj? {
      return Crash;
    }
    var base := CodesOf(OrElse(j.fields, ["movieCds"], List([])));
    var rows := RowsOf(OrElse(j.fields, ["movieList"], List([])));
    if base.Crash? || rows.Crash? {
      return Crash;
    }
    var cds := AddRowCodes(base.value, rows.value);
    if cds.Crash? {
      return Crash;
    }
    r := Ok(SortedElems(cds.value));
  }

  /** The loop `for row in ...: if cd: cds.add(cd)`. */
  method AddRowCodes(base: set<string>, rows: seq<Value>) returns (r: Result<set<string>>)
    ensures r.Ok? <==> RowCodes(rows).Ok?
    ensures r.Ok? ==> r.value == base + Elems(RowCodes(rows).value)
  {
    var cds := base;
    ghost var codes: seq<string> := [];
    var i := 0;
    while i < |rows|
      invariant 0 <= i <= |rows|
      invariant RowCodes(rows[..i]) == Ok(codes)
      invariant cds == base + Elems(codes)
    {
      var ok;
      ok, cds, codes := AddRowCode(base, cds, codes, rows, i);
      if !ok {
        RowCodesCrashSpreads(rows, i + 1);
        return Crash;
      }
      i := i + 1;
    }
    assert rows[..i] == rows;
    r := Ok(cds);
  }

  /** The body of that loop for row i: a row that is not a dict raises. */
  method AddRowCode(ghost base: set<string>, cds: set<string>, ghost codes: seq<string>, rows: seq<Value>, i: int)
    returns (ok: bool, cds': set<string>, ghost codes': seq<string>)
    requires 0 <= i < |rows| && RowCodes(rows[..i]) == Ok(codes) && cds == base + Elems(codes)
    ensures ok <==> RowCodes(rows[..i + 1]).Ok?
    ensures ok ==> RowCodes(rows[..i + 1]) == Ok(codes') && cds' == base + Elems(codes')
  {
    RowCodesSnoc(rows, i);
    var row := rows[i];
    if !row.Obj? {
      return false, cds, codes;
    }
    var cd := RowCode(row.fields);
    if cd != "" {
      ElemsSnoc(codes, cd);
      return true, cds + {cd}, codes + [cd];
    }
    return true, cds, codes;
  }

  lemma {:induction false} RowCodesCrashSpreads(rows: seq<Value>, n: nat)
    requires n <= |rows| && RowCodes(rows[..n]).Crash?
    ensures RowCodes(rows).Crash?
    decreases |rows| - n
  {
    if n < |rows| {
      assert rows[..n + 1][..n] == rows[..n];
      RowCodesCrashSpreads(rows, n + 1);
    } else {
      assert rows[..n] == rows;
    }
  }

  // ---------- fetch_weekly_audi_acc ----------

  /** What one weekly box-office reply amounts to: a week skipped, the quota
      error, an exception, or the list of items to scan. */
  datatype Week = Skip | Quota | Broken | Items(items: seq<Value>)

  /** The quota fault: str(err.get("errorCode") or err.get("errorcode") or "") == "320011". */
  predicate QuotaCode(err: map<string, Value>) {
    PyStr(OrElse(err, ["errorCode", "errorcode"], Str(""))) == "320011"
  }

  function WeekOf(reply: HttpReply): Week {
    match reply
    case Unreachable => Broken
    case Reply(status, body) =>
      if status != 200 then Skip
      else match body
        case NotJson => Skip
        case Json(js) =>
          if !js.Obj? then Broken
          else
            var fault := OrElse(js.fields, ["faultInfo", "faultResult"], Null);
            if Truthy(fault) then
              if !fault.Obj? then Broken else if QuotaCode(fault.fields) then Quota else Skip
            else
              var bor := OrElse(js.fields, ["boxOfficeResult"], Obj(map[]));
              if !bor.Obj? then Broken
              else
                var items := OrElse(bor.fields, ["weeklyBoxOfficeList"], List([]));
                if items.List? then Items(items.items) else Broken
  }

  /** What one item contributes: None when it is another movie (by Python's ==) or has no
      audiAcc, the value of int(str(a).replace(",", "")) otherwise; Crash when
      the item is not a dict or int() raises. */
  function ItemValue(movieCd: Value, item: Value): Result<Option<int>> {
    var it :- Fields(item);
    if !PyEq(Get(it, "movieCd"), movieCd) then Ok(None)
    else
      var a := Get(it, "audiAcc");
      if a == Null then Ok(None)
      else match ParseInt(RemoveChar(PyStr(a), ','))
        case None => Crash
        case Some(n) => Ok(Some(n))
  }

  /** Python's == lets an item whose movieCd is True count for the movie code 1. */
  lemma BoolCodeMatches(a: nat)
    ensures ItemValue(Int(1), Obj(map["movieCd" := Bool(true), "audiAcc" := Int(a)])) == Ok(Some(a))
  {
    var it := map["movieCd" := Bool(true), "audiAcc" := Int(a)];
    assert Get(it, "movieCd") == Bool(true) && Get(it, "audiAcc") == Int(a);
    ItemValueOfMatch(Int(1), it, a);
  }

  /** A matching item with a natural audiAcc contributes that count. */
  lemma ItemValueOfMatch(movieCd: Value, it: map<string, Value>, a: nat)
    requires PyEq(Get(it, "movieCd"), movieCd) && Get(it, "audiAcc") == Int(a)
    ensures ItemValue(movieCd, Obj(it)) == Ok(Some(a))
  {
    assert PyStr(Int(a)) == NatToStr(a);
    NoCommaInNatToStr(a);
    RemoveAbsent(NatToStr(a), ',');
    ParseIntPyStr(a);
  }

  /** a if max_acc is None else max(max_acc, a) */
  function MaxWith(acc: Option<int>, a: int): (r: Option<int>)
    ensures r.Some? && a <= r.value && (acc.Some? ==> acc.value <= r.value)
    ensures r == Some(a) || r == acc
  {
    if acc.None? || acc.value < a then Some(a) else acc
  }

  /** The running maximum of the loop over one week's items. */
  function ItemsAcc(acc: Option<int>, movieCd: Value, items: seq<Value>): Result<Option<int>> {
    if items == [] then Ok(acc)
    else
      var m :- ItemsAcc(acc, movieCd, items[..|items| - 1]);
      var v :- ItemValue(movieCd, items[|items| - 1]);
      Ok(if v.Some? then MaxWith(m, v.value) else m)
  }

  /** The audiAcc values of the matching items, in order. */
  function ItemValues(movieCd: Value, items: seq<Value>): Result<seq<int>> {
    if items == [] then Ok([])
    else
      var vs :- ItemValues(movieCd, items[..|items| - 1]);
      var v :- ItemValue(movieCd, items[|items| - 1]);
      Ok(if v.Some? then vs + [v.value] else vs)
  }

  /** m is the maximum of acc (when present) and of xs: None exactly when there
      is nothing, otherwise an upper bound that is attained. */
  predicate IsMaxOf(m: Option<int>, acc: Option<int>, xs: seq<int>) {
    && (m.None? <==> acc.None? && xs == [])
    && (m.Some? ==> (acc.Some? ==> acc.value <= m.value) && (forall i :: 0 <= i < |xs| ==> xs[i] <= m.value))
    && (m.Some? ==> m == acc || m.value in xs)
  }

  /** The running maximum over the items is the maximum of the matching values,
      and both crash on the same inputs. */
  lemma {:induction false} ItemsAccIsMax(acc: Option<int>, movieCd: Value, items: seq<Value>)
    ensures ItemsAcc(acc, movieCd, items).Ok? <==> ItemValues(movieCd, items).Ok?
    ensures ItemsAcc(acc, movieCd, items).Ok? ==>
      IsMaxOf(ItemsAcc(acc, movieCd, items).value, acc, ItemValues(movieCd, items).value)
  {
    if items != [] {
      var init := items[..|items| - 1];
      ItemsAccIsMax(acc, movieCd, init);
      var m := ItemsAcc(acc, movieCd, init);
      var vs := ItemValues(movieCd, init);
      var v := ItemValue(movieCd, items[|items| - 1]);
      if m.Ok? && v.Ok? && v.value.Some? {
        MaxStep(m.value, acc, vs.value, v.value.value);
      }
    }
  }

  /** Taking one more value into the running maximum keeps it the maximum. */
  lemma MaxStep(m: Option<int>, acc: Option<int>, xs: seq<int>, a: int)
    requires IsMaxOf(m, acc, xs)
    ensures IsMaxOf(MaxWith(m, a), acc, xs + [a])
  {
    var ys := xs + [a];
    assert forall i :: 0 <= i < |xs| ==> ys[i] == xs[i];
    if m.Some? && m != acc {
      assert m.value in xs;
      assert m.value in ys;
    }
  }

  /** The scan after n weeks: the running maximum, or the quota stop, or a crash. */
  function ScanWeeks(movieCd: Value, weekly: nat -> HttpReply, n: nat): AccOutcome {
    if n == 0 then Acc(None)
    else match ScanWeeks(movieCd, weekly, n - 1)
      case Acc(acc) => WeekStep(acc, movieCd, weekly(n - 1))
      case stop => stop
  }

  datatype AccOutcome = Acc(acc: Option<int>) | RateLimited | AccCrash

  /** One iteration of the loop over weeks. */
  function WeekStep(acc: Option<int>, movieCd: Value, reply: HttpReply): AccOutcome {
    match WeekOf(reply)
    case Skip => Acc(acc)
    case Quota => RateLimited
    case Broken => AccCrash
    case Items(items) =>
      match ItemsAcc(acc, movieCd, items)
      case Ok(m) => Acc(m)
      case Crash => AccCrash
  }

  /** fetch_weekly_audi_acc: None without an API key; a ValueError from an
      invalid open date; otherwise the scan over range(weeks). */
  function WeeklyAcc(hasKey: bool, movieCd: Value, date: DateOutcome, weekly: nat -> HttpReply, weeks: int): AccOutcome {
    if !hasKey then Acc(None)
    else if date.BadDate? then AccCrash
    else ScanWeeks(movieCd, weekly, if weeks > 0 then weeks else 0)
  }

  /** The values a week contributes to the maximum. */
  function WeekValues(movieCd: Value, reply: HttpReply): seq<int> {
    match WeekOf(reply)
    case Items(items) => if ItemValues(movieCd, items).Ok? then ItemValues(movieCd, items).value else []
    case _ => []
  }

  function Seen(movieCd: Value, weekly: nat -> HttpReply, n: nat): seq<int> {
    if n == 0 then [] else Seen(movieCd, weekly, n - 1) + WeekValues(movieCd, weekly(n - 1))
  }

  lemma IsMaxOfConcat(m0: Option<int>, m: Option<int>, xs: seq<int>, ys: seq<int>)
    requires IsMaxOf(m0, None, xs) && IsMaxOf(m, m0, ys)
    ensures IsMaxOf(m, None, xs + ys)
  {
    var zs := xs + ys;
    assert forall i :: 0 <= i < |xs| ==> zs[i] == xs[i];
    assert forall i :: 0 <= i < |ys| ==> zs[|xs| + i] == ys[i];
    if m.Some? {
      if m == m0 {
        assert m.value in xs;
      } else {
        assert m.value in ys;
      }
      assert m.value in zs;
    }
  }

  /** While the scan goes on, max_acc is the maximum of every matching audiAcc
      seen so far, and None when there was none. */
  lemma {:induction false} ScanIsMax(movieCd: Value, weekly: nat -> HttpReply, n: nat)
    requires ScanWeeks(movieCd, weekly, n).Acc?
    ensures IsMaxOf(ScanWeeks(movieCd, weekly, n).acc, None, Seen(movieCd, weekly, n))
  {
    if n > 0 {
      var prev := ScanWeeks(movieCd, weekly, n - 1);
      ScanIsMax(movieCd, weekly, n - 1);
      var reply := weekly(n - 1);
      var m := ScanWeeks(movieCd, weekly, n).acc;
      match WeekOf(reply)
      case Skip =>
        assert Seen(movieCd, weekly, n) == Seen(movieCd, weekly, n - 1) + [];
      case Items(items) =>
        ItemsAccIsMax(prev.acc, movieCd, items);
        IsMaxOfConcat(prev.acc, m, Seen(movieCd, weekly, n - 1), ItemValues(movieCd, items).value);
    }
  }

  /** max_acc never decreases: a maximum found after n weeks is at most the one
      after any later week, and the scan cannot go on past a stop. */
  lemma {:induction false} ScanMonotone(movieCd: Value, weekly: nat -> HttpReply, n: nat, k: nat)
    requires n <= k && ScanWeeks(movieCd, weekly, k).Acc?
    ensures ScanWeeks(movieCd, weekly, n).Acc?
    ensures ScanWeeks(movieCd, weekly, n).acc.Some? ==>
      ScanWeeks(movieCd, weekly, k).acc.Some? && ScanWeeks(movieCd, weekly, n).acc.value <= ScanWeeks(movieCd, weekly, k).acc.value
    decreases k - n
  {
    if n < k {
      ScanMonotone(movieCd, weekly, n + 1, k);
      var acc := ScanWeeks(movieCd, weekly, n).acc;
      var reply := weekly(n);
      if WeekOf(reply).Items? {
        ItemsAccIsMax(acc, movieCd, WeekOf(reply).items);
      }
    }
  }

  /** The quota fault aborts the scan at once: no later week is requested and
      the outcome stays RATE_LIMIT. */
  lemma {:induction false} QuotaStops(movieCd: Value, weekly: nat -> HttpReply, i: nat, k: nat)
    requires ScanWeeks(movieCd, weekly, i).Acc? && WeekOf(weekly(i)) == Quota
    requires i < k
    ensures ScanWeeks(movieCd, weekly, k) == RateLimited
    decreases k - i
  {
    StopStays(movieCd, weekly, i + 1, k);
  }

  /** Once the scan has stopped (quota or crash), its outcome no longer changes. */
  lemma {:induction false} StopStays(movieCd: Value, weekly: nat -> HttpReply, n: nat, k: nat)
    requires !ScanWeeks(movieCd, weekly, n).Acc? && n <= k
    ensures ScanWeeks(movieCd, weekly, k) == ScanWeeks(movieCd, weekly, n)
    decreases k - n
  {
    if n < k {
      StopStays(movieCd, weekly, n + 1, k);
    }
  }

  /** A reply that is not 200, and a fault other than 320011, only skip the week. */
  lemma OtherRepliesSkip(acc: Option<int>, movieCd: Value, status: int, body: Body)
    requires status != 200 || (body.Json? && body.v.Obj? &&
      var fault := OrElse(body.v.fields, ["faultInfo", "faultResult"], Null);
      Truthy(fault) && fault.Obj? && !QuotaCode(fault.fields))
    ensures WeekStep(acc, movieCd, Reply(status, body)) == Acc(acc)
  {
  }

  /** The quota code may come as a number: str(320011) is "320011". */
  lemma NumericQuotaCode(err: map<string, Value>)
    requires OrElse(err, ["errorCode", "errorcode"], Str("")) == Int(320011)
    ensures QuotaCode(err)
  {
    assert PyStr(Int(320011)) == IntToStr(320011) == NatToStr(320011);
    assert NatToStr(3) == "3";
    assert NatToStr(32) == "32";
    assert NatToStr(320) == "320";
    assert NatToStr(3200) == "3200";
    assert NatToStr(32001) == "32001";
    assert NatToStr(320011) == "320011";
  }

  /** The loop over one week's items, keeping the running maximum. */
  method ScanItems(acc: Option<int>, movieCd: Value, items: seq<Value>) returns (r: Result<Option<int>>)
    ensures r == ItemsAcc(acc, movieCd, items)
  {
    var maxAcc := acc;
    var i := 0;
    while i < |items|
      invariant 0 <= i <= |items|
      invariant ItemsAcc(acc, movieCd, items[..i]) == Ok(maxAcc)
    {
      var v := ScanItem(movieCd, items[i]);
      ItemsAccSnoc(acc, movieCd, items, i, maxAcc);
      if v.Crash? {
        ItemsCrashSpreads(acc, movieCd, items, i + 1);
        return Crash;
      }
      if v.value.Some? {
        maxAcc := MaxWith(maxAcc, v.value.value);
      }
      i := i + 1;
    }
    assert items[..i] == items;
    return Ok(maxAcc);
  }

  lemma ItemsAccSnoc(acc: Option<int>, movieCd: Value, items: seq<Value>, i: int, m: Option<int>)
    requires 0 <= i < |items| && ItemsAcc(acc, movieCd, items[..i]) == Ok(m)
    ensures ItemValue(movieCd, items[i]).Crash? ==> ItemsAcc(acc, movieCd, items[..i + 1]).Crash?
    ensures ItemValue(movieCd, items[i]) == Ok(None) ==> ItemsAcc(acc, movieCd, items[..i + 1]) == Ok(m)
    ensures ItemValue(movieCd, items[i]).Ok? && ItemValue(movieCd, items[i]).value.Some? ==>
              ItemsAcc(acc, movieCd, items[..i + 1]) == Ok(MaxWith(m, ItemValue(movieCd, items[i]).value.value))
  {
    var s := items[..i + 1];
    assert s[..|s| - 1] == items[..i];
    assert s[|s| - 1] == items[i];
  }

  /** The body of that loop for one item. */
  method ScanItem(movieCd: Value, it: Value) returns (v: Result<Option<int>>)
    ensures v == ItemValue(movieCd, it)
  {
    if !it.Obj? {
      return Crash;
    }
    if !PyEq(Get(it.fields, "movieCd"), movieCd) {
      return Ok(None);
    }
    var a := Get(it.fields, "audiAcc");
    if a == Null {
      return Ok(None);
    }
    var n := ParseInt(RemoveChar(PyStr(a), ','));
    if n.None? {
      return Crash;
    }
    return Ok(Some(n.value));
  }

  lemma {:induction false} ItemsCrashSpreads(acc: Option<int>, movieCd: Value, items: seq<Value>, n: nat)
    requires n <= |items| && ItemsAcc(acc, movieCd, items[..n]).Crash?
    ensures ItemsAcc(acc, movieCd, items).Crash?
    decreases |items| - n
  {
    if n < |items| {
      assert items[..n + 1][..n] == items[..n];
      ItemsCrashSpreads(acc, movieCd, items, n + 1);
    } else {
      assert items[..n] == items;
    }
  }

  /** The scan stops for the quota exactly on a quota fault. */
  lemma QuotaWeek(acc: Option<int>, movieCd: Value, reply: HttpReply)
    ensures WeekStep(acc, movieCd, reply) == RateLimited <==> WeekOf(reply) == Quota
  {
  }

  /** One iteration of the loop over weeks. */
  method ScanWeek(acc: Option<int>, movieCd: Value, reply: HttpReply) returns (r: AccOutcome)
    ensures r == WeekStep(acc, movieCd, reply)
  {
    match WeekOf(reply) {
      case Skip => r := Acc(acc);
      case Quota => r := RateLimited;
      case Broken => r := AccCrash;
      case Items(items) =>
        var m := ScanItems(acc, movieCd, items);
        r := if m.Ok? then Acc(m.value) else AccCrash;
    }
  }

  /** fetch_weekly_audi_acc: calls counts the weekly reports requested. */
  method FetchWeeklyAudiAcc(hasKey: bool, movieCd: Value, date: DateOutcome, weekly: nat -> HttpReply, weeks: int)
    returns (r: AccOutcome, calls: nat)
    ensures r == WeeklyAcc(hasKey, movieCd, date, weekly, weeks)
    ensures calls <= if weeks > 0 then weeks else 0
    ensures r.Acc? && hasKey ==> calls == if weeks > 0 then weeks else 0
    ensures r.RateLimited? ==> 1 <= calls && WeekOf(weekly(calls - 1)) == Quota && ScanWeeks(movieCd, weekly, calls - 1).Acc?
  {
    if !hasKey {
      return Acc(None), 0;
    }
    if date.BadDate? {
      return AccCrash, 0;
    }
    var n := if weeks > 0 then weeks else 0;
    var maxAcc: Option<int> := None;
    calls := 0;
    var i := 0;
    while i < n
      invariant 0 <= i <= n && calls == i
      invariant ScanWeeks(movieCd, weekly, i) == Acc(maxAcc)
    {
      var reply := weekly(i);
      calls := calls + 1;
      var step := ScanWeek(maxAcc, movieCd, reply);
      assert ScanWeeks(movieCd, weekly, i + 1) == step;
      if !step.Acc? {
        StopStays(movieCd, weekly, i + 1, n);
        if step.RateLimited? {
          QuotaWeek(maxAcc, movieCd, reply);
        }
        return step, calls;
      }
      maxAcc := step.acc;
      i := i + 1;
    }
    return Acc(maxAcc), calls;
  }

  // ---------- main ----------

  datatype AudiMode = Off | Recent | All

  /** The cache file movies/{year}/{code}.json. */
  datatype CacheKey = CacheKey(year: int, code: string)

  /** The command line and the outside world: the API key's presence, --audiacc,
      --max, the year files, the movie-info and weekly box-office replies, the
      calendar test of datetime() and the --audiacc-days window measured from now. */
  datatype Env = Env(
    hasKey: bool,
    mode: AudiMode,
    maxCount: int,
    yearFile: int -> YearFile,
    info: string -> HttpReply,
    weekly: (CacheKey, nat) -> HttpReply,
    valid: string -> bool,
    recent: string -> bool)

  /** How the run ends: normally, by the quota stop (RuntimeError("RATE_LIMIT")
      turned into sys.exit(0)), or by an exception the script does not catch. */
  datatype RunStatus = Completed | StoppedByQuota | Failed

  /** The process exit status. */
  function ExitCode(status: RunStatus): (code: int)
    ensures code == 0 <==> !status.Failed?
  {
    if status.Failed? then 1 else 0
  }

  /** What fetch_movie_info returns: (None, err), (info, None), or an exception. */
  datatype InfoResult = InfoErr(err: string) | InfoOk(info: Value) | InfoCrash

  function InfoOf(reply: HttpReply): InfoResult {
    match reply
    case Unreachable => InfoCrash
    case Reply(status, body) =>
      if status != 200 then InfoErr("http=" + IntToStr(status))
      else match body
        case NotJson => InfoCrash
        case Json(j) =>
          if !j.Obj? then InfoCrash
          else
            var fault := OrElse(j.fields, ["faultInfo", "faultResult"], Null);
            if Truthy(fault) then InfoErr("fault=" + PyStr(fault))
            else
              var mir := OrElse(j.fields, ["movieInfoResult"], Obj(map[]));
              if mir.Obj? then InfoOk(Get(mir.fields, "movieInfo")) else InfoCrash
  }

  /** The record saved for a movie, before audiAcc. */
  function DetailRecord(info: map<string, Value>): map<string, Value> {
    map[
      "movieCd" := Get(info, "movieCd"),
      "movieNm" := Get(info, "movieNm"),
      "openDt" := Str(NormYmd(Get(info, "openDt"))),
      "showTm" := Get(info, "showTm"),
      "audits" := OrElse(info, ["audits"], List([])),
      "genres" := OrElse(info, ["genres"], List([])),
      "directors" := OrElse(info, ["directors"], List([])),
      "actors" := OrElse(info, ["actors"], List([])),
      "companys" := OrElse(info, ["companys"], List([]))]
  }

  /** `allow`: every movie in "all" mode; in "recent" mode a movie whose open
      date parses and lies within the window (a ValueError is swallowed). */
  predicate AllowScan(env: Env, openDt: string) {
    || env.mode == All
    || (env.mode == Recent && openDt != "" &&
        match ParseDateYmd(Str(openDt), env.valid)
        case Date(d) => env.recent(d)
        case _ => false)
  }

  /** main asks the weekly scan for eight weeks. */
  const AudiWeeks: int := 8

  /** The weekly replies for one movie. */
  function WeeklyOf(env: Env, key: CacheKey): nat -> HttpReply {
    (i: nat) => env.weekly(key, i)
  }

  /** The outcome of one movie that is not cached yet. */
  datatype Step = Skipped | Saved(rec: Value) | QuotaHit | Crashed

  /** One movie of main's loop that is not cached yet. */
  function KeyStep(env: Env, key: CacheKey): Step {
    match InfoOf(env.info(key.code))
    case InfoCrash => Crashed
    case InfoErr(err) => if Contains(err, "320011") then QuotaHit else Skipped
    case InfoOk(info) =>
      if !Truthy(info) then Skipped
      else if !info.Obj? then Crashed
      else RecordStep(env, key, info.fields)
  }

  /** Whether the weekly scan runs for a movie with this open date. */
  predicate Scans(env: Env, openDt: string) {
    env.mode != Off && env.hasKey && AllowScan(env, openDt)
  }

  /** The record of a movie, with audiAcc when the weekly scan runs and finds one. */
  function RecordStep(env: Env, key: CacheKey, info: map<string, Value>): Step {
    var rec := DetailRecord(info);
    var openDt := NormYmd(Get(info, "openDt"));
    if !Scans(env, openDt) then Saved(Obj(rec))
    else AccStep(rec, WeeklyAcc(true, rec["movieCd"], ParseDateYmd(Str(openDt), env.valid), WeeklyOf(env, key), AudiWeeks))
  }

  function AccStep(rec: map<string, Value>, out: AccOutcome): Step {
    match out
    case AccCrash => Crashed
    case RateLimited => QuotaHit
    case Acc(acc) => Saved(Obj(if acc.Some? then rec["audiAcc" := Int(acc.value)] else rec))
  }

  /** A record holds the normalised open date, and audiAcc only when the weekly
      scan ran and found a value, which is then the value stored. */
  lemma RecordStepSaved(env: Env, key: CacheKey, info: map<string, Value>)
    requires RecordStep(env, key, info).Saved?
    ensures var rec := RecordStep(env, key, info).rec;
            && rec.Obj? && "movieCd" in rec.fields && "openDt" in rec.fields
            && rec.fields["openDt"] == Str(NormYmd(Get(info, "openDt")))
            && AllDigits(rec.fields["openDt"].s) && |rec.fields["openDt"].s| <= 8
    ensures var rec := RecordStep(env, key, info).rec;
            "audiAcc" in rec.fields ==>
              && Scans(env, NormYmd(Get(info, "openDt")))
              && WeeklyAcc(true, Get(info, "movieCd"), ParseDateYmd(Str(NormYmd(Get(info, "openDt"))), env.valid), WeeklyOf(env, key), AudiWeeks)
                 == Acc(Some(rec.fields["audiAcc"].i))
  {
    var rec := DetailRecord(info);
    var openDt := NormYmd(Get(info, "openDt"));
    assert rec["movieCd"] == Get(info, "movieCd") && rec["openDt"] == Str(openDt);
    assert "audiAcc" !in rec;
    if Scans(env, openDt) {
      AccStepSaved(rec, WeeklyAcc(true, rec["movieCd"], ParseDateYmd(Str(openDt), env.valid), WeeklyOf(env, key), AudiWeeks));
    }
  }

  /** A saving AccStep keeps the record's fields and adds audiAcc only for a value found. */
  lemma AccStepSaved(rec: map<string, Value>, out: AccOutcome)
    requires AccStep(rec, out).Saved? && "audiAcc" !in rec
    ensures var saved := AccStep(rec, out).rec;
            && saved.Obj? && rec.Keys <= saved.fields.Keys
            && (forall k :: k in rec ==> saved.fields[k] == rec[k])
            && ("audiAcc" in saved.fields ==> out == Acc(Some(saved.fields["audiAcc"].i)))
  {
  }

  /** A saved movie answered with an info object, whose record it is. */
  lemma SavedRecord(env: Env, key: CacheKey)
    requires KeyStep(env, key).Saved?
    ensures InfoOf(env.info(key.code)).InfoOk? && InfoOf(env.info(key.code)).info.Obj?
    ensures KeyStep(env, key) == RecordStep(env, key, InfoOf(env.info(key.code)).info.fields)
  {
  }

  /** Without the API key, or with --audiacc off, no record gets audiAcc. */
  lemma NoScanNoAudiAcc(env: Env, key: CacheKey)
    requires !env.hasKey || env.mode == Off
    requires KeyStep(env, key).Saved?
    ensures "audiAcc" !in KeyStep(env, key).rec.fields
  {
    SavedRecord(env, key);
    RecordStepSaved(env, key, InfoOf(env.info(key.code)).info.fields);
  }

  /** A quota error from the movie-info call ends the run with status 0. */
  lemma InfoQuotaStops(env: Env, key: CacheKey)
    requires InfoOf(env.info(key.code)).InfoErr?
    ensures KeyStep(env, key).QuotaHit? <==> Contains(InfoOf(env.info(key.code)).err, "320011")
  {
  }

  /** The record of one movie and its audiAcc. */
  method ProcessRecord(env: Env, key: CacheKey, info: map<string, Value>) returns (step: Step)
    ensures step == RecordStep(env, key, info)
  {
    var openDt := NormYmd(Get(info, "openDt"));
    var rec := DetailRecord(info);
    if env.mode != Off && env.hasKey {
      var allow := env.mode == All;
      if env.mode == Recent && openDt != "" {
        var d := ParseDateYmd(Str(openDt), env.valid);
        if d.Date? && env.recent(d.ymd) {
          allow := true;
        }
      }
      assert allow == AllowScan(env, openDt);
      if allow {
        var acc, _ := FetchWeeklyAudiAcc(true, rec["movieCd"], ParseDateYmd(Str(openDt), env.valid), WeeklyOf(env, key), AudiWeeks);
        if acc.AccCrash? {
          return Crashed;
        }
        if acc.RateLimited? {
          return QuotaHit;
        }
        if acc.acc.Some? {
          rec := rec["audiAcc" := Int(acc.acc.value)];
        }
      }
    }
    return Saved(Obj(rec));
  }

  /** One uncached movie: fetch, error handling, record and audiAcc. */
  method ProcessKey(env: Env, key: CacheKey) returns (step: Step)
    ensures step == KeyStep(env, key)
  {
    var res := InfoOf(env.info(key.code));
    if res.InfoCrash? {
      return Crashed;
    }
    if res.InfoErr? {
      if Contains(res.err, "320011") {
        return QuotaHit;
      }
      return Skipped;
    }
    var info := res.info;
    if !Truthy(info) {
      return Skipped;
    }
    if !info.Obj? {
      return Crashed;
    }
    step := ProcessRecord(env, key, info.fields);
  }

  predicate Distinct<T(==)>(s: seq<T>) {
    forall i, j :: 0 <= i < j < |s| ==> s[i] != s[j]
  }

  /** The state of a run: its status, the cache, total_saved, and the movies
      fetched, in order. */
  datatype Run = Run(status: RunStatus, cache: map<CacheKey, Value>, saved: nat, fetched: seq<CacheKey>)

  /** What holds of a run from the cache cache0 at every point: at most max_count
      saves, every cached file kept, no cached movie fetched, no movie fetched
      twice, every fetched movie whose step saves it stored with that record,
      every new file the record of its movie, one new file per save, and the
      run stops at the first movie that hits the quota or fails: that movie is
      the last one fetched, and the status says which. */
  ghost predicate Sound(env: Env, cache0: map<CacheKey, Value>, r: Run) {
    Stops(env, r) && Stored(env, cache0, r)
  }

  /** The stopping half of Sound: a quota hit or a crash is the last movie fetched. */
  ghost predicate Stops(env: Env, r: Run) {
    && (r.status.StoppedByQuota? ==> |r.fetched| > 0)
    && (forall i :: 0 <= i < |r.fetched| ==>
          (KeyStep(env, r.fetched[i]).QuotaHit? <==> i == |r.fetched| - 1 && r.status.StoppedByQuota?))
    && (forall i :: 0 <= i < |r.fetched| ==>
          (KeyStep(env, r.fetched[i]).Crashed? ==> i == |r.fetched| - 1 && r.status.Failed?))
  }

  /** The storing half of Sound: the cap, the cache kept, each movie fetched once,
      saves stored, and new files exactly the saves. */
  ghost predicate Stored(env: Env, cache0: map<CacheKey, Value>, r: Run) {
    && Counted(env.maxCount, cache0, r)
    && SavesStored(env, r)
    && (forall k :: k in r.cache && k !in cache0 ==> k in r.fetched && KeyStep(env, k) == Saved(r.cache[k]))
  }

  /** The bookkeeping part of Stored: the cap, the cache kept, no cached
      movie fetched, each movie fetched once, one new file per save. */
  predicate Counted(maxCount: int, cache0: map<CacheKey, Value>, r: Run) {
    && r.saved <= (if maxCount > 0 then maxCount else 0)
    && (forall k :: k in cache0 ==> k in r.cache && r.cache[k] == cache0[k])
    && (forall i :: 0 <= i < |r.fetched| ==> r.fetched[i] !in cache0)
    && Distinct(r.fetched)
    && |r.cache.Keys| == |cache0.Keys| + r.saved
  }

  /** Every fetched movie whose step saves a record is stored with that record. */
  ghost predicate SavesStored(env: Env, r: Run) {
    forall i :: 0 <= i < |r.fetched| && KeyStep(env, r.fetched[i]).Saved? ==>
      r.fetched[i] in r.cache && r.cache[r.fetched[i]] == KeyStep(env, r.fetched[i]).rec
  }

  /** The run after the uncached movie key whose step is step: a quota hit
      stops it, a crash fails it, a save stores the record and counts it, and
      every step appends key to the fetched movies. */
  function After(r0: Run, key: CacheKey, step: Step): (r: Run)
    ensures r.fetched == r0.fetched + [key]
    ensures r.status.Failed? <==> step.Crashed?
    ensures r.status.StoppedByQuota? <==> step.QuotaHit?
  {
    var fetched := r0.fetched + [key];
    match step
    case QuotaHit => Run(StoppedByQuota, r0.cache, r0.saved, fetched)
    case Crashed => Run(Failed, r0.cache, r0.saved, fetched)
    case Saved(rec) => Run(Completed, r0.cache[key := rec], r0.saved + 1, fetched)
    case Skipped => Run(Completed, r0.cache, r0.saved, fetched)
  }

  /** One uncached movie: fetch it and save, skip, stop or fail. */
  method Take(env: Env, ghost cache0: map<CacheKey, Value>, key: CacheKey, r0: Run) returns (r: Run)
    requires r0.status.Completed? && Sound(env, cache0, r0)
    requires key !in r0.cache && key !in r0.fetched && r0.saved < env.maxCount
    ensures Sound(env, cache0, r)
    ensures r == After(r0, key, KeyStep(env, key))
  {
    var step := ProcessKey(env, key);
    r := After(r0, key, step);
    AfterSound(env, cache0, r0, key);
  }

  /** Taking an uncached, unfetched movie below the cap keeps the run sound. */
  lemma AfterSound(env: Env, cache0: map<CacheKey, Value>, r0: Run, key: CacheKey)
    requires r0.status.Completed? && Sound(env, cache0, r0)
    requires key !in r0.cache && key !in r0.fetched && r0.saved < env.maxCount
    ensures Sound(env, cache0, After(r0, key, KeyStep(env, key)))
  {
    AfterStops(env, r0, key);
    AfterStored(env, cache0, r0, key);
  }

  /** A step from a completed run keeps the stopping half of Sound. */
  lemma AfterStops(env: Env, r0: Run, key: CacheKey)
    requires r0.status.Completed? && Stops(env, r0)
    ensures Stops(env, After(r0, key, KeyStep(env, key)))
  {
  }

  /** Taking a new movie below the cap keeps the storing half of Sound. */
  lemma AfterStored(env: Env, cache0: map<CacheKey, Value>, r0: Run, key: CacheKey)
    requires Stored(env, cache0, r0)
    requires key !in r0.cache && key !in r0.fetched && r0.saved < env.maxCount
    ensures Stored(env, cache0, After(r0, key, KeyStep(env, key)))
  {
    AfterCounted(env.maxCount, cache0, r0, key, KeyStep(env, key));
    AfterKeepsSaved(env, cache0, r0, key);
    AfterNewSaved(env, cache0, r0, key);
  }

  /** Any step keeps the bookkeeping of a run below the cap. */
  lemma AfterCounted(maxCount: int, cache0: map<CacheKey, Value>, r0: Run, key: CacheKey, step: Step)
    requires Counted(maxCount, cache0, r0)
    requires key !in r0.cache && key !in r0.fetched && r0.saved < maxCount
    ensures Counted(maxCount, cache0, After(r0, key, step))
  {
    var r := After(r0, key, step);
    NextDistinct(r0.fetched, key);
    if step.Saved? {
      assert r.cache.Keys == r0.cache.Keys + {key};
    }
  }

  /** After a step, every fetched movie whose step saves is still stored with its record. */
  lemma AfterKeepsSaved(env: Env, cache0: map<CacheKey, Value>, r0: Run, key: CacheKey)
    requires Stored(env, cache0, r0) && key !in r0.cache && key !in r0.fetched
    ensures var r := After(r0, key, KeyStep(env, key));
      SavesStored(env, r)
  {
    var step := KeyStep(env, key);
    var r := After(r0, key, step);
    forall i | 0 <= i < |r.fetched| && KeyStep(env, r.fetched[i]).Saved?
      ensures r.fetched[i] in r.cache && r.cache[r.fetched[i]] == KeyStep(env, r.fetched[i]).rec
    {
      if i < |r0.fetched| {
        assert r.fetched[i] == r0.fetched[i] != key;
      } else {
        assert r.fetched[i] == key;
      }
    }
  }

  /** After a step, every stored movie not in cache0 was fetched and saved with its record. */
  lemma AfterNewSaved(env: Env, cache0: map<CacheKey, Value>, r0: Run, key: CacheKey)
    requires Stored(env, cache0, r0) && key !in r0.cache && key !in r0.fetched
    ensures var r := After(r0, key, KeyStep(env, key));
      forall k :: k in r.cache && k !in cache0 ==> k in r.fetched && KeyStep(env, k) == Saved(r.cache[k])
  {
    var step := KeyStep(env, key);
    var r := After(r0, key, step);
    forall k | k in r.cache && k !in cache0
      ensures k in r.fetched && KeyStep(env, k) == Saved(r.cache[k])
    {
      if k == key {
        assert r.fetched[|r0.fetched|] == key;
      } else {
        assert k in r0.cache;
        var j :| 0 <= j < |r0.fetched| && r0.fetched[j] == k;
        assert r.fetched[j] == k;
      }
    }
  }

  /** Appending a new key keeps the fetched movies distinct. */
  lemma NextDistinct(fetched: seq<CacheKey>, key: CacheKey)
    requires Distinct(fetched) && key !in fetched
    ensures Distinct(fetched + [key])
  {
    var s := fetched + [key];
    forall i, j | 0 <= i < j < |s|
      ensures s[i] != s[j]
    {
      assert s[i] == fetched[i];
      if j < |fetched| {
        assert s[j] == fetched[j];
      }
    }
  }

  /** The movies fetched, in the order main visits them: by year, then by code. */
  predicate InOrder(fetched: seq<CacheKey>) {
    forall i, j :: 0 <= i < j < |fetched| ==>
      fetched[i].year < fetched[j].year || (fetched[i].year == fetched[j].year && StrLt(fetched[i].code, fetched[j].code))
  }

  /** A candidate of its year: a code collect_candidates returns for that year. */
  predicate IsCandidate(env: Env, k: CacheKey) {
    var c := Candidates(env.yearFile(k.year));
    c.Ok? && k.code in c.value
  }

  /** The movies of one year, in candidate order, until max_count is reached,
      the quota stops the run, or it fails. */
  method RunYear(env: Env, ghost cache0: map<CacheKey, Value>, y: int, cds: seq<string>, r0: Run) returns (r: Run)
    requires StrictlySorted(cds)
    requires r0.status.Completed? && Sound(env, cache0, r0)
    requires forall j :: 0 <= j < |r0.fetched| ==> r0.fetched[j].year < y
    ensures Sound(env, cache0, r)
    ensures r0.fetched <= r.fetched
    ensures forall j :: |r0.fetched| <= j < |r.fetched| ==> r.fetched[j].year == y && r.fetched[j].code in cds
    ensures forall j, k :: |r0.fetched| <= j < k < |r.fetched| ==> StrLt(r.fetched[j].code, r.fetched[k].code)
    ensures r.status.Failed? ==> Crashes(env, r.fetched)
  {
    r := r0;
    var i := 0;
    while i < |cds|
      invariant 0 <= i <= |cds|
      invariant r.status.Completed? && Sound(env, cache0, r)
      invariant r0.fetched <= r.fetched
      invariant forall j :: |r0.fetched| <= j < |r.fetched| ==> r.fetched[j].year == y && r.fetched[j].code in cds[..i]
      invariant forall j, k :: |r0.fetched| <= j < k < |r.fetched| ==> StrLt(r.fetched[j].code, r.fetched[k].code)
    {
      if r.saved >= env.maxCount {
        break;
      }
      var next := Visit(env, cache0, y, cds, i, r0.fetched, r);
      if !next.status.Completed? {
        return next;
      }
      r := next;
      i := i + 1;
    }
  }

  /** One code of the year: skipped when its file exists, else taken. */
  method Visit(env: Env, ghost cache0: map<CacheKey, Value>, y: int, cds: seq<string>, i: int,
               ghost start: seq<CacheKey>, r: Run) returns (next: Run)
    requires StrictlySorted(cds) && 0 <= i < |cds|
    requires r.status.Completed? && Sound(env, cache0, r) && r.saved < env.maxCount
    requires start <= r.fetched && forall j :: 0 <= j < |start| ==> start[j].year < y
    requires forall j :: |start| <= j < |r.fetched| ==> r.fetched[j].year == y && r.fetched[j].code in cds[..i]
    requires forall j, k :: |start| <= j < k < |r.fetched| ==> StrLt(r.fetched[j].code, r.fetched[k].code)
    ensures Sound(env, cache0, next) && start <= next.fetched
    ensures forall j :: |start| <= j < |next.fetched| ==> next.fetched[j].year == y && next.fetched[j].code in cds[..i + 1]
    ensures forall j, k :: |start| <= j < k < |next.fetched| ==> StrLt(next.fetched[j].code, next.fetched[k].code)
    ensures var key := CacheKey(y, cds[i]);
            next == if key in r.cache then r else After(r, key, KeyStep(env, key))
    ensures next.status.Failed? ==> Crashes(env, next.fetched)
  {
    var key := CacheKey(y, cds[i]);
    if key in r.cache {
      SkipCode(start, r.fetched, y, cds, i);
      return r;
    }
    NotFetched(start, r.fetched, y, cds, i);
    NextCode(start, r.fetched, y, cds, i);
    next := Take(env, cache0, key, r);
    AfterCrashes(env, r, key);
  }

  /** A run failed by a step has a crashed movie among those fetched. */
  lemma AfterCrashes(env: Env, r0: Run, key: CacheKey)
    ensures var r := After(r0, key, KeyStep(env, key));
            r.status.Failed? ==> Crashes(env, r.fetched)
  {
    var r := After(r0, key, KeyStep(env, key));
    if r.status.Failed? {
      assert r.fetched[|r0.fetched|] == key;
    }
  }

  /** Skipping cds[i] leaves the year's codes within cds[..i + 1]. */
  lemma SkipCode(start: seq<CacheKey>, fetched: seq<CacheKey>, y: int, cds: seq<string>, i: int)
    requires 0 <= i < |cds|
    requires forall j :: |start| <= j < |fetched| ==> fetched[j].year == y && fetched[j].code in cds[..i]
    ensures forall j :: |start| <= j < |fetched| ==> fetched[j].year == y && fetched[j].code in cds[..i + 1]
  {
    assert cds[..i + 1] == cds[..i] + [cds[i]];
  }

  /** cds[i] of year y has not been fetched: earlier years differ, and this
      year's codes so far come before it. */
  lemma NotFetched(start: seq<CacheKey>, fetched: seq<CacheKey>, y: int, cds: seq<string>, i: int)
    requires StrictlySorted(cds) && 0 <= i < |cds| && start <= fetched
    requires forall j :: 0 <= j < |start| ==> start[j].year < y
    requires forall j :: |start| <= j < |fetched| ==> fetched[j].year == y && fetched[j].code in cds[..i]
    ensures CacheKey(y, cds[i]) !in fetched
  {
    NotYetTaken(cds, i);
    forall j | 0 <= j < |fetched|
      ensures fetched[j] != CacheKey(y, cds[i])
    {
      if j < |start| {
        assert fetched[j] == start[j];
      }
    }
  }

  /** In a strictly sorted list a code does not occur before its own position. */
  lemma NotYetTaken(cds: seq<string>, i: int)
    requires StrictlySorted(cds) && 0 <= i < |cds|
    ensures cds[i] !in cds[..i]
  {
    forall j | 0 <= j < i
      ensures cds[..i][j] != cds[i]
    {
      assert StrLt(cds[j], cds[i]);
    }
  }

  /** Fetching cds[i] after codes taken from cds[..i] keeps the year's codes increasing. */
  lemma NextCode(start: seq<CacheKey>, fetched: seq<CacheKey>, y: int, cds: seq<string>, i: int)
    requires StrictlySorted(cds) && 0 <= i < |cds| && start <= fetched
    requires forall j :: |start| <= j < |fetched| ==> fetched[j].year == y && fetched[j].code in cds[..i]
    requires forall j, k :: |start| <= j < k < |fetched| ==> StrLt(fetched[j].code, fetched[k].code)
    ensures var next := fetched + [CacheKey(y, cds[i])];
            && start <= next
            && (forall j :: |start| <= j < |next| ==> next[j].year == y && next[j].code in cds[..i + 1])
            && (forall j, k :: |start| <= j < k < |next| ==> StrLt(next[j].code, next[k].code))
  {
    BelowLater(cds, i);
    assert cds[..i + 1] == cds[..i] + [cds[i]];
  }

  /** In a strictly sorted list every code before position i is below cds[i]. */
  lemma BelowLater(cds: seq<string>, i: int)
    requires StrictlySorted(cds) && 0 <= i < |cds|
    ensures forall c :: c in cds[..i] ==> StrLt(c, cds[i])
  {
    forall c | c in cds[..i]
      ensures StrLt(c, cds[i])
    {
      var m :| 0 <= m < i && cds[..i][m] == c;
      assert cds[m] == c;
    }
  }

  /** One year of the run: its candidates (a crash fails the run), then its movies. */
  method RunYearFile(env: Env, ghost cache0: map<CacheKey, Value>, y: int, r0: Run) returns (r: Run)
    requires r0.status.Completed? && Sound(env, cache0, r0)
    requires forall j :: 0 <= j < |r0.fetched| ==> r0.fetched[j].year < y
    ensures Sound(env, cache0, r)
    ensures r0.fetched <= r.fetched
    ensures forall j :: |r0.fetched| <= j < |r.fetched| ==> r.fetched[j].year == y && IsCandidate(env, r.fetched[j])
    ensures forall j, k :: |r0.fetched| <= j < k < |r.fetched| ==> StrLt(r.fetched[j].code, r.fetched[k].code)
    ensures r.status.Failed? ==> Crashes(env, r.fetched) || YearFails(env, y)
  {
    var cds := CollectCandidates(env.yearFile(y));
    if cds.Crash? {
      r := r0.(status := Failed);
      FailedSound(env, cache0, r0);
      return;
    }
    r := RunYear(env, cache0, y, cds.value, r0);
  }

  /** Some movie fetched crashed; by Sound it is the last one. */
  ghost predicate Crashes(env: Env, fetched: seq<CacheKey>) {
    exists i :: 0 <= i < |fetched| && KeyStep(env, fetched[i]).Crashed?
  }

  /** In a run that stops as Sound says, a crashed movie is the last one fetched, and the run has failed. */
  lemma CrashedLast(env: Env, r: Run)
    requires Stops(env, r) && Crashes(env, r.fetched)
    ensures |r.fetched| > 0 && KeyStep(env, r.fetched[|r.fetched| - 1]).Crashed? && r.status.Failed?
  {
    var i :| 0 <= i < |r.fetched| && KeyStep(env, r.fetched[i]).Crashed?;
  }

  /** collect_candidates raises for year y. */
  predicate YearFails(env: Env, y: int) {
    Candidates(env.yearFile(y)).Crash?
  }

  /** A run still going, failed by its year file, keeps what it had. */
  lemma FailedSound(env: Env, cache0: map<CacheKey, Value>, r: Run)
    requires r.status.Completed? && Sound(env, cache0, r)
    ensures Sound(env, cache0, r.(status := Failed))
  {
    var f := r.(status := Failed);
    assert f.fetched == r.fetched && f.cache == r.cache && f.saved == r.saved;
    forall i | 0 <= i < |f.fetched|
      ensures !KeyStep(env, f.fetched[i]).QuotaHit? && !KeyStep(env, f.fetched[i]).Crashed?
    {
      assert !KeyStep(env, r.fetched[i]).QuotaHit? && !KeyStep(env, r.fetched[i]).Crashed?;
    }
  }

  /** A year's movies appended after the earlier years' keep the run in order. */
  lemma FetchedYears(env: Env, before: seq<CacheKey>, after: seq<CacheKey>, y1: int, y: int)
    requires before <= after && InOrder(before)
    requires forall i :: 0 <= i < |before| ==> y1 <= before[i].year < y && IsCandidate(env, before[i])
    requires forall i :: |before| <= i < |after| ==> after[i].year == y && IsCandidate(env, after[i])
    requires forall i, j :: |before| <= i < j < |after| ==> StrLt(after[i].code, after[j].code)
    requires y1 <= y
    ensures forall i :: 0 <= i < |after| ==> y1 <= after[i].year <= y && IsCandidate(env, after[i])
    ensures InOrder(after)
  {
    forall i | 0 <= i < |after|
      ensures y1 <= after[i].year <= y && IsCandidate(env, after[i])
    {
      if i < |before| {
        assert after[i] == before[i];
      }
    }
    forall i, j | 0 <= i < j < |after|
      ensures after[i].year < after[j].year || (after[i].year == after[j].year && StrLt(after[i].code, after[j].code))
    {
      if j < |before| {
        assert after[i] == before[i] && after[j] == before[j];
      } else if i < |before| {
        assert after[i] == before[i];
      }
    }
  }

  /** main: for every year from y1 to y2 and every candidate code in order, stop
      taking codes once total_saved reaches max_count, skip a cached code, and
      otherwise fetch, save, skip, stop for the quota or fail. */
  method RunDetails(env: Env, y1: int, y2: int, cache0: map<CacheKey, Value>) returns (r: Run)
    ensures Sound(env, cache0, r)
    ensures forall i :: 0 <= i < |r.fetched| ==> y1 <= r.fetched[i].year <= y2 && IsCandidate(env, r.fetched[i])
    ensures InOrder(r.fetched)
    ensures r.status.Failed? ==> Crashes(env, r.fetched) || exists y :: y1 <= y <= y2 && YearFails(env, y)
  {
    r := Run(Completed, cache0, 0, []);
    var y := y1;
    while y <= y2
      invariant y1 <= y && (y == y1 || y <= y2 + 1)
      invariant r.status.Completed? && Sound(env, cache0, r)
      invariant forall i :: 0 <= i < |r.fetched| ==> y1 <= r.fetched[i].year < y && IsCandidate(env, r.fetched[i])
      invariant InOrder(r.fetched)
      decreases y2 - y
    {
      var next := RunYearFile(env, cache0, y, r);
      FetchedYears(env, r.fetched, next.fetched, y1, y);
      if !next.status.Completed? {
        return next;
      }
      r := next;
      y := y + 1;
    }
  }
}
