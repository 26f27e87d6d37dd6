/** The field normalisers of the index builder (scripts/build_indices.py):
    release dates, rating labels, country of origin and "one or many" fields. */
module Normalize {
  import opened Wrappers
  import opened PyText
  import opened PyValue
  import Order

  // ---------- parse_open_dt ----------

  /** An open date in the index: YYYYMMDD, eight ASCII digits. */
  predicate IsYmd(s: string) {
    |s| == 8 && AllDigits(s)
  }

  /** parse_open_dt on the text it is given: trimmed, dashes removed, then kept
      only when exactly eight digits remain. */
  function ParseOpenDt(s: string): (r: string)
    ensures r == "" || IsYmd(r)
    ensures r != "" <==> IsYmd(RemoveChar(Strip(s), '-'))
    ensures r != "" ==> r == RemoveChar(Strip(s), '-')
  {
    var t := RemoveChar(Strip(s), '-');
    if IsYmd(t) then t else ""
  }

  lemma RemoveCharOfDigits(s: string)
    requires AllDigits(s)
    ensures RemoveChar(s, '-') == s
  {
    assert '-' !in s by {
      forall i | 0 <= i < |s| ensures s[i] != '-' {
        assert IsDigit(s[i]);
      }
    }
    RemoveAbsent(s, '-');
  }

  /** A YYYYMMDD text is its own normal form. */
  lemma ParseOpenDtOfYmd(s: string)
    requires IsYmd(s)
    ensures ParseOpenDt(s) == s
  {
    assert Trimmed(s) by { assert IsDigit(s[0]) && IsDigit(s[7]); }
    StripOfTrimmed(s);
    RemoveCharOfDigits(s);
  }

  /** parse_open_dt is idempotent. */
  lemma ParseOpenDtIdempotent(s: string)
    ensures ParseOpenDt(ParseOpenDt(s)) == ParseOpenDt(s)
  {
    var r := ParseOpenDt(s);
    if r == "" {
      assert Strip("") == "";
    } else {
      ParseOpenDtOfYmd(r);
    }
  }

  lemma {:induction false} RemoveCharConcat(a: string, b: string, c: char)
    ensures RemoveChar(a + b, c) == RemoveChar(a, c) + RemoveChar(b, c)
  {
    if a != [] {
      assert (a + b)[1..] == a[1..] + b;
      RemoveCharConcat(a[1..], b, c);
    } else {
      assert a + b == b;
    }
  }

  lemma RemoveSeparator(x: string, y: string, c: char)
    ensures RemoveChar(x + [c] + y, c) == RemoveChar(x, c) + RemoveChar(y, c)
  {
    RemoveCharConcat(x + [c], y, c);
    RemoveCharConcat(x, [c], c);
    RemoveOnly(c);
  }

  lemma RemoveOnly(c: char)
    ensures RemoveChar([c], c) == []
  {
    assert [c][1..] == [];
  }

  lemma AllDigitsSlice(s: string, i: int, j: int)
    requires AllDigits(s) && 0 <= i <= j <= |s|
    ensures AllDigits(s[i..j])
  {
    forall k | 0 <= k < j - i ensures IsDigit(s[i..j][k]) {
      assert s[i..j][k] == s[i + k];
    }
  }

  lemma RemoveDashes(a: string, b: string, c: string)
    requires AllDigits(a) && AllDigits(b) && AllDigits(c)
    ensures RemoveChar(a + "-" + b + "-" + c, '-') == a + b + c
  {
    RemoveSeparator(a + "-" + b, c, '-');
    RemoveSeparator(a, b, '-');
    RemoveCharOfDigits(a);
    RemoveCharOfDigits(b);
    RemoveCharOfDigits(c);
  }

  /** The dashed form YYYY-MM-DD of an open date. */
  function Iso(d: string): string
    requires IsYmd(d)
  {
    d[..4] + "-" + d[4..6] + "-" + d[6..]
  }

  lemma IsoTrimmed(d: string)
    requires IsYmd(d)
    ensures Trimmed(Iso(d))
  {
    var iso := Iso(d);
    assert iso[0] == d[0] && iso[|iso| - 1] == d[7];
  }

  lemma IsoWithoutDashes(d: string)
    requires IsYmd(d)
    ensures RemoveChar(Iso(d), '-') == d
  {
    AllDigitsSlice(d, 0, 4);
    AllDigitsSlice(d, 4, 6);
    AllDigitsSlice(d, 6, 8);
    assert d[..4] == d[0..4] && d[6..] == d[6..8];
    RemoveDashes(d[..4], d[4..6], d[6..]);
    assert d[..4] + d[4..6] + d[6..] == d;
  }

  /** An ISO date YYYY-MM-DD loses its dashes: "2023-07-14" becomes "20230714". */
  lemma ParseOpenDtOfIso(d: string)
    requires IsYmd(d)
    ensures ParseOpenDt(Iso(d)) == d
  {
    IsoTrimmed(d);
    StripOfTrimmed(Iso(d));
    IsoWithoutDashes(d);
  }

  /** "0" * n: "00000000" is the date key of an undated entry. */
  function Zeros(n: nat): (r: string)
    ensures |r| == n && forall i :: 0 <= i < n ==> r[i] == '0'
  {
    if n == 0 then "" else "0" + Zeros(n - 1)
  }

  /** No string of digits sorts below a string of zeros of the same length. */
  lemma {:induction false} ZerosLeast(t: string)
    requires AllDigits(t) && Order.StrLe(t, Zeros(|t|))
    ensures t == Zeros(|t|)
  {
    if t != [] {
      var z := Zeros(|t|);
      assert IsDigit(t[0]) && z[0] == '0';
      assert t[0] == z[0];
      assert z[1..] == Zeros(|t| - 1);
      assert AllDigits(t[1..]) by {
        forall i | 0 <= i < |t[1..]| ensures IsDigit(t[1..][i]) {
          assert t[1..][i] == t[i + 1];
        }
      }
      ZerosLeast(t[1..]);
      assert t == [t[0]] + t[1..];
    }
  }

  // ---------- norm_grade ----------

  /** The rating-label synonyms: each spelling of a label and its canonical form. */
  const GradeLabels: map<string, string> := map[
    "전체관람가" := "전체관람가",
    "전체 관람가" := "전체관람가",
    "12세이상관람가" := "12세이상관람가",
    "12세 이상 관람가" := "12세이상관람가",
    "15세이상관람가" := "15세이상관람가",
    "15세 이상 관람가" := "15세이상관람가",
    "청소년관람불가" := "청소년 관람불가",
    "청소년 관람불가" := "청소년 관람불가"
  ]

  /** norm_grade: a known spelling becomes its canonical label, any other text
      passes through trimmed. */
  function NormGrade(s: string): (r: string)
    ensures Strip(s) in GradeLabels ==> r in GradeLabels.Values
    ensures Strip(s) !in GradeLabels ==> r == Strip(s)
  {
    var t := Strip(s);
    if t in GradeLabels then GradeLabels[t] else t
  }

  /** Every canonical label is a known spelling of itself. */
  lemma CanonicalLabelsAreFixed()
    ensures forall t :: t in GradeLabels ==> GradeLabels[t] in GradeLabels && GradeLabels[GradeLabels[t]] == GradeLabels[t]
  {
  }

  lemma LabelsTrimmed()
    ensures forall t :: t in GradeLabels ==> Trimmed(t)
  {
    forall t | t in GradeLabels ensures Trimmed(t) {
      assert t[0] != ' ' && t[|t| - 1] != ' ';
      assert !IsSpace(t[0]) && !IsSpace(t[|t| - 1]);
    }
  }

  /** norm_grade is idempotent. */
  lemma NormGradeIdempotent(s: string)
    ensures NormGrade(NormGrade(s)) == NormGrade(s)
  {
    var t := Strip(s);
    StripIdempotent(s);
    if t in GradeLabels {
      CanonicalLabelsAreFixed();
      LabelsTrimmed();
      StripOfTrimmed(GradeLabels[t]);
    }
  }

  /** A known spelling, given as it is, maps to its canonical label. */
  lemma NormGradeOfLabel(t: string)
    requires t in GradeLabels
    ensures NormGrade(t) == GradeLabels[t]
  {
    LabelsTrimmed();
    StripOfTrimmed(t);
  }

  /** The spaced and unspaced spellings of each label normalise alike. */
  lemma NormGradeAllAges(s: string)
    requires s == "전체 관람가" || s == "전체관람가"
    ensures NormGrade(s) == "전체관람가"
  {
    assert s in GradeLabels && GradeLabels[s] == "전체관람가";
    NormGradeOfLabel(s);
  }

  lemma NormGradeTwelve(s: string)
    requires s == "12세 이상 관람가" || s == "12세이상관람가"
    ensures NormGrade(s) == "12세이상관람가"
  {
    assert s in GradeLabels && GradeLabels[s] == "12세이상관람가";
    NormGradeOfLabel(s);
  }

  lemma NormGradeFifteen(s: string)
    requires s == "15세 이상 관람가" || s == "15세이상관람가"
    ensures NormGrade(s) == "15세이상관람가"
  {
    assert s in GradeLabels && GradeLabels[s] == "15세이상관람가";
    NormGradeOfLabel(s);
  }

  lemma NormGradeAdult(s: string)
    requires s == "청소년관람불가" || s == "청소년 관람불가"
    ensures NormGrade(s) == "청소년 관람불가"
  {
    assert s in GradeLabels && GradeLabels[s] == "청소년 관람불가";
    NormGradeOfLabel(s);
  }

  // ---------- infer_rep_nation ----------

  /** "K" when the text mentions 한국 (Korea), otherwise "F". */
  function KoreaOrForeign(txt: string): (r: string)
    ensures r == "K" <==> Contains(txt, "한국")
    ensures r == "K" || r == "F"
  {
    if Contains(txt, "한국") then "K" else "F"
  }

  /** The nationNm of each entry of `nations`, unstripped; entries that are not
      dicts raise AttributeError and non-string names make join() raise TypeError. */
  function NationNames(xs: seq<Value>): (r: Result<seq<string>>)
    ensures r.Ok? ==> |r.value| == |xs|
  {
    if xs == [] then Ok([])
    else
      var m :- Fields(xs[0]);
      var nm :- RawText(m, ["nationNm"]);
      var rest :- NationNames(xs[1..]);
      Ok([nm] + rest)
  }

  /** infer_rep_nation: the explicit code first, then nationAlt or repNationNm,
      then the joined names of `nations`. */
  function InferRepNation(d: map<string, Value>): (r: Result<string>)
    ensures r.Ok? ==> r.value == "K" || r.value == "F" || r.value == ""
  {
    CodeOr(TextOf(d, ["repNation"]), NationFromText(d))
  }

  /** The stripped repNation, upper-cased, when it is K or F; else the fallback. */
  function CodeOr(code: Result<string>, fallback: Result<string>): Result<string> {
    match code
    case Crash => Crash
    case Ok(v) => if UpperAscii(v) == "K" || UpperAscii(v) == "F" then Ok(UpperAscii(v)) else fallback
  }

  /** The loop over nationAlt and repNationNm: the first non-blank text decides. */
  function NationFromText(d: map<string, Value>): (r: Result<string>)
    ensures r.Ok? ==> r.value == "K" || r.value == "F" || r.value == ""
  {
    TextOr(TextOf(d, ["nationAlt"]), TextOr(TextOf(d, ["repNationNm"]), NationFromList(d)))
  }

  /** One step of that loop: a non-blank text decides, a blank one moves on. */
  function TextOr(txt: Result<string>, fallback: Result<string>): (r: Result<string>)
    ensures r == fallback || r.Crash? || r.value == "K" || r.value == "F"
  {
    match txt
    case Crash => Crash
    case Ok(t) => if t != "" then Ok(KoreaOrForeign(t)) else fallback
  }

  /** The `nations` fallback: the names joined with ", ", when that is not empty. */
  function NationFromList(d: map<string, Value>): (r: Result<string>)
    ensures r.Ok? ==> r.value == "K" || r.value == "F" || r.value == ""
  {
    match OrElse(d, ["nations"], List([]))
    case List(xs) =>
      var names :- NationNames(xs);
      var joined := Join(", ", names);
      if joined != "" then Ok(KoreaOrForeign(joined)) else Ok("")
    case _ => Ok("")
  }

  /** repNation holds an explicit K or F code (in either case). */
  predicate ExplicitCode(d: map<string, Value>) {
    var v := TextOf(d, ["repNation"]);
    v.Ok? && (UpperAscii(v.value) == "K" || UpperAscii(v.value) == "F")
  }

  /** Two records that agree on key k yield the same text for it. */
  lemma SameText(d: map<string, Value>, e: map<string, Value>, k: string)
    requires Get(d, k) == Get(e, k)
    ensures TextOf(d, [k]) == TextOf(e, [k])
  {
    assert FirstTruthy(d, [k]) == FirstTruthy(e, [k]);
  }

  /** An explicit code decides alone: nationAlt, repNationNm and nations are not read. */
  lemma ExplicitCodeWins(d: map<string, Value>, e: map<string, Value>)
    requires ExplicitCode(d) && Get(d, "repNation") == Get(e, "repNation")
    ensures InferRepNation(d) == InferRepNation(e)
    ensures InferRepNation(d) == Ok(UpperAscii(TextOf(d, ["repNation"]).value))
  {
    SameText(d, e, "repNation");
  }

  lemma NationAltDecides(d: map<string, Value>, e: map<string, Value>)
    requires Get(d, "nationAlt") == Get(e, "nationAlt")
    requires TextOf(d, ["nationAlt"]).Ok? && TextOf(d, ["nationAlt"]).value != ""
    ensures NationFromText(d) == NationFromText(e) == Ok(KoreaOrForeign(TextOf(d, ["nationAlt"]).value))
  {
    SameText(d, e, "nationAlt");
  }

  /** Without an explicit code, a non-blank nationAlt decides ahead of
      repNationNm and nations. */
  lemma NationAltWins(d: map<string, Value>, e: map<string, Value>)
    requires Get(d, "repNation") == Get(e, "repNation") && Get(d, "nationAlt") == Get(e, "nationAlt")
    requires TextOf(d, ["nationAlt"]).Ok? && TextOf(d, ["nationAlt"]).value != ""
    ensures InferRepNation(d) == InferRepNation(e)
    ensures !ExplicitCode(d) && TextOf(d, ["repNation"]).Ok? ==>
      InferRepNation(d) == Ok(KoreaOrForeign(TextOf(d, ["nationAlt"]).value))
  {
    SameText(d, e, "repNation");
    NationAltDecides(d, e);
  }

  lemma RepNationNmDecides(d: map<string, Value>, e: map<string, Value>)
    requires Get(d, "nationAlt") == Get(e, "nationAlt") && Get(d, "repNationNm") == Get(e, "repNationNm")
    requires TextOf(d, ["repNationNm"]).Ok? && TextOf(d, ["repNationNm"]).value != ""
    ensures NationFromText(d) == NationFromText(e)
  {
    SameText(d, e, "nationAlt");
    SameText(d, e, "repNationNm");
  }

  /** Without a code or nationAlt, a non-blank repNationNm decides ahead of nations. */
  lemma RepNationNmWins(d: map<string, Value>, e: map<string, Value>)
    requires Get(d, "repNation") == Get(e, "repNation") && Get(d, "nationAlt") == Get(e, "nationAlt")
    requires Get(d, "repNationNm") == Get(e, "repNationNm")
    requires TextOf(d, ["repNationNm"]).Ok? && TextOf(d, ["repNationNm"]).value != ""
    ensures InferRepNation(d) == InferRepNation(e)
  {
    SameText(d, e, "repNation");
    RepNationNmDecides(d, e);
  }

  // ---------- as_list ----------

  /** as_list: None is no element, a list its elements, anything else one element. */
  function AsList(x: Value): (r: seq<Value>)
    ensures r == [] <==> x.Null? || x == List([])
    ensures x.List? ==> r == x.items
    ensures !x.Null? && !x.List? ==> r == [x]
  {
    if x.Null? then [] else if x.List? then x.items else [x]
  }
}
