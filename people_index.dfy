/** The person search index of scripts/build_indices.py: directors and actors
    gathered from six record shapes, one accumulator per person key, each
    filmography sorted newest first and the people sorted by (name, code). */
module PeopleIndex {
  import opened Wrappers
  import opened PyText
  import opened PyValue
  import opened Normalize
  import opened Order

  /** The two role labels: director and actor. */
  const Director: string := "감독"
  const Actor: string := "배우"

  /** The movie a contributor is credited on. */
  datatype FilmRef = FilmRef(movieCd: string, movieNm: string, openDt: string)

  /** One filmography entry; part is the raw castNm or cast value, or "". */
  datatype Film = Film(movieCd: string, movieNm: string, openDt: string, part: Value)

  /** The accumulator of one person. */
  datatype Person = Person(peopleCd: string, peopleNm: string, repRoleNm: string, films: seq<Film>)

  /** The defaultdict of accumulators: keys in insertion order, and the records. */
  datatype Bucket = Bucket(order: seq<string>, recs: map<string, Person>)

  datatype PeopleIndex = PeopleIndex(count: nat, people: seq<Person>)

  /** The record a missing key starts from. */
  const Fresh: Person := Person("", "", "", [])

  const Empty: Bucket := Bucket([], map[])

  /** The keys whose first truthy value names the person. */
  const NameKeys: seq<string> := ["peopleNm", "directorNm", "name", "castNm", "cast", "staffNm"]

  // ---------- _push_person ----------

  /** The accumulator key: the code when there is one, else "NM:" and the name. */
  function PersonKey(code: string, name: string): string {
    if code != "" then code else "NM:" + name
  }

  /** The key a record is filed under, recovered from its own fields. */
  function KeyOf(p: Person): string {
    PersonKey(p.peopleCd, p.peopleNm)
  }

  /** (repRoleNm or staffRoleNm or role or role_hint or "").strip() */
  function RawRole(e: map<string, Value>, hint: string): Result<string> {
    match FirstTruthy(e, ["repRoleNm", "staffRoleNm", "role"])
    case None => Ok(Strip(hint))
    case Some(v) => if v.Str? then Ok(Strip(v.s)) else Crash
  }

  /** The role after the hint fallback and the 감독/배우 normalisation. */
  function NormRole(role: string, hint: string): (r: string)
    ensures Contains(role, Director) ==> r == Director
    ensures hint == Actor && !Contains(role, Director) ==> r == Actor
  {
    var t := if role == "" && hint != "" then hint else role;
    if Contains(t, Director) then Director
    else if Contains(t, Actor) || hint == Actor then Actor
    else t
  }

  /** The dict entry filed for one person: the shared movie plus the raw part. */
  function FilmOf(e: map<string, Value>, ref: FilmRef): Film {
    Film(ref.movieCd, ref.movieNm, ref.openDt, OrElse(e, ["castNm", "cast"], Str("")))
  }

  /** The update of the accumulator under PersonKey(code, name): code and name are
      overwritten, the role is set only if still empty, one film is appended, and
      a new key is appended to the insertion order. */
  function Filed(b: Bucket, code: string, name: string, role: string, film: Film): Bucket {
    var key := PersonKey(code, name);
    var prev := if key in b.recs then b.recs[key] else Fresh;
    var repRoleNm := if prev.repRoleNm == "" then (if role != "" then role else Actor) else prev.repRoleNm;
    Bucket(if key in b.recs then b.order else b.order + [key],
           b.recs[key := Person(code, name, repRoleNm, prev.films + [film])])
  }

  /** _push_person on the bucket's value: Crash where the code raises (entry.get
      on a str, .strip() on a non-str), the bucket unchanged for a blank name. */
  function Pushed(b: Bucket, hint: string, entry: Value, ref: FilmRef): Result<Bucket> {
    var e :- Fields(entry);
    var name :- TextOf(e, NameKeys);
    if name == "" then Ok(b)
    else
      var code :- TextOf(e, ["peopleCd", "staffCd"]);
      var raw :- RawRole(e, hint);
      Ok(Filed(b, code, name, NormRole(raw, hint), FilmOf(e, ref)))
  }

  predicate NoDup(s: seq<string>) {
    forall i, j :: 0 <= i < j < |s| ==> s[i] != s[j]
  }

  /** An index date: empty or YYYYMMDD. */
  predicate DateOk(d: string) {
    d == "" || IsYmd(d)
  }

  predicate FilmsDated(films: seq<Film>) {
    forall i :: 0 <= i < |films| ==> DateOk(films[i].openDt)
  }

  /** The keys of the accumulator: each listed once in insertion order, and
      each record filed under the key its own code and name give. */
  ghost predicate KeysOk(b: Bucket) {
    && NoDup(b.order)
    && (forall k :: k in b.recs <==> k in b.order)
    && (forall k :: k in b.recs ==> KeyOf(b.recs[k]) == k)
  }

  /** The invariant of the accumulator: its keys are consistent, every role is
      set and every film date is normalised. */
  ghost predicate BucketOk(b: Bucket) {
    && KeysOk(b)
    && (forall k :: k in b.recs ==> b.recs[k].repRoleNm != "")
    && (forall k :: k in b.recs ==> FilmsDated(b.recs[k].films))
  }

  lemma NoDupAppend(s: seq<string>, k: string)
    requires NoDup(s) && k !in s
    ensures NoDup(s + [k])
  {
  }

  lemma FiledKeepsOk(b: Bucket, code: string, name: string, role: string, film: Film)
    requires BucketOk(b) && DateOk(film.openDt)
    ensures BucketOk(Filed(b, code, name, role, film))
  {
    var key := PersonKey(code, name);
    if key !in b.recs {
      NoDupAppend(b.order, key);
    }
    var prev := if key in b.recs then b.recs[key] else Fresh;
    assert FilmsDated(prev.films);
    assert FilmsDated(prev.films + [film]);
  }

  /** The effect of Filed on the records, without reference to their order. */
  lemma FiledEffect(b: Bucket, code: string, name: string, role: string, film: Film)
    ensures var b' := Filed(b, code, name, role, film);
            var key := PersonKey(code, name);
            && b'.recs.Keys == b.recs.Keys + {key}
            && b'.recs[key].peopleNm == name && b'.recs[key].peopleCd == code
            && b'.recs[key].films == (if key in b.recs then b.recs[key].films else []) + [film]
            && (key in b.recs && b.recs[key].repRoleNm != "" ==> b'.recs[key].repRoleNm == b.recs[key].repRoleNm)
            && (forall k :: k in b.recs && k != key ==> b'.recs[k] == b.recs[k])
  {
  }

  /** Every push keeps the invariant. */
  lemma PushedKeepsOk(b: Bucket, hint: string, entry: Value, ref: FilmRef)
    requires BucketOk(b) && DateOk(ref.openDt)
    ensures Pushed(b, hint, entry, ref).Ok? ==> BucketOk(Pushed(b, hint, entry, ref).value)
  {
    var r := Pushed(b, hint, entry, ref);
    if r.Ok? && entry.Obj? {
      var e := entry.fields;
      var name := TextOf(e, NameKeys).value;
      if name != "" {
        var code := TextOf(e, ["peopleCd", "staffCd"]).value;
        var raw := RawRole(e, hint).value;
        FiledKeepsOk(b, code, name, NormRole(raw, hint), FilmOf(e, ref));
      }
    }
  }

  /** A blank name drops the entry: nothing changes. */
  lemma BlankNameDropped(b: Bucket, hint: string, e: map<string, Value>, ref: FilmRef)
    requires TextOf(e, NameKeys) == Ok("")
    ensures Pushed(b, hint, Obj(e), ref) == Ok(b)
  {
  }

  /** A str entry crashes: entry.get is called before the isinstance check. */
  lemma StrEntryCrashes(b: Bucket, hint: string, s: string, ref: FilmRef)
    ensures Pushed(b, hint, Str(s), ref).Crash?
  {
  }

  /** An accepted push files the entry under the code, or under "NM:"+name when
      there is no code; it overwrites name and code, appends exactly this movie
      to the filmography, and leaves every other record alone. */
  lemma PushEffect(b: Bucket, hint: string, e: map<string, Value>, ref: FilmRef, name: string, code: string)
    requires TextOf(e, NameKeys) == Ok(name) && name != ""
    requires TextOf(e, ["peopleCd", "staffCd"]) == Ok(code)
    requires Pushed(b, hint, Obj(e), ref).Ok?
    ensures var b' := Pushed(b, hint, Obj(e), ref).value;
            var key := if code != "" then code else "NM:" + name;
            && b'.recs.Keys == b.recs.Keys + {key}
            && b'.recs[key].peopleNm == name && b'.recs[key].peopleCd == code
            && b'.recs[key].films == (if key in b.recs then b.recs[key].films else []) + [FilmOf(e, ref)]
            && (forall k :: k in b.recs && k != key ==> b'.recs[k] == b.recs[k])
  {
    var raw := RawRole(e, hint).value;
    FiledEffect(b, code, name, NormRole(raw, hint), FilmOf(e, ref));
  }

  /** A name given only as text (actorsNm, directorNm) has no code: it is filed
      under "NM:" + name, with the hint as its role and an empty part. */
  lemma NameEntryFiled(b: Bucket, hint: string, nm: string, ref: FilmRef)
    requires nm != "" && Trimmed(nm)
    ensures Pushed(b, hint, NameEntry(nm), ref)
         == Ok(Filed(b, "", nm, NormRole(Strip(hint), hint), Film(ref.movieCd, ref.movieNm, ref.openDt, Str(""))))
    ensures PersonKey("", nm) == "NM:" + nm
  {
    var e := map["peopleNm" := Str(nm)];
    assert FirstTruthy(e, NameKeys) == Some(Str(nm));
    StripOfTrimmed(nm);
    assert FirstTruthy(e, ["peopleCd", "staffCd"]) == None;
    assert FirstTruthy(e, ["repRoleNm", "staffRoleNm", "role"]) == None;
    assert FirstTruthy(e, ["castNm", "cast"]) == None;
    assert Strip("") == "";
  }

  /** The first role seen for a key sticks: later pushes keep it. */
  lemma FirstRoleSticks(b: Bucket, hint: string, e: map<string, Value>, ref: FilmRef, key: string)
    requires BucketOk(b) && key in b.recs
    requires Pushed(b, hint, Obj(e), ref).Ok?
    ensures key in Pushed(b, hint, Obj(e), ref).value.recs
    ensures Pushed(b, hint, Obj(e), ref).value.recs[key].repRoleNm == b.recs[key].repRoleNm
  {
    var name := TextOf(e, NameKeys).value;
    if name != "" {
      var code := TextOf(e, ["peopleCd", "staffCd"]).value;
      var raw := RawRole(e, hint).value;
      FiledEffect(b, code, name, NormRole(raw, hint), FilmOf(e, ref));
    }
  }

  /** A new key takes the normalised role: a role text naming 감독 gives 감독,
      under the actor hint any other role gives 배우, and the role is never empty. */
  lemma NewKeyRole(b: Bucket, hint: string, e: map<string, Value>, ref: FilmRef, name: string, code: string, raw: string)
    requires TextOf(e, NameKeys) == Ok(name) && name != ""
    requires TextOf(e, ["peopleCd", "staffCd"]) == Ok(code)
    requires RawRole(e, hint) == Ok(raw)
    requires PersonKey(code, name) !in b.recs
    ensures Pushed(b, hint, Obj(e), ref).Ok?
    ensures var rec := Pushed(b, hint, Obj(e), ref).value.recs[PersonKey(code, name)];
            && (Contains(raw, Director) ==> rec.repRoleNm == Director)
            && (hint == Actor && !Contains(raw, Director) ==> rec.repRoleNm == Actor)
            && rec.repRoleNm != ""
  {
  }

  // ---------- the six record shapes ----------

  /** The loop over as_list(directors), as_list(actors) or as_list(casts): dicts
      and strs are pushed, anything else is skipped. */
  function PushAll(b: Bucket, hint: string, entries: seq<Value>, ref: FilmRef): Result<Bucket> {
    if entries == [] then Ok(b)
    else
      var b1 :- PushAll(b, hint, entries[..|entries| - 1], ref);
      var entry := entries[|entries| - 1];
      if entry.Obj? || entry.Str? then Pushed(b1, hint, entry, ref) else Ok(b1)
  }

  /** A lone director or actor and a list holding just it are pushed alike. */
  lemma LoneEntryAsList(b: Bucket, hint: string, v: Value, ref: FilmRef)
    requires !v.Null? && !v.List?
    ensures PushAll(b, hint, AsList(v), ref) == PushAll(b, hint, AsList(List([v])), ref)
    ensures PushAll(b, hint, AsList(v), ref) == (if v.Obj? || v.Str? then Pushed(b, hint, v, ref) else Ok(b))
  {
    var s := AsList(v);
    assert s == [v] && s[..|s| - 1] == [];
  }

  /** One staffs entry: pushed as director when its role mentions 감독 and, in
      addition, as actor when it mentions 배우. Entries that are not dicts are skipped. */
  function StaffPushed(b: Bucket, s: Value, ref: FilmRef): Result<Bucket> {
    if !s.Obj? then Ok(b)
    else
      var role :- TextOf(s.fields, ["staffRoleNm", "role"]);
      RolePushed(b, role, s, ref)
  }

  function RolePushed(b: Bucket, role: string, s: Value, ref: FilmRef): Result<Bucket> {
    var b1 :- if Contains(role, Director) then Pushed(b, Director, s, ref) else Ok(b);
    if Contains(role, Actor) then Pushed(b1, Actor, s, ref) else Ok(b1)
  }

  function PushStaffs(b: Bucket, staffs: seq<Value>, ref: FilmRef): Result<Bucket> {
    if staffs == [] then Ok(b)
    else
      var b1 :- PushStaffs(b, staffs[..|staffs| - 1], ref);
      StaffPushed(b1, staffs[|staffs| - 1], ref)
  }

  /** The dict {"peopleNm": nm} pushed for a name given as text. */
  function NameEntry(nm: string): Value {
    Obj(map["peopleNm" := Str(nm)])
  }

  function PushNames(b: Bucket, hint: string, names: seq<string>, ref: FilmRef): Result<Bucket> {
    if names == [] then Ok(b)
    else
      var b1 :- PushNames(b, hint, names[..|names| - 1], ref);
      Pushed(b1, hint, NameEntry(names[|names| - 1]), ref)
  }

  /** The stripped parts that are not blank. */
  function NonBlankParts(parts: seq<string>): (r: seq<string>)
    ensures forall i :: 0 <= i < |r| ==> r[i] != "" && Trimmed(r[i])
    ensures |r| <= |parts|
  {
    if parts == [] then []
    else
      var init := NonBlankParts(parts[..|parts| - 1]);
      var p := Strip(parts[|parts| - 1]);
      if p != "" then init + [p] else init
  }

  /** The names of actorsNm: "，" is read as ",", then split, stripped, blanks dropped. */
  function SplitNames(t: string): seq<string> {
    NonBlankParts(Split(ReplaceChar(t, '，', ','), ','))
  }

  lemma {:induction false} NonBlankPartsAvoid(parts: seq<string>, c: char)
    requires forall p :: p in parts ==> c !in p
    ensures forall i :: 0 <= i < |NonBlankParts(parts)| ==> c !in NonBlankParts(parts)[i]
  {
    if parts != [] {
      NonBlankPartsAvoid(parts[..|parts| - 1], c);
      assert parts[|parts| - 1] in parts;
      StripAvoids(parts[|parts| - 1], c);
    }
  }

  /** Every name taken from actorsNm is non-blank, trimmed, and free of both commas. */
  lemma SplitNamesClean(t: string)
    ensures forall i :: 0 <= i < |SplitNames(t)| ==>
      SplitNames(t)[i] != "" && Trimmed(SplitNames(t)[i]) && ',' !in SplitNames(t)[i] && '，' !in SplitNames(t)[i]
  {
    var u := ReplaceChar(t, '，', ',');
    assert '，' !in u by {
      forall i | 0 <= i < |u| ensures u[i] != '，' {
      }
    }
    SplitAvoids(u, ',', '，');
    NonBlankPartsAvoid(Split(u, ','), ',');
    NonBlankPartsAvoid(Split(u, ','), '，');
  }

  /** One detail record: its directors, actors, casts, staffs, actorsNm and
      directorNm, in that order. A falsy record is skipped. */
  function RecordPushed(b: Bucket, data: Value): Result<Bucket> {
    if !Truthy(data) then Ok(b)
    else
      var d :- Fields(data);
      var movieCd :- TextOf(d, ["movieCd"]);
      var movieNm :- TextOf(d, ["movieNm"]);
      var rawDt :- RawText(d, ["openDt"]);
      ShapesPushed(b, d, FilmRef(movieCd, movieNm, ParseOpenDt(rawDt)))
  }

  /** The four list shapes, then the two text shapes. */
  function ShapesPushed(b: Bucket, d: map<string, Value>, ref: FilmRef): Result<Bucket> {
    var b1 :- PushAll(b, Director, AsList(Get(d, "directors")), ref);
    var b2 :- PushAll(b1, Actor, AsList(Get(d, "actors")), ref);
    var b3 :- PushAll(b2, Actor, AsList(Get(d, "casts")), ref);
    var b4 :- PushStaffs(b3, AsList(Get(d, "staffs")), ref);
    NamesPushed(b4, d, ref)
  }

  /** actorsNm, split into names, then directorNm as one name. */
  function NamesPushed(b: Bucket, d: map<string, Value>, ref: FilmRef): Result<Bucket> {
    var actorsNm :- TextOf(d, ["actorsNm"]);
    var b5 :- if actorsNm != "" then PushNames(b, Actor, SplitNames(actorsNm), ref) else Ok(b);
    var directorNm :- TextOf(d, ["directorNm"]);
    if directorNm != "" then Pushed(b5, Director, NameEntry(directorNm), ref) else Ok(b5)
  }

  /** The bucket after the loop over the cache. */
  function Collect(cache: seq<Value>): Result<Bucket> {
    if cache == [] then Ok(Empty)
    else
      var b :- Collect(cache[..|cache| - 1]);
      RecordPushed(b, cache[|cache| - 1])
  }

  // ---------- invariant preservation through the shapes ----------

  lemma {:induction false} PushAllKeepsOk(b: Bucket, hint: string, entries: seq<Value>, ref: FilmRef)
    requires BucketOk(b) && DateOk(ref.openDt)
    ensures PushAll(b, hint, entries, ref).Ok? ==> BucketOk(PushAll(b, hint, entries, ref).value)
  {
    if entries != [] {
      PushAllKeepsOk(b, hint, entries[..|entries| - 1], ref);
      var b1 := PushAll(b, hint, entries[..|entries| - 1], ref);
      if b1.Ok? {
        PushedKeepsOk(b1.value, hint, entries[|entries| - 1], ref);
      }
    }
  }

  lemma RolePushedKeepsOk(b: Bucket, role: string, s: Value, ref: FilmRef)
    requires BucketOk(b) && DateOk(ref.openDt)
    ensures RolePushed(b, role, s, ref).Ok? ==> BucketOk(RolePushed(b, role, s, ref).value)
  {
    PushedKeepsOk(b, Director, s, ref);
    PushedKeepsOk(b, Actor, s, ref);
    var b1 := Pushed(b, Director, s, ref);
    if b1.Ok? {
      PushedKeepsOk(b1.value, Actor, s, ref);
    }
  }

  /** A staffs entry whose role names both 감독 and 배우 is pushed twice: its
      key gets this movie appended two times, and no other record changes. */
  lemma StaffPushedTwice(b: Bucket, e: map<string, Value>, ref: FilmRef, role: string, name: string, code: string)
    requires TextOf(e, ["staffRoleNm", "role"]) == Ok(role) && Contains(role, Director) && Contains(role, Actor)
    requires TextOf(e, NameKeys) == Ok(name) && name != ""
    requires TextOf(e, ["peopleCd", "staffCd"]) == Ok(code)
    requires StaffPushed(b, Obj(e), ref).Ok?
    ensures var b' := StaffPushed(b, Obj(e), ref).value;
            var key := PersonKey(code, name);
            && b'.recs.Keys == b.recs.Keys + {key}
            && b'.recs[key].films == (if key in b.recs then b.recs[key].films else []) + [FilmOf(e, ref), FilmOf(e, ref)]
            && (forall k :: k in b.recs && k != key ==> b'.recs[k] == b.recs[k])
  {
    StaffIsRole(b, e, ref, role);
    RoleBoth(b, role, Obj(e), ref);
    var b1 := Pushed(b, Director, Obj(e), ref).value;
    TwoPushes(b, b1, StaffPushed(b, Obj(e), ref).value, e, ref, name, code);
  }

  /** A dict staffs entry is pushed by its stripped staffRoleNm or role. */
  lemma StaffIsRole(b: Bucket, e: map<string, Value>, ref: FilmRef, role: string)
    requires TextOf(e, ["staffRoleNm", "role"]) == Ok(role)
    ensures StaffPushed(b, Obj(e), ref) == RolePushed(b, role, Obj(e), ref)
  {
  }

  /** Pushing one entry as director and then as actor appends its movie twice. */
  lemma TwoPushes(b: Bucket, b1: Bucket, b2: Bucket, e: map<string, Value>, ref: FilmRef, name: string, code: string)
    requires TextOf(e, NameKeys) == Ok(name) && name != ""
    requires TextOf(e, ["peopleCd", "staffCd"]) == Ok(code)
    requires Pushed(b, Director, Obj(e), ref) == Ok(b1) && Pushed(b1, Actor, Obj(e), ref) == Ok(b2)
    ensures var key := PersonKey(code, name);
            && b2.recs.Keys == b.recs.Keys + {key}
            && b2.recs[key].films == (if key in b.recs then b.recs[key].films else []) + [FilmOf(e, ref), FilmOf(e, ref)]
            && (forall k :: k in b.recs && k != key ==> b2.recs[k] == b.recs[k])
  {
    PushAppends(b, b1, Director, e, ref, name, code);
    PushAppends(b1, b2, Actor, e, ref, name, code);
    AppendTwice(b, b1, b2, PersonKey(code, name), FilmOf(e, ref));
  }

  /** PushEffect, stated for a named result. */
  lemma PushAppends(b: Bucket, b1: Bucket, hint: string, e: map<string, Value>, ref: FilmRef, name: string, code: string)
    requires TextOf(e, NameKeys) == Ok(name) && name != ""
    requires TextOf(e, ["peopleCd", "staffCd"]) == Ok(code)
    requires Pushed(b, hint, Obj(e), ref) == Ok(b1)
    ensures var key := PersonKey(code, name);
            && b1.recs.Keys == b.recs.Keys + {key}
            && b1.recs[key].films == (if key in b.recs then b.recs[key].films else []) + [FilmOf(e, ref)]
            && (forall k :: k in b.recs && k != key ==> b1.recs[k] == b.recs[k])
  {
    PushEffect(b, hint, e, ref, name, code);
  }

  /** Two updates that each append f under key and leave the other records
      alone append f twice. */
  lemma AppendTwice(b: Bucket, b1: Bucket, b2: Bucket, key: string, f: Film)
    requires b1.recs.Keys == b.recs.Keys + {key}
    requires b1.recs[key].films == (if key in b.recs then b.recs[key].films else []) + [f]
    requires forall k :: k in b.recs && k != key ==> b1.recs[k] == b.recs[k]
    requires b2.recs.Keys == b1.recs.Keys + {key}
    requires b2.recs[key].films == (if key in b1.recs then b1.recs[key].films else []) + [f]
    requires forall k :: k in b1.recs && k != key ==> b2.recs[k] == b1.recs[k]
    ensures b2.recs.Keys == b.recs.Keys + {key}
    ensures b2.recs[key].films == (if key in b.recs then b.recs[key].films else []) + [f, f]
    ensures forall k :: k in b.recs && k != key ==> b2.recs[k] == b.recs[k]
  {
    var before := if key in b.recs then b.recs[key].films else [];
    assert (before + [f]) + [f] == before + [f, f];
  }

  /** A role naming both 감독 and 배우 pushes as director, then as actor. */
  lemma RoleBoth(b: Bucket, role: string, s: Value, ref: FilmRef)
    requires Contains(role, Director) && Contains(role, Actor)
    ensures RolePushed(b, role, s, ref) ==
              if Pushed(b, Director, s, ref).Crash? then Crash
              else Pushed(Pushed(b, Director, s, ref).value, Actor, s, ref)
  {
  }

  lemma StaffPushedKeepsOk(b: Bucket, s: Value, ref: FilmRef)
    requires BucketOk(b) && DateOk(ref.openDt)
    ensures StaffPushed(b, s, ref).Ok? ==> BucketOk(StaffPushed(b, s, ref).value)
  {
    if s.Obj? {
      var role := TextOf(s.fields, ["staffRoleNm", "role"]);
      if role.Ok? {
        RolePushedKeepsOk(b, role.value, s, ref);
      }
    }
  }

  lemma {:induction false} PushStaffsKeepsOk(b: Bucket, staffs: seq<Value>, ref: FilmRef)
    requires BucketOk(b) && DateOk(ref.openDt)
    ensures PushStaffs(b, staffs, ref).Ok? ==> BucketOk(PushStaffs(b, staffs, ref).value)
  {
    if staffs != [] {
      PushStaffsKeepsOk(b, staffs[..|staffs| - 1], ref);
      var b1 := PushStaffs(b, staffs[..|staffs| - 1], ref);
      if b1.Ok? {
        StaffPushedKeepsOk(b1.value, staffs[|staffs| - 1], ref);
      }
    }
  }

  lemma {:induction false} PushNamesKeepsOk(b: Bucket, hint: string, names: seq<string>, ref: FilmRef)
    requires BucketOk(b) && DateOk(ref.openDt)
    ensures PushNames(b, hint, names, ref).Ok? ==> BucketOk(PushNames(b, hint, names, ref).value)
  {
    if names != [] {
      PushNamesKeepsOk(b, hint, names[..|names| - 1], ref);
      var b1 := PushNames(b, hint, names[..|names| - 1], ref);
      if b1.Ok? {
        PushedKeepsOk(b1.value, hint, NameEntry(names[|names| - 1]), ref);
      }
    }
  }

  lemma NamesPushedKeepsOk(b: Bucket, d: map<string, Value>, ref: FilmRef)
    requires BucketOk(b) && DateOk(ref.openDt)
    ensures NamesPushed(b, d, ref).Ok? ==> BucketOk(NamesPushed(b, d, ref).value)
  {
    var actorsNm := TextOf(d, ["actorsNm"]);
    if actorsNm.Ok? {
      PushNamesKeepsOk(b, Actor, SplitNames(actorsNm.value), ref);
      var b5 := if actorsNm.value != "" then PushNames(b, Actor, SplitNames(actorsNm.value), ref) else Ok(b);
      var directorNm := TextOf(d, ["directorNm"]);
      if b5.Ok? && directorNm.Ok? {
        PushedKeepsOk(b5.value, Director, NameEntry(directorNm.value), ref);
      }
    }
  }

  lemma ShapesPushedKeepsOk(b: Bucket, d: map<string, Value>, ref: FilmRef)
    requires BucketOk(b) && DateOk(ref.openDt)
    ensures ShapesPushed(b, d, ref).Ok? ==> BucketOk(ShapesPushed(b, d, ref).value)
  {
    PushAllKeepsOk(b, Director, AsList(Get(d, "directors")), ref);
    var b1 := PushAll(b, Director, AsList(Get(d, "directors")), ref);
    if b1.Ok? {
      PushAllKeepsOk(b1.value, Actor, AsList(Get(d, "actors")), ref);
      var b2 := PushAll(b1.value, Actor, AsList(Get(d, "actors")), ref);
      if b2.Ok? {
        PushAllKeepsOk(b2.value, Actor, AsList(Get(d, "casts")), ref);
        var b3 := PushAll(b2.value, Actor, AsList(Get(d, "casts")), ref);
        if b3.Ok? {
          PushStaffsKeepsOk(b3.value, AsList(Get(d, "staffs")), ref);
          var b4 := PushStaffs(b3.value, AsList(Get(d, "staffs")), ref);
          if b4.Ok? {
            NamesPushedKeepsOk(b4.value, d, ref);
          }
        }
      }
    }
  }

  lemma RecordPushedKeepsOk(b: Bucket, data: Value)
    requires BucketOk(b)
    ensures RecordPushed(b, data).Ok? ==> BucketOk(RecordPushed(b, data).value)
  {
    if Truthy(data) && data.Obj? {
      var d := data.fields;
      var movieCd := TextOf(d, ["movieCd"]);
      var movieNm := TextOf(d, ["movieNm"]);
      var rawDt := RawText(d, ["openDt"]);
      if movieCd.Ok? && movieNm.Ok? && rawDt.Ok? {
        ShapesPushedKeepsOk(b, d, FilmRef(movieCd.value, movieNm.value, ParseOpenDt(rawDt.value)));
      }
    }
  }

  /** The invariant holds of the accumulator after the whole cache. */
  lemma {:induction false} CollectOk(cache: seq<Value>)
    ensures Collect(cache).Ok? ==> BucketOk(Collect(cache).value)
  {
    if cache != [] {
      CollectOk(cache[..|cache| - 1]);
      var b := Collect(cache[..|cache| - 1]);
      if b.Ok? {
        RecordPushedKeepsOk(b.value, cache[|cache| - 1]);
      }
    }
  }

  // ---------- the final sorts ----------

  /** f["openDt"] or "00000000": undated films sort as the earliest date. */
  function FilmKey(f: Film): string {
    if f.openDt != "" then f.openDt else "00000000"
  }

  /** The order of sort(key=FilmKey, reverse=True): later dates first. */
  predicate FilmLe(a: Film, b: Film) {
    StrLe(FilmKey(b), FilmKey(a))
  }

  lemma FilmLeTotalPreorder()
    ensures TotalPreorder(FilmLe)
  {
    StrLeTotalOrder();
  }

  function WithSortedFilms(p: Person): Person {
    p.(films := SortBy(p.films, FilmLe))
  }

  /** The loop `for rec in people.values(): rec["films"].sort(...)`. */
  function SortedFilms(b: Bucket): Bucket {
    Bucket(b.order, map k | k in b.recs :: WithSortedFilms(b.recs[k]))
  }

  lemma SortedFilmsKeysOk(b: Bucket)
    requires KeysOk(b)
    ensures KeysOk(SortedFilms(b))
  {
  }

  /** people.values(): the records in the order their keys were first seen. */
  function ValuesInOrder(order: seq<string>, recs: map<string, Person>): seq<Person> {
    if order == [] then []
    else
      var init := ValuesInOrder(order[..|order| - 1], recs);
      var k := order[|order| - 1];
      if k in recs then init + [recs[k]] else init
  }

  /** The key of sorted(..., key=lambda r: (r["peopleNm"], r["peopleCd"])). */
  predicate PersonLe(a: Person, b: Person) {
    PairLe((a.peopleNm, a.peopleCd), (b.peopleNm, b.peopleCd))
  }

  lemma PersonLeTotalPreorder()
    ensures TotalPreorder(PersonLe)
  {
    PairLeTotalOrder();
  }

  /** build_people_index: the accumulated people, sorted by name then code. */
  function PeopleIndexOf(cache: seq<Value>): Result<PeopleIndex> {
    var b :- Collect(cache);
    var sb := SortedFilms(b);
    var people := SortBy(ValuesInOrder(sb.order, sb.recs), PersonLe);
    Ok(PeopleIndex(|people|, people))
  }

  lemma {:induction false} ValuesInOrderFacts(order: seq<string>, recs: map<string, Person>)
    requires forall i :: 0 <= i < |order| ==> order[i] in recs
    ensures |ValuesInOrder(order, recs)| == |order|
    ensures forall i :: 0 <= i < |order| ==> ValuesInOrder(order, recs)[i] == recs[order[i]]
  {
    if order != [] {
      ValuesInOrderFacts(order[..|order| - 1], recs);
    }
  }

  /** A sequence without repeated elements holds each value at most once. */
  lemma {:induction false} DistinctCount<T>(s: seq<T>, x: T)
    requires forall i, j :: 0 <= i < j < |s| ==> s[i] != s[j]
    ensures multiset(s)[x] <= 1
  {
    if s != [] {
      var init := s[..|s| - 1];
      DistinctCount(init, x);
      assert s == init + [s[|s| - 1]];
      if s[|s| - 1] == x {
        assert x !in init;
      }
    }
  }

  /** A value at two positions is counted twice. */
  lemma RepeatCount<T>(s: seq<T>, i: int, j: int)
    requires 0 <= i < j < |s| && s[i] == s[j]
    ensures multiset(s)[s[i]] >= 2
  {
    assert s == s[..i] + [s[i]] + s[i + 1..j] + [s[j]] + s[j + 1..];
  }

  /** people lists the records of recs, each once. */
  ghost predicate ListsRecords(people: seq<Person>, recs: map<string, Person>) {
    && (forall i :: 0 <= i < |people| ==> KeyOf(people[i]) in recs && people[i] == recs[KeyOf(people[i])])
    && (forall k :: k in recs ==> recs[k] in people)
    && (forall i, j :: 0 <= i < j < |people| ==> KeyOf(people[i]) != KeyOf(people[j]))
  }

  lemma ValuesListRecords(b: Bucket)
    requires KeysOk(b)
    ensures ListsRecords(ValuesInOrder(b.order, b.recs), b.recs)
    ensures |ValuesInOrder(b.order, b.recs)| == |b.order|
  {
    var v := ValuesInOrder(b.order, b.recs);
    ValuesInOrderFacts(b.order, b.recs);
    assert forall i :: 0 <= i < |v| ==> KeyOf(v[i]) == b.order[i];
    forall k | k in b.recs ensures b.recs[k] in v {
      var n :| 0 <= n < |b.order| && b.order[n] == k;
      assert v[n] == b.recs[k];
    }
  }

  lemma DistinctKeysDistinct(v: seq<Person>)
    requires forall i, j :: 0 <= i < j < |v| ==> KeyOf(v[i]) != KeyOf(v[j])
    ensures forall i, j :: 0 <= i < j < |v| ==> v[i] != v[j]
  {
  }

  /** A permutation of a listing of the records is one too. */
  lemma PermutedListsRecords(v: seq<Person>, people: seq<Person>, recs: map<string, Person>)
    requires ListsRecords(v, recs)
    requires multiset(people) == multiset(v)
    ensures ListsRecords(people, recs)
  {
    forall i | 0 <= i < |people| ensures KeyOf(people[i]) in recs && people[i] == recs[KeyOf(people[i])] {
      assert people[i] in multiset(v);
    }
    forall k | k in recs ensures recs[k] in people {
      assert recs[k] in multiset(v);
    }
    DistinctKeysDistinct(v);
    forall i, j | 0 <= i < j < |people| ensures KeyOf(people[i]) != KeyOf(people[j]) {
      if KeyOf(people[i]) == KeyOf(people[j]) {
        assert people[i] == people[j];
        RepeatCount(people, i, j);
        DistinctCount(v, people[i]);
      }
    }
  }

  /** The people index lists every accumulated person exactly once (count is that
      number), strictly increasing by (peopleNm, peopleCd), each filmography
      sorted newest first, keeping its films and the order of same-date films. */
  lemma PeopleIndexShape(cache: seq<Value>)
    requires PeopleIndexOf(cache).Ok?
    ensures var b := Collect(cache).value;
            var ix := PeopleIndexOf(cache).value;
            && ix.count == |ix.people| == |b.order|
            && (forall k :: k in b.recs ==> WithSortedFilms(b.recs[k]) in ix.people)
            && (forall i :: 0 <= i < |ix.people| ==>
                  KeyOf(ix.people[i]) in b.recs && ix.people[i] == WithSortedFilms(b.recs[KeyOf(ix.people[i])]))
            && (forall i, j :: 0 <= i < j < |ix.people| ==>
                  PersonLe(ix.people[i], ix.people[j]) && KeyOf(ix.people[i]) != KeyOf(ix.people[j]))
  {
    var b := Collect(cache).value;
    CollectOk(cache);
    var sb := SortedFilms(b);
    SortedFilmsKeysOk(b);
    var v := ValuesInOrder(sb.order, sb.recs);
    ValuesListRecords(sb);
    PersonLeTotalPreorder();
    SortBySorted(v, PersonLe);
    PermutedListsRecords(v, SortBy(v, PersonLe), sb.recs);
  }

  /** A sorted filmography is a permutation of the films, newest first, and films
      with the same date key keep the order in which they were appended. */
  lemma SortedFilmsShape(p: Person, f: Film)
    ensures multiset(WithSortedFilms(p).films) == multiset(p.films)
    ensures SortedBy(WithSortedFilms(p).films, FilmLe)
    ensures Ties(WithSortedFilms(p).films, FilmLe, f) == Ties(p.films, FilmLe, f)
  {
    FilmLeTotalPreorder();
    SortBySorted(p.films, FilmLe);
    SortByStable(p.films, FilmLe, f);
  }

  /** In a sorted filmography of normalised dates, an undated film is followed
      only by undated films or ones dated 00000000. */
  lemma UndatedLast(films: seq<Film>, i: int, j: int)
    requires SortedBy(films, FilmLe) && FilmsDated(films)
    requires 0 <= i < j < |films| && films[i].openDt == ""
    ensures films[j].openDt == "" || films[j].openDt == "00000000"
  {
    assert FilmLe(films[i], films[j]);
    var t := films[j].openDt;
    if t != "" && t != "00000000" {
      assert DateOk(films[j].openDt);
      assert Zeros(8) == "00000000";
      ZerosLeast(t);
    }
  }

  /** In the people index, (peopleNm, peopleCd) strictly increases: two people
      never share both name and code. */
  lemma PeopleStrictlyOrdered(cache: seq<Value>, i: int, j: int)
    requires PeopleIndexOf(cache).Ok?
    requires 0 <= i < j < |PeopleIndexOf(cache).value.people|
    ensures var ps := PeopleIndexOf(cache).value.people;
            PersonLe(ps[i], ps[j]) && !PersonLe(ps[j], ps[i])
  {
    PeopleIndexShape(cache);
    PairLeTotalOrder();
  }

  // ---------- the crash of one step ends the fold ----------

  lemma {:induction false} PushAllCrashSpreads(b: Bucket, hint: string, entries: seq<Value>, ref: FilmRef, n: nat)
    requires n <= |entries| && PushAll(b, hint, entries[..n], ref).Crash?
    ensures PushAll(b, hint, entries, ref).Crash?
    decreases |entries| - n
  {
    if n < |entries| {
      assert entries[..n + 1][..n] == entries[..n];
      PushAllCrashSpreads(b, hint, entries, ref, n + 1);
    } else {
      assert entries[..n] == entries;
    }
  }

  lemma {:induction false} PushStaffsCrashSpreads(b: Bucket, staffs: seq<Value>, ref: FilmRef, n: nat)
    requires n <= |staffs| && PushStaffs(b, staffs[..n], ref).Crash?
    ensures PushStaffs(b, staffs, ref).Crash?
    decreases |staffs| - n
  {
    if n < |staffs| {
      assert staffs[..n + 1][..n] == staffs[..n];
      PushStaffsCrashSpreads(b, staffs, ref, n + 1);
    } else {
      assert staffs[..n] == staffs;
    }
  }

  lemma {:induction false} PushNamesCrashSpreads(b: Bucket, hint: string, names: seq<string>, ref: FilmRef, n: nat)
    requires n <= |names| && PushNames(b, hint, names[..n], ref).Crash?
    ensures PushNames(b, hint, names, ref).Crash?
    decreases |names| - n
  {
    if n < |names| {
      assert names[..n + 1][..n] == names[..n];
      PushNamesCrashSpreads(b, hint, names, ref, n + 1);
    } else {
      assert names[..n] == names;
    }
  }

  lemma {:induction false} CollectCrashSpreads(cache: seq<Value>, n: nat)
    requires n <= |cache| && Collect(cache[..n]).Crash?
    ensures Collect(cache).Crash?
    decreases |cache| - n
  {
    if n < |cache| {
      assert cache[..n + 1][..n] == cache[..n];
      CollectCrashSpreads(cache, n + 1);
    } else {
      assert cache[..n] == cache;
    }
  }

  // ---------- the accumulator as the script keeps it ----------

  /** The defaultdict `people`: the keys in insertion order and the records. */
  class PeopleBucket {
    var order: seq<string>
    var recs: map<string, Person>

    function State(): Bucket
      reads this
    {
      Bucket(order, recs)
    }

    constructor()
      ensures State() == Empty
    {
      order := [];
      recs := map[];
    }

    /** _push_person; ok is false where the script raises. */
    method Push(hint: string, entry: Value, ref: FilmRef) returns (ok: bool)
      modifies this
      ensures ok <==> Pushed(old(State()), hint, entry, ref).Ok?
      ensures ok ==> State() == Pushed(old(State()), hint, entry, ref).value
    {
      if !entry.Obj? {
        return false;
      }
      var e := entry.fields;
      var name := TextOf(e, NameKeys);
      if name.Crash? {
        return false;
      }
      if name.value == "" {
        return true;
      }
      var code := TextOf(e, ["peopleCd", "staffCd"]);
      var raw := RawRole(e, hint);
      if code.Crash? || raw.Crash? {
        return false;
      }
      ghost var b0 := State();
      var role := NormRole(raw.value, hint);
      assert Pushed(b0, hint, entry, ref) == Ok(Filed(b0, code.value, name.value, role, FilmOf(e, ref)));
      File(code.value, name.value, role, FilmOf(e, ref));
      return true;
    }

    /** The update of bucket[key] at the end of _push_person. */
    method File(code: string, name: string, role: string, film: Film)
      modifies this
      ensures State() == Filed(old(State()), code, name, role, film)
    {
      var key := PersonKey(code, name);
      if key !in recs {
        order := order + [key];
        recs := recs[key := Fresh];
      }
      var rec := recs[key].(peopleNm := name, peopleCd := code);
      if rec.repRoleNm == "" {
        rec := rec.(repRoleNm := if role != "" then role else Actor);
      }
      rec := rec.(films := rec.films + [film]);
      recs := recs[key := rec];
    }

    /** The loops over directors, actors and casts. */
    method PushEach(hint: string, entries: seq<Value>, ref: FilmRef) returns (ok: bool)
      modifies this
      ensures ok <==> PushAll(old(State()), hint, entries, ref).Ok?
      ensures ok ==> State() == PushAll(old(State()), hint, entries, ref).value
    {
      ghost var b0 := State();
      var i := 0;
      while i < |entries|
        invariant 0 <= i <= |entries|
        invariant PushAll(b0, hint, entries[..i], ref) == Ok(State())
      {
        assert entries[..i + 1][..i] == entries[..i];
        var entry := entries[i];
        if entry.Obj? || entry.Str? {
          ok := Push(hint, entry, ref);
          if !ok {
            PushAllCrashSpreads(b0, hint, entries, ref, i + 1);
            return false;
          }
        }
        i := i + 1;
      }
      assert entries[..i] == entries;
      return true;
    }

    /** The loop over staffs. */
    method PushStaffList(staffs: seq<Value>, ref: FilmRef) returns (ok: bool)
      modifies this
      ensures ok <==> PushStaffs(old(State()), staffs, ref).Ok?
      ensures ok ==> State() == PushStaffs(old(State()), staffs, ref).value
    {
      ghost var b0 := State();
      var i := 0;
      while i < |staffs|
        invariant 0 <= i <= |staffs|
        invariant PushStaffs(b0, staffs[..i], ref) == Ok(State())
      {
        assert staffs[..i + 1][..i] == staffs[..i];
        var st := staffs[i];
        if st.Obj? {
          var role := TextOf(st.fields, ["staffRoleNm", "role"]);
          if role.Crash? {
            PushStaffsCrashSpreads(b0, staffs, ref, i + 1);
            return false;
          }
          ghost var before := State();
          if Contains(role.value, Director) {
            ok := Push(Director, st, ref);
            if !ok {
              PushStaffsCrashSpreads(b0, staffs, ref, i + 1);
              return false;
            }
          }
          if Contains(role.value, Actor) {
            ok := Push(Actor, st, ref);
            if !ok {
              PushStaffsCrashSpreads(b0, staffs, ref, i + 1);
              return false;
            }
          }
          assert RolePushed(before, role.value, st, ref) == Ok(State());
        }
        i := i + 1;
      }
      assert staffs[..i] == staffs;
      return true;
    }

    /** The loop over the names of actorsNm. */
    method PushNameList(hint: string, names: seq<string>, ref: FilmRef) returns (ok: bool)
      modifies this
      ensures ok <==> PushNames(old(State()), hint, names, ref).Ok?
      ensures ok ==> State() == PushNames(old(State()), hint, names, ref).value
    {
      ghost var b0 := State();
      var i := 0;
      while i < |names|
        invariant 0 <= i <= |names|
        invariant PushNames(b0, hint, names[..i], ref) == Ok(State())
      {
        assert names[..i + 1][..i] == names[..i];
        ghost var before := State();
        ok := Push(hint, NameEntry(names[i]), ref);
        assert PushNames(b0, hint, names[..i + 1], ref) == Pushed(before, hint, NameEntry(names[i]), ref);
        if !ok {
          PushNamesCrashSpreads(b0, hint, names, ref, i + 1);
          return false;
        }
        i := i + 1;
      }
      assert names[..i] == names;
      return true;
    }

    /** One iteration of the loop over the detail files. */
    method PushRecord(data: Value) returns (ok: bool)
      modifies this
      ensures ok <==> RecordPushed(old(State()), data).Ok?
      ensures ok ==> State() == RecordPushed(old(State()), data).value
    {
      if !Truthy(data) {
        return true;
      }
      if !data.Obj? {
        return false;
      }
      var d := data.fields;
      var movieCd := TextOf(d, ["movieCd"]);
      var movieNm := TextOf(d, ["movieNm"]);
      var rawDt := RawText(d, ["openDt"]);
      if movieCd.Crash? || movieNm.Crash? || rawDt.Crash? {
        return false;
      }
      var ref := FilmRef(movieCd.value, movieNm.value, ParseOpenDt(rawDt.value));
      ok := PushShapes(d, ref);
    }

    method PushShapes(d: map<string, Value>, ref: FilmRef) returns (ok: bool)
      modifies this
      ensures ok <==> ShapesPushed(old(State()), d, ref).Ok?
      ensures ok ==> State() == ShapesPushed(old(State()), d, ref).value
    {
      ok := PushEach(Director, AsList(Get(d, "directors")), ref);
      if !ok {
        return;
      }
      ok := PushEach(Actor, AsList(Get(d, "actors")), ref);
      if !ok {
        return;
      }
      ok := PushEach(Actor, AsList(Get(d, "casts")), ref);
      if !ok {
        return;
      }
      ok := PushStaffList(AsList(Get(d, "staffs")), ref);
      if !ok {
        return;
      }
      ok := PushTexts(d, ref);
    }

    method PushTexts(d: map<string, Value>, ref: FilmRef) returns (ok: bool)
      modifies this
      ensures ok <==> NamesPushed(old(State()), d, ref).Ok?
      ensures ok ==> State() == NamesPushed(old(State()), d, ref).value
    {
      var actorsNm := TextOf(d, ["actorsNm"]);
      if actorsNm.Crash? {
        return false;
      }
      if actorsNm.value != "" {
        ok := PushNameList(Actor, SplitNames(actorsNm.value), ref);
        if !ok {
          return;
        }
      }
      var directorNm := TextOf(d, ["directorNm"]);
      if directorNm.Crash? {
        return false;
      }
      if directorNm.value != "" {
        ok := Push(Director, NameEntry(directorNm.value), ref);
      } else {
        ok := true;
      }
    }

    /** Each filmography sorted in place, newest first. */
    method SortAllFilms()
      requires KeysOk(State())
      modifies this
      ensures State() == SortedFilms(old(State()))
    {
      ghost var recs0 := recs;
      var i := 0;
      while i < |order|
        invariant 0 <= i <= |order|
        invariant order == old(order) && KeysOk(Bucket(order, recs0))
        invariant recs.Keys == recs0.Keys
        invariant forall k :: k in recs ==> recs[k] == if k in order[..i] then WithSortedFilms(recs0[k]) else recs0[k]
      {
        var k := order[i];
        assert k !in order[..i];
        recs := recs[k := WithSortedFilms(recs[k])];
        assert order[..i + 1] == order[..i] + [k];
        i := i + 1;
      }
      assert order[..i] == order;
      assert recs == SortedFilms(Bucket(order, recs0)).recs;
    }
  }

  /** build_people_index: the loop over the cache, the films sort and the people sort. */
  method BuildPeopleIndex(cache: seq<Value>) returns (r: Result<PeopleIndex>)
    ensures r == PeopleIndexOf(cache)
    ensures r.Ok? ==> r.value.count == |r.value.people|
  {
    var people := new PeopleBucket();
    var i := 0;
    while i < |cache|
      invariant 0 <= i <= |cache|
      invariant Collect(cache[..i]) == Ok(people.State())
    {
      assert cache[..i + 1][..i] == cache[..i];
      var ok := people.PushRecord(cache[i]);
      if !ok {
        CollectCrashSpreads(cache, i + 1);
        return Crash;
      }
      i := i + 1;
    }
    assert cache[..i] == cache;
    CollectOk(cache);
    people.SortAllFilms();
    var rows := SortBy(ValuesInOrder(people.order, people.recs), PersonLe);
    r := Ok(PeopleIndex(|rows|, rows));
  }
}
