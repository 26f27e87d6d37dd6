/** scripts/backfill_people.py: fill in the directors and actors of saved movie
    details that have no people, with at most `budget` movie-info calls. */
module Backfill {
  import opened Wrappers
  import opened PyText
  import opened PyValue
  import opened Order
  import PeopleIndex
  import DetailBuilder

  /** A file under docs/data/movies, as its list of path parts. */
  type Path = seq<string>

  // ---------- need_backfill ----------

  /** The keys whose non-empty list means the people are already there. */
  const PeopleLists: seq<string> := ["actors", "directors", "casts", "staffs"]

  /** isinstance(v, list) and len(v) > 0 */
  predicate HasPeople(v: Value) {
    v.List? && |v.items| > 0
  }

  /** The for loop of need_backfill: no key of keys holds a non-empty list. */
  function NoPeopleList(d: map<string, Value>, keys: seq<string>): bool {
    if keys == [] then true
    else if HasPeople(Get(d, keys[0])) then false
    else NoPeopleList(d, keys[1..])
  }

  function NeedBackfill(d: map<string, Value>): bool {
    NoPeopleList(d, PeopleLists) && FirstTruthy(d, ["actorsNm", "directorNm"]).None?
  }

  lemma {:induction false} NoPeopleListIff(d: map<string, Value>, keys: seq<string>)
    ensures NoPeopleList(d, keys) <==> forall i :: 0 <= i < |keys| ==> !HasPeople(Get(d, keys[i]))
    decreases |keys|
  {
    if keys != [] && !HasPeople(Get(d, keys[0])) {
      NoPeopleListIff(d, keys[1..]);
      if NoPeopleList(d, keys) {
        forall i | 0 <= i < |keys|
          ensures !HasPeople(Get(d, keys[i]))
        {
          if i > 0 {
            assert keys[i] == keys[1..][i - 1];
          }
        }
      } else {
        var i :| 0 <= i < |keys[1..]| && HasPeople(Get(d, keys[1..][i]));
        assert keys[1..][i] == keys[i + 1];
      }
    }
  }

  /** A detail needs people exactly when none of actors, directors, casts and
      staffs is a non-empty list and neither actorsNm nor directorNm is truthy. */
  lemma NeedBackfillIff(d: map<string, Value>)
    ensures NeedBackfill(d) <==>
              && !HasPeople(Get(d, "actors")) && !HasPeople(Get(d, "directors"))
              && !HasPeople(Get(d, "casts")) && !HasPeople(Get(d, "staffs"))
              && !Truthy(Get(d, "actorsNm")) && !Truthy(Get(d, "directorNm"))
  {
    NoPeopleListIff(d, PeopleLists);
    var ks := PeopleLists;
    assert |ks| == 4 && ks[0] == "actors" && ks[1] == "directors" && ks[2] == "casts" && ks[3] == "staffs";
    var names := ["actorsNm", "directorNm"];
    assert |names| == 2 && names[0] == "actorsNm" && names[1] == "directorNm";
    assert FirstTruthy(d, names).None? <==> !Truthy(Get(d, names[0])) && !Truthy(Get(d, names[1]));
  }

  // ---------- fetch_movie_info ----------

  /** requests.get, raise_for_status and r.json(): any exception is a failed fetch. */
  datatype Fetch = FetchFailed | Fetched(j: Value)

  function FetchOf(reply: DetailBuilder.HttpReply): (f: Fetch)
    ensures f.FetchFailed? <==>
              || reply.Unreachable?
              || 400 <= reply.status < 600
              || reply.body.NotJson?
  {
    match reply
    case Unreachable => FetchFailed
    case Reply(status, body) =>
      if 400 <= status < 600 then FetchFailed
      else match body
        case NotJson => FetchFailed
        case Json(j) => Fetched(j)
  }

  /** (j.get("movieInfoResult") or {}).get("movieInfo") or {}, which must be a dict. */
  function MovieInfo(j: Value): Result<map<string, Value>> {
    var jf :- Fields(j);
    var mir :- Fields(OrElse(jf, ["movieInfoResult"], Obj(map[])));
    Fields(OrElse(mir, ["movieInfo"], Obj(map[])))
  }

  /** for e in info.get(key, []): a list yields its items, an empty str or dict
      nothing; a non-empty str or dict yields a str on which e.get raises, and
      anything else is not iterable. */
  function Entries(info: map<string, Value>, key: string): Result<seq<Value>> {
    match (if key in info then info[key] else List([]))
    case List(items) => Ok(items)
    case Str(s) => if s == [] then Ok([]) else Crash
    case Obj(m) => if m == map[] then Ok([]) else Crash
    case _ => Crash
  }

  /** (d.get(k) or "").strip() */
  function Stripped(d: map<string, Value>, k: string): (r: Result<string>)
    ensures r.Ok? ==> Trimmed(r.value)
  {
    TextOf(d, [k])
  }

  /** The standard fields kept of one director or actor: code, name, role, and
      for an actor the cast. A director row is its trimmed code and name with
      the role 감독; an actor row also has its trimmed cast and the role 배우. */
  datatype Row = Row(peopleCd: string, peopleNm: string, repRoleNm: string, cast: Option<string>)

  function PersonRow(e: Value, actor: bool): (r: Result<Row>)
    ensures r.Ok? ==> e.Obj?
    ensures r.Ok? ==> Stripped(e.fields, "peopleCd") == Ok(r.value.peopleCd) && Stripped(e.fields, "peopleNm") == Ok(r.value.peopleNm)
    ensures r.Ok? ==> r.value.repRoleNm == (if actor then PeopleIndex.Actor else PeopleIndex.Director)
    ensures r.Ok? ==> (r.value.cast.Some? <==> actor)
    ensures r.Ok? && actor ==> Stripped(e.fields, "cast") == Ok(r.value.cast.value)
  {
    var f :- Fields(e);
    var cd :- Stripped(f, "peopleCd");
    var nm :- Stripped(f, "peopleNm");
    if actor then
      var cast :- Stripped(f, "cast");
      Ok(Row(cd, nm, PeopleIndex.Actor, Some(cast)))
    else
      Ok(Row(cd, nm, PeopleIndex.Director, None))
  }

  /** The dict saved for a row. */
  function RowValue(r: Row): (v: Value)
    ensures v.Obj?
    ensures v.fields.Keys == {"peopleCd", "peopleNm", "repRoleNm"} + (if r.cast.Some? then {"cast"} else {})
    ensures v.fields["peopleCd"] == Str(r.peopleCd) && v.fields["peopleNm"] == Str(r.peopleNm)
    ensures v.fields["repRoleNm"] == Str(r.repRoleNm)
    ensures r.cast.Some? ==> v.fields["cast"] == Str(r.cast.value)
  {
    var m := map["peopleCd" := Str(r.peopleCd), "peopleNm" := Str(r.peopleNm), "repRoleNm" := Str(r.repRoleNm)];
    if r.cast.Some? then Obj(m["cast" := Str(r.cast.value)]) else Obj(m)
  }

  function RowValues(rows: seq<Row>): (vs: seq<Value>)
    ensures |vs| == |rows| && forall i :: 0 <= i < |rows| ==> vs[i] == RowValue(rows[i])
  {
    seq(|rows|, i requires 0 <= i < |rows| => RowValue(rows[i]))
  }

  /** [f(x) for x in xs], where any f(x) may raise. */
  function MapOk<T, U>(xs: seq<T>, f: T -> Result<U>): Result<seq<U>> {
    if xs == [] then Ok([])
    else
      var init :- MapOk(xs[..|xs| - 1], f);
      var last :- f(xs[|xs| - 1]);
      Ok(init + [last])
  }

  /** The list exists exactly when every f(x) does, and is those values in order. */
  lemma {:induction false} MapOkShape<T, U>(xs: seq<T>, f: T -> Result<U>)
    ensures MapOk(xs, f).Ok? <==> forall i :: 0 <= i < |xs| ==> f(xs[i]).Ok?
    ensures MapOk(xs, f).Ok? ==>
              && |MapOk(xs, f).value| == |xs|
              && forall i :: 0 <= i < |xs| ==> MapOk(xs, f).value[i] == f(xs[i]).value
    decreases |xs|
  {
    if xs != [] {
      var init := xs[..|xs| - 1];
      MapOkShape(init, f);
      assert forall i :: 0 <= i < |init| ==> init[i] == xs[i];
    }
  }

  /** One more element: the list so far, then f of it. */
  lemma MapOkSnoc<T, U>(xs: seq<T>, i: int, f: T -> Result<U>)
    requires 0 <= i < |xs|
    ensures MapOk(xs[..i], f).Crash? ==> MapOk(xs[..i + 1], f).Crash?
    ensures MapOk(xs[..i], f).Ok? && f(xs[i]).Crash? ==> MapOk(xs[..i + 1], f).Crash?
    ensures MapOk(xs[..i], f).Ok? && f(xs[i]).Ok? ==>
              MapOk(xs[..i + 1], f) == Ok(MapOk(xs[..i], f).value + [f(xs[i]).value])
  {
    var s := xs[..i + 1];
    assert s[..|s| - 1] == xs[..i];
    assert s[|s| - 1] == xs[i];
  }

  function RowOf(actor: bool): Value -> Result<Row> {
    e => PersonRow(e, actor)
  }

  /** The list the append loop builds. */
  function Rows(es: seq<Value>, actor: bool): Result<seq<Row>> {
    MapOk(es, RowOf(actor))
  }

  /** The appending loop over the entries of one list: f(x) appended for each
      x in turn, stopping at the first that raises. */
  method MapEach<T, U>(xs: seq<T>, f: T -> Result<U>) returns (r: Result<seq<U>>)
    ensures r == MapOk(xs, f)
  {
    var out: seq<U> := [];
    for i := 0 to |xs|
      invariant MapOk(xs[..i], f) == Ok(out)
    {
      var y := f(xs[i]);
      MapOkSnoc(xs, i, f);
      if y.Crash? {
        MapOkShape(xs, f);
        return Crash;
      }
      out := out + [y.value];
    }
    assert xs[..|xs|] == xs;
    return Ok(out);
  }

  /** data with its directors and actors replaced. */
  function Refilled(d: map<string, Value>, directors: seq<Value>, actors: seq<Value>): map<string, Value> {
    d["directors" := List(directors)]["actors" := List(actors)]
  }

  /** The rewrite after a reply j: the new contents of the file, None when no
      director or actor came back. */
  function Rebuild(d: map<string, Value>, j: Value): Result<Option<map<string, Value>>> {
    var info :- MovieInfo(j);
    var des :- Entries(info, "directors");
    var directors :- Rows(des, false);
    var aes :- Entries(info, "actors");
    var actors :- Rows(aes, true);
    if directors != [] || actors != [] then Ok(Some(Refilled(d, RowValues(directors), RowValues(actors))))
    else Ok(None)
  }

  /** A rewritten detail keeps every other field, gets the rebuilt lists, and
      needs no further backfill. */
  lemma RebuildEffect(d: map<string, Value>, j: Value)
    requires Rebuild(d, j).Ok? && Rebuild(d, j).value.Some?
    ensures var nd := Rebuild(d, j).value.value;
            && nd.Keys == d.Keys + {"directors", "actors"}
            && (forall k :: k in d && k != "directors" && k != "actors" ==> nd[k] == d[k])
            && nd["directors"] == List(RowValues(Rows(Entries(MovieInfo(j).value, "directors").value, false).value))
            && nd["actors"] == List(RowValues(Rows(Entries(MovieInfo(j).value, "actors").value, true).value))
    ensures Rebuild(d, j).value.value["directors"].items != [] || Rebuild(d, j).value.value["actors"].items != []
    ensures !NeedBackfill(Rebuild(d, j).value.value)
  {
    var nd := Rebuild(d, j).value.value;
    NeedBackfillIff(nd);
  }

  // ---------- backfill ----------

  /** What one file comes to in the loop of backfill. */
  datatype FileOutcome =
    | NoData                                 // unreadable or falsy: continue
    | NotNeeded                              // skipped
    | OutOfBudget                            // break
    | NoCode                                 // skipped
    | FetchFail                              // skipped, no budget used
    | Used(update: Option<map<string, Value>>) // one call; rewritten, or skipped
    | FileCrash                              // an exception ends the script

  /** load_json: a missing or unparsable file reads as None. */
  function Load(disk: map<Path, Value>, p: Path): Value {
    if p in disk then disk[p] else Null
  }

  function FileStep(data: Value, budgetLeft: bool, fetch: string -> DetailBuilder.HttpReply): FileOutcome {
    if !Truthy(data) then NoData
    else if !data.Obj? then FileCrash
    else if !NeedBackfill(data.fields) then NotNeeded
    else if !budgetLeft then OutOfBudget
    else CodeStep(data.fields, fetch)
  }

  /** The movie code, the fetch and the rewrite. */
  function CodeStep(d: map<string, Value>, fetch: string -> DetailBuilder.HttpReply): FileOutcome {
    match Stripped(d, "movieCd")
    case Crash => FileCrash
    case Ok(cd) => if cd == [] then NoCode else ReplyStep(d, FetchOf(fetch(cd)))
  }

  /** After the request: a failed fetch is skipped, a reply rebuilds the file. */
  function ReplyStep(d: map<string, Value>, f: Fetch): FileOutcome {
    match f
    case FetchFailed => FetchFail
    case Fetched(j) =>
      match Rebuild(d, j)
      case Crash => FileCrash
      case Ok(u) => Used(u)
  }

  /** The files on disk and the counters updated, skipped and used. */
  datatype Tally = Tally(disk: map<Path, Value>, updated: nat, skipped: nat, used: nat)

  /** The effect of one file's outcome on the tally. */
  function Apply(t: Tally, p: Path, o: FileOutcome): Tally {
    match o
    case NotNeeded => t.(skipped := t.skipped + 1)
    case NoCode => t.(skipped := t.skipped + 1)
    case FetchFail => t.(skipped := t.skipped + 1)
    case Used(None) => t.(used := t.used + 1, skipped := t.skipped + 1)
    case Used(Some(nd)) => t.(disk := t.disk[p := Obj(nd)], used := t.used + 1, updated := t.updated + 1)
    case _ => t
  }

  /** How backfill ends: returning (updated, used), or raising. */
  datatype Finish = Finish(ok: bool, tally: Tally)

  /** The loop over the remaining files fs. */
  function Go(fs: seq<Path>, t: Tally, budget: int, fetch: string -> DetailBuilder.HttpReply): Finish
    decreases |fs|
  {
    if fs == [] then Finish(true, t)
    else
      match FileStep(Load(t.disk, fs[0]), t.used < budget, fetch)
      case OutOfBudget => Finish(true, t)
      case FileCrash => Finish(false, t)
      case o => Go(fs[1..], Apply(t, fs[0], o), budget, fetch)
  }

  /** The glob listing without .gitkeep files, in pathlib order. */
  function Listed(files: seq<Path>): seq<Path> {
    if files == [] then []
    else
      var p := files[|files| - 1];
      var keep := |p| == 0 || !EndsWith(p[|p| - 1], ".gitkeep");
      Listed(files[..|files| - 1]) + (if keep then [p] else [])
  }

  /** backfill(budget, ...): no API key raises before anything else. */
  function BackfillRun(hasKey: bool, budget: int, files: seq<Path>, disk: map<Path, Value>,
                       fetch: string -> DetailBuilder.HttpReply): Finish {
    if !hasKey then Finish(false, Tally(disk, 0, 0, 0))
    else Go(Worklist(files), Tally(disk, 0, 0, 0), budget, fetch)
  }

  /** files.sort() on the listing. */
  function Worklist(files: seq<Path>): seq<Path> {
    SortBy(Listed(files), PathLe)
  }

  /** A file the run rewrote: it needed people, had a code, its fetch
      succeeded, and the new contents are what that reply rebuilds. */
  ghost predicate RefilledFrom(before: Value, after: Value, fetch: string -> DetailBuilder.HttpReply) {
    && before.Obj? && after.Obj? && NeedBackfill(before.fields)
    && Stripped(before.fields, "movieCd").Ok?
    && var cd := Stripped(before.fields, "movieCd").value;
       && cd != [] && FetchOf(fetch(cd)).Fetched?
       && Rebuild(before.fields, FetchOf(fetch(cd)).j) == Ok(Some(after.fields))
  }

  /** What holds of the tally throughout: used within the budget, updated
      within used, the same files, each unchanged or refilled from its
      original contents. */
  ghost predicate TallyOk(disk0: map<Path, Value>, t: Tally, budget: int, fetch: string -> DetailBuilder.HttpReply) {
    && t.used <= (if budget > 0 then budget else 0)
    && t.updated <= t.used
    && t.disk.Keys == disk0.Keys
    && forall p :: p in disk0 ==> t.disk[p] == disk0[p] || RefilledFrom(disk0[p], t.disk[p], fetch)
  }

  /** A refilled file does not need backfill any more, so a later visit leaves it. */
  lemma RefilledDone(before: Value, after: Value, fetch: string -> DetailBuilder.HttpReply)
    requires RefilledFrom(before, after, fetch)
    ensures !NeedBackfill(after.fields)
  {
    var cd := Stripped(before.fields, "movieCd").value;
    RebuildEffect(before.fields, FetchOf(fetch(cd)).j);
  }

  /** A file that used a call: the budget had room, the file held a dict that
      needed people, and a rewrite is the refill of those contents. */
  lemma UsedFacts(data: Value, budgetLeft: bool, fetch: string -> DetailBuilder.HttpReply)
    requires FileStep(data, budgetLeft, fetch).Used?
    ensures budgetLeft && Truthy(data) && data.Obj? && NeedBackfill(data.fields)
    ensures var u := FileStep(data, budgetLeft, fetch).update;
            u.Some? ==> RefilledFrom(data, Obj(u.value), fetch)
  {
  }

  /** Rewriting a file that needed people keeps the tally sound. */
  lemma RefillKeepsOk(disk0: map<Path, Value>, t: Tally, p: Path, nd: Value, budget: int,
                      fetch: string -> DetailBuilder.HttpReply)
    requires TallyOk(disk0, t, budget, fetch) && t.used < budget
    requires p in t.disk && t.disk[p].Obj? && NeedBackfill(t.disk[p].fields)
    requires RefilledFrom(t.disk[p], nd, fetch)
    ensures TallyOk(disk0, t.(disk := t.disk[p := nd], used := t.used + 1, updated := t.updated + 1), budget, fetch)
  {
    StillOriginal(disk0, t, p, budget, fetch);
    RewriteKeepsFiles(disk0, t.disk, p, nd, fetch);
  }

  /** Writing one refilled file keeps every file unchanged or refilled. */
  lemma RewriteKeepsFiles(disk0: map<Path, Value>, disk: map<Path, Value>, p: Path, nd: Value,
                          fetch: string -> DetailBuilder.HttpReply)
    requires disk.Keys == disk0.Keys && p in disk0
    requires forall q :: q in disk0 ==> disk[q] == disk0[q] || RefilledFrom(disk0[q], disk[q], fetch)
    requires RefilledFrom(disk0[p], nd, fetch)
    ensures disk[p := nd].Keys == disk0.Keys
    ensures forall q :: q in disk0 ==> disk[p := nd][q] == disk0[q] || RefilledFrom(disk0[q], disk[p := nd][q], fetch)
  {
    UpdateKeeps(disk0, disk, p, nd, (a, b) => RefilledFrom(a, b, fetch));
  }

  /** Storing at one key a value related to the original keeps every entry
      original or related to it. */
  lemma UpdateKeeps<K, V>(m0: map<K, V>, m: map<K, V>, k: K, v: V, rel: (V, V) -> bool)
    requires m.Keys == m0.Keys && k in m0
    requires forall q :: q in m0 ==> m[q] == m0[q] || rel(m0[q], m[q])
    requires rel(m0[k], v)
    ensures m[k := v].Keys == m0.Keys
    ensures forall q :: q in m0 ==> m[k := v][q] == m0[q] || rel(m0[q], m[k := v][q])
  {
    forall q | q in m0
      ensures m[k := v][q] == m0[q] || rel(m0[q], m[k := v][q])
    {
      if q != k {
        assert m[k := v][q] == m[q];
      }
    }
  }

  /** A file that still needs people has not been rewritten yet. */
  lemma StillOriginal(disk0: map<Path, Value>, t: Tally, p: Path, budget: int,
                      fetch: string -> DetailBuilder.HttpReply)
    requires TallyOk(disk0, t, budget, fetch)
    requires p in t.disk && t.disk[p].Obj? && NeedBackfill(t.disk[p].fields)
    ensures t.disk[p] == disk0[p]
  {
    if t.disk[p] != disk0[p] {
      RefilledDone(disk0[p], t.disk[p], fetch);
    }
  }

  /** Any outcome but a stop keeps the tally sound, given what a used call implies. */
  lemma ApplyKeepsOk(disk0: map<Path, Value>, t: Tally, p: Path, o: FileOutcome, budget: int,
                     fetch: string -> DetailBuilder.HttpReply)
    requires TallyOk(disk0, t, budget, fetch) && !o.OutOfBudget? && !o.FileCrash?
    requires o.Used? ==> t.used < budget && p in t.disk && t.disk[p].Obj? && NeedBackfill(t.disk[p].fields)
    requires o.Used? && o.update.Some? ==> RefilledFrom(t.disk[p], Obj(o.update.value), fetch)
    ensures TallyOk(disk0, Apply(t, p, o), budget, fetch)
  {
    if o.Used? && o.update.Some? {
      RefillKeepsOk(disk0, t, p, Obj(o.update.value), budget, fetch);
    }
  }

  lemma StepKeepsOk(disk0: map<Path, Value>, t: Tally, p: Path, budget: int, fetch: string -> DetailBuilder.HttpReply)
    requires TallyOk(disk0, t, budget, fetch)
    requires var o := FileStep(Load(t.disk, p), t.used < budget, fetch); !o.OutOfBudget? && !o.FileCrash?
    ensures TallyOk(disk0, Apply(t, p, FileStep(Load(t.disk, p), t.used < budget, fetch)), budget, fetch)
  {
    var o := FileStep(Load(t.disk, p), t.used < budget, fetch);
    if o.Used? {
      UsedFacts(Load(t.disk, p), t.used < budget, fetch);
      assert p in t.disk;
    }
    ApplyKeepsOk(disk0, t, p, o, budget, fetch);
  }

  lemma {:induction false} GoKeepsOk(disk0: map<Path, Value>, fs: seq<Path>, t: Tally, budget: int,
                                     fetch: string -> DetailBuilder.HttpReply)
    requires TallyOk(disk0, t, budget, fetch)
    ensures TallyOk(disk0, Go(fs, t, budget, fetch).tally, budget, fetch)
    decreases |fs|
  {
    if fs != [] {
      var o := FileStep(Load(t.disk, fs[0]), t.used < budget, fetch);
      if !o.OutOfBudget? && !o.FileCrash? {
        StepKeepsOk(disk0, t, fs[0], budget, fetch);
        GoKeepsOk(disk0, fs[1..], Apply(t, fs[0], o), budget, fetch);
      }
    }
  }

  /** The run never uses more calls than the budget, never updates more files
      than it made calls, and leaves every file as it was or refilled from a
      successful fetch of its own movie code. */
  lemma BackfillBounds(hasKey: bool, budget: int, files: seq<Path>, disk: map<Path, Value>,
                       fetch: string -> DetailBuilder.HttpReply)
    ensures var t := BackfillRun(hasKey, budget, files, disk, fetch).tally;
            && t.used <= (if budget > 0 then budget else 0)
            && t.updated <= t.used
            && t.disk.Keys == disk.Keys
            && forall p :: p in disk ==> t.disk[p] == disk[p] || RefilledFrom(disk[p], t.disk[p], fetch)
  {
    if hasKey {
      GoKeepsOk(disk, Worklist(files), Tally(disk, 0, 0, 0), budget, fetch);
    }
  }

  /** A fetch that raises costs no call from the budget: the file is only
      counted as skipped. */
  lemma FailedFetchIsFree(t: Tally, p: Path, budget: int, fetch: string -> DetailBuilder.HttpReply, cd: string)
    requires var data := Load(t.disk, p);
             && data.Obj? && NeedBackfill(data.fields) && t.used < budget
             && Stripped(data.fields, "movieCd") == Ok(cd) && cd != []
             && FetchOf(fetch(cd)).FetchFailed?
    ensures var t' := Apply(t, p, FileStep(Load(t.disk, p), t.used < budget, fetch));
            t' == t.(skipped := t.skipped + 1)
  {
    var data := Load(t.disk, p);
    CodedIsTruthy(data.fields, cd);
    FetchFailOutcome(data, t.used < budget, fetch, cd);
  }

  /** A record with a non-blank movieCd is not empty. */
  lemma CodedIsTruthy(d: map<string, Value>, cd: string)
    requires Stripped(d, "movieCd") == Ok(cd) && cd != []
    ensures d != map[]
  {
  }

  lemma FetchFailOutcome(data: Value, budgetLeft: bool, fetch: string -> DetailBuilder.HttpReply, cd: string)
    requires data.Obj? && data.fields != map[] && NeedBackfill(data.fields) && budgetLeft
    requires Stripped(data.fields, "movieCd") == Ok(cd) && cd != [] && FetchOf(fetch(cd)).FetchFailed?
    ensures FileStep(data, budgetLeft, fetch) == FetchFail
  {
  }

  /** Once the budget is spent, the first file that needs people ends the loop. */
  lemma BudgetStops(fs: seq<Path>, t: Tally, budget: int, fetch: string -> DetailBuilder.HttpReply)
    requires fs != [] && t.used >= budget
    requires var data := Load(t.disk, fs[0]); data.Obj? && data.fields != map[] && NeedBackfill(data.fields)
    ensures Go(fs, t, budget, fetch) == Finish(true, t)
  {
  }

  /** Without the API key nothing is read, fetched or written. */
  lemma NoKeyNoRun(budget: int, files: seq<Path>, disk: map<Path, Value>, fetch: string -> DetailBuilder.HttpReply)
    ensures var r := BackfillRun(false, budget, files, disk, fetch);
            !r.ok && r.tally.disk == disk && r.tally.used == 0
  {
  }

  /** Listed keeps the listing's order and drops exactly the .gitkeep files. */
  lemma {:induction false} ListedFilters(files: seq<Path>, p: Path)
    ensures p in Listed(files) <==> p in files && (|p| == 0 || !EndsWith(p[|p| - 1], ".gitkeep"))
    decreases |files|
  {
    if files != [] {
      var init := files[..|files| - 1];
      ListedFilters(init, p);
      assert files == init + [files[|files| - 1]];
    }
  }

  /** The files are visited in increasing path order: the listing sorted, no file
      gained or lost, and the .gitkeep files left out. */
  lemma WorklistSorted(files: seq<Path>)
    ensures SortedBy(Worklist(files), PathLe)
    ensures multiset(Worklist(files)) == multiset(Listed(files))
    ensures forall p :: p in Worklist(files) <==> p in files && (|p| == 0 || !EndsWith(p[|p| - 1], ".gitkeep"))
  {
    PathLeTotalPreorder();
    SortBySorted(Listed(files), PathLe);
    forall p ensures p in Worklist(files) <==> p in files && (|p| == 0 || !EndsWith(p[|p| - 1], ".gitkeep")) {
      ListedFilters(files, p);
      assert p in Worklist(files) <==> p in multiset(Worklist(files));
    }
  }

  /** One file of the loop of backfill. */
  method ProcessFile(data: Value, budgetLeft: bool, fetch: string -> DetailBuilder.HttpReply) returns (o: FileOutcome)
    ensures o == FileStep(data, budgetLeft, fetch)
  {
    if !Truthy(data) {
      return NoData;
    }
    if !data.Obj? {
      return FileCrash;
    }
    if !NeedBackfill(data.fields) {
      return NotNeeded;
    }
    if !budgetLeft {
      return OutOfBudget;
    }
    var code := Stripped(data.fields, "movieCd");
    if code.Crash? {
      return FileCrash;
    }
    if code.value == [] {
      return NoCode;
    }
    var f := FetchOf(fetch(code.value));
    if f.FetchFailed? {
      return FetchFail;
    }
    var info := MovieInfo(f.j);
    if info.Crash? {
      return FileCrash;
    }
    var des := Entries(info.value, "directors");
    if des.Crash? {
      return FileCrash;
    }
    var directors := MapEach(des.value, RowOf(false));
    if directors.Crash? {
      return FileCrash;
    }
    var aes := Entries(info.value, "actors");
    if aes.Crash? {
      return FileCrash;
    }
    var actors := MapEach(aes.value, RowOf(true));
    if actors.Crash? {
      return FileCrash;
    }
    if directors.value != [] || actors.value != [] {
      return Used(Some(Refilled(data.fields, RowValues(directors.value), RowValues(actors.value))));
    }
    return Used(None);
  }

  /** The loop of the rest fs[i..] after one file. */
  lemma GoStep(fs: seq<Path>, i: int, t: Tally, budget: int, fetch: string -> DetailBuilder.HttpReply, o: FileOutcome)
    requires 0 <= i < |fs| && o == FileStep(Load(t.disk, fs[i]), t.used < budget, fetch)
    ensures o.OutOfBudget? ==> Go(fs[i..], t, budget, fetch) == Finish(true, t)
    ensures o.FileCrash? ==> Go(fs[i..], t, budget, fetch) == Finish(false, t)
    ensures !o.OutOfBudget? && !o.FileCrash? ==>
              Go(fs[i..], t, budget, fetch) == Go(fs[i + 1..], Apply(t, fs[i], o), budget, fetch)
  {
    assert fs[i..][0] == fs[i] && fs[i..][1..] == fs[i + 1..];
  }

  /** The counters and the file after one outcome: skipped, used and updated, and the rewritten file. */
  method Count(t: Tally, p: Path, o: FileOutcome) returns (t': Tally)
    ensures t' == Apply(t, p, o)
  {
    t' := t;
    match o {
      case NotNeeded =>
        t' := t'.(skipped := t'.skipped + 1);
      case NoCode =>
        t' := t'.(skipped := t'.skipped + 1);
      case FetchFail =>
        t' := t'.(skipped := t'.skipped + 1);
      case Used(u) =>
        t' := t'.(used := t'.used + 1);
        if u.Some? {
          t' := t'.(disk := t'.disk[p := Obj(u.value)], updated := t'.updated + 1);
        } else {
          t' := t'.(skipped := t'.skipped + 1);
        }
      case _ =>
    }
  }

  /** backfill: the files in sorted order, each read, checked, fetched and
      rewritten in turn, stopping when the budget is spent. */
  method RunBackfill(hasKey: bool, budget: int, files: seq<Path>, disk: map<Path, Value>,
                     fetch: string -> DetailBuilder.HttpReply) returns (r: Finish)
    ensures r == BackfillRun(hasKey, budget, files, disk, fetch)
  {
    if !hasKey {
      return Finish(false, Tally(disk, 0, 0, 0));
    }
    var fs := Worklist(files);
    var t := Tally(disk, 0, 0, 0);
    var i := 0;
    while i < |fs|
      invariant 0 <= i <= |fs|
      invariant Go(fs, Tally(disk, 0, 0, 0), budget, fetch) == Go(fs[i..], t, budget, fetch)
    {
      var o := ProcessFile(Load(t.disk, fs[i]), t.used < budget, fetch);
      GoStep(fs, i, t, budget, fetch, o);
      if o.OutOfBudget? {
        return Finish(true, t);
      }
      if o.FileCrash? {
        return Finish(false, t);
      }
      t := Count(t, fs[i], o);
      i := i + 1;
    }
    return Finish(true, t);
  }
}
