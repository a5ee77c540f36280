/** The distance stage of `apply_filters` and the whole filter chain. The
    distance stage is a loop that appends the formations close enough to
    home to a new list and writes their distance into the shared record. */
module Distance {
  import opened Wrappers
  import opened Json
  import opened Records
  import opened Filters

  /** The floating-point collaborators: `calculate_distance(lat1, lon1, lat2,
      lon2)` (haversine, in km) and `round(x, 1)`. */
  datatype Geo = Geo(distance: (real, real, real, real) -> real, round1: real -> real)

  /** A configuration number as the JSON value it was read from; an absent
      one reads as null. */
  function NumberValue(x: Option<real>): Value {
    match x
    case None => Null
    case Some(v) => Float(v)
  }

  /** Python truthiness of an optional configuration number. */
  predicate TruthyNumber(x: Option<real>) {
    x.Some? && x.value != 0.0
  }

  /** `max_distance and home_coords.get("lat") and home_coords.get("lon")`:
      the stage runs exactly when all three are truthy in Python's sense. */
  function DistanceActive(cfg: FilterConfig): (active: bool)
    ensures active <==> Truthy(NumberValue(cfg.maxDistanceKm)) && Truthy(NumberValue(cfg.homeLat)) && Truthy(NumberValue(cfg.homeLon))
  {
    TruthyNumber(cfg.maxDistanceKm) && TruthyNumber(cfg.homeLat) && TruthyNumber(cfg.homeLon)
  }

  /** `f.get("coordonnees") or f.get("coordinates") or {}`. */
  function CoordinatesOf(r: Record): (c: Value)
    ensures Truthy(Get(r, "coordonnees")) ==> c == r["coordonnees"]
    ensures !Truthy(Get(r, "coordonnees")) && Truthy(Get(r, "coordinates")) ==> c == r["coordinates"]
    ensures !Truthy(Get(r, "coordonnees")) && !Truthy(Get(r, "coordinates")) ==> c == Obj(map[])
  {
    Or(Or(Get(r, "coordonnees"), Get(r, "coordinates")), Obj(map[]))
  }

  /** The latitude and longitude of a record: from a dictionary of
      coordinates, `lat` or else `latitude`, `lon` or else `longitude`, and
      only when both are truthy. */
  function Position(r: Record): (p: Option<(Value, Value)>)
    ensures p.Some? <==>
              && CoordinatesOf(r).Obj?
              && (Truthy(Get(CoordinatesOf(r).members, "lat")) || Truthy(Get(CoordinatesOf(r).members, "latitude")))
              && (Truthy(Get(CoordinatesOf(r).members, "lon")) || Truthy(Get(CoordinatesOf(r).members, "longitude")))
    ensures p.Some? ==> Truthy(p.value.0) && Truthy(p.value.1)
    ensures p.Some? ==>
              p.value.0 == (if Truthy(Get(CoordinatesOf(r).members, "lat")) then CoordinatesOf(r).members["lat"]
                            else CoordinatesOf(r).members["latitude"])
    ensures p.Some? ==>
              p.value.1 == (if Truthy(Get(CoordinatesOf(r).members, "lon")) then CoordinatesOf(r).members["lon"]
                            else CoordinatesOf(r).members["longitude"])
  {
    var c := CoordinatesOf(r);
    if !c.Obj? then None
    else
      var lat := Or(Get(c.members, "lat"), Get(c.members, "latitude"));
      var lon := Or(Get(c.members, "lon"), Get(c.members, "longitude"));
      if Truthy(lat) && Truthy(lon) then Some((lat, lon)) else None
  }

  /** The number a coordinate stands for in `calculate_distance`; None for a
      string, list or dictionary, on which the arithmetic raises a TypeError. */
  function AsNumber(v: Value): Option<real> {
    match v
    case Int(i) => Some(i as real)
    case Float(x) => Some(x)
    case Bool(b) => Some(if b then 1.0 else 0.0)
    case _ => None
  }

  /** The outcome of measuring one record. */
  datatype Measure = Unplaced | NotNumeric | Measured(km: real)

  function MeasureOf(r: Record, cfg: FilterConfig, geo: Geo): (m: Measure)
    requires DistanceActive(cfg)
    ensures m == Unplaced <==> Position(r).None?
    ensures m.Measured? <==> Position(r).Some? && AsNumber(Position(r).value.0).Some? && AsNumber(Position(r).value.1).Some?
    ensures m.Measured? ==>
              m.km == geo.distance(cfg.homeLat.value, cfg.homeLon.value,
                                   AsNumber(Position(r).value.0).value, AsNumber(Position(r).value.1).value)
  {
    match Position(r)
    case None => Unplaced
    case Some((lat, lon)) =>
      match (AsNumber(lat), AsNumber(lon))
      case (Some(y), Some(x)) => Measured(geo.distance(cfg.homeLat.value, cfg.homeLon.value, y, x))
      case _ => NotNumeric
  }

  /** The condition of the distance stage: drop a record without usable
      coordinates, raise on non-numeric ones, keep a record within the limit. */
  function DistanceCheck(r: Record, cfg: FilterConfig, geo: Geo): (v: Verdict)
    requires DistanceActive(cfg)
    ensures v == Keep <==> MeasureOf(r, cfg, geo).Measured? && MeasureOf(r, cfg, geo).km <= cfg.maxDistanceKm.value
    ensures v == Crash <==> MeasureOf(r, cfg, geo) == NotNumeric
  {
    match MeasureOf(r, cfg, geo)
    case Unplaced => Drop
    case NotNumeric => Crash
    case Measured(km) => if km <= cfg.maxDistanceKm.value then Keep else Drop
  }

  function DistanceTest(cfg: FilterConfig, geo: Geo): Record -> Verdict
    requires DistanceActive(cfg)
  {
    r => DistanceCheck(r, cfg, geo)
  }

  /** A record as the distance stage leaves it: kept records carry
      `_distance_km`, the rounded distance; all others are untouched. */
  function Annotated(r: Record, cfg: FilterConfig, geo: Geo): (a: Record)
    requires DistanceActive(cfg)
    ensures DistanceCheck(r, cfg, geo) == Keep ==>
              a == r["_distance_km" := Float(geo.round1(MeasureOf(r, cfg, geo).km))]
    ensures DistanceCheck(r, cfg, geo) != Keep ==> a == r
  {
    match MeasureOf(r, cfg, geo)
    case Measured(km) =>
      if km <= cfg.maxDistanceKm.value then r["_distance_km" := Float(geo.round1(km))] else r
    case _ => r
  }

  /** Writing the annotation does not move a record: its measure, and so the
      stage's verdict, stay the same, and annotating again changes nothing. */
  lemma AnnotationIsStable(r: Record, cfg: FilterConfig, geo: Geo)
    requires DistanceActive(cfg)
    ensures MeasureOf(Annotated(r, cfg, geo), cfg, geo) == MeasureOf(r, cfg, geo)
    ensures Annotated(Annotated(r, cfg, geo), cfg, geo) == Annotated(r, cfg, geo)
  {
    var a := Annotated(r, cfg, geo);
    assert Get(a, "coordonnees") == Get(r, "coordonnees");
    assert Get(a, "coordinates") == Get(r, "coordinates");
    assert CoordinatesOf(a) == CoordinatesOf(r);
  }

  /** The index of the first record on which `test` raises, or the length. */
  function FirstCrash(rs: seq<Record>, test: Record -> Verdict): (n: nat)
    ensures n <= |rs|
    ensures forall i :: 0 <= i < n ==> test(rs[i]) != Crash
    ensures n < |rs| ==> test(rs[n]) == Crash
  {
    if rs == [] then 0
    else if test(rs[0]) == Crash then 0
    else 1 + FirstCrash(rs[1..], test)
  }

  /** Every formation among the first `upTo` of `fs` holds its annotated
      record, every other formation its record from `before`. */
  ghost predicate AnnotatedUpTo(fs: seq<Formation>, before: seq<Record>, upTo: int, cfg: FilterConfig, geo: Geo)
    requires |before| == |fs| && 0 <= upTo <= |fs| && DistanceActive(cfg)
    reads set f | f in fs
  {
    forall j :: 0 <= j < |fs| ==>
      fs[j].fields == if fs[j] in fs[..upTo] then Annotated(before[j], cfg, geo) else before[j]
  }

  /** Each formation occurs with the same record wherever it occurs. */
  ghost predicate SameRecords(fs: seq<Formation>, before: seq<Record>)
    requires |before| == |fs|
  {
    forall j, k :: 0 <= j < |fs| && 0 <= k < |fs| && fs[j] == fs[k] ==> before[j] == before[k]
  }

  /** Passing over a formation the stage does not keep leaves every record as it is. */
  lemma PassOver(fs: seq<Formation>, before: seq<Record>, i: int, cfg: FilterConfig, geo: Geo)
    requires |before| == |fs| && 0 <= i < |fs| && DistanceActive(cfg) && SameRecords(fs, before)
    requires AnnotatedUpTo(fs, before, i, cfg, geo)
    requires DistanceCheck(before[i], cfg, geo) != Keep
    ensures AnnotatedUpTo(fs, before, i + 1, cfg, geo)
  {
    assert fs[..i + 1] == fs[..i] + [fs[i]];
  }

  /** `f["_distance_km"] = round(distance, 1)` for the formation at index `i`. */
  method Annotate(fs: seq<Formation>, ghost before: seq<Record>, i: int, cfg: FilterConfig, geo: Geo, km: real)
    requires |before| == |fs| && 0 <= i < |fs| && DistanceActive(cfg) && SameRecords(fs, before)
    requires AnnotatedUpTo(fs, before, i, cfg, geo)
    requires DistanceCheck(before[i], cfg, geo) == Keep && km == MeasureOf(before[i], cfg, geo).km
    modifies fs[i]
    ensures AnnotatedUpTo(fs, before, i + 1, cfg, geo)
  {
    AnnotationIsStable(before[i], cfg, geo);
    fs[i].fields := fs[i].fields["_distance_km" := Float(geo.round1(km))];
    assert fs[..i + 1] == fs[..i] + [fs[i]];
  }

  /** One iteration of the stage's loop: measure the formation at index
      `i` from its record in `before`, raise on a non-numeric coordinate,
      and otherwise annotate and keep it when it is within range. */
  method Visit(fs: seq<Formation>, ghost before: seq<Record>, i: int, cfg: FilterConfig, geo: Geo, kept: seq<Formation>)
    returns (crashed: bool, kept': seq<Formation>)
    requires |before| == |fs| && 0 <= i < |fs| && DistanceActive(cfg) && SameRecords(fs, before)
    requires AnnotatedUpTo(fs, before, i, cfg, geo)
    requires kept == KeepWhere(fs[..i], before[..i], IsKept(DistanceTest(cfg, geo)))
    modifies fs[i]
    ensures crashed <==> DistanceCheck(before[i], cfg, geo) == Crash
    ensures crashed ==> AnnotatedUpTo(fs, before, i, cfg, geo)
    ensures !crashed ==> AnnotatedUpTo(fs, before, i + 1, cfg, geo)
    ensures !crashed ==> kept' == KeepWhere(fs[..i + 1], before[..i + 1], IsKept(DistanceTest(cfg, geo)))
  {
    var f := fs[i];
    AnnotationIsStable(before[i], cfg, geo);
    assert f.fields == before[i] || f.fields == Annotated(before[i], cfg, geo);
    var m := MeasureOf(f.fields, cfg, geo);
    assert fs[..i + 1] == fs[..i] + [f];
    assert before[..i + 1] == before[..i] + [before[i]];
    KeepWhereSnoc(fs[..i], before[..i], IsKept(DistanceTest(cfg, geo)), f, before[i]);
    if m.NotNumeric? {
      return true, kept;
    }
    if m.Measured? && m.km <= cfg.maxDistanceKm.value {
      Annotate(fs, before, i, cfg, geo, m.km);
      kept' := kept + [f];
    } else {
      PassOver(fs, before, i, cfg, geo);
      kept' := kept;
    }
    crashed := false;
  }

  /** The loop of the active stage, over formations whose records were
      `before` when it started. */
  method Sweep(fs: seq<Formation>, ghost before: seq<Record>, cfg: FilterConfig, geo: Geo) returns (res: Result<seq<Formation>, Stage>)
    requires |before| == |fs| && DistanceActive(cfg) && SameRecords(fs, before)
    requires AnnotatedUpTo(fs, before, 0, cfg, geo)
    modifies set f | f in fs
    ensures var n := FirstCrash(before, DistanceTest(cfg, geo));
            && (res.Err? <==> n < |fs|)
            && (res.Err? ==> res.error == Distance)
            && (res.Ok? ==> res.value == KeepWhere(fs, before, IsKept(DistanceTest(cfg, geo))))
            && AnnotatedUpTo(fs, before, n, cfg, geo)
  {
    var kept: seq<Formation> := [];
    var i := 0;
    while i < |fs|
      invariant 0 <= i <= |fs|
      invariant forall j :: 0 <= j < i ==> DistanceCheck(before[j], cfg, geo) != Crash
      invariant kept == KeepWhere(fs[..i], before[..i], IsKept(DistanceTest(cfg, geo)))
      invariant AnnotatedUpTo(fs, before, i, cfg, geo)
    {
      var crashed;
      crashed, kept := Visit(fs, before, i, cfg, geo, kept);
      if crashed {
        assert FirstCrash(before, DistanceTest(cfg, geo)) == i;
        return Err(Distance);
      }
      i := i + 1;
    }
    assert fs[..i] == fs && before[..i] == before;
    assert FirstCrash(before, DistanceTest(cfg, geo)) == |fs|;
    return Ok(kept);
  }

  /** The distance stage. When it is inactive nothing changes. When it is
      active it returns the formations within range, in order, and annotates
      each of them in place; a non-numeric coordinate raises, leaving the
      formations visited before it annotated. */
  method DistanceStage(fs: seq<Formation>, cfg: FilterConfig, geo: Geo) returns (res: Result<seq<Formation>, Stage>)
    modifies set f | f in fs
    ensures !DistanceActive(cfg) ==> res == Ok(fs) && forall f :: f in fs ==> f.fields == old(f.fields)
    ensures DistanceActive(cfg) ==>
              var before := old(Fields(fs));
              var n := FirstCrash(before, DistanceTest(cfg, geo));
              && (res.Err? <==> n < |fs|)
              && (res.Err? ==> res.error == Distance)
              && (res.Ok? ==> res.value == KeepWhere(fs, before, IsKept(DistanceTest(cfg, geo))))
              && AnnotatedUpTo(fs, before, n, cfg, geo)
  {
    if !DistanceActive(cfg) {
      return Ok(fs);
    }
    ghost var before := Fields(fs);
    assert fs[..0] == [];
    res := Sweep(fs, before, cfg, geo);
  }

  /** A record `apply_filters` returns: every active text stage keeps it and,
      when the distance stage is active, it lies within range. */
  predicate Admitted(cfg: FilterConfig, dumps: Record -> string, geo: Geo, r: Record) {
    && ChainVerdict(cfg, dumps, r) == Keep
    && (DistanceActive(cfg) ==> DistanceCheck(r, cfg, geo) == Keep)
  }

  /** The distance stage run on the survivors `out` of the text stages,
      stated per formation: it raises when one of them has non-numeric
      coordinates, and otherwise returns those within range, each annotated,
      and leaves the others as they were. */
  method MeasureSurvivors(fs: seq<Formation>, out: seq<Formation>, cfg: FilterConfig, geo: Geo)
    returns (res: Result<seq<Formation>, Stage>)
    requires DistanceActive(cfg) && IsSubsequence(out, fs)
    modifies set f | f in out
    ensures res.Err? <==> exists f :: f in out && old(DistanceCheck(f.fields, cfg, geo)) == Crash
    ensures res.Err? ==> res.error == Distance
    ensures res.Ok? ==> IsSubsequence(res.value, fs)
    ensures res.Ok? ==> forall f :: f in res.value <==> f in out && old(DistanceCheck(f.fields, cfg, geo)) == Keep
    ensures res.Ok? ==> forall f :: f in out ==> f.fields == Annotated(old(f.fields), cfg, geo)
    ensures res.Ok? ==> forall f :: f in out ==>
              multiset(res.value)[f] == if old(DistanceCheck(f.fields, cfg, geo)) == Keep then multiset(out)[f] else 0
  {
    ghost var mid := Fields(out);
    res := DistanceStage(out, cfg, geo);
    ghost var n := FirstCrash(mid, DistanceTest(cfg, geo));
    if res.Err? {
      if n < |out| {
        assert out[n] in out;
      }
      return;
    }
    KeepWhereIsSubsequence(out, mid, IsKept(DistanceTest(cfg, geo)));
    SubsequenceTransitive(res.value, out, fs);
    forall f | f in out
      ensures f in res.value <==> old(DistanceCheck(f.fields, cfg, geo)) == Keep
      ensures f.fields == Annotated(old(f.fields), cfg, geo)
      ensures multiset(res.value)[f] == if old(DistanceCheck(f.fields, cfg, geo)) == Keep then multiset(out)[f] else 0
    {
      var j :| 0 <= j < |out| && out[j] == f;
      KeepWhereMultiplicity(out, mid, IsKept(DistanceTest(cfg, geo)), f, old(f.fields));
      assert mid[j] == old(f.fields);
      assert out[j] in out[..n];
      KeepWhereMembership(out, mid, IsKept(DistanceTest(cfg, geo)), f);
      if f in res.value {
        var i :| 0 <= i < |out| && out[i] == f && IsKept(DistanceTest(cfg, geo))(mid[i]);
        assert mid[i] == old(f.fields);
      }
    }
  }

  /** Whether `apply_filters` raises on `fs`: a text stage raises, or the
      distance stage is active and a survivor of the text stages has
      non-numeric coordinates. */
  predicate FiltersRaise(fs: seq<Formation>, cfg: FilterConfig, dumps: Record -> string, geo: Geo)
    reads set f | f in fs
  {
    var text := TextStages(fs, cfg, dumps);
    text.Err? || (DistanceActive(cfg) && exists f :: f in text.value && DistanceCheck(f.fields, cfg, geo) == Crash)
  }

  /** `apply_filters`: the five text stages, then the distance stage. An
      exception in a stage becomes `Err` naming that stage. The result keeps
      the input's order and holds exactly the admitted formations; when the
      distance stage is active every formation returned carries its rounded
      distance and no other formation is touched. */
  method ApplyFilters(fs: seq<Formation>, cfg: FilterConfig, dumps: Record -> string, geo: Geo)
    returns (res: Result<seq<Formation>, Stage>)
    modifies set f | f in fs
    ensures fs == [] ==> res == Ok([])
    ensures old(TextStages(fs, cfg, dumps)).Err? ==>
              res == old(TextStages(fs, cfg, dumps)) && forall f :: f in fs ==> f.fields == old(f.fields)
    ensures old(TextStages(fs, cfg, dumps)).Ok? && !DistanceActive(cfg) ==>
              res == old(TextStages(fs, cfg, dumps)) && forall f :: f in fs ==> f.fields == old(f.fields)
    ensures res.Err? <==> old(FiltersRaise(fs, cfg, dumps, geo))
    ensures res.Err? && old(TextStages(fs, cfg, dumps)).Ok? ==> res.error == Distance
    ensures res.Ok? ==> IsSubsequence(res.value, fs)
    ensures res.Ok? ==> forall f :: f in res.value <==> f in fs && old(Admitted(cfg, dumps, geo, f.fields))
    ensures res.Ok? ==> forall f :: f in fs ==>
              multiset(res.value)[f] == if old(Admitted(cfg, dumps, geo, f.fields)) then multiset(fs)[f] else 0
    ensures res.Ok? && DistanceActive(cfg) ==>
              forall f :: f in fs ==> f.fields == if f in res.value then Annotated(old(f.fields), cfg, geo) else old(f.fields)
  {
    TextStagesFacts(fs, cfg, dumps);
    if fs == [] {
      return Ok([]);
    }
    var text := TextStages(fs, cfg, dumps);
    if text.Err? {
      return text;
    }
    if !DistanceActive(cfg) {
      return text;
    }
    res := MeasureSurvivors(fs, text.value, cfg, geo);
    if res.Ok? {
      forall f | f in fs
        ensures multiset(res.value)[f] == if old(Admitted(cfg, dumps, geo, f.fields)) then multiset(fs)[f] else 0
      {
        if f !in text.value {
          assert f !in res.value;
        }
      }
    }
  }
}
