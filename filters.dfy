/** The first five stages of `apply_filters`: department, formation type,
    establishment status, include keywords and exclude keywords. Each is a
    list comprehension over the output of the previous one, and is skipped
    when its configuration list is empty. */
module Filters {
  import opened Wrappers
  import opened Json
  import opened Text
  import opened Records

  /** The `filters` section of the configuration. An absent or null list is
      the empty list; an absent, null or zero number is None or Some(0.0). */
  datatype FilterConfig = FilterConfig(
    departements: seq<string>,
    typesFormation: seq<string>,
    statut: seq<string>,
    keywordsInclude: seq<string>,
    keywordsExclude: seq<string>,
    maxDistanceKm: Option<real>,
    homeLat: Option<real>,
    homeLon: Option<real>)

  /** The stages, in the order they run. */
  datatype Stage = Departement | TypeFormation | Statut | KeywordsInclude | KeywordsExclude | Distance

  /** What a stage's condition does with one record: keep it, drop it, or
      raise (a TypeError or AttributeError in the source). */
  datatype Verdict = Keep | Drop | Crash

  function IsKept(v: Record -> Verdict): Record -> bool {
    r => v(r) == Keep
  }

  // ---------------------------------------------------------------------
  // Department: `f.get("departement") in depts or f.get("code_departement") in depts`

  /** Looking up an unhashable value in the department set raises; the
      second field is only looked up when the first does not match. */
  predicate DeptRaises(r: Record, depts: seq<string>) {
    var d := Get(r, "departement");
    !Hashable(d) || (!(d.Str? && d.s in depts) && !Hashable(Get(r, "code_departement")))
  }

  predicate DeptMatches(r: Record, depts: seq<string>) {
    exists d :: d in depts && (Get(r, "departement") == Str(d) || Get(r, "code_departement") == Str(d))
  }

  function DeptTest(r: Record, depts: seq<string>): (v: Verdict)
    ensures v == Crash <==> DeptRaises(r, depts)
    ensures v == Keep <==> !DeptRaises(r, depts) && DeptMatches(r, depts)
  {
    var d := Get(r, "departement");
    if !Hashable(d) then Crash
    else if d.Str? && d.s in depts then Keep
    else
      var c := Get(r, "code_departement");
      if !Hashable(c) then Crash
      else if c.Str? && c.s in depts then Keep
      else Drop
  }

  // ---------------------------------------------------------------------
  // Type and status: `f.get(key, "").lower()`

  /** `f.get(key, "")` when it is a string; None when `.lower()` would raise
      because the field holds null, a number, a list or a dictionary. */
  function TextField(r: Record, key: string): Option<string> {
    if key !in r then Some("")
    else if r[key].Str? then Some(r[key].s)
    else None
  }

  /** The string a field shows to the type and status tests ("" when absent
      or not a string). */
  function FieldText(r: Record, key: string): string {
    match TextField(r, key)
    case Some(s) => s
    case None => ""
  }

  /** `any(t in hay.lower() for t in [n.lower() for n in needles])`. */
  predicate AnyContained(needles: seq<string>, hay: string) {
    exists n :: n in needles && Contains(Lower(hay), Lower(n))
  }

  predicate TypeRaises(r: Record, types: seq<string>) {
    TextField(r, "type_formation").None?
    || (!AnyContained(types, FieldText(r, "type_formation")) && TextField(r, "filiere").None?)
  }

  predicate TypeMatches(r: Record, types: seq<string>) {
    exists t :: t in types &&
      (Contains(Lower(FieldText(r, "type_formation")), Lower(t)) || Contains(Lower(FieldText(r, "filiere")), Lower(t)))
  }

  function TypeTest(r: Record, types: seq<string>): (v: Verdict)
    ensures v == Crash <==> TypeRaises(r, types)
    ensures v == Keep <==> !TypeRaises(r, types) && TypeMatches(r, types)
  {
    match TextField(r, "type_formation")
    case None => Crash
    case Some(t) =>
      if AnyContained(types, t) then Keep
      else
        match TextField(r, "filiere")
        case None => Crash
        case Some(fl) => if AnyContained(types, fl) then Keep else Drop
  }

  predicate StatusMatches(r: Record, statut: seq<string>) {
    exists s :: s in statut && Lower(s) == Lower(FieldText(r, "statut_etablissement"))
  }

  function StatusTest(r: Record, statut: seq<string>): (v: Verdict)
    ensures v == Crash <==> TextField(r, "statut_etablissement").None?
    ensures v == Keep <==> TextField(r, "statut_etablissement").Some? && StatusMatches(r, statut)
  {
    match TextField(r, "statut_etablissement")
    case None => Crash
    case Some(s) => if exists st :: st in statut && Lower(st) == Lower(s) then Keep else Drop
  }

  // ---------------------------------------------------------------------
  // Keywords: a substring test on `json.dumps(f, ensure_ascii=False).lower()`,
  // where `dumps` stands for the serialisation and never raises on a record.

  function IncludeTest(r: Record, keywords: seq<string>, dumps: Record -> string): (v: Verdict)
    ensures v != Crash
    ensures v == Keep <==> exists k :: k in keywords && Contains(Lower(dumps(r)), Lower(k))
  {
    if AnyContained(keywords, dumps(r)) then Keep else Drop
  }

  function ExcludeTest(r: Record, keywords: seq<string>, dumps: Record -> string): (v: Verdict)
    ensures v != Crash
    ensures v == Keep <==> forall k :: k in keywords ==> !Contains(Lower(dumps(r)), Lower(k))
  {
    if AnyContained(keywords, dumps(r)) then Drop else Keep
  }

  // ---------------------------------------------------------------------
  // The chain

  /** A stage runs only when its configuration list is non-empty. */
  predicate TextStageActive(cfg: FilterConfig, stage: Stage) {
    match stage
    case Departement => cfg.departements != []
    case TypeFormation => cfg.typesFormation != []
    case Statut => cfg.statut != []
    case KeywordsInclude => cfg.keywordsInclude != []
    case KeywordsExclude => cfg.keywordsExclude != []
    case Distance => false
  }

  function StageTest(cfg: FilterConfig, dumps: Record -> string, stage: Stage): Record -> Verdict {
    match stage
    case Departement => r => DeptTest(r, cfg.departements)
    case TypeFormation => r => TypeTest(r, cfg.typesFormation)
    case Statut => r => StatusTest(r, cfg.statut)
    case KeywordsInclude => r => IncludeTest(r, cfg.keywordsInclude, dumps)
    case KeywordsExclude => r => ExcludeTest(r, cfg.keywordsExclude, dumps)
    case Distance => r => Keep
  }

  /** What one stage does with one record: an inactive stage keeps everything. */
  function Gate(cfg: FilterConfig, dumps: Record -> string, stage: Stage, r: Record): Verdict {
    if TextStageActive(cfg, stage) then StageTest(cfg, dumps, stage)(r) else Keep
  }

  /** `[f for f in fs if test(f)]` where `test` may raise: the exception of
      any record aborts the comprehension. */
  function Screen(fs: seq<Formation>, test: Record -> Verdict, stage: Stage): (res: Result<seq<Formation>, Stage>)
    reads fs
    ensures res.Err? ==> res.error == stage
    ensures res.Ok? ==> |res.value| <= |fs|
    ensures res.Ok? ==> forall f :: f in res.value ==> f in fs
  {
    var rs := Fields(fs);
    if exists i :: 0 <= i < |rs| && test(rs[i]) == Crash then Err(stage)
    else Ok(KeepWhere(fs, rs, IsKept(test)))
  }

  /** One stage over a list: `filtered = [f for f in filtered if ...]` when
      the stage is active, the list itself otherwise. */
  function RunStage(fs: seq<Formation>, cfg: FilterConfig, dumps: Record -> string, stage: Stage): (res: Result<seq<Formation>, Stage>)
    reads fs
    ensures !TextStageActive(cfg, stage) ==> res == Ok(fs)
    ensures res.Err? ==> res.error == stage
    ensures res.Ok? ==> |res.value| <= |fs|
    ensures res.Ok? ==> forall f :: f in res.value ==> f in fs
  {
    if !TextStageActive(cfg, stage) then Ok(fs)
    else Screen(fs, StageTest(cfg, dumps, stage), stage)
  }

  /** The department, type, status, include and exclude stages, in that order. */
  const TextStageOrder: seq<Stage> := [Departement, TypeFormation, Statut, KeywordsInclude, KeywordsExclude]

  /** Runs `stages` one after the other, each on the output of the previous,
      stopping at the first that raises. */
  function RunStages(fs: seq<Formation>, cfg: FilterConfig, dumps: Record -> string, stages: seq<Stage>): (res: Result<seq<Formation>, Stage>)
    reads set f | f in fs
    ensures res.Ok? ==> |res.value| <= |fs|
    ensures res.Ok? ==> forall f :: f in res.value ==> f in fs
    decreases |stages|
  {
    if stages == [] then Ok(fs)
    else
      var s := RunStage(fs, cfg, dumps, stages[0]);
      if s.Err? then s else
      RunStages(s.value, cfg, dumps, stages[1..])
  }

  function TextStages(fs: seq<Formation>, cfg: FilterConfig, dumps: Record -> string): (res: Result<seq<Formation>, Stage>)
    reads fs
    ensures res.Ok? ==> forall f :: f in res.value ==> f in fs
  {
    RunStages(fs, cfg, dumps, TextStageOrder)
  }

  /** What the five stages together do with one record: the verdict of the
      first stage that does not keep it. */
  function ChainVerdict(cfg: FilterConfig, dumps: Record -> string, r: Record): Verdict {
    FirstRefusal(cfg, dumps, TextStageOrder, r)
  }

  function FirstRefusal(cfg: FilterConfig, dumps: Record -> string, stages: seq<Stage>, r: Record): Verdict {
    if stages == [] then Keep
    else if Gate(cfg, dumps, stages[0], r) != Keep then Gate(cfg, dumps, stages[0], r)
    else FirstRefusal(cfg, dumps, stages[1..], r)
  }

  // ---------------------------------------------------------------------
  // What the stages do to a list

  /** A screen raises exactly when `test` raises on one of the records;
      otherwise it keeps, in order and without merging duplicates, exactly
      the formations `test` keeps. */
  lemma ScreenFacts(fs: seq<Formation>, test: Record -> Verdict, stage: Stage)
    ensures Screen(fs, test, stage).Err? <==> exists f :: f in fs && test(f.fields) == Crash
    ensures Screen(fs, test, stage).Ok? ==>
              var out := Screen(fs, test, stage).value;
              && IsSubsequence(out, fs)
              && forall f: Formation :: multiset(out)[f] == if test(f.fields) == Keep then multiset(fs)[f] else 0
  {
    var rs := Fields(fs);
    if exists i :: 0 <= i < |rs| && test(rs[i]) == Crash {
      var i :| 0 <= i < |rs| && test(rs[i]) == Crash;
      assert fs[i] in fs;
    } else {
      forall f | f in fs ensures test(f.fields) != Crash {
        var i :| 0 <= i < |fs| && fs[i] == f;
        assert test(rs[i]) != Crash;
      }
      KeepWhereIsSubsequence(fs, rs, IsKept(test));
      forall f: Formation ensures multiset(KeepWhere(fs, rs, IsKept(test)))[f] ==
                                    if test(f.fields) == Keep then multiset(fs)[f] else 0 {
        KeepWhereMultiplicity(fs, rs, IsKept(test), f, f.fields);
      }
    }
  }

  /** The same for one stage, whose test keeps everything when it is inactive. */
  lemma RunStageFacts(fs: seq<Formation>, cfg: FilterConfig, dumps: Record -> string, stage: Stage)
    ensures RunStage(fs, cfg, dumps, stage).Err? <==>
              exists f :: f in fs && Gate(cfg, dumps, stage, f.fields) == Crash
    ensures RunStage(fs, cfg, dumps, stage).Ok? ==>
              var out := RunStage(fs, cfg, dumps, stage).value;
              && IsSubsequence(out, fs)
              && forall f: Formation :: multiset(out)[f] == if Gate(cfg, dumps, stage, f.fields) == Keep then multiset(fs)[f] else 0
  {
    if !TextStageActive(cfg, stage) {
      SubsequenceReflexive(fs);
    } else {
      ScreenFacts(fs, StageTest(cfg, dumps, stage), stage);
    }
  }

  /** The same for a list of stages run one after the other, with the verdict
      of the first stage that does not keep a record. */
  lemma {:induction false} RunStagesFacts(fs: seq<Formation>, cfg: FilterConfig, dumps: Record -> string, stages: seq<Stage>)
    ensures RunStages(fs, cfg, dumps, stages).Err? <==>
              exists f :: f in fs && FirstRefusal(cfg, dumps, stages, f.fields) == Crash
    ensures RunStages(fs, cfg, dumps, stages).Ok? ==>
              var out := RunStages(fs, cfg, dumps, stages).value;
              && IsSubsequence(out, fs)
              && forall f: Formation :: multiset(out)[f] == if FirstRefusal(cfg, dumps, stages, f.fields) == Keep then multiset(fs)[f] else 0
    decreases |stages|
  {
    if stages == [] {
      SubsequenceReflexive(fs);
    } else {
      var s := RunStage(fs, cfg, dumps, stages[0]);
      RunStageFacts(fs, cfg, dumps, stages[0]);
      if s.Ok? {
        var s1 := s.value;
        RunStagesFacts(s1, cfg, dumps, stages[1..]);
        forall f: Formation ensures f in s1 <==> f in fs && Gate(cfg, dumps, stages[0], f.fields) == Keep {
          var m1: multiset<Formation>, m0: multiset<Formation> := multiset(s1), multiset(fs);
          assert f in s1 <==> m1[f] > 0;
          assert f in fs <==> m0[f] > 0;
        }
        var res := RunStages(s1, cfg, dumps, stages[1..]);
        if res.Ok? {
          SubsequenceTransitive(res.value, s1, fs);
        }
      }
    }
  }

  /** The five text stages raise exactly when some record raises at the first
      active stage that does not keep it; otherwise their output is the input
      with exactly the records every active stage keeps, in order, duplicates
      included. No stage re-admits a record an earlier stage dropped. */
  lemma TextStagesFacts(fs: seq<Formation>, cfg: FilterConfig, dumps: Record -> string)
    ensures TextStages(fs, cfg, dumps).Err? <==>
              exists f :: f in fs && ChainVerdict(cfg, dumps, f.fields) == Crash
    ensures TextStages(fs, cfg, dumps).Ok? ==>
              var out := TextStages(fs, cfg, dumps).value;
              && IsSubsequence(out, fs)
              && |out| <= |fs|
              && (forall f: Formation :: multiset(out)[f] == if ChainVerdict(cfg, dumps, f.fields) == Keep then multiset(fs)[f] else 0)
              && (forall f: Formation :: f in out <==> f in fs && ChainVerdict(cfg, dumps, f.fields) == Keep)
  {
    RunStagesFacts(fs, cfg, dumps, TextStageOrder);
    var res := TextStages(fs, cfg, dumps);
    if res.Ok? {
      var out := res.value;
      forall f: Formation ensures f in out <==> f in fs && ChainVerdict(cfg, dumps, f.fields) == Keep {
        var m1: multiset<Formation>, m0: multiset<Formation> := multiset(out), multiset(fs);
        assert f in out <==> m1[f] > 0;
        assert f in fs <==> m0[f] > 0;
      }
    }
  }

  /** A record passes a list of stages exactly when every one of them keeps it. */
  lemma {:induction false} FirstRefusalKeep(cfg: FilterConfig, dumps: Record -> string, stages: seq<Stage>, r: Record)
    ensures FirstRefusal(cfg, dumps, stages, r) == Keep <==> forall st :: st in stages ==> Gate(cfg, dumps, st, r) == Keep
    decreases |stages|
  {
    if stages != [] {
      FirstRefusalKeep(cfg, dumps, stages[1..], r);
      assert forall st :: st in stages <==> st == stages[0] || st in stages[1..];
    }
  }

  /** A record passes the text stages exactly when each active stage keeps it:
      it matches the departments, the types and the statuses configured, contains
      an include keyword and no exclude keyword, and no test raises on it. */
  lemma ChainVerdictKeep(cfg: FilterConfig, dumps: Record -> string, r: Record)
    ensures ChainVerdict(cfg, dumps, r) == Keep <==>
      && (cfg.departements != [] ==> !DeptRaises(r, cfg.departements) && DeptMatches(r, cfg.departements))
      && (cfg.typesFormation != [] ==> !TypeRaises(r, cfg.typesFormation) && TypeMatches(r, cfg.typesFormation))
      && (cfg.statut != [] ==> TextField(r, "statut_etablissement").Some? && StatusMatches(r, cfg.statut))
      && (cfg.keywordsInclude != [] ==> exists k :: k in cfg.keywordsInclude && Contains(Lower(dumps(r)), Lower(k)))
      && (cfg.keywordsExclude != [] ==> forall k :: k in cfg.keywordsExclude ==> !Contains(Lower(dumps(r)), Lower(k)))
  {
    FirstRefusalKeep(cfg, dumps, TextStageOrder, r);
    assert Departement in TextStageOrder && TypeFormation in TextStageOrder && Statut in TextStageOrder;
    assert KeywordsInclude in TextStageOrder && KeywordsExclude in TextStageOrder;
  }

  /** Stages that are all inactive pass the formations through unchanged. */
  lemma {:induction false} RunStagesInactive(fs: seq<Formation>, cfg: FilterConfig, dumps: Record -> string, stages: seq<Stage>)
    requires forall st :: st in stages ==> !TextStageActive(cfg, st)
    ensures RunStages(fs, cfg, dumps, stages) == Ok(fs)
    decreases |stages|
  {
    if stages != [] {
      assert stages[0] in stages;
      assert forall st :: st in stages[1..] ==> st in stages;
      RunStagesInactive(fs, cfg, dumps, stages[1..]);
    }
  }

  /** With every list empty, the text stages pass the formations through unchanged. */
  lemma TextStagesInactive(fs: seq<Formation>, cfg: FilterConfig, dumps: Record -> string)
    requires cfg.departements == [] && cfg.typesFormation == [] && cfg.statut == []
    requires cfg.keywordsInclude == [] && cfg.keywordsExclude == []
    ensures TextStages(fs, cfg, dumps) == Ok(fs)
  {
    RunStagesInactive(fs, cfg, dumps, TextStageOrder);
  }
}
