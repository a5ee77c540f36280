/** The identity resolver: the key under which a formation is recognised
    from one run to the next (`get_unique_id`). */
module Identity {
  import opened Json
  import opened Text

  /** What an f-string shows for a field value: a string as it is, any other
      value through `render`, which stands for Python's `str()` of a number,
      boolean, None, list or dictionary. */
  function Show(v: Value, render: Value -> string): string {
    if v.Str? then v.s else render(v)
  }

  /** `formation.get(key, "unknown")` as an f-string shows it. */
  function FieldOrUnknown(r: Record, key: string, render: Value -> string): (s: string)
    ensures key !in r ==> s == "unknown"
    ensures key in r && r[key].Str? ==> s == r[key].s
    ensures key in r && !r[key].Str? ==> s == render(r[key])
  {
    if key in r then Show(r[key], render) else "unknown"
  }

  /** `.lower().replace(" ", "_")`: the normalisation of a composite key. */
  function NormaliseKey(s: string): (k: string)
    ensures |k| == |s|
    ensures ' ' !in k
    ensures IsLowerCase(k)
  {
    ReplaceSpaces(Lower(s))
  }

  /** The composite key: `composite_`, then the session, formation name,
      establishment name and city, separated by underscores. */
  function CompositeKey(r: Record, render: Value -> string): (k: string)
    ensures |k| == 13 + |FieldOrUnknown(r, "session", render)| + |FieldOrUnknown(r, "libelle_formation", render)|
                      + |FieldOrUnknown(r, "libelle_etablissement", render)| + |FieldOrUnknown(r, "ville", render)|
    ensures k[..10] == "composite_"
  {
    "composite_" + FieldOrUnknown(r, "session", render)
      + "_" + FieldOrUnknown(r, "libelle_formation", render)
      + "_" + FieldOrUnknown(r, "libelle_etablissement", render)
      + "_" + FieldOrUnknown(r, "ville", render)
  }

  /** The identity of a formation: the UAI code when the record has a
      `code_uai` key (whatever its value), the normalised composite otherwise. */
  function UniqueId(r: Record, render: Value -> string): (id: string)
    ensures "code_uai" in r ==> id == "uai_" + Show(r["code_uai"], render)
    ensures "code_uai" !in r ==> |id| >= 10 && id[..10] == "composite_"
    ensures "code_uai" !in r ==> ' ' !in id && IsLowerCase(id)
  {
    if "code_uai" in r then "uai_" + Show(r["code_uai"], render)
    else NormaliseKey(CompositeKey(r, render))
  }

  /** With a `code_uai` key, no other field affects the identity. */
  lemma UaiIdIgnoresOtherFields(r1: Record, r2: Record, render: Value -> string)
    requires "code_uai" in r1 && "code_uai" in r2 && r1["code_uai"] == r2["code_uai"]
    ensures UniqueId(r1, render) == UniqueId(r2, render)
  {
  }

  /** Without a `code_uai` key, only the four composite fields affect the
      identity; a field that is absent reads as "unknown". */
  lemma CompositeIdDependsOnFourFields(r1: Record, r2: Record, render: Value -> string)
    requires "code_uai" !in r1 && "code_uai" !in r2
    requires forall k :: k in ["session", "libelle_formation", "libelle_etablissement", "ville"] ==>
               FieldOrUnknown(r1, k, render) == FieldOrUnknown(r2, k, render)
    ensures UniqueId(r1, render) == UniqueId(r2, render)
  {
    assert "session" in ["session", "libelle_formation", "libelle_etablissement", "ville"];
    assert "libelle_formation" in ["session", "libelle_formation", "libelle_etablissement", "ville"];
    assert "libelle_etablissement" in ["session", "libelle_formation", "libelle_etablissement", "ville"];
    assert "ville" in ["session", "libelle_formation", "libelle_etablissement", "ville"];
  }

  /** A UAI identity never equals a composite identity, so a record with a
      code is never mistaken for one without. */
  lemma UaiAndCompositeNeverCollide(r1: Record, r2: Record, render: Value -> string)
    requires "code_uai" in r1 && "code_uai" !in r2
    ensures UniqueId(r1, render) != UniqueId(r2, render)
  {
    var id1, id2 := UniqueId(r1, render), UniqueId(r2, render);
    assert id1[0] == 'u';
    assert id2[0] == id2[..10][0] == 'c';
  }

  /** Normalisation works piece by piece. */
  lemma NormaliseKeyConcat(a: string, b: string)
    ensures NormaliseKey(a + b) == NormaliseKey(a) + NormaliseKey(b)
  {
    var l, r := NormaliseKey(a + b), NormaliseKey(a) + NormaliseKey(b);
    forall i | 0 <= i < |l| ensures l[i] == r[i] {
      if i < |a| {
        assert (a + b)[i] == a[i];
      } else {
        assert (a + b)[i] == b[i - |a|];
      }
    }
  }

  /** Composite identities ignore case and do not tell a space from an
      underscore: records whose four composite fields agree up to that
      normalisation share an identity, so the differ treats them as the same
      formation. */
  lemma CompositeIdIgnoresCaseAndSpaces(r1: Record, r2: Record, render: Value -> string)
    requires "code_uai" !in r1 && "code_uai" !in r2
    requires forall k :: k in ["session", "libelle_formation", "libelle_etablissement", "ville"] ==>
               NormaliseKey(FieldOrUnknown(r1, k, render)) == NormaliseKey(FieldOrUnknown(r2, k, render))
    ensures UniqueId(r1, render) == UniqueId(r2, render)
  {
    var keys := ["session", "libelle_formation", "libelle_etablissement", "ville"];
    assert keys[0] in keys && keys[1] in keys && keys[2] in keys && keys[3] in keys;
    var s1, n1, e1, v1 := NormaliseKey(FieldOrUnknown(r1, "session", render)), NormaliseKey(FieldOrUnknown(r1, "libelle_formation", render)),
                          NormaliseKey(FieldOrUnknown(r1, "libelle_etablissement", render)), NormaliseKey(FieldOrUnknown(r1, "ville", render));
    var s2, n2, e2, v2 := NormaliseKey(FieldOrUnknown(r2, "session", render)), NormaliseKey(FieldOrUnknown(r2, "libelle_formation", render)),
                          NormaliseKey(FieldOrUnknown(r2, "libelle_etablissement", render)), NormaliseKey(FieldOrUnknown(r2, "ville", render));
    assert s1 == s2 && n1 == n2 && e1 == e2 && v1 == v2;
    NormaliseParts(r1, render);
    NormaliseParts(r2, render);
  }

  /** The normalised composite key, assembled from the normalised fields. */
  lemma NormaliseParts(r: Record, render: Value -> string)
    ensures NormaliseKey(CompositeKey(r, render)) ==
      NormaliseKey("composite_") + NormaliseKey(FieldOrUnknown(r, "session", render))
      + NormaliseKey("_") + NormaliseKey(FieldOrUnknown(r, "libelle_formation", render))
      + NormaliseKey("_") + NormaliseKey(FieldOrUnknown(r, "libelle_etablissement", render))
      + NormaliseKey("_") + NormaliseKey(FieldOrUnknown(r, "ville", render))
  {
    var s := FieldOrUnknown(r, "session", render);
    var n := FieldOrUnknown(r, "libelle_formation", render);
    var e := FieldOrUnknown(r, "libelle_etablissement", render);
    var v := FieldOrUnknown(r, "ville", render);
    NormaliseKeyConcat("composite_" + s + "_" + n + "_" + e + "_", v);
    NormaliseKeyConcat("composite_" + s + "_" + n + "_" + e, "_");
    NormaliseKeyConcat("composite_" + s + "_" + n + "_", e);
    NormaliseKeyConcat("composite_" + s + "_" + n, "_");
    NormaliseKeyConcat("composite_" + s + "_", n);
    NormaliseKeyConcat("composite_" + s, "_");
    NormaliseKeyConcat("composite_", s);
  }
}
