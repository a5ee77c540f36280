# Parcoursup formation monitor — a verified model of its pipeline

The monitor is a single Python script, `src/monitor.py`. On each run it does four things:

1. It fetches the current list of Parcoursup formations.
2. It compares them with the snapshot stored by the previous run.
3. It filters the formations that are new against the user's criteria.
4. It emails a report.

This project models the part between the fetch and the mail transport, and proves properties of it:

- the identity of a formation (`get_unique_id`);
- the snapshot differ (`detect_new_formations`);
- the six-stage filter chain (`apply_filters`): department, type, status, include keywords, exclude keywords, distance;
- the decision in `main` whether to send a report, which subject it carries, and which section `create_email_html` writes.

Modules, one per file:

- `wrappers.dfy`: `Option` and `Result`.
- `json.dfy`: JSON values and records. A record is a `map<string, Value>`. It also defines Python truthiness and hashability.
- `text.dfy`: lower-casing, space replacement, substring search, and decimal numerals.
- `records.dfy`:
  - `Formation`, a class holding one record. The source's dictionaries are shared and annotated in place, so a record needs an object of its own.
  - `KeepWhere`, order-preserving selection, and `IsSubsequence`, with their lemmas.
- `identity.dfy`: `get_unique_id`.
- `differ.dfy`: `detect_new_formations`.
- `filters.dfy`: the five list-comprehension stages and their composition.
- `distance.dfy`:
  - the distance stage, an imperative loop that writes `_distance_km` into the shared records;
  - `ApplyFilters`, the whole chain.
- `report.dfy`: the send, subject and section decision, and `Run`, the body of `main` between fetch and transport.

Python exceptions raised by the filter code become `Err(stage)` results. This covers three cases:

- an unhashable department value looked up in a set;
- `.lower()` on a field that is not a string;
- arithmetic on a coordinate that is not a number.

The collaborators that cannot be modelled are parameters of the model:

- `render`: Python's `str()` of a value that is not a string, as an f-string shows it;
- `dumps`: `json.dumps(f, ensure_ascii=False)`;
- `Geo`: `calculate_distance` and `round(·, 1)`.

Two behaviours of the code worth noting:

- The composite identity replaces each single space character with `_`. It does not collapse runs of whitespace.
- The status stage lower-cases the configured statuses as well as the field.

## Model

| member | source | states |
|---|---|---|
| Identity.UniqueId | src/monitor.py:206-222 | with a `code_uai` key, whatever its value, the id is `uai_` followed by the code as an f-string shows it; without one it starts with `composite_`, is lower-case and contains no space |
| Identity.NormaliseKey | src/monitor.py:222 | `.lower().replace(" ", "_")` keeps the length, leaves no space and yields lower case |
| Identity.FieldOrUnknown | src/monitor.py:217-220 | `formation.get(key, "unknown")` as the f-string shows it: `unknown` for an absent key, the text of a string, the `str()` of any other value |
| Identity.CompositeKey | src/monitor.py:222 | the composite starts with `composite_` and is 13 characters longer than its four fields together (prefix plus three underscores) |
| Identity.UaiIdIgnoresOtherFields | src/monitor.py:213-214 | records with the same `code_uai` value have the same id, whatever their other fields |
| Identity.CompositeIdDependsOnFourFields | src/monitor.py:216-222 | without `code_uai`, only `session`, `libelle_formation`, `libelle_etablissement` and `ville` affect the id, an absent field reading as `unknown` |
| Identity.CompositeIdIgnoresCaseAndSpaces | src/monitor.py:216-222 | composite ids agree whenever the four fields agree after lower-casing and space replacement |
| Identity.UaiAndCompositeNeverCollide | src/monitor.py:213-222 | a record with `code_uai` never gets the id of a record without one |
| Identity.NormaliseKeyConcat | src/monitor.py:222 | the normalisation of a concatenation is the concatenation of the normalisations |
| Identity.NormaliseParts | src/monitor.py:216-222 | the normalised composite is assembled from the normalised fields and separators |
| Text.Lower | src/monitor.py:222 | `.lower()` keeps the length, maps each character by `LowerChar` and yields lower case |
| Text.LowerOfLowerCase | src/monitor.py:222 | lower-casing a lower-case string changes nothing |
| Text.ReplaceSpaces | src/monitor.py:222 | `.replace(" ", "_")` keeps the length, leaves no space and changes no other character |
| Text.ContainsIffOccurs | src/monitor.py:327-328 | Python's substring test `t in s` holds exactly when `t` occurs at some position of `s` |
| Text.EmptyIsContained | src/monitor.py:341-343 | the empty string is a substring of every text, so an empty keyword matches every record |
| Text.DecimalRoundTrip | src/monitor.py:569 | reading back the decimal digits of a count gives the count |
| Text.DecimalInjective | src/monitor.py:569 | different counts have different decimal forms |
| Differ.DetectNew | src/monitor.py:258-273 | an empty previous snapshot gives `[]`; otherwise the result is no longer than `current` and drawn from it |
| Differ.DetectNewIsSubsequence | src/monitor.py:269-270 | the new formations are an order-preserving subsequence of `current` |
| Differ.DetectNewMembership | src/monitor.py:269-270 | with a non-empty previous snapshot, a formation of `current` is new exactly when no previous formation has its id |
| Differ.DetectNewKeepsDuplicates | src/monitor.py:269-270 | a new formation keeps all its occurrences in `current`; the differ merges nothing |
| Differ.DetectNewOfSelf | src/monitor.py:265-270 | comparing a snapshot with itself finds nothing new |
| Differ.DetectNewAllNew | src/monitor.py:269-270 | when no id of `current` occurs in `previous`, everything is new, in order |
| Records.KeepWhere | src/monitor.py:318-320 | a list comprehension's output is no longer than its input and drawn from it |
| Records.KeepWhereIsSubsequence | src/monitor.py:318-320 | a list comprehension keeps the input's order |
| Records.KeepWhereMembership | src/monitor.py:318-320 | a formation is kept exactly when it occurs at a position whose record passes the test |
| Records.KeepWhereMultiplicity | src/monitor.py:318-320 | a kept formation keeps all its occurrences, a dropped one none |
| Records.KeepWhereAll | src/monitor.py:318-320 | a test every record passes keeps the list unchanged |
| Records.KeepWhereNone | src/monitor.py:318-320 | the output is empty exactly when no record passes |
| Records.KeepWhereSnoc | src/monitor.py:362-373 | appending a formation appends it to the selection exactly when it passes, the shape of `distance_filtered.append(f)` |
| Records.SubsequenceReflexive | src/monitor.py:313 | a list is a subsequence of itself, the case of a skipped stage |
| Records.SubsequenceTransitive | src/monitor.py:313-375 | stages chained on each other's output stay subsequences of the input |
| Records.SubsequenceOfTail | src/monitor.py:313-375 | a subsequence of a list's tail is a subsequence of the list |
| Records.SubsequenceDropHead | src/monitor.py:313-375 | dropping the first element of a subsequence leaves a subsequence |
| Filters.DeptTest | src/monitor.py:316-320 | keeps a record exactly when `departement` or `code_departement` is one of the configured departments, raises exactly when an unhashable value is looked up |
| Filters.TypeTest | src/monitor.py:324-328 | keeps a record exactly when some configured type, lower-cased, is a substring of the lower-cased `type_formation` or `filiere`; raises when a consulted field is not a string |
| Filters.StatusTest | src/monitor.py:332-335 | keeps a record exactly when its lower-cased `statut_etablissement` equals some lower-cased configured status; raises when that field is present and not a string |
| Filters.IncludeTest | src/monitor.py:339-343 | never raises; keeps exactly the records whose lower-cased serialisation contains some lower-cased keyword |
| Filters.ExcludeTest | src/monitor.py:347-351 | never raises; keeps exactly the records whose lower-cased serialisation contains no lower-cased keyword |
| Filters.Screen | src/monitor.py:318-320 | a comprehension that raises reports its stage; otherwise its output is no longer than its input and drawn from it |
| Filters.RunStage | src/monitor.py:316-352 | an inactive stage returns its input unchanged; an active one reports its own stage on error and otherwise narrows |
| Filters.RunStages | src/monitor.py:313-352 | stages run one after the other narrow the list |
| Filters.TextStages | src/monitor.py:313-352 | the five text stages keep only formations of the input |
| Filters.ScreenFacts | src/monitor.py:318-320 | a comprehension raises exactly when some record raises; otherwise it keeps, in order and with multiplicity, exactly the records its test keeps |
| Filters.RunStageFacts | src/monitor.py:316-352 | the same for one stage, an inactive stage keeping everything |
| Filters.RunStagesFacts | src/monitor.py:313-352 | a chain of stages raises exactly when some record reaches a stage that raises on it; otherwise it is a subsequence keeping exactly the records every stage keeps |
| Filters.TextStagesFacts | src/monitor.py:313-352 | the five text stages: error exactly on a raising record, otherwise an order-preserving subsequence holding exactly the formations every active stage keeps, duplicates included |
| Filters.FirstRefusalKeep | src/monitor.py:313-352 | a record passes a list of stages exactly when each of them keeps it |
| Filters.ChainVerdictKeep | src/monitor.py:316-352 | a record survives the five stages exactly when, for each active stage, it meets that stage's predicate |
| Filters.RunStagesInactive | src/monitor.py:316-352 | stages whose configuration is empty leave the list unchanged |
| Filters.TextStagesInactive | src/monitor.py:316-352 | with all five configuration lists empty the text stages return their input |
| Distance.DistanceActive | src/monitor.py:355-358 | the distance stage runs exactly when `max_distance_km`, the home `lat` and the home `lon` are all truthy in Python's sense |
| Distance.CoordinatesOf | src/monitor.py:364 | the coordinates are `coordonnees` when truthy, else `coordinates` when truthy, else the empty dictionary |
| Distance.Position | src/monitor.py:365-369 | a position exists exactly when the coordinates are a dictionary with a truthy `lat` or `latitude` and a truthy `lon` or `longitude`; both parts are then truthy, `lat` preferred over `latitude` and `lon` over `longitude` |
| Distance.MeasureOf | src/monitor.py:364-370 | a record is unplaced exactly when it has no dictionary of truthy `lat`/`latitude` and `lon`/`longitude`, measured exactly when both are numbers, and then the distance is `calculate_distance` from home |
| Distance.DistanceCheck | src/monitor.py:363-373 | keeps a record exactly when it is measured within `max_distance_km`; raises exactly on non-numeric coordinates |
| Distance.Annotated | src/monitor.py:371-373 | a kept record gains `_distance_km`, the rounded distance; any other record is untouched |
| Distance.AnnotationIsStable | src/monitor.py:372 | writing `_distance_km` changes neither the record's measure nor, written again, the record |
| Distance.FirstCrash | src/monitor.py:363-373 | the position of the first record on which the stage raises, with no raise before it |
| Distance.PassOver | src/monitor.py:363-373 | skipping a formation the stage does not keep leaves the annotation state correct one position further |
| Distance.Annotate | src/monitor.py:372 | writing the annotation into the formation at one position extends the annotated prefix by that position |
| Distance.Visit | src/monitor.py:364-373 | one iteration raises exactly on non-numeric coordinates, otherwise annotates and appends exactly a kept formation |
| Distance.Sweep | src/monitor.py:362-375 | the loop raises exactly when some record has non-numeric coordinates, leaving the formations before it annotated; otherwise it returns the kept formations in order, all annotated |
| Distance.DistanceStage | src/monitor.py:355-376 | inactive unless `max_distance_km` and both home coordinates are truthy, and then nothing changes; active, it returns exactly the formations within range, in order, and annotates them in place |
| Distance.MeasureSurvivors | src/monitor.py:362-376 | on the text stages' survivors: error exactly on a non-numeric coordinate; otherwise exactly the survivors within range, annotated, the rest untouched |
| Distance.ApplyFilters | src/monitor.py:302-378 | `[]` on empty input; it fails exactly when a text stage raises or, with the distance stage active, a text-stage survivor has non-numeric coordinates; a text-stage error is returned with nothing changed, and any other error names the distance stage; otherwise the result is an order-preserving subsequence of the input holding exactly the formations every active stage admits, each as often as in the input; only those returned are annotated, and with the distance stage inactive nothing is annotated |
| Report.SubjectNotice | src/monitor.py:566-571 | the subject announces the first run exactly on the first run, the count exactly when something matched on a later run, and "No New Formations" otherwise |
| Report.ShouldSend | src/monitor.py:562 | the report is held back exactly on a later run where nothing matched and `send_if_no_new` is present and falsy; only the "No New Formations" report can be held back |
| Report.ShouldSendScenarios | src/monitor.py:562 | with nothing matched, `send_if_no_new: false` holds the report back on a later run but not on the first run, and an absent setting sends it |
| Report.NoticeText | src/monitor.py:566-571 | the announcement is never empty and opens with a digit exactly when it gives the count of new formations |
| Report.SubjectPrefix | src/monitor.py:565 | the prefix is `[Parcoursup]` when none is configured, the configured text when it is a string, and its `str()` otherwise |
| Report.NoticeTextInjective | src/monitor.py:567-571 | different announcements have different texts |
| Report.SubjectTextInjective | src/monitor.py:565-571 | under one prefix, equal subjects announce the same case and the same count |
| Report.ReportSection | src/monitor.py:424-449 | the section follows the subject's priority: first run with the fetched total, no new formations for an empty list, the list itself otherwise |
| Report.Run | src/monitor.py:537-571 | an empty fetch aborts; the run stops on a filter error exactly when there are new formations and the filters raise on them, naming the failing text stage (nothing changed) or the distance stage; otherwise the first run is the run with no previous snapshot, filters run only on the new formations and nothing matches when nothing is new, the filtered list holds exactly the admitted new formations in order and with multiplicity, exactly those are annotated when the distance stage is active and no other record changes; a report is sent exactly when something matched, `send_if_no_new` is absent or truthy, or this is the first run, with subject and section chosen by the same priority; the first run always sends the setup report |

## Left out

- Fetching (`fetch_page`, `fetch_all_formations`): HTTP, retries, back-off and pagination. The fetched list is the `current` parameter of `Report.Run`.
- Configuration and snapshot files (`load_config`, `load_previous_formations`, `save_current_formations`, `update_previous_formations`): file and JSON I/O. The stored snapshot is the `previous` parameter, and the configuration is the typed `FilterConfig` and `EmailSettings`. Lists and numbers of the wrong JSON type in the configuration are not modelled.
- `send_email_notification`: SMTP, MIME and environment variables. The model stops at the `Email` value handed to it.
- `calculate_distance` and `round(·, 1)`: floating-point trigonometry. They are the parameters `Geo.distance` and `Geo.round1`. Distances, thresholds and coordinates are reals, so NaN and the difference between int and float are not modelled.
- `json.dumps(f, ensure_ascii=False)`: the parameter `dumps`, assumed never to raise on a record.
- Python's `str()` of a non-string value inside an f-string: the parameter `render`.
- HTML markup, timestamps, `format_formation_html` and `log`: only the section chosen by `create_email_html` is modelled.
- `sys.exit` and the exception handlers in `main` and at top level: an empty fetch is `Aborted`, and an exception in a filter stage is `FilterFailed(stage)`. Exceptions outside the filter stages are not modelled.
- Text.Lower: lower-cases ASCII and Latin-1 capitals only. It does not follow the full Unicode case mapping of Python's `str.lower()`.
- Report.Run: after a distance-stage error it does not say which records were annotated before the error; `Distance.DistanceStage` states that prefix, and the run stops there anyway.
