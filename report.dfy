/** The notification decision of `main`: one run compares the freshly
    fetched formations with the previous snapshot, filters the new ones,
    and decides whether to send a report, under which subject and with
    which section. */
module Report {
  import opened Wrappers
  import opened Json
  import opened Text
  import opened Records
  import opened Identity
  import opened Differ
  import opened Filters
  import opened Distance

  /** The `email` block of the configuration, as far as the decision reads it. */
  datatype EmailSettings = EmailSettings(subjectPrefix: Option<Value>, sendIfNoNew: Option<Value>)

  /** `filtered_new or email_config.get("send_if_no_new", True) or is_first_run`.
      The report is held back only on a later run where nothing matched and
      the configuration explicitly sets a falsy `send_if_no_new`; the only
      report that can be held back is the "No New Formations" one. */
  function ShouldSend(filteredCount: nat, sendIfNoNew: Option<Value>, isFirstRun: bool): (send: bool)
    ensures !send <==> filteredCount == 0 && !isFirstRun && sendIfNoNew.Some? && !Truthy(sendIfNoNew.value)
    ensures !send ==> SubjectNotice(filteredCount, isFirstRun) == NoneNew
  {
    filteredCount > 0 || sendIfNoNew.None? || Truthy(sendIfNoNew.value) || isFirstRun
  }

  /** With nothing matched: `send_if_no_new: false` holds the report back on
      a later run but not on the first run, and an absent setting sends it. */
  lemma ShouldSendScenarios()
    ensures !ShouldSend(0, Some(Bool(false)), false)
    ensures ShouldSend(0, Some(Bool(false)), true)
    ensures ShouldSend(0, None, false)
  {
  }

  /** What the subject announces. */
  datatype Notice = FirstRun | NewFound(count: nat) | NoneNew

  /** The subject's case, by priority: the first run, then new formations
      with their count, then none. */
  function SubjectNotice(filteredCount: nat, isFirstRun: bool): (n: Notice)
    ensures n == FirstRun <==> isFirstRun
    ensures n.NewFound? <==> !isFirstRun && filteredCount > 0
    ensures n.NewFound? ==> n.count == filteredCount
    ensures n == NoneNew <==> !isFirstRun && filteredCount == 0
  {
    if isFirstRun then FirstRun
    else if filteredCount > 0 then NewFound(filteredCount)
    else NoneNew
  }

  /** The announcement after the prefix; only the count opens with a digit. */
  function NoticeText(n: Notice): (t: string)
    ensures t != [] && (IsDigit(t[0]) <==> n.NewFound?)
  {
    match n
    case FirstRun => "First Run - Setup Complete"
    case NewFound(k) =>
      var digits := NatToDecimal(k);
      assert (digits + " New Formation(s) Found")[0] == digits[0];
      digits + " New Formation(s) Found"
    case NoneNew => "No New Formations"
  }

  /** `email_config.get('subject_prefix', '[Parcoursup]')` as the f-string shows it. */
  function SubjectPrefix(prefix: Option<Value>, render: Value -> string): (p: string)
    ensures prefix.None? ==> p == "[Parcoursup]"
    ensures prefix.Some? && prefix.value.Str? ==> p == prefix.value.s
    ensures prefix.Some? && !prefix.value.Str? ==> p == render(prefix.value)
  {
    match prefix
    case None => "[Parcoursup]"
    case Some(v) => Show(v, render)
  }

  /** The prefix, one space, then the announcement. */
  function SubjectText(prefix: string, n: Notice): string {
    prefix + " " + NoticeText(n)
  }

  /** Different announcements read differently, so the count can be told
      from the text. */
  lemma NoticeTextInjective(a: Notice, b: Notice)
    requires NoticeText(a) == NoticeText(b)
    ensures a == b
  {
    var suffix := " New Formation(s) Found";
    if a.NewFound? && b.NewFound? {
      var s, t := NatToDecimal(a.count), NatToDecimal(b.count);
      assert s + suffix == t + suffix;
      assert |s| == |t|;
      assert s == (s + suffix)[..|s|];
      assert t == (t + suffix)[..|t|];
      DecimalInjective(a.count, b.count);
    }
  }

  /** Under one prefix, two subjects are equal only when they announce the
      same case and the same count. */
  lemma SubjectTextInjective(prefix: string, a: Notice, b: Notice)
    requires SubjectText(prefix, a) == SubjectText(prefix, b)
    ensures a == b
  {
    var head := prefix + " ";
    assert SubjectText(prefix, a) == head + NoticeText(a);
    assert SubjectText(prefix, b) == head + NoticeText(b);
    assert NoticeText(a) == SubjectText(prefix, a)[|head|..];
    assert NoticeText(b) == SubjectText(prefix, b)[|head|..];
    NoticeTextInjective(a, b);
  }

  /** The section `create_email_html` writes after its header. */
  datatype Section = FirstRunSection(totalFetched: nat) | NoNewSection | NewSection(formations: seq<Formation>)

  /** A section tells the same story as a subject. */
  predicate Agrees(n: Notice, s: Section) {
    match n
    case FirstRun => s.FirstRunSection?
    case NewFound(k) => s.NewSection? && |s.formations| == k
    case NoneNew => s.NoNewSection?
  }

  /** `create_email_html`'s choice of section: the first-run notice, then
      "No New Formations" for an empty list, then the list itself. It tells
      the same story as the subject `main` chooses. */
  function ReportSection(newFormations: seq<Formation>, totalFetched: nat, isFirstRun: bool): (s: Section)
    ensures Agrees(SubjectNotice(|newFormations|, isFirstRun), s)
    ensures s.FirstRunSection? ==> s.totalFetched == totalFetched
    ensures s.NewSection? ==> s.formations == newFormations
  {
    if isFirstRun then FirstRunSection(totalFetched)
    else if newFormations == [] then NoNewSection
    else NewSection(newFormations)
  }

  /** The message handed to the mail transport. */
  datatype Email = Email(subject: string, section: Section)

  /** How a run ends: aborted for want of data, stopped by an exception in
      a filter stage, or completed, with the email it sends if any. */
  datatype Outcome =
    | Aborted
    | FilterFailed(stage: Stage)
    | Completed(isFirstRun: bool, newFormations: seq<Formation>, filtered: seq<Formation>, email: Option<Email>)

  /** One execution of `main` between the fetch and the transport.
      `previous` is the stored snapshot and `current` the fetched one.
      Nothing is sent on an empty fetch or a failing filter; otherwise the
      filters run only on the new formations, and the email is sent
      exactly when something matched, the configuration asks for a report
      regardless, or this is the first run. */
  method Run(previous: seq<Formation>, current: seq<Formation>, filters: FilterConfig, settings: EmailSettings,
             render: Value -> string, dumps: Record -> string, geo: Geo)
    returns (out: Outcome)
    modifies set f | f in current
    ensures out == Aborted <==> current == []
    ensures current != [] ==>
              (out.FilterFailed? <==>
                 old(DetectNew(current, previous, render)) != []
                 && old(FiltersRaise(DetectNew(current, previous, render), filters, dumps, geo)))
    ensures out.FilterFailed? ==>
              if old(TextStages(DetectNew(current, previous, render), filters, dumps)).Err?
              then out.stage == old(TextStages(DetectNew(current, previous, render), filters, dumps)).error
                   && forall f :: f in current ==> f.fields == old(f.fields)
              else out.stage == Distance
    ensures out.Completed? ==>
              && out.isFirstRun == (previous == [])
              && out.newFormations == old(DetectNew(current, previous, render))
              && (out.newFormations == [] ==> out.filtered == [])
              && IsSubsequence(out.filtered, out.newFormations)
              && (forall f :: f in out.filtered <==> f in out.newFormations && old(Admitted(filters, dumps, geo, f.fields)))
              && (forall f :: f in out.newFormations ==>
                    multiset(out.filtered)[f] ==
                      if old(Admitted(filters, dumps, geo, f.fields)) then multiset(out.newFormations)[f] else 0)
    ensures out.Completed? ==>
              forall f :: f in current ==>
                f.fields == if DistanceActive(filters) && f in out.filtered then Annotated(old(f.fields), filters, geo) else old(f.fields)
    ensures out.Completed? ==>
              && (out.email.Some? <==> ShouldSend(|out.filtered|, settings.sendIfNoNew, out.isFirstRun))
              && (out.email.Some? ==>
                    && out.email.value.subject ==
                         SubjectText(SubjectPrefix(settings.subjectPrefix, render), SubjectNotice(|out.filtered|, out.isFirstRun))
                    && out.email.value.section == ReportSection(out.filtered, |current|, out.isFirstRun))
    ensures current != [] && previous == [] ==>
              out.Completed? && out.filtered == [] && out.email.Some? && out.email.value.section == FirstRunSection(|current|)
  {
    if current == [] {
      return Aborted;
    }
    var isFirstRun := previous == [];
    var newFormations := DetectNew(current, previous, render);
    DetectNewIsSubsequence(current, previous, render);
    var filtered: seq<Formation> := [];
    if newFormations != [] {
      var res := ApplyFilters(newFormations, filters, dumps, geo);
      if res.Err? {
        return FilterFailed(res.error);
      }
      filtered := res.value;
    } else {
      SubsequenceReflexive(filtered);
    }
    var email: Option<Email> := None;
    if ShouldSend(|filtered|, settings.sendIfNoNew, isFirstRun) {
      var subject := SubjectText(SubjectPrefix(settings.subjectPrefix, render), SubjectNotice(|filtered|, isFirstRun));
      email := Some(Email(subject, ReportSection(filtered, |current|, isFirstRun)));
    }
    return Completed(isFirstRun, newFormations, filtered, email);
  }
}
