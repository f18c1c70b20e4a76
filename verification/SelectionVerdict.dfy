/** The verdict of the specialist-selection guard: the checks on the exported requests, the
  * recorded responses and the harness's report, and what a result rests on.
  *
  * A file is missing, not JSON, the JSON document `null`, or another document. The guard
  * reads all but the last as nothing, but reports only the first two.
  */
module SelectionVerdict {
  import opened Wrappers
  import opened SelectionGuard

  const LEGACY_SET := "selection.v1"
  const MANIFEST := "manifest.json"
  const SEND := "send.json"
  const STATUS := "status.json"

  // ---------------------------------------------------------------- files and fields

  datatype File<+T> = Missing | Unreadable | NullDocument | Document(value: T)

  predicate Faulty<T>(f: File<T>) {
    f.Missing? || f.Unreadable?
  }

  /** A field of a document; one that is missing reads as `Nothing`, like a null. */
  datatype Field = Nothing | Flag(on: bool) | Number(x: real) | Text(s: string) | Object(empty: bool) | List

  predicate Numeric(f: Field) {
    f.Flag? || f.Number?
  }

  function Amount(f: Field): real
    requires Numeric(f)
  {
    if f.Number? then f.x else if f.on then 1.0 else 0.0
  }

  /** Whether a field equals what is expected of it; flags are the numbers 0 and 1. */
  predicate Equals(f: Field, want: Field) {
    if Numeric(f) && Numeric(want) then Amount(f) == Amount(want) else f == want
  }

  function Whole(n: nat): Field {
    Number(n as real)
  }

  function FileOf(id: string): string {
    id + ".json"
  }

  function FilesOf(ids: seq<string>): set<string> {
    set id | id in ids :: FileOf(id)
  }

  predicate Hex(c: char) {
    Digit(c) || 'a' <= c <= 'f'
  }

  predicate DigestShaped(d: string) {
    |d| == 64 && forall c | c in d :: Hex(c)
  }

  /** `named` is the set, unless it is left out of a record of the legacy set. */
  predicate NamesSet(named: Field, name: string) {
    named == Text(name) || (named == Nothing && name == LEGACY_SET)
  }

  // ---------------------------------------------------------------- the exported requests

  /** A record of the exported requests; `ids` is `None` unless it is a list of strings. */
  datatype Manifest = Manifest(ids: Option<seq<string>>, commit: Field, named: Field)

  /** The exported files: their names, the manifest, the digest published for them and the
    * digest they have. */
  datatype Requests = Requests(names: Option<seq<string>>, manifest: File<Manifest>, published: string, digest: string)

  function RequestFiles(names: seq<string>): set<string> {
    set n | n in names && n != MANIFEST
  }

  predicate ManifestFits(m: Manifest, ids: seq<string>, code: string, name: string) {
    m.ids == Some(ids) && m.commit == Text(code) && NamesSet(m.named, name)
  }

  /** Exactly one request per prompt was exported, the ones the digest was published for. */
  predicate FilesFit(r: Requests, ids: seq<string>) {
    && r.names.Some? && RequestFiles(r.names.value) == FilesOf(ids)
    && DigestShaped(r.published) && r.digest == r.published
  }

  /** What passes the check: a manifest that fits, or none but `null`. */
  predicate Exported(r: Requests, ids: seq<string>, code: string, name: string) {
    FilesFit(r, ids) && (r.manifest.NullDocument? || (r.manifest.Document? && ManifestFits(r.manifest.value, ids, code, name)))
  }

  method CheckManifest(f: File<Manifest>, ids: seq<string>, code: string, name: string) returns (problems: seq<Problem>)
    ensures problems == [] <==> f.NullDocument? || (f.Document? && ManifestFits(f.value, ids, code, name))
    ensures f.Document? ==>
              && (ManifestIds in problems <==> f.value.ids != Some(ids))
              && (ManifestCommit in problems <==> f.value.commit != Text(code))
              && (ManifestSet in problems <==> !NamedIn(f.value.named, name))
  {
    if Faulty(f) {
      return [ManifestUnreadable];
    }
    problems := [];
    if f.Document? {
      var m := f.value;
      if m.ids != Some(ids) {
        problems := problems + [ManifestIds];
      }
      if m.commit != Text(code) {
        problems := problems + [ManifestCommit];
      }
      if !NamesSet(m.named, name) {
        problems := problems + [ManifestSet];
      }
    }
  }

  method CheckRequests(r: Requests, ids: seq<string>, code: string, name: string) returns (problems: seq<Problem>)
    ensures problems == [] <==> Exported(r, ids, code, name)
  {
    if r.names.None? {
      return [RequestsMissing];
    }
    problems := [];
    var names := r.names.value;
    for i := 0 to |names|
      invariant problems == [] <==> forall j | 0 <= j < i && names[j] != MANIFEST :: names[j] in FilesOf(ids)
    {
      if names[i] != MANIFEST && names[i] !in FilesOf(ids) {
        problems := problems + [UnexpectedRequest(names[i])];
      }
    }
    ghost var expected := problems;
    for i := 0 to |ids|
      invariant problems == [] <==> expected == [] && forall j | 0 <= j < i :: FileOf(ids[j]) in RequestFiles(names)
    {
      if FileOf(ids[i]) !in RequestFiles(names) {
        problems := problems + [NoRequest(ids[i])];
      }
    }
    assert problems == [] <==> RequestFiles(names) == FilesOf(ids) by {
      SameFiles(names, ids);
    }
    if !DigestShaped(r.published) {
      problems := problems + [NoDigest];
    } else if RequestFiles(names) == FilesOf(ids) && r.digest != r.published {
      problems := problems + [WrongDigest];
    }
    var more := CheckManifest(r.manifest, ids, code, name);
    problems := problems + more;
  }

  lemma SameFiles(names: seq<string>, ids: seq<string>)
    ensures RequestFiles(names) == FilesOf(ids) <==>
              && (forall j | 0 <= j < |names| && names[j] != MANIFEST :: names[j] in FilesOf(ids))
              && (forall j | 0 <= j < |ids| :: FileOf(ids[j]) in RequestFiles(names))
  {
    if (forall j | 0 <= j < |names| && names[j] != MANIFEST :: names[j] in FilesOf(ids))
       && (forall j | 0 <= j < |ids| :: FileOf(ids[j]) in RequestFiles(names)) {
      forall f
        ensures f in RequestFiles(names) <==> f in FilesOf(ids)
      {
      }
    }
    forall j | 0 <= j < |ids|
      ensures FileOf(ids[j]) in FilesOf(ids)
    {
      assert ids[j] in ids;
    }
  }

  // ---------------------------------------------------------------- the responses

  datatype Send = Send(sent: Field, ceiling: Field, retries: Field, stopped: Field)

  /** A response file: not JSON, the document `null`, another that is no object, or an object
    * naming models. */
  datatype Body = NotJson | NullBody | NotAnObject | Answer(models: set<string>)

  /** The recorded responses; `bodies` are the entries that are files. */
  datatype Responses = Responses(names: Option<seq<string>>, blocked: bool, send: File<Send>, bodies: map<string, Body>)

  predicate SendFits(s: Send, sent: nat) {
    && Equals(s.sent, Whole(sent)) && Equals(s.ceiling, Whole(EXPECTED_PROMPTS)) && Equals(s.retries, Whole(0))
    && Equals(s.stopped, Text("no"))
  }

  predicate BodyIs(r: Responses, id: string, orNull: bool) {
    FileOf(id) in r.bodies && (r.bodies[FileOf(id)].Answer? || (orNull && r.bodies[FileOf(id)].NullBody?))
  }

  /** What passes the check: the sender's own record and a response per prompt, or `null` in
    * the place of any, and no other file. */
  predicate Delivered(r: Responses, ids: seq<string>) {
    && r.names.Some? && (forall n | n in r.names.value :: n in FilesOf(ids) || n == SEND)
    && (r.send.NullDocument? || (r.send.Document? && SendFits(r.send.value, |ids|)))
    && forall id | id in ids :: BodyIs(r, id, true)
  }

  /** The models that responses name. */
  function ModelsOf(r: Responses, ids: seq<string>): set<string> {
    set id, model | id in ids && BodyIs(r, id, false) && model in r.bodies[FileOf(id)].models :: model
  }

  method CheckRecord(f: File<Send>, sent: nat) returns (problems: seq<Problem>)
    ensures problems == [] <==> f.NullDocument? || (f.Document? && SendFits(f.value, sent))
    ensures f.Document? ==>
              && (WrongSend("sent") in problems <==> !Says(f.value.sent, sent))
              && (WrongSend("ceiling") in problems <==> !Says(f.value.ceiling, 24))
              && (WrongSend("retries") in problems <==> !Says(f.value.retries, 0))
              && (WrongSend("stopped") in problems <==> f.value.stopped != Text("no"))
  {
    if Faulty(f) {
      return [SendUnreadable];
    }
    problems := [];
    if f.Document? {
      var s := f.value;
      if !Equals(s.sent, Whole(sent)) {
        problems := problems + [WrongSend("sent")];
      }
      if !Equals(s.ceiling, Whole(EXPECTED_PROMPTS)) {
        problems := problems + [WrongSend("ceiling")];
      }
      if !Equals(s.retries, Whole(0)) {
        problems := problems + [WrongSend("retries")];
      }
      if !Equals(s.stopped, Text("no")) {
        problems := problems + [WrongSend("stopped")];
      }
    }
  }

  method CheckSend(r: Responses, ids: seq<string>) returns (models: Option<set<string>>, problems: seq<Problem>)
    ensures problems == [] <==> Delivered(r, ids)
    ensures models == if r.names.None? then None else Some(ModelsOf(r, ids))
  {
    if r.names.None? {
      return None, [ResponsesMissing];
    }
    problems := CheckRecord(r.send, |ids|);
    var names := r.names.value;
    ghost var before := problems;
    for i := 0 to |names|
      invariant problems == [] <==> before == [] && forall j | 0 <= j < i :: names[j] in FilesOf(ids) || names[j] == SEND
    {
      if names[i] !in FilesOf(ids) && names[i] != SEND {
        problems := problems + [UnexpectedResponse(names[i])];
      }
    }
    var found: set<string> := {};
    before := problems;
    for i := 0 to |ids|
      invariant problems == [] <==> before == [] && forall j | 0 <= j < i :: BodyIs(r, ids[j], true)
      invariant found == ModelsOf(r, ids[..i])
    {
      assert ids[..i + 1] == ids[..i] + [ids[i]];
      if FileOf(ids[i]) !in r.bodies {
        problems := problems + [NoResponse(ids[i])];
      } else {
        match r.bodies[FileOf(ids[i])] {
          case NotJson => problems := problems + [BadResponse(ids[i])];
          case NullBody =>
          case NotAnObject => problems := problems + [BadResponse(ids[i])];
          case Answer(models) => found := found + models;
        }
      }
    }
    assert ids[..|ids|] == ids;
    models := Some(found);
  }

  // ---------------------------------------------------------------- the report

  datatype Header = Header(commit: Field, evaluated: Field, requests: Field, ceiling: Field, retries: Field,
                           failures: Field, stopped: Field, named: Field)

  /** The harness totals; a measure that is missing has `Nothing` in its parts, or is `None`
    * where an older harness does not give it. */
  datatype Parts = Parts(numerator: Field, denominator: Field)

  datatype Totals = Totals(cases: Field, passed: Field, decisionAccuracy: Parts, unnecessaryDelegation: Parts,
                           missedDelegation: Parts, roleMatch: Parts,
                           precision: Option<Parts>, recall: Option<Parts>, roleMatchOverAll: Option<Parts>, coverage: Option<real>)

  datatype Report = Report(header: Header, cases: Option<seq<Case>>, totals: Totals)

  predicate HeaderFits(h: Header, requests: nat, code: string, name: string) {
    && Equals(h.commit, Text(code)) && Equals(h.evaluated, Flag(true)) && Equals(h.requests, Whole(requests))
    && Equals(h.ceiling, Whole(EXPECTED_PROMPTS)) && Equals(h.retries, Whole(0)) && Equals(h.failures, Object(true))
    && Equals(h.stopped, Nothing)
    && NamesSet(h.named, name)
  }

  method CheckHeader(h: Header, requests: nat, code: string, name: string) returns (problems: seq<Problem>)
    ensures problems == [] <==> HeaderFits(h, requests, code, name)
    ensures && (WrongHeader("commit") in problems <==> h.commit != Text(code))
            && (WrongHeader("evaluated") in problems <==> !SaysWhether(h.evaluated, true))
            && (WrongHeader("requests") in problems <==> !Says(h.requests, requests))
            && (WrongHeader("request_ceiling") in problems <==> !Says(h.ceiling, 24))
            && (WrongHeader("retries") in problems <==> !Says(h.retries, 0))
            && (WrongHeader("failures") in problems <==> h.failures != Object(true))
            && (WrongHeader("stopped") in problems <==> h.stopped != Nothing)
            && (WrongHeader("set") in problems <==> !NamedIn(h.named, name))
  {
    var wanted := [("commit", h.commit, Text(code)), ("evaluated", h.evaluated, Flag(true)), ("requests", h.requests, Whole(requests)),
                   ("request_ceiling", h.ceiling, Whole(EXPECTED_PROMPTS)), ("retries", h.retries, Whole(0)),
                   ("failures", h.failures, Object(true)), ("stopped", h.stopped, Nothing)];
    problems := [];
    for i := 0 to |wanted|
      invariant problems == [] <==> forall j | 0 <= j < i :: Equals(wanted[j].1, wanted[j].2)
      invariant forall j | 0 <= j < |wanted| :: WrongHeader(wanted[j].0) in problems <==> j < i && !Equals(wanted[j].1, wanted[j].2)
      invariant WrongHeader("set") !in problems
    {
      if !Equals(wanted[i].1, wanted[i].2) {
        problems := problems + [WrongHeader(wanted[i].0)];
      }
    }
    assert wanted[0].1 == h.commit && wanted[1].1 == h.evaluated && wanted[2].1 == h.requests && wanted[3].1 == h.ceiling;
    assert wanted[0].0 == "commit" && wanted[1].0 == "evaluated" && wanted[2].0 == "requests" && wanted[3].0 == "request_ceiling";
    assert wanted[4].0 == "retries" && wanted[5].0 == "failures" && wanted[6].0 == "stopped";
    assert wanted[4].1 == h.retries && wanted[5].1 == h.failures && wanted[6].1 == h.stopped;
    if !NamesSet(h.named, name) {
      problems := problems + [WrongHeader("set")];
    }
  }

  /** A report that is what it should be, in its header and in its cases. */
  ghost predicate Sane(report: Report, ids: seq<string>, labels: Labels, code: string, name: string) {
    && HeaderFits(report.header, |ids|, code, name)
    && report.cases.Some? && Clean(report.cases.value, ids, labels)
  }

  /** What passes the check: such a report, or `null`. */
  ghost predicate ReportPasses(report: File<Report>, ids: seq<string>, labels: Labels, code: string, name: string) {
    report.NullDocument? || (report.Document? && Sane(report.value, ids, labels, code, name))
  }

  function CasesOf(report: File<Report>): seq<Case> {
    if report.Document? && report.value.cases.Some? then report.value.cases.value else []
  }

  method CheckReport(report: File<Report>, ids: seq<string>, labels: Labels, code: string, name: string)
    returns (cases: seq<Case>, problems: seq<Problem>)
    ensures cases == CasesOf(report)
    ensures problems == [] ==> ReportPasses(report, ids, labels, code, name)
    ensures ReportPasses(report, ids, labels, code, name) && Distinct(ids) ==> problems == []
  {
    if Faulty(report) {
      return [], [ReportUnreadable];
    }
    if report.NullDocument? {
      return [], [];
    }
    problems := CheckHeader(report.value.header, |ids|, code, name);
    if report.value.cases.None? {
      return [], problems + [NoCases];
    }
    cases := report.value.cases.value;
    var more := CheckCases(cases, ids, labels);
    problems := problems + more;
  }

  // ---------------------------------------------------------------- the verdict

  datatype Status = NotEvaluated | Passed | BelowThreshold | Incomplete

  predicate Close(x: real, y: real) {
    -0.000000001 <= x - y <= 0.000000001
  }

  predicate Agree(p: Parts, r: Ratio) {
    Equals(p.numerator, Whole(r.numerator)) && Equals(p.denominator, Whole(r.denominator))
  }

  /** The totals that must equal the recomputed measures, and those that must where given. */
  predicate Tied(t: Totals, m: Measures) {
    && Agree(t.decisionAccuracy, m.decisionAccuracy) && Agree(t.unnecessaryDelegation, m.unnecessaryDelegation)
    && Agree(t.missedDelegation, m.missedDelegation) && Agree(t.roleMatch, m.roleMatch)
    && Equals(t.cases, Whole(m.cases)) && Equals(t.passed, Flag(m.meetsRule))
    && (t.precision.Some? ==> Agree(t.precision.value, m.delegationPrecision))
    && (t.recall.Some? ==> Agree(t.recall.value, m.delegationRecall))
    && (t.roleMatchOverAll.Some? && m.roleMatchOverAll.Some? ==> Agree(t.roleMatchOverAll.value, m.roleMatchOverAll.value))
    && (t.coverage.Some? ==> m.meanCoverage.Some? && Close(t.coverage.value, m.meanCoverage.value))
  }

  /** The ids a report scores, in order. */
  function Scored(cases: seq<Case>): seq<string> {
    seq(|cases|, i requires 0 <= i < |cases| => if cases[i].id.Some? then cases[i].id.value else "")
  }

  function MeasuredBy(cases: seq<Case>, labels: Labels, rule: Rule): Measures {
    MeasuresOf(Count(cases, labels), LeadCases(labels), Reported(cases, labels), rule)
  }

  /** All checks pass. */
  ghost predicate Gathered(file: Option<SetFile>, requests: Requests, responses: Responses, report: File<Report>,
      code: string, name: string, ids: seq<string>, labels: Labels) {
    && file.Some? && file.value.rule.Some? && Sound(file.value.prompts, ids, labels)
    && Exported(requests, ids, code, name) && Delivered(responses, ids)
    && ReportPasses(report, ids, labels, code, name)
  }

  /** And the totals of a report are the measures recomputed from its cases. */
  ghost predicate Accepted(file: Option<SetFile>, requests: Requests, responses: Responses, report: File<Report>,
      code: string, name: string, ids: seq<string>, labels: Labels) {
    && Gathered(file, requests, responses, report, code, name, ids, labels)
    && (report.Document? ==> Tied(report.value.totals, MeasuredBy(CasesOf(report), labels, file.value.rule.value)))
  }

  /** The sender's own record, an answer per prompt, and no other file. */
  predicate AllAnswered(r: Responses, ids: seq<string>) {
    && r.names.Some? && (forall n | n in r.names.value :: n in FilesOf(ids) || n == SEND)
    && r.send.Document? && SendFits(r.send.value, |ids|)
    && forall id | id in ids :: BodyIs(r, id, false)
  }

  predicate NoNullBodies(r: Responses, ids: seq<string>) {
    forall id | id in ids && FileOf(id) in r.bodies :: !r.bodies[FileOf(id)].NullBody?
  }

  lemma DeliveredMeansAnsweredExactly(r: Responses, ids: seq<string>)
    ensures AllAnswered(r, ids) <==> Delivered(r, ids) && !r.send.NullDocument? && NoNullBodies(r, ids)
  {
    if Delivered(r, ids) && NoNullBodies(r, ids) {
      forall id | id in ids
        ensures BodyIs(r, id, false)
      {
        assert BodyIs(r, id, true);
      }
    }
    if AllAnswered(r, ids) {
      forall id | id in ids
        ensures BodyIs(r, id, true) && !r.bodies[FileOf(id)].NullBody?
      {
        assert BodyIs(r, id, false);
      }
    }
  }

  /** A complete evaluation: every prompt was sent once, answered and scored once, every
    * record says so, and the harness's totals are those recomputed. */
  ghost predicate Complete(file: Option<SetFile>, requests: Requests, responses: Responses, report: File<Report>,
      code: string, name: string, ids: seq<string>, labels: Labels) {
    && file.Some? && file.value.rule.Some? && Sound(file.value.prompts, ids, labels)
    && FilesFit(requests, ids)
    && requests.manifest.Document? && ManifestFits(requests.manifest.value, ids, code, name)
    && AllAnswered(responses, ids)
    && report.Document? && Sane(report.value, ids, labels, code, name)
    && Tied(report.value.totals, MeasuredBy(CasesOf(report), labels, file.value.rule.value))
  }

  /** None of the records is `null`. */
  predicate NoNulls(requests: Requests, responses: Responses, report: File<Report>, ids: seq<string>) {
    !requests.manifest.NullDocument? && !responses.send.NullDocument? && !report.NullDocument? && NoNullBodies(responses, ids)
  }

  /** What the guard accepts is a complete evaluation exactly when none of the manifest, the
    * send record, the responses and the report is `null`. */
  lemma AcceptedMeansCompleteExactly(file: Option<SetFile>, requests: Requests, responses: Responses, report: File<Report>,
      code: string, name: string, ids: seq<string>, labels: Labels)
    ensures Complete(file, requests, responses, report, code, name, ids, labels) <==>
              Accepted(file, requests, responses, report, code, name, ids, labels) && NoNulls(requests, responses, report, ids)
  {
    DeliveredMeansAnsweredExactly(responses, ids);
  }

  /** How measures fit together, whatever they are of. */
  predicate Fitting(m: Measures) {
    m.roleMatch.denominator == m.delegationRecall.numerator && m.missedDelegation.denominator == m.delegationRecall.denominator
  }

  lemma NothingMeasured(labels: Labels, rule: Rule)
    ensures var m := MeasuredBy([], labels, rule);
            Fitting(m) && m.cases == 0 && (rule.decisionMin > 0.0 ==> !m.meetsRule)
  {
  }

  lemma CleanMeasured(prompts: seq<Prompt>, cases: seq<Case>, ids: seq<string>, labels: Labels, rule: Rule)
    requires Sound(prompts, ids, labels) && Clean(cases, ids, labels)
    ensures var m := MeasuredBy(cases, labels, rule);
            Fitting(m) && m.cases == EXPECTED_PROMPTS == |ids| && Distinct(ids) && Scored(cases) == ids
  {
    CleanMeasuresAgree(prompts, cases, ids, labels, Reported(cases, labels), rule);
  }

  /** The measures behind a result fit together; with a report they are of as many distinct
    * prompts as expected, without one of none. */
  lemma GatheredMeasures(file: Option<SetFile>, requests: Requests, responses: Responses, report: File<Report>,
      code: string, name: string, ids: seq<string>, labels: Labels)
    requires Gathered(file, requests, responses, report, code, name, ids, labels)
    ensures var m := MeasuredBy(CasesOf(report), labels, file.value.rule.value);
            && Fitting(m)
            && (report.Document? ==> m.cases == EXPECTED_PROMPTS == |ids| && Distinct(ids) && Scored(CasesOf(report)) == ids)
            && (report.NullDocument? ==> m.cases == 0 && (file.value.rule.value.decisionMin > 0.0 ==> !m.meetsRule))
  {
    var cases := CasesOf(report);
    if report.Document? {
      CleanMeasured(file.value.prompts, cases, ids, labels, file.value.rule.value);
    } else {
      NothingMeasured(labels, file.value.rule.value);
    }
  }

  lemma OnlyGathered(file: Option<SetFile>, requests: Requests, responses: Responses, report: File<Report>,
      code: string, name: string, ids: seq<string>, labels: Labels)
    requires Gathered(file, requests, responses, report, code, name, ids, labels)
    ensures forall ids', labels' | Gathered(file, requests, responses, report, code, name, ids', labels') ::
              ids' == ids && labels' == labels
  {
    forall ids', labels' | Gathered(file, requests, responses, report, code, name, ids', labels')
      ensures ids' == ids && labels' == labels
    {
      OneLabeling(file.value.prompts, ids, labels, ids', labels');
    }
  }

  method Gather(file: Option<SetFile>, requests: Requests, responses: Responses, report: File<Report>, code: string, name: string)
    returns (ids: seq<string>, labels: Labels, rule: Option<Rule>, cases: seq<Case>, problems: seq<Problem>)
    ensures cases == CasesOf(report)
    ensures problems == [] ==> Gathered(file, requests, responses, report, code, name, ids, labels) && rule == file.value.rule
    ensures problems != [] ==> forall ids', labels' :: !Gathered(file, requests, responses, report, code, name, ids', labels')
  {
    var fromSet: seq<Problem>;
    ids, labels, rule, fromSet := CheckSet(file);
    var fromRequests := CheckRequests(requests, ids, code, name);
    var _, fromSend := CheckSend(responses, ids);
    var fromReport: seq<Problem>;
    cases, fromReport := CheckReport(report, ids, labels, code, name);
    problems := fromSet + fromRequests + fromSend + fromReport;
    if problems != [] {
      forall ids', labels' | Gathered(file, requests, responses, report, code, name, ids', labels')
        ensures false
      {
        if fromSet == [] {
          OneLabeling(file.value.prompts, ids, labels, ids', labels');
        }
      }
    }
  }

  predicate HasResult(status: Status) {
    status.Passed? || status.BelowThreshold?
  }

  /** What a result says: measures recomputed from the cases of the report, under the labels
    * of the prompt set, that the guard accepts; it passes exactly if they meet the rule. */
  ghost predicate Backed(status: Status, m: Measures, file: Option<SetFile>, requests: Requests, responses: Responses,
      report: File<Report>, code: string, name: string) {
    && (status.Passed? <==> m.meetsRule) && Fitting(m)
    && m.cases == (if report.NullDocument? then 0 else EXPECTED_PROMPTS)
    && exists ids, labels ::
         && Accepted(file, requests, responses, report, code, name, ids, labels)
         && m == MeasuredBy(CasesOf(report), labels, file.value.rule.value)
         && Tells(m, CasesOf(report), labels, file.value.rule.value)
         && (status.Passed? <==> RuleHolds(CasesOf(report), labels, file.value.rule.value))
         && (Complete(file, requests, responses, report, code, name, ids, labels) <==> NoNulls(requests, responses, report, ids))
  }

  /** The verdict: a result is given exactly when the guard accepts the records. */
  method Verdict(file: Option<SetFile>, requests: Requests, responses: Responses, report: File<Report>, code: string, name: string)
    returns (status: Status, measured: Option<Measures>, problems: seq<Problem>)
    ensures status.NotEvaluated? <==> responses.blocked && responses.names == Some([STATUS])
    ensures status.Incomplete? <==> problems != []
    ensures HasResult(status) <==>
              !responses.blocked && exists ids, labels :: Accepted(file, requests, responses, report, code, name, ids, labels)
    ensures HasResult(status) ==>
              measured.Some? && Backed(status, measured.value, file, requests, responses, report, code, name)
  {
    problems, measured := [], None;
    if responses.blocked {
      if responses.names == Some([STATUS]) {
        return NotEvaluated, None, [];
      }
      problems := [BlockedWithResponses];
    }
    var ids, labels, rule, cases, gathered := Gather(file, requests, responses, report, code, name);
    problems := problems + gathered;
    status := Incomplete;
    if rule.Some? {
      var m := Measure(cases, labels, rule.value);
      measured := Some(m);
      if problems == [] {
        if report.Document? && !Tied(report.value.totals, m) {
          OnlyGathered(file, requests, responses, report, code, name, ids, labels);
          problems := [TotalsDisagree];
        } else {
          GatheredMeasures(file, requests, responses, report, code, name, ids, labels);
          AcceptedMeansCompleteExactly(file, requests, responses, report, code, name, ids, labels);
          assert Accepted(file, requests, responses, report, code, name, ids, labels);
          status := if m.meetsRule then Passed else BelowThreshold;
        }
      }
    }
  }

  // ---------------------------------------------------------------- what a result rests on, to the letter

  /** The field is this number; 1 and 0 may be written as flags. */
  predicate Says(f: Field, n: nat) {
    f == Number(n as real) || (n == 1 && f == Flag(true)) || (n == 0 && f == Flag(false))
  }

  predicate SaysWhether(f: Field, b: bool) {
    f == Flag(b) || f == Number(if b then 1.0 else 0.0)
  }

  predicate SaysRatio(p: Parts, r: Ratio) {
    Says(p.numerator, r.numerator) && Says(p.denominator, r.denominator)
  }

  /** Only the set of the first version may be left unnamed. */
  predicate NamedIn(f: Field, name: string) {
    if name == "selection.v1" then f in {Nothing, Text(name)} else f == Text(name)
  }

  lemma HeaderExactly(h: Header, requests: nat, code: string, name: string)
    ensures HeaderFits(h, requests, code, name) <==>
              && h.commit == Text(code) && NamedIn(h.named, name)
              && SaysWhether(h.evaluated, true) && Says(h.requests, requests) && Says(h.ceiling, 24) && Says(h.retries, 0)
              && h.failures == Object(true) && h.stopped == Nothing
  {
  }

  lemma RecordsExactly(m: Manifest, s: Send, ids: seq<string>, code: string, name: string)
    ensures ManifestFits(m, ids, code, name) <==> m.ids == Some(ids) && m.commit == Text(code) && NamedIn(m.named, name)
    ensures SendFits(s, |ids|) <==> Says(s.sent, |ids|) && Says(s.ceiling, 24) && Says(s.retries, 0) && s.stopped == Text("no")
  {
  }

  /** A report's totals agree with measures exactly when each count does, the older measures
    * always and the newer ones where given, and the coverage up to a billionth. */
  lemma TotalsExactly(t: Totals, m: Measures)
    ensures Tied(t, m) <==>
              && Says(t.cases, m.cases) && SaysWhether(t.passed, m.meetsRule)
              && SaysRatio(t.decisionAccuracy, m.decisionAccuracy)
              && SaysRatio(t.unnecessaryDelegation, m.unnecessaryDelegation)
              && SaysRatio(t.missedDelegation, m.missedDelegation)
              && SaysRatio(t.roleMatch, m.roleMatch)
              && (t.precision.Some? ==> SaysRatio(t.precision.value, m.delegationPrecision))
              && (t.recall.Some? ==> SaysRatio(t.recall.value, m.delegationRecall))
              && (t.roleMatchOverAll.Some? && m.roleMatchOverAll.Some? ==> SaysRatio(t.roleMatchOverAll.value, m.roleMatchOverAll.value))
              && (t.coverage.Some? ==> m.meanCoverage.Some? && WithinABillionth(t.coverage.value - m.meanCoverage.value))
  {
    AgreeExactly(t.decisionAccuracy, m.decisionAccuracy);
    AgreeExactly(t.unnecessaryDelegation, m.unnecessaryDelegation);
    AgreeExactly(t.missedDelegation, m.missedDelegation);
    AgreeExactly(t.roleMatch, m.roleMatch);
    if t.precision.Some? {
      AgreeExactly(t.precision.value, m.delegationPrecision);
    }
    if t.recall.Some? {
      AgreeExactly(t.recall.value, m.delegationRecall);
    }
    if t.roleMatchOverAll.Some? && m.roleMatchOverAll.Some? {
      AgreeExactly(t.roleMatchOverAll.value, m.roleMatchOverAll.value);
    }
    EqualsExactly(t.cases, m.cases, t.passed, m.meetsRule);
    if t.coverage.Some? && m.meanCoverage.Some? {
      CloseExactly(t.coverage.value, m.meanCoverage.value);
    }
  }

  predicate WithinABillionth(off: real) {
    (if off < 0.0 then -off else off) * 1000000000.0 <= 1.0
  }

  lemma CloseExactly(x: real, y: real)
    ensures Close(x, y) <==> WithinABillionth(x - y)
  {
  }

  lemma EqualsExactly(f: Field, n: nat, g: Field, b: bool)
    ensures Equals(f, Whole(n)) <==> Says(f, n)
    ensures Equals(g, Flag(b)) <==> SaysWhether(g, b)
  {
  }

  lemma AgreeExactly(p: Parts, r: Ratio)
    ensures Agree(p, r) <==> SaysRatio(p, r)
  {
    EqualsExactly(p.numerator, r.numerator, p.denominator, true);
    EqualsExactly(p.denominator, r.denominator, p.denominator, true);
  }

  /** The exported files are one request per prompt, besides the manifest, and the digest is
    * 64 hexadecimal digits, the one published. */
  lemma FilesExactly(r: Requests, ids: seq<string>)
    ensures FilesFit(r, ids) <==>
              && r.names.Some?
              && (forall n | n in r.names.value :: n == "manifest.json" || exists i :: 0 <= i < |ids| && n == ids[i] + ".json")
              && (forall i | 0 <= i < |ids| :: ids[i] + ".json" != "manifest.json" && ids[i] + ".json" in r.names.value)
              && |r.published| == 64 && (forall i | 0 <= i < 64 :: r.published[i] in "0123456789abcdef")
              && r.digest == r.published
  {
    assert forall c: char :: Hex(c) <==> c in "0123456789abcdef";
    if r.names.Some? {
      SameFiles(r.names.value, ids);
      forall n | n in r.names.value
        ensures n in FilesOf(ids) <==> exists i :: 0 <= i < |ids| && n == ids[i] + ".json"
      {
        if n in FilesOf(ids) {
          var id :| id in ids && n == FileOf(id);
          var i :| 0 <= i < |ids| && ids[i] == id;
        }
        if i :| 0 <= i < |ids| && n == ids[i] + ".json" {
          assert ids[i] in ids && n == FileOf(ids[i]);
        }
      }
      assert forall i | 0 <= i < |ids| :: FileOf(ids[i]) in RequestFiles(r.names.value) <==>
               ids[i] + ".json" != "manifest.json" && ids[i] + ".json" in r.names.value;
      assert forall j | 0 <= j < |r.names.value| :: r.names.value[j] in r.names.value;
    }
  }

  /** The responses are an object per prompt, besides the sender's record; the models are
    * those that some prompt's response names. */
  lemma ResponsesExactly(r: Responses, ids: seq<string>, model: string)
    ensures AllAnswered(r, ids) <==>
              && r.names.Some? && r.send.Document? && SendFits(r.send.value, |ids|)
              && (forall n | n in r.names.value :: n == "send.json" || exists i :: 0 <= i < |ids| && n == ids[i] + ".json")
              && (forall i | 0 <= i < |ids| :: ids[i] + ".json" in r.bodies && r.bodies[ids[i] + ".json"].Answer?)
    ensures model in ModelsOf(r, ids) <==>
              exists i :: 0 <= i < |ids| && ids[i] + ".json" in r.bodies && r.bodies[ids[i] + ".json"].Answer?
                          && model in r.bodies[ids[i] + ".json"].models
  {
    assert forall i | 0 <= i < |ids| :: ids[i] in ids && FileOf(ids[i]) == ids[i] + ".json";
    if r.names.Some? {
      forall n | n in r.names.value
        ensures n in FilesOf(ids) <==> exists i :: 0 <= i < |ids| && n == ids[i] + ".json"
      {
        if n in FilesOf(ids) {
          var id :| id in ids && n == FileOf(id);
          var i :| 0 <= i < |ids| && ids[i] == id;
        }
      }
    }
    if model in ModelsOf(r, ids) {
      var id :| id in ids && BodyIs(r, id, false) && model in r.bodies[FileOf(id)].models;
      var i :| 0 <= i < |ids| && ids[i] == id;
    }
    assert forall i | 0 <= i < |ids| :: BodyIs(r, ids[i], false) <==> FileOf(ids[i]) in r.bodies && r.bodies[FileOf(ids[i])].Answer?;
  }

  // ---------------------------------------------------------------- the exception is real

  function Digit10(d: nat): char
    requires d < 10
  {
    "0123456789"[d]
  }

  function IdOf(i: nat): string
    requires i < 100
  {
    "sel-0" + [Digit10(i / 10), Digit10(i % 10)]
  }

  function Ids(): seq<string> {
    seq(EXPECTED_PROMPTS, i requires 0 <= i < EXPECTED_PROMPTS => IdOf(i))
  }

  function Set(): SetFile {
    SetFile(seq(EXPECTED_PROMPTS, i requires 0 <= i < EXPECTED_PROMPTS => Prompt(Some(IdOf(i)), Some(true), Some([]))), Some(Rule(0.5, 0.5)))
  }

  function SetLabels(): Labels {
    Labels(map id | id in Ids() :: true, map id | id in Ids() :: [])
  }

  lemma IdsDiffer(i: nat, j: nat)
    requires i < j < 100
    ensures IdOf(i) != IdOf(j)
  {
    assert IdOf(i)[5] == Digit10(i / 10) && IdOf(i)[6] == Digit10(i % 10);
    assert IdOf(j)[5] == Digit10(j / 10) && IdOf(j)[6] == Digit10(j % 10);
  }

  lemma IdsFit(i: nat)
    requires i < 100
    ensures PromptId(IdOf(i))
  {
    assert IdOf(i)[..4] == "sel-";
  }

  lemma SetIsSound()
    ensures Sound(Set().prompts, Ids(), SetLabels())
  {
    forall i, j | 0 <= i < j < |Ids()|
      ensures Ids()[i] != Ids()[j]
    {
      IdsDiffer(i, j);
    }
    forall i | 0 <= i < |Ids()|
      ensures PromptId(Ids()[i]) && Ids()[i] in Ids()
    {
      IdsFit(i);
    }
  }

  function Digest(): string {
    seq(64, i => '0')
  }

  function Sent(manifest: File<Manifest>): Requests {
    Requests(Some(seq(EXPECTED_PROMPTS, i requires 0 <= i < EXPECTED_PROMPTS => FileOf(Ids()[i]))), manifest, Digest(), Digest())
  }

  function Back(send: File<Send>): Responses {
    Responses(Some([SEND]), false, send, map f | f in FilesOf(Ids()) :: Answer({}))
  }

  lemma SentIsExported(code: string)
    ensures Exported(Sent(Document(Manifest(Some(Ids()), Text(code), Nothing))), Ids(), code, LEGACY_SET)
  {
    var names := Sent(NullDocument).names.value;
    forall f
      ensures f in RequestFiles(names) <==> f in FilesOf(Ids())
    {
      if f in FilesOf(Ids()) {
        var i :| 0 <= i < |Ids()| && f == FileOf(Ids()[i]);
        assert names[i] == f;
        assert |Ids()[i]| == 7 && |f| == 12 && |MANIFEST| == 13;
      }
      if f in names {
        var i :| 0 <= i < |names| && f == names[i];
        assert Ids()[i] in Ids();
      }
    }
  }

  /** Everything is in order but the harness's report, which is the document `null`: there is
    * a result, of no cases at all. */
  lemma NullReportHasAResult(code: string)
    ensures var requests := Sent(Document(Manifest(Some(Ids()), Text(code), Nothing)));
            var responses := Back(Document(Send(Whole(EXPECTED_PROMPTS), Whole(EXPECTED_PROMPTS), Whole(0), Text("no"))));
            && Accepted(Some(Set()), requests, responses, NullDocument, code, LEGACY_SET, Ids(), SetLabels())
            && !Complete(Some(Set()), requests, responses, NullDocument, code, LEGACY_SET, Ids(), SetLabels())
            && MeasuredBy(CasesOf(NullDocument), SetLabels(), Set().rule.value).cases == 0
            && !MeasuredBy(CasesOf(NullDocument), SetLabels(), Set().rule.value).meetsRule
  {
    SetIsSound();
    SentIsExported(code);
    var requests := Sent(Document(Manifest(Some(Ids()), Text(code), Nothing)));
    var responses := Back(Document(Send(Whole(EXPECTED_PROMPTS), Whole(EXPECTED_PROMPTS), Whole(0), Text("no"))));
    assert Delivered(responses, Ids()) by {
      forall id | id in Ids()
        ensures BodyIs(responses, id, true)
      {
        assert FileOf(id) in FilesOf(Ids());
      }
    }
    GatheredMeasures(Some(Set()), requests, responses, NullDocument, code, LEGACY_SET, Ids(), SetLabels());
  }
}
