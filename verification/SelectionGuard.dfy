/** The guard of the specialist-selection evaluation: the checks on a frozen prompt set and
  * on the cases of the harness's report, and the measures recomputed from both.
  *
  * Files are read by others: a file is `None` here when it is missing, unreadable or not
  * the frozen one. Ratios are exact (`real`).
  */
module SelectionGuard {

  import opened Wrappers

  const EXPECTED_PROMPTS := 24

  /** A field of a scored case. A missing field reads as `Null`. */
  datatype Json = Null | Bool(value: bool) | Strings(items: seq<string>) | Other(list: bool)

  /** A scored case; `id` is `None` when it is not a string. */
  datatype Case = Case(id: Option<string>, planned: Json, decisionOk: Json, rolesOk: Json, roles: Json)

  /** A prompt of the set; `roles` is `None` when the role labels are malformed. */
  datatype Prompt = Prompt(id: Option<string>, delegate: Option<bool>, roles: Option<seq<seq<string>>>)

  datatype Rule = Rule(decisionMin: real, unnecessaryMax: real)

  datatype SetFile = SetFile(prompts: seq<Prompt>, rule: Option<Rule>)

  datatype Labels = Labels(delegate: map<string, bool>, roles: map<string, seq<seq<string>>>)

  datatype Problem =
    | SetUnreadable | NotAnId | Duplicate(id: string) | Unlabeled(id: string) | BadRoleLabels(id: string)
    | WrongSize | NoRule
    | ReportUnreadable | ScoredTwice(scored: Option<string>) | WrongOrder
    | NoDecision(id: string) | WrongDecision(id: string) | RoleMatchMisplaced(id: string)
    | BadRoles(id: string) | RolesWithoutPlan(id: string) | WrongRoleMatch(id: string)
    | RequestsMissing | UnexpectedRequest(name: string) | NoRequest(id: string) | NoDigest | WrongDigest
    | ManifestUnreadable | ManifestIds | ManifestCommit | ManifestSet
    | ResponsesMissing | SendUnreadable | WrongSend(key: string) | UnexpectedResponse(name: string) | NoResponse(id: string)
    | BadResponse(id: string) | BlockedWithResponses
    | WrongHeader(key: string) | NoCases | TotalsDisagree

  // ---------------------------------------------------------------- the prompt set

  predicate Digit(c: char) {
    '0' <= c <= '9'
  }

  predicate PromptId(id: string) {
    |id| == 7 && id[..4] == "sel-" && Digit(id[4]) && Digit(id[5]) && Digit(id[6])
  }

  /** An id is the prefix and three digits, whichever. */
  lemma PromptIdExactly(id: string)
    ensures PromptId(id) <==> exists a, b, c :: '0' <= a <= '9' && '0' <= b <= '9' && '0' <= c <= '9' && id == "sel-" + [a, b, c]
  {
    if PromptId(id) {
      assert id == id[..4] + [id[4], id[5], id[6]];
    }
  }

  /** A prompt set fit for use: distinct, well-formed, labeled prompts, as many as expected. */
  ghost predicate Sound(prompts: seq<Prompt>, ids: seq<string>, labels: Labels) {
    && |prompts| == |ids| == EXPECTED_PROMPTS
    && Labeled(prompts, ids, labels)
  }

  ghost predicate Labeled(prompts: seq<Prompt>, ids: seq<string>, labels: Labels) {
    && |prompts| == |ids|
    && (forall i, j | 0 <= i < j < |ids| :: ids[i] != ids[j])
    && (forall i | 0 <= i < |ids| ::
          && prompts[i].id == Some(ids[i]) && PromptId(ids[i])
          && ids[i] in labels.delegate && prompts[i].delegate == Some(labels.delegate[ids[i]])
          && ids[i] in labels.roles && prompts[i].roles == Some(labels.roles[ids[i]]))
    && (forall id | id in labels.delegate || id in labels.roles :: id in ids)
  }

  /** No ids and labels would make these prompts fit. */
  ghost predicate Unfit(prompts: seq<Prompt>) {
    forall ids, labels :: !Labeled(prompts, ids, labels)
  }

  /** Every label so far comes from one of the first `i` prompts. */
  ghost predicate Attributed(prompts: seq<Prompt>, i: nat, labels: Labels) {
    forall id | id in labels.delegate :: exists j | 0 <= j < i && j < |prompts| :: prompts[j].id == Some(id)
  }

  lemma UnfitPrompt(prompts: seq<Prompt>, i: nat)
    requires i < |prompts|
    requires var p := prompts[i]; p.id.None? || !PromptId(p.id.value) || p.delegate.None? || p.roles.None?
    ensures Unfit(prompts)
  {
    forall ids, labels
      ensures !Labeled(prompts, ids, labels)
    {
    }
  }

  lemma UnfitPair(prompts: seq<Prompt>, i: nat, j: nat)
    requires i < j < |prompts| && prompts[i].id == prompts[j].id
    ensures Unfit(prompts)
  {
    forall ids, labels
      ensures !Labeled(prompts, ids, labels)
    {
    }
  }

  function WithLabel(labels: Labels, p: Prompt): Labels
    requires p.id.Some? && p.delegate.Some? && p.roles.Some?
  {
    Labels(labels.delegate[p.id.value := p.delegate.value], labels.roles[p.id.value := p.roles.value])
  }

  lemma LabelOne(prompts: seq<Prompt>, i: nat, ids: seq<string>, labels: Labels)
    requires i < |prompts| && Labeled(prompts[..i], ids, labels)
    requires var p := prompts[i]; p.id.Some? && PromptId(p.id.value) && p.delegate.Some? && p.roles.Some?
    requires prompts[i].id.value !in labels.delegate
    ensures Labeled(prompts[..i + 1], ids + [prompts[i].id.value], WithLabel(labels, prompts[i]))
  {
    var ids', labels' := ids + [prompts[i].id.value], WithLabel(labels, prompts[i]);
    forall k | 0 <= k < |ids'|
      ensures var p := prompts[..i + 1][k];
              p.id == Some(ids'[k]) && PromptId(ids'[k])
              && ids'[k] in labels'.delegate && p.delegate == Some(labels'.delegate[ids'[k]])
              && ids'[k] in labels'.roles && p.roles == Some(labels'.roles[ids'[k]])
    {
      if k < i {
        assert prompts[..i][k] == prompts[k];
        assert ids[k] in labels.delegate;
      }
    }
    assert forall id :: id in ids' <==> id in ids || id == prompts[i].id.value;
    forall a, b | 0 <= a < b < |ids'|
      ensures ids'[a] != ids'[b]
    {
      assert ids'[a] == ids[a] && ids[a] in labels.delegate;
    }
  }

  /** The labels of a set's prompts, and everything wrong with them: nothing exactly for a
    * sound set with a pass rule. */
  method CheckSet(file: Option<SetFile>) returns (ids: seq<string>, labels: Labels, rule: Option<Rule>, problems: seq<Problem>)
    ensures problems == [] ==> file.Some? && Sound(file.value.prompts, ids, labels) && rule.Some? && rule == file.value.rule
    ensures file.Some? && file.value.rule.Some? && (exists ids', labels' :: Sound(file.value.prompts, ids', labels')) ==> problems == []
  {
    ids, labels, rule, problems := [], Labels(map[], map[]), None, [];
    if file.None? {
      problems := [SetUnreadable];
      return;
    }
    var prompts := file.value.prompts;
    var i := 0;
    while i < |prompts|
      invariant 0 <= i <= |prompts|
      invariant problems == [] ==> Labeled(prompts[..i], ids, labels)
      invariant problems != [] ==> Unfit(prompts)
      invariant Attributed(prompts, i, labels)
    {
      var p := prompts[i];
      if p.id.None? || !PromptId(p.id.value) {
        problems := problems + [NotAnId];
        UnfitPrompt(prompts, i);
      } else if p.id.value in labels.delegate {
        problems := problems + [Duplicate(p.id.value)];
        ghost var j :| 0 <= j < i && prompts[j].id == p.id;
        UnfitPair(prompts, j, i);
      } else if p.delegate.None? {
        problems := problems + [Unlabeled(p.id.value)];
        UnfitPrompt(prompts, i);
      } else if p.roles.None? {
        problems := problems + [BadRoleLabels(p.id.value)];
        labels := labels.(delegate := labels.delegate[p.id.value := p.delegate.value]);
        UnfitPrompt(prompts, i);
      } else {
        if problems == [] {
          LabelOne(prompts, i, ids, labels);
        }
        labels := WithLabel(labels, p);
      }
      if p.id.Some? {
        ids := ids + [p.id.value];
      }
      i := i + 1;
    }
    assert prompts[..i] == prompts;
    if |prompts| != EXPECTED_PROMPTS {
      problems := problems + [WrongSize];
    }
    rule := file.value.rule;
    if rule.None? {
      problems := problems + [NoRule];
    }
  }

  // ---------------------------------------------------------------- the report

  predicate Known(c: Case, labels: Labels) {
    c.id.Some? && c.id.value in labels.delegate
  }

  predicate Planned(c: Case) {
    c.planned == Bool(true)
  }

  function Delegated(c: Case, labels: Labels): bool
    requires Known(c, labels)
  {
    labels.delegate[c.id.value]
  }

  function RoleLabels(labels: Labels, id: string): seq<seq<string>> {
    if id in labels.roles then labels.roles[id] else []
  }

  function ToSet(items: seq<string>): set<string> {
    set s | s in items
  }

  predicate Matches(wanted: seq<seq<string>>, got: set<string>) {
    exists w | w in wanted :: ToSet(w) == got
  }

  predicate Distinct(items: seq<string>) {
    forall i, j | 0 <= i < j < |items| :: items[i] != items[j]
  }

  /** A case scored as its label and its planned roles demand. */
  predicate Consistent(c: Case, labels: Labels)
    requires Known(c, labels)
  {
    var delegate := Delegated(c, labels);
    && c.planned.Bool? && c.decisionOk == Bool(c.planned.value == delegate)
    && (c.rolesOk.Null? || c.rolesOk.Bool?)
    && (!c.rolesOk.Null? <==> c.planned.value && delegate)
    && (!c.roles.Null? ==>
          && c.roles.Strings? && Distinct(c.roles.items)
          && (!c.planned.value ==> c.roles.items == [])
          && (!c.rolesOk.Null? ==> c.rolesOk.value == Matches(RoleLabels(labels, c.id.value), ToSet(c.roles.items))))
  }

  predicate DistinctItems(items: seq<string>) {
    |ToSet(items)| == |items|
  }

  lemma {:induction false} DistinctBySize(items: seq<string>)
    ensures |ToSet(items)| <= |items|
    ensures DistinctItems(items) <==> Distinct(items)
  {
    if items != [] {
      var n := |items| - 1;
      DistinctBySize(items[..n]);
      assert items == items[..n] + [items[n]];
      assert ToSet(items) == ToSet(items[..n]) + {items[n]};
      if items[n] in items[..n] {
        assert ToSet(items) == ToSet(items[..n]);
      } else {
        assert |ToSet(items)| == |ToSet(items[..n])| + 1;
        assert Distinct(items) <==> Distinct(items[..n]);
      }
    }
  }

  /** What is wrong with one scored case: nothing exactly for a consistent one. */
  method CheckCase(c: Case, labels: Labels) returns (problems: seq<Problem>)
    requires Known(c, labels)
    ensures problems == [] <==> Consistent(c, labels)
    ensures var id, wanted := c.id.value, labels.delegate[c.id.value];
            var decided := c.planned.Bool? && c.decisionOk.Bool?;
            var right := decided && (c.decisionOk.value <==> (c.planned.value <==> wanted));
            var due := c.planned == Bool(true) && wanted;
            && (NoDecision(id) in problems <==> !decided)
            && (WrongDecision(id) in problems <==> decided && !right)
            && (RoleMatchMisplaced(id) in problems <==> right && (c.rolesOk !in {Null, Bool(true), Bool(false)} || (c.rolesOk != Null <==> !due)))
            && (BadRoles(id) in problems <==> c.roles != Null && !(c.roles.Strings? && Distinct(c.roles.items)))
            && (RolesWithoutPlan(id) in problems <==>
                  c.roles.Strings? && Distinct(c.roles.items) && c.roles.items != [] && c.planned == Bool(false))
  {
    var id := c.id.value;
    var delegate := labels.delegate[id];
    problems := [];
    if !c.planned.Bool? || !c.decisionOk.Bool? {
      problems := problems + [NoDecision(id)];
    } else if c.decisionOk.value != (c.planned.value == delegate) {
      problems := problems + [WrongDecision(id)];
    } else if !(c.rolesOk.Null? || c.rolesOk.Bool?) || (!c.rolesOk.Null?) != (c.planned.value && delegate) {
      problems := problems + [RoleMatchMisplaced(id)];
    }
    if c.roles.Null? {
      return;
    }
    if c.roles.Strings? {
      DistinctBySize(c.roles.items);
    }
    if !c.roles.Strings? || !DistinctItems(c.roles.items) {
      problems := problems + [BadRoles(id)];
    } else if c.planned == Bool(false) && c.roles.items != [] {
      problems := problems + [RolesWithoutPlan(id)];
    } else if c.planned == Bool(true) && delegate && !c.rolesOk.Null?
              && c.rolesOk != Bool(Matches(RoleLabels(labels, id), ToSet(c.roles.items))) {
      problems := problems + [WrongRoleMatch(id)];
    }
  }

  /** Every prompt scored once, in order, each consistently. */
  ghost predicate Clean(cases: seq<Case>, ids: seq<string>, labels: Labels) {
    && |cases| == |ids|
    && (forall i | 0 <= i < |ids| :: cases[i].id == Some(ids[i]))
    && (forall i | 0 <= i < |cases| && Known(cases[i], labels) :: Consistent(cases[i], labels))
  }

  method CheckCases(cases: seq<Case>, ids: seq<string>, labels: Labels) returns (problems: seq<Problem>)
    ensures problems == [] ==> Clean(cases, ids, labels)
    ensures Clean(cases, ids, labels) && Distinct(ids) ==> problems == []
  {
    problems := [];
    var seen: set<Option<string>> := {};
    for i := 0 to |cases|
      invariant problems == [] || exists a, b :: 0 <= a < b < |cases| && cases[a].id == cases[b].id
      invariant forall id | id in seen :: exists a | 0 <= a < i :: cases[a].id == id
    {
      if cases[i].id in seen {
        problems := problems + [ScoredTwice(cases[i].id)];
      }
      seen := seen + {cases[i].id};
    }
    var ordered := |cases| == |ids|;
    if ordered {
      for i := 0 to |ids|
        invariant ordered <==> forall j | 0 <= j < i :: cases[j].id == Some(ids[j])
      {
        if cases[i].id != Some(ids[i]) {
          ordered := false;
        }
      }
    }
    if !ordered {
      problems := problems + [WrongOrder];
    }
    var i := 0;
    ghost var before := problems;
    while i < |cases|
      invariant 0 <= i <= |cases|
      invariant problems == [] <==> before == [] && forall j | 0 <= j < i && Known(cases[j], labels) :: Consistent(cases[j], labels)
    {
      if Known(cases[i], labels) {
        var more := CheckCase(cases[i], labels);
        problems := problems + more;
      }
      i := i + 1;
    }
  }

  // ---------------------------------------------------------------- the measures

  datatype Ratio = Ratio(numerator: nat, denominator: nat)

  /** The counts behind the measures, over the known cases. */
  datatype Tally = Tally(
    known: nat, decisions: nat, unnecessary: nat, missed: nat,
    delegations: nat, right: nat, planned: nat,
    scored: nat, matched: nat, exact: nat, covered: real)

  function Got(c: Case): set<string> {
    if Planned(c) && c.roles.Strings? then ToSet(c.roles.items) else {}
  }

  /** How much of one nonempty list of wanted roles was planned. */
  function Share(want: set<string>, got: set<string>): real
    requires want != {}
  {
    |want * got| as real / |want| as real
  }

  /** The best share over the nonempty role labels, 0 without any. */
  function Coverage(wanted: seq<seq<string>>, got: set<string>): real {
    if wanted == [] then 0.0
    else
      var rest := Coverage(wanted[..|wanted| - 1], got);
      var want := ToSet(wanted[|wanted| - 1]);
      if want == {} || Share(want, got) <= rest then rest else Share(want, got)
  }

  predicate Exact(wanted: seq<seq<string>>, got: set<string>) {
    exists w | w in wanted :: w != [] && ToSet(w) == got
  }

  function One(b: bool): nat {
    if b then 1 else 0
  }

  function Count(cases: seq<Case>, labels: Labels): Tally {
    if cases == [] then Tally(0, 0, 0, 0, 0, 0, 0, 0, 0, 0, 0.0)
    else
      var t := Count(cases[..|cases| - 1], labels);
      var c := cases[|cases| - 1];
      if Known(c, labels) then Counted(t, c, labels) else t
  }

  function Counted(t: Tally, c: Case, labels: Labels): Tally
    requires Known(c, labels)
  {
    var p, d := Planned(c), Delegated(c, labels);
    var wanted := RoleLabels(labels, c.id.value);
    Tally(
      t.known + 1,
      t.decisions + One(p == d), t.unnecessary + One(p && !d), t.missed + One(!p && d),
      t.delegations + One(d), t.right + One(d && p), t.planned + One(p),
      t.scored + One(!c.rolesOk.Null?), t.matched + One(c.rolesOk == Bool(true)),
      t.exact + One(d && p && Exact(wanted, Got(c))),
      t.covered + if d then Coverage(wanted, Got(c)) else 0.0)
  }

  /** Labels that say not to delegate, used or not. */
  function LeadCases(labels: Labels): nat {
    |set id | id in labels.delegate && !labels.delegate[id]|
  }

  datatype Measures = Measures(
    cases: nat,
    decisionAccuracy: Ratio, unnecessaryDelegation: Ratio, missedDelegation: Ratio, roleMatch: Ratio,
    delegationPrecision: Ratio, delegationRecall: Ratio,
    roleMatchOverAll: Option<Ratio>, meanCoverage: Option<real>,
    meetsRule: bool)

  function Max(a: nat, b: nat): nat {
    if a < b then b else a
  }

  predicate Meets(t: Tally, lead: nat, rule: Rule) {
    && t.decisions as real / Max(t.known, 1) as real >= rule.decisionMin
    && t.unnecessary as real / Max(lead, 1) as real <= rule.unnecessaryMax
  }

  /** Whether every known case reports its planned roles, so that role selection can be
    * measured over all delegations. */
  predicate Reported(cases: seq<Case>, labels: Labels) {
    && (exists c | c in cases :: Known(c, labels))
    && forall c | c in cases && Known(c, labels) :: c.roles.Strings? || c.roles == Other(true)
  }

  function MeasuresOf(t: Tally, lead: nat, reported: bool, rule: Rule): Measures {
    Measures(
      t.known,
      Ratio(t.decisions, t.known), Ratio(t.unnecessary, lead),
      Ratio(t.missed, t.known - if lead < t.known then lead else t.known),
      Ratio(t.matched, t.scored),
      Ratio(t.right, t.planned), Ratio(t.right, t.delegations),
      if reported then Some(Ratio(t.exact, t.delegations)) else None,
      if reported && t.delegations > 0 then Some(t.covered / t.delegations as real) else None,
      Meets(t, lead, rule))
  }

  // ---------------------------------------------------------------- what the measures count

  /** What a labeled case may be counted as. */
  datatype Kind =
    | Tallied | Agreeing | Unwanted | Neglected | Wanted | Recalled | Delegating | RolesScored | RolesMatched | RolesExact

  predicate Is(c: Case, labels: Labels, kind: Kind) {
    && c.id.Some? && c.id.value in labels.delegate
    && var wanted := labels.delegate[c.id.value];
       match kind
       case Tallied => true
       case Agreeing => wanted <==> c.planned == Bool(true)
       case Unwanted => !wanted && c.planned == Bool(true)
       case Neglected => wanted && c.planned != Bool(true)
       case Wanted => wanted
       case Recalled => wanted && c.planned == Bool(true)
       case Delegating => c.planned == Bool(true)
       case RolesScored => c.rolesOk != Null
       case RolesMatched => c.rolesOk == Bool(true)
       case RolesExact =>
         && wanted && c.planned == Bool(true) && c.id.value in labels.roles
         && exists w | w in labels.roles[c.id.value] :: w != [] && ToSet(w) == if c.roles.Strings? then ToSet(c.roles.items) else {}
  }

  /** The places of the cases of a kind. */
  function Places(cases: seq<Case>, labels: Labels, kind: Kind): set<nat> {
    set i: nat | i < |cases| && Is(cases[i], labels, kind)
  }

  lemma PlacesGrow(cases: seq<Case>, labels: Labels, kind: Kind)
    requires cases != []
    ensures |Places(cases, labels, kind)| ==
              |Places(cases[..|cases| - 1], labels, kind)| + if Is(cases[|cases| - 1], labels, kind) then 1 else 0
  {
    var n := |cases| - 1;
    var before, now, more := Places(cases[..n], labels, kind), Places(cases, labels, kind), Is(cases[n], labels, kind);
    forall i: nat
      ensures i in now <==> i in before || (more && i == n)
    {
      if i < n {
        assert cases[..n][i] == cases[i];
      }
    }
    OneMore(before, now, n, more);
  }

  lemma OneMore(before: set<nat>, now: set<nat>, n: nat, more: bool)
    requires n !in before && forall i: nat :: i in now <==> i in before || (more && i == n)
    ensures |now| == |before| + if more then 1 else 0
  {
    assert now == if more then before + {n} else before;
  }

  /** The count of a kind. */
  function CountOf(t: Tally, kind: Kind): nat {
    match kind
    case Tallied => t.known
    case Agreeing => t.decisions
    case Unwanted => t.unnecessary
    case Neglected => t.missed
    case Wanted => t.delegations
    case Recalled => t.right
    case Delegating => t.planned
    case RolesScored => t.scored
    case RolesMatched => t.matched
    case RolesExact => t.exact
  }

  /** Each count is the number of the cases it says. */
  lemma {:induction false} CountsAreCardinalities(cases: seq<Case>, labels: Labels, kind: Kind)
    ensures CountOf(Count(cases, labels), kind) == |Places(cases, labels, kind)|
  {
    if cases == [] {
      assert Places(cases, labels, kind) == {};
    } else {
      CountsAreCardinalities(cases[..|cases| - 1], labels, kind);
      PlacesGrow(cases, labels, kind);
      if Known(cases[|cases| - 1], labels) {
        OneOfEach(cases[|cases| - 1], labels);
      }
    }
  }

  lemma OneOfEach(c: Case, labels: Labels)
    requires Known(c, labels)
    ensures Is(c, labels, Agreeing) <==> Planned(c) == Delegated(c, labels)
    ensures Is(c, labels, RolesExact) <==> Delegated(c, labels) && Planned(c) && Exact(RoleLabels(labels, c.id.value), Got(c))
  {
    if Is(c, labels, Recalled) && c.id.value !in labels.roles {
      assert RoleLabels(labels, c.id.value) == [];
    }
  }

  /** The labels that leave a prompt to the lead. */
  function Lead(labels: Labels): set<string> {
    set id | id in labels.delegate && !labels.delegate[id]
  }

  /** The pass rule: enough of the labeled cases agree with their label, and not too many of
    * those for the lead were delegated. */
  ghost predicate RuleHolds(cases: seq<Case>, labels: Labels, rule: Rule) {
    && Enough(|Places(cases, labels, Agreeing)|, |Places(cases, labels, Tallied)|, rule.decisionMin)
    && Few(|Places(cases, labels, Unwanted)|, |Lead(labels)|, rule.unnecessaryMax)
  }

  predicate Enough(n: nat, of: nat, min: real) {
    n as real >= min * (if of == 0 then 1 else of) as real
  }

  predicate Few(n: nat, of: nat, max: real) {
    n as real <= max * (if of == 0 then 1 else of) as real
  }

  lemma Scaled(x: real, y: real, z: real)
    requires y > 0.0
    ensures x / y >= z <==> x >= z * y
    ensures x / y <= z <==> x <= z * y
  {
    var q := x / y;
    assert q * y == x;
    if q >= z {
      assert (q - z) * y >= 0.0;
    } else {
      assert (z - q) * y > 0.0;
    }
    if q <= z {
      assert (z - q) * y >= 0.0;
    } else {
      assert (q - z) * y > 0.0;
    }
  }

  /** What the measures say of the cases and labels, in numbers of cases of each kind. */
  ghost predicate Tells(m: Measures, cases: seq<Case>, labels: Labels, rule: Rule) {
    var known, lead := |Places(cases, labels, Tallied)|, |Lead(labels)|;
    && m.cases == known
    && m.decisionAccuracy == Ratio(|Places(cases, labels, Agreeing)|, known)
    && m.unnecessaryDelegation == Ratio(|Places(cases, labels, Unwanted)|, lead)
    && m.missedDelegation == Ratio(|Places(cases, labels, Neglected)|, if known <= lead then 0 else known - lead)
    && m.roleMatch == Ratio(|Places(cases, labels, RolesMatched)|, |Places(cases, labels, RolesScored)|)
    && m.delegationPrecision == Ratio(|Places(cases, labels, Recalled)|, |Places(cases, labels, Delegating)|)
    && m.delegationRecall == Ratio(|Places(cases, labels, Recalled)|, |Places(cases, labels, Wanted)|)
    && (m.roleMatchOverAll.Some? ==>
          m.roleMatchOverAll.value == Ratio(|Places(cases, labels, RolesExact)|, |Places(cases, labels, Wanted)|))
    && (m.roleMatchOverAll.Some? <==>
          Places(cases, labels, Tallied) != {} && forall i | i in Places(cases, labels, Tallied) :: ListsRoles(cases, i))
    && (m.meetsRule <==> RuleHolds(cases, labels, rule))
  }

  predicate ListsRoles(cases: seq<Case>, i: nat) {
    i < |cases| && (cases[i].roles.Strings? || cases[i].roles == Other(true))
  }

  lemma ReportedMeansListed(cases: seq<Case>, labels: Labels)
    ensures Reported(cases, labels) <==>
              Places(cases, labels, Tallied) != {} && forall i | i in Places(cases, labels, Tallied) :: ListsRoles(cases, i)
  {
    var places := Places(cases, labels, Tallied);
    assert forall i: nat | i < |cases| :: cases[i] in cases && (i in places <==> Known(cases[i], labels));
    if c :| c in cases && Known(c, labels) {
      var i :| 0 <= i < |cases| && cases[i] == c;
      assert i in places;
    }
    if places != {} && forall i | i in places :: ListsRoles(cases, i) {
      forall c | c in cases && Known(c, labels)
        ensures c.roles.Strings? || c.roles == Other(true)
      {
        var i :| 0 <= i < |cases| && cases[i] == c;
        assert i in places && ListsRoles(cases, i);
      }
    }
  }

  lemma RuleMeansHolds(cases: seq<Case>, labels: Labels, rule: Rule)
    ensures Meets(Count(cases, labels), LeadCases(labels), rule) <==> RuleHolds(cases, labels, rule)
  {
    CountsAreCardinalities(cases, labels, Agreeing);
    CountsAreCardinalities(cases, labels, Tallied);
    CountsAreCardinalities(cases, labels, Unwanted);
    assert LeadCases(labels) == |Lead(labels)|;
    MeetsMeans(Count(cases, labels), |Lead(labels)|, rule);
  }

  lemma MeetsMeans(t: Tally, lead: nat, rule: Rule)
    ensures Meets(t, lead, rule) <==> Enough(t.decisions, t.known, rule.decisionMin) && Few(t.unnecessary, lead, rule.unnecessaryMax)
  {
    Scaled(t.decisions as real, Max(t.known, 1) as real, rule.decisionMin);
    Scaled(t.unnecessary as real, Max(lead, 1) as real, rule.unnecessaryMax);
  }

  ghost predicate Cardinal(t: Tally, cases: seq<Case>, labels: Labels) {
    forall kind :: CountOf(t, kind) == |Places(cases, labels, kind)|
  }

  lemma CountIsCardinal(cases: seq<Case>, labels: Labels)
    ensures Cardinal(Count(cases, labels), cases, labels)
  {
    forall kind
      ensures CountOf(Count(cases, labels), kind) == |Places(cases, labels, kind)|
    {
      CountsAreCardinalities(cases, labels, kind);
    }
  }

  lemma CardinalTells(t: Tally, lead: nat, reported: bool, cases: seq<Case>, labels: Labels, rule: Rule)
    requires Cardinal(t, cases, labels) && lead == |Lead(labels)| && (Meets(t, lead, rule) <==> RuleHolds(cases, labels, rule))
    requires reported <==>
               Places(cases, labels, Tallied) != {} && forall i | i in Places(cases, labels, Tallied) :: ListsRoles(cases, i)
    ensures Tells(MeasuresOf(t, lead, reported, rule), cases, labels, rule)
  {
    assert CountOf(t, Tallied) == t.known && CountOf(t, Agreeing) == t.decisions && CountOf(t, Unwanted) == t.unnecessary;
    assert CountOf(t, Neglected) == t.missed && CountOf(t, Wanted) == t.delegations && CountOf(t, Recalled) == t.right;
    assert CountOf(t, Delegating) == t.planned && CountOf(t, RolesScored) == t.scored;
    assert CountOf(t, RolesMatched) == t.matched && CountOf(t, RolesExact) == t.exact;
  }

  lemma MeasuresTell(cases: seq<Case>, labels: Labels, rule: Rule)
    ensures Tells(MeasuresOf(Count(cases, labels), LeadCases(labels), Reported(cases, labels), rule), cases, labels, rule)
  {
    CountIsCardinal(cases, labels);
    ReportedMeansListed(cases, labels);
    RuleMeansHolds(cases, labels, rule);
    CardinalTells(Count(cases, labels), LeadCases(labels), Reported(cases, labels), cases, labels, rule);
  }

  /** How many of the wanted roles were planned. */
  function PlannedOf(w: seq<string>, got: set<string>): nat {
    |set r | r in w && r in got|
  }

  /** At most, or just, that share of the wanted roles was planned. */
  predicate AtMostShare(w: seq<string>, got: set<string>, share: real) {
    PlannedOf(w, got) as real <= share * |ToSet(w)| as real
  }

  predicate JustShare(w: seq<string>, got: set<string>, share: real) {
    PlannedOf(w, got) as real == share * |ToSet(w)| as real
  }

  /** A case's coverage is the best share, over the nonempty role labels, of the wanted roles
    * that were planned; without any it is 0. */
  lemma {:induction false} CoverageIsBestShare(wanted: seq<seq<string>>, got: set<string>)
    ensures forall w | w in wanted && w != [] :: AtMostShare(w, got, Coverage(wanted, got))
    ensures Coverage(wanted, got) == 0.0 || exists w | w in wanted && w != [] :: JustShare(w, got, Coverage(wanted, got))
  {
    if wanted != [] {
      var n := |wanted| - 1;
      var rest, last, share := Coverage(wanted[..n], got), wanted[n], Coverage(wanted, got);
      CoverageIsBestShare(wanted[..n], got);
      assert wanted == wanted[..n] + [last];
      OnlyEmptyIsEmpty(last);
      if last != [] {
        ShareIsPart(last, got);
      }
      forall w | w in wanted && w != []
        ensures AtMostShare(w, got, share)
      {
        if w in wanted[..n] {
          MoreShare(w, got, rest, share);
        } else {
          MoreShare(w, got, Share(ToSet(last), got), share);
        }
      }
    }
  }

  lemma MoreShare(w: seq<string>, got: set<string>, x: real, y: real)
    requires AtMostShare(w, got, x) && x <= y
    ensures AtMostShare(w, got, y)
  {
    Grows(x, y, |ToSet(w)| as real);
  }

  lemma Grows(x: real, y: real, z: real)
    requires x <= y && 0.0 <= z
    ensures x * z <= y * z
  {
    assert (y - x) * z >= 0.0;
  }

  lemma ShareIsPart(want: seq<string>, got: set<string>)
    requires want != [] && ToSet(want) != {}
    ensures JustShare(want, got, Share(ToSet(want), got)) && AtMostShare(want, got, Share(ToSet(want), got))
  {
    assert ToSet(want) * got == set r | r in want && r in got;
    SubsetSize({want[0]}, ToSet(want));
  }

  /** The coverage summed: case by case, of the prompts to be delegated alone. */
  lemma {:induction false} CoverageAdds(a: seq<Case>, b: seq<Case>, labels: Labels)
    ensures Count(a + b, labels).covered == Count(a, labels).covered + Count(b, labels).covered
    decreases |b|
  {
    if b == [] {
      assert a + b == a;
    } else {
      assert (a + b)[..|a + b| - 1] == a + b[..|b| - 1];
      CoverageAdds(a, b[..|b| - 1], labels);
    }
  }

  lemma CoverageOfOne(c: Case, labels: Labels)
    ensures Count([c], labels).covered ==
              if c.id.Some? && c.id.value in labels.delegate && labels.delegate[c.id.value] && c.id.value in labels.roles
              then Coverage(labels.roles[c.id.value], if c.planned == Bool(true) && c.roles.Strings? then ToSet(c.roles.items) else {})
              else 0.0
    ensures Count([], labels).covered == 0.0
  {
    assert [c][..0] == [];
  }

  /** The mean, over the prompts to be delegated, makes up the sum again; there is one when
    * every case lists its roles and some prompt was to be delegated. */
  lemma MeanCoverageMakesTheSum(t: Tally, lead: nat, reported: bool, cases: seq<Case>, labels: Labels, rule: Rule)
    requires Cardinal(t, cases, labels)
    ensures var m := MeasuresOf(t, lead, reported, rule);
            && (m.meanCoverage.Some? <==> m.roleMatchOverAll.Some? && Places(cases, labels, Wanted) != {})
            && (m.meanCoverage.Some? ==> m.meanCoverage.value * |Places(cases, labels, Wanted)| as real == t.covered)
  {
    assert CountOf(t, Wanted) == t.delegations;
    MeanTimes(t, lead, reported, rule, Places(cases, labels, Wanted));
  }

  lemma MeanTimes(t: Tally, lead: nat, reported: bool, rule: Rule, wanted: set<nat>)
    requires t.delegations == |wanted|
    ensures var m := MeasuresOf(t, lead, reported, rule);
            && (m.meanCoverage.Some? <==> m.roleMatchOverAll.Some? && wanted != {})
            && (m.meanCoverage.Some? ==> m.meanCoverage.value * |wanted| as real == t.covered)
  {
  }

  ghost predicate SameMembers(a: seq<string>, b: seq<string>) {
    forall s :: s in a <==> s in b
  }

  /** On a clean report the harness's own flags say what the labels do, and its planned roles,
    * where listed, are planned, distinct and matched exactly if they are those of a label. */
  lemma CleanFlagsAgree(cases: seq<Case>, ids: seq<string>, labels: Labels, i: nat)
    requires Clean(cases, ids, labels) && i in Places(cases, labels, Tallied)
    ensures cases[i].decisionOk == Bool(true) <==> i in Places(cases, labels, Agreeing)
    ensures cases[i].rolesOk != Null <==> i in Places(cases, labels, Recalled)
    ensures cases[i].rolesOk in {Null, Bool(true), Bool(false)} && cases[i].planned in {Bool(true), Bool(false)}
    ensures var c := cases[i];
            c.roles != Null ==>
              && c.roles.Strings? && (forall a, b | 0 <= a < b < |c.roles.items| :: c.roles.items[a] != c.roles.items[b])
              && (c.planned == Bool(false) ==> c.roles.items == [])
              && (i in Places(cases, labels, Recalled) ==>
                    (c.rolesOk == Bool(true) <==>
                       c.id.value in labels.roles && exists w | w in labels.roles[c.id.value] :: SameMembers(w, c.roles.items)))
  {
    var c := cases[i];
    assert Known(c, labels) && Consistent(c, labels);
    if c.roles.Strings? {
      assert forall w: seq<string> :: SameMembers(w, c.roles.items) <==> ToSet(w) == ToSet(c.roles.items) by {
        forall w: seq<string>
          ensures SameMembers(w, c.roles.items) <==> ToSet(w) == ToSet(c.roles.items)
        {
          SameMembersSameSet(w, c.roles.items);
        }
      }
    }
  }

  lemma SameMembersSameSet(a: seq<string>, b: seq<string>)
    ensures SameMembers(a, b) <==> ToSet(a) == ToSet(b)
  {
    if ToSet(a) == ToSet(b) {
      forall s
        ensures s in a <==> s in b
      {
        assert s in ToSet(a) <==> s in ToSet(b);
      }
    }
  }

  /** Recomputes the measures from the scored cases and their labels. */
  method Measure(cases: seq<Case>, labels: Labels, rule: Rule) returns (m: Measures)
    ensures m == MeasuresOf(Count(cases, labels), LeadCases(labels), Reported(cases, labels), rule)
    ensures Tells(m, cases, labels, rule)
  {
    MeasuresTell(cases, labels, rule);
    var t := Tally(0, 0, 0, 0, 0, 0, 0, 0, 0, 0, 0.0);
    var i := 0;
    while i < |cases|
      invariant 0 <= i <= |cases|
      invariant t == Count(cases[..i], labels)
    {
      assert cases[..i + 1][..i] == cases[..i];
      if Known(cases[i], labels) {
        t := Counted(t, cases[i], labels);
      }
      i := i + 1;
    }
    assert cases[..i] == cases;
    m := MeasuresOf(t, LeadCases(labels), Reported(cases, labels), rule);
  }

  lemma {:induction false} CoverageBounds(wanted: seq<seq<string>>, got: set<string>)
    ensures 0.0 <= Coverage(wanted, got) <= 1.0
    ensures Exact(wanted, got) ==> Coverage(wanted, got) == 1.0
    ensures got == {} ==> Coverage(wanted, got) == 0.0
  {
    if wanted != [] {
      var n := |wanted| - 1;
      CoverageBounds(wanted[..n], got);
      var want := ToSet(wanted[n]);
      assert wanted == wanted[..n] + [wanted[n]];
      if want != {} {
        ShareBounds(want, got);
      }
      if Exact(wanted, got) && !Exact(wanted[..n], got) {
        var w :| w in wanted && w != [] && ToSet(w) == got;
        assert w == wanted[n] && w[0] in want;
      }
    }
  }

  lemma Fraction(x: real, y: real)
    requires 0.0 <= x <= y && 0.0 < y
    ensures 0.0 <= x / y <= 1.0
    ensures x == y ==> x / y == 1.0
    ensures x == 0.0 ==> x / y == 0.0
  {
  }

  lemma ShareBounds(want: set<string>, got: set<string>)
    requires want != {}
    ensures 0.0 <= Share(want, got) <= 1.0
    ensures want == got ==> Share(want, got) == 1.0
    ensures got == {} ==> Share(want, got) == 0.0
  {
    assert want * got <= want;
    SubsetSize(want * got, want);
    SubsetSize({}, want);
    assert |want| > 0 by {
      var w :| w in want;
      SubsetSize({w}, want);
    }
    Fraction(|want * got| as real, |want| as real);
    if want == got {
      assert want * got == want;
    }
    if got == {} {
      assert want * got == {};
    }
  }

  lemma {:induction false} SubsetSize(a: set<string>, b: set<string>)
    requires a <= b
    ensures |a| <= |b|
  {
    assert a + (b - a) == b;
  }

  /** For every list of cases: exact role matches are at most the summed coverage, that at
    * most the delegations planned correctly, those at most the delegations; and the
    * decisions, the unnecessary and the missed delegations partition the known cases. */
  lemma {:induction false} MeasuresAreOrdered(cases: seq<Case>, labels: Labels)
    ensures var t := Count(cases, labels);
            && t.exact as real <= t.covered <= t.right as real
            && t.right <= t.delegations <= t.known
            && t.decisions + t.unnecessary + t.missed == t.known
            && t.right + t.missed == t.delegations
            && t.right + t.unnecessary == t.planned
            && t.matched <= t.scored
  {
    if cases != [] {
      var c := cases[|cases| - 1];
      MeasuresAreOrdered(cases[..|cases| - 1], labels);
      if Known(c, labels) {
        CoverageBounds(RoleLabels(labels, c.id.value), Got(c));
      }
    }
  }

  function LeadIn(ids: seq<string>, labels: Labels): set<string> {
    set id | id in ids && id in labels.delegate && !labels.delegate[id]
  }

  lemma LeadInGrows(ids: seq<string>, id: string, labels: Labels)
    requires id !in ids && id in labels.delegate
    ensures |LeadIn(ids + [id], labels)| == |LeadIn(ids, labels)| + if labels.delegate[id] then 0 else 1
  {
    var before, now := LeadIn(ids, labels), LeadIn(ids + [id], labels);
    if labels.delegate[id] {
      assert now == before;
    } else {
      assert id !in before && now == before + {id};
    }
  }

  lemma {:induction false} CleanCounts(cases: seq<Case>, ids: seq<string>, labels: Labels)
    requires Clean(cases, ids, labels) && Distinct(ids)
    requires forall id | id in ids :: id in labels.delegate
    ensures var t := Count(cases, labels);
            && t.known == |cases| && t.scored == t.right
            && t.known - t.delegations == |LeadIn(ids, labels)|
  {
    if cases != [] {
      var n := |cases| - 1;
      var c, earlier := cases[n], ids[..n];
      assert Clean(cases[..n], earlier, labels);
      assert ids == earlier + [ids[n]];
      CleanCounts(cases[..n], earlier, labels);
      assert cases[n].id == Some(ids[n]) && ids[n] in ids;
      assert Consistent(c, labels);
      LeadInGrows(earlier, ids[n], labels);
    } else {
      assert LeadIn(ids, labels) == {};
    }
  }

  /** With a sound set and a clean report, every prompt counts, a role match is scored for
    * exactly the delegations planned, and delegations can be missed exactly where they
    * were wanted. */
  lemma CleanMeasuresAgree(prompts: seq<Prompt>, cases: seq<Case>, ids: seq<string>, labels: Labels, reported: bool, rule: Rule)
    requires Sound(prompts, ids, labels) && Clean(cases, ids, labels)
    ensures var m := MeasuresOf(Count(cases, labels), LeadCases(labels), reported, rule);
            && m.cases == EXPECTED_PROMPTS
            && m.roleMatch.denominator == m.delegationRecall.numerator
            && m.missedDelegation.denominator == m.delegationRecall.denominator
            && m.missedDelegation.numerator + m.delegationRecall.numerator == m.delegationRecall.denominator
  {
    CleanCounts(cases, ids, labels);
    MeasuresAreOrdered(cases, labels);
    assert LeadIn(ids, labels) == set id | id in labels.delegate && !labels.delegate[id];
  }

  /** A delegation planned without roles, for which an empty label asks. */
  predicate EmptyMatch(c: Case, labels: Labels) {
    Known(c, labels) && Planned(c) && Delegated(c, labels) && c.roles == Strings([]) && [] in RoleLabels(labels, c.id.value)
  }

  lemma {:induction false} OnlyEmptyIsEmpty(w: seq<string>)
    ensures ToSet(w) == {} <==> w == []
  {
    if w != [] {
      assert w[0] in ToSet(w);
    }
  }

  /** On one consistent case the two ways differ exactly on an empty match. */
  lemma OneRoleMatch(c: Case, labels: Labels)
    requires Known(c, labels) && Consistent(c, labels) && c.roles.Strings?
    ensures var wanted := RoleLabels(labels, c.id.value);
            var exact, matched := Delegated(c, labels) && Planned(c) && Exact(wanted, Got(c)), c.rolesOk == Bool(true);
            (exact ==> matched) && (exact != matched <==> EmptyMatch(c, labels))
  {
    var wanted := RoleLabels(labels, c.id.value);
    if Delegated(c, labels) && Planned(c) {
      forall w | w in wanted
        ensures ToSet(w) == {} <==> w == []
      {
        OnlyEmptyIsEmpty(w);
      }
      OnlyEmptyIsEmpty(c.roles.items);
      if Matches(wanted, Got(c)) && !Exact(wanted, Got(c)) {
        var w :| w in wanted && ToSet(w) == Got(c);
        assert w == [];
      }
    }
  }

  /** On a clean report that lists its roles the two ways of counting role matches agree
    * exactly when no delegation was planned without roles for which an empty role label
    * asks: the harness counts that as a match, and the guard does not. */
  lemma {:induction false} RoleMatchesAgree(cases: seq<Case>, ids: seq<string>, labels: Labels)
    requires Clean(cases, ids, labels)
    requires forall c | c in cases && Known(c, labels) :: c.roles.Strings?
    ensures Count(cases, labels).exact <= Count(cases, labels).matched
    ensures Count(cases, labels).exact == Count(cases, labels).matched <==> forall c | c in cases :: !EmptyMatch(c, labels)
  {
    if cases != [] {
      var n := |cases| - 1;
      assert Clean(cases[..n], ids[..n], labels);
      assert cases == cases[..n] + [cases[n]];
      RoleMatchesAgree(cases[..n], ids[..n], labels);
      if Known(cases[n], labels) {
        OneRoleMatch(cases[n], labels);
      }
    }
  }

  /** The two ways do differ: one clean case, in which a delegation is planned without
    * roles and the only role label is empty. */
  lemma EmptyLabelMatchesForOne()
    ensures var labels := Labels(map["sel-001" := true], map["sel-001" := [[]]]);
            var cases := [Case(Some("sel-001"), Bool(true), Bool(true), Bool(true), Strings([]))];
            && Clean(cases, ["sel-001"], labels)
            && Count(cases, labels).exact == 0 && Count(cases, labels).matched == 1
  {
    var labels := Labels(map["sel-001" := true], map["sel-001" := [[]]]);
    var c := Case(Some("sel-001"), Bool(true), Bool(true), Bool(true), Strings([]));
    var none: seq<string> := [];
    assert Matches([none], ToSet(none)) by {
      assert none in [none];
    }
    assert Consistent(c, labels);
    assert [c][..0] == [] && Count([], labels) == Tally(0, 0, 0, 0, 0, 0, 0, 0, 0, 0, 0.0);
    assert !Exact([none], Got(c));
  }

  /** A prompt set has one reading. */
  lemma OneLabeling(prompts: seq<Prompt>, ids: seq<string>, labels: Labels, ids': seq<string>, labels': Labels)
    requires Sound(prompts, ids, labels) && Sound(prompts, ids', labels')
    ensures ids == ids' && labels == labels'
  {
    assert forall i | 0 <= i < |ids| :: Some(ids[i]) == prompts[i].id == Some(ids'[i]);
    forall i | 0 <= i < |ids|
      ensures labels.delegate[ids[i]] == labels'.delegate[ids[i]] && labels.roles[ids[i]] == labels'.roles[ids[i]]
    {
      assert Some(labels.delegate[ids[i]]) == prompts[i].delegate == Some(labels'.delegate[ids'[i]]);
      assert Some(labels.roles[ids[i]]) == prompts[i].roles == Some(labels'.roles[ids'[i]]);
    }
    SameMap(ids, labels.delegate, labels'.delegate);
    SameMap(ids, labels.roles, labels'.roles);
  }

  lemma SameMap<T>(ids: seq<string>, a: map<string, T>, b: map<string, T>)
    requires forall i | 0 <= i < |ids| :: ids[i] in a && ids[i] in b && a[ids[i]] == b[ids[i]]
    requires forall id | id in a || id in b :: id in ids
    ensures a == b
  {
  }
}
