// The coach: it turns a score into at most a few exercises, and must do so whatever an
// outside provider answers.  A provider only ever chooses among aliases and exercises;
// every range and frequency comes from the score.
module Coach {
  import opened Matching
  import opened Options
  import opened ScoreContracts
  import ScorePhrase

  // ----- Policy -------------------------------------------------------------------------

  datatype Exercise = Loop | Slow | ReferenceTone | Text

  datatype Policy = Policy(
    maxActions: nat, slowSpeed: real, loopRepetitions: nat, toneMillis: nat, toneMin: real, toneMax: real,
    allowed: set<Exercise>, priority: seq<Kind>)

  const DEFAULT_POLICY: Policy := Policy(2, 0.75, 3, 800, 55.0, 1_100.0,
    {Loop, ReferenceTone, Slow, Text},
    [OctaveError, Missed, Sharp, Flat, Early, Late, Short, Long, Unstable])

  // A fingerprint identifies the policy it was taken from, and one fingerprint is approved.
  predicate Approved(policy: Policy) {
    policy == DEFAULT_POLICY
  }

  predicate Ranked(policy: Policy, kind: Kind) {
    kind in policy.priority
  }

  ghost predicate Safe(policy: Policy) {
    && 1 <= policy.maxActions <= 8 && 0.5 <= policy.slowSpeed <= 1.0 && 1 <= policy.loopRepetitions <= 8
    && 100 <= policy.toneMillis <= 5_000 && 55.0 <= policy.toneMin < policy.toneMax <= 1_100.0
    && policy.allowed == {Loop, ReferenceTone, Slow, Text}
    && (forall kind: Kind :: Ranked(policy, kind))
  }

  lemma ApprovedIsSafe(policy: Policy)
    requires Approved(policy)
    ensures Safe(policy)
  {
    var p := policy.priority;
    forall kind: Kind ensures Ranked(policy, kind) {
      match kind
      case OctaveError => assert p[0] == kind;
      case Missed => assert p[1] == kind;
      case Sharp => assert p[2] == kind;
      case Flat => assert p[3] == kind;
      case Early => assert p[4] == kind;
      case Late => assert p[5] == kind;
      case Short => assert p[6] == kind;
      case Long => assert p[7] == kind;
      case Unstable => assert p[8] == kind;
    }
  }

  // ----- What is coached ----------------------------------------------------------------

  // A correction with its identifier, whose text order is its numeric order.
  datatype Finding = Finding(event: Correction, id: nat)

  datatype Locale = Chinese | English

  datatype Job = Job(score: Score, ids: seq<nat>, locale: Locale, producedAt: int)

  predicate ValidJob(job: Job) {
    ValidScore(job.score) && |job.ids| == |job.score.corrections| && job.producedAt >= job.score.producedAt
  }

  function Findings(job: Job): (s: seq<Finding>)
    requires ValidJob(job)
    ensures |s| == |job.score.corrections|
    ensures forall i :: 0 <= i < |s| ==> s[i].event == job.score.corrections[i] && s[i].id == job.ids[i]
  {
    seq(|job.ids|, i requires 0 <= i < |job.ids| => Finding(job.score.corrections[i], job.ids[i]))
  }

  // ----- Priority -----------------------------------------------------------------------

  datatype SortKey = SortKey(severity: real, weight: real, priority: int, start: int, id: nat)

  function Position(kinds: seq<Kind>, kind: Kind): (i: nat)
    requires kind in kinds
    ensures i < |kinds| && kinds[i] == kind && kind !in kinds[..i]
  {
    if kinds[0] == kind then 0 else 1 + Position(kinds[1..], kind)
  }

  function KeyOf(policy: Policy, f: Finding): SortKey
    requires Ranked(policy, f.event.kind)
  {
    var rank: int := |policy.priority| - Position(policy.priority, f.event.kind);
    SortKey(-f.event.severity, -(f.event.confidence * f.event.reference), -rank, f.event.start, f.id)
  }

  predicate AtMost(a: SortKey, b: SortKey) {
    if a.severity != b.severity then a.severity < b.severity
    else if a.weight != b.weight then a.weight < b.weight
    else if a.priority != b.priority then a.priority < b.priority
    else if a.start != b.start then a.start < b.start
    else a.id <= b.id
  }

  ghost predicate Precedes(policy: Policy, a: Finding, b: Finding)
    requires Safe(policy)
  {
    AtMost(KeyOf(policy, a), KeyOf(policy, b))
  }

  // A finding that is no later in the input goes before its equals, as a stable sort has it.
  function Placed(policy: Policy, f: Finding, s: seq<Finding>): (r: seq<Finding>)
    requires Ranked(policy, f.event.kind) && forall i :: 0 <= i < |s| ==> Ranked(policy, s[i].event.kind)
    ensures multiset(r) == multiset{f} + multiset(s)
    ensures forall i :: 0 <= i < |r| ==> Ranked(policy, r[i].event.kind)
  {
    if s == [] || AtMost(KeyOf(policy, f), KeyOf(policy, s[0])) then
      assert [f] + s == [f] + s;
      [f] + s
    else
      assert s == [s[0]] + s[1..];
      [s[0]] + Placed(policy, f, s[1..])
  }

  function Ordered(policy: Policy, s: seq<Finding>): (r: seq<Finding>)
    requires forall i :: 0 <= i < |s| ==> Ranked(policy, s[i].event.kind)
    ensures multiset(r) == multiset(s) && |r| == |s|
    ensures forall i :: 0 <= i < |r| ==> Ranked(policy, r[i].event.kind)
  {
    if s == [] then []
    else
      assert s == [s[0]] + s[1..];
      var r := Placed(policy, s[0], Ordered(policy, s[1..]));
      assert |multiset(r)| == |r| && |multiset(s)| == |s|;
      r
  }

  ghost predicate InOrder(policy: Policy, s: seq<Finding>)
    requires Safe(policy)
  {
    forall i, j :: 0 <= i < j < |s| ==> Precedes(policy, s[i], s[j])
  }

  lemma PrecedesTransitive(policy: Policy, a: Finding, b: Finding, c: Finding)
    requires Safe(policy) && Precedes(policy, a, b) && Precedes(policy, b, c)
    ensures Precedes(policy, a, c)
  {
    hide KeyOf, Safe;
  }

  lemma {:induction false} PlacedInOrder(policy: Policy, f: Finding, s: seq<Finding>)
    requires Safe(policy) && InOrder(policy, s)
    ensures InOrder(policy, Placed(policy, f, s))
  {
    hide KeyOf, AtMost;
    if s == [] {
    } else if AtMost(KeyOf(policy, f), KeyOf(policy, s[0])) {
      var r := [f] + s;
      assert Placed(policy, f, s) == r;
      assert Precedes(policy, f, s[0]);
      forall j | 0 < j < |r| ensures Precedes(policy, f, r[j]) {
        if j > 1 {
          assert Precedes(policy, s[0], s[j - 1]);
          PrecedesTransitive(policy, f, s[0], s[j - 1]);
        }
      }
      forall i, j | 0 <= i < j < |r| ensures Precedes(policy, r[i], r[j]) {
        if i > 0 { assert Precedes(policy, s[i - 1], s[j - 1]); }
      }
    } else {
      var rest := Placed(policy, f, s[1..]);
      var r := [s[0]] + rest;
      assert Placed(policy, f, s) == r;
      forall i, j | 0 <= i < j < |s[1..]| ensures Precedes(policy, s[1..][i], s[1..][j]) {
        assert Precedes(policy, s[i + 1], s[j + 1]);
      }
      PlacedInOrder(policy, f, s[1..]);
      KeysComparable(policy, s[0], f);
      forall j | 0 <= j < |rest| ensures Precedes(policy, s[0], rest[j]) {
        assert rest[j] in multiset(rest);
        if rest[j] != f {
          assert rest[j] in s[1..];
          var k :| 0 <= k < |s[1..]| && s[1..][k] == rest[j];
          assert Precedes(policy, s[0], s[k + 1]);
        }
      }
      forall i, j | 0 <= i < j < |r| ensures Precedes(policy, r[i], r[j]) {
        if i > 0 { assert Precedes(policy, rest[i - 1], rest[j - 1]); }
      }
    }
  }

  lemma KeysComparable(policy: Policy, a: Finding, b: Finding)
    requires Safe(policy)
    ensures AtMost(KeyOf(policy, a), KeyOf(policy, b)) || AtMost(KeyOf(policy, b), KeyOf(policy, a))
    ensures AtMost(KeyOf(policy, a), KeyOf(policy, b)) && AtMost(KeyOf(policy, b), KeyOf(policy, a)) ==> a.id == b.id
  {
  }

  lemma {:induction false} OrderedInOrder(policy: Policy, s: seq<Finding>)
    requires Safe(policy)
    ensures InOrder(policy, Ordered(policy, s))
  {
    hide KeyOf, AtMost, Placed;
    if s != [] {
      OrderedInOrder(policy, s[1..]);
      PlacedInOrder(policy, s[0], Ordered(policy, s[1..]));
    }
  }

  function Prioritized(policy: Policy, s: seq<Finding>): (r: seq<Finding>)
    requires forall i :: 0 <= i < |s| ==> Ranked(policy, s[i].event.kind)
    ensures |r| == Min(|s|, policy.maxActions)
  {
    Ordered(policy, s)[..Min(|s|, policy.maxActions)]
  }

  // The selection is part of the score's corrections, in order, and nothing left out
  // would have gone strictly before anything selected.
  lemma SelectionIsTop(policy: Policy, s: seq<Finding>)
    requires Safe(policy)
    ensures multiset(Prioritized(policy, s)) <= multiset(s)
    ensures InOrder(policy, Prioritized(policy, s))
    ensures forall f, g :: f in Prioritized(policy, s) && g in multiset(s) - multiset(Prioritized(policy, s))
              ==> Precedes(policy, f, g)
  {
    hide Precedes, Ordered;
    OrderedInOrder(policy, s);
    var all := Ordered(policy, s);
    var r := Prioritized(policy, s);
    var rest := all[|r|..];
    assert all == r + rest;
    assert multiset(all) == multiset(r) + multiset(rest);
    forall f, g | f in r && g in multiset(s) - multiset(r) ensures Precedes(policy, f, g) {
      assert g in multiset(rest);
      var i :| 0 <= i < |r| && r[i] == f;
      var j :| 0 <= j < |rest| && rest[j] == g;
      assert all[i] == f && all[|r| + j] == g;
    }
  }

  // Identifiers break every tie, so the order of the corrections in a score is irrelevant.
  lemma SelectionIgnoresOrder(policy: Policy, s: seq<Finding>, t: seq<Finding>)
    requires Safe(policy)
    requires multiset(s) == multiset(t)
    requires forall i, j :: 0 <= i < j < |s| ==> s[i].id != s[j].id
    ensures Prioritized(policy, s) == Prioritized(policy, t)
  {
    hide Ordered, KeyOf, AtMost;
    OrderedInOrder(policy, s);
    OrderedInOrder(policy, t);
    forall f, g | f in multiset(s) && g in multiset(s) && f.id == g.id ensures f == g {
      var i :| 0 <= i < |s| && s[i] == f;
      var j :| 0 <= j < |s| && s[j] == g;
    }
    OrdersAgree(policy, Ordered(policy, s), Ordered(policy, t));
    assert |s| == |multiset(s)| == |multiset(t)| == |t|;
  }

  // The first of an ordered sequence goes before every element.
  lemma HeadIsLeast(policy: Policy, s: seq<Finding>, g: Finding)
    requires Safe(policy) && InOrder(policy, s) && s != [] && g in s && g != s[0]
    ensures Precedes(policy, s[0], g)
  {
    hide Precedes, Safe;
    var i :| 0 <= i < |s| && s[i] == g;
    assert Precedes(policy, s[0], s[i]);
  }

  lemma SameHead(policy: Policy, a: seq<Finding>, b: seq<Finding>)
    requires Safe(policy) && InOrder(policy, a) && InOrder(policy, b)
    requires a != [] && b != [] && multiset(a) == multiset(b)
    requires forall f, g :: f in multiset(a) && g in multiset(a) && f.id == g.id ==> f == g
    ensures a[0] == b[0]
  {
    hide KeyOf, AtMost, Safe, InOrder;
    var f, g := a[0], b[0];
    assert f in multiset(a) && f in multiset(b) && g in multiset(b) && g in multiset(a);
    if f != g {
      HeadIsLeast(policy, a, g);
      HeadIsLeast(policy, b, f);
      KeysComparable(policy, f, g);
    }
  }

  lemma {:induction false} OrdersAgree(policy: Policy, a: seq<Finding>, b: seq<Finding>)
    requires Safe(policy) && InOrder(policy, a) && InOrder(policy, b)
    requires multiset(a) == multiset(b)
    requires forall f, g :: f in multiset(a) && g in multiset(a) && f.id == g.id ==> f == g
    ensures a == b
  {
    hide Precedes, Safe, InOrder;
    SameLength(a, b);
    if a != [] {
      SameHead(policy, a, b);
      TailMembers(a);
      TailMembers(b);
      TailInOrder(policy, a);
      TailInOrder(policy, b);
      OrdersAgree(policy, a[1..], b[1..]);
      assert a == [a[0]] + a[1..] && b == [b[0]] + b[1..];
    }
  }

  lemma SameLength(a: seq<Finding>, b: seq<Finding>)
    requires multiset(a) == multiset(b)
    ensures |a| == |b|
  {
    assert |a| == |multiset(a)| == |multiset(b)| == |b|;
  }

  lemma TailMembers(s: seq<Finding>)
    requires s != []
    ensures multiset(s[1..]) == multiset(s) - multiset{s[0]}
    ensures forall f :: f in multiset(s[1..]) ==> f in multiset(s)
  {
    assert s == [s[0]] + s[1..];
  }

  lemma TailInOrder(policy: Policy, s: seq<Finding>)
    requires Safe(policy) && InOrder(policy, s) && s != []
    ensures InOrder(policy, s[1..])
  {
    hide Precedes, Safe;
    forall i, j | 0 <= i < j < |s[1..]| ensures Precedes(policy, s[1..][i], s[1..][j]) {
      assert Precedes(policy, s[i + 1], s[j + 1]);
    }
  }

  // ----- What a provider is shown and may answer ----------------------------------------

  datatype State = Corrections | Abstained | Clear

  datatype PromptMetric = PromptMetric(value: real, unit: MeasureUnit, confidence: real)

  datatype Item = Item(
    alias: nat, kind: Kind, severity: real, confidence: real, reference: real,
    observed: Option<PromptMetric>, expected: Option<PromptMetric>)

  datatype Request = Request(
    state: State, locale: Locale, reason: Option<Reason>, allowed: set<Exercise>, maxActions: nat,
    toneMin: real, toneMax: real, corrections: seq<Item>)

  predicate ValidRequest(r: Request) {
    && 1 <= r.maxActions <= 8 && |r.corrections| <= 8
    && 55.0 <= r.toneMin < r.toneMax <= 1_100.0
    && (forall i :: 0 <= i < |r.corrections| ==> 1 <= r.corrections[i].alias <= 99)
    && (forall i, j :: 0 <= i < j < |r.corrections| ==> r.corrections[i].alias < r.corrections[j].alias)
    && (r.state.Corrections? <==> r.corrections != [])
    && (r.state.Abstained? <==> r.reason.Some?)
  }

  // An alias "c1" to "c99" is its number.
  datatype Draft = Draft(exercise: Exercise, alias: Option<nat>)

  predicate ValidDraft(d: Draft) {
    (d.alias.Some? ==> 1 <= d.alias.value <= 99) && (d.alias.None? ==> d.exercise.Text?)
  }

  predicate ValidPlan(plan: seq<Draft>) {
    && 1 <= |plan| <= 8
    && (forall i :: 0 <= i < |plan| ==> ValidDraft(plan[i]))
    && (forall i, j :: 0 <= i < j < |plan| ==> plan[i] != plan[j])
    && (forall i, j :: 0 <= i < j < |plan| && plan[i].alias.Some? ==> plan[i].alias != plan[j].alias)
  }

  datatype Reply = Raised | Proposed(plan: seq<Draft>)

  // A provider is a name, if it has one at all, and whatever it answers.
  datatype Provider = Provider(name: Option<string>, propose: Request -> Reply)

  predicate LowerOrDigit(c: char) {
    'a' <= c <= 'z' || '0' <= c <= '9'
  }

  predicate ValidName(name: Option<string>) {
    && name.Some? && 2 <= |name.value| <= 80 && LowerOrDigit(name.value[0])
    && forall i :: 1 <= i < |name.value| ==> LowerOrDigit(name.value[i]) || name.value[i] in {'.', '_', '-'}
  }

  // ----- The request --------------------------------------------------------------------

  function Prompt(m: Option<Metric>): Option<PromptMetric> {
    if m.Some? then Some(PromptMetric(m.value.value, m.value.unit, m.value.confidence)) else None
  }

  function StateOf(job: Job, selected: seq<Finding>): State {
    if job.score.abstained.Some? then Abstained else if selected != [] then Corrections else Clear
  }

  function ItemOf(alias: nat, f: Finding): Item {
    Item(alias, f.event.kind, f.event.severity, f.event.confidence, f.event.reference,
         Prompt(f.event.observed), Prompt(f.event.expected))
  }

  function RequestOf(job: Job, policy: Policy, selected: seq<Finding>): Request {
    var state := StateOf(job, selected);
    Request(state, job.locale, if state.Abstained? then job.score.abstained else None, policy.allowed,
            policy.maxActions, policy.toneMin, policy.toneMax,
            if state.Corrections? then
              seq(|selected|, i requires 0 <= i < |selected| => ItemOf(i + 1, selected[i])) else [])
  }

  // Aliases count from one; outside correction coaching none is known.
  function Numbered(selected: seq<Finding>): (m: map<nat, Finding>)
    ensures forall a: nat :: a in m <==> 1 <= a <= |selected|
    ensures forall a: nat :: a in m ==> m[a] == selected[a - 1]
  {
    if selected == [] then map[]
    else
      var last := |selected| - 1;
      Numbered(selected[..last])[|selected| := selected[last]]
  }

  function AliasesOf(job: Job, selected: seq<Finding>): map<nat, Finding> {
    if StateOf(job, selected).Corrections? then Numbered(selected) else map[]
  }

  // ----- The rule provider --------------------------------------------------------------

  predicate TonePossible(toneMin: real, toneMax: real, unit: MeasureUnit, value: real) {
    unit.Hertz? && toneMin <= value <= toneMax
  }

  function DraftFor(request: Request, item: Item): Draft {
    var exercise :=
      if item.kind.Missed? && item.expected.Some?
         && TonePossible(request.toneMin, request.toneMax, item.expected.value.unit, item.expected.value.value) then
        ReferenceTone
      else if item.kind.Short? || item.kind.Long? then Loop
      else Slow;
    Draft(exercise, Some(item.alias))
  }

  function RulePlan(request: Request): seq<Draft> {
    if !request.state.Corrections? then [Draft(Text, None)]
    else
      seq(Min(|request.corrections|, request.maxActions),
          i requires 0 <= i < |request.corrections| => DraftFor(request, request.corrections[i]))
  }

  const RULES: Provider := Provider(Some("rules.v1"), request => Proposed(RulePlan(request)))

  method ProposeRules(request: Request) returns (plan: seq<Draft>)
    ensures plan == RulePlan(request)
  {
    if !request.state.Corrections? {
      return [Draft(Text, None)];
    }
    plan := [];
    var shown := request.corrections[..Min(|request.corrections|, request.maxActions)];
    for i := 0 to |shown|
      invariant |plan| == i
      invariant forall k :: 0 <= k < i ==> plan[k] == DraftFor(request, request.corrections[k])
    {
      var correction := shown[i];
      var exercise: Exercise;
      if correction.kind.Missed? && correction.expected.Some? && correction.expected.value.unit.Hertz?
         && request.toneMin <= correction.expected.value.value <= request.toneMax {
        exercise := ReferenceTone;
      } else if correction.kind.Short? || correction.kind.Long? {
        exercise := Loop;
      } else {
        exercise := Slow;
      }
      plan := plan + [Draft(exercise, Some(correction.alias))];
    }
  }

  // ----- Checking a plan against the score ----------------------------------------------

  predicate ToneBacked(policy: Policy, f: Finding) {
    && f.event.expected.Some?
    && TonePossible(policy.toneMin, policy.toneMax, f.event.expected.value.unit, f.event.expected.value.value)
  }

  predicate Grounded(policy: Policy, aliases: map<nat, Finding>, d: Draft) {
    && d.alias.Some? && d.alias.value in aliases
    && (d.exercise.ReferenceTone? ==> ToneBacked(policy, aliases[d.alias.value]))
  }

  predicate Admitted(policy: Policy, request: Request, aliases: map<nat, Finding>, plan: seq<Draft>) {
    && |plan| <= request.maxActions
    && (forall i :: 0 <= i < |plan| ==> plan[i].exercise in request.allowed)
    && if request.state.Corrections? then forall i :: 0 <= i < |plan| ==> Grounded(policy, aliases, plan[i])
       else plan == [Draft(Text, None)]
  }

  method ValidatePlan(policy: Policy, request: Request, aliases: map<nat, Finding>, plan: seq<Draft>) returns (ok: bool)
    ensures ok <==> Admitted(policy, request, aliases, plan)
  {
    if |plan| > request.maxActions {
      return false;
    }
    for i := 0 to |plan|
      invariant forall k :: 0 <= k < i ==> plan[k].exercise in request.allowed
    {
      if plan[i].exercise !in request.allowed {
        return false;
      }
    }
    if !request.state.Corrections? {
      return |plan| == 1 && plan[0] == Draft(Text, None);
    }
    for i := 0 to |plan|
      invariant forall k :: 0 <= k < i ==> Grounded(policy, aliases, plan[k])
    {
      var d := plan[i];
      if d.alias.None? || d.alias.value !in aliases {
        return false;
      }
      if d.exercise.ReferenceTone? {
        var reference := aliases[d.alias.value].event.expected;
        if reference.None? || !reference.value.unit.Hertz?
            || !(policy.toneMin <= reference.value.value <= policy.toneMax) {
          return false;
        }
      }
    }
    return true;
  }

  // ----- Building actions ---------------------------------------------------------------

  datatype Arguments =
    | NoArguments
    | LoopArguments(start: int, end: int, repetitions: nat)
    | SlowArguments(start: int, end: int, speed: real)
    | ToneArguments(f0: real, millis: nat)

  // An action identifier is derived from these, and nothing else has it.
  datatype Identity = Identity(
    score: Score, provider: string, locale: Locale, exercise: Exercise, sources: seq<nat>, arguments: Arguments,
    producedAt: int, ordinal: nat)

  datatype Action = Action(
    tenant: nat, session: nat, phrase: nat, identity: Identity, sources: seq<nat>, exercise: Exercise,
    arguments: Arguments, provider: string, scoreVersion: nat, producedAt: int)

  predicate ValidAction(a: Action) {
    && |a.sources| <= 100 && (forall i, j :: 0 <= i < j < |a.sources| ==> a.sources[i] < a.sources[j])
    && 1 <= |a.provider| <= 80
    && match a.exercise
       case Text => a.arguments.NoArguments?
       case Loop =>
         a.arguments.LoopArguments? && 0 <= a.arguments.start < a.arguments.end && 1 <= a.arguments.repetitions <= 8
       case Slow =>
         a.arguments.SlowArguments? && 0 <= a.arguments.start < a.arguments.end && 0.5 <= a.arguments.speed <= 1.0
       case ReferenceTone =>
         a.arguments.ToneArguments? && 55.0 <= a.arguments.f0 <= 1_100.0 && 100 <= a.arguments.millis <= 5_000
  }

  function ArgumentsFor(policy: Policy, exercise: Exercise, finding: Option<Finding>): Option<Arguments> {
    match exercise
    case Text => Some(NoArguments)
    case Loop =>
      if finding.None? then None
      else Some(LoopArguments(finding.value.event.start, finding.value.event.end, policy.loopRepetitions))
    case Slow =>
      if finding.None? then None
      else Some(SlowArguments(finding.value.event.start, finding.value.event.end, policy.slowSpeed))
    case ReferenceTone =>
      if finding.None? || finding.value.event.expected.None? || !finding.value.event.expected.value.unit.Hertz? then
        None
      else Some(ToneArguments(finding.value.event.expected.value.value, policy.toneMillis))
  }

  // One action, or an exception: no evidence for the exercise or for the message, an alias
  // that is not known, or an action outside its contract.
  function ActionFor(
    policy: Policy, job: Job, state: State, aliases: map<nat, Finding>, provider: string, d: Draft, ordinal: nat
  ): Option<Action> {
    if d.alias.Some? && d.alias.value !in aliases then None
    else
      var finding := if d.alias.Some? then Some(aliases[d.alias.value]) else None;
      var arguments := ArgumentsFor(policy, d.exercise, finding);
      if arguments.None? || (state.Corrections? && finding.None?) then None
      else
        var sources := if finding.Some? then [finding.value.id] else [];
        var identity := Identity(job.score, provider, job.locale, d.exercise, sources, arguments.value,
                                 job.producedAt, ordinal);
        var action := Action(job.score.tenant, job.score.session, job.score.phrase, identity, sources, d.exercise,
                             arguments.value, provider, job.score.scoreVersion, job.producedAt);
        if ValidAction(action) then Some(action) else None
  }

  // The actions of a plan's first drafts; one failure fails them all.
  function Built(
    policy: Policy, job: Job, state: State, aliases: map<nat, Finding>, provider: string, plan: seq<Draft>
  ): (r: Option<seq<Action>>)
    ensures r.Some? <==> forall i :: 0 <= i < |plan| ==>
              ActionFor(policy, job, state, aliases, provider, plan[i], i).Some?
    ensures r.Some? ==> |r.value| == |plan|
    ensures r.Some? ==> forall i :: 0 <= i < |plan| ==>
              Some(r.value[i]) == ActionFor(policy, job, state, aliases, provider, plan[i], i)
  {
    hide ActionFor;
    if plan == [] then Some([])
    else
      var last := |plan| - 1;
      var before := Built(policy, job, state, aliases, provider, plan[..last]);
      var action := ActionFor(policy, job, state, aliases, provider, plan[last], last);
      if before.Some? && action.Some? then Some(before.value + [action.value]) else None
  }

  method BuildActions(
    policy: Policy, job: Job, state: State, aliases: map<nat, Finding>, provider: string, plan: seq<Draft>
  ) returns (r: Option<seq<Action>>)
    ensures r == Built(policy, job, state, aliases, provider, plan)
  {
    hide ActionFor, Built;
    var built: seq<Action> := [];
    for i := 0 to |plan|
      invariant |built| == i
      invariant forall k :: 0 <= k < i ==>
                  ActionFor(policy, job, state, aliases, provider, plan[k], k) == Some(built[k])
    {
      var action := ActionFor(policy, job, state, aliases, provider, plan[i], i);
      if action.None? {
        return None;
      }
      built := built + [action.value];
    }
    assert Built(policy, job, state, aliases, provider, plan).value == built;
    return Some(built);
  }

  // ----- Running a provider, with a fallback --------------------------------------------

  // None stands for any exception on the way.
  function Run(policy: Policy, job: Job, request: Request, aliases: map<nat, Finding>,
               provider: Provider): Option<seq<Action>>
  {
    if !ValidName(provider.name) then None
    else
      match provider.propose(request)
      case Raised => None
      case Proposed(plan) =>
        if !ValidPlan(plan) || !Admitted(policy, request, aliases, plan) then None
        else Built(policy, job, request.state, aliases, provider.name.value, plan)
  }

  datatype Outcome = Outcome(actions: seq<Action>, provider: string, usedFallback: bool, source: Score)

  // Unhandled stands for an exception that is not the service's own error.
  datatype Answer = Coached(outcome: Outcome) | PolicyRejected | FallbackFailed | Unhandled

  function Delivered(actions: seq<Action>, provider: Provider, usedFallback: bool, job: Job): Answer {
    if !ValidName(provider.name) || !(1 <= |actions| <= 8) then Unhandled
    else Coached(Outcome(actions, provider.name.value, usedFallback, job.score))
  }

  function Coaching(policy: Policy, job: Job, primary: Option<Provider>, fallback: Provider): Answer
    requires ValidJob(job)
  {
    if !Approved(policy) then PolicyRejected
    else
      ApprovedIsSafe(policy);
      var selected := Prioritized(policy, Findings(job));
      var request := RequestOf(job, policy, selected);
      var aliases := AliasesOf(job, selected);
      if !ValidRequest(request) then Unhandled
      else
        var asked := primary.Some? && request.state.Corrections?;
        var first := if asked then Run(policy, job, request, aliases, primary.value) else None;
        var second := Run(policy, job, request, aliases, fallback);
        if first.Some? then Delivered(first.value, primary.value, false, job)
        else if second.None? then FallbackFailed
        else Delivered(second.value, fallback, asked, job)
  }

  method RunProvider(policy: Policy, job: Job, request: Request, aliases: map<nat, Finding>, provider: Provider)
    returns (r: Option<seq<Action>>)
    ensures r == Run(policy, job, request, aliases, provider)
  {
    if !ValidName(provider.name) {
      return None;
    }
    var reply := provider.propose(request);
    if reply.Raised? || !ValidPlan(reply.plan) {
      return None;
    }
    var admitted := ValidatePlan(policy, request, aliases, reply.plan);
    if !admitted {
      return None;
    }
    r := BuildActions(policy, job, request.state, aliases, provider.name.value, reply.plan);
  }

  method Coach(policy: Policy, job: Job, primary: Option<Provider>, fallback: Provider) returns (r: Answer)
    requires ValidJob(job)
    ensures r == Coaching(policy, job, primary, fallback)
  {
    hide Run, Safe, Prioritized;
    if !Approved(policy) {
      return PolicyRejected;
    }
    ApprovedIsSafe(policy);
    var selected := Prioritized(policy, Findings(job));
    var request := RequestOf(job, policy, selected);
    var aliases := AliasesOf(job, selected);
    if !ValidRequest(request) {
      return Unhandled;
    }
    var usedFallback := false;
    if primary.Some? && request.state.Corrections? {
      var actions := RunProvider(policy, job, request, aliases, primary.value);
      if actions.Some? {
        return Delivered(actions.value, primary.value, false, job);
      }
      usedFallback := true;
    }
    var actions := RunProvider(policy, job, request, aliases, fallback);
    if actions.None? {
      return FallbackFailed;
    }
    return Delivered(actions.value, fallback, usedFallback, job);
  }

  // ----- What holds whatever a provider does --------------------------------------------

  // The action tells the singer only what this finding says.
  predicate Tells(policy: Policy, a: Action, f: Finding) {
    && a.sources == [f.id]
    && match a.exercise
       case Text => a.arguments == NoArguments
       case Loop => a.arguments == LoopArguments(f.event.start, f.event.end, policy.loopRepetitions)
       case Slow => a.arguments == SlowArguments(f.event.start, f.event.end, policy.slowSpeed)
       case ReferenceTone =>
         ToneBacked(policy, f) && a.arguments == ToneArguments(f.event.expected.value.value, policy.toneMillis)
  }

  predicate Belongs(a: Action, job: Job, provider: string) {
    && ValidAction(a) && a.tenant == job.score.tenant && a.session == job.score.session && a.phrase == job.score.phrase
    && a.provider == provider && a.scoreVersion == job.score.scoreVersion && a.producedAt == job.producedAt
  }

  // Each action tells of a selected finding of its own, named by its place.
  predicate Cites(policy: Policy, actions: seq<Action>, selected: seq<Finding>, cites: seq<nat>) {
    && |cites| == |actions|
    && (forall i :: 0 <= i < |cites| ==> cites[i] < |selected|)
    && (forall i, j :: 0 <= i < j < |cites| ==> cites[i] != cites[j])
    && forall i :: 0 <= i < |actions| ==> Tells(policy, actions[i], selected[cites[i]])
  }

  ghost predicate Faithful(policy: Policy, job: Job, selected: seq<Finding>, provider: string, actions: seq<Action>) {
    && 1 <= |actions| <= policy.maxActions
    && (forall i :: 0 <= i < |actions| ==> Belongs(actions[i], job, provider))
    && (forall i, j :: 0 <= i < j < |actions| ==> actions[i].identity != actions[j].identity)
    && if StateOf(job, selected).Corrections? then exists cites :: Cites(policy, actions, selected, cites)
       else
         |actions| == 1 && actions[0].exercise == Text && actions[0].sources == []
         && actions[0].arguments == NoArguments
  }

  lemma RequestIsValid(policy: Policy, job: Job, selected: seq<Finding>)
    requires Safe(policy) && ValidJob(job) && |selected| <= policy.maxActions
    requires job.score.abstained.Some? ==> selected == []
    ensures ValidRequest(RequestOf(job, policy, selected))
  {
  }

  // What becomes of one admitted draft.
  predicate Becomes(
    policy: Policy, job: Job, state: State, aliases: map<nat, Finding>, provider: string, d: Draft, i: nat,
        r: Option<Action>
  ) {
    && r.Some? && Belongs(r.value, job, provider) && r.value.identity.ordinal == i && r.value.exercise == d.exercise
    && if state.Corrections? then
         d.alias.Some? && d.alias.value in aliases && Tells(policy, r.value, aliases[d.alias.value])
       else r.value.sources == [] && r.value.arguments == NoArguments
  }

  lemma DraftBuilds(policy: Policy, job: Job, state: State, aliases: map<nat, Finding>, provider: string, d: Draft,
                    i: nat)
    requires Safe(policy) && ValidName(Some(provider))
    requires forall a :: a in aliases ==> ValidCorrection(aliases[a].event)
    requires if state.Corrections? then Grounded(policy, aliases, d) else d == Draft(Text, None)
    ensures Becomes(policy, job, state, aliases, provider, d, i, ActionFor(policy, job, state, aliases, provider, d, i))
  {
  }

  // Whatever was proposed: what is admitted builds, exercise by exercise.
  lemma AdmittedBuilds(policy: Policy, job: Job, selected: seq<Finding>, provider: string, plan: seq<Draft>)
    requires Safe(policy) && ValidJob(job) && ValidName(Some(provider)) && ValidPlan(plan)
    requires forall i :: 0 <= i < |selected| ==> ValidCorrection(selected[i].event)
    requires Admitted(policy, RequestOf(job, policy, selected), AliasesOf(job, selected), plan)
    ensures var r := Built(policy, job, StateOf(job, selected), AliasesOf(job, selected), provider, plan);
            && r.Some? && Faithful(policy, job, selected, provider, r.value)
            && forall i :: 0 <= i < |plan| ==> r.value[i].exercise == plan[i].exercise
  {
    hide ActionFor, Built, Safe, Becomes, Faithful, ValidPlan, Grounded, ValidName, ValidCorrection;
    var state := StateOf(job, selected);
    var aliases := AliasesOf(job, selected);
    forall i | 0 <= i < |plan|
      ensures Becomes(policy, job, state, aliases, provider, plan[i], i,
                      ActionFor(policy, job, state, aliases, provider, plan[i], i))
    {
      DraftBuilds(policy, job, state, aliases, provider, plan[i], i);
    }
    BecomeFaithful(policy, job, selected, provider, plan);
  }

  lemma BecomeFaithful(policy: Policy, job: Job, selected: seq<Finding>, provider: string, plan: seq<Draft>)
    requires ValidJob(job) && ValidPlan(plan) && |plan| <= policy.maxActions
    requires !StateOf(job, selected).Corrections? ==> plan == [Draft(Text, None)]
    requires var state, aliases := StateOf(job, selected), AliasesOf(job, selected);
             forall i :: 0 <= i < |plan| ==>
               Becomes(policy, job, state, aliases, provider, plan[i], i,
                       ActionFor(policy, job, state, aliases, provider, plan[i], i))
    ensures var r := Built(policy, job, StateOf(job, selected), AliasesOf(job, selected), provider, plan);
            && r.Some? && Faithful(policy, job, selected, provider, r.value)
            && forall i :: 0 <= i < |plan| ==> r.value[i].exercise == plan[i].exercise
  {
    hide ActionFor, Built, Belongs, Tells, ValidDraft, ValidJob, StateOf, Cites;
    var state := StateOf(job, selected);
    var aliases := AliasesOf(job, selected);
    var actions := Built(policy, job, state, aliases, provider, plan).value;
    if state.Corrections? {
      PlanCites(policy, job, selected, provider, plan, actions);
    }
  }

  lemma PlanCites(policy: Policy, job: Job, selected: seq<Finding>, provider: string, plan: seq<Draft>,
                  actions: seq<Action>)
    requires StateOf(job, selected).Corrections? && ValidPlan(plan) && |actions| == |plan|
    requires var state, aliases := StateOf(job, selected), AliasesOf(job, selected);
             forall i :: 0 <= i < |plan| ==>
               Becomes(policy, job, state, aliases, provider, plan[i], i, Some(actions[i]))
    ensures exists cites :: Cites(policy, actions, selected, cites)
  {
    hide Belongs, Tells, ValidDraft;
    assert forall i :: 0 <= i < |plan| ==> plan[i].alias.Some? && 1 <= plan[i].alias.value <= |selected|;
    var cites := seq(|plan|, i requires 0 <= i < |plan| => plan[i].alias.value - 1);
    assert Cites(policy, actions, selected, cites);
  }

  // The rules never propose anything that would be refused.
  lemma RulesAreAdmitted(policy: Policy, job: Job, selected: seq<Finding>)
    requires Safe(policy) && ValidJob(job) && |selected| <= policy.maxActions
    ensures var request := RequestOf(job, policy, selected);
            ValidPlan(RulePlan(request)) && Admitted(policy, request, AliasesOf(job, selected), RulePlan(request))
  {
    hide ValidJob, DraftFor, Grounded;
    var request := RequestOf(job, policy, selected);
    var plan := RulePlan(request);
    if request.state.Corrections? {
      assert |plan| == |selected|;
      forall i | 0 <= i < |plan|
        ensures Grounded(policy, AliasesOf(job, selected), plan[i]) && plan[i].alias == Some(i + 1)
                && plan[i].exercise in policy.allowed
      {
        RuleIsGrounded(policy, job, selected, i);
      }
    }
  }

  lemma RuleIsGrounded(policy: Policy, job: Job, selected: seq<Finding>, i: nat)
    requires Safe(policy) && StateOf(job, selected).Corrections? && i < |selected|
    ensures var d := DraftFor(RequestOf(job, policy, selected), ItemOf(i + 1, selected[i]));
            && Grounded(policy, AliasesOf(job, selected), d) && d.alias == Some(i + 1) && d.exercise in policy.allowed
  {
  }

  function Selection(policy: Policy, job: Job): (s: seq<Finding>)
    requires ValidJob(job) && Approved(policy)
    ensures |s| <= policy.maxActions
  {
    ApprovedIsSafe(policy);
    Prioritized(policy, Findings(job))
  }

  lemma SelectionIsFine(policy: Policy, job: Job)
    requires ValidJob(job) && Approved(policy)
    ensures var s := Selection(policy, job);
            && (forall i :: 0 <= i < |s| ==> ValidCorrection(s[i].event))
            && (job.score.abstained.Some? ==> s == [])
            && (s == [] <==> job.score.corrections == [])
  {
    hide Safe, ValidCorrection;
    ApprovedIsSafe(policy);
    SelectionIsTop(policy, Findings(job));
    var s := Selection(policy, job);
    forall i | 0 <= i < |s| ensures ValidCorrection(s[i].event) {
      assert s[i] in multiset(s);
      assert s[i] in Findings(job);
    }
  }

  // A provider either fails, or delivers something faithful to the score.
  lemma RunIsFaithful(policy: Policy, job: Job, provider: Provider)
    requires ValidJob(job) && Approved(policy)
    ensures var s := Selection(policy, job);
            var r := Run(policy, job, RequestOf(job, policy, s), AliasesOf(job, s), provider);
            r.Some? ==>
              ValidName(provider.name) && provider.name.Some? && Faithful(policy, job, s, provider.name.value, r.value)
  {
    hide Safe, ValidCorrection, ValidPlan, Admitted, Built, Faithful, RequestOf, AliasesOf, StateOf, Selection;
    ApprovedIsSafe(policy);
    SelectionIsFine(policy, job);
    var s := Selection(policy, job);
    var request := RequestOf(job, policy, s);
    if ValidName(provider.name) && provider.propose(request).Proposed? {
      var plan := provider.propose(request).plan;
      if ValidPlan(plan) && Admitted(policy, request, AliasesOf(job, s), plan) {
        AdmittedBuilds(policy, job, s, provider.name.value, plan);
        assert request.state == StateOf(job, s) by { StateShown(policy, job, s); }
      }
    }
  }

  lemma StateShown(policy: Policy, job: Job, selected: seq<Finding>)
    ensures RequestOf(job, policy, selected).state == StateOf(job, selected)
  {
  }

  lemma RulesRun(policy: Policy, job: Job)
    requires ValidJob(job) && Approved(policy)
    ensures var s := Selection(policy, job);
            Run(policy, job, RequestOf(job, policy, s), AliasesOf(job, s), RULES).Some?
  {
    hide Safe, ValidCorrection, ValidPlan, Admitted, Built, Faithful, RequestOf, AliasesOf, StateOf, Selection,
         RulePlan;
    ApprovedIsSafe(policy);
    SelectionIsFine(policy, job);
    var s := Selection(policy, job);
    RulesAreAdmitted(policy, job, s);
    AdmittedBuilds(policy, job, s, RULES.name.value, RulePlan(RequestOf(job, policy, s)));
    StateShown(policy, job, s);
  }

  // For every score and every primary provider, coaching with the rules behind it answers:
  // with one action up to the limit, each faithful to the score, from the primary provider
  // exactly when it was asked and what it did was acceptable.
  lemma CoachAlwaysAnswers(policy: Policy, job: Job, primary: Option<Provider>)
    requires ValidJob(job) && Approved(policy)
    ensures var s := Selection(policy, job);
            var answer := Coaching(policy, job, primary, RULES);
            var asked := primary.Some? && StateOf(job, s).Corrections?;
            var accepted := asked
                && Run(policy, job, RequestOf(job, policy, s), AliasesOf(job, s), primary.value).Some?;
            && answer.Coached? && answer.outcome.source == job.score
            && Faithful(policy, job, s, answer.outcome.provider, answer.outcome.actions)
            && (answer.outcome.usedFallback <==> asked && !accepted)
            && Some(answer.outcome.provider) == (if accepted then primary.value.name else RULES.name)
  {
    hide Run, Safe, ValidCorrection, ValidRequest, ValidName, RequestOf, AliasesOf, Prioritized;
    ApprovedIsSafe(policy);
    var s := Selection(policy, job);
    SelectionIsFine(policy, job);
    RequestIsValid(policy, job, s);
    StateShown(policy, job, s);
    RulesRun(policy, job);
    RunIsFaithful(policy, job, RULES);
    if primary.Some? {
      RunIsFaithful(policy, job, primary.value);
    }
  }

  // With any other fallback the only failure is the service's own error.
  lemma FailureIsTheServicesOwn(policy: Policy, job: Job, primary: Option<Provider>, fallback: Provider)
    requires ValidJob(job)
    ensures !Coaching(policy, job, primary, fallback).Unhandled?
    ensures Coaching(policy, job, primary, fallback).PolicyRejected? <==> !Approved(policy)
  {
    if Approved(policy) {
      NeverUnhandled(policy, job, primary, fallback);
    }
  }

  lemma NeverUnhandled(policy: Policy, job: Job, primary: Option<Provider>, fallback: Provider)
    requires ValidJob(job) && Approved(policy)
    ensures Coaching(policy, job, primary, fallback).Coached?
            || Coaching(policy, job, primary, fallback).FallbackFailed?
  {
    hide Run, Safe, ValidCorrection, ValidRequest, ValidName, RequestOf, AliasesOf, Prioritized;
    ApprovedIsSafe(policy);
    var s := Selection(policy, job);
    SelectionIsFine(policy, job);
    RequestIsValid(policy, job, s);
    RunIsFaithful(policy, job, fallback);
    if primary.Some? {
      RunIsFaithful(policy, job, primary.value);
    }
  }

  // From singing to coaching: whatever the scorer returns can be coached, and one that
  // abstained, or found nothing, gets a single message without an exercise.
  lemma ScoredPhraseIsCoached(
    m: Manifest, u: Features, q: ScorePhrase.Request, tools: ScorePhrase.Tools, ids: seq<nat>, locale: Locale, at: int,
    primary: Option<Provider>
  )
    requires ValidManifest(m) && ValidFeatures(u)
    ensures var o := ScorePhrase.ScorePhrase(m, u, q, tools);
            o.Scored? && |ids| == |o.score.corrections| && at >= o.score.producedAt ==>
              var job := Job(o.score, ids, locale, at);
              && ValidJob(job) && Coaching(DEFAULT_POLICY, job, primary, RULES).Coached?
              && var actions := Coaching(DEFAULT_POLICY, job, primary, RULES).outcome.actions;
                 && 1 <= |actions| <= 2
                 && (o.score.corrections == [] ==>
                     |actions| == 1 && actions[0].exercise == Text && actions[0].sources == [])
  {
    hide ScorePhrase.ScorePhrase, ValidManifest, ValidFeatures, ValidScore, Coaching, Run, RequestOf, AliasesOf,
         Selection, Belongs;
    var o := ScorePhrase.ScorePhrase(m, u, q, tools);
    ScorePhrase.ScoreIsValid(m, u, q, tools);
    if o.Scored? && |ids| == |o.score.corrections| && at >= o.score.producedAt {
      var job := Job(o.score, ids, locale, at);
      SelectionIsFine(DEFAULT_POLICY, job);
      CoachAlwaysAnswers(DEFAULT_POLICY, job, primary);
    }
  }
}
