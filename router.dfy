/** The router's delegation planner: it reads `- agent:` / `- task:` lines out of the
    router's analysis text, falls back to keyword matching on the user's task when no
    delegation comes out, and builds the synthesis prompt from the workers' results. */
module Router {
  import opened Text

  const ProjectManager: string := "project_manager"
  const Researcher: string := "researcher"
  const ProductDev: string := "product_dev"
  const Delivery: string := "delivery"

  /** The worker roles, in the fixed order the keyword fallback emits them. */
  const Roles: seq<string> := [ProjectManager, Researcher, ProductDev, Delivery]

  /** One planned work item. `task` is `None` when the parsed dictionary has no
      `'task'` key, which the parser lets through in one case (see `Step`). */
  datatype Delegation = Delegation(agent: string, task: Option<string>)

  function AgentsOf(ds: seq<Delegation>): (r: seq<string>)
    ensures |r| == |ds| && forall k :: 0 <= k < |ds| ==> r[k] == ds[k].agent
  {
    if ds == [] then [] else [ds[0].agent] + AgentsOf(ds[1..])
  }

  // ---------------------------------------------------------------------------
  // Structured parse of the analysis text
  // ---------------------------------------------------------------------------

  const AgentMarker: string := "- agent:"
  const TaskMarker: string := "- task:"

  /** Both markers end in their first colon, so `split(':', 1)[1]` on a marked line is
      exactly the text after the marker. */
  lemma MarkerValue(line: string, marker: string)
    requires marker == AgentMarker || marker == TaskMarker
    requires StartsWith(line, marker)
    ensures Contains(line, ":") && AfterFirstColon(line) == line[|marker|..]
  {
    assert line[..|marker|] == marker;
    forall j | 0 <= j < |marker| - 1 ensures !OccursAt(line, ":", j) {
      assert line[j..j + 1] == [marker[j]];
    }
    assert line[|marker| - 1..|marker|] == [marker[|marker| - 1]];
    FindUnique(line, ":", |marker| - 1);
  }

  datatype LineKind = AgentLine(agent: string) | TaskLine(task: string) | OtherLine

  /** How the parser reads one line: trim it, test for the agent marker, then for the
      task marker; the value is what follows the first colon, trimmed. */
  function ClassifyLine(raw: string): LineKind {
    var line := Trim(raw);
    if StartsWith(line, AgentMarker) then
      MarkerValue(line, AgentMarker);
      AgentLine(Trim(AfterFirstColon(line)))
    else if StartsWith(line, TaskMarker) then
      MarkerValue(line, TaskMarker);
      TaskLine(Trim(AfterFirstColon(line)))
    else OtherLine
  }

  /** The value of a marked line is the trimmed text after its marker. */
  lemma ClassifyLineValue(raw: string)
    ensures ClassifyLine(raw).AgentLine? ==>
              StartsWith(Trim(raw), AgentMarker) && ClassifyLine(raw).agent == Trim(Trim(raw)[8..])
    ensures ClassifyLine(raw).TaskLine? ==>
              StartsWith(Trim(raw), TaskMarker) && ClassifyLine(raw).task == Trim(Trim(raw)[7..])
    ensures ClassifyLine(raw).OtherLine? ==>
              !StartsWith(Trim(raw), AgentMarker) && !StartsWith(Trim(raw), TaskMarker)
  {
    var line := Trim(raw);
    if StartsWith(line, AgentMarker) { MarkerValue(line, AgentMarker); }
    else if StartsWith(line, TaskMarker) { MarkerValue(line, TaskMarker); }
  }

  /** The loop state: the delegations emitted so far and `current_delegation`
      (`None` for the empty, falsy dictionary). */
  datatype ParseState = ParseState(done: seq<Delegation>, current: Option<Delegation>)

  const Start: ParseState := ParseState([], None)

  function Pending(c: Option<Delegation>): seq<Delegation> {
    if c.Some? then [c.value] else []
  }

  /** One iteration of the parse loop, on the classified line. An agent line emits the
      delegation in progress, with or without a task, and opens a new one; a task line
      overwrites the task of the delegation in progress and is ignored when there is none. */
  function Step(st: ParseState, k: LineKind): ParseState {
    match k
    case AgentLine(a) => ParseState(st.done + Pending(st.current), Some(Delegation(a, None)))
    case TaskLine(t) =>
      if st.current.Some? then st.(current := Some(st.current.value.(task := Some(t)))) else st
    case OtherLine => st
  }

  /** The loop over all lines. */
  function Fold(st: ParseState, ks: seq<LineKind>): ParseState
    decreases |ks|
  {
    if ks == [] then st else Fold(Step(st, ks[0]), ks[1..])
  }

  /** After the loop: the last delegation is emitted only if it has a task. */
  function Finish(st: ParseState): seq<Delegation> {
    st.done + (if st.current.Some? && st.current.value.task.Some? then [st.current.value] else [])
  }

  function ClassifyAll(lines: seq<string>): (r: seq<LineKind>)
    ensures |r| == |lines| && forall k :: 0 <= k < |lines| ==> r[k] == ClassifyLine(lines[k])
  {
    if lines == [] then [] else [ClassifyLine(lines[0])] + ClassifyAll(lines[1..])
  }

  /** The analysis text, line by line, classified. */
  function LineKinds(analysis: string): seq<LineKind> {
    ClassifyAll(Split(analysis, "\n"))
  }

  /** The delegations the structured parse extracts from the analysis text. */
  function ParsedDelegations(analysis: string): seq<Delegation> {
    Finish(Fold(Start, LineKinds(analysis)))
  }

  /** How a line the loop finds marked is classified. */
  lemma ClassifyMarked(raw: string)
    ensures StartsWith(Trim(raw), AgentMarker) ==>
              Contains(Trim(raw), ":") && ClassifyLine(raw) == AgentLine(Trim(AfterFirstColon(Trim(raw))))
    ensures !StartsWith(Trim(raw), AgentMarker) && StartsWith(Trim(raw), TaskMarker) ==>
              Contains(Trim(raw), ":") && ClassifyLine(raw) == TaskLine(Trim(AfterFirstColon(Trim(raw))))
    ensures !StartsWith(Trim(raw), AgentMarker) && !StartsWith(Trim(raw), TaskMarker) ==>
              ClassifyLine(raw) == OtherLine
  {
    var line := Trim(raw);
    if StartsWith(line, AgentMarker) { MarkerValue(line, AgentMarker); }
    if StartsWith(line, TaskMarker) { MarkerValue(line, TaskMarker); }
  }

  lemma FoldAt(st: ParseState, ks: seq<LineKind>, i: nat)
    requires i <= |ks|
    ensures i < |ks| ==> Fold(st, ks[i..]) == Fold(Step(st, ks[i]), ks[i + 1..])
    ensures i == |ks| ==> Fold(st, ks[i..]) == st
  {
    if i < |ks| {
      assert ks[i..][1..] == ks[i + 1..];
    } else {
      assert ks[i..] == [];
    }
  }

  /** The parsing loop of `RouterAgent.analyze_and_delegate`. */
  method ParseDelegations(analysis: string) returns (delegations: seq<Delegation>)
    ensures delegations == ParsedDelegations(analysis)
  {
    var lines := Split(analysis, "\n");
    ghost var ks := ClassifyAll(lines);
    delegations := [];
    var current: Option<Delegation> := None;
    for i := 0 to |lines|
      invariant Fold(ParseState(delegations, current), ks[i..]) == Fold(Start, ks)
    {
      FoldAt(ParseState(delegations, current), ks, i);
      ghost var before := ParseState(delegations, current);
      var line := Trim(lines[i]);
      if StartsWith(line, AgentMarker) {
        if current.Some? {
          delegations := delegations + [current.value];
        }
        MarkerValue(line, AgentMarker);
        current := Some(Delegation(Trim(AfterFirstColon(line)), None));
      } else if StartsWith(line, TaskMarker) && current.Some? {
        MarkerValue(line, TaskMarker);
        current := Some(current.value.(task := Some(Trim(AfterFirstColon(line)))));
      }
      assert ParseState(delegations, current) == Step(before, ks[i]) by {
        ClassifyMarked(lines[i]);
        if StartsWith(line, AgentMarker) {
          assert delegations == before.done + Pending(before.current);
        }
      }
    }
    FoldAt(ParseState(delegations, current), ks, |lines|);
    if current.Some? && current.value.task.Some? {
      delegations := delegations + [current.value];
    }
  }

  /** Running the loop over two blocks of lines is running it over the first, then the second. */
  lemma {:induction false} FoldAppend(st: ParseState, a: seq<LineKind>, b: seq<LineKind>)
    ensures Fold(st, a + b) == Fold(Fold(st, a), b)
    decreases |a|
  {
    if a != [] {
      assert (a + b)[1..] == a[1..] + b;
      FoldAppend(Step(st, a[0]), a[1..], b);
    } else {
      assert a + b == b;
    }
  }

  /** The agent values of the agent lines, in the order the lines appear. */
  function AgentLineValues(ks: seq<LineKind>): seq<string> {
    if ks == [] then []
    else (if ks[0].AgentLine? then [ks[0].agent] else []) + AgentLineValues(ks[1..])
  }

  lemma AgentsOfAppend(a: seq<Delegation>, b: seq<Delegation>)
    ensures AgentsOf(a + b) == AgentsOf(a) + AgentsOf(b)
  {
  }

  /** The loop keeps every agent line's value: those emitted, followed by the one in
      progress, are the agent lines in order. */
  lemma {:induction false} FoldKeepsAgentOrder(st: ParseState, ks: seq<LineKind>)
    ensures AgentsOf(Fold(st, ks).done + Pending(Fold(st, ks).current))
         == AgentsOf(st.done + Pending(st.current)) + AgentLineValues(ks)
    decreases |ks|
  {
    if ks != [] {
      var st' := Step(st, ks[0]);
      FoldKeepsAgentOrder(st', ks[1..]);
      match ks[0]
      case AgentLine(a) =>
        AgentsOfAppend(st.done + Pending(st.current), [Delegation(a, None)]);
      case TaskLine(t) =>
        AgentsOfAppend(st.done, Pending(st.current));
        AgentsOfAppend(st.done, Pending(st'.current));
      case OtherLine =>
    }
  }

  /** Parsed delegations follow their `- agent:` lines in order. All are emitted except,
      possibly, the last, which is dropped when no task line followed it. */
  lemma ParsedInAgentLineOrder(ks: seq<LineKind>)
    ensures var v := AgentLineValues(ks);
            var ds := Finish(Fold(Start, ks));
            |v| - 1 <= |ds| <= |v| && AgentsOf(ds) == v[..|ds|]
  {
    var st := Fold(Start, ks);
    FoldKeepsAgentOrder(Start, ks);
    var v := AgentLineValues(ks);
    AgentsOfAppend(st.done, Pending(st.current));
    assert AgentsOf(st.done) + AgentsOf(Pending(st.current)) == v;
    if st.current.Some? && st.current.value.task.Some? {
      assert Finish(st) == st.done + Pending(st.current);
      assert v[..|v|] == v;
    } else {
      assert Finish(st) == st.done;
      assert v[..|st.done|] == AgentsOf(st.done);
    }
  }

  /** Lines before the first agent line leave the parser in its start state: a task line
      seen before any agent line is ignored. */
  lemma {:induction false} LeadingLinesIgnored(pre: seq<LineKind>, rest: seq<LineKind>)
    requires forall k :: 0 <= k < |pre| ==> !pre[k].AgentLine?
    ensures Fold(Start, pre + rest) == Fold(Start, rest)
    decreases |pre|
  {
    if pre != [] {
      assert (pre + rest)[1..] == pre[1..] + rest;
      LeadingLinesIgnored(pre[1..], rest);
    } else {
      assert pre + rest == rest;
    }
  }

  /** Of two task lines for the same delegation, the second wins. */
  lemma LastTaskWins(st: ParseState, t1: string, t2: string)
    requires st.current.Some?
    ensures Fold(st, [TaskLine(t1), TaskLine(t2)]) == Fold(st, [TaskLine(t2)])
    ensures Fold(st, [TaskLine(t2)]).current == Some(st.current.value.(task := Some(t2)))
  {
    assert [TaskLine(t1), TaskLine(t2)][1..] == [TaskLine(t2)];
  }

  lemma {:induction false} OtherLinesKeepState(st: ParseState, tail: seq<LineKind>)
    requires forall k :: 0 <= k < |tail| ==> tail[k].OtherLine?
    ensures Fold(st, tail) == st
    decreases |tail|
  {
    if tail != [] {
      OtherLinesKeepState(st, tail[1..]);
    }
  }

  /** An agent line followed only by unmarked lines is not emitted: the result is what was
      emitted before it, plus the delegation that was in progress. */
  lemma TrailingAgentDropped(ks: seq<LineKind>, a: string, tail: seq<LineKind>)
    requires forall k :: 0 <= k < |tail| ==> tail[k].OtherLine?
    ensures Finish(Fold(Start, ks + [AgentLine(a)] + tail))
         == Fold(Start, ks).done + Pending(Fold(Start, ks).current)
  {
    var st := Fold(Start, ks);
    FoldAppend(Start, ks + [AgentLine(a)], tail);
    FoldAppend(Start, ks, [AgentLine(a)]);
    OtherLinesKeepState(Step(st, AgentLine(a)), tail);
  }

  /** An agent line immediately followed by another agent line is emitted without a task. */
  lemma AgentThenAgentEmitsTaskless(ks: seq<LineKind>, a1: string, a2: string)
    ensures Fold(Start, ks + [AgentLine(a1), AgentLine(a2)]).done
         == Fold(Start, ks).done + Pending(Fold(Start, ks).current) + [Delegation(a1, None)]
  {
    FoldAppend(Start, ks, [AgentLine(a1), AgentLine(a2)]);
    var st := Fold(Start, ks);
    var st1 := Step(st, AgentLine(a1));
    assert [AgentLine(a1), AgentLine(a2)][1..] == [AgentLine(a2)];
    assert Fold(st, [AgentLine(a1), AgentLine(a2)]) == Fold(st1, [AgentLine(a2)]);
    assert Fold(st1, [AgentLine(a2)]) == Fold(Step(st1, AgentLine(a2)), []);
  }

  // ---------------------------------------------------------------------------
  // Keyword fallback
  // ---------------------------------------------------------------------------

  const PmKeywords: seq<string> := [
    "project", "plan", "timeline", "schedule", "milestone",
    "resource", "sprint", "backlog", "status", "track",
    "risk", "stakeholder", "capacity", "deadline"]

  const ResearchKeywords: seq<string> := [
    "research", "analyze", "analysis", "market", "competitor",
    "competitive", "trend", "insight", "data", "study",
    "investigate", "assess", "evaluate", "benchmark"]

  const ProductKeywords: seq<string> := [
    "product", "feature", "roadmap", "mvp", "user story",
    "requirement", "specification", "prioritize", "backlog",
    "release", "version", "prototype"]

  const DeliveryKeywords: seq<string> := [
    "deliver", "deliverable", "client", "document", "documentation",
    "handoff", "quality", "review", "prepare", "presentation",
    "proposal", "report", "final"]

  /** `any(word in text for word in words)` */
  predicate AnyKeyword(words: seq<string>, text: string) {
    exists i :: 0 <= i < |words| && Contains(text, words[i])
  }

  /** Each role with its keyword list, in the order the fallback tests them. */
  const RoleKeywords: seq<(string, seq<string>)> := [
    (ProjectManager, PmKeywords), (Researcher, ResearchKeywords),
    (ProductDev, ProductKeywords), (Delivery, DeliveryKeywords)]

  /** The roles of `table` one of whose keywords occurs in `lower`, keeping their order. */
  function Selected(table: seq<(string, seq<string>)>, lower: string): seq<string> {
    if table == [] then []
    else (if AnyKeyword(table[0].1, lower) then [table[0].0] else []) + Selected(table[1..], lower)
  }

  function ToDelegations(roles: seq<string>, task: string): (r: seq<Delegation>)
    ensures |r| == |roles|
    ensures forall k :: 0 <= k < |r| ==> r[k] == Delegation(roles[k], Some(task))
  {
    if roles == [] then [] else [Delegation(roles[0], Some(task))] + ToDelegations(roles[1..], task)
  }

  /** The reference for the fallback: one delegation of the whole task to each role whose
      keywords occur in the lower-cased task, in table order; the project manager alone
      when none do. */
  function KeywordDelegations(task: string): seq<Delegation> {
    var sel := Selected(RoleKeywords, Lower(task));
    ToDelegations(if sel == [] then [ProjectManager] else sel, task)
  }

  /** `[role]` when `hit`, else nothing. */
  function Opt(hit: bool, role: string): seq<string> {
    if hit then [role] else []
  }

  /** The roles chosen, given which keyword lists hit, in table order. */
  function RolesFor(pm: bool, rs: bool, pd: bool, dl: bool): seq<string> {
    Opt(pm, ProjectManager) + (Opt(rs, Researcher) + (Opt(pd, ProductDev) + Opt(dl, Delivery)))
  }

  /** The table, unrolled. */
  lemma SelectedRoles(lower: string)
    ensures Selected(RoleKeywords, lower)
         == RolesFor(AnyKeyword(PmKeywords, lower), AnyKeyword(ResearchKeywords, lower),
                     AnyKeyword(ProductKeywords, lower), AnyKeyword(DeliveryKeywords, lower))
  {
    var t := RoleKeywords;
    assert t[1..][1..][1..][1..] == [];
    assert Selected(t[1..][1..][1..], lower) == Opt(AnyKeyword(DeliveryKeywords, lower), Delivery);
    assert Selected(t[1..][1..], lower)
        == Opt(AnyKeyword(ProductKeywords, lower), ProductDev) + Selected(t[1..][1..][1..], lower);
    assert Selected(t[1..], lower)
        == Opt(AnyKeyword(ResearchKeywords, lower), Researcher) + Selected(t[1..][1..], lower);
  }

  /** The delegation appended when `role`'s keywords hit. */
  function HitDelegation(hit: bool, role: string, task: string): seq<Delegation> {
    if hit then [Delegation(role, Some(task))] else []
  }

  lemma ToDelegationsAppend(a: seq<string>, b: seq<string>, task: string)
    ensures ToDelegations(a + b, task) == ToDelegations(a, task) + ToDelegations(b, task)
  {
    var l, r := ToDelegations(a + b, task), ToDelegations(a, task) + ToDelegations(b, task);
    forall k | 0 <= k < |l| ensures l[k] == r[k] {
      if k < |a| { assert (a + b)[k] == a[k]; } else { assert (a + b)[k] == b[k - |a|]; }
    }
  }

  /** The delegations of the chosen roles are the four hits' delegations in turn. */
  lemma ToDelegationsOfFlags(pm: bool, rs: bool, pd: bool, dl: bool, task: string)
    ensures ToDelegations(RolesFor(pm, rs, pd, dl), task)
         == HitDelegation(pm, ProjectManager, task) + HitDelegation(rs, Researcher, task)
            + HitDelegation(pd, ProductDev, task) + HitDelegation(dl, Delivery, task)
  {
    var o1, o2, o3, o4 := Opt(pm, ProjectManager), Opt(rs, Researcher), Opt(pd, ProductDev), Opt(dl, Delivery);
    ToDelegationsAppend(o3, o4, task);
    ToDelegationsAppend(o2, o3 + o4, task);
    ToDelegationsAppend(o1, o2 + (o3 + o4), task);
    ToDelegationsOpt(pm, ProjectManager, task);
    ToDelegationsOpt(rs, Researcher, task);
    ToDelegationsOpt(pd, ProductDev, task);
    ToDelegationsOpt(dl, Delivery, task);
    var h1, h2, h3, h4 := HitDelegation(pm, ProjectManager, task), HitDelegation(rs, Researcher, task),
                          HitDelegation(pd, ProductDev, task), HitDelegation(dl, Delivery, task);
    assert h1 + (h2 + (h3 + h4)) == h1 + h2 + h3 + h4;
  }

  lemma ToDelegationsOpt(hit: bool, role: string, task: string)
    ensures ToDelegations(Opt(hit, role), task) == HitDelegation(hit, role, task)
  {
    if hit {
      assert [role][1..] == [];
    }
  }

  /** `RouterAgent._simple_delegate`: the four keyword tests in role order, then the
      project-manager default. */
  method SimpleDelegate(task: string) returns (delegations: seq<Delegation>)
    ensures delegations == KeywordDelegations(task)
  {
    var taskLower := Lower(task);
    var pm := AnyKeyword(PmKeywords, taskLower);
    var rs := AnyKeyword(ResearchKeywords, taskLower);
    var pd := AnyKeyword(ProductKeywords, taskLower);
    var dl := AnyKeyword(DeliveryKeywords, taskLower);
    delegations := AppendMatches(pm, rs, pd, dl, task);
    SelectedRoles(taskLower);
  }

  /** The body of `_simple_delegate` once the four keyword tests are known: each hit
      appends one delegation of the whole task, and an empty list gets the default. */
  method AppendMatches(pm: bool, rs: bool, pd: bool, dl: bool, task: string) returns (delegations: seq<Delegation>)
    ensures var sel := RolesFor(pm, rs, pd, dl);
            delegations == ToDelegations(if sel == [] then [ProjectManager] else sel, task)
  {
    delegations := [];
    if pm {
      delegations := delegations + [Delegation(ProjectManager, Some(task))];
    }
    assert delegations == HitDelegation(pm, ProjectManager, task);
    ghost var d1 := delegations;
    if rs {
      delegations := delegations + [Delegation(Researcher, Some(task))];
    }
    assert delegations == d1 + HitDelegation(rs, Researcher, task);
    ghost var d2 := delegations;
    if pd {
      delegations := delegations + [Delegation(ProductDev, Some(task))];
    }
    assert delegations == d2 + HitDelegation(pd, ProductDev, task);
    ghost var d3 := delegations;
    if dl {
      delegations := delegations + [Delegation(Delivery, Some(task))];
    }
    assert delegations == d3 + HitDelegation(dl, Delivery, task);
    ToDelegationsOfFlags(pm, rs, pd, dl, task);
    if delegations == [] {
      delegations := delegations + [Delegation(ProjectManager, Some(task))];
      assert delegations == ToDelegations([ProjectManager], task);
    }
  }

  /** Position of a role in the table (4 for any other name). */
  function RoleRank(role: string): nat {
    if role == ProjectManager then 0
    else if role == Researcher then 1
    else if role == ProductDev then 2
    else if role == Delivery then 3
    else 4
  }

  /** The four role names differ (their lengths are 15, 10, 11 and 8). */
  lemma RoleNamesDistinct()
    ensures ProjectManager != Researcher && ProjectManager != ProductDev && ProjectManager != Delivery
    ensures Researcher != ProductDev && Researcher != Delivery && ProductDev != Delivery
    ensures RoleRank(ProjectManager) == 0 && RoleRank(Researcher) == 1
    ensures RoleRank(ProductDev) == 2 && RoleRank(Delivery) == 3
  {
    assert |ProjectManager| == 15 && |Researcher| == 10 && |ProductDev| == 11 && |Delivery| == 8;
  }

  /** Known roles, each ranked above `k`, strictly ascending. */
  ghost predicate RankedAbove(sel: seq<string>, k: int) {
    && (forall i :: 0 <= i < |sel| ==> sel[i] in Roles && k < RoleRank(sel[i]))
    && (forall i, j :: 0 <= i < j < |sel| ==> RoleRank(sel[i]) < RoleRank(sel[j]))
  }

  /** Putting a known role in front of the roles ranked above it keeps the order. */
  lemma OptPrepend(hit: bool, role: string, sel: seq<string>, k: int)
    requires role in Roles && k < RoleRank(role) && RankedAbove(sel, RoleRank(role))
    ensures RankedAbove(Opt(hit, role) + sel, k)
  {
    var r := Opt(hit, role) + sel;
    if hit {
      assert r == [role] + sel;
      forall i | 0 <= i < |r| ensures r[i] in Roles && k < RoleRank(r[i]) {
        if i > 0 { assert r[i] == sel[i - 1]; }
      }
      forall i, j | 0 <= i < j < |r| ensures RoleRank(r[i]) < RoleRank(r[j]) {
        assert r[j] == sel[j - 1];
        if i > 0 { assert r[i] == sel[i - 1]; }
      }
    } else {
      assert r == sel;
    }
  }

  /** The chosen roles are known ones, strictly in table order. */
  lemma RolesForRanked(pm: bool, rs: bool, pd: bool, dl: bool)
    ensures RankedAbove(RolesFor(pm, rs, pd, dl), -1)
  {
    RoleNamesDistinct();
    assert Roles[0] == ProjectManager && Roles[1] == Researcher;
    assert Roles[2] == ProductDev && Roles[3] == Delivery;
    var d := Opt(dl, Delivery);
    OptPrepend(dl, Delivery, [], 2);
    assert Opt(dl, Delivery) + [] == d;
    OptPrepend(pd, ProductDev, d, 1);
    var c := Opt(pd, ProductDev) + d;
    OptPrepend(rs, Researcher, c, 0);
    var b := Opt(rs, Researcher) + c;
    OptPrepend(pm, ProjectManager, b, -1);
  }

  /** Which roles the flags choose. */
  lemma RolesForMembership(pm: bool, rs: bool, pd: bool, dl: bool)
    ensures var sel := RolesFor(pm, rs, pd, dl);
            && (sel == [] <==> !(pm || rs || pd || dl))
            && (ProjectManager in sel <==> pm)
            && (Researcher in sel <==> rs)
            && (ProductDev in sel <==> pd)
            && (Delivery in sel <==> dl)
  {
    RoleNamesDistinct();
  }

  /** The fallback never comes back empty, every delegation carries the task unchanged,
      and the roles are known ones, strictly in table order (so no role twice). */
  lemma KeywordDelegationsWellFormed(task: string)
    ensures var r := KeywordDelegations(task);
            && |r| >= 1
            && (forall k :: 0 <= k < |r| ==> r[k].task == Some(task) && r[k].agent in Roles)
            && (forall i, j :: 0 <= i < j < |r| ==> RoleRank(r[i].agent) < RoleRank(r[j].agent))
  {
    var lower := Lower(task);
    SelectedRoles(lower);
    DefaultedRanked(AnyKeyword(PmKeywords, lower), AnyKeyword(ResearchKeywords, lower),
                    AnyKeyword(ProductKeywords, lower), AnyKeyword(DeliveryKeywords, lower), task);
  }

  /** `KeywordDelegationsWellFormed` at the level of the four flags. */
  lemma DefaultedRanked(pm: bool, rs: bool, pd: bool, dl: bool, task: string)
    ensures var sel := RolesFor(pm, rs, pd, dl);
            var r := ToDelegations(if sel == [] then [ProjectManager] else sel, task);
            && |r| >= 1
            && (forall k :: 0 <= k < |r| ==> r[k].task == Some(task) && r[k].agent in Roles)
            && (forall i, j :: 0 <= i < j < |r| ==> RoleRank(r[i].agent) < RoleRank(r[j].agent))
  {
    RolesForRanked(pm, rs, pd, dl);
    var sel := RolesFor(pm, rs, pd, dl);
    if sel == [] {
      assert Roles[0] == ProjectManager;
    }
  }

  /** A role is delegated to exactly when one of its keywords occurs in the lower-cased
      task; the project manager also when no keyword of any role occurs. */
  lemma KeywordDelegationsMembership(task: string)
    ensures var r := KeywordDelegations(task);
            var lower := Lower(task);
            var pm := AnyKeyword(PmKeywords, lower);
            var rs := AnyKeyword(ResearchKeywords, lower);
            var pd := AnyKeyword(ProductKeywords, lower);
            var dl := AnyKeyword(DeliveryKeywords, lower);
            && (ProjectManager in AgentsOf(r) <==> pm || !(rs || pd || dl))
            && (Researcher in AgentsOf(r) <==> rs)
            && (ProductDev in AgentsOf(r) <==> pd)
            && (Delivery in AgentsOf(r) <==> dl)
  {
    var lower := Lower(task);
    SelectedRoles(lower);
    var sel := Selected(RoleKeywords, lower);
    var roles := if sel == [] then [ProjectManager] else sel;
    assert AgentsOf(KeywordDelegations(task)) == roles;
    DefaultedMembership(AnyKeyword(PmKeywords, lower), AnyKeyword(ResearchKeywords, lower),
                        AnyKeyword(ProductKeywords, lower), AnyKeyword(DeliveryKeywords, lower));
  }

  /** `KeywordDelegationsMembership` at the level of the four flags. */
  lemma DefaultedMembership(pm: bool, rs: bool, pd: bool, dl: bool)
    ensures var sel := RolesFor(pm, rs, pd, dl);
            var roles := if sel == [] then [ProjectManager] else sel;
            && (ProjectManager in roles <==> pm || !(rs || pd || dl))
            && (Researcher in roles <==> rs)
            && (ProductDev in roles <==> pd)
            && (Delivery in roles <==> dl)
  {
    RolesForMembership(pm, rs, pd, dl);
    RoleNamesDistinct();
  }

  /** "backlog" is a project-management keyword and a product keyword, so it brings in
      both roles. */
  lemma BacklogTriggersBoth(task: string)
    requires Contains(Lower(task), "backlog")
    ensures ProjectManager in AgentsOf(KeywordDelegations(task))
    ensures ProductDev in AgentsOf(KeywordDelegations(task))
  {
    assert PmKeywords[7] == "backlog";
    assert ProductKeywords[8] == "backlog";
    KeywordDelegationsMembership(task);
  }

  /** No keyword at all gives exactly one project-manager delegation. */
  lemma NoKeywordDefaultsToProjectManager(task: string)
    requires !AnyKeyword(PmKeywords, Lower(task)) && !AnyKeyword(ResearchKeywords, Lower(task))
    requires !AnyKeyword(ProductKeywords, Lower(task)) && !AnyKeyword(DeliveryKeywords, Lower(task))
    ensures KeywordDelegations(task) == [Delegation(ProjectManager, Some(task))]
  {
    SelectedRoles(Lower(task));
  }

  // ---------------------------------------------------------------------------
  // The plan
  // ---------------------------------------------------------------------------

  /** The outcome of `analyze_and_delegate` for the router's analysis text. */
  function PlanOf(analysis: string, task: string): seq<Delegation> {
    var parsed := ParsedDelegations(analysis);
    if parsed == [] then KeywordDelegations(task) else parsed
  }

  /** `RouterAgent.analyze_and_delegate`: the router's own completion of the user task
      (`router`) is parsed; when nothing is parsed the keyword fallback decides. The plan
      is never empty. */
  method AnalyzeAndDelegate(userTask: string, router: string -> string) returns (delegations: seq<Delegation>)
    ensures delegations == PlanOf(router(userTask), userTask)
    ensures |delegations| >= 1
  {
    var analysis := router(userTask);
    delegations := ParseDelegations(analysis);
    if delegations == [] {
      delegations := SimpleDelegate(userTask);
      KeywordDelegationsWellFormed(userTask);
    }
  }

  // ---------------------------------------------------------------------------
  // Synthesis
  // ---------------------------------------------------------------------------

  const SynthesisHeader: string :=
    "Synthesize a final business response based on the following agent outputs:\n\n"

  const SynthesisFooter: string :=
    "Provide a concise executive summary that:\n1. Highlights key findings and outcomes\n"
    + "2. Lists actionable next steps\n3. Notes any dependencies or considerations"

  /** The `i`-th entry of the synthesis prompt. */
  function Entry(i: nat, d: Delegation, result: string): string
    requires d.task.Some?
  {
    NatToString(i) + ". [" + Upper(d.agent) + "] " + d.task.value + "\n"
    + "   Result: " + result + "\n\n"
  }

  function Min(a: nat, b: nat): nat { if a < b then a else b }

  /** Delegations and results have tasks up to the shorter of the two lists. */
  predicate Pairable(ds: seq<Delegation>, results: seq<string>) {
    forall k :: 0 <= k < |ds| && k < |results| ==> ds[k].task.Some?
  }

  /** The first `n` entries, delegation `k` paired with result `k`. */
  function Entries(ds: seq<Delegation>, results: seq<string>, n: nat): string
    requires n <= |ds| && n <= |results| && Pairable(ds, results)
  {
    if n == 0 then "" else Entries(ds, results, n - 1) + Entry(n, ds[n - 1], results[n - 1])
  }

  /** The prompt `synthesize_results` hands to the router: `zip` stops at the shorter list. */
  function SynthesisPrompt(ds: seq<Delegation>, results: seq<string>): string
    requires Pairable(ds, results)
  {
    SynthesisHeader + Entries(ds, results, Min(|ds|, |results|)) + SynthesisFooter
  }

  /** `RouterAgent.synthesize_results`: the prompt is built entry by entry, then completed
      by the router. */
  method SynthesizeResults(ds: seq<Delegation>, results: seq<string>, router: string -> string)
    returns (answer: string)
    requires Pairable(ds, results)
    ensures answer == router(SynthesisPrompt(ds, results))
  {
    var entries := "";
    var n := Min(|ds|, |results|);
    for i := 0 to n
      invariant entries == Entries(ds, results, i)
    {
      entries := entries + Entry(i + 1, ds[i], results[i]);
    }
    answer := router(SynthesisHeader + entries + SynthesisFooter);
  }

  /** Entries come in delegation order: the first `k` entries are a prefix of the first `n`. */
  lemma {:induction false} EntriesPrefix(ds: seq<Delegation>, results: seq<string>, k: nat, n: nat)
    requires k <= n <= |ds| && n <= |results| && Pairable(ds, results)
    ensures Entries(ds, results, k) <= Entries(ds, results, n)
    decreases n - k
  {
    if k < n {
      EntriesPrefix(ds, results, k, n - 1);
      var a, e := Entries(ds, results, n - 1), Entry(n, ds[n - 1], results[n - 1]);
      assert Entries(ds, results, n) == a + e;
      PrefixOfAppend(Entries(ds, results, k), a, e);
      assert Entries(ds, results, k) <= a + e;
    }
  }

  lemma PrefixOfAppend(p: string, a: string, e: string)
    requires p <= a
    ensures p <= a + e
  {
    assert (a + e)[..|p|] == a[..|p|];
  }

  /** The prompt names exactly the zipped pairs: delegations or results beyond the shorter
      list play no part. */
  lemma {:induction false} EntriesOfPrefix(ds: seq<Delegation>, results: seq<string>, n: nat, m: nat)
    requires n <= m <= |ds| && m <= |results| && Pairable(ds, results)
    ensures Pairable(ds[..m], results[..m])
    ensures Entries(ds[..m], results[..m], n) == Entries(ds, results, n)
    decreases n
  {
    if n > 0 {
      EntriesOfPrefix(ds, results, n - 1, m);
    }
  }

  lemma SynthesisIgnoresUnpaired(ds: seq<Delegation>, results: seq<string>)
    requires Pairable(ds, results)
    ensures var n := Min(|ds|, |results|);
            Pairable(ds[..n], results[..n])
            && SynthesisPrompt(ds, results) == SynthesisPrompt(ds[..n], results[..n])
  {
    var n := Min(|ds|, |results|);
    EntriesOfPrefix(ds, results, n, n);
  }
}
