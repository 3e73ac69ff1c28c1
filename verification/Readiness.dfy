/** Readiness of a voice agent (server/internal/ai/agents/readiness.go) against the counting guard of the
    activation statement (server/internal/database/sqlc/voice_agents.sql.go), and the topology check a
    session makes (server/internal/ai/orchestration/providers.go). */
module Readiness {
  import opened Basics

  // The values that the tables' check constraints admit.
  datatype Role = Llm | Realtime | Stt | Tts
  datatype Provider = OpenAI | Deepgram | Groq | Cartesia
  datatype Engine = Integrated | Composable
  datatype ConnectionState = Unchecked | Ready | Invalid | Unavailable

  /** A binding joined with the state of its credential. */
  datatype Status = Status(role: Role, provider: Provider, state: ConnectionState)

  datatype Issue =
    | UnexpectedBinding(role: Role)
    | MissingBinding(role: Role, provider: Provider)
    | NotReady(role: Role)

  function ExpectedProviders(engine: Engine): map<Role, Provider> {
    if engine.Integrated? then map[Realtime := OpenAI]
    else map[Stt := Deepgram, Llm := Groq, Tts := Cartesia]
  }

  predicate DistinctRoles(statuses: seq<Status>) {
    forall i, j :: 0 <= i < j < |statuses| ==> statuses[i].role != statuses[j].role
  }

  // ---- the counting guard ----

  function CountIf(statuses: seq<Status>, p: Status -> bool): nat {
    if statuses == [] then 0 else (if p(statuses[0]) then 1 else 0) + CountIf(statuses[1..], p)
  }

  predicate IsRealtimeOpenAI(b: Status) { b.role == Realtime && b.provider == OpenAI }

  predicate IsPipelineStage(b: Status) {
    || (b.role == Stt && b.provider == Deepgram)
    || (b.role == Llm && b.provider == Groq)
    || (b.role == Tts && b.provider == Cartesia)
  }

  predicate ActivationGuard(engine: Engine, statuses: seq<Status>) {
    && !(exists i :: 0 <= i < |statuses| && statuses[i].state != Ready)
    && (|| (engine.Integrated? && CountIf(statuses, IsRealtimeOpenAI) == 1 && CountIf(statuses, _ => true) == 1)
        || (engine.Composable? && CountIf(statuses, IsPipelineStage) == 3 && CountIf(statuses, _ => true) == 3))
  }

  // ---- the readiness report ----

  /** The binding a map filled in order would hold for the role: the last one. */
  function Last(statuses: seq<Status>, role: Role): Option<Status> {
    if statuses == [] then None
    else if statuses[|statuses| - 1].role == role then Some(statuses[|statuses| - 1])
    else Last(statuses[..|statuses| - 1], role)
  }

  function UnexpectedIssues(engine: Engine, statuses: seq<Status>): seq<Issue> {
    if statuses == [] then [] else
      var rest := UnexpectedIssues(engine, statuses[..|statuses| - 1]);
      var role := statuses[|statuses| - 1].role;
      if role in ExpectedProviders(engine) then rest else rest + [UnexpectedBinding(role)]
  }

  function RoleIssues(engine: Engine, statuses: seq<Status>, role: Role): seq<Issue> {
    if role !in ExpectedProviders(engine) then [] else
      var provider := ExpectedProviders(engine)[role];
      var bound := Last(statuses, role);
      if bound.None? || bound.value.provider != provider then [MissingBinding(role, provider)]
      else if bound.value.state != Ready then [NotReady(role)]
      else []
  }

  const ROLES: seq<Role> := [Realtime, Stt, Llm, Tts]

  function AllRoleIssues(engine: Engine, statuses: seq<Status>, n: nat): seq<Issue>
    requires n <= |ROLES|
  {
    if n == 0 then [] else AllRoleIssues(engine, statuses, n - 1) + RoleIssues(engine, statuses, ROLES[n - 1])
  }

  function Issues(engine: Engine, statuses: seq<Status>): seq<Issue> {
    UnexpectedIssues(engine, statuses) + AllRoleIssues(engine, statuses, |ROLES|)
  }

  method ByRole(statuses: seq<Status>) returns (byRole: map<Role, Status>)
    ensures forall r :: r in byRole <==> Last(statuses, r).Some?
    ensures forall r :: r in byRole ==> Last(statuses, r) == Some(byRole[r])
  {
    byRole := map[];
    for i := 0 to |statuses|
      invariant forall r :: r in byRole <==> Last(statuses[..i], r).Some?
      invariant forall r :: r in byRole ==> Last(statuses[..i], r) == Some(byRole[r])
    {
      assert statuses[..i + 1][..i] == statuses[..i];
      byRole := byRole[statuses[i].role := statuses[i]];
    }
    assert statuses[..|statuses|] == statuses;
  }

  /** The report, as the service computes it: a map filled by one loop, and two loops that append issues. */
  method Report(engine: Engine, statuses: seq<Status>) returns (ready: bool, issues: seq<Issue>)
    ensures issues == Issues(engine, statuses)
    ensures ready <==> issues == []
  {
    var byRole := ByRole(statuses);
    issues := [];
    var expected := ExpectedProviders(engine);
    for i := 0 to |statuses|
      invariant issues == UnexpectedIssues(engine, statuses[..i])
    {
      assert statuses[..i + 1][..i] == statuses[..i];
      if statuses[i].role !in expected { issues := issues + [UnexpectedBinding(statuses[i].role)]; }
    }
    assert statuses[..|statuses|] == statuses;
    for i := 0 to |ROLES|
      invariant issues == UnexpectedIssues(engine, statuses) + AllRoleIssues(engine, statuses, i)
    {
      var role := ROLES[i];
      if role in expected {
        if role !in byRole || byRole[role].provider != expected[role] {
          issues := issues + [MissingBinding(role, expected[role])];
        } else if byRole[role].state != Ready {
          issues := issues + [NotReady(role)];
        }
      }
    }
    ready := |issues| == 0;
  }

  // ---- the two decide the same ----

  lemma {:induction false} CountAll(statuses: seq<Status>, p: Status -> bool)
    ensures CountIf(statuses, p) <= |statuses|
    ensures CountIf(statuses, p) == |statuses| <==> forall i :: 0 <= i < |statuses| ==> p(statuses[i])
    decreases |statuses|
  {
    if statuses != [] {
      var rest := statuses[1..];
      CountAll(rest, p);
      assert forall i :: 0 <= i < |rest| ==> rest[i] == statuses[i + 1];
      if CountIf(statuses, p) == |statuses| {
        forall i | 0 <= i < |statuses| ensures p(statuses[i]) {
          if i > 0 { assert statuses[i] == rest[i - 1]; }
        }
      }
    }
  }

  lemma {:induction false} LastOfDistinct(statuses: seq<Status>, i: nat)
    requires DistinctRoles(statuses) && i < |statuses|
    ensures Last(statuses, statuses[i].role) == Some(statuses[i])
    decreases |statuses|
  {
    if i < |statuses| - 1 { LastOfDistinct(statuses[..|statuses| - 1], i); }
  }

  lemma {:induction false} LastIsThere(statuses: seq<Status>, role: Role) returns (i: nat)
    requires Last(statuses, role).Some?
    ensures i < |statuses| && statuses[i].role == role && Last(statuses, role) == Some(statuses[i])
    decreases |statuses|
  {
    if statuses[|statuses| - 1].role == role {
      i := |statuses| - 1;
    } else {
      i := LastIsThere(statuses[..|statuses| - 1], role);
    }
  }

  lemma {:induction false} NoUnexpected(engine: Engine, statuses: seq<Status>)
    ensures UnexpectedIssues(engine, statuses) == []
            <==> forall i :: 0 <= i < |statuses| ==> statuses[i].role in ExpectedProviders(engine)
    decreases |statuses|
  {
    if statuses != [] {
      var rest := statuses[..|statuses| - 1];
      NoUnexpected(engine, rest);
      if UnexpectedIssues(engine, statuses) == [] {
        forall i | 0 <= i < |statuses| ensures statuses[i].role in ExpectedProviders(engine) {
          if i < |rest| { assert rest[i] == statuses[i]; }
        }
      }
    }
  }

  /** Every expected role has a ready binding to its provider. */
  predicate Served(engine: Engine, statuses: seq<Status>) {
    forall r :: r in ExpectedProviders(engine) ==>
      var bound := Last(statuses, r);
      bound.Some? && bound.value.provider == ExpectedProviders(engine)[r] && bound.value.state == Ready
  }

  predicate OnlyExpected(engine: Engine, statuses: seq<Status>) {
    forall i :: 0 <= i < |statuses| ==> statuses[i].role in ExpectedProviders(engine)
  }

  lemma RolesUnrolled(engine: Engine, statuses: seq<Status>)
    ensures AllRoleIssues(engine, statuses, |ROLES|)
            == RoleIssues(engine, statuses, Realtime) + RoleIssues(engine, statuses, Stt)
               + RoleIssues(engine, statuses, Llm) + RoleIssues(engine, statuses, Tts)
  {
    hide RoleIssues;
    assert AllRoleIssues(engine, statuses, 0) == [];
    assert AllRoleIssues(engine, statuses, 1) == RoleIssues(engine, statuses, Realtime);
    assert AllRoleIssues(engine, statuses, 2) == AllRoleIssues(engine, statuses, 1) + RoleIssues(engine, statuses, Stt);
    assert AllRoleIssues(engine, statuses, 3) == AllRoleIssues(engine, statuses, 2) + RoleIssues(engine, statuses, Llm);
  }

  lemma NoIssues(engine: Engine, statuses: seq<Status>)
    ensures Issues(engine, statuses) == [] <==> OnlyExpected(engine, statuses) && Served(engine, statuses)
  {
    NoUnexpected(engine, statuses);
    RolesUnrolled(engine, statuses);
    assert Served(engine, statuses) <==>
           && RoleIssues(engine, statuses, Realtime) == [] && RoleIssues(engine, statuses, Stt) == []
           && RoleIssues(engine, statuses, Llm) == [] && RoleIssues(engine, statuses, Tts) == [];
  }

  lemma {:induction false} UnexpectedExact(engine: Engine, statuses: seq<Status>, issue: Issue)
    ensures issue in UnexpectedIssues(engine, statuses)
            <==> && issue.UnexpectedBinding? && issue.role !in ExpectedProviders(engine)
                 && Last(statuses, issue.role).Some?
    decreases |statuses|
  {
    if statuses != [] { UnexpectedExact(engine, statuses[..|statuses| - 1], issue); }
  }

  /** What the report says, issue by issue. */
  lemma IssuesExact(engine: Engine, statuses: seq<Status>, issue: Issue)
    ensures issue in Issues(engine, statuses) <==>
            var expected, bound := ExpectedProviders(engine), Last(statuses, issue.role);
            match issue
            case UnexpectedBinding(r) => r !in expected && bound.Some?
            case MissingBinding(r, p) => r in expected && expected[r] == p && (bound.None? || bound.value.provider != p)
            case NotReady(r) =>
              && r in expected && bound.Some?
              && bound.value.provider == expected[r] && bound.value.state != Ready
  {
    UnexpectedExact(engine, statuses, issue);
    RolesUnrolled(engine, statuses);
    hide AllRoleIssues, UnexpectedIssues, Last;
    assert issue in AllRoleIssues(engine, statuses, |ROLES|) <==> issue in RoleIssues(engine, statuses, issue.role);
  }

  /** With nothing bound, what an agent of each engine is told it misses, in order. */
  lemma NothingBound()
    ensures Issues(Integrated, []) == [MissingBinding(Realtime, OpenAI)]
    ensures Issues(Composable, [])
            == [MissingBinding(Stt, Deepgram), MissingBinding(Llm, Groq), MissingBinding(Tts, Cartesia)]
  {
    RolesUnrolled(Integrated, []);
    RolesUnrolled(Composable, []);
  }

  ghost predicate Once(issues: seq<Issue>) { forall i, j :: 0 <= i < j < |issues| ==> issues[i] != issues[j] }

  lemma {:induction false} UnexpectedOnce(engine: Engine, statuses: seq<Status>)
    requires DistinctRoles(statuses)
    ensures Once(UnexpectedIssues(engine, statuses))
    decreases |statuses|
  {
    if statuses != [] {
      var rest, role := statuses[..|statuses| - 1], statuses[|statuses| - 1].role;
      UnexpectedOnce(engine, rest);
      UnexpectedExact(engine, rest, UnexpectedBinding(role));
      assert forall i :: 0 <= i < |rest| ==> rest[i] == statuses[i];
      if Last(rest, role).Some? { var i := LastIsThere(rest, role); }
    }
  }

  lemma Joined(a: seq<Issue>, b: seq<Issue>)
    requires Once(a) && Once(b) && forall x :: x in b ==> x !in a
    ensures Once(a + b)
  {
    forall i, j | 0 <= i < j < |a + b| ensures (a + b)[i] != (a + b)[j] {
      if i < |a| <= j { assert b[j - |a|] in b; }
    }
  }

  /** With one binding per role, no issue is reported twice, and the unexpected bindings come first. */
  lemma IssuesOnce(engine: Engine, statuses: seq<Status>)
    requires DistinctRoles(statuses)
    ensures Once(Issues(engine, statuses))
    ensures forall i, j :: 0 <= i < j < |Issues(engine, statuses)| && Issues(engine, statuses)[j].UnexpectedBinding? ==>
              Issues(engine, statuses)[i].UnexpectedBinding?
  {
    var a, b := RoleIssues(engine, statuses, Realtime), RoleIssues(engine, statuses, Stt);
    var c, d := RoleIssues(engine, statuses, Llm), RoleIssues(engine, statuses, Tts);
    UnexpectedOnce(engine, statuses);
    RolesUnrolled(engine, statuses);
    Joined(a, b);
    Joined(a + b, c);
    Joined(a + b + c, d);
    var first, second := UnexpectedIssues(engine, statuses), a + b + c + d;
    forall x: Issue | x in first ensures x.UnexpectedBinding? { UnexpectedExact(engine, statuses, x); }
    forall x: Issue | x in second ensures !x.UnexpectedBinding? {}
    Joined(first, second);
    ComesFirst(first, second);
  }

  lemma ComesFirst(first: seq<Issue>, second: seq<Issue>)
    requires forall x :: x in first ==> x.UnexpectedBinding?
    requires forall x :: x in second ==> !x.UnexpectedBinding?
    ensures forall i, j :: 0 <= i < j < |first + second| && (first + second)[j].UnexpectedBinding? ==>
              (first + second)[i].UnexpectedBinding?
  {
    assert forall k :: |first| <= k < |first + second| ==> (first + second)[k] in second;
    assert forall k :: 0 <= k < |first| ==> (first + second)[k] in first;
  }

  /** Each binding is to the expected provider of its role, and ready. */
  predicate AllFit(engine: Engine, statuses: seq<Status>) {
    forall i :: 0 <= i < |statuses| ==>
      && statuses[i].role in ExpectedProviders(engine)
      && statuses[i].provider == ExpectedProviders(engine)[statuses[i].role]
      && statuses[i].state == Ready
  }

  lemma GuardCounts(engine: Engine, statuses: seq<Status>)
    ensures ActivationGuard(engine, statuses) <==> AllFit(engine, statuses) && |statuses| == |ExpectedProviders(engine)|
  {
    CountAll(statuses, IsRealtimeOpenAI);
    CountAll(statuses, IsPipelineStage);
    CountAll(statuses, _ => true);
    if engine.Integrated? {
      assert |ExpectedProviders(engine)| == 1;
    } else {
      assert |ExpectedProviders(engine)| == 3;
    }
  }

  function RolesOf(statuses: seq<Status>): set<Role> { set i | 0 <= i < |statuses| :: statuses[i].role }

  lemma {:induction false} RolesCount(statuses: seq<Status>)
    requires DistinctRoles(statuses)
    ensures |RolesOf(statuses)| == |statuses|
    decreases |statuses|
  {
    if statuses != [] {
      var rest, last := statuses[..|statuses| - 1], statuses[|statuses| - 1].role;
      RolesCount(rest);
      assert last !in RolesOf(rest);
      assert RolesOf(statuses) == RolesOf(rest) + {last} by {
        forall r | r in RolesOf(statuses) ensures r in RolesOf(rest) + {last} {
          var i :| 0 <= i < |statuses| && statuses[i].role == r;
          if i < |rest| { assert rest[i].role == r; }
        }
        forall r | r in RolesOf(rest) + {last} ensures r in RolesOf(statuses) {
          if r != last {
            var i :| 0 <= i < |rest| && rest[i].role == r;
            assert statuses[i].role == r;
          } else {
            assert statuses[|statuses| - 1].role == r;
          }
        }
      }
    }
  }

  lemma {:induction false} SubsetOfSameSize(a: set<Role>, b: set<Role>)
    requires a <= b && |a| == |b|
    ensures a == b
  {
    if a != b {
      var x :| x in b && x !in a;
      assert a <= b - {x};
      SubsetCardinality(a, b - {x});
    }
  }

  lemma ServedMeansFits(engine: Engine, statuses: seq<Status>)
    requires DistinctRoles(statuses) && OnlyExpected(engine, statuses) && Served(engine, statuses)
    ensures AllFit(engine, statuses) && |statuses| == |ExpectedProviders(engine)|
  {
    forall i | 0 <= i < |statuses|
      ensures statuses[i].provider == ExpectedProviders(engine)[statuses[i].role] && statuses[i].state == Ready
    {
      LastOfDistinct(statuses, i);
    }
    RolesCount(statuses);
    forall r | r in ExpectedProviders(engine) ensures r in RolesOf(statuses) {
      var i := LastIsThere(statuses, r);
      assert statuses[i].role == r;
    }
    assert RolesOf(statuses) == ExpectedProviders(engine).Keys;
    assert |ExpectedProviders(engine).Keys| == |ExpectedProviders(engine)|;
  }

  lemma FitsMeansServed(engine: Engine, statuses: seq<Status>)
    requires DistinctRoles(statuses) && AllFit(engine, statuses) && |statuses| == |ExpectedProviders(engine)|
    ensures OnlyExpected(engine, statuses) && Served(engine, statuses)
  {
    RolesCount(statuses);
    assert |ExpectedProviders(engine).Keys| == |ExpectedProviders(engine)|;
    SubsetOfSameSize(RolesOf(statuses), ExpectedProviders(engine).Keys);
    forall r | r in ExpectedProviders(engine)
      ensures Last(statuses, r).Some?
      ensures Last(statuses, r).value.provider == ExpectedProviders(engine)[r] && Last(statuses, r).value.state == Ready
    {
      assert r in RolesOf(statuses);
      var i :| 0 <= i < |statuses| && statuses[i].role == r;
      LastOfDistinct(statuses, i);
    }
  }

  /** With one binding per role, as the table's unique constraint has it, readiness reports no issue
      exactly when the activation statement's guard holds. */
  lemma ReadyExactlyWhenGuardHolds(engine: Engine, statuses: seq<Status>)
    requires DistinctRoles(statuses)
    ensures Issues(engine, statuses) == [] <==> ActivationGuard(engine, statuses)
  {
    hide Issues, ActivationGuard, OnlyExpected, Served, AllFit, DistinctRoles;
    NoIssues(engine, statuses);
    GuardCounts(engine, statuses);
    if OnlyExpected(engine, statuses) && Served(engine, statuses) { ServedMeansFits(engine, statuses); }
    if AllFit(engine, statuses) && |statuses| == |ExpectedProviders(engine)| { FitsMeansServed(engine, statuses); }
  }
}
