/**
 * The branch protection rule (service package protection): the evaluation of
 * one `Branch` definition for a proposed merge (MergeVerify) and for a proposed
 * ref change (RefChangeVerify). The behaviour is the one fixed by the table
 * tests in app/services/protection/rule_branch_test.go.
 */
module Protection {

  /** enum.MergeMethod is a Go string type; the full enumeration is an input. */
  type MergeMethod = string

  /** The acting principal. */
  datatype Principal = Principal(id: int, admin: bool)

  /** Who may override this rule's violations. */
  datatype DefBypass = DefBypass(userIDs: seq<int>, repoOwners: bool)

  datatype DefLifecycle = DefLifecycle(deleteForbidden: bool)

  datatype DefStatusChecks = DefStatusChecks(requireUIDs: seq<string>)

  datatype DefComments = DefComments(requireResolveAll: bool)

  datatype DefMerge = DefMerge(strategiesAllowed: seq<MergeMethod>, deleteBranch: bool)

  datatype DefPullReq = DefPullReq(statusChecks: DefStatusChecks, comments: DefComments, merge: DefMerge)

  /** A branch protection definition; the zero value restricts nothing. */
  datatype Branch = Branch(bypass: DefBypass, lifecycle: DefLifecycle, pullReq: DefPullReq)

  const EmptyBranch := Branch(
    DefBypass([], false),
    DefLifecycle(false),
    DefPullReq(DefStatusChecks([]), DefComments(false), DefMerge([], false)))

  /** The stable violation codes. */
  datatype ViolationCode =
    | LifecycleDelete               // "lifecycle-delete"
    | PullReqCommentsReqResolveAll  // "pullreq-comments-require-resolve-all"
    | PullReqStatusChecksReqUIDs    // "pullreq-status-checks-required-uids"

  /** One failed constraint; `uids` names the status checks a status-check violation is about. */
  datatype Violation = Violation(code: ViolationCode, uids: seq<string>)

  /** The result of evaluating the rule: eligibility to bypass, whether bypass happened, and what failed. */
  datatype RuleViolations = RuleViolations(bypassable: bool, bypassed: bool, violations: seq<Violation>)

  /**
   * The pull request state a merge is checked against: the number of unresolved
   * comment threads and the reported status checks (UID to "succeeded").
   */
  datatype MergeVerifyInput = MergeVerifyInput(
    actor: Principal,
    allowBypass: bool,
    isRepoOwner: bool,
    unresolvedCount: int,
    checkResults: map<string, bool>)

  datatype MergeVerifyOutput = MergeVerifyOutput(deleteSourceBranch: bool, allowedMethods: seq<MergeMethod>)

  datatype RefAction = RefActionCreate | RefActionDelete | RefActionUpdate

  datatype RefType = RefTypeRaw | RefTypeBranch | RefTypeTag

  datatype RefChangeVerifyInput = RefChangeVerifyInput(
    actor: Principal,
    allowBypass: bool,
    isRepoOwner: bool,
    refAction: RefAction,
    refType: RefType,
    refNames: seq<string>)

  /** Bypass eligibility: an administrator, a listed user, or a repo owner when owners may bypass. */
  predicate Bypassable(bypass: DefBypass, actor: Principal, isRepoOwner: bool) {
    actor.admin || actor.id in bypass.userIDs || (bypass.repoOwners && isRepoOwner)
  }

  /** A required status check is satisfied only by a reported, succeeded result. */
  predicate CheckPassed(results: map<string, bool>, uid: string) {
    uid in results && results[uid]
  }

  /** The required status checks that have not succeeded. */
  function FailingChecks(required: seq<string>, results: map<string, bool>): (r: seq<string>)
    ensures forall u :: u in r <==> u in required && !CheckPassed(results, u)
    ensures |r| <= |required|
  {
    if required == [] then []
    else
      var rest := FailingChecks(required[1..], results);
      assert forall u :: u in required <==> u == required[0] || u in required[1..];
      if CheckPassed(results, required[0]) then rest else [required[0]] + rest
  }

  predicate CommentsViolated(b: Branch, unresolvedCount: int) {
    b.pullReq.comments.requireResolveAll && unresolvedCount > 0
  }

  predicate StatusChecksViolated(b: Branch, results: map<string, bool>) {
    exists u :: u in b.pullReq.statusChecks.requireUIDs && !CheckPassed(results, u)
  }

  /** The violations a merge raises: comment resolution first, then status checks. */
  function MergeViolations(b: Branch, input: MergeVerifyInput): (vs: seq<Violation>)
    ensures |vs| == (if CommentsViolated(b, input.unresolvedCount) then 1 else 0)
                    + (if StatusChecksViolated(b, input.checkResults) then 1 else 0)
    ensures |vs| == 0 <==> !CommentsViolated(b, input.unresolvedCount) && !StatusChecksViolated(b, input.checkResults)
    ensures (exists i :: 0 <= i < |vs| && vs[i].code == PullReqCommentsReqResolveAll)
            <==> CommentsViolated(b, input.unresolvedCount)
    ensures (exists i :: 0 <= i < |vs| && vs[i].code == PullReqStatusChecksReqUIDs)
            <==> StatusChecksViolated(b, input.checkResults)
    ensures CommentsViolated(b, input.unresolvedCount) ==> vs[0].code == PullReqCommentsReqResolveAll
    ensures StatusChecksViolated(b, input.checkResults) ==>
      vs[|vs| - 1] == Violation(PullReqStatusChecksReqUIDs, FailingChecks(b.pullReq.statusChecks.requireUIDs, input.checkResults))
    ensures forall i :: 0 <= i < |vs| ==> vs[i].code != LifecycleDelete
  {
    var failing := FailingChecks(b.pullReq.statusChecks.requireUIDs, input.checkResults);
    assert failing != [] ==> failing[0] in failing;
    var comments := if CommentsViolated(b, input.unresolvedCount) then [Violation(PullReqCommentsReqResolveAll, [])] else [];
    var checks := if failing != [] then [Violation(PullReqStatusChecksReqUIDs, failing)] else [];
    var vs := comments + checks;
    assert StatusChecksViolated(b, input.checkResults) <==> failing != [];
    assert comments != [] ==> vs[0].code == PullReqCommentsReqResolveAll;
    assert checks != [] ==> vs[|vs| - 1].code == PullReqStatusChecksReqUIDs;
    vs
  }

  /** No entry for a rule without violations; otherwise one entry annotated with bypass. */
  function Annotate(bypass: DefBypass, actor: Principal, isRepoOwner: bool, allowBypass: bool, vs: seq<Violation>)
    : (rs: seq<RuleViolations>)
    ensures vs == [] <==> rs == []
    ensures vs != [] ==> |rs| == 1 && rs[0].violations == vs
    ensures vs != [] ==> (rs[0].bypassable <==> Bypassable(bypass, actor, isRepoOwner))
    ensures vs != [] ==> (rs[0].bypassed <==> rs[0].bypassable && allowBypass)
  {
    if vs == [] then []
    else
      var bypassable := Bypassable(bypass, actor, isRepoOwner);
      [RuleViolations(bypassable, bypassable && allowBypass, vs)]
  }

  /** The merge methods the rule permits: its own list, or every method when it lists none. */
  function AllowedMethods(merge: DefMerge, allMethods: seq<MergeMethod>): (r: seq<MergeMethod>)
    ensures merge.strategiesAllowed != [] ==> r == merge.strategiesAllowed
    ensures merge.strategiesAllowed == [] ==> r == allMethods
  {
    if |merge.strategiesAllowed| > 0 then merge.strategiesAllowed else allMethods
  }

  /** Branch.MergeVerify. */
  function MergeVerify(b: Branch, input: MergeVerifyInput, allMethods: seq<MergeMethod>)
    : (res: (MergeVerifyOutput, seq<RuleViolations>))
    ensures res.0.deleteSourceBranch == b.pullReq.merge.deleteBranch
    ensures res.0.allowedMethods == (if b.pullReq.merge.strategiesAllowed == [] then allMethods else b.pullReq.merge.strategiesAllowed)
    ensures res.1 == [] <==> !CommentsViolated(b, input.unresolvedCount) && !StatusChecksViolated(b, input.checkResults)
    ensures res.1 != [] ==> |res.1| == 1
    ensures res.1 != [] ==> (res.1[0].bypassable <==> Bypassable(b.bypass, input.actor, input.isRepoOwner))
    ensures res.1 != [] ==> (res.1[0].bypassed <==> res.1[0].bypassable && input.allowBypass)
    ensures res.1 != [] ==> res.1[0].violations == MergeViolations(b, input)
  {
    var out := MergeVerifyOutput(b.pullReq.merge.deleteBranch, AllowedMethods(b.pullReq.merge, allMethods));
    (out, Annotate(b.bypass, input.actor, input.isRepoOwner, input.allowBypass, MergeViolations(b, input)))
  }

  /** The violations a ref change raises: one combined lifecycle-delete for a branch deletion. */
  function RefChangeViolations(b: Branch, input: RefChangeVerifyInput): (vs: seq<Violation>)
    ensures vs == [] || vs == [Violation(LifecycleDelete, [])]
    ensures vs != [] <==>
      input.refType == RefTypeBranch && input.refNames != [] && input.refAction == RefActionDelete && b.lifecycle.deleteForbidden
  {
    if input.refType != RefTypeBranch || |input.refNames| == 0 then []
    else if input.refAction == RefActionDelete && b.lifecycle.deleteForbidden then [Violation(LifecycleDelete, [])]
    else []
  }

  /** Branch.RefChangeVerify. */
  function RefChangeVerify(b: Branch, input: RefChangeVerifyInput): (rs: seq<RuleViolations>)
    ensures rs == [] <==>
      !(input.refType == RefTypeBranch && input.refNames != [] && input.refAction == RefActionDelete && b.lifecycle.deleteForbidden)
    ensures rs != [] ==> |rs| == 1 && rs[0].violations == [Violation(LifecycleDelete, [])]
    ensures rs != [] ==> (rs[0].bypassable <==> Bypassable(b.bypass, input.actor, input.isRepoOwner))
    ensures rs != [] ==> (rs[0].bypassed <==> rs[0].bypassable && input.allowBypass)
  {
    Annotate(b.bypass, input.actor, input.isRepoOwner, input.allowBypass, RefChangeViolations(b, input))
  }

  /** The zero definition is a no-op: nothing violated, no deletion, every merge method. */
  lemma EmptyBranchIsNoop(mergeIn: MergeVerifyInput, refIn: RefChangeVerifyInput, allMethods: seq<MergeMethod>)
    ensures MergeVerify(EmptyBranch, mergeIn, allMethods) == (MergeVerifyOutput(false, allMethods), [])
    ensures RefChangeVerify(EmptyBranch, refIn) == []
  {
  }

  /** Both pull request constraints violated: the comments code comes before the status-checks code. */
  lemma CommentsBeforeStatusChecks(b: Branch, input: MergeVerifyInput, allMethods: seq<MergeMethod>)
    requires CommentsViolated(b, input.unresolvedCount) && StatusChecksViolated(b, input.checkResults)
    ensures var rs := MergeVerify(b, input, allMethods).1;
      |rs| == 1 && |rs[0].violations| == 2
      && rs[0].violations[0].code == PullReqCommentsReqResolveAll
      && rs[0].violations[1].code == PullReqStatusChecksReqUIDs
  {
  }

  /** A required check with no reported result is a violation naming that check. */
  lemma MissingCheckIsViolation(b: Branch, input: MergeVerifyInput, allMethods: seq<MergeMethod>, uid: string)
    requires uid in b.pullReq.statusChecks.requireUIDs && uid !in input.checkResults
    ensures var rs := MergeVerify(b, input, allMethods).1;
      |rs| == 1 && exists v :: v in rs[0].violations && v.code == PullReqStatusChecksReqUIDs && uid in v.uids
  {
  }

  /** A non-administrator who is neither listed nor a bypassing repo owner cannot bypass, even when asking to. */
  lemma OutsiderCannotBypass(b: Branch, input: MergeVerifyInput, allMethods: seq<MergeMethod>)
    requires !input.actor.admin && input.actor.id !in b.bypass.userIDs && !(b.bypass.repoOwners && input.isRepoOwner)
    ensures forall r :: r in MergeVerify(b, input, allMethods).1 ==> !r.bypassable && !r.bypassed
  {
  }

  /** Bypass never hides a violation: the reported violations do not depend on who acts or whether bypass is asked. */
  lemma BypassKeepsViolations(b: Branch, input: MergeVerifyInput, actor: Principal, allowBypass: bool, isRepoOwner: bool,
                              allMethods: seq<MergeMethod>)
    ensures var other := input.(actor := actor, allowBypass := allowBypass, isRepoOwner := isRepoOwner);
      |MergeVerify(b, input, allMethods).1| == |MergeVerify(b, other, allMethods).1|
      && forall i :: 0 <= i < |MergeVerify(b, input, allMethods).1| ==>
           MergeVerify(b, input, allMethods).1[i].violations == MergeVerify(b, other, allMethods).1[i].violations
  {
  }

  const User := Principal(42, false)
  const Admin := Principal(66, true)
  const PullReqRules := DefPullReq(DefStatusChecks(["abc"]), DefComments(true), DefMerge([], true))

  /** The merge table: empty, admin-no-bypass, user-bypass, user-no-bypass, merge-methods. */
  lemma MergeVerifyTable(allMethods: seq<MergeMethod>)
    ensures MergeVerify(EmptyBranch, MergeVerifyInput(User, false, false, 0, map[]), allMethods)
      == (MergeVerifyOutput(false, allMethods), [])
    ensures var b := Branch(DefBypass([], false), DefLifecycle(false), PullReqRules);
      MergeVerify(b, MergeVerifyInput(Admin, false, false, 1, map[]), allMethods)
      == (MergeVerifyOutput(true, allMethods),
          [RuleViolations(true, false, [Violation(PullReqCommentsReqResolveAll, []), Violation(PullReqStatusChecksReqUIDs, ["abc"])])])
    ensures var b := Branch(DefBypass([42], false), DefLifecycle(false), PullReqRules);
      MergeVerify(b, MergeVerifyInput(User, true, false, 1, map[]), allMethods)
      == (MergeVerifyOutput(true, allMethods),
          [RuleViolations(true, true, [Violation(PullReqCommentsReqResolveAll, []), Violation(PullReqStatusChecksReqUIDs, ["abc"])])])
    ensures var b := Branch(DefBypass([], false), DefLifecycle(false), PullReqRules);
      MergeVerify(b, MergeVerifyInput(User, true, false, 1, map[]), allMethods)
      == (MergeVerifyOutput(true, allMethods),
          [RuleViolations(false, false, [Violation(PullReqCommentsReqResolveAll, []), Violation(PullReqStatusChecksReqUIDs, ["abc"])])])
    ensures var b := EmptyBranch.(pullReq := EmptyBranch.pullReq.(merge := DefMerge(["rebase", "squash"], false)));
      MergeVerify(b, MergeVerifyInput(User, false, false, 0, map[]), allMethods)
      == (MergeVerifyOutput(false, ["rebase", "squash"]), [])
  {
    var expected := [Violation(PullReqCommentsReqResolveAll, []), Violation(PullReqStatusChecksReqUIDs, ["abc"])];
    assert FailingChecks(["abc"], map[]) == ["abc"];
    assert MergeViolations(Branch(DefBypass([], false), DefLifecycle(false), PullReqRules), MergeVerifyInput(Admin, false, false, 1, map[])) == expected;
    assert MergeViolations(Branch(DefBypass([42], false), DefLifecycle(false), PullReqRules), MergeVerifyInput(User, true, false, 1, map[])) == expected;
    assert MergeViolations(Branch(DefBypass([], false), DefLifecycle(false), PullReqRules), MergeVerifyInput(User, true, false, 1, map[])) == expected;
  }

  /** The ref-change table: empty, admin-no-bypass, owner-bypass, user-no-bypass. */
  lemma RefChangeVerifyTable()
    ensures RefChangeVerify(EmptyBranch, RefChangeVerifyInput(User, false, false, RefActionCreate, RefTypeRaw, [])) == []
    ensures var b := EmptyBranch.(lifecycle := DefLifecycle(true));
      RefChangeVerify(b, RefChangeVerifyInput(Admin, false, false, RefActionDelete, RefTypeBranch, ["abc"]))
      == [RuleViolations(true, false, [Violation(LifecycleDelete, [])])]
    ensures var b := Branch(DefBypass([], true), DefLifecycle(true), EmptyBranch.pullReq);
      RefChangeVerify(b, RefChangeVerifyInput(User, true, true, RefActionDelete, RefTypeBranch, ["abc"]))
      == [RuleViolations(true, true, [Violation(LifecycleDelete, [])])]
    ensures var b := Branch(DefBypass([], true), DefLifecycle(true), EmptyBranch.pullReq);
      RefChangeVerify(b, RefChangeVerifyInput(User, true, false, RefActionDelete, RefTypeBranch, ["abc"]))
      == [RuleViolations(false, false, [Violation(LifecycleDelete, [])])]
  {
  }
}
