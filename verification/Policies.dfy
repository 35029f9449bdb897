/** Approval policies: compiling them, matching a tool call, and the check that decides whether a
    finished agent run has to wait for a human (internal/policy/policy.go and `checkPolicies` in
    internal/coordinator/coordinator.go). */
module Policies {
  import opened Lifecycle

  /** The glob and regular-expression engines, uninterpreted. */
  datatype Patterns = Patterns(
    glob: (string, string) -> bool,     // filepath.Match(pattern, name)
    compiles: string -> bool,           // regexp.Compile succeeds
    regex: (string, string) -> bool)    // MatchString of a compiled pattern

  datatype Config = Config(name: string, tool: string, inputs: map<string, string>, action: string, timeout: int)

  datatype Policy = Policy(config: Config, anyTool: bool, fields: map<string, string>)

  /** A tool call; input values are already rendered as text, as `fmt.Sprint` does. */
  datatype ToolUse = ToolUse(tool: string, inputs: map<string, string>)

  datatype Match = Match(policy: Policy, call: ToolUse)

  datatype Compiled = Ok(policies: seq<Policy>) | BadRegex(policyName: string, field: string)

  /** What a rule means, read off its configuration: the tool name fits, and every constrained input
      field is present with a fitting value. */
  predicate Covers(pats: Patterns, cfg: Config, call: ToolUse) {
    && (cfg.tool == "" || cfg.tool == "*" || pats.glob(cfg.tool, call.tool))
    && forall f :: f in cfg.inputs ==> f in call.inputs && pats.regex(cfg.inputs[f], call.inputs[f])
  }

  predicate WellFormed(pats: Patterns, cfg: Config) {
    forall f :: f in cfg.inputs ==> pats.compiles(cfg.inputs[f])
  }

  predicate CompiledFrom(p: Policy, cfg: Config) {
    p.config == cfg && p.fields == cfg.inputs && (p.anyTool <==> cfg.tool == "" || cfg.tool == "*")
  }

  ghost predicate FirstBad(pats: Patterns, cfgs: seq<Config>, k: nat, name: string, field: string) {
    && k < |cfgs| && cfgs[k].name == name
    && field in cfgs[k].inputs && !pats.compiles(cfgs[k].inputs[field])
    && forall i :: 0 <= i < k ==> WellFormed(pats, cfgs[i])
  }

  /** The inner loop of `CompileConfigs`: the field regexes of one rule, or one that does not compile. */
  method CompileInputs(pats: Patterns, inputs: map<string, string>) returns (fields: map<string, string>, bad: Option<string>)
    ensures bad.None? ==> fields == inputs && forall f :: f in inputs ==> pats.compiles(inputs[f])
    ensures bad.Some? ==> bad.value in inputs && !pats.compiles(inputs[bad.value])
  {
    fields := map[];
    var left := inputs.Keys;
    while left != {}
      invariant left <= inputs.Keys
      invariant fields.Keys == inputs.Keys - left
      invariant forall f :: f in fields ==> fields[f] == inputs[f] && pats.compiles(fields[f])
      decreases |left|
    {
      var f :| f in left;
      if !pats.compiles(inputs[f]) {
        return fields, Some(f);
      }
      fields := fields[f := inputs[f]];
      left := left - {f};
    }
    assert fields.Keys == inputs.Keys;
    return fields, None;
  }

  /** `CompileConfigs`: one policy per configuration in order, or the first rule whose regex is bad. */
  method CompileConfigs(pats: Patterns, cfgs: seq<Config>) returns (r: Compiled)
    ensures r.Ok? <==> forall i :: 0 <= i < |cfgs| ==> WellFormed(pats, cfgs[i])
    ensures r.Ok? ==> |r.policies| == |cfgs| && forall i :: 0 <= i < |cfgs| ==> CompiledFrom(r.policies[i], cfgs[i])
    ensures r.BadRegex? ==> exists k :: FirstBad(pats, cfgs, k, r.policyName, r.field)
  {
    var policies: seq<Policy> := [];
    for i := 0 to |cfgs|
      invariant |policies| == i
      invariant forall j :: 0 <= j < i ==> WellFormed(pats, cfgs[j])
      invariant forall j :: 0 <= j < i ==> CompiledFrom(policies[j], cfgs[j])
    {
      var cfg := cfgs[i];
      var fields, bad := CompileInputs(pats, cfg.inputs);
      if bad.Some? {
        assert FirstBad(pats, cfgs, i, cfg.name, bad.value);
        return BadRegex(cfg.name, bad.value);
      }
      policies := policies + [Policy(cfg, cfg.tool == "" || cfg.tool == "*", fields)];
    }
    return Ok(policies);
  }

  /** `Policy.Matches`, which tries the constrained fields in an arbitrary order. */
  method Matches(pats: Patterns, p: Policy, call: ToolUse) returns (yes: bool)
    requires CompiledFrom(p, p.config)
    ensures yes <==> Covers(pats, p.config, call)
  {
    if !p.anyTool && !pats.glob(p.config.tool, call.tool) {
      return false;
    }
    var left := p.fields.Keys;
    while left != {}
      invariant left <= p.fields.Keys
      invariant forall f :: f in p.fields && f !in left ==> f in call.inputs && pats.regex(p.fields[f], call.inputs[f])
      decreases |left|
    {
      var f :| f in left;
      if f !in call.inputs || !pats.regex(p.fields[f], call.inputs[f]) {
        return false;
      }
      left := left - {f};
    }
    return true;
  }

  const FIVE_MINUTES := 5 * 60 * 1_000_000_000

  /** `DefaultTimeout`, in nanoseconds: the configured value or five minutes, hence always positive. */
  function DefaultTimeout(p: Policy): (t: int)
    ensures t > 0
    ensures t == p.config.timeout || (p.config.timeout <= 0 && t == 5 * 60 * 1_000_000_000)
  {
    if p.config.timeout > 0 then p.config.timeout else FIVE_MINUTES
  }

  // The approval check of a finished run.

  predicate Guards(pats: Patterns, p: Policy, call: ToolUse) {
    p.config.action == "require_approval" && Covers(pats, p.config, call)
  }

  /** A run needs approval exactly when some extracted tool call is covered by a guarding policy. */
  ghost predicate NeedsApproval(pats: Patterns, policies: seq<Policy>, calls: seq<ToolUse>) {
    exists i, j :: 0 <= i < |calls| && 0 <= j < |policies| && Guards(pats, policies[j], calls[i])
  }

  /** The matches of one call, in the order of the policies. */
  function MatchesOf(pats: Patterns, policies: seq<Policy>, call: ToolUse): (found: seq<Match>)
    ensures forall m :: m in found <==> m.call == call && m.policy in policies && Guards(pats, m.policy, call)
  {
    if policies == [] then []
    else
      var init, last := policies[..|policies| - 1], policies[|policies| - 1];
      assert policies == init + [last];
      MatchesOf(pats, init, call) + if Guards(pats, last, call) then [Match(last, call)] else []
  }

  /** All matches: call by call, and for each call policy by policy. */
  function AllMatches(pats: Patterns, policies: seq<Policy>, calls: seq<ToolUse>): (found: seq<Match>)
    ensures forall m :: m in found <==> m.call in calls && m.policy in policies && Guards(pats, m.policy, m.call)
  {
    if calls == [] then []
    else
      assert calls == calls[..|calls| - 1] + [calls[|calls| - 1]];
      AllMatches(pats, policies, calls[..|calls| - 1]) + MatchesOf(pats, policies, calls[|calls| - 1])
  }

  lemma MatchesMeanApproval(pats: Patterns, policies: seq<Policy>, calls: seq<ToolUse>)
    ensures AllMatches(pats, policies, calls) != [] <==> NeedsApproval(pats, policies, calls)
  {
    var found := AllMatches(pats, policies, calls);
    if found != [] {
      var m := found[0];
      assert m in found;
      var i :| 0 <= i < |calls| && calls[i] == m.call;
      var j :| 0 <= j < |policies| && policies[j] == m.policy;
    }
    if NeedsApproval(pats, policies, calls) {
      var i, j :| 0 <= i < |calls| && 0 <= j < |policies| && Guards(pats, policies[j], calls[i]);
      assert Match(policies[j], calls[i]) in found;
    }
  }

  /** `checkPolicies`: exactly the covered (call, policy) pairs, in order, so that the first match, whose
      timeout bounds the wait, is that of the first covered call; and none exactly if no approval is needed. */
  method CheckPolicies(pats: Patterns, policies: seq<Policy>, calls: seq<ToolUse>) returns (found: seq<Match>)
    requires forall j :: 0 <= j < |policies| ==> CompiledFrom(policies[j], policies[j].config)
    ensures found == AllMatches(pats, policies, calls)
    ensures found != [] <==> NeedsApproval(pats, policies, calls)
  {
    MatchesMeanApproval(pats, policies, calls);
    found := [];
    if policies == [] || calls == [] {
      return;
    }
    for i := 0 to |calls|
      invariant found == AllMatches(pats, policies, calls[..i])
    {
      assert calls[..i + 1][..i] == calls[..i];
      var more := CheckCall(pats, policies, calls[i]);
      found := found + more;
    }
    assert calls[..|calls|] == calls;
  }

  /** The inner loop of `checkPolicies`. */
  method CheckCall(pats: Patterns, policies: seq<Policy>, call: ToolUse) returns (found: seq<Match>)
    requires forall j :: 0 <= j < |policies| ==> CompiledFrom(policies[j], policies[j].config)
    ensures found == MatchesOf(pats, policies, call)
  {
    found := [];
    for k := 0 to |policies|
      invariant found == MatchesOf(pats, policies[..k], call)
    {
      assert policies[..k + 1][..k] == policies[..k];
      if policies[k].config.action == "require_approval" {
        var yes := Matches(pats, policies[k], call);
        if yes {
          found := found + [Match(policies[k], call)];
        }
      }
    }
    assert policies[..|policies|] == policies;
  }

  // Extraction: each parsed output line carries at most one tool call.

  function Extracted(lines: seq<Option<ToolUse>>): (calls: seq<ToolUse>)
    ensures forall c :: c in calls <==> Some(c) in lines
  {
    if lines == [] then []
    else
      var init := Extracted(lines[..|lines| - 1]);
      var last := lines[|lines| - 1];
      assert lines == lines[..|lines| - 1] + [last];
      if last.Some? then init + [last.value] else init
  }

  /** The loop of `runAgent` that collects tool calls in output order. */
  method CollectToolUses(lines: seq<Option<ToolUse>>) returns (calls: seq<ToolUse>)
    ensures calls == Extracted(lines)
  {
    calls := [];
    for i := 0 to |lines|
      invariant calls == Extracted(lines[..i])
    {
      assert lines[..i + 1][..i] == lines[..i];
      if lines[i].Some? {
        calls := calls + [lines[i].value];
      }
    }
    assert lines[..|lines|] == lines;
  }

  // Order.

  predicate Increasing(where: seq<nat>) { forall i, j :: 0 <= i < j < |where| ==> where[i] < where[j] }

  /** `calls` are the tool calls at the given lines. */
  ghost predicate CallsAt(lines: seq<Option<ToolUse>>, calls: seq<ToolUse>, where: seq<nat>) {
    && |where| == |calls| && Increasing(where)
    && (forall k :: 0 <= k < |where| ==> where[k] < |lines| && lines[where[k]] == Some(calls[k]))
    && (forall i :: 0 <= i < |lines| && lines[i].Some? ==> i in where)
  }

  lemma ExtendCalls(lines: seq<Option<ToolUse>>, calls: seq<ToolUse>, where: seq<nat>, last: Option<ToolUse>)
    requires CallsAt(lines, calls, where)
    ensures last.Some? ==> CallsAt(lines + [last], calls + [last.value], where + [|lines|])
    ensures last.None? ==> CallsAt(lines + [last], calls, where)
  {
    assert forall i :: i in where ==> i in where + [|lines|];
    assert (where + [|lines|])[|where|] == |lines|;
  }

  /** The extracted calls are those of all lines that carry one, in the order of the lines. */
  lemma {:induction false} ExtractedInOrder(lines: seq<Option<ToolUse>>) returns (where: seq<nat>)
    ensures CallsAt(lines, Extracted(lines), where)
  {
    where := [];
    if lines != [] {
      var init, last := lines[..|lines| - 1], lines[|lines| - 1];
      assert lines == init + [last];
      where := ExtractedInOrder(init);
      ExtendCalls(init, Extracted(init), where, last);
      where := if last.Some? then where + [|init|] else where;
    }
  }

  /** Call by call, and for each call policy by policy. */
  predicate Precedes(a: (nat, nat), b: (nat, nat)) { a.0 < b.0 || (a.0 == b.0 && a.1 < b.1) }

  /** `found` are the matches of the given pairs of call and policy, in order, and there are no others. */
  ghost predicate MatchesAt(pats: Patterns, policies: seq<Policy>, calls: seq<ToolUse>, found: seq<Match>, where: seq<(nat, nat)>) {
    && |where| == |found| && Sorted(where)
    && (forall k :: 0 <= k < |where| ==> PairIs(pats, policies, calls, found[k], where[k]))
    && (forall i, j :: 0 <= i < |calls| && 0 <= j < |policies| && Guards(pats, policies[j], calls[i]) ==> (i, j) in where)
  }

  /** `found` are the matches of one call with the given policies, and there are no others. */
  ghost predicate MatchesOfAt(pats: Patterns, policies: seq<Policy>, call: ToolUse, found: seq<Match>, which: seq<nat>) {
    && |which| == |found| && Increasing(which)
    && (forall k :: 0 <= k < |which| ==>
          which[k] < |policies| && found[k] == Match(policies[which[k]], call) && Guards(pats, policies[which[k]], call))
    && (forall j :: 0 <= j < |policies| && Guards(pats, policies[j], call) ==> j in which)
  }

  lemma ExtendMatchesOf(pats: Patterns, policies: seq<Policy>, call: ToolUse, found: seq<Match>, which: seq<nat>, last: Policy)
    requires MatchesOfAt(pats, policies, call, found, which)
    ensures if Guards(pats, last, call)
            then MatchesOfAt(pats, policies + [last], call, found + [Match(last, call)], which + [|policies|])
            else MatchesOfAt(pats, policies + [last], call, found, which)
  {
    assert forall i :: i in which ==> i in which + [|policies|];
    assert (which + [|policies|])[|which|] == |policies|;
  }

  lemma {:induction false} MatchesOfInOrder(pats: Patterns, policies: seq<Policy>, call: ToolUse) returns (which: seq<nat>)
    ensures MatchesOfAt(pats, policies, call, MatchesOf(pats, policies, call), which)
  {
    which := [];
    if policies != [] {
      var init, last := policies[..|policies| - 1], policies[|policies| - 1];
      assert policies == init + [last];
      which := MatchesOfInOrder(pats, init, call);
      ExtendMatchesOf(pats, init, call, MatchesOf(pats, init, call), which, last);
      which := if Guards(pats, last, call) then which + [|init|] else which;
    }
  }

  function PairsWith(n: nat, where: seq<nat>): (pairs: seq<(nat, nat)>)
    ensures |pairs| == |where| && forall k :: 0 <= k < |where| ==> pairs[k] == (n, where[k])
  {
    seq(|where|, k requires 0 <= k < |where| => (n, where[k]))
  }

  predicate Sorted(where: seq<(nat, nat)>) {
    forall i, j :: 0 <= i < j < |where| ==> Precedes(where[i], where[j])
  }

  lemma ExtendSorted(where: seq<(nat, nat)>, n: nat, which: seq<nat>)
    requires Sorted(where) && Increasing(which) && forall k :: 0 <= k < |where| ==> where[k].0 < n
    ensures Sorted(where + PairsWith(n, which))
  {
    var pairs := PairsWith(n, which);
    forall i, j | 0 <= i < j < |where + pairs| ensures Precedes((where + pairs)[i], (where + pairs)[j]) {
      if j >= |where| {
        assert (where + pairs)[j] == pairs[j - |where|];
        if i >= |where| {
          assert (where + pairs)[i] == pairs[i - |where|];
        }
      }
    }
  }

  ghost predicate PairIs(pats: Patterns, policies: seq<Policy>, calls: seq<ToolUse>, m: Match, at: (nat, nat)) {
    && at.0 < |calls| && at.1 < |policies|
    && m == Match(policies[at.1], calls[at.0]) && Guards(pats, policies[at.1], calls[at.0])
  }

  lemma ExtendPairs(pats: Patterns, policies: seq<Policy>, calls: seq<ToolUse>, found: seq<Match>, where: seq<(nat, nat)>,
                    call: ToolUse, more: seq<Match>, which: seq<nat>)
    requires |where| == |found| && forall k :: 0 <= k < |where| ==> PairIs(pats, policies, calls, found[k], where[k])
    requires MatchesOfAt(pats, policies, call, more, which)
    ensures forall k :: 0 <= k < |found + more| ==>
              PairIs(pats, policies, calls + [call], (found + more)[k], (where + PairsWith(|calls|, which))[k])
  {
    var pairs := PairsWith(|calls|, which);
    forall k | 0 <= k < |found + more| ensures PairIs(pats, policies, calls + [call], (found + more)[k], (where + pairs)[k]) {
      if k >= |found| {
        assert (where + pairs)[k] == pairs[k - |found|] && (found + more)[k] == more[k - |found|];
      } else {
        assert PairIs(pats, policies, calls, found[k], where[k]);
      }
    }
  }

  lemma ExtendMatches(pats: Patterns, policies: seq<Policy>, calls: seq<ToolUse>, found: seq<Match>, where: seq<(nat, nat)>,
                      call: ToolUse, more: seq<Match>, which: seq<nat>)
    requires MatchesAt(pats, policies, calls, found, where)
    requires MatchesOfAt(pats, policies, call, more, which)
    ensures MatchesAt(pats, policies, calls + [call], found + more, where + PairsWith(|calls|, which))
  {
    var pairs, all := PairsWith(|calls|, which), where + PairsWith(|calls|, which);
    ExtendPairs(pats, policies, calls, found, where, call, more, which);
    assert forall k :: 0 <= k < |where| ==> PairIs(pats, policies, calls, found[k], where[k]);
    ExtendSorted(where, |calls|, which);
    forall i, j | 0 <= i < |calls + [call]| && 0 <= j < |policies| && Guards(pats, policies[j], (calls + [call])[i])
      ensures (i, j) in all
    {
      if i < |calls| {
        assert (i, j) in where;
      } else {
        var k :| 0 <= k < |which| && which[k] == j;
        assert pairs[k] == (i, j);
      }
    }
  }

  /** The matches are those of all covered pairs, call by call and for each call policy by policy. */
  lemma {:induction false} MatchesInOrder(pats: Patterns, policies: seq<Policy>, calls: seq<ToolUse>)
    returns (where: seq<(nat, nat)>)
    ensures MatchesAt(pats, policies, calls, AllMatches(pats, policies, calls), where)
  {
    where := [];
    if calls != [] {
      var init, last := calls[..|calls| - 1], calls[|calls| - 1];
      assert calls == init + [last];
      where := MatchesInOrder(pats, policies, init);
      var which := MatchesOfInOrder(pats, policies, last);
      ExtendMatches(pats, policies, init, AllMatches(pats, policies, init), where, last, MatchesOf(pats, policies, last), which);
      where := where + PairsWith(|init|, which);
    }
  }

  /** So the first match, whose timeout bounds the wait, is that of the first covered call and, among the policies
      that guard it, of the first. */
  lemma FirstMatch(pats: Patterns, policies: seq<Policy>, calls: seq<ToolUse>) returns (i: nat, j: nat)
    requires AllMatches(pats, policies, calls) != []
    ensures i < |calls| && j < |policies| && Guards(pats, policies[j], calls[i])
    ensures AllMatches(pats, policies, calls)[0] == Match(policies[j], calls[i])
    ensures forall i', j' :: 0 <= i' < i && 0 <= j' < |policies| ==> !Guards(pats, policies[j'], calls[i'])
    ensures forall j' :: 0 <= j' < j ==> !Guards(pats, policies[j'], calls[i])
  {
    var where := MatchesInOrder(pats, policies, calls);
    var found := AllMatches(pats, policies, calls);
    assert PairIs(pats, policies, calls, found[0], where[0]);
    i, j := where[0].0, where[0].1;
    forall i', j' | 0 <= i' < |calls| && 0 <= j' < |policies| && Precedes((i', j'), (i, j))
      ensures !Guards(pats, policies[j'], calls[i'])
    {
      NoneEarlier(pats, policies, calls, found, where, i', j');
    }
    forall i', j' | 0 <= i' < i && 0 <= j' < |policies| ensures !Guards(pats, policies[j'], calls[i']) {
      assert Precedes((i', j'), (i, j));
    }
    forall j' | 0 <= j' < j ensures !Guards(pats, policies[j'], calls[i]) {
      assert Precedes((i, j'), (i, j));
    }
  }

  lemma NoneEarlier(pats: Patterns, policies: seq<Policy>, calls: seq<ToolUse>, found: seq<Match>, where: seq<(nat, nat)>,
                    i: nat, j: nat)
    requires MatchesAt(pats, policies, calls, found, where) && where != []
    requires i < |calls| && j < |policies| && Precedes((i, j), where[0])
    ensures !Guards(pats, policies[j], calls[i])
  {
    forall k | 0 <= k < |where| ensures where[k] != (i, j) {
      assert k > 0 ==> Precedes(where[0], where[k]);
    }
  }
}
