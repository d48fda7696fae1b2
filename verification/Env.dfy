/** The environment of the agent container: template variables, their merge
    with user variables, and the names in the SUB_AGENTS variable. */
module Env {
  import opened Kube
  import opened Resolve
  import opened Text

  /** `value` stands for everything but the name. */
  datatype EnvVar = EnvVar(name: string, value: string)

  /******* Go's order on strings *******/

  predicate Less(a: string, b: string) {
    b != "" && (a == "" || a[0] < b[0] || (a[0] == b[0] && Less(a[1..], b[1..])))
  }

  /** The first difference decides, and a proper prefix is less. */
  lemma {:induction false} LessIff(a: string, b: string)
    ensures Less(a, b) <==>
            exists i :: 0 <= i <= |a| && i < |b| && a[..i] == b[..i] && (i == |a| || a[i] < b[i])
  {
    if Less(a, b) {
      if a == "" {
        assert a[..0] == b[..0];
      } else if a[0] < b[0] {
        assert a[..0] == b[..0];
      } else {
        LessIff(a[1..], b[1..]);
        var i :| 0 <= i <= |a[1..]| && i < |b[1..]| && a[1..][..i] == b[1..][..i] && (i == |a[1..]| || a[1..][i] < b[1..][i]);
        assert a[..i + 1] == [a[0]] + a[1..][..i] && b[..i + 1] == [b[0]] + b[1..][..i];
      }
    }
    if i :| 0 <= i <= |a| && i < |b| && a[..i] == b[..i] && (i == |a| || a[i] < b[i]) {
      if i > 0 {
        assert a[0] == a[..i][0] == b[..i][0] == b[0];
        assert a[1..][..i - 1] == a[..i][1..] && b[1..][..i - 1] == b[..i][1..];
        LessIff(a[1..], b[1..]);
      }
    }
  }

  lemma {:induction false} LessTotal(a: string, b: string)
    ensures Less(a, b) || a == b || Less(b, a)
    ensures !(Less(a, b) && Less(b, a)) && !Less(a, a)
  {
    if a != "" && b != "" {
      LessTotal(a[1..], b[1..]);
      assert a == [a[0]] + a[1..] && b == [b[0]] + b[1..];
    }
    if a != "" {
      LessTotal(a[1..], a[1..]);
    }
  }

  lemma {:induction false} LessTransitive(a: string, b: string, c: string)
    requires Less(a, b) && Less(b, c)
    ensures Less(a, c)
  {
    if a != "" && a[0] == b[0] == c[0] {
      LessTransitive(a[1..], b[1..], c[1..]);
    }
  }

  ghost predicate Sorted(s: seq<EnvVar>) {
    forall i, j :: 0 <= i < j < |s| ==> !Less(s[j].name, s[i].name)
  }

  ghost predicate StrictlySorted(s: seq<EnvVar>) {
    forall i, j :: 0 <= i < j < |s| ==> Less(s[i].name, s[j].name)
  }

  ghost predicate DistinctNames(s: seq<EnvVar>) {
    forall i, j :: 0 <= i < j < |s| ==> s[i].name != s[j].name
  }

  /** Stands for sort.Slice, which is not stable: nothing beyond this contract
      is used. */
  method SortByName(s: seq<EnvVar>) returns (r: seq<EnvVar>)
    ensures Sorted(r) && multiset(r) == multiset(s)
  {
    r := [];
    for n := 0 to |s|
      invariant Sorted(r) && multiset(r) == multiset(s[..n])
    {
      var i := 0;
      while i < |r| && !Less(s[n].name, r[i].name)
        invariant i <= |r|
        invariant forall j :: 0 <= j < i ==> !Less(s[n].name, r[j].name)
      {
        i := i + 1;
      }
      InsertKeepsSorted(r, i, s[n]);
      InsertMembers(r, i, s[n]);
      r := r[..i] + [s[n]] + r[i..];
      assert s[..n + 1] == s[..n] + [s[n]];
    }
    assert s[..|s|] == s;
  }

  lemma InsertMembers(r: seq<EnvVar>, i: nat, e: EnvVar)
    requires i <= |r|
    ensures multiset(r[..i] + [e] + r[i..]) == multiset(r) + multiset{e}
  {
    assert r == r[..i] + r[i..];
  }

  lemma InsertKeepsSorted(r: seq<EnvVar>, i: nat, e: EnvVar)
    requires Sorted(r) && i <= |r|
    requires forall j :: 0 <= j < i ==> !Less(e.name, r[j].name)
    requires i < |r| ==> Less(e.name, r[i].name)
    ensures Sorted(r[..i] + [e] + r[i..])
  {
    forall j | i <= j < |r|
      ensures !Less(r[j].name, e.name)
    {
      LessTotal(r[i].name, r[j].name);
      LessTotal(e.name, r[j].name);
      if r[i].name != r[j].name {
        LessTransitive(e.name, r[i].name, r[j].name);
      }
    }
  }

  /******* The merge *******/

  /** The user variables by name: the last one counts. */
  function UserMap(user: seq<EnvVar>): map<string, EnvVar> {
    if user == [] then map[]
    else UserMap(user[..|user| - 1])[user[|user| - 1].name := user[|user| - 1]]
  }

  lemma {:induction false} LastUserVariableCounts(user: seq<EnvVar>, name: string)
    ensures name in UserMap(user) <==> exists i :: 0 <= i < |user| && user[i].name == name
    ensures name in UserMap(user) ==> UserMap(user)[name].name == name
    ensures forall i | 0 <= i < |user| && user[i].name == name && forall j :: i < j < |user| ==> user[j].name != name ::
              name in UserMap(user) && UserMap(user)[name] == user[i]
  {
    if user != [] {
      var init := user[..|user| - 1];
      LastUserVariableCounts(init, name);
      assert forall i :: 0 <= i < |init| ==> init[i] == user[i];
    }
  }

  /** Is `e` in the merged environment?  A template variable is, unless the user
      overrides its name; the last user variable of a name is. */
  ghost predicate InMerge(template: seq<EnvVar>, user: seq<EnvVar>, e: EnvVar) {
    if e.name in UserMap(user) then e == UserMap(user)[e.name] else e in template
  }

  ghost predicate IsMerge(r: seq<EnvVar>, template: seq<EnvVar>, user: seq<EnvVar>) {
    StrictlySorted(r) && forall e :: e in r <==> InMerge(template, user, e)
  }

  /** Which variables these are: the last one that the user sets for a name, and the
      template's where the user sets none. */
  lemma MergeIs(template: seq<EnvVar>, user: seq<EnvVar>, e: EnvVar)
    ensures InMerge(template, user, e) <==>
            ((exists i :: 0 <= i < |user| && user[i] == e && forall j :: i < j < |user| ==> user[j].name != e.name) ||
             (e in template && forall i :: 0 <= i < |user| ==> user[i].name != e.name))
  {
    LastUserVariableCounts(user, e.name);
    if e.name in UserMap(user) {
      var i := LastIndex(user, e.name);
      assert user[i].name == e.name && UserMap(user)[e.name] == user[i];
    }
  }

  lemma {:induction false} LastIndex(user: seq<EnvVar>, name: string) returns (i: nat)
    requires exists j :: 0 <= j < |user| && user[j].name == name
    ensures i < |user| && user[i].name == name && forall j :: i < j < |user| ==> user[j].name != name
  {
    if user[|user| - 1].name == name {
      i := |user| - 1;
    } else {
      i := LastIndex(user[..|user| - 1], name);
    }
  }

  /** Go iterates over the remaining user variables in any order. */
  method AppendAll(s: seq<EnvVar>, more: map<string, EnvVar>) returns (r: seq<EnvVar>)
    requires forall n :: n in more ==> more[n].name == n
    requires DistinctNames(s) ==> forall i :: 0 <= i < |s| ==> s[i].name !in more
    ensures forall e :: e in r <==> e in s || (e.name in more && e == more[e.name])
    ensures DistinctNames(s) ==> DistinctNames(r)
  {
    r := s;
    var rest := more;
    while rest != map[]
      invariant rest.Keys <= more.Keys && forall n :: n in rest ==> rest[n] == more[n]
      invariant forall e :: e in r <==> e in s || (e.name in more && e.name !in rest && e == more[e.name])
      invariant DistinctNames(s) ==> DistinctNames(r)
      decreases |rest|
    {
      var n :| n in rest;
      assert forall i :: 0 <= i < |r| && DistinctNames(s) ==> r[i] in r && r[i].name != n;
      r := r + [rest[n]];
      rest := rest - {n};
    }
  }

  method UserVariables(user: seq<EnvVar>) returns (userEnvMap: map<string, EnvVar>)
    ensures userEnvMap == UserMap(user)
  {
    userEnvMap := map[];
    for n := 0 to |user|
      invariant userEnvMap == UserMap(user[..n])
    {
      assert user[..n + 1][..n] == user[..n];
      userEnvMap := userEnvMap[user[n].name := user[n]];
    }
    assert user[..|user|] == user;
  }

  /** The template variables or their overrides, and the user variables left. */
  method OverrideTemplate(template: seq<EnvVar>, all: map<string, EnvVar>)
      returns (result: seq<EnvVar>, rest: map<string, EnvVar>)
    requires forall k :: k in all ==> all[k].name == k
    ensures rest.Keys <= all.Keys && forall k :: k in rest ==> rest[k] == all[k]
    ensures |result| == |template| && forall i :: 0 <= i < |result| ==> result[i].name == template[i].name
    ensures DistinctNames(template) ==> Overridden(template, all, |template|, result, rest)
  {
    result, rest := [], all;
    for n := 0 to |template|
      invariant rest.Keys <= all.Keys && forall k :: k in rest ==> rest[k] == all[k]
      invariant |result| == n && forall i :: 0 <= i < n ==> result[i].name == template[i].name
      invariant DistinctNames(template) ==> Overridden(template, all, n, result, rest)
    {
      if template[n].name in rest {
        result := result + [rest[template[n].name]];
        rest := rest - {template[n].name};
      } else {
        result := result + [template[n]];
      }
    }
  }

  method MergeEnvironmentVariables(template: seq<EnvVar>, user: seq<EnvVar>) returns (result: seq<EnvVar>)
    ensures Sorted(result)
    ensures DistinctNames(template) ==> IsMerge(result, template, user)
  {
    var all := UserVariables(user);
    UserMapNames(user);
    var kept, rest := OverrideTemplate(template, all);
    var unsorted := AppendAll(kept, rest);
    result := SortByName(unsorted);
    if DistinctNames(template) {
      SortedDistinctIsStrict(unsorted, result);
      forall e
        ensures e in result <==> InMerge(template, user, e)
      {
        OverriddenMembers(template, all, kept, rest, e);
        assert e in result <==> e in multiset(result);
      }
    }
  }

  lemma UserMapNames(user: seq<EnvVar>)
    ensures forall n :: n in UserMap(user) ==> UserMap(user)[n].name == n
  {
  }

  /** After `n` template variables: each stands for itself or its override, and
      `rest` are the user variables still to be added. */
  ghost predicate Overridden(template: seq<EnvVar>, all: map<string, EnvVar>, n: nat, result: seq<EnvVar>, rest: map<string, EnvVar>) {
    && n == |result| <= |template|
    && (forall i :: 0 <= i < n ==>
          result[i] == (if template[i].name in all then all[template[i].name] else template[i]) && template[i].name !in rest)
    && (forall k :: k in all && k !in rest ==> exists i :: 0 <= i < n && template[i].name == k)
  }

  lemma OverriddenMembers(template: seq<EnvVar>, all: map<string, EnvVar>, kept: seq<EnvVar>, rest: map<string, EnvVar>, e: EnvVar)
    requires Overridden(template, all, |template|, kept, rest)
    requires rest.Keys <= all.Keys && (forall k :: k in rest ==> rest[k] == all[k]) && (forall k :: k in all ==> all[k].name == k)
    ensures (e in kept || (e.name in rest && e == rest[e.name])) <==>
            if e.name in all then e == all[e.name] else e in template
  {
    if e.name in all && e.name !in rest {
      var i :| 0 <= i < |template| && template[i].name == e.name;
      assert kept[i] == all[e.name];
    } else if e.name !in all && e in template {
      var i :| 0 <= i < |template| && template[i] == e;
      assert kept[i] == e;
    }
  }

  lemma SortedDistinctIsStrict(s: seq<EnvVar>, r: seq<EnvVar>)
    requires DistinctNames(s) && Sorted(r) && multiset(r) == multiset(s)
    ensures StrictlySorted(r)
  {
    forall i, j | 0 <= i < j < |r|
      ensures Less(r[i].name, r[j].name)
    {
      LessTotal(r[i].name, r[j].name);
      if r[i].name == r[j].name {
        SameNameTwice(s, r, i, j);
      }
    }
  }

  lemma SameNameTwice(s: seq<EnvVar>, r: seq<EnvVar>, i: nat, j: nat)
    requires multiset(r) == multiset(s) && i < j < |r| && r[i].name == r[j].name
    ensures !DistinctNames(s)
  {
    if r[i] == r[j] {
      assert r == r[..j] + [r[j]] + r[j + 1..] && r[i] in r[..j];
      if DistinctNames(s) {
        DistinctOccurOnce(s, r[i]);
      }
    } else {
      assert r[i] in multiset(r) && r[j] in multiset(r);
      var k :| 0 <= k < |s| && s[k] == r[i];
      var l :| 0 <= l < |s| && s[l] == r[j];
    }
  }

  lemma {:induction false} DistinctOccurOnce(s: seq<EnvVar>, e: EnvVar)
    requires DistinctNames(s)
    ensures multiset(s)[e] <= 1
  {
    if s != [] {
      DistinctOccurOnce(s[1..], e);
      assert s == [s[0]] + s[1..];
      assert e == s[0] ==> e !in s[1..];
    }
  }

  /** The result is one determined list, whatever the iteration order of the map
      and however the sort breaks ties. */
  lemma {:induction false} MergeDetermined(r: seq<EnvVar>, r': seq<EnvVar>, template: seq<EnvVar>, user: seq<EnvVar>)
    requires IsMerge(r, template, user) && IsMerge(r', template, user)
    ensures r == r'
  {
    SameMembersSameList(r, r');
  }

  lemma {:induction false} SameMembersSameList(r: seq<EnvVar>, r': seq<EnvVar>)
    requires StrictlySorted(r) && StrictlySorted(r') && forall e :: e in r <==> e in r'
    ensures r == r'
  {
    if r == [] {
      assert forall i :: 0 <= i < |r'| ==> r'[i] in r';
    } else {
      assert r[0] in r' && r'[0] in r;
      LessTotal(r[0].name, r'[0].name);
      assert r[0] == r'[0];
      forall e
        ensures e in r[1..] <==> e in r'[1..]
      {
        TailMembers(r, e);
        TailMembers(r', e);
      }
      SameMembersSameList(r[1..], r'[1..]);
      assert r == [r[0]] + r[1..] && r' == [r'[0]] + r'[1..];
    }
  }

  lemma TailMembers(r: seq<EnvVar>, e: EnvVar)
    requires r != [] && StrictlySorted(r)
    ensures e in r[1..] <==> e in r && e != r[0]
  {
    LessTotal(r[0].name, r[0].name);
    assert r == [r[0]] + r[1..];
  }

  /** Merging again with the same user variables changes nothing. */
  lemma MergeAgain(r: seq<EnvVar>, r': seq<EnvVar>, template: seq<EnvVar>, user: seq<EnvVar>)
    requires IsMerge(r, template, user) && IsMerge(r', r, user)
    ensures r' == r
  {
    SameMembersSameList(r, r');
  }

  /** A list with the merged variables in some other order, such as the original
      one that the documentation promises, is the result if and only if it is
      sorted already. */
  lemma OrderKeptIffSorted(r: seq<EnvVar>, s: seq<EnvVar>, template: seq<EnvVar>, user: seq<EnvVar>)
    requires IsMerge(r, template, user) && forall e :: e in s <==> InMerge(template, user, e)
    ensures r == s <==> StrictlySorted(s)
  {
    if StrictlySorted(s) {
      SameMembersSameList(r, s);
    }
  }

  lemma {:induction false} LessAfter(p: string, a: string, b: string)
    ensures Less(p + a, p + b) <==> Less(a, b)
  {
    if p == "" {
      assert p + a == a && p + b == b;
    } else {
      LessAfter(p[1..], a, b);
      assert (p + a)[1..] == p[1..] + a && (p + b)[1..] == p[1..] + b;
    }
  }

  lemma AgentNameComesLater(name: string, other: string)
    requires name == "AGENT_NAME" && (other == "AGENT_DESCRIPTION" || other == "AGENT_MODEL")
    ensures Less(other, name) && !Less(name, other)
  {
    var rest := other[6..];
    assert other == "AGENT_" + rest && name == "AGENT_" + "NAME" && rest[0] < 'N';
    LessAfter("AGENT_", rest, "NAME");
    LessTotal(name, other);
  }

  /** The order of the template variables is never kept, whatever the user sets:
      description and model come before the name. */
  lemma TemplateOrderNeverKept(r: seq<EnvVar>, template: seq<EnvVar>, user: seq<EnvVar>, i: nat, j: nat)
    requires IsMerge(r, template, user) && i < |r| && j < |r|
    requires r[i].name == "AGENT_NAME" && (r[j].name == "AGENT_DESCRIPTION" || r[j].name == "AGENT_MODEL")
    ensures j < i
  {
    AgentNameComesLater(r[i].name, r[j].name);
  }

  /** The example in the documentation of the merge: template and user variables,
      and the result it claims. */
  const DOC_TEMPLATE := [EnvVar("AGENT_NAME", "test"), EnvVar("AGENT_MODEL", "default"), EnvVar("TEMPLATE_VAR", "value")]
  const DOC_USER := [EnvVar("AGENT_MODEL", "custom"), EnvVar("USER_VAR", "user")]
  const DOC_RESULT := [EnvVar("AGENT_NAME", "test"), EnvVar("AGENT_MODEL", "custom"),
                       EnvVar("TEMPLATE_VAR", "value"), EnvVar("USER_VAR", "user")]

  lemma UserMapOfTwo(user: seq<EnvVar>)
    requires |user| == 2
    ensures UserMap(user) == map[user[0].name := user[0]][user[1].name := user[1]]
  {
    var init := user[..1];
    assert UserMap(init) == UserMap(init[..0])[init[0].name := init[0]];
  }

  /** It has the right variables, but the merge yields another order. */
  lemma DocumentedExampleFails(r: seq<EnvVar>)
    requires IsMerge(r, DOC_TEMPLATE, DOC_USER)
    ensures (forall e :: e in r <==> e in DOC_RESULT) && r != DOC_RESULT
  {
    UserMapOfTwo(DOC_USER);
    if r == DOC_RESULT {
      TemplateOrderNeverKept(r, DOC_TEMPLATE, DOC_USER, 0, 1);
    }
  }

  /******* Template variables *******/

  const TEMPLATE_NAMES := [
    "AGENT_NAME", "AGENT_DESCRIPTION", "AGENT_INSTRUCTION", "AGENT_MODEL", "AGENT_A2A_RPC_URL",
    "LITELLM_PROXY_API_BASE", "LITELLM_PROXY_API_KEY", "USE_LITELLM_PROXY", "SUB_AGENTS", "AGENT_TOOLS"]

  lemma TemplateNamesDiffer()
    ensures NoDuplicates(TEMPLATE_NAMES)
  {
  }

  /** `vars` are named by the template names at increasing positions below `n`. */
  ghost predicate FollowsTemplate(vars: seq<EnvVar>, n: nat) {
    n <= |TEMPLATE_NAMES| &&
    (forall v :: v in vars ==> v.name in TEMPLATE_NAMES[..n]) && DistinctNames(vars)
  }

  method AppendVar(vars: seq<EnvVar>, ghost n: nat, i: nat, value: string) returns (r: seq<EnvVar>)
    requires FollowsTemplate(vars, n) && n <= i < |TEMPLATE_NAMES|
    ensures r == vars + [EnvVar(TEMPLATE_NAMES[i], value)] && FollowsTemplate(r, i + 1)
  {
    TemplateNamesDiffer();
    r := vars + [EnvVar(TEMPLATE_NAMES[i], value)];
    assert forall v :: v in vars ==> v.name in TEMPLATE_NAMES[..i];
    assert forall k :: 0 <= k < |vars| ==> vars[k] in vars;
    assert TEMPLATE_NAMES[i] !in TEMPLATE_NAMES[..i];
  }

  function AgentVars(agentName: string, description: string, instruction: string, model: string): seq<EnvVar> {
    [EnvVar("AGENT_NAME", Sanitized(agentName)), EnvVar("AGENT_DESCRIPTION", description),
     EnvVar("AGENT_INSTRUCTION", instruction), EnvVar("AGENT_MODEL", model)]
  }

  function A2AVars(url: string): seq<EnvVar> {
    if url != "" then [EnvVar("AGENT_A2A_RPC_URL", url)] else []
  }

  function GatewayVars(url: Option<string>): seq<EnvVar> {
    if url.None? then []
    else
      [EnvVar("LITELLM_PROXY_API_BASE", url.value), EnvVar("LITELLM_PROXY_API_KEY", "NOT_USED_BY_GATEWAY"),
       EnvVar("USE_LITELLM_PROXY", "True")]
  }

  function ReferenceVars(subAgentsJSON: string, toolsJSON: string): seq<EnvVar> {
    [EnvVar("SUB_AGENTS", subAgentsJSON), EnvVar("AGENT_TOOLS", toolsJSON)]
  }

  method AppendReferenceVars(vars: seq<EnvVar>, ghost n: nat, subAgentsJSON: string, toolsJSON: string)
      returns (r: seq<EnvVar>)
    requires FollowsTemplate(vars, n) && n <= 8
    ensures r == vars + ReferenceVars(subAgentsJSON, toolsJSON) && DistinctNames(r)
  {
    r := AppendVar(vars, n, 8, subAgentsJSON);
    r := AppendVar(r, 9, 9, toolsJSON);
  }

  method AppendGatewayVars(vars: seq<EnvVar>, ghost n: nat, url: string) returns (r: seq<EnvVar>)
    requires FollowsTemplate(vars, n) && n <= 5
    ensures r == vars + GatewayVars(Some(url)) && FollowsTemplate(r, 8)
  {
    r := AppendVar(vars, n, 5, url);
    r := AppendVar(r, 6, 6, "NOT_USED_BY_GATEWAY");
    r := AppendVar(r, 7, 7, "True");
  }

  method AppendAgentVars(agentName: string, description: string, instruction: string, model: string)
      returns (r: seq<EnvVar>)
    ensures r == AgentVars(agentName, description, instruction, model) && FollowsTemplate(r, 4)
  {
    var name := SanitizeAgentName(agentName);
    r := AppendVar([], 0, 0, name);
    r := AppendVar(r, 1, 1, description);
    r := AppendVar(r, 2, 2, instruction);
    r := AppendVar(r, 3, 3, model);
  }

  /** Every template variable holds what its name says. */
  lemma TemplateVarsAre(agentName: string, description: string, instruction: string, model: string, url: string,
                        gateway: Option<string>, subAgentsJSON: string, toolsJSON: string, v: EnvVar)
    ensures v in AgentVars(agentName, description, instruction, model) <==>
            (v.name == "AGENT_NAME" && v.value == Sanitized(agentName)) ||
            (v.name == "AGENT_DESCRIPTION" && v.value == description) ||
            (v.name == "AGENT_INSTRUCTION" && v.value == instruction) ||
            (v.name == "AGENT_MODEL" && v.value == model)
    ensures v in A2AVars(url) <==> v.name == "AGENT_A2A_RPC_URL" && v.value == url != ""
    ensures v in ReferenceVars(subAgentsJSON, toolsJSON) <==>
            (v.name == "SUB_AGENTS" && v.value == subAgentsJSON) || (v.name == "AGENT_TOOLS" && v.value == toolsJSON)
    ensures v in GatewayVars(gateway) <==>
            gateway.Some? &&
            ((v.name == "LITELLM_PROXY_API_BASE" && v.value == gateway.value) ||
             (v.name == "LITELLM_PROXY_API_KEY" && v.value == "NOT_USED_BY_GATEWAY") ||
             (v.name == "USE_LITELLM_PROXY" && v.value == "True"))
  {
  }

  /** buildTemplateEnvironmentVars, given the JSON texts.  No name occurs twice. */
  method BuildTemplateEnvironmentVars(agentName: string, description: string, instruction: string, model: string,
                                      a2aUrl: string, aiGatewayUrl: Option<string>, subAgentsJSON: string, toolsJSON: string)
      returns (vars: seq<EnvVar>)
    ensures vars == AgentVars(agentName, description, instruction, model) + A2AVars(a2aUrl) + GatewayVars(aiGatewayUrl) +
                    ReferenceVars(subAgentsJSON, toolsJSON)
    ensures DistinctNames(vars)
  {
    vars := AppendAgentVars(agentName, description, instruction, model);
    ghost var n, first := 4, vars;
    if a2aUrl != "" {
      vars := AppendVar(vars, n, 4, a2aUrl);
      n := 5;
    }
    assert vars == first + A2AVars(a2aUrl);
    if aiGatewayUrl.Some? {
      vars := AppendGatewayVars(vars, n, aiGatewayUrl.value);
      n := 8;
    }
    assert vars == first + A2AVars(a2aUrl) + GatewayVars(aiGatewayUrl);
    vars := AppendReferenceVars(vars, n, subAgentsJSON, toolsJSON);
  }

  /******* Sanitized names *******/

  predicate IsLetter(c: char) {
    'a' <= c <= 'z' || 'A' <= c <= 'Z'
  }

  /** A DNS label as in RFC 1123. */
  predicate IsLabel(s: string) {
    && s != "" && s[0] != '-' && s[|s| - 1] != '-'
    && forall i :: 0 <= i < |s| ==> 'a' <= s[i] <= 'z' || IsDigit(s[i]) || s[i] == '-'
  }

  lemma LabelIff(s: string)
    ensures IsLabel(s) <==>
            s != "" && s[0] != '-' && s[|s| - 1] != '-' && forall c :: c in s ==> 'a' <= c <= 'z' || '0' <= c <= '9' || c == '-'
  {
    assert forall i :: 0 <= i < |s| ==> s[i] in s;
  }

  function SanitizedChar(c: char): char {
    if IsLetter(c) || IsDigit(c) || c == '_' then c else '_'
  }

  function Sanitized(name: string): string {
    var mapped := seq(|name|, i requires 0 <= i < |name| => SanitizedChar(name[i]));
    if name == "" then "agent" else if IsDigit(mapped[0]) then "_" + mapped else mapped
  }

  method SanitizeAgentName(name: string) returns (sanitized: string)
    ensures sanitized == Sanitized(name)
  {
    sanitized := "";
    for i := 0 to |name|
      invariant sanitized == seq(i, j requires 0 <= j < i => SanitizedChar(name[j]))
    {
      var c := name[i];
      if IsLetter(c) || IsDigit(c) || c == '_' {
        sanitized := sanitized + [c];
      } else if c == '-' {
        sanitized := sanitized + "_";
      } else {
        sanitized := sanitized + "_";
      }
    }
    if |sanitized| > 0 && IsDigit(sanitized[0]) {
      sanitized := "_" + sanitized;
    }
    if sanitized == "" {
      sanitized := "agent";
    }
  }

  /** Letters, digits and underscores stay, everything else becomes an underscore, a
      leading digit gets one in front, and the empty name becomes "agent". */
  lemma SanitizedIs(name: string)
    ensures Sanitized("") == "agent"
    ensures name != "" ==>
              var s, shift := Sanitized(name), if '0' <= name[0] <= '9' then 1 else 0;
              && |s| == |name| + shift && (shift == 1 ==> s[0] == '_')
              && forall i :: 0 <= i < |name| ==>
                   var c := name[i];
                   s[i + shift] == if 'a' <= c <= 'z' || 'A' <= c <= 'Z' || '0' <= c <= '9' || c == '_' then c else '_'
  {
  }

  lemma SanitizedIsIdentifier(name: string)
    ensures var s := Sanitized(name);
            && s != "" && ('a' <= s[0] <= 'z' || 'A' <= s[0] <= 'Z' || s[0] == '_')
            && (forall c :: c in s ==> 'a' <= c <= 'z' || 'A' <= c <= 'Z' || '0' <= c <= '9' || c == '_')
            && Sanitized(s) == s
  {
  }

  lemma SanitizedInjectiveOnLabels(a: string, b: string)
    requires IsLabel(a) && IsLabel(b) && Sanitized(a) == Sanitized(b)
    ensures a == b
  {
    var x := Sanitized(a);
    assert x[0] == '_' <==> IsDigit(a[0]);
    assert x[0] == '_' <==> IsDigit(b[0]);
    var shift := if IsDigit(a[0]) then 1 else 0;
    assert |a| == |b|;
    forall i | 0 <= i < |a|
      ensures a[i] == b[i]
    {
      assert SanitizedChar(a[i]) == x[i + shift] == SanitizedChar(b[i]);
    }
  }

  /** Beyond labels names may clash, and SUB_AGENTS then loses an entry. */
  lemma SanitizedNotInjective()
    ensures Sanitized("a.b") == Sanitized("a-b")
  {
    assert Sanitized("a.b") == "a_b";
    assert Sanitized("a-b") == "a_b";
  }

  ghost predicate InjectiveOn(names: set<string>) {
    forall a, b :: a in names && b in names && Sanitized(a) == Sanitized(b) ==> a == b
  }

  ghost function SanitizedNames(names: set<string>): set<string> {
    set name | name in names :: Sanitized(name)
  }

  ghost predicate TypesSet(resolved: map<string, ResolvedSubAgent>) {
    forall name :: name in resolved ==> resolved[name].interactionType != ""
  }

  /** As many sanitized names as names exactly when no two are sanitized alike. */
  lemma {:induction false} SanitizedCount(names: set<string>)
    ensures |SanitizedNames(names)| <= |names|
    ensures InjectiveOn(names) <==> |SanitizedNames(names)| == |names|
  {
    if names != {} {
      var name :| name in names;
      var others := names - {name};
      assert names == others + {name};
      SanitizedCount(others);
      SanitizedNamesMore(others, name);
      InjectiveOnMore(others, name);
    }
  }

  lemma SanitizedNamesMore(names: set<string>, name: string)
    ensures SanitizedNames(names + {name}) == SanitizedNames(names) + {Sanitized(name)}
  {
  }

  /** The object after the sub-agents `done`. */
  ghost predicate IsSubAgentsMap(subAgents: map<string, ResolvedSubAgent>, resolved: map<string, ResolvedSubAgent>, done: set<string>) {
    && done <= resolved.Keys && subAgents.Keys == SanitizedNames(done)
    && (InjectiveOn(resolved.Keys) ==> forall name :: name in done ==> subAgents[Sanitized(name)] == resolved[name])
  }

  lemma SubAgentsMapStep(subAgents: map<string, ResolvedSubAgent>, resolved: map<string, ResolvedSubAgent>,
                         done: set<string>, name: string)
    requires IsSubAgentsMap(subAgents, resolved, done) && name in resolved && name !in done
    ensures IsSubAgentsMap(subAgents[Sanitized(name) := resolved[name]], resolved, done + {name})
  {
    SanitizedNamesMore(done, name);
  }

  /** The SUB_AGENTS object, or the name of a sub-agent without interaction type.
      Go iterates over the resolved sub-agents in any order.  There is one entry
      per sub-agent exactly when no two names are sanitized alike, as with DNS
      labels, and then every URL and type is kept. */
  method BuildSubAgentsMap(resolved: map<string, ResolvedSubAgent>)
      returns (r: Result<map<string, ResolvedSubAgent>, string>)
    ensures r.Ok? <==> TypesSet(resolved)
    ensures r.Err? ==> r.error in resolved && resolved[r.error].interactionType == ""
    ensures r.Ok? ==> r.value.Keys == SanitizedNames(resolved.Keys)
    ensures r.Ok? ==> (InjectiveOn(resolved.Keys) <==> |r.value| == |resolved|)
    ensures r.Ok? && InjectiveOn(resolved.Keys) ==>
              forall name :: name in resolved ==> r.value[Sanitized(name)] == resolved[name]
    ensures AllLabels(resolved.Keys) ==> InjectiveOn(resolved.Keys)
  {
    if AllLabels(resolved.Keys) {
      LabelsAreInjective(resolved.Keys);
    }
    var subAgents: map<string, ResolvedSubAgent> := map[];
    var rest := resolved.Keys;
    ghost var done: set<string> := {};
    while rest != {}
      invariant done + rest == resolved.Keys && done !! rest
      invariant IsSubAgentsMap(subAgents, resolved, done)
      invariant forall name :: name in done ==> resolved[name].interactionType != ""
      decreases rest
    {
      var name :| name in rest;
      if resolved[name].interactionType == "" {
        return Err(name);
      }
      SubAgentsMapStep(subAgents, resolved, done, name);
      subAgents := subAgents[Sanitized(name) := resolved[name]];
      rest, done := rest - {name}, done + {name};
    }
    SanitizedCount(resolved.Keys);
    assert |subAgents| == |subAgents.Keys|;
    r := Ok(subAgents);
  }

  lemma InjectiveOnMore(names: set<string>, name: string)
    requires name !in names
    ensures InjectiveOn(names + {name}) <==>
            InjectiveOn(names) && Sanitized(name) !in SanitizedNames(names)
  {
    if InjectiveOn(names + {name}) {
      forall other | other in names
        ensures Sanitized(other) != Sanitized(name)
      {
        assert other in names + {name} && name in names + {name};
      }
      assert forall a :: a in names ==> a in names + {name};
    }
  }

  ghost predicate AllLabels(names: set<string>) {
    forall name :: name in names ==> IsLabel(name)
  }

  /** DNS labels are never sanitized alike. */
  lemma LabelsAreInjective(names: set<string>)
    requires forall name :: name in names ==> IsLabel(name)
    ensures AllLabels(names) && InjectiveOn(names)
  {
    forall a, b | a in names && b in names && Sanitized(a) == Sanitized(b)
      ensures a == b
    {
      SanitizedInjectiveOnLabels(a, b);
    }
  }
}
