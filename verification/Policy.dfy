/** The policy document, its validation, and the immutable snapshot built from it. */
module PolicySchema {
  import opened Contracts

  datatype EnvironmentMode = ModeAllow | ModeRequireApproval | ModeDeny

  datatype AgentDocument = AgentDocument(id: string, commands: seq<string>)

  datatype TargetDocument = TargetDocument(id: string, environment: string, isProtected: Option<bool>)

  /** The decoded YAML document. */
  datatype Document = Document(
    version: string, maxParallelTasks: int, environments: map<string, string>,
    commands: seq<string>, agents: seq<AgentDocument>, targets: seq<TargetDocument>)

  datatype PolicyTarget = PolicyTarget(id: string, environment: string, isProtected: bool)

  datatype Snapshot = Snapshot(
    version: string, digest: string, maxParallelTasks: int,
    environments: map<string, EnvironmentMode>, commands: set<string>,
    agents: map<string, set<string>>, targets: map<string, PolicyTarget>)

  const MAX_PARALLEL_TASKS_LIMIT := 10000

  // ---- Name patterns ----------------------------------------------------------------

  predicate Lower(c: char) { 'a' <= c <= 'z' }
  predicate Upper(c: char) { 'A' <= c <= 'Z' }
  predicate Digit(c: char) { '0' <= c <= '9' }
  predicate IdChar(c: char) { Lower(c) || Upper(c) || Digit(c) || c == '.' || c == '_' || c == '-' }

  predicate VersionName(s: string) {
    1 <= |s| <= 64 && forall i :: 0 <= i < |s| ==> IdChar(s[i]) || s[i] == ':'
  }

  predicate EnvironmentName(s: string) {
    1 <= |s| <= 32 && Lower(s[0]) && forall i :: 1 <= i < |s| ==> Lower(s[i]) || Digit(s[i]) || s[i] == '_' || s[i] == '-'
  }

  predicate CommandName(s: string) {
    1 <= |s| <= 64 && Upper(s[0]) && forall i :: 1 <= i < |s| ==> Upper(s[i]) || Digit(s[i]) || s[i] == '_'
  }

  predicate AgentName(s: string) {
    1 <= |s| <= 64 && forall i :: 0 <= i < |s| ==> IdChar(s[i])
  }

  predicate TargetName(s: string) {
    1 <= |s| <= 128 && forall i :: 0 <= i < |s| ==> IdChar(s[i]) || s[i] == ':'
  }

  function ModeNamed(text: string): Option<EnvironmentMode> {
    if text == "allow" then Some(ModeAllow)
    else if text == "require_approval" then Some(ModeRequireApproval)
    else if text == "deny" then Some(ModeDeny)
    else None
  }

  /** The text that a document declares a mode with. */
  function ModeText(mode: EnvironmentMode): string {
    match mode
    case ModeAllow => "allow"
    case ModeRequireApproval => "require_approval"
    case ModeDeny => "deny"
  }

  /** A text names a mode exactly if it is the mode's own text. */
  lemma ModeNamedIsItsText(text: string, mode: EnvironmentMode)
    ensures ModeNamed(text) == Some(mode) <==> text == ModeText(mode)
  {
    assert "allow"[0] != "require_approval"[0] && "allow"[0] != "deny"[0] && "deny"[0] != "require_approval"[0];
  }

  // ---- Validity, rule by rule -------------------------------------------------------

  predicate Distinct(names: seq<string>) {
    forall i, j :: 0 <= i < j < |names| ==> names[i] != names[j]
  }

  function Names(names: seq<string>): set<string> {
    set i | 0 <= i < |names| :: names[i]
  }

  predicate ValidEnvironment(name: string, mode: string) {
    EnvironmentName(name) && ModeNamed(mode).Some?
  }

  predicate ValidEnvironments(environments: map<string, string>) {
    environments != map[] && forall e :: e in environments ==> ValidEnvironment(e, environments[e])
  }

  predicate ValidCommands(commands: seq<string>) {
    Distinct(commands) && forall i :: 0 <= i < |commands| ==> CommandName(commands[i])
  }

  predicate ValidGrants(granted: seq<string>, catalogue: seq<string>) {
    Distinct(granted) && forall i :: 0 <= i < |granted| ==> granted[i] in catalogue
  }

  predicate ValidAgent(a: AgentDocument, catalogue: seq<string>) {
    AgentName(a.id) && a.commands != [] && ValidGrants(a.commands, catalogue)
  }

  predicate ValidAgents(agents: seq<AgentDocument>, catalogue: seq<string>) {
    ValidAgentsTo(agents, |agents|, catalogue)
  }

  /** The first `n` agents are valid and have distinct IDs. */
  predicate ValidAgentsTo(agents: seq<AgentDocument>, n: nat, catalogue: seq<string>)
    requires n <= |agents|
  {
    && (forall i, j :: 0 <= i < j < n ==> agents[i].id != agents[j].id)
    && (forall i :: 0 <= i < n ==> ValidAgent(agents[i], catalogue))
  }

  predicate ValidTarget(t: TargetDocument, environments: set<string>) {
    TargetName(t.id) && t.environment in environments && t.isProtected.Some?
  }

  predicate ValidTargets(targets: seq<TargetDocument>, environments: set<string>) {
    ValidTargetsTo(targets, |targets|, environments)
  }

  /** The first `n` targets are valid and have distinct IDs. */
  predicate ValidTargetsTo(targets: seq<TargetDocument>, n: nat, environments: set<string>)
    requires n <= |targets|
  {
    && (forall i, j :: 0 <= i < j < n ==> targets[i].id != targets[j].id)
    && (forall i :: 0 <= i < n ==> ValidTarget(targets[i], environments))
  }

  /** The rules a policy document must satisfy; there are no defaults. */
  predicate ValidDocument(doc: Document) {
    && VersionName(doc.version)
    && 1 <= doc.maxParallelTasks <= MAX_PARALLEL_TASKS_LIMIT
    && ValidEnvironments(doc.environments)
    && doc.commands != [] && ValidCommands(doc.commands)
    && doc.agents != [] && ValidAgents(doc.agents, doc.commands)
    && doc.targets != [] && ValidTargets(doc.targets, doc.environments.Keys)
  }

  /** What the built maps must say about the document they came from. */
  ghost predicate Describes(s: Snapshot, doc: Document) {
    && s.version == doc.version && s.maxParallelTasks == doc.maxParallelTasks
    && s.environments.Keys == doc.environments.Keys
    && (forall e :: e in doc.environments ==> ModeNamed(doc.environments[e]) == Some(s.environments[e]))
    && s.commands == Names(doc.commands)
    && DescribesAgents(s.agents, doc.agents)
    && DescribesTargets(s.targets, doc.targets)
  }

  ghost predicate DescribesAgents(built: map<string, set<string>>, agents: seq<AgentDocument>) {
    DescribesAgentsTo(built, agents, |agents|)
  }

  ghost predicate DescribesAgentsTo(built: map<string, set<string>>, agents: seq<AgentDocument>, n: nat)
    requires n <= |agents|
  {
    && (forall a :: a in built ==> exists i :: 0 <= i < n && agents[i].id == a)
    && (forall i :: 0 <= i < n ==> agents[i].id in built && built[agents[i].id] == Names(agents[i].commands))
  }

  ghost predicate DescribesTargets(built: map<string, PolicyTarget>, targets: seq<TargetDocument>) {
    DescribesTargetsTo(built, targets, |targets|)
  }

  predicate Registers(built: PolicyTarget, t: TargetDocument) {
    built.id == t.id && built.environment == t.environment && t.isProtected == Some(built.isProtected)
  }

  ghost predicate DescribesTargetsTo(built: map<string, PolicyTarget>, targets: seq<TargetDocument>, n: nat)
    requires n <= |targets|
  {
    && (forall t :: t in built ==> exists i :: 0 <= i < n && targets[i].id == t)
    && (forall i :: 0 <= i < n ==> targets[i].id in built && Registers(built[targets[i].id], targets[i]))
  }

  // ---- build ------------------------------------------------------------------------

  /** Reads the environment map in some order, the one the runtime happens to choose. */
  method BuildEnvironments(environments: map<string, string>) returns (built: Option<map<string, EnvironmentMode>>)
    ensures built.Some? <==> ValidEnvironments(environments)
    ensures built.Some? ==>
              && built.value.Keys == environments.Keys
              && forall e :: e in environments ==> ModeNamed(environments[e]) == Some(built.value[e])
    // An environment keeps the mode its document declares.
    ensures built.Some? ==> forall e :: e in environments ==> environments[e] == ModeText(built.value[e])
  {
    if |environments| == 0 {
      return None;
    }
    var modes: map<string, EnvironmentMode> := map[];
    var left := environments.Keys;
    while left != {}
      invariant left <= environments.Keys
      invariant modes.Keys == environments.Keys - left
      invariant forall e :: e in modes ==>
                  ValidEnvironment(e, environments[e]) && ModeNamed(environments[e]) == Some(modes[e])
      decreases |left|
    {
      var name :| name in left;
      if !EnvironmentName(name) || ModeNamed(environments[name]).None? {
        assert !ValidEnvironment(name, environments[name]);
        return None;
      }
      modes := modes[name := ModeNamed(environments[name]).value];
      left := left - {name};
    }
    forall e | e in environments ensures environments[e] == ModeText(modes[e]) {
      ModeNamedIsItsText(environments[e], modes[e]);
    }
    built := Some(modes);
  }

  method BuildCommands(commands: seq<string>) returns (built: Option<set<string>>)
    ensures built.Some? <==> commands != [] && ValidCommands(commands)
    ensures built.Some? ==> built.value == Names(commands)
  {
    if |commands| == 0 {
      return None;
    }
    var seen: set<string> := {};
    var i := 0;
    while i < |commands|
      invariant 0 <= i <= |commands|
      invariant seen == Names(commands[..i])
      invariant ValidCommands(commands[..i])
    {
      if !CommandName(commands[i]) || commands[i] in seen {
        return None;
      }
      seen := seen + {commands[i]};
      i := i + 1;
    }
    assert commands[..i] == commands;
    built := Some(seen);
  }

  method BuildGrants(granted: seq<string>, commands: set<string>, ghost catalogue: seq<string>) returns (built: Option<set<string>>)
    requires commands == Names(catalogue)
    ensures built.Some? <==> ValidGrants(granted, catalogue)
    ensures built.Some? ==> built.value == Names(granted)
  {
    var allowed: set<string> := {};
    var i := 0;
    while i < |granted|
      invariant 0 <= i <= |granted|
      invariant allowed == Names(granted[..i])
      invariant ValidGrants(granted[..i], catalogue)
    {
      if granted[i] !in commands || granted[i] in allowed {
        return None;
      }
      allowed := allowed + {granted[i]};
      i := i + 1;
    }
    assert granted[..i] == granted;
    built := Some(allowed);
  }

  lemma AgentAdded(known: map<string, set<string>>, agents: seq<AgentDocument>, i: nat, catalogue: seq<string>)
    requires i < |agents| && ValidAgentsTo(agents, i, catalogue) && DescribesAgentsTo(known, agents, i)
    requires ValidAgent(agents[i], catalogue) && agents[i].id !in known
    ensures ValidAgentsTo(agents, i + 1, catalogue)
    ensures DescribesAgentsTo(known[agents[i].id := Names(agents[i].commands)], agents, i + 1)
  {
  }

  method BuildAgents(agents: seq<AgentDocument>, commands: set<string>, ghost catalogue: seq<string>)
    returns (built: Option<map<string, set<string>>>)
    requires commands == Names(catalogue)
    ensures built.Some? <==> agents != [] && ValidAgents(agents, catalogue)
    ensures built.Some? ==> DescribesAgents(built.value, agents)
  {
    if |agents| == 0 {
      return None;
    }
    var known: map<string, set<string>> := map[];
    var i := 0;
    while i < |agents|
      invariant 0 <= i <= |agents|
      invariant ValidAgentsTo(agents, i, catalogue)
      invariant DescribesAgentsTo(known, agents, i)
    {
      var a := agents[i];
      if !AgentName(a.id) || a.id in known || |a.commands| == 0 {
        return None;
      }
      var allowed := BuildGrants(a.commands, commands, catalogue);
      if allowed.None? {
        return None;
      }
      AgentAdded(known, agents, i, catalogue);
      known := known[a.id := allowed.value];
      i := i + 1;
    }
    built := Some(known);
  }

  lemma TargetAdded(known: map<string, PolicyTarget>, targets: seq<TargetDocument>, i: nat, environments: set<string>,
                    added: PolicyTarget)
    requires i < |targets| && ValidTargetsTo(targets, i, environments) && DescribesTargetsTo(known, targets, i)
    requires ValidTarget(targets[i], environments) && targets[i].id !in known && Registers(added, targets[i])
    ensures ValidTargetsTo(targets, i + 1, environments)
    ensures DescribesTargetsTo(known[targets[i].id := added], targets, i + 1)
  {
  }

  method BuildTargets(targets: seq<TargetDocument>, environments: set<string>)
    returns (built: Option<map<string, PolicyTarget>>)
    ensures built.Some? <==> targets != [] && ValidTargets(targets, environments)
    ensures built.Some? ==> DescribesTargets(built.value, targets)
  {
    if |targets| == 0 {
      return None;
    }
    var known: map<string, PolicyTarget> := map[];
    var i := 0;
    while i < |targets|
      invariant 0 <= i <= |targets|
      invariant ValidTargetsTo(targets, i, environments)
      invariant DescribesTargetsTo(known, targets, i)
    {
      var t := targets[i];
      if !TargetName(t.id) || t.id in known || t.environment !in environments || t.isProtected.None? {
        return None;
      }
      var added := PolicyTarget(t.id, t.environment, t.isProtected.value);
      TargetAdded(known, targets, i, environments, added);
      known := known[t.id := added];
      i := i + 1;
    }
    built := Some(known);
  }

  /** Accepts a document exactly when it is valid, and describes it. */
  method Build(doc: Document, digest: string) returns (s: Option<Snapshot>)
    ensures s.Some? <==> ValidDocument(doc)
    ensures s.Some? ==> Describes(s.value, doc) && s.value.digest == digest
    ensures s.Some? ==> forall e :: e in doc.environments ==> doc.environments[e] == ModeText(s.value.environments[e])
  {
    if doc.version == "" || !VersionName(doc.version) {
      return None;
    }
    if doc.maxParallelTasks < 1 || doc.maxParallelTasks > MAX_PARALLEL_TASKS_LIMIT {
      return None;
    }
    var environments := BuildEnvironments(doc.environments);
    if environments.None? {
      return None;
    }
    var commands := BuildCommands(doc.commands);
    if commands.None? {
      return None;
    }
    var agents := BuildAgents(doc.agents, commands.value, doc.commands);
    if agents.None? {
      return None;
    }
    var targets := BuildTargets(doc.targets, environments.value.Keys);
    if targets.None? {
      return None;
    }
    s := Some(Snapshot(doc.version, digest, doc.maxParallelTasks,
                       environments.value, commands.value, agents.value, targets.value));
  }

  /** The references inside a snapshot resolve. */
  ghost predicate Consistent(s: Snapshot) {
    && (forall a :: a in s.agents ==> s.agents[a] <= s.commands)
    && (forall t :: t in s.targets ==> s.targets[t].environment in s.environments)
  }

  lemma BuiltIsConsistent(s: Snapshot, doc: Document)
    requires ValidDocument(doc) && Describes(s, doc)
    ensures Consistent(s)
  {
    forall a | a in s.agents
      ensures s.agents[a] <= s.commands
    {
      var i :| 0 <= i < |doc.agents| && doc.agents[i].id == a;
      var granted := doc.agents[i].commands;
      forall c | c in s.agents[a] ensures c in s.commands {
        var j :| 0 <= j < |granted| && granted[j] == c;
        assert granted[j] in doc.commands;
        var k :| 0 <= k < |doc.commands| && doc.commands[k] == c;
      }
    }
    forall t | t in s.targets
      ensures s.targets[t].environment in s.environments
    {
      var i :| 0 <= i < |doc.targets| && doc.targets[i].id == t;
    }
  }

  /** The description fixes the snapshot, so the order in which the environments were read
      cannot show in the result. */
  lemma DescriptionIsUnique(s: Snapshot, t: Snapshot, doc: Document)
    requires ValidDocument(doc) && Describes(s, doc) && Describes(t, doc) && s.digest == t.digest
    ensures s == t
  {
    assert s.environments == t.environments;
    AgentsAreUnique(s.agents, t.agents, doc.agents);
    TargetsAreUnique(s.targets, t.targets, doc.targets);
  }

  lemma AgentsAreUnique(a: map<string, set<string>>, b: map<string, set<string>>, agents: seq<AgentDocument>)
    requires DescribesAgents(a, agents) && DescribesAgents(b, agents)
    ensures a == b
  {
    forall id | id in a || id in b ensures id in a && id in b && a[id] == b[id] {
      var i :| 0 <= i < |agents| && agents[i].id == id;
    }
  }

  lemma TargetsAreUnique(a: map<string, PolicyTarget>, b: map<string, PolicyTarget>, targets: seq<TargetDocument>)
    requires DescribesTargets(a, targets) && DescribesTargets(b, targets)
    ensures a == b
  {
    forall id | id in a || id in b ensures id in a && id in b && a[id] == b[id] {
      var i :| 0 <= i < |targets| && targets[i].id == id;
    }
  }
}
