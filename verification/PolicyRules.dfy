/** The policy in the words of its document: which documents are accepted, and which verdict a
    document gives, without the snapshot or the rules it is evaluated by. */
module PolicyRules {
  import opened Contracts
  import opened PolicySchema
  import opened Evaluation

  // ---- Names, by ASCII code ---------------------------------------------------------

  predicate LowerCode(n: int) { 97 <= n <= 122 }
  predicate UpperCode(n: int) { 65 <= n <= 90 }
  predicate DigitCode(n: int) { 48 <= n <= 57 }

  /** Letters, digits, full stop, underscore and hyphen. */
  predicate IdCode(n: int) { LowerCode(n) || UpperCode(n) || DigitCode(n) || n == 46 || n == 95 || n == 45 }

  /** The documented pattern of a version is [A-Za-z0-9._:-]{1,64}, and so on. */
  predicate VersionPattern(s: string) {
    1 <= |s| <= 64 && forall i :: 0 <= i < |s| ==> IdCode(s[i] as int) || s[i] as int == 58
  }

  predicate EnvironmentPattern(s: string) {
    && 1 <= |s| <= 32 && LowerCode(s[0] as int)
    && forall i :: 1 <= i < |s| ==> LowerCode(s[i] as int) || DigitCode(s[i] as int) || s[i] as int == 95 || s[i] as int == 45
  }

  predicate CommandPattern(s: string) {
    && 1 <= |s| <= 64 && UpperCode(s[0] as int)
    && forall i :: 1 <= i < |s| ==> UpperCode(s[i] as int) || DigitCode(s[i] as int) || s[i] as int == 95
  }

  predicate AgentPattern(s: string) {
    1 <= |s| <= 64 && forall i :: 0 <= i < |s| ==> IdCode(s[i] as int)
  }

  predicate TargetPattern(s: string) {
    1 <= |s| <= 128 && forall i :: 0 <= i < |s| ==> IdCode(s[i] as int) || s[i] as int == 58
  }

  lemma CharactersMatch(c: char)
    ensures Lower(c) == LowerCode(c as int) && Upper(c) == UpperCode(c as int) && Digit(c) == DigitCode(c as int)
    ensures IdChar(c) == IdCode(c as int)
    ensures (c == ':') == (c as int == 58) && (c == '_') == (c as int == 95) && (c == '-') == (c as int == 45)
  {
  }

  /** Each name predicate is its pattern. */
  lemma NamesMatch(s: string)
    ensures VersionName(s) == VersionPattern(s)
    ensures EnvironmentName(s) == EnvironmentPattern(s)
    ensures CommandName(s) == CommandPattern(s)
    ensures AgentName(s) == AgentPattern(s)
    ensures TargetName(s) == TargetPattern(s)
  {
    forall i | 0 <= i < |s|
      ensures Lower(s[i]) == LowerCode(s[i] as int) && Upper(s[i]) == UpperCode(s[i] as int)
      ensures Digit(s[i]) == DigitCode(s[i] as int) && IdChar(s[i]) == IdCode(s[i] as int)
      ensures (s[i] == ':') == (s[i] as int == 58) && (s[i] == '_') == (s[i] as int == 95) && (s[i] == '-') == (s[i] as int == 45)
    {
      CharactersMatch(s[i]);
    }
  }

  // ---- Which documents are accepted -------------------------------------------------

  predicate NoRepeats(names: seq<string>) {
    forall i, j :: 0 <= i < j < |names| ==> names[i] != names[j]
  }

  predicate AgentRules(a: AgentDocument, commands: seq<string>) {
    && AgentPattern(a.id) && |a.commands| > 0 && NoRepeats(a.commands)
    && forall i :: 0 <= i < |a.commands| ==> a.commands[i] in commands
  }

  predicate TargetRules(t: TargetDocument, environments: map<string, string>) {
    TargetPattern(t.id) && t.environment in environments && t.isProtected != None
  }

  predicate EnvironmentRules(name: string, mode: string) {
    EnvironmentPattern(name) && (mode == "allow" || mode == "require_approval" || mode == "deny")
  }

  /** The documented rules for a policy document. */
  predicate FollowsRules(doc: Document) {
    && VersionPattern(doc.version) && 1 <= doc.maxParallelTasks <= 10000
    && doc.environments != map[] && |doc.commands| > 0 && |doc.agents| > 0 && |doc.targets| > 0
    && (forall e :: e in doc.environments ==> EnvironmentRules(e, doc.environments[e]))
    && NoRepeats(doc.commands) && (forall i :: 0 <= i < |doc.commands| ==> CommandPattern(doc.commands[i]))
    && (forall i :: 0 <= i < |doc.agents| ==> AgentRules(doc.agents[i], doc.commands))
    && (forall i, j :: 0 <= i < j < |doc.agents| ==> doc.agents[i].id != doc.agents[j].id)
    && (forall i :: 0 <= i < |doc.targets| ==> TargetRules(doc.targets[i], doc.environments))
    && (forall i, j :: 0 <= i < j < |doc.targets| ==> doc.targets[i].id != doc.targets[j].id)
  }

  lemma EnvironmentRulesMatch(name: string, mode: string)
    ensures ValidEnvironment(name, mode) <==> EnvironmentRules(name, mode)
  {
    NamesMatch(name);
  }

  lemma AgentRulesMatch(a: AgentDocument, commands: seq<string>)
    ensures ValidAgent(a, commands) <==> AgentRules(a, commands)
  {
    NamesMatch(a.id);
  }

  lemma TargetRulesMatch(t: TargetDocument, environments: map<string, string>)
    ensures ValidTarget(t, environments.Keys) <==> TargetRules(t, environments)
  {
    NamesMatch(t.id);
  }

  lemma CommandRulesMatch(commands: seq<string>)
    ensures ValidCommands(commands) <==> NoRepeats(commands) && forall i :: 0 <= i < |commands| ==> CommandPattern(commands[i])
  {
    forall i | 0 <= i < |commands| ensures CommandName(commands[i]) == CommandPattern(commands[i]) {
      NamesMatch(commands[i]);
    }
  }

  /** A document is accepted exactly when it follows the documented rules. */
  lemma AcceptedIffRulesAreFollowed(doc: Document)
    ensures ValidDocument(doc) <==> FollowsRules(doc)
  {
    NamesMatch(doc.version);
    forall e | e in doc.environments ensures ValidEnvironment(e, doc.environments[e]) <==> EnvironmentRules(e, doc.environments[e]) {
      EnvironmentRulesMatch(e, doc.environments[e]);
    }
    CommandRulesMatch(doc.commands);
    forall i | 0 <= i < |doc.agents| ensures ValidAgent(doc.agents[i], doc.commands) <==> AgentRules(doc.agents[i], doc.commands) {
      AgentRulesMatch(doc.agents[i], doc.commands);
    }
    forall i | 0 <= i < |doc.targets| ensures ValidTarget(doc.targets[i], doc.environments.Keys) <==> TargetRules(doc.targets[i], doc.environments) {
      TargetRulesMatch(doc.targets[i], doc.environments);
    }
  }

  // ---- Which verdict a document gives -----------------------------------------------

  /** The document lets the agent use the command. */
  predicate Grants(doc: Document, agentId: string, command: string) {
    exists i :: 0 <= i < |doc.agents| && doc.agents[i].id == agentId && command in doc.agents[i].commands
  }

  predicate Lists(doc: Document, agentId: string) {
    exists i :: 0 <= i < |doc.agents| && doc.agents[i].id == agentId
  }

  /** The document has this entry for the target, in an environment with this mode text. */
  predicate Registered(doc: Document, targetId: string, isProtected: bool, mode: string) {
    exists i :: 0 <= i < |doc.targets| && doc.targets[i].id == targetId && doc.targets[i].isProtected == Some(isProtected)
                && doc.targets[i].environment in doc.environments && doc.environments[doc.targets[i].environment] == mode
  }

  lemma AgentsOfDocument(doc: Document, s: Snapshot, agentId: string, command: string)
    requires ValidDocument(doc) && Describes(s, doc)
    ensures agentId in s.agents <==> Lists(doc, agentId)
    ensures agentId in s.agents && command in s.agents[agentId] <==> Grants(doc, agentId, command)
    ensures command in s.commands <==> command in doc.commands
  {
    if agentId in s.agents {
      var i :| 0 <= i < |doc.agents| && doc.agents[i].id == agentId;
      assert s.agents[agentId] == Names(doc.agents[i].commands);
    }
  }

  lemma TargetsOfDocument(doc: Document, s: Snapshot, targetId: string)
    requires ValidDocument(doc) && Describes(s, doc)
    ensures targetId in s.targets <==> exists i :: 0 <= i < |doc.targets| && doc.targets[i].id == targetId
    ensures targetId in s.targets ==>
              && s.targets[targetId].environment in doc.environments
              && Registered(doc, targetId, s.targets[targetId].isProtected, doc.environments[s.targets[targetId].environment])
    ensures forall isProtected, mode :: Registered(doc, targetId, isProtected, mode) ==>
              && targetId in s.targets && s.targets[targetId].isProtected == isProtected
              && doc.environments[s.targets[targetId].environment] == mode
  {
    if targetId in s.targets {
      var i :| 0 <= i < |doc.targets| && doc.targets[i].id == targetId;
      assert Registers(s.targets[targetId], doc.targets[i]) && ValidTarget(doc.targets[i], doc.environments.Keys);
    }
  }

  /** What the mode text of a registered target's environment means. */
  lemma ModeOfDocument(doc: Document, s: Snapshot, targetId: string, isProtected: bool, mode: string)
    requires ValidDocument(doc) && Describes(s, doc) && Registered(doc, targetId, isProtected, mode)
    ensures ModeFor(s, targetId) ==
            Some(if mode == "allow" then ModeAllow else if mode == "require_approval" then ModeRequireApproval else ModeDeny)
  {
    TargetsOfDocument(doc, s, targetId);
    var e := s.targets[targetId].environment;
    assert ValidEnvironment(e, doc.environments[e]);
  }

  lemma ModesAreTheThree(doc: Document, s: Snapshot, targetId: string, isProtected: bool, mode: string)
    requires ValidDocument(doc) && Describes(s, doc) && Registered(doc, targetId, isProtected, mode)
    ensures mode == "allow" || mode == "require_approval" || mode == "deny"
  {
    TargetsOfDocument(doc, s, targetId);
    var e := s.targets[targetId].environment;
    EnvironmentRulesMatch(e, doc.environments[e]);
    assert ValidEnvironment(e, doc.environments[e]);
  }

  /** ALLOW means exactly: the document grants the agent the command, and registers the target as
      unprotected in an environment whose mode text is "allow". */
  lemma DocumentAllows(doc: Document, s: Snapshot, agentId: string, p: AgentProposal)
    requires ValidDocument(doc) && Describes(s, doc)
    ensures Evaluate(Some(s), agentId, p).verdict == Allow <==>
              Grants(doc, agentId, p.command) && Registered(doc, p.targetId, false, "allow")
  {
    BuiltIsConsistent(s, doc);
    VerdictIsExact(s, agentId, p);
    AgentsOfDocument(doc, s, agentId, p.command);
    TargetsOfDocument(doc, s, p.targetId);
    if p.targetId in s.targets {
      var t := s.targets[p.targetId];
      ModeOfDocument(doc, s, p.targetId, t.isProtected, doc.environments[t.environment]);
      ModesAreTheThree(doc, s, p.targetId, t.isProtected, doc.environments[t.environment]);
    }
  }

  /** DENY and REQUIRE_APPROVAL, with their reasons, in the words of the document. */
  lemma DocumentRefuses(doc: Document, s: Snapshot, agentId: string, p: AgentProposal)
    requires ValidDocument(doc) && Describes(s, doc)
    ensures var d := Evaluate(Some(s), agentId, p);
            && (AgentUnknown in d.reasons <==> !Lists(doc, agentId))
            && (CommandUnknown in d.reasons <==> p.command !in doc.commands)
            && (CommandNotPermitted in d.reasons <==>
                  Lists(doc, agentId) && p.command in doc.commands && !Grants(doc, agentId, p.command))
            && (TargetUnregistered in d.reasons <==> !exists i :: 0 <= i < |doc.targets| && doc.targets[i].id == p.targetId)
            && (TargetProtected in d.reasons <==> exists mode :: Registered(doc, p.targetId, true, mode))
            && (EnvironmentDenied in d.reasons <==> exists isProtected :: Registered(doc, p.targetId, isProtected, "deny"))
            && (d.verdict == RequireApproval <==>
                  Grants(doc, agentId, p.command) && Registered(doc, p.targetId, false, "require_approval"))
  {
    BuiltIsConsistent(s, doc);
    VerdictIsExact(s, agentId, p);
    ReasonsAreExact(s, agentId, p);
    AgentsOfDocument(doc, s, agentId, p.command);
    TargetsOfDocument(doc, s, p.targetId);
    if p.targetId in s.targets {
      var t := s.targets[p.targetId];
      ModeOfDocument(doc, s, p.targetId, t.isProtected, doc.environments[t.environment]);
      ModesAreTheThree(doc, s, p.targetId, t.isProtected, doc.environments[t.environment]);
    }
  }
}
