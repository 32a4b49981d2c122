/** What a run of `create-qflow` leaves in the project directory, for each
    workflow style, and when it fails. */
module ProjectLayout {
  import opened FileTree
  import opened CreateQflow
  import opened CreateQflowProps

  /** The two variants that the functional style does not use. */
  const Workflows2Js: Path := ["src", "workflows2.js"]
  const Workflows3Js: Path := ["src", "workflows3.js"]

  /** A path under the project root determines the relative path it came from,
      so distinct relative paths name distinct files of the project. */
  lemma Relative(root: Path, q: Path)
    ensures (root + q)[|root|..] == q
  {
  }

  /** The three workflow variants under the project's `src/`. */
  function WorkflowPaths(root: Path): set<Path> {
    Children(root + Src, WorkflowFiles)
  }

  /** What the functional, spread and class branch deletes from the project. */
  function CleanedPaths(root: Path): set<Path> {
    {root + GenericNode, root + AgentJs, root + IndexAgentJs, root + DotEnvFile} + WorkflowPaths(root)
  }

  lemma WorkflowPathsAre(root: Path)
    ensures WorkflowPaths(root) == {root + WorkflowJs, root + Workflows2Js, root + Workflows3Js}
  {
    assert root + Src + ["workflows.js"] == root + WorkflowJs;
    assert root + Src + ["workflows2.js"] == root + Workflows2Js;
    assert root + Src + ["workflows3.js"] == root + Workflows3Js;
  }

  lemma MinusEach<K, V>(f: map<K, V>, a: K, b: K, c: K, d: K, rest: set<K>)
    ensures ((((f - {a}) - {b}) - {c}) - {d}) - rest == f - ({a, b, c, d} + rest)
  {
  }

  /** The deletions of the functional, spread and class branch remove exactly
      the agent files, `.env` and the three variants, present or not. */
  lemma CleanupFiles(t0: Tree, root: Path)
    ensures UnlinkEach(RemoveAgentFiles(t0, root), root + Src, WorkflowFiles).files
      == t0.files - CleanedPaths(root)
  {
    var t5 := RemoveAgentFiles(t0, root);
    UnlinkEachRemoves(t5, root + Src, WorkflowFiles);
    MinusEach(t0.files, root + GenericNode, root + AgentJs, root + IndexAgentJs, root + DotEnvFile, WorkflowPaths(root));
  }

  /** The files the functional, spread and class branch leaves, once it has
      succeeded from the copied tree `t0`: the copy, less the agent files, the
      `.env` file and the three variants, plus `src/workflows.js` holding the
      chosen variant of the template. */
  lemma WorkflowRuleFiles(t0: Tree, template: Tree, root: Path, style: Style)
    requires style != Agent
    requires WorkflowRule(t0, template, root, style).Success?
    ensures WorkflowRule(t0, template, root, style).fs.files
      == (t0.files - CleanedPaths(root))[root + WorkflowJs := template.files[Src + [WorkflowSource(style)]]]
  {
    var t6 := UnlinkEach(RemoveAgentFiles(t0, root), root + Src, WorkflowFiles);
    CleanupFiles(t0, root);
    var r := CopyFile(t6, template, Src + [WorkflowSource(style)], root + WorkflowJs);
    assert WorkflowRule(t0, template, root, style) == Must(r, t6);
  }

  /** What removing the cleaned paths from `f` and writing `c` to
      `src/workflows.js` leaves: the file written, none of the others removed,
      and everything else as in `f`. */
  lemma CleanedLayout(f: map<Path, Content>, root: Path, c: Content)
    ensures var g := (f - CleanedPaths(root))[root + WorkflowJs := c];
      && root + WorkflowJs in g && g[root + WorkflowJs] == c
      && root + Workflows2Js !in g
      && root + Workflows3Js !in g
      && root + GenericNode !in g
      && root + AgentJs !in g
      && root + IndexAgentJs !in g
      && root + DotEnvFile !in g
      && forall p :: p !in CleanedPaths(root) ==> (p in f <==> p in g) && (p in f ==> f[p] == g[p])
  {
    WorkflowPathsAre(root);
    Relative(root, WorkflowJs);
    Relative(root, Workflows2Js);
    Relative(root, Workflows3Js);
    Relative(root, GenericNode);
    Relative(root, AgentJs);
    Relative(root, IndexAgentJs);
    Relative(root, DotEnvFile);
  }

  /** After the functional, spread or class branch, `src/workflows.js` holds the
      chosen variant, no other variant and no agent file or `.env` is left, and
      every other path keeps what the copy put there. */
  lemma WorkflowRuleLayout(t0: Tree, template: Tree, root: Path, style: Style)
    requires style != Agent
    requires WorkflowRule(t0, template, root, style).Success?
    ensures var t := WorkflowRule(t0, template, root, style).fs;
      && root + WorkflowJs in t.files
      && t.files[root + WorkflowJs] == template.files[Src + [WorkflowSource(style)]]
      && root + Workflows2Js !in t.files
      && root + Workflows3Js !in t.files
      && root + GenericNode !in t.files
      && root + AgentJs !in t.files
      && root + IndexAgentJs !in t.files
      && root + DotEnvFile !in t.files
      && forall p :: p !in CleanedPaths(root) ==> SameFileAt(t0, t, p)
  {
    WorkflowRuleFiles(t0, template, root, style);
    CleanedLayout(t0.files, root, template.files[Src + [WorkflowSource(style)]]);
  }

  /** What the agent branch writes or deletes in the project. */
  function AgentPaths(root: Path): set<Path> {
    {root + GenericNode, root + AgentJs, root + IndexJs, root + IndexAgentJs, root + DotEnvFile} + WorkflowPaths(root)
  }

  /** The files the agent branch leaves, once it has succeeded from the copied
      tree `t0`: the node and `agent.js` copied from the template, `index.js`
      replaced by the template's `indexAgent.js`, `indexAgent.js` and the three
      variants removed, and the `.env` file written. */
  lemma AgentRuleFiles(t0: Tree, template: Tree, root: Path)
    requires AgentRule(t0, template, root).Success?
    ensures GenericNode in template.files && AgentJs in template.files && IndexAgentJs in template.files
    ensures AgentRule(t0, template, root).fs.files
      == AgentEdits(t0.files, root, template.files[GenericNode], template.files[AgentJs], template.files[IndexAgentJs], EnvContent)
  {
    var t1 := MkdirP(t0, root + NodesDir).value;
    var t2 := CopyFile(t1, template, GenericNode, root + GenericNode).value;
    var t3 := CopyFile(t2, template, AgentJs, root + AgentJs).value;
    assert AddAgentFiles(t0, template, root) == Success(t3);
    var t4 := TryUnlink(t3, root + IndexJs);
    var t5 := CopyFile(t4, template, IndexAgentJs, root + IndexJs).value;
    var t6 := TryUnlink(t5, root + IndexAgentJs);
    assert SwapIndex(t3, template, root) == Success(t6);
    var t7 := UnlinkEach(t6, root + Src, WorkflowFiles);
    UnlinkEachRemoves(t6, root + Src, WorkflowFiles);
    var t8 := WriteFile(t7, root + DotEnvFile, EnvContent).value;
    assert AgentRule(t0, template, root) == Success(t8);
  }

  /** What the agent branch's edits leave of the files `f`, with `g`, `a` and
      `ia` the template's node, `agent.js` and `indexAgent.js`, and `env` the
      text of the `.env` file. */
  function AgentEdits(f: map<Path, Content>, root: Path, g: Content, a: Content, ia: Content, env: Content): map<Path, Content> {
    ((((f[root + GenericNode := g][root + AgentJs := a] - {root + IndexJs})[root + IndexJs := ia])
      - {root + IndexAgentJs}) - WorkflowPaths(root))[root + DotEnvFile := env]
  }

  /** The agent branch's edits put each file it writes in place. */
  lemma AgentEditsWritten(f: map<Path, Content>, root: Path, g: Content, a: Content, ia: Content, env: Content)
    ensures var h := AgentEdits(f, root, g, a, ia, env);
      && root + GenericNode in h && h[root + GenericNode] == g
      && root + AgentJs in h && h[root + AgentJs] == a
      && root + IndexJs in h && h[root + IndexJs] == ia
      && root + DotEnvFile in h && h[root + DotEnvFile] == env
  {
    WorkflowPathsAre(root);
    Relative(root, GenericNode);
    Relative(root, AgentJs);
    Relative(root, IndexJs);
    Relative(root, IndexAgentJs);
    Relative(root, WorkflowJs);
    Relative(root, Workflows2Js);
    Relative(root, Workflows3Js);
    Relative(root, DotEnvFile);
  }

  /** The agent branch's edits remove `indexAgent.js` and every variant. */
  lemma AgentEditsRemoved(f: map<Path, Content>, root: Path, g: Content, a: Content, ia: Content, env: Content)
    ensures var h := AgentEdits(f, root, g, a, ia, env);
      && root + IndexAgentJs !in h
      && root + WorkflowJs !in h
      && root + Workflows2Js !in h
      && root + Workflows3Js !in h
  {
    WorkflowPathsAre(root);
    Relative(root, IndexAgentJs);
    Relative(root, WorkflowJs);
    Relative(root, Workflows2Js);
    Relative(root, Workflows3Js);
    Relative(root, DotEnvFile);
  }

  /** The agent branch's edits leave every other path alone. */
  lemma AgentEditsKeep(f: map<Path, Content>, root: Path, g: Content, a: Content, ia: Content, env: Content)
    ensures var h := AgentEdits(f, root, g, a, ia, env);
      forall p :: p !in AgentPaths(root) ==> (p in f <==> p in h) && (p in f ==> f[p] == h[p])
  {
  }

  /** After the agent branch, `src/index.js` holds the template's
      `indexAgent.js`, the node and `agent.js` hold their template contents,
      `indexAgent.js` and every workflow variant are gone, `.env` holds the
      agent settings, and every other path keeps what the copy put there. */
  lemma AgentRuleLayout(t0: Tree, template: Tree, root: Path)
    requires AgentRule(t0, template, root).Success?
    ensures var t := AgentRule(t0, template, root).fs;
      && GenericNode in template.files && AgentJs in template.files && IndexAgentJs in template.files
      && root + GenericNode in t.files && t.files[root + GenericNode] == template.files[GenericNode]
      && root + AgentJs in t.files && t.files[root + AgentJs] == template.files[AgentJs]
      && root + IndexJs in t.files && t.files[root + IndexJs] == template.files[IndexAgentJs]
      && root + IndexAgentJs !in t.files
      && root + WorkflowJs !in t.files
      && root + Workflows2Js !in t.files
      && root + Workflows3Js !in t.files
      && root + DotEnvFile in t.files && t.files[root + DotEnvFile] == EnvContent
      && forall p :: p !in AgentPaths(root) ==> SameFileAt(t0, t, p)
  {
    AgentRuleFiles(t0, template, root);
    AgentEditsWritten(t0.files, root, template.files[GenericNode], template.files[AgentJs], template.files[IndexAgentJs], EnvContent);
    AgentEditsRemoved(t0.files, root, template.files[GenericNode], template.files[AgentJs], template.files[IndexAgentJs], EnvContent);
    AgentEditsKeep(t0.files, root, template.files[GenericNode], template.files[AgentJs], template.files[IndexAgentJs], EnvContent);
  }
}
