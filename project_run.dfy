/** What a whole run of `create-qflow` does to the filesystem: the project it
    leaves for each style, that nothing outside the project changes, when it
    succeeds, and what a failure leaves behind. */
module ProjectRun {
  import opened FileTree
  import opened CreateQflow
  import opened ProjectLayout
  import DotEnv

  /** `u` differs from `t` at most in the files `s`. */
  ghost predicate FilesAgreeOutside(t: Tree, u: Tree, s: set<Path>) {
    forall p :: p !in s ==> SameFileAt(t, u, p)
  }

  /** A step that changes only the files `changed`, all among `s`, keeps a tree
      that agrees with `t0` outside `s` in agreement. */
  lemma StepKeeps(t0: Tree, t: Tree, u: Tree, changed: set<Path>, s: set<Path>)
    requires FilesAgreeOutside(t0, t, s) && changed <= s
    requires forall q :: q !in changed ==> SameFileAt(t, u, q)
    ensures FilesAgreeOutside(t0, u, s)
  {
  }

  /** Removing the files `s` keeps every other file. */
  lemma RemovalKeeps(t: Tree, u: Tree, s: set<Path>)
    requires u.files == t.files - s
    ensures FilesAgreeOutside(t, u, s)
  {
  }

  /** An awaited call that writes at most `dst`, one of `s`, keeps a tree that
      agrees with `t0` outside `s` in agreement, whether it succeeds or not. */
  lemma MustKeeps(t0: Tree, t: Tree, r: Result<Tree>, dst: Path, s: set<Path>)
    requires FilesAgreeOutside(t0, t, s) && dst in s
    requires r.Ok? ==> forall q :: q != dst ==> SameFileAt(t, r.value, q)
    ensures FilesAgreeOutside(t0, Must(r, t).fs, s)
  {
    if r.Ok? {
      forall p | p !in s ensures SameFileAt(t0, r.value, p) {
        assert SameFileAt(t0, t, p) && SameFileAt(t, r.value, p);
      }
    }
  }

  /** The first steps of the agent branch write only the node and `agent.js`,
      and add only directories on the way to `src/nodes`. */
  lemma AddAgentFilesConfined(t0: Tree, template: Tree, root: Path)
    ensures var t := AddAgentFiles(t0, template, root).fs;
      && FilesAgreeOutside(t0, t, {root + GenericNode, root + AgentJs})
      && t0.dirs <= t.dirs
      && forall d :: d in t.dirs && d !in t0.dirs ==> d <= root + NodesDir
  {
  }

  /** The rename of the agent branch touches only `index.js` and
      `indexAgent.js`, and no directory. */
  lemma SwapIndexConfined(t3: Tree, template: Tree, root: Path)
    ensures var t := SwapIndex(t3, template, root).fs;
      FilesAgreeOutside(t3, t, {root + IndexJs, root + IndexAgentJs}) && t.dirs == t3.dirs
  {
  }

  /** The agent branch touches no file but the ones it names, and only adds
      directories on the way to `src/nodes`, whether it succeeds or fails part
      way. */
  lemma AgentRuleConfined(t0: Tree, template: Tree, root: Path)
    ensures var t := AgentRule(t0, template, root).fs;
      && FilesAgreeOutside(t0, t, AgentPaths(root))
      && t0.dirs <= t.dirs
      && forall d :: d in t.dirs && d !in t0.dirs ==> d <= root + NodesDir
  {
    var s := AgentPaths(root);
    AddAgentFilesConfined(t0, template, root);
    var a := AddAgentFiles(t0, template, root);
    StepKeeps(t0, t0, a.fs, {root + GenericNode, root + AgentJs}, s);
    if a.Success? {
      var t3 := a.fs;
      SwapIndexConfined(t3, template, root);
      var b := SwapIndex(t3, template, root);
      StepKeeps(t0, t3, b.fs, {root + IndexJs, root + IndexAgentJs}, s);
      if b.Success? {
        var t6 := b.fs;
        var t7 := UnlinkEach(t6, root + Src, WorkflowFiles);
        AgentTailConfined(t0, t6, root);
        assert AgentRule(t0, template, root) == Must(WriteFile(t7, root + DotEnvFile, EnvContent), t7);
      }
    }
  }

  /** The last steps of the agent branch, the deletion of the variants and the
      write of `.env`, keep a tree that agrees with `t0` outside the agent
      paths in agreement, whether the write succeeds or not. */
  lemma AgentTailConfined(t0: Tree, t6: Tree, root: Path)
    requires FilesAgreeOutside(t0, t6, AgentPaths(root))
    ensures var t7 := UnlinkEach(t6, root + Src, WorkflowFiles);
      FilesAgreeOutside(t0, Must(WriteFile(t7, root + DotEnvFile, EnvContent), t7).fs, AgentPaths(root))
  {
    var s := AgentPaths(root);
    var t7 := UnlinkEach(t6, root + Src, WorkflowFiles);
    CreateQflowProps.UnlinkEachRemoves(t6, root + Src, WorkflowFiles);
    StepKeeps(t0, t6, t7, WorkflowPaths(root), s);
    MustKeeps(t0, t7, WriteFile(t7, root + DotEnvFile, EnvContent), root + DotEnvFile, s);
  }

  /** `src/nodes` is a directory of `t` holding nothing but, at most, the node
      file: the condition under which the non-agent branch removes it. */
  ghost predicate OnlyNodeInNodesDir(t: Tree, root: Path) {
    && root + NodesDir in t.dirs
    && (forall q :: q in t.dirs ==> !(root + NodesDir < q))
    && (forall q :: q in t.files && root + NodesDir < q ==> q == root + GenericNode)
  }

  /** The deletions of the non-agent branch remove exactly the four agent
      files, and remove `src/nodes` exactly when nothing else is left in it. */
  lemma RemoveAgentFilesEffect(t0: Tree, root: Path)
    ensures var t := RemoveAgentFiles(t0, root);
      && t.files == t0.files - {root + GenericNode, root + AgentJs, root + IndexAgentJs, root + DotEnvFile}
      && t.dirs == if OnlyNodeInNodesDir(t0, root) then t0.dirs - {root + NodesDir} else t0.dirs
  {
    var t1 := TryUnlink(t0, root + GenericNode);
    var nodes := root + NodesDir;
    if OnlyNodeInNodesDir(t0, root) {
      assert !HasEntriesBelow(t1, nodes);
    } else if nodes in t0.dirs && forall q :: q in t0.dirs ==> !(nodes < q) {
      var q :| q in t0.files && nodes < q && q != root + GenericNode;
      assert q in t1.files;
    }
  }

  /** The non-agent branch touches no file but the ones it names, whether it
      succeeds or fails. */
  lemma WorkflowRuleKeepsFiles(t0: Tree, template: Tree, root: Path, style: Style)
    ensures FilesAgreeOutside(t0, WorkflowRule(t0, template, root, style).fs, CleanedPaths(root))
  {
    var t6 := UnlinkEach(RemoveAgentFiles(t0, root), root + Src, WorkflowFiles);
    var c := CopyFile(t6, template, Src + [WorkflowSource(style)], root + WorkflowJs);
    CleanupKeepsFiles(t0, root);
    WorkflowPathsAre(root);
    MustKeeps(t0, t6, c, root + WorkflowJs, CleanedPaths(root));
    assert WorkflowRule(t0, template, root, style) == Must(c, t6);
  }

  /** The deletions of the non-agent branch touch no file but the ones it
      names. */
  lemma CleanupKeepsFiles(t0: Tree, root: Path)
    ensures FilesAgreeOutside(t0, UnlinkEach(RemoveAgentFiles(t0, root), root + Src, WorkflowFiles), CleanedPaths(root))
  {
    CleanupFiles(t0, root);
    RemovalKeeps(t0, UnlinkEach(RemoveAgentFiles(t0, root), root + Src, WorkflowFiles), CleanedPaths(root));
  }

  /** The only directory the non-agent branch can remove is `src/nodes`, and
      it does so exactly when nothing but the node was left in it; whether the
      branch succeeds or fails. */
  lemma WorkflowRuleDirs(t0: Tree, template: Tree, root: Path, style: Style)
    ensures WorkflowRule(t0, template, root, style).fs.dirs
      == if OnlyNodeInNodesDir(t0, root) then t0.dirs - {root + NodesDir} else t0.dirs
  {
    var t5 := RemoveAgentFiles(t0, root);
    RemoveAgentFilesEffect(t0, root);
    CreateQflowProps.UnlinkEachRemoves(t5, root + Src, WorkflowFiles);
  }

  /** Every path either branch touches lies under the project root. */
  lemma TouchedUnderRoot(root: Path)
    ensures forall p :: p in AgentPaths(root) ==> root <= p
    ensures forall p :: p in CleanedPaths(root) ==> root <= p
    ensures root <= root + NodesDir
  {
    WorkflowPathsAre(root);
    assert root <= root + GenericNode && root <= root + AgentJs && root <= root + IndexJs;
    assert root <= root + IndexAgentJs && root <= root + DotEnvFile && root <= root + WorkflowJs;
    assert root <= root + Workflows2Js && root <= root + Workflows3Js && root <= root + NodesDir;
  }

  /** A prefix of a path under `root` that is not itself under `root` is a
      proper ancestor of `root`. */
  lemma AncestorOfRoot(root: Path, x: Path, d: Path)
    requires d <= root + x && !(root <= d)
    ensures d < root
  {
  }

  /** `out` changes no file outside the project directory `root`, removes no
      directory outside it, and adds outside it only ancestors of `root`. */
  ghost predicate InsideProject(fs: Tree, out: Tree, root: Path) {
    && (forall p :: !(root <= p) ==> SameFileAt(fs, out, p))
    && (forall d :: !(root <= d) && d in fs.dirs ==> d in out.dirs)
    && (forall d :: !(root <= d) && d in out.dirs ==> d in fs.dirs || d < root)
  }

  /** The copy of the template stays inside the project directory. */
  lemma CopyStaysInside(fs: Tree, template: Tree, root: Path)
    ensures InsideProject(fs, Must(CopyTree(fs, template, root), fs).fs, root)
  {
  }

  /** The agent branch stays inside the project directory. */
  lemma AgentRuleStaysInside(base: Tree, template: Tree, root: Path)
    ensures InsideProject(base, AgentRule(base, template, root).fs, root)
  {
    var out := AgentRule(base, template, root).fs;
    TouchedUnderRoot(root);
    AgentRuleConfined(base, template, root);
    forall d | !(root <= d) && d in out.dirs ensures d in base.dirs || d < root {
      if d !in base.dirs {
        AncestorOfRoot(root, NodesDir, d);
      }
    }
  }

  /** The non-agent branch stays inside the project directory. */
  lemma WorkflowRuleStaysInside(base: Tree, template: Tree, root: Path, style: Style)
    ensures InsideProject(base, WorkflowRule(base, template, root, style).fs, root)
  {
    TouchedUnderRoot(root);
    WorkflowRuleKeepsFiles(base, template, root, style);
    WorkflowRuleDirs(base, template, root, style);
  }

  /** Staying inside the project directory composes. */
  lemma InsideProjectTrans(t0: Tree, t1: Tree, t2: Tree, root: Path)
    requires InsideProject(t0, t1, root) && InsideProject(t1, t2, root)
    ensures InsideProject(t0, t2, root)
  {
    forall p | !(root <= p) ensures SameFileAt(t0, t2, p) {
      assert SameFileAt(t0, t1, p) && SameFileAt(t1, t2, p);
    }
  }

  /** A run, successful or not, changes no file outside the project directory,
      removes no directory outside it, and adds outside it only the missing
      ancestors of the project directory. */
  lemma RunStaysInsideProject(fs: Tree, template: Tree, root: Path, style: Style)
    ensures InsideProject(fs, Run(fs, template, root, style).fs, root)
  {
    var c := CopyTree(fs, template, root);
    CopyStaysInside(fs, template, root);
    if c.Ok? {
      var base := c.value;
      if style == Agent {
        AgentRuleStaysInside(base, template, root);
        InsideProjectTrans(fs, base, AgentRule(base, template, root).fs, root);
      } else {
        WorkflowRuleStaysInside(base, template, root, style);
        InsideProjectTrans(fs, base, WorkflowRule(base, template, root, style).fs, root);
      }
    }
  }

  /** A successful run in the functional, spread or class style leaves
      `src/workflows.js` holding the template's variant for the style, no other
      variant, no agent file and no `.env`; every other template file,
      `src/index.js` among them, holds its template content. */
  lemma RunWorkflowLayout(fs: Tree, template: Tree, root: Path, style: Style)
    requires style != Agent
    requires Run(fs, template, root, style).Success?
    ensures var t := Run(fs, template, root, style).fs;
      && root + WorkflowJs in t.files
      && t.files[root + WorkflowJs] == template.files[Src + [WorkflowSource(style)]]
      && root + Workflows2Js !in t.files
      && root + Workflows3Js !in t.files
      && root + GenericNode !in t.files
      && root + AgentJs !in t.files
      && root + IndexAgentJs !in t.files
      && root + DotEnvFile !in t.files
      && (IndexJs in template.files ==> root + IndexJs in t.files && t.files[root + IndexJs] == template.files[IndexJs])
      && forall q :: q in template.files && root + q !in CleanedPaths(root) ==>
           root + q in t.files && t.files[root + q] == template.files[q]
  {
    var base := CopyTree(fs, template, root).value;
    assert Run(fs, template, root, style) == WorkflowRule(base, template, root, style);
    WorkflowRuleLayout(base, template, root, style);
    IndexNotCleaned(root);
  }

  /** `src/index.js` is not among the files the non-agent branch deletes. */
  lemma IndexNotCleaned(root: Path)
    ensures root + IndexJs !in CleanedPaths(root)
  {
    WorkflowPathsAre(root);
    Relative(root, IndexJs);
    Relative(root, GenericNode);
    Relative(root, AgentJs);
    Relative(root, IndexAgentJs);
    Relative(root, DotEnvFile);
    Relative(root, WorkflowJs);
    Relative(root, Workflows2Js);
    Relative(root, Workflows3Js);
  }

  /** A successful run in the agent style leaves `src/index.js` holding the
      template's `indexAgent.js`, the node and `agent.js` holding their template
      contents, no `indexAgent.js` and no workflow variant, and a `.env` file
      that defines exactly the four agent settings; every other template file
      holds its template content. */
  lemma RunAgentLayout(fs: Tree, template: Tree, root: Path)
    requires Run(fs, template, root, Agent).Success?
    ensures var t := Run(fs, template, root, Agent).fs;
      && GenericNode in template.files && AgentJs in template.files && IndexAgentJs in template.files
      && root + IndexJs in t.files && t.files[root + IndexJs] == template.files[IndexAgentJs]
      && root + GenericNode in t.files && t.files[root + GenericNode] == template.files[GenericNode]
      && root + AgentJs in t.files && t.files[root + AgentJs] == template.files[AgentJs]
      && root + IndexAgentJs !in t.files
      && root + WorkflowJs !in t.files
      && root + Workflows2Js !in t.files
      && root + Workflows3Js !in t.files
      && root + DotEnvFile in t.files
      && t.files[root + DotEnvFile] == EnvContent
      && DotEnv.Variables(t.files[root + DotEnvFile]) == map[
           "AGENT_LLM_API_KEY" := "YOUR_LLM_API_KEY",
           "AGENT_LLM_MODEL" := "your-preferred-model",
           "AGENT_LLM_BASE_URL" := "your-llm-base-url",
           "AGENT_LLM_SITE_TITLE" := "Your Agent Name"]
      && forall q :: q in template.files && root + q !in AgentPaths(root) ==>
           root + q in t.files && t.files[root + q] == template.files[q]
  {
    var base := CopyTree(fs, template, root).value;
    assert Run(fs, template, root, Agent) == AgentRule(base, template, root);
    AgentRuleLayout(base, template, root);
    CreateQflowProps.EnvDefinesAgentSettings();
  }
}
