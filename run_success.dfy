/** When a run of `create-qflow` succeeds, and what a failure leaves behind:
    the steps already taken stay done. */
module RunSuccess {
  import opened FileTree
  import opened CreateQflow
  import opened ProjectLayout
  import ProjectRun

  /** The template as shipped: a real tree holding the seven files the
      branches read or expect, and no directory named `.env` at its root. */
  ghost predicate CompleteTemplate(template: Tree) {
    && WellFormed(template)
    && GenericNode in template.files && AgentJs in template.files
    && IndexJs in template.files && IndexAgentJs in template.files
    && WorkflowJs in template.files && Workflows2Js in template.files && Workflows3Js in template.files
    && DotEnvFile !in template.dirs
  }

  /** `base` is a real tree holding a copy of `template` at `root`. */
  ghost predicate HoldsTemplate(base: Tree, template: Tree, root: Path) {
    && WellFormed(base)
    && (forall q :: q in template.files ==> root + q in base.files)
    && (forall q :: q in template.dirs ==> root + q in base.dirs)
  }

  /** In a real tree every ancestor of a directory is a directory. */
  lemma {:induction false} AncestorsAreDirs(t: Tree, d: Path)
    requires WellFormed(t) && d in t.dirs
    ensures forall k :: 0 <= k <= |d| ==> d[..k] in t.dirs
    decreases |d|
  {
    if d != [] {
      AncestorsAreDirs(t, Parent(d));
      forall k | 0 <= k <= |d| ensures d[..k] in t.dirs {
        if k < |d| {
          assert d[..k] == Parent(d)[..k];
        } else {
          assert d[..k] == d;
        }
      }
    }
  }

  /** `root + q` has parent `root + Parent(q)`. */
  lemma ParentUnderRoot(root: Path, q: Path)
    requires q != []
    ensures Parent(root + q) == root + Parent(q)
  {
  }

  /** The first steps of the agent branch succeed on a tree that holds the
      template, and change no directory. */
  lemma AddAgentFilesSucceeds(base: Tree, template: Tree, root: Path)
    requires WellFormed(template) && GenericNode in template.files && AgentJs in template.files
    requires HoldsTemplate(base, template, root)
    ensures AddAgentFiles(base, template, root).Success?
    ensures AddAgentFiles(base, template, root).fs.dirs == base.dirs
  {
    var nodes := root + NodesDir;
    ParentUnderRoot(root, GenericNode);
    ParentUnderRoot(root, AgentJs);
    assert Parent(GenericNode) == NodesDir && Parent(NodesDir) == Src;
    AncestorsAreDirs(base, nodes);
    var m := MkdirP(base, nodes);
    assert m.Ok?;
    assert m.value.dirs == base.dirs;
  }

  /** The rename of the agent branch succeeds on a tree that holds the template
      in its directories, and changes no directory. */
  lemma SwapIndexSucceeds(t3: Tree, base: Tree, template: Tree, root: Path)
    requires CompleteTemplate(template) && HoldsTemplate(base, template, root) && t3.dirs == base.dirs
    ensures SwapIndex(t3, template, root).Success?
    ensures SwapIndex(t3, template, root).fs.dirs == base.dirs
  {
    ParentUnderRoot(root, IndexJs);
    assert Parent(IndexJs) == Src && Parent(IndexAgentJs) == Src;
    assert root + IndexJs !in base.dirs;
  }

  /** `.env` can be written in a project that holds the template exactly when
      no directory is in its way. */
  lemma WriteEnvSucceedsExactly(t7: Tree, base: Tree, template: Tree, root: Path)
    requires CompleteTemplate(template) && HoldsTemplate(base, template, root) && t7.dirs == base.dirs
    ensures WriteFile(t7, root + DotEnvFile, EnvContent).Ok? <==> root + DotEnvFile !in base.dirs
  {
    assert [] in template.dirs && root + [] == root;
    ParentUnderRoot(root, DotEnvFile);
  }

  /** The agent branch succeeds on a tree that holds the template exactly when
      no directory stands where `.env` goes. */
  lemma AgentRuleSucceedsExactly(base: Tree, template: Tree, root: Path)
    requires CompleteTemplate(template) && HoldsTemplate(base, template, root)
    ensures AgentRule(base, template, root).Success? <==> root + DotEnvFile !in base.dirs
  {
    AddAgentFilesSucceeds(base, template, root);
    var t3 := AddAgentFiles(base, template, root).fs;
    SwapIndexSucceeds(t3, base, template, root);
    var t6 := SwapIndex(t3, template, root).fs;
    var t7 := UnlinkEach(t6, root + Src, WorkflowFiles);
    CreateQflowProps.UnlinkEachRemoves(t6, root + Src, WorkflowFiles);
    WriteEnvSucceedsExactly(t7, base, template, root);
  }

  /** The last copy of the non-agent branch succeeds on a tree that holds the
      template in its directories, with `src/nodes` perhaps removed. */
  lemma CopyVariantSucceeds(t6: Tree, base: Tree, template: Tree, root: Path, style: Style)
    requires CompleteTemplate(template) && HoldsTemplate(base, template, root)
    requires t6.dirs == base.dirs || t6.dirs == base.dirs - {root + NodesDir}
    ensures CopyFile(t6, template, Src + [WorkflowSource(style)], root + WorkflowJs).Ok?
  {
    ParentUnderRoot(root, WorkflowJs);
    assert Parent(WorkflowJs) == Src;
    Relative(root, Src);
    Relative(root, NodesDir);
    assert root + WorkflowJs !in base.dirs;
    var name := WorkflowSource(style);
    if name == "workflows.js" {
      assert Src + [name] == WorkflowJs;
    } else if name == "workflows2.js" {
      assert Src + [name] == Workflows2Js;
    } else {
      assert Src + [name] == Workflows3Js;
    }
  }

  /** The non-agent branch succeeds on a tree that holds the template. */
  lemma WorkflowRuleSucceeds(base: Tree, template: Tree, root: Path, style: Style)
    requires CompleteTemplate(template) && HoldsTemplate(base, template, root)
    ensures WorkflowRule(base, template, root, style).Success?
  {
    var t5 := RemoveAgentFiles(base, root);
    var t6 := UnlinkEach(t5, root + Src, WorkflowFiles);
    ProjectRun.RemoveAgentFilesEffect(base, root);
    CreateQflowProps.UnlinkEachRemoves(t5, root + Src, WorkflowFiles);
    CopyVariantSucceeds(t6, base, template, root, style);
    assert WorkflowRule(base, template, root, style)
      == Must(CopyFile(t6, template, Src + [WorkflowSource(style)], root + WorkflowJs), t6);
  }

  /** With a real filesystem and the template as shipped, a run succeeds
      exactly when the template can be copied to the project directory without
      a file and a directory colliding, and, in the agent style, no directory
      stands where `.env` goes. */
  lemma RunSucceedsExactly(fs: Tree, template: Tree, root: Path, style: Style)
    requires WellFormed(fs) && CompleteTemplate(template)
    ensures Run(fs, template, root, style).Success?
      <==> !CopyConflict(fs, template, root) && (style == Agent ==> root + DotEnvFile !in fs.dirs)
  {
    var c := CopyTree(fs, template, root);
    if c.Ok? {
      var base := c.value;
      assert HoldsTemplate(base, template, root);
      if style == Agent {
        AgentRuleSucceedsExactly(base, template, root);
        Relative(root, DotEnvFile);
        assert root + DotEnvFile in base.dirs <==> root + DotEnvFile in fs.dirs;
      } else {
        WorkflowRuleSucceeds(base, template, root, style);
      }
    }
  }

  /** The first steps of the agent branch, once they have succeeded, leave the
      node and `agent.js` holding their template contents. */
  lemma AddAgentFilesWrites(t0: Tree, template: Tree, root: Path)
    requires AddAgentFiles(t0, template, root).Success?
    ensures var t := AddAgentFiles(t0, template, root).fs;
      && GenericNode in template.files && AgentJs in template.files
      && root + GenericNode in t.files && t.files[root + GenericNode] == template.files[GenericNode]
      && root + AgentJs in t.files && t.files[root + AgentJs] == template.files[AgentJs]
  {
    var t1 := MkdirP(t0, root + NodesDir).value;
    var t2 := CopyFile(t1, template, GenericNode, root + GenericNode).value;
    Relative(root, GenericNode);
    Relative(root, AgentJs);
    assert AddAgentFiles(t0, template, root) == Must(CopyFile(t2, template, AgentJs, root + AgentJs), t2);
  }

  /** An agent run from a template that lacks `src/indexAgent.js` fails with
      ENOENT after `src/index.js` was deleted, and nothing is rolled back: the
      project keeps the node and `agent.js` and has no `src/index.js`. */
  lemma AgentRunWithoutIndexAgentFails(fs: Tree, template: Tree, root: Path)
    requires WellFormed(fs) && WellFormed(template)
    requires GenericNode in template.files && AgentJs in template.files
    requires IndexAgentJs !in template.files && IndexAgentJs !in template.dirs
    requires !CopyConflict(fs, template, root)
    ensures var o := Run(fs, template, root, Agent);
      && o.Failure? && o.errno == NoEntry && ExitCode(o) == 1
      && root + IndexJs !in o.fs.files
      && root + GenericNode in o.fs.files && o.fs.files[root + GenericNode] == template.files[GenericNode]
      && root + AgentJs in o.fs.files && o.fs.files[root + AgentJs] == template.files[AgentJs]
  {
    var base := CopyTree(fs, template, root).value;
    assert HoldsTemplate(base, template, root);
    AddAgentFilesSucceeds(base, template, root);
    AddAgentFilesWrites(base, template, root);
    var t3 := AddAgentFiles(base, template, root).fs;
    var t4 := TryUnlink(t3, root + IndexJs);
    Relative(root, IndexJs);
    Relative(root, GenericNode);
    Relative(root, AgentJs);
    assert SwapIndex(t3, template, root) == Failure(NoEntry, t4);
    assert Run(fs, template, root, Agent) == Failure(NoEntry, t4);
  }

  /** A functional, spread or class run from a template that lacks the chosen
      variant fails with ENOENT after the cleanup, and nothing is rolled back:
      the project has no `src/workflows.js`, no other variant and no agent
      file. */
  lemma WorkflowRunWithoutVariantFails(fs: Tree, template: Tree, root: Path, style: Style)
    requires style != Agent
    requires [] in template.dirs && !CopyConflict(fs, template, root)
    requires Src + [WorkflowSource(style)] !in template.files && Src + [WorkflowSource(style)] !in template.dirs
    ensures var o := Run(fs, template, root, style);
      && o.Failure? && o.errno == NoEntry && ExitCode(o) == 1
      && root + WorkflowJs !in o.fs.files
      && root + Workflows2Js !in o.fs.files
      && root + Workflows3Js !in o.fs.files
      && root + GenericNode !in o.fs.files
      && root + AgentJs !in o.fs.files
      && root + IndexAgentJs !in o.fs.files
      && root + DotEnvFile !in o.fs.files
  {
    var base := CopyTree(fs, template, root).value;
    var t6 := UnlinkEach(RemoveAgentFiles(base, root), root + Src, WorkflowFiles);
    CleanupFiles(base, root);
    WorkflowPathsAre(root);
    assert WorkflowRule(base, template, root, style) == Failure(NoEntry, t6);
    assert Run(fs, template, root, style) == Failure(NoEntry, t6);
  }

  /** Removing files from a real tree leaves a real tree. */
  lemma FewerFilesWellFormed(t: Tree, u: Tree)
    requires WellFormed(t) && u.dirs == t.dirs && u.files.Keys <= t.files.Keys
    ensures WellFormed(u)
  {
  }

  /** The first steps of the agent branch leave a real tree real. */
  lemma AddAgentFilesWellFormed(t0: Tree, template: Tree, root: Path)
    requires WellFormed(t0)
    ensures WellFormed(AddAgentFiles(t0, template, root).fs)
  {
  }

  /** The rename of the agent branch leaves a real tree real. */
  lemma SwapIndexWellFormed(t3: Tree, template: Tree, root: Path)
    requires WellFormed(t3)
    ensures WellFormed(SwapIndex(t3, template, root).fs)
  {
  }

  /** The agent branch leaves a real tree real, whether it succeeds or not. */
  lemma AgentRuleWellFormed(base: Tree, template: Tree, root: Path)
    requires WellFormed(base)
    ensures WellFormed(AgentRule(base, template, root).fs)
  {
    AddAgentFilesWellFormed(base, template, root);
    var a := AddAgentFiles(base, template, root);
    if a.Success? {
      SwapIndexWellFormed(a.fs, template, root);
      var b := SwapIndex(a.fs, template, root);
      if b.Success? {
        var t7 := UnlinkEach(b.fs, root + Src, WorkflowFiles);
        CreateQflowProps.UnlinkEachRemoves(b.fs, root + Src, WorkflowFiles);
        FewerFilesWellFormed(b.fs, t7);
        assert AgentRule(base, template, root) == Must(WriteFile(t7, root + DotEnvFile, EnvContent), t7);
      }
    }
  }

  /** The non-agent branch leaves a real tree real, whether it succeeds or not. */
  lemma WorkflowRuleWellFormed(base: Tree, template: Tree, root: Path, style: Style)
    requires WellFormed(base)
    ensures WellFormed(WorkflowRule(base, template, root, style).fs)
  {
    var t5 := RemoveAgentFiles(base, root);
    var t6 := UnlinkEach(t5, root + Src, WorkflowFiles);
    CreateQflowProps.UnlinkEachRemoves(t5, root + Src, WorkflowFiles);
    FewerFilesWellFormed(t5, t6);
    assert WorkflowRule(base, template, root, style)
      == Must(CopyFile(t6, template, Src + [WorkflowSource(style)], root + WorkflowJs), t6);
  }

  /** A run, successful or not, leaves a real filesystem real. */
  lemma RunKeepsWellFormed(fs: Tree, template: Tree, root: Path, style: Style)
    requires WellFormed(fs) && WellFormed(template)
    ensures WellFormed(Run(fs, template, root, style).fs)
  {
    var c := CopyTree(fs, template, root);
    if c.Ok? {
      if style == Agent {
        AgentRuleWellFormed(c.value, template, root);
      } else {
        WorkflowRuleWellFormed(c.value, template, root, style);
      }
    }
  }
}
