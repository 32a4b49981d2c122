/** The post-copy file selection of `create-qflow` (index.js, `main`): copy the
    template into the project directory, then keep, rename and delete files so
    that the project holds exactly one workflow style. */
module CreateQflow {
  import opened FileTree
  import opened FsPromises
  import DotEnv

  /** The four workflow styles the prompt offers. */
  datatype Style = Functional | Spread | Class | Agent

  /** The three workflow variants the template ships in `src/`. */
  const WorkflowFiles: seq<string> := ["workflows.js", "workflows2.js", "workflows3.js"]

  /** The template file of `src/` that becomes the project's `src/workflows.js`:
      the `switch` on the style, whose `default` arm serves `functional`. */
  function WorkflowSource(style: Style): (name: string)
    ensures name in WorkflowFiles
    ensures name == "workflows2.js" <==> style == Spread
    ensures name == "workflows3.js" <==> style == Class
    ensures name == "workflows.js" <==> style in {Functional, Agent}
  {
    match style
    case Spread => "workflows2.js"
    case Class => "workflows3.js"
    case _ => "workflows.js"
  }

  // Paths relative to the template root and to the project root.
  const Src: Path := ["src"]
  const NodesDir: Path := ["src", "nodes"]
  const GenericNode: Path := ["src", "nodes", "GenericLLMNode.js"]
  const AgentJs: Path := ["src", "agent.js"]
  const IndexJs: Path := ["src", "index.js"]
  const IndexAgentJs: Path := ["src", "indexAgent.js"]
  const WorkflowJs: Path := ["src", "workflows.js"]
  const DotEnvFile: Path := [".env"]

  /** The comment lines and the blank line that open the agent's `.env` file.
      Each comment line is the one of index.js, spelled in short pieces joined
      by `+` only so that the verifier can check piece by piece that it holds
      no newline; a long string literal is beyond it. */
  const EnvHeader: seq<string> := [
    "# This .env file is used " + "to configure the Generic LLM Agent.",
    "# Replace the placeholder values " + "with your actual API key, " + "model, and base URL.",
    ""
  ]

  /** The lines of the `.env` file written for the agent style. */
  const EnvLines: seq<string> := EnvHeader
    + [DotEnv.Assignment("AGENT_LLM_API_KEY", "YOUR_LLM_API_KEY")]
    + [DotEnv.Assignment("AGENT_LLM_MODEL", "your-preferred-model")]
    + [DotEnv.Assignment("AGENT_LLM_BASE_URL", "your-llm-base-url")]
    + [DotEnv.Assignment("AGENT_LLM_SITE_TITLE", "Your Agent Name")]

  /** The text of that `.env` file. */
  const EnvContent: string := DotEnv.Unlines(EnvLines)

  /** How a run ends, with the project tree as it is left: on failure nothing
      already done is undone. */
  datatype Outcome = Success(fs: Tree) | Failure(errno: Errno, fs: Tree) {
    predicate IsFailure() {
      Failure?
    }

    function PropagateFailure(): Outcome
      requires Failure?
    {
      this
    }

    function Extract(): Tree
      requires Success?
    {
      fs
    }
  }

  /** The process exit status: 1 after the error is reported, 0 otherwise. */
  function ExitCode(o: Outcome): (code: int)
    ensures code == 0 || code == 1
    ensures code == 1 <==> o.Failure?
  {
    if o.Success? then 0 else 1
  }

  /** An awaited call outside any inner `try`: its rejection aborts the run,
      leaving the tree `t` it started from. */
  function Must(r: Result<Tree>, t: Tree): (o: Outcome)
    ensures o.Success? <==> r.Ok?
    ensures r.Ok? ==> o.fs == r.value
    ensures r.Err? ==> o.errno == r.errno && o.fs == t
  {
    match r
    case Ok(u) => Success(u)
    case Err(e) => Failure(e, t)
  }

  /** `try { await fs.unlink(p) } catch {}` */
  function TryUnlink(t: Tree, p: Path): (u: Tree)
    ensures u.files == t.files - {p} && u.dirs == t.dirs
    ensures p !in t.files ==> u == t
    ensures WellFormed(t) ==> WellFormed(u)
  {
    match Unlink(t, p)
    case Ok(v) => v
    case Err(_) => t
  }

  /** `try { await fs.rmdir(p) } catch {}` */
  function TryRmdir(t: Tree, p: Path): (u: Tree)
    ensures u.files == t.files
    ensures u.dirs == if p != [] && p in t.dirs && !HasEntriesBelow(t, p) then t.dirs - {p} else t.dirs
    ensures WellFormed(t) ==> WellFormed(u)
  {
    match Rmdir(t, p)
    case Ok(v) => v
    case Err(_) => t
  }

  /** The paths `dir/name` for each of `names`. */
  function Children(dir: Path, names: seq<string>): set<Path> {
    set n | n in names :: dir + [n]
  }

  /** `for (const name of names) { try { await fs.unlink(dir/name) } catch {} }` */
  function UnlinkEach(t: Tree, dir: Path, names: seq<string>): (u: Tree)
    ensures u.dirs == t.dirs
    ensures forall n :: n in names ==> dir + [n] !in u.files
    ensures forall p :: p in u.files ==> p in t.files && u.files[p] == t.files[p]
    decreases |names|
  {
    if names == [] then t else UnlinkEach(TryUnlink(t, dir + [names[0]]), dir, names[1..])
  }

  /** The first steps of the agent branch (index.js:57-66): create
      `src/nodes` and copy the node and `agent.js` from the template. */
  function AddAgentFiles(t0: Tree, template: Tree, root: Path): (o: Outcome)
    ensures t0.dirs <= o.fs.dirs
    ensures o.Success? ==> root + NodesDir in o.fs.dirs
    ensures o.Success? ==>
      && AgentJs in template.files
      && root + AgentJs in o.fs.files && o.fs.files[root + AgentJs] == template.files[AgentJs]
  {
    var t1 :- Must(MkdirP(t0, root + NodesDir), t0);
    var t2 :- Must(CopyFile(t1, template, GenericNode, root + GenericNode), t1);
    Must(CopyFile(t2, template, AgentJs, root + AgentJs), t2)
  }

  /** The rename of the agent branch (index.js:68-83): `src/index.js` is
      replaced by a copy of the template's `indexAgent.js`, and the project's
      own `indexAgent.js` is removed. */
  function SwapIndex(t3: Tree, template: Tree, root: Path): (o: Outcome)
    ensures o.fs.dirs == t3.dirs
    ensures o.Failure? ==> root + IndexJs !in o.fs.files
    ensures o.Success? ==>
      && IndexAgentJs in template.files
      && root + IndexJs in o.fs.files && o.fs.files[root + IndexJs] == template.files[IndexAgentJs]
      && root + IndexAgentJs !in o.fs.files
  {
    assert (root + IndexJs)[|root| + 1] != (root + IndexAgentJs)[|root| + 1];
    var t4 := TryUnlink(t3, root + IndexJs);
    var t5 :- Must(CopyFile(t4, template, IndexAgentJs, root + IndexJs), t4);
    Success(TryUnlink(t5, root + IndexAgentJs))
  }

  /** The agent branch (index.js:54-99). */
  function AgentRule(t0: Tree, template: Tree, root: Path): (o: Outcome)
    ensures t0.dirs <= o.fs.dirs
    ensures o.Success? ==> root + DotEnvFile in o.fs.files && o.fs.files[root + DotEnvFile] == EnvContent
  {
    var t3 :- AddAgentFiles(t0, template, root);
    var t6 :- SwapIndex(t3, template, root);
    var t7 := UnlinkEach(t6, root + Src, WorkflowFiles);
    Must(WriteFile(t7, root + DotEnvFile, EnvContent), t7)
  }

  /** The deletions that open the functional, spread and class branch
      (index.js:105-137), each of whose rejections is ignored; `src/nodes`
      goes only when nothing is left in it. */
  function RemoveAgentFiles(t0: Tree, root: Path): (t: Tree)
    ensures t.files == t0.files - {root + GenericNode, root + AgentJs, root + IndexAgentJs, root + DotEnvFile}
    ensures t.dirs == t0.dirs || t.dirs == t0.dirs - {root + NodesDir}
  {
    var t1 := TryUnlink(t0, root + GenericNode);
    var t2 := TryRmdir(t1, root + NodesDir);
    var t3 := TryUnlink(t2, root + AgentJs);
    var t4 := TryUnlink(t3, root + IndexAgentJs);
    TryUnlink(t4, root + DotEnvFile)
  }

  /** The branch for the functional, spread and class styles (index.js:101-167). */
  function WorkflowRule(t0: Tree, template: Tree, root: Path, style: Style): (o: Outcome)
    ensures o.Success? ==>
      && Src + [WorkflowSource(style)] in template.files
      && root + WorkflowJs in o.fs.files
      && o.fs.files[root + WorkflowJs] == template.files[Src + [WorkflowSource(style)]]
    ensures o.Failure? ==> root + WorkflowJs !in o.fs.files
  {
    assert root + Src + [WorkflowFiles[0]] == root + WorkflowJs;
    var t6 := UnlinkEach(RemoveAgentFiles(t0, root), root + Src, WorkflowFiles);
    Must(CopyFile(t6, template, Src + [WorkflowSource(style)], root + WorkflowJs), t6)
  }

  /** The whole `try` block of `main` (index.js:33-179), starting from the
      filesystem `fs`, copying `template` to the project directory `root`. */
  function Run(fs: Tree, template: Tree, root: Path, style: Style): (o: Outcome)
    ensures CopyTree(fs, template, root).Err? ==> o == Failure(CopyTree(fs, template, root).errno, fs)
    ensures o.Success? && style == Agent ==>
      root + DotEnvFile in o.fs.files && o.fs.files[root + DotEnvFile] == EnvContent
    ensures o.Success? && style != Agent ==>
      && Src + [WorkflowSource(style)] in template.files
      && root + WorkflowJs in o.fs.files
      && o.fs.files[root + WorkflowJs] == template.files[Src + [WorkflowSource(style)]]
  {
    var base :- Must(CopyTree(fs, template, root), fs);
    if style == Agent then AgentRule(base, template, root)
    else WorkflowRule(base, template, root, style)
  }

  /** `try { await fs.unlink(p) } catch {}` on `disk` */
  method TryUnlinkOn(disk: Disk, p: Path)
    modifies disk
    ensures disk.State() == TryUnlink(old(disk.State()), p)
  {
    var _ := disk.Unlink(p);
  }

  /** `try { await fs.rmdir(p) } catch {}` on `disk` */
  method TryRmdirOn(disk: Disk, p: Path)
    modifies disk
    ensures disk.State() == TryRmdir(old(disk.State()), p)
  {
    var _ := disk.Rmdir(p);
  }

  /** Unlinks `dir/name` for each of `names`, ignoring every rejection. */
  method UnlinkAll(disk: Disk, dir: Path, names: seq<string>)
    modifies disk
    ensures disk.State() == UnlinkEach(old(disk.State()), dir, names)
  {
    for i := 0 to |names|
      invariant UnlinkEach(disk.State(), dir, names[i..]) == UnlinkEach(old(disk.State()), dir, names)
    {
      assert names[i..][1..] == names[i + 1..];
      TryUnlinkOn(disk, dir + [names[i]]);
    }
  }

  /** The first steps of the agent branch, on `disk`: tells whether they all
      succeeded. */
  method AddAgentFilesOn(disk: Disk, template: Tree, root: Path) returns (ok: bool)
    modifies disk
    ensures ok == AddAgentFiles(old(disk.State()), template, root).Success?
    ensures disk.State() == AddAgentFiles(old(disk.State()), template, root).fs
  {
    var s := disk.Mkdir(root + NodesDir);
    if s.Rejected? {
      return false;
    }
    s := disk.CopyFile(template, GenericNode, root + GenericNode);
    if s.Rejected? {
      return false;
    }
    s := disk.CopyFile(template, AgentJs, root + AgentJs);
    ok := s.Fulfilled?;
  }

  /** The rename of the agent branch, on `disk`: tells whether the copy
      succeeded. */
  method SwapIndexOn(disk: Disk, template: Tree, root: Path) returns (ok: bool)
    modifies disk
    ensures ok == SwapIndex(old(disk.State()), template, root).Success?
    ensures disk.State() == SwapIndex(old(disk.State()), template, root).fs
  {
    TryUnlinkOn(disk, root + IndexJs);
    var s := disk.CopyFile(template, IndexAgentJs, root + IndexJs);
    if s.Rejected? {
      return false;
    }
    TryUnlinkOn(disk, root + IndexAgentJs);
    ok := true;
  }

  /** The agent branch, on `disk`: returns the exit status it leads to. */
  method ApplyAgentRule(disk: Disk, template: Tree, root: Path) returns (exitCode: int)
    modifies disk
    ensures exitCode == ExitCode(AgentRule(old(disk.State()), template, root))
    ensures disk.State() == AgentRule(old(disk.State()), template, root).fs
  {
    var ok := AddAgentFilesOn(disk, template, root);
    if !ok {
      return 1;
    }
    ok := SwapIndexOn(disk, template, root);
    if !ok {
      return 1;
    }
    UnlinkAll(disk, root + Src, WorkflowFiles);
    var s := disk.WriteFile(root + DotEnvFile, EnvContent);
    exitCode := if s.Rejected? then 1 else 0;
  }

  /** The deletions that open the functional, spread and class branch, on
      `disk`. */
  method RemoveAgentFilesOn(disk: Disk, root: Path)
    modifies disk
    ensures disk.State() == RemoveAgentFiles(old(disk.State()), root)
  {
    TryUnlinkOn(disk, root + GenericNode);
    TryRmdirOn(disk, root + NodesDir);
    TryUnlinkOn(disk, root + AgentJs);
    TryUnlinkOn(disk, root + IndexAgentJs);
    TryUnlinkOn(disk, root + DotEnvFile);
  }

  /** The functional, spread and class branch, on `disk`: returns the exit
      status it leads to. */
  method ApplyWorkflowRule(disk: Disk, template: Tree, root: Path, style: Style) returns (exitCode: int)
    modifies disk
    ensures exitCode == ExitCode(WorkflowRule(old(disk.State()), template, root, style))
    ensures disk.State() == WorkflowRule(old(disk.State()), template, root, style).fs
  {
    RemoveAgentFilesOn(disk, root);
    UnlinkAll(disk, root + Src, WorkflowFiles);
    var s := disk.CopyFile(template, Src + [WorkflowSource(style)], root + WorkflowJs);
    exitCode := if s.Rejected? then 1 else 0;
  }

  /** `main` after the prompts: scaffolds the project `root` in `style` on
      `disk` and returns the process exit status. */
  method CreateProject(disk: Disk, template: Tree, root: Path, style: Style) returns (exitCode: int)
    modifies disk
    ensures exitCode == ExitCode(Run(old(disk.State()), template, root, style))
    ensures disk.State() == Run(old(disk.State()), template, root, style).fs
  {
    var s := disk.Cp(template, root);
    if s.Rejected? {
      return 1;
    }
    if style == Agent {
      exitCode := ApplyAgentRule(disk, template, root);
    } else {
      exitCode := ApplyWorkflowRule(disk, template, root, style);
    }
  }
}
