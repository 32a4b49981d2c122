# create-qflow: the project scaffolder, modelled in Dafny

`create-qflow` scaffolds a new qflow project. Its `main` (index.js:12-180)
does three things in order:

1. It copies the whole `template/` directory into the project directory with
   `fs.cp(..., { recursive: true })`.
2. It asks for one of four workflow styles: functional, spread, class or
   agent.
3. It rearranges the copied files so that the project keeps exactly that style.

The second stage differs by style.

**Agent style.** The scaffolder:
- creates `src/nodes`;
- copies the generic LLM node and `agent.js` from the template;
- replaces `src/index.js` with the template's `indexAgent.js`, then deletes
  the project's own `indexAgent.js`;
- deletes the three workflow variants;
- writes a `.env` file holding placeholder agent settings.

**Other styles.** The scaffolder:
- deletes the agent files, `.env` and `src/nodes`, the last only if it is
  empty;
- deletes the three variants;
- copies the variant chosen by a `switch` on the style to `src/workflows.js`.

Deletions are best effort: their errors are swallowed. Any other failing call
aborts the run with exit status 1, and nothing already done is undone.

The model is layered as follows.

- `FileTree` (file_tree.dfy) is a value model of the filesystem:
  - a map from segment paths to opaque contents, plus a set of directories;
  - one function per `fs/promises` call, with the error each can reject
    with (POSIX codes; for `fs.cp`, see "## Left out").
- `FsPromises` (fs_promises.dfy) is the same filesystem as a mutable object.
  - Its class `Disk` holds the file map and the directory set.
  - Each method is proved to do exactly what the matching `FileTree` function
    says.
- `CreateQflow` (create_qflow.dfy) is the scaffolder itself. Each branch is a
  function on trees, plus a method on a `Disk` that performs the same awaited
  calls in the same order.
  - The method is proved to leave the state the function describes.
  - It returns the exit status.
- `DotEnv` (dot_env.dfy) gives the format of a `.env` file, so that what the
  agent style writes can be read back.
- Properties:
  - `CreateQflowProps` covers cleanup idempotence and the `.env` content.
  - `ProjectLayout` covers the layout each branch leaves.
  - `ProjectRun` covers whole-run layout and confinement to the project
    directory.
  - `RunSuccess` covers when a run succeeds, what failures leave, and
    well-formedness.

The project root and the style are parameters. The template is a read-only
tree.

The `.env` text is modelled in full. `CreateQflow.EnvContent` spells out both
comment lines, the blank line and the four settings. The layout lemmas prove
that the written file equals that text, and
`CreateQflowProps.EnvDefinesAgentSettings` reads it back to its four variable
definitions.

## Model

| member | source | states |
|---|---|---|
| CreateQflow.WorkflowSource | index.js:142-151 | `spread` selects `workflows2.js`, `class` selects `workflows3.js`, and every other style selects `workflows.js`; the result is always one of the three variants |
| FileTree.CopyTree | index.js:35 | `fs.cp` fails exactly when the template has no root or a file and a directory would collide. On success it overlays every template file at the same relative path and keeps every other file. It keeps all old directories and adds only ancestors of the root and copies of template directories. It keeps the tree real |
| FileTree.MkdirP | index.js:60 | `mkdir -p` fails exactly when the path or one of its ancestors is a file. It creates the path, adds only its ancestors and changes no file |
| FileTree.CopyFile | index.js:63 | `copyFile` fails when the source is missing (ENOENT) or is a directory (EISDIR), or when the destination cannot be written. Otherwise it writes the source's content at the destination and changes nothing else |
| FileTree.WriteFile | index.js:98 | `writeFile` succeeds exactly when the parent directory exists and the path is not a directory. It sets that file's content and nothing else |
| FileTree.Unlink | index.js:70 | `unlink` succeeds exactly when the path is a file. It removes only that file |
| FileTree.Rmdir | index.js:113 | `rmdir` succeeds exactly when the path is a directory other than the root with nothing beneath it. It removes only that directory |
| CreateQflow.TryUnlink | index.js:69-73 | a swallowed `unlink` removes the path if it is a file. Otherwise it leaves the tree unchanged. It never fails |
| CreateQflow.TryRmdir | index.js:111-116 | a swallowed `rmdir` removes the directory only when nothing lies beneath it. Otherwise it leaves the tree unchanged |
| CreateQflow.UnlinkEach | index.js:155-162 | the deletion loop keeps every directory and removes every listed child. Each file left is one that was there, with the same content. Its exact effect is `CreateQflowProps.UnlinkEachRemoves` |
| CreateQflow.Must | index.js:176-177 | an awaited call outside an inner `try` succeeds exactly when the call does. On rejection the run fails with the call's error and keeps the tree as it was before the call: nothing is rolled back |
| CreateQflow.ExitCode | index.js:178 | the exit status is 0 or 1, and it is 1 exactly when the run failed |
| CreateQflow.AddAgentFiles | index.js:57-66 | the first agent steps keep every directory. On success `src/nodes` exists and `agent.js` holds the template's. The node's content is `RunSuccess.AddAgentFilesWrites`, and what it leaves unchanged is `ProjectRun.AddAgentFilesConfined` |
| CreateQflow.SwapIndex | index.js:68-83 | the rename changes no directory. On success `src/index.js` holds the template's `indexAgent.js` and `src/indexAgent.js` is gone. On failure `src/index.js` is already deleted |
| CreateQflow.AgentRule | index.js:54-99 | the agent branch removes no directory, and on success `.env` holds the fixed text. Its full layout is `ProjectLayout.AgentRuleLayout`, its confinement `ProjectRun.AgentRuleConfined` and its success condition `RunSuccess.AgentRuleSucceedsExactly` |
| CreateQflow.RemoveAgentFiles | index.js:105-137 | the opening deletions remove exactly the node, `agent.js`, `indexAgent.js` and `.env`, and no directory but `src/nodes`. The condition for `src/nodes` is `ProjectRun.RemoveAgentFilesEffect` |
| CreateQflow.WorkflowRule | index.js:101-167 | the non-agent branch on success leaves `src/workflows.js` holding the template's chosen variant. On failure it leaves no `src/workflows.js`. Its full layout is `ProjectLayout.WorkflowRuleLayout`, and what it keeps is `ProjectRun.WorkflowRuleKeepsFiles` and `ProjectRun.WorkflowRuleDirs` |
| CreateQflow.Run | index.js:33-179 | a failed copy aborts the run, leaving the filesystem as it was. A successful agent run leaves `.env` holding the fixed text. A successful run in any other style leaves `src/workflows.js` holding the chosen variant. The whole-run properties are `ProjectRun.RunWorkflowLayout`, `ProjectRun.RunAgentLayout`, `ProjectRun.RunStaysInsideProject` and `RunSuccess.RunSucceedsExactly` |
| CreateQflowProps.UnlinkEachRemoves | index.js:155-162 | the deletion loop removes exactly the listed children that are files, present or not, and no directory |
| CreateQflowProps.TryUnlinkIdempotent | index.js:79-83 | deleting a path twice, ignoring errors, has the effect of deleting it once |
| CreateQflowProps.TryRmdirIdempotent | index.js:111-116 | removing `src/nodes` twice, ignoring errors, has the effect of removing it once |
| CreateQflowProps.UnlinkEachIdempotent | index.js:87-94 | running a deletion loop a second time changes nothing |
| CreateQflowProps.UnlinkEachOfAbsent | index.js:155-162 | a deletion loop whose targets are all absent leaves the tree as it was |
| CreateQflowProps.EnvDefinesAgentSettings | index.js:97-98 | the `.env` text, read back line by line, defines exactly `AGENT_LLM_API_KEY`, `AGENT_LLM_MODEL`, `AGENT_LLM_BASE_URL` and `AGENT_LLM_SITE_TITLE`, each with its placeholder value |
| DotEnv.LinesOfUnlines | index.js:97 | text written as newline-terminated lines, none holding a newline, reads back as the same lines |
| DotEnv.DefinitionsAppend | index.js:97 | a `NAME=value` line defines NAME as value, whatever the earlier lines define |
| ProjectLayout.CleanupFiles | index.js:105-162 | the deletions of the non-agent branch remove exactly the agent files, `.env` and the three variants, whether or not each was there |
| ProjectLayout.WorkflowRuleLayout | index.js:101-167 | after a successful non-agent branch, `src/workflows.js` holds the template's chosen variant. No other variant, agent file or `.env` is left. Every other path keeps what the copy put there |
| ProjectLayout.AgentRuleFiles | index.js:54-99 | a successful agent branch leaves exactly the copied files, with the node, `agent.js` and `index.js` written from the template, `indexAgent.js` and the variants removed, and `.env` written |
| ProjectLayout.AgentRuleLayout | index.js:54-99 | after a successful agent branch, `src/index.js` holds the template's `indexAgent.js`. The node and `agent.js` hold their template contents. `indexAgent.js` and every variant are gone. `.env` holds the fixed text. Every other path keeps what the copy put there |
| ProjectRun.AgentRuleConfined | index.js:54-99 | the agent branch changes no file except the ones it names, whether it succeeds or fails part way. It removes no directory and adds only directories on the way to `src/nodes` |
| ProjectRun.RemoveAgentFilesEffect | index.js:105-137 | the opening deletions of the non-agent branch remove exactly the node, `agent.js`, `indexAgent.js` and `.env`. They remove `src/nodes` exactly when it held nothing but, at most, the node |
| ProjectRun.WorkflowRuleKeepsFiles | index.js:101-167 | the non-agent branch changes no file except the ones it names, whether it succeeds or fails |
| ProjectRun.WorkflowRuleDirs | index.js:111-116 | the only directory the non-agent branch can remove is `src/nodes`, and it removes it exactly when nothing else was left in it |
| ProjectRun.RunStaysInsideProject | index.js:33-179 | a run, successful or not, changes no file outside the project directory and removes no directory outside it. Outside it, it adds only missing ancestors of the project directory |
| ProjectRun.RunWorkflowLayout | index.js:101-167 | a successful functional, spread or class run leaves `src/workflows.js` holding the chosen variant. It leaves no other variant, no agent file and no `.env`. `src/index.js` and every other template file keep their template content |
| ProjectRun.RunAgentLayout | index.js:54-99 | a successful agent run leaves `src/index.js` holding the template's `indexAgent.js` and the node and `agent.js` holding their template contents. It leaves no `indexAgent.js` and no variant, and a `.env` defining exactly the four agent settings. Every other template file keeps its template content |
| RunSuccess.AgentRuleSucceedsExactly | index.js:54-99 | on a project holding the template as shipped, the agent branch succeeds exactly when no directory stands where `.env` goes |
| RunSuccess.WorkflowRuleSucceeds | index.js:101-167 | on a project holding the template as shipped, the non-agent branch always succeeds |
| RunSuccess.RunSucceedsExactly | index.js:33-179 | on a real filesystem with the template as shipped, a run succeeds exactly when the copy causes no file/directory collision and, for the agent style, no directory stands where `.env` goes |
| RunSuccess.AddAgentFilesWrites | index.js:57-66 | the first steps of the agent branch leave the node and `agent.js` holding their template contents |
| RunSuccess.AgentRunWithoutIndexAgentFails | index.js:68-83 | an agent run from a template without `indexAgent.js` fails with ENOENT and exit status 1. `src/index.js` is already deleted and the node and `agent.js` stay: there is no rollback |
| RunSuccess.WorkflowRunWithoutVariantFails | index.js:153-179 | a non-agent run from a template without the chosen variant fails with ENOENT and exit status 1, after all seven cleaned files are gone: there is no rollback |
| RunSuccess.RunKeepsWellFormed | index.js:33-179 | a run, successful or not, leaves a real filesystem real |
| FsPromises.Disk.Cp | index.js:35 | `fs.cp` on the mutable filesystem settles, and changes the state, as `FileTree.CopyTree` says. A rejection changes nothing |
| FsPromises.Disk.Mkdir | index.js:60 | `fs.mkdir` on the mutable filesystem behaves as `FileTree.MkdirP` |
| FsPromises.Disk.CopyFile | index.js:76 | `fs.copyFile` on the mutable filesystem behaves as `FileTree.CopyFile` |
| FsPromises.Disk.WriteFile | index.js:98 | `fs.writeFile` on the mutable filesystem behaves as `FileTree.WriteFile` |
| FsPromises.Disk.Unlink | index.js:90 | `fs.unlink` on the mutable filesystem behaves as `FileTree.Unlink` |
| FsPromises.Disk.Rmdir | index.js:113 | `fs.rmdir` on the mutable filesystem behaves as `FileTree.Rmdir` |
| CreateQflow.TryUnlinkOn | index.js:69-73 | the swallowed `unlink` on the disk leaves the state `TryUnlink` describes, whatever the call settles to |
| CreateQflow.TryRmdirOn | index.js:111-116 | the swallowed `rmdir` on the disk leaves the state `TryRmdir` describes, whatever the call settles to |
| CreateQflow.UnlinkAll | index.js:87-94 | the deletion loop on the disk leaves exactly the state `UnlinkEach` describes |
| CreateQflow.AddAgentFilesOn | index.js:57-66 | the mkdir and two copies on the disk report success exactly when `AddAgentFiles` succeeds, and leave its state |
| CreateQflow.SwapIndexOn | index.js:68-83 | the rename by copy-then-delete on the disk reports success exactly when `SwapIndex` succeeds, and leaves its state |
| CreateQflow.ApplyAgentRule | index.js:54-99 | the agent branch on the disk returns the exit status of `AgentRule` and leaves its state |
| CreateQflow.RemoveAgentFilesOn | index.js:105-137 | the swallowed deletions on the disk leave the state `RemoveAgentFiles` describes |
| CreateQflow.ApplyWorkflowRule | index.js:101-167 | the non-agent branch on the disk returns the exit status of `WorkflowRule` and leaves its state |
| CreateQflow.CreateProject | index.js:33-179 | the whole `try` block on the disk returns 0 or 1 as `Run` succeeds or fails, and leaves the state `Run` describes, partial on failure |

## Left out

- The prompts (`inquirer`), coloured console output (`chalk`), the success
  messages, `process.argv`, `process.cwd()` and `__dirname` are I/O. The
  project root, the template tree and the style are parameters instead.
- `process.exit(1)` and the error report: the model returns the exit status,
  1 on failure and 0 otherwise.
- The internals of `fs.cp`: recursion order, symlinks, permissions and
  timestamps. `FileTree.CopyTree` models a collision between a file and a
  directory as a rejection that changes nothing, whereas the real copy may
  stop part way.
- The error codes of `fs.cp`. Node rejects a collision with its own codes,
  `ERR_FS_CP_DIR_TO_NON_DIR` and `ERR_FS_CP_NON_DIR_TO_DIR`.
  `FileTree.CopyTree` reports them as ENOTDIR and EISDIR. The run fails with
  exit status 1 either way.
- `path.join` normalisation and unusual project names such as `..` or
  absolute paths. Paths are fixed segment sequences appended to the root.
- Permission, quota and other I/O errors. Only the structural errors (ENOENT,
  ENOTDIR, EISDIR, EEXIST, ENOTEMPTY, EBUSY) are modelled.
- The `async`/`await` structure. Every call is awaited in order, so there is
  no concurrency to model.
- The contents of the template files. They build flows on an external library
  and are opaque strings in the template tree.
- RunSuccess.RunSucceedsExactly: the condition is proved only for a template
  holding all seven files it reads, with no directory named `.env` at its
  root. For other templates, only the failure cases in
  `AgentRunWithoutIndexAgentFails` and `WorkflowRunWithoutVariantFails` are
  stated.
